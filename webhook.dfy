/**
 * `WebhookService`: the WhatsApp webhook. It answers the subscription
 * handshake and, for each delivery, routes the first message through a small
 * conversation: a text starting with "A" opens customer creation for its
 * sender, and that sender's next message is read as the customer's name,
 * phone and email. The senders waiting for that reply form the only state.
 */
module Webhook {
  import opened Wrappers
  import opened Json
  import Text
  import opened Outbound
  import Clientes
  import ClienteDraft

  const NoClientDetail := "WhatsApp client no configurado"
  const InvalidToken := "Invalid token"
  const Instructions :=
    "**Nuevo cliente**\nEnvia hasta 3 lineas:\n1) Nombre (obligatorio)\n2) Telefono (opcional)\n3) Email (opcional)"
  const NombreObligatorio := "El nombre es obligatorio para crear el cliente."
  const CreatedSuffix := ". Responde A para crear otro o NO para finalizar."
  const FailurePrefix := "No se pudo crear el cliente: "

  /** An exception raised while handling a request. */
  datatype Exc =
    | HttpException(code: nat, detail: string)   // fastapi.HTTPException
    | RequestsError(text: string)                // a requests exception other than HTTPError
    | ServiceError(text: string)                 // ValueError / IntegrityError from the customer service
    | MalformedPayload                           // AttributeError, IndexError or TypeError on the payload

  /** `str(exc)`; an HTTPException prints as "<status>: <detail>". */
  function ExcText(e: Exc): (t: string)
    requires !e.MalformedPayload?
    ensures e.HttpException? ==>
      Text.StartsWith(t, Text.NatToString(e.code) + ": ") && Text.EndsWith(t, e.detail)
    ensures !e.HttpException? ==> t == e.text
  {
    match e
    case HttpException(code, detail) =>
      var prefix := Text.NatToString(code) + ": ";
      assert (prefix + detail)[..|prefix|] == prefix;
      assert (prefix + detail)[|prefix|..] == detail;
      prefix + detail
    case RequestsError(text) => text
    case ServiceError(text) => text
  }

  /** What a request to the webhook came to: a JSON status, or an exception. */
  datatype WebhookResult = Status(status: string) | Failed(exc: Exc)

  // ----- subscription handshake ----------------------------------------------------

  /** `verify_subscription(hub_mode, hub_verify_token, hub_challenge)`. */
  function VerifySubscription(verifyToken: string, mode: Option<string>, token: Option<string>, challenge: Option<int>)
    : (r: Result<Option<int>, Exc>)
    ensures r.Ok? <==> mode == Some("subscribe") && token == Some(verifyToken)
    ensures r.Ok? ==> r.value == challenge
    ensures r.Err? ==> r.error == HttpException(403, InvalidToken)
  {
    if mode == Some("subscribe") && token == Some(verifyToken) then Ok(challenge)
    else Err(HttpException(403, InvalidToken))
  }

  // ----- reading the payload --------------------------------------------------------

  /** `entry[0].changes[0].value` and its `messages`, each step of which may raise. */
  function TryNested(body: map<string, Json>): (r: Py<(Json, Json)>)
    ensures "entry" !in body ==> r.Raised?
    ensures r.Value? ==>
      && r.v.0.JObject?
      && r.v.1 == (if "messages" in r.v.0.fields then r.v.0.fields["messages"] else EmptyList)
  {
    var entry :- Index0(if "entry" in body then body["entry"] else EmptyList);
    var changes :- Get(entry, "changes", EmptyList);
    var change :- Index0(changes);
    var value :- Get(change, "value", EmptyObject);
    var messages :- Get(value, "messages", EmptyList);
    Value((value, messages))
  }

  /**
   * `_extract_messages(body)`: the nested messages when that path yields a
   * truthy list; otherwise `body.get("value", {}).get("messages", [])`. The
   * nested attempt's exceptions are swallowed; only a `value` that is present
   * but not a dict makes the fallback raise.
   */
  function ExtractMessages(body: map<string, Json>): (r: Py<(Json, Json)>)
    ensures TryNested(body).Value? && Truthy(TryNested(body).v.1) ==> r == TryNested(body)
    ensures r.Raised? <==> !(TryNested(body).Value? && Truthy(TryNested(body).v.1)) && "value" in body && !body["value"].JObject?
    ensures r.Value? && !(TryNested(body).Value? && Truthy(TryNested(body).v.1)) ==>
      r.v.0 == (if "value" in body then body["value"] else EmptyObject)
  {
    var nested := TryNested(body);
    if nested.Value? && Truthy(nested.v.1) then nested
    else
      var value := if "value" in body then body["value"] else EmptyObject;
      var messages :- Get(value, "messages", EmptyList);
      Value((value, messages))
  }

  /** The standard Cloud API envelope around a change value. */
  function NestedBody(value: map<string, Json>): map<string, Json> {
    map["entry" := JList([JObject(map["changes" := JList([JObject(map["value" := JObject(value)])])])])]
  }

  /** The nested and the flat payload shapes carry the same messages to the same place. */
  lemma NestedAndFlatAgree(value: map<string, Json>, messages: seq<Json>)
    requires messages != []
    ensures var v := value["messages" := JList(messages)];
      ExtractMessages(NestedBody(v)) == Value((JObject(v), JList(messages)))
      && ExtractMessages(map["value" := JObject(v)]) == Value((JObject(v), JList(messages)))
  {
  }

  /** A payload with neither shape holds no messages, and reading it does not raise. */
  lemma UnrelatedPayloadHasNoMessages(body: map<string, Json>)
    requires "entry" !in body && "value" !in body
    ensures ExtractMessages(body) == Value((EmptyObject, EmptyList))
  {
  }

  /**
   * `_get_contact_name(value)`: `value.contacts[0].profile.name`, or None
   * (JNull) whenever any step is missing or raises. It never raises.
   */
  function GetContactName(value: Json): (name: Json)
    ensures name != JNull ==>
      && value.JObject? && "contacts" in value.fields
      && value.fields["contacts"].JList? && value.fields["contacts"].items != []
      && var first := value.fields["contacts"].items[0];
         && first.JObject? && "profile" in first.fields && first.fields["profile"].JObject?
         && "name" in first.fields["profile"].fields && name == first.fields["profile"].fields["name"]
    ensures value.JObject? && "contacts" in value.fields
      && value.fields["contacts"].JList? && value.fields["contacts"].items != []
      && (var first := value.fields["contacts"].items[0];
          && first.JObject? && "profile" in first.fields && first.fields["profile"].JObject?
          && "name" in first.fields["profile"].fields)
      ==> name == value.fields["contacts"].items[0].fields["profile"].fields["name"]
  {
    var contacts := if Truthy(value) then Get(value, "contacts", EmptyList) else Value(EmptyList);
    if contacts.Raised? || !Truthy(contacts.v) then JNull
    else
      var named := (
        var first :- Index0(contacts.v);
        var profile :- Get(first, "profile", EmptyObject);
        Get(profile, "name", JNull));
      if named.Raised? then JNull else named.v
  }

  /** The usual `contacts` block yields the profile name; a value that is not a dict yields None. */
  lemma ContactNameFound(n: string)
    ensures GetContactName(JObject(map["contacts" := JList([JObject(map["profile" := JObject(map["name" := JStr(n)])])])])) == JStr(n)
  {
    var profile := JObject(map["name" := JStr(n)]);
    var first := JObject(map["profile" := profile]);
    var value := JObject(map["contacts" := JList([first])]);
    assert Get(value, "contacts", EmptyList) == Value(JList([first]));
    assert Index0(JList([first])) == Value(first);
    assert Get(first, "profile", EmptyObject) == Value(profile);
  }

  /** A value that is not a dict yields None instead of raising. */
  lemma ContactNameMissing(other: Json)
    requires !other.JObject?
    ensures GetContactName(other) == JNull
  {
  }

  /**
   * `messages[0]`, its `text.body` stripped, and its `from` (None when absent).
   * It yields a value exactly when `messages` is a non-empty list whose first
   * element is a dict, with `text` a dict and its `body` a string where they
   * are present; every other shape raises.
   */
  function ReadMessage(messages: Json): (r: Py<(string, Json)>)
    ensures r.Value? <==>
      && messages.JList? && messages.items != [] && messages.items[0].JObject?
      && var m := messages.items[0].fields;
         && ("text" in m ==> m["text"].JObject?)
         && ("text" in m && "body" in m["text"].fields ==> m["text"].fields["body"].JStr?)
    ensures r.Value? ==>
      var m := messages.items[0].fields;
      var body := if "text" in m && "body" in m["text"].fields then m["text"].fields["body"].s else "";
      r.v == (Text.Strip(body), if "from" in m then m["from"] else JNull)
    ensures r.Value? ==> Text.Strip(r.v.0) == r.v.0
  {
    var message :- Index0(messages);
    var textObject :- Get(message, "text", EmptyObject);
    var body :- Get(textObject, "body", JStr(""));
    var text :- StripText(body);
    var sender := Get(message, "from", JNull).v;   // `message` is a dict by now
    Text.StripIdempotent(body.s);
    Value((text, sender))
  }

  // ----- the conversation ---------------------------------------------------------

  /** Everything a request can change: the pending senders, the outbound channel, the customer registry. */
  datatype World = World(pending: set<string>, channel: Channel, registry: Clientes.Registry)

  /** The exceptions `_send_message` lets out: a 502 HTTPException, or another requests error. */
  predicate SendExc(e: Exc) {
    e.RequestsError? || (e.HttpException? && e.code == 502)
  }

  /**
   * The 502 detail `_send_message` means to build from a failed response:
   * its status code and its body.
   */
  function ErrorDetail(status: nat, responseText: string): (detail: string)
    ensures Text.StartsWith(detail, "WhatsApp API error " + Text.NatToString(status) + ": ")
    ensures Text.EndsWith(detail, responseText)
  {
    var prefix := "WhatsApp API error " + Text.NatToString(status) + ": ";
    assert (prefix + responseText)[..|prefix|] == prefix;
    assert (prefix + responseText)[|prefix|..] == responseText;
    prefix + responseText
  }

  /**
   * The detail as written: `resp.status_code if resp else ''`, where a
   * `requests.Response` is falsy exactly when its status is 400 or more, which
   * is always the case once `raise_for_status` raised. Both conditionals take
   * their else branch.
   */
  function ErrorDetailAsWritten(status: nat, responseText: string, excText: string): string {
    var responseOk := status < 400;
    "WhatsApp API error " + (if responseOk then Text.NatToString(status) else "") + ": "
      + (if responseOk then responseText else excText)
  }

  /** For every error status the detail as written loses both the status code and the response body. */
  lemma AsWrittenDropsStatus(status: nat, responseText: string, excText: string)
    requires 400 <= status
    ensures ErrorDetailAsWritten(status, responseText, excText) == "WhatsApp API error : " + excText
    ensures ErrorDetailAsWritten(404, "{\"error\":{}}", "404 Client Error") != ErrorDetail(404, "{\"error\":{}}")
  {
    var good := ErrorDetail(404, "{\"error\":{}}");
    assert ErrorDetailAsWritten(404, "{\"error\":{}}", "404 Client Error")[19] == ':';
    assert good[19] != ':' by {
      assert Text.IsDigit(Text.NatToString(404)[0]);
      assert good[19] == Text.NatToString(404)[0];
    }
  }

  /**
   * The exception a failed send becomes in `_send_message`, as written: an
   * HTTP error is reported as 502 with the detail `ErrorDetailAsWritten`
   * builds, which for every error status is "WhatsApp API error : <str(exc)>".
   */
  function SendFailure(r: SendResult): (e: Option<Exc>)
    ensures r.Delivered? <==> e.None?
    ensures r.HttpError? ==> e == Some(HttpException(502, ErrorDetailAsWritten(r.status, r.body, r.text)))
    ensures r.HttpError? && 400 <= r.status ==> e == Some(HttpException(502, "WhatsApp API error : " + r.text))
    ensures r.TransportError? ==> e == Some(RequestsError(r.text))
  {
    match r
    case Delivered => None
    case HttpError(status, body, text) =>
      assert "WhatsApp API error " + "" + ": " == "WhatsApp API error : ";
      Some(HttpException(502, ErrorDetailAsWritten(status, body, text)))
    case TransportError(text) => Some(RequestsError(text))
  }

  /** The same exception with the detail `_send_message` means to build: status code and response body. */
  function SendFailureCorrected(r: SendResult): (e: Option<Exc>)
    ensures r.Delivered? <==> e.None?
    ensures r.HttpError? ==>
      && e.Some? && e.value.HttpException? && e.value.code == 502
      && Text.StartsWith(e.value.detail, "WhatsApp API error " + Text.NatToString(r.status) + ": ")
      && Text.EndsWith(e.value.detail, r.body)
    ensures r.TransportError? ==> e == Some(RequestsError(r.text))
  {
    match r
    case Delivered => None
    case HttpError(status, body, _) => Some(HttpException(502, ErrorDetail(status, body)))
    case TransportError(text) => Some(RequestsError(text))
  }

  /**
   * The two agree on whether a send failed and on everything but the 502
   * detail; for an error status that detail always differs, since only the
   * corrected one has a digit after "WhatsApp API error ".
   */
  lemma CorrectionOnlyChangesDetail(r: SendResult)
    ensures SendFailure(r).None? <==> SendFailureCorrected(r).None?
    ensures !r.HttpError? ==> SendFailure(r) == SendFailureCorrected(r)
    ensures r.HttpError? && 400 <= r.status ==> SendFailure(r) != SendFailureCorrected(r)
  {
    if r.HttpError? && 400 <= r.status {
      var asWritten := SendFailure(r).value.detail;
      var corrected := SendFailureCorrected(r).value.detail;
      var prefix := "WhatsApp API error " + Text.NatToString(r.status) + ": ";
      assert asWritten[19] == ':';
      assert corrected[..|prefix|] == prefix;
      assert corrected[19] == prefix[19] == Text.NatToString(r.status)[0];
    }
  }

  /** `_send_message(recipient, message)` with the client present. */
  function SendText(ch: Channel, recipient: string, message: string): (out: (Option<Exc>, Channel))
    ensures out.1.log == ch.log + [TextMessage(recipient, message)]
    ensures out.0.Some? ==> SendExc(out.0.value)
  {
    var (r, ch') := Deliver(ch, TextMessage(recipient, message));
    (SendFailure(r), ch')
  }

  /** `_start_cliente_flow(sender)`: the sender becomes pending, then the instructions are sent. */
  function StartFlow(pending: set<string>, ch: Channel, sender: string): (out: (WebhookResult, set<string>, Channel))
    ensures out.1 == pending + {sender}
    ensures out.2.log == ch.log + [TextMessage(sender, Instructions)]
    ensures out.0.Status? <==> out.0 == Status("ok")
    ensures out.0.Failed? ==> SendExc(out.0.exc)
  {
    var (failure, ch') := SendText(ch, sender, Instructions);
    if failure.None? then (Status("ok"), pending + {sender}, ch')
    else (Failed(failure.value), pending + {sender}, ch')
  }

  /**
   * `_handle_cliente_creacion(sender, text, cliente_service)`: the draft is
   * created; a refusal or a failed confirmation is reported to the sender, and
   * the sender stops being pending unless that report itself fails.
   */
  function ContinueFlow(w: World, sender: string, text: string, id: string): (out: (WebhookResult, World))
    ensures out.0.Status? <==> out.0 == Status("ok")
    ensures out.0.Failed? ==> SendExc(out.0.exc) && out.1.pending == w.pending
    ensures ClienteDraft.Parse(text).nombre == [] ==>
      && out.1.pending == w.pending && out.1.registry == w.registry
      && out.1.channel.log == w.channel.log + [TextMessage(sender, NombreObligatorio)]
    ensures var d := ClienteDraft.Parse(text);
      d.nombre != [] ==>
        && out.1.registry == Clientes.Create(w.registry, d.nombre, d.telefono, d.email, id).1
        && (out.0.Status? ==> out.1.pending == w.pending - {sender})
  {
    var d := ClienteDraft.Parse(text);
    if d.nombre == [] then
      var (failure, ch') := SendText(w.channel, sender, NombreObligatorio);
      (if failure.None? then Status("ok") else Failed(failure.value), w.(channel := ch'))
    else
      var (res, reg') := Clientes.Create(w.registry, d.nombre, d.telefono, d.email, id);
      AfterCreate(w.pending, w.channel, sender, res, reg')
  }

  /**
   * What follows the service call: the confirmation, or one report of what
   * went wrong; the sender is discarded unless that report could not be sent.
   */
  function AfterCreate(pending: set<string>, ch: Channel, sender: string,
                       res: Result<Clientes.Cliente, Clientes.ClienteError>, reg: Clientes.Registry)
    : (out: (WebhookResult, World))
    ensures out.1.registry == reg
    ensures out.0.Status? ==> out.1.pending == pending - {sender}
    ensures out.0.Failed? ==> out.1.pending == pending
    ensures out.0.Status? ==> out.0 == Status("ok")
    ensures out.0.Failed? ==> SendExc(out.0.exc)
    ensures res.Ok? && Deliver(ch, TextMessage(sender, Confirmation(res.value.nombre))).0.Delivered? ==>
      out == (Status("ok"), World(pending - {sender}, Deliver(ch, TextMessage(sender, Confirmation(res.value.nombre))).1, reg))
    ensures |out.1.channel.log| == |ch.log| + (if res.Ok? then 1 else 0)
      + (if res.Ok? && Deliver(ch, TextMessage(sender, Confirmation(res.value.nombre))).0.Delivered? then 0 else 1)
    ensures res.Err? ==>
      var rep := Deliver(ch, TextMessage(sender, FailurePrefix + Clientes.ErrorText(res.error)));
      out == (if rep.0.Delivered? then Status("ok") else Failed(SendFailure(rep.0).value),
              World(if rep.0.Delivered? then pending - {sender} else pending, rep.1, reg))
    ensures res.Ok? && !Deliver(ch, TextMessage(sender, Confirmation(res.value.nombre))).0.Delivered? ==>
        var first := Deliver(ch, TextMessage(sender, Confirmation(res.value.nombre)));
        var rep := Deliver(first.1, TextMessage(sender, FailurePrefix + ExcText(SendFailure(first.0).value)));
        out == (if rep.0.Delivered? then Status("ok") else Failed(SendFailure(rep.0).value),
                World(if rep.0.Delivered? then pending - {sender} else pending, rep.1, reg))
    ensures out.0 == Status("ok") <==> LastSendDelivered(ch, sender, res)
  {
    var (caught, ch1) :=
      if res.Ok? then SendText(ch, sender, Confirmation(res.value.nombre))
      else (Some(ServiceError(Clientes.ErrorText(res.error))), ch);
    if caught.None? then (Status("ok"), World(pending - {sender}, ch1, reg))
    else
      assert !caught.value.MalformedPayload?;
      var (failure, ch2) := SendText(ch1, sender, FailurePrefix + ExcText(caught.value));
      if failure.None? then (Status("ok"), World(pending - {sender}, ch2, reg))
      else (Failed(failure.value), World(pending, ch2, reg))
  }

  /**
   * Whether the last message sent after the service call is delivered: the
   * confirmation when it goes through, otherwise the failure report after it.
   */
  predicate LastSendDelivered(ch: Channel, sender: string, res: Result<Clientes.Cliente, Clientes.ClienteError>) {
    if res.Err? then
      Deliver(ch, TextMessage(sender, FailurePrefix + Clientes.ErrorText(res.error))).0.Delivered?
    else
      var first := Deliver(ch, TextMessage(sender, Confirmation(res.value.nombre)));
      first.0.Delivered?
      || (SendFailure(first.0).Some?
          && Deliver(first.1, TextMessage(sender, FailurePrefix + ExcText(SendFailure(first.0).value))).0.Delivered?)
  }

  /** "Cliente creado: {nombre}. Responde A para crear otro o NO para finalizar." */
  function Confirmation(nombre: string): (text: string)
    ensures Text.StartsWith(text, "Cliente creado: " + nombre) && Text.EndsWith(text, CreatedSuffix)
  {
    var prefix := "Cliente creado: " + nombre;
    assert (prefix + CreatedSuffix)[..|prefix|] == prefix;
    assert (prefix + CreatedSuffix)[|prefix|..] == CreatedSuffix;
    prefix + CreatedSuffix
  }

  /** The routing of one message's stripped text from a given sender. */
  function Route(w: World, text: string, sender: Json, id: string): (out: (WebhookResult, World))
    ensures text == [] || !Truthy(sender) ==> out == (Status("ignored"), w)
    ensures out.0.Status? ==> out.0 == Status("ok") || out.0 == Status("ignored")
    ensures out.0 == Status("ignored") ==> out.1 == w
    ensures out.0.Failed? ==> out.0.exc == MalformedPayload || SendExc(out.0.exc)
    ensures out.1.pending <= w.pending + (if sender.JStr? then {sender.s} else {})
    ensures out.1.registry != w.registry ==>
      sender.JStr? && sender.s in w.pending && !Text.StartsWith(Text.Upper(text), "A")
  {
    if text == [] || !Truthy(sender) then (Status("ignored"), w)
    else if !sender.JStr? then (Failed(MalformedPayload), w)
    else
      var s := sender.s;
      if Text.StartsWith(Text.Upper(text), "A") then
        var (r, pending', ch') := StartFlow(w.pending, w.channel, s);
        (r, w.(pending := pending', channel := ch'))
      else if s in w.pending then ContinueFlow(w, s, text, id)
      else (Status("ignored"), w)
  }

  /**
   * `handle_webhook(body, cliente_service=...)`: 503 without a client;
   * otherwise the first extracted message is routed. `id` is the id a
   * customer created by this request receives.
   */
  function Handle(hasClient: bool, w: World, body: map<string, Json>, id: string): (out: (WebhookResult, World))
    ensures !hasClient ==> out == (Failed(HttpException(503, NoClientDetail)), w)
    ensures out.0.Status? ==> out.0 == Status("ok") || out.0 == Status("ignored")
    ensures out.0 == Status("ignored") ==> out.1 == w
    ensures out.0.Failed? ==>
      out.0.exc == HttpException(503, NoClientDetail) || out.0.exc == MalformedPayload || SendExc(out.0.exc)
  {
    if !hasClient then (Failed(HttpException(503, NoClientDetail)), w)
    else
      var extracted := ExtractMessages(body);
      if extracted.Raised? then (Failed(MalformedPayload), w)
      else if !Truthy(extracted.v.1) then (Status("ignored"), w)
      else
        var read := ReadMessage(extracted.v.1);
        if read.Raised? then (Failed(MalformedPayload), w)
        else Route(w, read.v.0, read.v.1, id)
  }

  // ----- properties of the conversation --------------------------------------------

  /** Without a client the request fails with 503 before anything is read or changed. */
  lemma NoClientUnavailable(w: World, body: map<string, Json>, id: string)
    ensures Handle(false, w, body, id) == (Failed(HttpException(503, NoClientDetail)), w)
  {
  }

  /** A message without sender, or with missing or blank text, is ignored: nothing sent, nothing changed. */
  lemma IncompleteMessageIgnored(w: World, messages: seq<Json>, fields: map<string, Json>, id: string)
    requires messages != [] && messages[0] == JObject(fields)
    requires "text" in fields ==> fields["text"].JObject?
    requires "text" in fields && "body" in fields["text"].fields ==> fields["text"].fields["body"].JStr?
    requires ("text" !in fields || "body" !in fields["text"].fields || Text.IsBlank(fields["text"].fields["body"].s))
          || "from" !in fields || !Truthy(fields["from"])
    ensures Handle(true, w, map["value" := JObject(map["messages" := JList(messages)])], id) == (Status("ignored"), w)
  {
    var read := ReadMessage(JList(messages));
    assert read.Value?;
    if "text" in fields && "body" in fields["text"].fields && Text.IsBlank(fields["text"].fields["body"].s) {
      assert read.v.0 == [];
    }
  }

  /**
   * A text whose upper-cased form starts with "A" always makes its sender
   * pending, pending before or not, sends exactly the instructions, and is
   * answered "ok" when that send goes through. Nothing else changes.
   */
  lemma APrefixStartsFlow(w: World, text: string, sender: string, id: string)
    requires text != [] && sender != [] && Text.StartsWith(Text.Upper(text), "A")
    ensures var (r, w') := Route(w, text, JStr(sender), id);
      && w'.pending == w.pending + {sender}
      && w'.channel.log == w.channel.log + [TextMessage(sender, Instructions)]
      && w'.registry == w.registry
      && (r == Status("ok") <==> Deliver(w.channel, TextMessage(sender, Instructions)).0.Delivered?)
  {
  }

  /** A sender that is not pending and whose text does not start with "A" is ignored. */
  lemma NotPendingIgnored(w: World, text: string, sender: string, id: string)
    requires sender !in w.pending && !Text.StartsWith(Text.Upper(text), "A")
    ensures Route(w, text, JStr(sender), id) == (Status("ignored"), w)
  {
  }

  /**
   * A continuation from a pending sender hands the parsed draft to the
   * customer service and then does what `AfterCreate` says. A non-blank reply
   * always carries a name, so the empty-name branch is not taken.
   */
  lemma ContinuationOutcome(w: World, text: string, sender: string, id: string)
    requires !Text.IsBlank(text) && sender != []
    requires sender in w.pending && !Text.StartsWith(Text.Upper(text), "A")
    ensures ClienteDraft.Parse(text).nombre != []
    ensures var d := ClienteDraft.Parse(text);
      var c := Clientes.Create(w.registry, d.nombre, d.telefono, d.email, id);
      Route(w, text, JStr(sender), id) == AfterCreate(w.pending, w.channel, sender, c.0, c.1)
  {
    ClienteDraft.NameEmptyIffBlank(text);
    RouteContinues(w, text, sender, id);
    var d := ClienteDraft.Parse(text);
    var c := Clientes.Create(w.registry, d.nombre, d.telefono, d.email, id);
    assert ContinueFlow(w, sender, text, id) == AfterCreate(w.pending, w.channel, sender, c.0, c.1);
  }

  /** A non-empty, non-"A" text from a pending sender goes to the continuation. */
  lemma RouteContinues(w: World, text: string, sender: string, id: string)
    requires text != [] && sender != []
    requires sender in w.pending && !Text.StartsWith(Text.Upper(text), "A")
    ensures Route(w, text, JStr(sender), id) == ContinueFlow(w, sender, text, id)
  {
  }

  /**
   * After a continuation the sender is no longer pending unless the report of
   * a failure could not itself be sent; other senders stay as they were, and
   * the registry is the service's.
   */
  lemma ContinuationDiscards(w: World, text: string, sender: string, id: string)
    requires !Text.IsBlank(text) && sender != []
    requires sender in w.pending && !Text.StartsWith(Text.Upper(text), "A")
    ensures var (r, w') := Route(w, text, JStr(sender), id);
      var d := ClienteDraft.Parse(text);
      && w'.registry == Clientes.Create(w.registry, d.nombre, d.telefono, d.email, id).1
      && (r.Status? ==> r == Status("ok") && w'.pending == w.pending - {sender})
      && (r.Failed? ==> w'.pending == w.pending)
      && (r == Status("ok") <==> LastSendDelivered(w.channel, sender, Clientes.Create(w.registry, d.nombre, d.telefono, d.email, id).0))
  {
    ContinuationOutcome(w, text, sender, id);
  }

  /** After a successful continuation a second reply from the same sender is ignored. */
  lemma SecondReplyIgnored(w: World, text: string, text2: string, sender: string, id: string, id2: string)
    requires !Text.IsBlank(text) && sender != []
    requires sender in w.pending && !Text.StartsWith(Text.Upper(text), "A") && !Text.StartsWith(Text.Upper(text2), "A")
    requires Route(w, text, JStr(sender), id).0 == Status("ok")
    ensures var w' := Route(w, text, JStr(sender), id).1;
      Route(w', text2, JStr(sender), id2) == (Status("ignored"), w')
  {
    ContinuationDiscards(w, text, sender, id);
  }

  /** The classic three-line reply creates the customer from its three lines (a name starting with "A" does not: `ANameRestartsFlow`). */
  lemma DraftRoundTrip(w: World, a: string, b: string, c: string, sender: string, id: string)
    requires ClienteDraft.CleanLine(a) && ClienteDraft.CleanLine(b) && ClienteDraft.CleanLine(c)
    requires sender in w.pending && sender != [] && !Text.StartsWith(Text.Upper(a), "A")
    ensures var text := a + "\n" + b + "\n" + c;
      Route(w, text, JStr(sender), id).1.registry == Clientes.Create(w.registry, a, Some(b), Some(c), id).1
  {
    var text := a + "\n" + b + "\n" + c;
    ClienteDraft.ThreeLines(a, b, c);
    ClienteDraft.NameEmptyIffBlank(text);
    assert Text.Upper(text)[..1] == Text.Upper(a)[..1];
    ContinuationDiscards(w, text, sender, id);
  }

  /**
   * The "A" rule is checked before the pending one, so a pending sender's reply
   * whose name starts with "A" or "a" is read as the command: the flow starts
   * over, no customer is created, and the sender stays pending.
   */
  lemma ANameRestartsFlow(w: World, sender: string, id: string)
    requires sender in w.pending && sender != []
    ensures var (r, w') := Route(w, "Ana\n3001234567\nana@example.com", JStr(sender), id);
      && w'.registry == w.registry
      && w'.pending == w.pending
      && w'.channel.log == w.channel.log + [TextMessage(sender, Instructions)]
  {
    var text := "Ana\n3001234567\nana@example.com";
    assert Text.Upper(text)[..1] == "A";
    APrefixStartsFlow(w, text, sender, id);
  }

  // ----- the service objects -------------------------------------------------------

  /** `WebhookConversationState`: the senders waiting to send customer data. */
  class ConversationState {
    var pending: set<string>

    constructor()
      ensures pending == {}
    {
      pending := {};
    }
  }

  class WebhookService {
    const verifyToken: string
    const state: ConversationState
    const client: Gateway?

    constructor(verifyToken: string, state: ConversationState, client: Gateway?)
      ensures this.verifyToken == verifyToken && this.state == state && this.client == client
    {
      this.verifyToken := verifyToken;
      this.state := state;
      this.client := client;
    }

    /** `_send_message(recipient, message)`; only reached once `handle_webhook` has checked the client. */
    method SendMessage(recipient: string, message: string) returns (failure: Option<Exc>)
      requires client != null
      modifies client
      ensures (failure, client.channel) == SendText(old(client.channel), recipient, message)
    {
      var r := client.Send(TextMessage(recipient, message));
      failure := SendFailure(r);
    }

    /** `_start_cliente_flow(sender)`. */
    method StartClienteFlow(sender: string) returns (r: WebhookResult)
      requires client != null
      modifies state, client
      ensures (r, state.pending, client.channel) == StartFlow(old(state.pending), old(client.channel), sender)
    {
      state.pending := state.pending + {sender};
      var failure := SendMessage(sender, Instructions);
      r := if failure.None? then Status("ok") else Failed(failure.value);
    }

    /** `_handle_cliente_creacion(sender, text, cliente_service)`. */
    method HandleClienteCreacion(sender: string, text: string, cs: Clientes.ClienteService, id: string)
      returns (r: WebhookResult)
      requires client != null
      modifies state, client, cs
      ensures (r, World(state.pending, client.channel, cs.registry))
           == ContinueFlow(World(old(state.pending), old(client.channel), old(cs.registry)), sender, text, id)
    {
      var d := ClienteDraft.Parse(text);
      if d.nombre == [] {
        var failure := SendMessage(sender, NombreObligatorio);
        r := if failure.None? then Status("ok") else Failed(failure.value);
        return;
      }
      var res := cs.CreateCliente(d.nombre, d.telefono, d.email, id);
      r := FinishCreacion(sender, res, cs.registry);
    }

    /** The confirmation or the report of a failure, then the discard of the sender. */
    method FinishCreacion(sender: string, res: Result<Clientes.Cliente, Clientes.ClienteError>, ghost reg: Clientes.Registry)
      returns (r: WebhookResult)
      requires client != null
      modifies state, client
      ensures (r, World(state.pending, client.channel, reg)) == AfterCreate(old(state.pending), old(client.channel), sender, res, reg)
    {
      var caught: Option<Exc>;
      if res.Ok? {
        caught := SendMessage(sender, Confirmation(res.value.nombre));
      } else {
        caught := Some(ServiceError(Clientes.ErrorText(res.error)));
      }
      if caught.Some? {
        var failure := SendMessage(sender, FailurePrefix + ExcText(caught.value));
        if failure.Some? {
          return Failed(failure.value);
        }
      }
      state.pending := state.pending - {sender};
      r := Status("ok");
    }

    /** `handle_webhook(body, cliente_service=cs)`, with `id` for a customer it may create. */
    method HandleWebhook(body: map<string, Json>, cs: Clientes.ClienteService, id: string) returns (r: WebhookResult)
      modifies state, client, cs
      ensures client == null ==>
        r == Failed(HttpException(503, NoClientDetail))
        && state.pending == old(state.pending) && cs.registry == old(cs.registry)
      ensures client != null ==>
        (r, World(state.pending, client.channel, cs.registry))
        == Handle(true, World(old(state.pending), old(client.channel), old(cs.registry)), body, id)
    {
      if client == null {
        return Failed(HttpException(503, NoClientDetail));
      }
      var extracted := ExtractMessages(body);
      if extracted.Raised? {
        return Failed(MalformedPayload);
      }
      var messages := extracted.v.1;
      if !Truthy(messages) {
        return Status("ignored");
      }
      var read := ReadMessage(messages);
      if read.Raised? {
        return Failed(MalformedPayload);
      }
      var (text, sender) := read.v;
      if text == [] || !Truthy(sender) {
        return Status("ignored");
      }
      if !sender.JStr? {
        return Failed(MalformedPayload);
      }
      if Text.StartsWith(Text.Upper(text), "A") {
        r := StartClienteFlow(sender.s);
        return;
      }
      if sender.s in state.pending {
        r := HandleClienteCreacion(sender.s, text, cs, id);
        return;
      }
      r := Status("ignored");
    }
  }
}
