/**
 * `MessageHandlerService`: a stateless router for one incoming text. Its
 * rules, in priority order: empty text, the "+"/"-" shortcuts, the exact "A"
 * shortcut (menu), greetings, and customer creation from a multi-line text.
 * Sends go to the scripted channel of `Outbound`; a failed send raises.
 */
module MessageHandler {
  import opened Wrappers
  import Text
  import opened Outbound
  import Clientes
  import ClienteDraft

  const Greetings: set<string> := {"hola", "hello", "hi", "buenas tardes"}
  const MenuBody := "*Menu*\nElige una opcion:"
  const MenuButtons: seq<Button> := [Button("crear_cliente", "Crear cliente")]
  const NombreObligatorio := "El nombre es obligatorio para crear el cliente."
  const ServiceMissing := "Cliente service no configurado"

  /**
   * `MessageHandlerService(whatsapp_client, cliente_service)`: which
   * collaborators are configured, and whether the client has `send_buttons`.
   */
  datatype Handler = Handler(hasClient: bool, clientHasButtons: bool, hasService: bool)

  /** `sender_info.get("id")` and `sender_info.get("name")`; both None for a falsy `sender_info`. */
  datatype SenderInfo = SenderInfo(id: Option<string>, name: Option<string>)

  /** Python truthiness of an optional string. */
  predicate Present(s: Option<string>) {
    s.Some? && s.value != []
  }

  /** `is_greeting(message)`: false for "", else whether the trimmed, lower-cased text is a known greeting. */
  predicate IsGreeting(message: string) {
    message != [] && Text.NormalizeName(message) in Greetings
  }

  /** Surrounding whitespace and ASCII letter case never change whether a text is a greeting. */
  lemma GreetingIgnoresCaseAndSpace(message: string)
    ensures IsGreeting(message) <==> IsGreeting(Text.Strip(message))
    ensures IsGreeting(message) <==> IsGreeting(Text.Lower(message))
  {
    Text.StripIdempotent(message);
    Text.StripLower(message);
    Text.LowerIdempotent(Text.Strip(message));
    Text.StripCharsEmptyIff(message, Text.Whitespace);
    Text.StripCharsEmptyIff(Text.Lower(message), Text.Whitespace);
    forall i | 0 <= i < |message| ensures Text.Lower(message)[i] in Text.Whitespace <==> message[i] in Text.Whitespace {
      Text.LowerCharSpace(message[i]);
    }
  }

  /** Greetings are recognised whatever the surrounding whitespace and letter case; extra words are not. */
  lemma GreetingExamples()
    ensures IsGreeting("hola") && IsGreeting("Hi")
    ensures !IsGreeting("") && !IsGreeting("hola amigo") && !IsGreeting("ok")
  {
    Text.StripCharsNoop("hola", Text.Whitespace);
    assert Text.Lower("hola") == "hola";
    Text.StripCharsNoop("Hi", Text.Whitespace);
    assert Text.Lower("Hi") == "hi";
    Text.StripCharsNoop("hola amigo", Text.Whitespace);
    Text.StripCharsNoop("ok", Text.Whitespace);
    assert Text.Lower("ok") == "ok";
  }

  /** Why `create_cliente_from_text` raised. */
  datatype CreateError =
    | NoService                        // RuntimeError("Cliente service no configurado")
    | NameRequired                     // ValueError("El nombre es obligatorio para crear el cliente.")
    | Rejected(e: Clientes.ClienteError)

  /** `str(exc)` for each of those exceptions. */
  function CreateErrorText(e: CreateError): (t: string)
    ensures t != []
    ensures e.Rejected? ==> t == Clientes.ErrorText(e.e)
    ensures e.NameRequired? <==> t == NombreObligatorio
    ensures e.NoService? <==> t == ServiceMissing
  {
    match e
    case NoService => ServiceMissing
    case NameRequired => NombreObligatorio
    case Rejected(ce) => Clientes.ErrorText(ce)
  }

  /**
   * `create_cliente_from_text(message)`: parses the draft and hands it to the
   * customer service, whose registry is `reg`; `id` is the new record's id.
   */
  function CreateClienteFromText(h: Handler, reg: Clientes.Registry, message: string, id: string)
    : (out: (Result<Clientes.Cliente, CreateError>, Clientes.Registry))
    ensures !h.hasService ==> out == (Err(NoService), reg)
    ensures h.hasService && Text.IsBlank(message) ==> out == (Err(NameRequired), reg)
    ensures h.hasService && !Text.IsBlank(message) ==>
      var d := ClienteDraft.Parse(message);
      var (res, reg') := Clientes.Create(reg, d.nombre, d.telefono, d.email, id);
      out.1 == reg' && (res.Ok? ==> out.0 == Ok(res.value)) && (res.Err? ==> out.0 == Err(Rejected(res.error)))
  {
    if !h.hasService then (Err(NoService), reg)
    else
      var d := ClienteDraft.Parse(message);
      ClienteDraft.NameEmptyIffBlank(message);
      if d.nombre == [] then (Err(NameRequired), reg)
      else
        var (res, reg') := Clientes.Create(reg, d.nombre, d.telefono, d.email, id);
        if res.Ok? then (Ok(res.value), reg') else (Err(Rejected(res.error)), reg')
  }

  /** The dict `handle_incoming_message` returns, or the exception that escaped it. */
  datatype Outcome =
    | IgnoredEmpty                                        // {"status": "ignored", "reason": "empty_message"}
    | Shortcut(shortcut: string, recipient: Option<string>)
    | Greeted(recipient: Option<string>)
    | ClienteCreated(id: string, nombre: string)          // {"status": "handled", "type": "cliente_created", ...}
    | ClienteFailed(error: string)                        // {"status": "error", "type": "cliente", "error": ...}
    | IgnoredUnknown(recipient: Option<string>)
    | Raised(error: string)                               // a send raised and nothing caught it

  /** `f"Hola {sender_name}".strip() if sender_name else "Hola"`. */
  function GreetingReply(name: Option<string>): (reply: string)
    ensures !Present(name) ==> reply == "Hola"
    ensures Present(name) ==> reply == Text.Strip("Hola " + name.value)
  {
    if Present(name) then Text.Strip("Hola " + name.value) else "Hola"
  }

  /** A name with nothing to strip at its end is greeted as "Hola <name>". */
  lemma GreetingWithName(name: string)
    requires name != [] && !Text.IsSpace(name[|name| - 1])
    ensures GreetingReply(Some(name)) == "Hola " + name
  {
    var s := "Hola " + name;
    Text.StripCharsNoop(s, Text.Whitespace);
  }

  /** One send when the client and the sender id are both there; none otherwise. */
  function SendIfAble(h: Handler, ch: Channel, sender: SenderInfo, m: Outgoing): (out: (SendResult, Channel))
    ensures !(h.hasClient && Present(sender.id)) ==> out == (Delivered, ch)
    ensures h.hasClient && Present(sender.id) ==> out == Deliver(ch, m)
  {
    if h.hasClient && Present(sender.id) then Deliver(ch, m) else (Delivered, ch)
  }

  /** The confirmation, "Cliente creado: {nombre}.". */
  function CreatedText(nombre: string): string {
    "Cliente creado: " + nombre + "."
  }

  /** The failure report, "No se pudo crear el cliente: {exc}". */
  function FailedText(error: string): string {
    "No se pudo crear el cliente: " + error
  }

  /** Whether the handler can send to this sender: a client and a truthy sender id. */
  predicate CanSend(h: Handler, sender: SenderInfo) {
    h.hasClient && Present(sender.id)
  }

  /**
   * The reply to a creation attempt: the confirmation, or "No se pudo crear
   * el cliente: <error>" when creation or the confirmation failed; a failure
   * of that last send escapes. Nothing is sent when the handler cannot send,
   * and the registry is the one creation left.
   */
  function ReportCreation(h: Handler, ch: Channel, sender: SenderInfo,
                          res: Result<Clientes.Cliente, CreateError>, reg: Clientes.Registry)
    : (out: (Outcome, Channel, Clientes.Registry))
    ensures out.2 == reg
    ensures ch.log <= out.1.log && |out.1.log| <= |ch.log| + 2
    ensures out.0.ClienteCreated? || out.0.ClienteFailed? || out.0.Raised?
    ensures out.0.ClienteCreated? ==> res.Ok? && out.0 == ClienteCreated(res.value.id, res.value.nombre)
    ensures !CanSend(h, sender) ==> out.1 == ch && !out.0.Raised?
    // without the means to send: created or failed with the creation error, silently
    ensures !CanSend(h, sender) && res.Ok? ==> out == (ClienteCreated(res.value.id, res.value.nombre), ch, reg)
    ensures !CanSend(h, sender) && res.Err? ==> out == (ClienteFailed(CreateErrorText(res.error)), ch, reg)
    // a refused creation: one report, and the outcome is the error unless that report fails
    ensures CanSend(h, sender) && res.Err? ==>
      var report := TextMessage(sender.id.value, FailedText(CreateErrorText(res.error)));
      && out.1 == Deliver(ch, report).1
      && out.0 == (if Deliver(ch, report).0.Delivered? then ClienteFailed(CreateErrorText(res.error))
                   else Raised(FailureText(Deliver(ch, report).0)))
    // a created customer: the confirmation, and success exactly when it went through
    ensures CanSend(h, sender) && res.Ok? ==>
      var confirm := Deliver(ch, TextMessage(sender.id.value, CreatedText(res.value.nombre)));
      && (confirm.0.Delivered? <==> out.0.ClienteCreated?)
      && (confirm.0.Delivered? ==> out.1 == confirm.1)
      && (!confirm.0.Delivered? ==>
            var report := Deliver(confirm.1, TextMessage(sender.id.value, FailedText(FailureText(confirm.0))));
            && out.1 == report.1
            && out.0 == (if report.0.Delivered? then ClienteFailed(FailureText(confirm.0))
                         else Raised(FailureText(report.0))))
  {
    var to := sender.id.GetOr("");
    var (failure, ch1) :=
      if res.Ok? then
        var (r, c) := SendIfAble(h, ch, sender, TextMessage(to, CreatedText(res.value.nombre)));
        (if r.Delivered? then None else Some(FailureText(r)), c)
      else (Some(CreateErrorText(res.error)), ch);
    if failure.None? then (ClienteCreated(res.value.id, res.value.nombre), ch1, reg)
    else
      var (r2, ch2) := SendIfAble(h, ch1, sender, TextMessage(to, FailedText(failure.value)));
      if r2.Delivered? then (ClienteFailed(failure.value), ch2, reg) else (Raised(FailureText(r2)), ch2, reg)
  }

  /**
   * `handle_incoming_message(message, sender_info)` with the channel `ch`,
   * the customer registry `reg`, and `id` for a customer it may create.
   */
  function HandleIncomingMessage(h: Handler, ch: Channel, reg: Clientes.Registry, message: string,
                                 sender: SenderInfo, id: string)
    : (out: (Outcome, Channel, Clientes.Registry))
    ensures message == [] ==> out == (IgnoredEmpty, ch, reg)
    ensures ch.log <= out.1.log && |out.1.log| <= |ch.log| + 2
    ensures out.0.Raised? ==> CanSend(h, sender)
    ensures out.2 != reg ==> '\n' in message && h.hasService
  {
    if message == [] then (IgnoredEmpty, ch, reg)
    else
      var t := Text.Strip(message);
      if t == "+" || t == "-" then (Shortcut(t, sender.id), ch, reg)
      else if Text.Upper(t) == "A" then
        if h.hasClient && Present(sender.id) && h.clientHasButtons then
          var (r, ch') := Deliver(ch, ButtonMessage(sender.id.value, MenuBody, MenuButtons));
          if r.Delivered? then (Shortcut("A", sender.id), ch', reg) else (Raised(FailureText(r)), ch', reg)
        else (Shortcut("A", sender.id), ch, reg)
      else if IsGreeting(t) then
        var (r, ch') := SendIfAble(h, ch, sender, TextMessage(sender.id.GetOr(""), GreetingReply(sender.name)));
        if r.Delivered? then (Greeted(sender.id), ch', reg) else (Raised(FailureText(r)), ch', reg)
      else if '\n' in message && h.hasService then
        var (res, reg') := CreateClienteFromText(h, reg, message, id);
        ReportCreation(h, ch, sender, res, reg')
      else (IgnoredUnknown(sender.id), ch, reg)
  }

  // ----- properties of the router ------------------------------------------------

  /** An empty message is ignored with reason "empty_message"; nothing is sent or stored. */
  lemma EmptyIgnored(h: Handler, ch: Channel, reg: Clientes.Registry, sender: SenderInfo, id: string)
    ensures HandleIncomingMessage(h, ch, reg, "", sender, id) == (IgnoredEmpty, ch, reg)
  {
  }

  /** "+" and "-" (after trimming) are echoed back as shortcuts without sending anything. */
  lemma PlusMinusSilent(h: Handler, ch: Channel, reg: Clientes.Registry, message: string, sender: SenderInfo, id: string)
    requires Text.Strip(message) == "+" || Text.Strip(message) == "-"
    ensures HandleIncomingMessage(h, ch, reg, message, sender, id) == (Shortcut(Text.Strip(message), sender.id), ch, reg)
  {
  }

  /**
   * A trimmed "A" or "a" is the menu shortcut: the menu goes out exactly when
   * the client (with buttons) and the sender id are there, and nothing is stored.
   */
  lemma MenuShortcut(h: Handler, ch: Channel, reg: Clientes.Registry, message: string, sender: SenderInfo, id: string)
    requires Text.Strip(message) == "A" || Text.Strip(message) == "a"
    ensures var (out, ch', reg') := HandleIncomingMessage(h, ch, reg, message, sender, id);
      && reg' == reg
      && (h.hasClient && Present(sender.id) && h.clientHasButtons ==>
            ch'.log == ch.log + [ButtonMessage(sender.id.value, MenuBody, MenuButtons)])
      && (!(h.hasClient && Present(sender.id) && h.clientHasButtons) ==> out == Shortcut("A", sender.id) && ch' == ch)
      && (out.Shortcut? ==> out.shortcut == "A")
      && (out == Shortcut("A", sender.id) || out.Raised?)
      && (h.hasClient && Present(sender.id) && h.clientHasButtons ==>
            (out == Shortcut("A", sender.id) <==> Deliver(ch, ButtonMessage(sender.id.value, MenuBody, MenuButtons)).0.Delivered?))
  {
    assert message != [];
  }

  /** Text merely starting with "A" is not the menu shortcut here. */
  lemma AIsExactMatch(h: Handler, ch: Channel, reg: Clientes.Registry, sender: SenderInfo, id: string)
    ensures HandleIncomingMessage(h, ch, reg, "Alta", sender, id).0 == IgnoredUnknown(sender.id)
  {
    Text.StripCharsNoop("Alta", Text.Whitespace);
    assert Text.Upper("Alta") != "A";
    assert !IsGreeting("Alta") by {
      assert Text.Lower("Alta") == "alta";
    }
    assert '\n' !in "Alta";
  }

  /**
   * A greeting is answered with "Hola <name>" (or "Hola") when the client and
   * the sender id are there; otherwise nothing is sent. Nothing is stored.
   */
  lemma GreetingAnswered(h: Handler, ch: Channel, reg: Clientes.Registry, message: string, sender: SenderInfo, id: string)
    requires IsGreeting(Text.Strip(message))
    ensures var (out, ch', reg') := HandleIncomingMessage(h, ch, reg, message, sender, id);
      && reg' == reg
      && (h.hasClient && Present(sender.id) ==>
            ch'.log == ch.log + [TextMessage(sender.id.value, GreetingReply(sender.name))])
      && (!(h.hasClient && Present(sender.id)) ==> out == Greeted(sender.id) && ch' == ch)
      && (out == Greeted(sender.id) || out.Raised?)
      && (h.hasClient && Present(sender.id) ==>
            (out == Greeted(sender.id) <==> Deliver(ch, TextMessage(sender.id.value, GreetingReply(sender.name))).0.Delivered?))
  {
    var t := Text.Strip(message);
    Text.StripIdempotent(message);
    assert Text.NormalizeName(t) in Greetings;
    assert |Text.NormalizeName(t)| >= 2;
    assert |Text.Upper(t)| == |t| == |Text.Strip(t)|;
  }

  /**
   * Creation happens only for a multi-line text with a customer service
   * configured, after the shortcut, menu and greeting rules have declined.
   */
  lemma CreationOnlyForMultiline(h: Handler, ch: Channel, reg: Clientes.Registry, message: string, sender: SenderInfo, id: string)
    requires var out := HandleIncomingMessage(h, ch, reg, message, sender, id).0;
      out.ClienteCreated? || out.ClienteFailed? || HandleIncomingMessage(h, ch, reg, message, sender, id).2 != reg
    ensures '\n' in message && h.hasService
    ensures var t := Text.Strip(message); t != "+" && t != "-" && Text.Upper(t) != "A" && !IsGreeting(t)
  {
  }

  /** Without a client nothing is ever sent, whatever the message. */
  lemma NoClientNoSend(h: Handler, ch: Channel, reg: Clientes.Registry, message: string, sender: SenderInfo, id: string)
    requires !h.hasClient
    ensures HandleIncomingMessage(h, ch, reg, message, sender, id).1 == ch
    ensures !HandleIncomingMessage(h, ch, reg, message, sender, id).0.Raised?
  {
  }

  /**
   * Conversely, a multi-line text with a customer service, declined by the
   * shortcut, menu and greeting rules, is handed to creation: the registry
   * becomes what the service makes of the parsed draft, and the outcome is
   * `ReportCreation` of that result.
   */
  lemma CreationReached(h: Handler, ch: Channel, reg: Clientes.Registry, message: string, sender: SenderInfo, id: string)
    requires '\n' in message && h.hasService
    requires var t := Text.Strip(message); t != "+" && t != "-" && Text.Upper(t) != "A" && !IsGreeting(t)
    ensures var c := CreateClienteFromText(h, reg, message, id);
      HandleIncomingMessage(h, ch, reg, message, sender, id) == ReportCreation(h, ch, sender, c.0, c.1)
    ensures !Text.IsBlank(message) ==>
      var d := ClienteDraft.Parse(message);
      HandleIncomingMessage(h, ch, reg, message, sender, id).2 == Clientes.Create(reg, d.nombre, d.telefono, d.email, id).1
  {
    assert message != [];
  }

  /**
   * Every other text that no earlier rule takes (single-line, or no customer
   * service) is ignored as unknown, with the sender id echoed; nothing is sent
   * or stored.
   */
  lemma OtherwiseUnknown(h: Handler, ch: Channel, reg: Clientes.Registry, message: string, sender: SenderInfo, id: string)
    requires message != []
    requires var t := Text.Strip(message); t != "+" && t != "-" && Text.Upper(t) != "A" && !IsGreeting(t)
    requires '\n' !in message || !h.hasService
    ensures HandleIncomingMessage(h, ch, reg, message, sender, id) == (IgnoredUnknown(sender.id), ch, reg)
  {
  }

  /**
   * A reply made only of line breaks reaches creation with an empty name: it
   * is reported as "El nombre es obligatorio ..." to a sender the handler can
   * reach, and the outcome is that error unless the report itself fails.
   */
  lemma OnlyLineBreaksIsError(h: Handler, ch: Channel, reg: Clientes.Registry, sender: SenderInfo, id: string)
    requires h.hasService
    ensures var out := HandleIncomingMessage(h, ch, reg, "\n\n", sender, id);
      && out.2 == reg
      && (out.0 == ClienteFailed(NombreObligatorio) || out.0.Raised?)
      && (!CanSend(h, sender) ==> out == (ClienteFailed(NombreObligatorio), ch, reg))
      && (CanSend(h, sender) ==> out.1.log == ch.log + [TextMessage(sender.id.value, FailedText(NombreObligatorio))])
  {
    Text.StripCharsEmptyIff("\n\n", Text.Whitespace);
    assert Text.Strip("\n\n") == [];
    assert Text.Upper([]) == [];
    assert Text.IsBlank("\n\n");
    CreationReached(h, ch, reg, "\n\n", sender, id);
  }
}
