/**
 * The WhatsApp Cloud API client: base-URL normalisation and the requests it
 * builds for a text message and for a quick-reply button message. Posting the
 * request is the network part and is represented by `Outbound`.
 */
module WhatsAppClient {
  import opened Json
  import Text
  import opened Outbound

  /** At most this many reply buttons are sent. */
  const MaxButtons: nat := 3

  const Slash: set<char> := {'/'}

  datatype Client = Client(apiUrl: string, token: string)

  /** `WhatsAppClient(api_url, token)`: the URL loses every trailing `/`. */
  function NewClient(apiUrl: string, token: string): (c: Client)
    ensures c.token == token
    ensures c.apiUrl <= apiUrl
    ensures forall i | |c.apiUrl| <= i < |apiUrl| :: apiUrl[i] == '/'
    ensures c.apiUrl == [] || c.apiUrl[|c.apiUrl| - 1] != '/'
  {
    Client(Text.TrimEnd(apiUrl, Slash), token)
  }

  /** An HTTP POST as `requests.post` is called with it. */
  datatype HttpPost = HttpPost(url: string, authorization: string, payload: Json, timeoutSeconds: nat)

  function MessagesUrl(c: Client): string {
    c.apiUrl + "/messages"
  }

  function Authorization(c: Client): string {
    "Bearer " + c.token
  }

  function TextPayload(recipient: string, message: string): (p: Json)
    ensures p.JObject? && p.fields.Keys == {"messaging_product", "to", "type", "text"}
    ensures p.fields["to"] == JStr(recipient)
  {
    JObject(map[
      "messaging_product" := JStr("whatsapp"),
      "to" := JStr(recipient),
      "type" := JStr("text"),
      "text" := JObject(map["body" := JStr(message)])
    ])
  }

  function ReplyButton(b: Button): Json {
    JObject(map["type" := JStr("reply"), "reply" := JObject(map["id" := JStr(b.id), "title" := JStr(b.title)])])
  }

  /** `[{"type": "reply", ...} for btn in buttons][:3]`. */
  function MappedButtons(buttons: seq<Button>): (sent: seq<Json>)
    ensures |sent| <= MaxButtons && |sent| <= |buttons|
    ensures |buttons| <= MaxButtons ==> |sent| == |buttons|
    ensures forall i | 0 <= i < |sent| :: sent[i] == ReplyButton(buttons[i])
  {
    var mapped := seq(|buttons|, i requires 0 <= i < |buttons| => ReplyButton(buttons[i]));
    if |mapped| <= MaxButtons then mapped else mapped[..MaxButtons]
  }

  function ButtonsPayload(recipient: string, bodyText: string, buttons: seq<Button>): (p: Json)
    ensures p.JObject? && p.fields.Keys == {"messaging_product", "to", "type", "interactive"}
    ensures p.fields["to"] == JStr(recipient)
  {
    JObject(map[
      "messaging_product" := JStr("whatsapp"),
      "to" := JStr(recipient),
      "type" := JStr("interactive"),
      "interactive" := JObject(map[
        "type" := JStr("button"),
        "body" := JObject(map["text" := JStr(bodyText)]),
        "action" := JObject(map["buttons" := JList(MappedButtons(buttons))])
      ])
    ])
  }

  /** The request `send_message` / `send_buttons` posts for a message. */
  function RequestFor(c: Client, m: Outgoing): (r: HttpPost)
    ensures r.url == c.apiUrl + "/messages" && r.authorization == "Bearer " + c.token
    ensures r.timeoutSeconds == 10
  {
    match m
    case TextMessage(to, body) => HttpPost(MessagesUrl(c), Authorization(c), TextPayload(to, body), 10)
    case ButtonMessage(to, body, buttons) =>
      HttpPost(MessagesUrl(c), Authorization(c), ButtonsPayload(to, body, buttons), 10)
  }

  /** Trailing slashes on the configured URL never reach the request URL. */
  lemma {:induction false} TrailingSlashesIgnored(apiUrl: string, slashes: string, token: string)
    requires forall i | 0 <= i < |slashes| :: slashes[i] == '/'
    ensures NewClient(apiUrl + slashes, token) == NewClient(apiUrl, token)
  {
    var n := Text.EndOutside(apiUrl, Slash);
    Text.EndOutsideUnique(apiUrl + slashes, Slash, n);
    assert (apiUrl + slashes)[..n] == apiUrl[..n];
  }

  /** Building a client from an already normalised URL keeps it. */
  lemma NewClientIdempotent(apiUrl: string, token: string)
    ensures NewClient(NewClient(apiUrl, token).apiUrl, token) == NewClient(apiUrl, token)
  {
    var u := NewClient(apiUrl, token).apiUrl;
    Text.EndOutsideUnique(u, Slash, |u|);
  }

  /** The text envelope: product, recipient, type and body. */
  lemma TextPayloadShape(recipient: string, message: string)
    ensures var p := TextPayload(recipient, message).fields;
      && p.Keys == {"messaging_product", "to", "type", "text"}
      && p["messaging_product"] == JStr("whatsapp") && p["to"] == JStr(recipient)
      && p["type"] == JStr("text") && p["text"] == JObject(map["body" := JStr(message)])
  {
  }

  /** Exactly the first min(3, n) buttons are sent, in order, each as a reply button. */
  lemma ButtonsTruncated(recipient: string, bodyText: string, buttons: seq<Button>)
    ensures var p := ButtonsPayload(recipient, bodyText, buttons).fields;
      && p["type"] == JStr("interactive") && p["to"] == JStr(recipient)
      && var inter := p["interactive"].fields;
      && inter["type"] == JStr("button")
      && inter["body"] == JObject(map["text" := JStr(bodyText)])
      && var sent := inter["action"].fields["buttons"].items;
      && |sent| == (if |buttons| < MaxButtons then |buttons| else MaxButtons)
      && forall i | 0 <= i < |sent| ::
           sent[i] == JObject(map["type" := JStr("reply"),
                                  "reply" := JObject(map["id" := JStr(buttons[i].id), "title" := JStr(buttons[i].title)])])
  {
  }
}
