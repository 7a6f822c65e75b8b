/**
 * The outbound WhatsApp sender as the conversation code sees it: a collaborator
 * whose sends may fail. Which sends fail is not decided here; the caller supplies
 * the outcomes of the upcoming sends as a script, so every property proved below
 * holds for every pattern of failures.
 */
module Outbound {

  /** One quick-reply button as passed to `send_buttons` (a dict with `id` and `title`). */
  datatype Button = Button(id: string, title: string)

  /** A message handed to the WhatsApp client. */
  datatype Outgoing =
    | TextMessage(to: string, body: string)
    | ButtonMessage(to: string, body: string, buttons: seq<Button>)

  /** What one call into the WhatsApp API came to. */
  datatype SendResult =
    | Delivered
      /** `raise_for_status` raised `requests.HTTPError`; `text` is `str(exc)`. */
    | HttpError(status: nat, body: string, text: string)
      /** Any other exception out of `requests.post` (connection error, timeout). */
    | TransportError(text: string)

  /** `str(exc)` for the exception a failed send raised. */
  function FailureText(r: SendResult): string
    requires !r.Delivered?
  {
    r.text
  }

  /** The client's record of attempted sends and the outcomes still to come. */
  datatype Channel = Channel(log: seq<Outgoing>, script: seq<SendResult>)

  /** One send: it is logged, and takes the next scripted outcome (delivered once the script runs out). */
  function Deliver(ch: Channel, m: Outgoing): (r: (SendResult, Channel))
    ensures r.1.log == ch.log + [m]
    ensures ch.script != [] ==> r.0 == ch.script[0] && r.1.script == ch.script[1..]
    ensures ch.script == [] ==> r.0 == Delivered && r.1.script == []
  {
    if ch.script == [] then (Delivered, ch.(log := ch.log + [m]))
    else (ch.script[0], Channel(ch.log + [m], ch.script[1..]))
  }

  /** A WhatsApp client object; `Send` stands for `send_message` / `send_buttons`. */
  class Gateway {
    var channel: Channel

    constructor (script: seq<SendResult>)
      ensures channel == Channel([], script)
    {
      channel := Channel([], script);
    }

    method Send(m: Outgoing) returns (r: SendResult)
      modifies this
      ensures (r, channel) == Deliver(old(channel), m)
    {
      r := if channel.script == [] then Delivered else channel.script[0];
      channel := Channel(channel.log + [m], if channel.script == [] then [] else channel.script[1..]);
    }
  }
}
