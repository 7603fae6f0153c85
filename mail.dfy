/**
 * The mail transport and the HTTP response, seen from the handlers.
 *
 * The SMTP client is an oracle: it is handed, in advance, the outcome of
 * each send it will be asked to make, and it records every message it is
 * asked to send, whether or not that send succeeds.
 */
module Mail {
  import opened Js

  /** The company's two fixed mailboxes. */
  const SalesAddress := "sale@asianimportexport.com"
  const InfoAddress := "info@asianimportexport.com"

  /** The process environment values the handlers interpolate (`SMTP_USER`, `OWNER_EMAIL`). */
  datatype Env = Env(smtpUser: JsValue, ownerEmail: JsValue)

  /** The options object passed to `sendMail`: `text` is only given by the inquiry handler. */
  datatype MailOptions = MailOptions(from: string, to: JsValue, subject: string, text: Option<string>, html: string)

  /** What one `sendMail` call does: resolve, or reject (the handler then catches). */
  datatype Outcome = Sent | Failed

  /** The outcome the next send gets; once the planned outcomes run out, sends fail. */
  function NextOutcome(script: seq<Outcome>): Outcome
  {
    if script == [] then Failed else script[0]
  }

  /** The planned outcomes left after one send. */
  function AfterSend(script: seq<Outcome>): seq<Outcome>
  {
    if script == [] then [] else script[1..]
  }

  class Transport {
    /** The outcomes still to be handed out, in order. */
    var script: seq<Outcome>
    /** Every message a send was attempted for, in order. */
    var log: seq<MailOptions>

    constructor (script: seq<Outcome>)
      ensures this.script == script && log == []
    {
      this.script := script;
      log := [];
    }

    /** `await transporter.sendMail(m)`: `ok` is false when the promise rejects. */
    method SendMail(m: MailOptions) returns (ok: bool)
      modifies this
      ensures log == old(log) + [m]
      ensures ok <==> NextOutcome(old(script)) == Sent
      ensures script == AfterSend(old(script))
    {
      log := log + [m];
      if script == [] {
        ok := false;
      } else {
        ok := script[0] == Sent;
        script := script[1..];
      }
    }
  }

  /** The JSON values the handlers put into a response body. */
  datatype Json = JBool(b: bool) | JString(s: string)

  /** `res.status(status).json(body)`. */
  datatype Response = Response(status: int, body: map<string, Json>)
}
