/**
 * The two end-to-end exchanges the system is expected to support, each run
 * against a fresh transport whose sends all succeed.
 */
module Scenarios {
  import opened Js
  import opened Mail
  import opened Inquiry
  import opened Invoice

  /** A general contact request from Alice: one message, to the info mailbox, with the default subject. */
  method GeneralInquiry(env: Env) returns (res: Response, log: seq<MailOptions>)
    ensures res == EmailSent
    ensures |log| == 1 && log[0].to == Str(InfoAddress) && log[0].subject == DefaultSubject
  {
    var p := Payload(Str("Alice"), Str("a@x.com"), Undefined, Undefined, Str("Hi"),
                     Undefined, Undefined, Undefined, Str("general"), Undefined, Undefined);
    var transport := new Transport([Sent]);
    res := HandleSendEmail(transport, p, env);
    log := transport.log;
  }

  /** A two-item order paid by bank transfer: two messages, to the customer then to sales, and the order id back. */
  method TwoItemOrder(orderId: string, date: string, env: Env) returns (res: Response, log: seq<MailOptions>)
    ensures res == InvoiceSent(orderId)
    ensures |log| == 2 && log[0].to == Str("a@x.com") && log[1].to == Str(SalesAddress)
  {
    var customer := Customer(Str("Alice"), Str("a@x.com"), Str("555-0100"), Str("1 Main St"),
                             Str("Toronto"), Str("ON"), Str("M5V 1A1"), Undefined);
    var items := [Item(Str("Widget"), Str("2"), "5.00", "10.00"), Item(Str("Gadget"), Str("1"), "10.00", "10.00")];
    var r := Request(Some(customer), Some(items), Some("20.00"), Some("20.00"), Str("bank-transfer"));
    var transport := new Transport([Sent, Sent]);
    res := HandleSendInvoice(transport, r, orderId, date, env);
    log := transport.log;
  }
}
