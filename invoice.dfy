/**
 * `POST /api/send-invoice`: an order confirmation for the customer and an
 * order notification for the sales mailbox, built from the same order and
 * sent one after the other.
 */
module Invoice {
  import opened Js
  import opened Document
  import opened Mail

  /** `req.body.customer`. */
  datatype Customer = Customer(
    name: JsValue, email: JsValue, phone: JsValue, address: JsValue,
    city: JsValue, state: JsValue, zipCode: JsValue, notes: JsValue)

  /**
   * One element of `req.body.items`; `price` and `lineTotal` are the
   * two-decimal renderings of the price and of price times quantity.
   */
  datatype Item = Item(name: JsValue, quantity: JsValue, price: string, lineTotal: string)

  /**
   * `req.body` as the renderer meets it. `None` stands for a value that makes
   * rendering throw: a nullish customer, an `items` that is not an array or
   * holds a `null` or `undefined` element, a subtotal or total that is not a
   * number. A present subtotal or total is its two-decimal rendering.
   */
  datatype Request = Request(
    customer: Option<Customer>, items: Option<seq<Item>>,
    subtotal: Option<string>, total: Option<string>, paymentMethod: JsValue)

  /** An order that renders without throwing. */
  datatype Order = Order(customer: Customer, items: seq<Item>, subtotal: string, total: string, paymentMethod: JsValue)

  /** The order both documents are rendered from, or `None` when rendering throws before any send. */
  function Checked(r: Request): (o: Option<Order>)
    ensures o.Some? <==> r.customer.Some? && r.items.Some? && r.subtotal.Some? && r.total.Some?
    ensures o.Some? ==> o.value.customer == r.customer.value && o.value.items == r.items.value
                        && o.value.subtotal == r.subtotal.value && o.value.total == r.total.value
                        && o.value.paymentMethod == r.paymentMethod
  {
    if r.customer.Some? && r.items.Some? && r.subtotal.Some? && r.total.Some? then
      Some(Order(r.customer.value, r.items.value, r.subtotal.value, r.total.value, r.paymentMethod))
    else None
  }

  const CreditCard := "Credit Card"
  const BankTransfer := "Bank Transfer"
  const CardSteps := "Our team will contact you shortly with payment instructions for your credit card payment."
  const BankSteps := "Our team will contact you shortly with bank transfer details and payment instructions."

  predicate PaysByCard(pm: JsValue)
  {
    StrictEquals(pm, "credit-card")
  }

  /** The payment-method label (`paymentMethod === "credit-card" ? ... : ...`). */
  function PaymentLabel(pm: JsValue): string
  {
    if PaysByCard(pm) then CreditCard else BankTransfer
  }

  /** The next-steps sentence of the confirmation, chosen by the same comparison. */
  function NextStepsText(pm: JsValue): string
  {
    if PaysByCard(pm) then CardSteps else BankSteps
  }

  /**
   * Only the exact string "credit-card" selects the card label and the card
   * sentence; anything else, absent or differently spelled, selects the bank
   * ones. Label and sentence therefore never disagree.
   */
  lemma PaymentChoice(pm: JsValue)
    ensures PaymentLabel(pm) == CreditCard <==> PaysByCard(pm)
    ensures PaymentLabel(pm) == BankTransfer <==> !PaysByCard(pm)
    ensures NextStepsText(pm) == CardSteps <==> PaysByCard(pm)
    ensures NextStepsText(pm) == BankSteps <==> !PaysByCard(pm)
  {
  }

  // Visible text of one item row: the cells, separated.
  const RowName := "\n"
  const RowQuantity := " | "
  const RowPrice := " | $"
  const RowTotal := " | $"
  const RowEnd := ""

  /** The table row of one item: name, quantity, unit price, line total. */
  function ItemRow(it: Item): Doc
  {
    Doc([Seg(RowName, Slot(ItemName, Interp(it.name))),
         Seg(RowQuantity, Slot(ItemQuantity, Interp(it.quantity))),
         Seg(RowPrice, Slot(ItemPrice, it.price)),
         Seg(RowTotal, Slot(ItemTotal, it.lineTotal))],
        RowEnd)
  }

  /** `items.map(row)`: one rendered row per item, in the items' order. */
  function RowsHtml(items: seq<Item>): (rows: seq<string>)
    ensures |rows| == |items|
    ensures forall i :: 0 <= i < |items| ==> rows[i] == Render(ItemRow(items[i]))
  {
    seq(|items|, i requires 0 <= i < |items| => Render(ItemRow(items[i])))
  }

  /** `items.map(row).join("")`. */
  function ItemsHtml(items: seq<Item>): string
  {
    Join(RowsHtml(items))
  }

  /** The fragment of a concatenation is the concatenation of the fragments: rows keep the items' order. */
  lemma ItemsHtmlAppend(a: seq<Item>, b: seq<Item>)
    ensures ItemsHtml(a + b) == ItemsHtml(a) + ItemsHtml(b)
  {
    assert RowsHtml(a + b) == RowsHtml(a) + RowsHtml(b);
    JoinAppend(RowsHtml(a), RowsHtml(b));
  }

  /** Item `i`'s row sits between the rows of the items before it and those after it. */
  lemma ItemRowAt(items: seq<Item>, i: nat)
    requires i < |items|
    ensures ItemsHtml(items) == ItemsHtml(items[..i]) + Render(ItemRow(items[i])) + ItemsHtml(items[i + 1..])
  {
    var rows := RowsHtml(items);
    JoinAt(rows, i);
    assert rows[..i] == RowsHtml(items[..i]);
    assert rows[i + 1..] == RowsHtml(items[i + 1..]);
  }

  /** Every item contributes its row to the fragment. */
  lemma ItemRowInFragment(items: seq<Item>, i: nat)
    requires i < |items|
    ensures Contains(ItemsHtml(items), Render(ItemRow(items[i])))
  {
    ItemRowAt(items, i);
    ContainsMiddle(ItemsHtml(items[..i]), Render(ItemRow(items[i])), ItemsHtml(items[i + 1..]));
  }

  /** The notes row, present only for truthy notes. */
  function NotesRow(c: Customer): seq<Slot>
  {
    if Truthy(c.notes) then [Slot(Notes, c.notes.text)] else []
  }

  function OrderBlock(o: Order, orderId: string, date: string): seq<Slot>
  {
    [Slot(OrderId, orderId), Slot(OrderDate, date), Slot(PaymentMethod, PaymentLabel(o.paymentMethod))]
  }

  function ContactBlock(c: Customer): seq<Slot>
  {
    [Slot(Name, Interp(c.name)), Slot(Email, Interp(c.email)), Slot(Phone, Interp(c.phone))]
  }

  function LinkedContactBlock(c: Customer): seq<Slot>
  {
    [Slot(Name, Interp(c.name)), Slot(Email, Interp(c.email)), Slot(Email, Interp(c.email)),
     Slot(Phone, Interp(c.phone)), Slot(Phone, Interp(c.phone))]
  }

  function AddressBlock(c: Customer): seq<Slot>
  {
    [Slot(Address, Interp(c.address)), Slot(City, Interp(c.city)), Slot(State, Interp(c.state)),
     Slot(ZipCode, Interp(c.zipCode))]
  }

  function ItemsBlock(o: Order): seq<Slot>
  {
    [Slot(Items, ItemsHtml(o.items)), Slot(Subtotal, o.subtotal), Slot(Total, o.total)]
  }

  function StepsBlock(o: Order, env: Env): seq<Slot>
  {
    [Slot(NextSteps, NextStepsText(o.paymentMethod)),
     Slot(OwnerEmail, Interp(env.ownerEmail)), Slot(OwnerEmail, Interp(env.ownerEmail))]
  }

  function ConfirmationFields(o: Order, orderId: string, date: string, env: Env): seq<Slot>
  {
    OrderBlock(o, orderId, date) + ContactBlock(o.customer) + AddressBlock(o.customer)
    + NotesRow(o.customer) + ItemsBlock(o) + StepsBlock(o, env)
  }

  function NotificationFields(o: Order, orderId: string, date: string): seq<Slot>
  {
    OrderBlock(o, orderId, date) + [Slot(Total, o.total)] + LinkedContactBlock(o.customer)
    + AddressBlock(o.customer) + NotesRow(o.customer) + ItemsBlock(o)
  }

  /** The fields each block shows, in order. */
  lemma BlockFields(o: Order, orderId: string, date: string)
    ensures FieldsOf(OrderBlock(o, orderId, date)) == [OrderId, OrderDate, PaymentMethod]
    ensures FieldsOf([Slot(Total, o.total)]) == [Total]
    ensures FieldsOf(ContactBlock(o.customer)) == [Name, Email, Phone]
    ensures FieldsOf(LinkedContactBlock(o.customer)) == [Name, Email, Email, Phone, Phone]
    ensures FieldsOf(AddressBlock(o.customer)) == [Address, City, State, ZipCode]
    ensures FieldsOf(NotesRow(o.customer)) == if Truthy(o.customer.notes) then [Notes] else []
    ensures FieldsOf(ItemsBlock(o)) == [Items, Subtotal, Total]
  {
  }

  lemma StepsFields(o: Order, env: Env)
    ensures FieldsOf(StepsBlock(o, env)) == [NextSteps, OwnerEmail, OwnerEmail]
  {
  }

  /** The fields the optional notes row adds. */
  function NotesBag(c: Customer): multiset<Field>
  {
    if Truthy(c.notes) then multiset{Notes} else multiset{}
  }

  /**
   * How many times the confirmation shows each field: once each, except the
   * owner's email, which is both a link target and the link's text.
   */
  function ConfirmationBag(c: Customer): multiset<Field>
  {
    multiset{OrderId, OrderDate, PaymentMethod} + multiset{Name, Email, Phone}
    + multiset{Address, City, State, ZipCode} + NotesBag(c) + multiset{Items, Subtotal, Total}
    + multiset{NextSteps, OwnerEmail, OwnerEmail}
  }

  /**
   * How many times the notification shows each field: once each, except the
   * total (in the order information and under the items) and the customer's
   * email and phone (each a link target and the link's text).
   */
  function NotificationBag(c: Customer): multiset<Field>
  {
    multiset{OrderId, OrderDate, PaymentMethod} + multiset{Total} + multiset{Name, Email, Email, Phone, Phone}
    + multiset{Address, City, State, ZipCode} + NotesBag(c) + multiset{Items, Subtotal, Total}
  }

  lemma ConfirmationCounts(o: Order, orderId: string, date: string, env: Env)
    ensures multiset(FieldsOf(ConfirmationFields(o, orderId, date, env))) == ConfirmationBag(o.customer)
  {
    var c := o.customer;
    BlockFields(o, orderId, date);
    StepsFields(o, env);
    FieldsJoin(OrderBlock(o, orderId, date), ContactBlock(c), AddressBlock(c),
               NotesRow(c), ItemsBlock(o), StepsBlock(o, env));
  }

  lemma NotificationCounts(o: Order, orderId: string, date: string)
    ensures multiset(FieldsOf(NotificationFields(o, orderId, date))) == NotificationBag(o.customer)
  {
    var c := o.customer;
    BlockFields(o, orderId, date);
    FieldsJoin(OrderBlock(o, orderId, date), [Slot(Total, o.total)], LinkedContactBlock(c),
               AddressBlock(c), NotesRow(c), ItemsBlock(o));
  }

  /** A field the confirmation shows, and `ConfirmationBag` counts once, is shown exactly once. */
  lemma ConfirmationOnce(o: Order, orderId: string, date: string, env: Env, f: Field, v: string)
    requires Slot(f, v) in ConfirmationFields(o, orderId, date, env) && ConfirmationBag(o.customer)[f] == 1
    ensures ShowsOnce(ConfirmationFields(o, orderId, date, env), f, v)
  {
    ConfirmationCounts(o, orderId, date, env);
  }

  /** A field the notification shows, and `NotificationBag` counts once, is shown exactly once. */
  lemma NotificationOnce(o: Order, orderId: string, date: string, f: Field, v: string)
    requires Slot(f, v) in NotificationFields(o, orderId, date) && NotificationBag(o.customer)[f] == 1
    ensures ShowsOnce(NotificationFields(o, orderId, date), f, v)
  {
    NotificationCounts(o, orderId, date);
  }

  // The visible text around the values; tags and styles are left out. Shared by both documents:
  const PaymentPre := "\nPayment Method: "
  const CityPre := "\n"
  const StatePre := ", "
  const ZipPre := " "
  const ItemsPre := "\nOrder Items"
  const SubtotalPre := "\nSubtotal: $"
  const TotalPre := "\nTotal: $"

  // Of the confirmation:
  const ConfirmationHead := "Order Confirmation\nOrder ID: "
  const ConfirmationDate := "\nOrder Date: "
  const ConfirmationName := "\nShipping Information\nName: "
  const ConfirmationEmail := "\nEmail: "
  const ConfirmationPhone := "\nPhone: "
  const ConfirmationAddress := "\nAddress: "
  const ConfirmationNotes := "\nNotes: "
  const ConfirmationSteps := " USD\nNext Steps\n"
  const ConfirmationContact := "\nThank you for choosing Asian Import Export Co\n+1 (437) 900-3996 | mailto:"
  const LinkText := " "
  const ConfirmationEnd := ""

  /** The markup pieces of the confirmation, one before each of its fields. */
  function ConfirmationMarkup(c: Customer): seq<string>
  {
    [ConfirmationHead, ConfirmationDate, PaymentPre, ConfirmationName, ConfirmationEmail,
     ConfirmationPhone, ConfirmationAddress, CityPre, StatePre, ZipPre]
    + (if Truthy(c.notes) then [ConfirmationNotes] else [])
    + [ItemsPre, SubtotalPre, TotalPre, ConfirmationSteps, ConfirmationContact, LinkText]
  }

  /** The customer's order confirmation (`customerEmailHTML`). */
  function ConfirmationDoc(o: Order, orderId: string, date: string, env: Env): (d: Doc)
    ensures Slots(d) == ConfirmationFields(o, orderId, date, env)
  {
    Interleave(ConfirmationMarkup(o.customer), ConfirmationFields(o, orderId, date, env), ConfirmationEnd)
  }

  // Of the notification:
  const NotificationHead := "\U{1F514} New Order Received\nOrder ID: "
  const NotificationDate := "\nOrder Date: "
  const NotificationTotal := "\nTotal Amount: $"
  const NotificationName := " USD\nCustomer Information\nName: "
  const NotificationEmail := "\nEmail: mailto:"
  const NotificationPhone := "\nPhone: tel:"
  const NotificationAddress := "\nShipping Address: "
  const NotificationNotes := "\nCustomer Notes: "
  const NotificationEnd := " USD\nAction Required"

  /** The markup pieces of the notification, one before each of its fields. */
  function NotificationMarkup(c: Customer): seq<string>
  {
    [NotificationHead, NotificationDate, PaymentPre, NotificationTotal, NotificationName,
     NotificationEmail, LinkText, NotificationPhone, LinkText, NotificationAddress,
     CityPre, StatePre, ZipPre]
    + (if Truthy(c.notes) then [NotificationNotes] else [])
    + [ItemsPre, SubtotalPre, TotalPre]
  }

  /** The sales mailbox's order notification (`adminEmailHTML`). */
  function NotificationDoc(o: Order, orderId: string, date: string): (d: Doc)
    ensures Slots(d) == NotificationFields(o, orderId, date)
  {
    Interleave(NotificationMarkup(o.customer), NotificationFields(o, orderId, date), NotificationEnd)
  }

  // One lemma per document and property: each proof looks at one field list only.

  lemma ConfirmationLabel(o: Order, orderId: string, date: string, env: Env)
    ensures ShowsOnce(ConfirmationFields(o, orderId, date, env), PaymentMethod, PaymentLabel(o.paymentMethod))
  {
    ConfirmationOnce(o, orderId, date, env, PaymentMethod, PaymentLabel(o.paymentMethod));
  }

  lemma NotificationLabel(o: Order, orderId: string, date: string)
    ensures ShowsOnce(NotificationFields(o, orderId, date), PaymentMethod, PaymentLabel(o.paymentMethod))
  {
    NotificationOnce(o, orderId, date, PaymentMethod, PaymentLabel(o.paymentMethod));
  }

  /** Both documents show the same payment label, each exactly once. */
  lemma SamePaymentLabel(o: Order, orderId: string, date: string, env: Env)
    ensures ShowsOnce(ConfirmationFields(o, orderId, date, env), PaymentMethod, PaymentLabel(o.paymentMethod))
    ensures ShowsOnce(NotificationFields(o, orderId, date), PaymentMethod, PaymentLabel(o.paymentMethod))
  {
    ConfirmationLabel(o, orderId, date, env);
    NotificationLabel(o, orderId, date);
  }

  lemma ConfirmationItems(o: Order, orderId: string, date: string, env: Env)
    ensures ShowsOnce(ConfirmationFields(o, orderId, date, env), Items, ItemsHtml(o.items))
  {
    ConfirmationOnce(o, orderId, date, env, Items, ItemsHtml(o.items));
  }

  lemma NotificationItems(o: Order, orderId: string, date: string)
    ensures ShowsOnce(NotificationFields(o, orderId, date), Items, ItemsHtml(o.items))
  {
    NotificationOnce(o, orderId, date, Items, ItemsHtml(o.items));
  }

  /** Both documents embed the one item fragment built from the order's items. */
  lemma SameItemFragment(o: Order, orderId: string, date: string, env: Env)
    ensures ShowsOnce(ConfirmationFields(o, orderId, date, env), Items, ItemsHtml(o.items))
    ensures ShowsOnce(NotificationFields(o, orderId, date), Items, ItemsHtml(o.items))
  {
    ConfirmationItems(o, orderId, date, env);
    NotificationItems(o, orderId, date);
  }

  lemma ConfirmationNotesRow(o: Order, orderId: string, date: string, env: Env)
    requires Truthy(o.customer.notes)
    ensures ShowsOnce(ConfirmationFields(o, orderId, date, env), Notes, o.customer.notes.text)
  {
    ConfirmationOnce(o, orderId, date, env, Notes, o.customer.notes.text);
  }

  lemma ConfirmationNoNotesRow(o: Order, orderId: string, date: string, env: Env)
    requires !Truthy(o.customer.notes)
    ensures Lacks(ConfirmationFields(o, orderId, date, env), Notes)
  {
    var c := o.customer;
    LacksJoin(OrderBlock(o, orderId, date), ContactBlock(c), AddressBlock(c),
              NotesRow(c), ItemsBlock(o), StepsBlock(o, env), Notes);
  }

  lemma NotificationNotesRow(o: Order, orderId: string, date: string)
    requires Truthy(o.customer.notes)
    ensures ShowsOnce(NotificationFields(o, orderId, date), Notes, o.customer.notes.text)
  {
    NotificationOnce(o, orderId, date, Notes, o.customer.notes.text);
  }

  lemma NotificationNoNotesRow(o: Order, orderId: string, date: string)
    requires !Truthy(o.customer.notes)
    ensures Lacks(NotificationFields(o, orderId, date), Notes)
  {
    var c := o.customer;
    LacksJoin(OrderBlock(o, orderId, date), [Slot(Total, o.total)], LinkedContactBlock(c),
              AddressBlock(c), NotesRow(c), ItemsBlock(o), Notes);
  }

  /** Truthy notes get a row in both documents; falsy notes get a row in neither. */
  lemma NotesRule(o: Order, orderId: string, date: string, env: Env)
    ensures Truthy(o.customer.notes) ==>
              ShowsOnce(ConfirmationFields(o, orderId, date, env), Notes, o.customer.notes.text)
              && ShowsOnce(NotificationFields(o, orderId, date), Notes, o.customer.notes.text)
    ensures !Truthy(o.customer.notes) ==>
              Lacks(ConfirmationFields(o, orderId, date, env), Notes)
              && Lacks(NotificationFields(o, orderId, date), Notes)
  {
    if Truthy(o.customer.notes) {
      ConfirmationNotesRow(o, orderId, date, env);
      NotificationNotesRow(o, orderId, date);
    } else {
      ConfirmationNoNotesRow(o, orderId, date, env);
      NotificationNoNotesRow(o, orderId, date);
    }
  }

  lemma ConfirmationNextSteps(o: Order, orderId: string, date: string, env: Env)
    ensures ShowsOnce(ConfirmationFields(o, orderId, date, env), NextSteps, NextStepsText(o.paymentMethod))
  {
    ConfirmationOnce(o, orderId, date, env, NextSteps, NextStepsText(o.paymentMethod));
  }

  lemma NotificationNoNextSteps(o: Order, orderId: string, date: string)
    ensures Lacks(NotificationFields(o, orderId, date), NextSteps)
  {
    var c := o.customer;
    LacksJoin(OrderBlock(o, orderId, date), [Slot(Total, o.total)], LinkedContactBlock(c),
              AddressBlock(c), NotesRow(c), ItemsBlock(o), NextSteps);
  }

  /** Only the confirmation tells the customer what happens next. */
  lemma NextStepsForCustomerOnly(o: Order, orderId: string, date: string, env: Env)
    ensures ShowsOnce(ConfirmationFields(o, orderId, date, env), NextSteps, NextStepsText(o.paymentMethod))
    ensures Lacks(NotificationFields(o, orderId, date), NextSteps)
  {
    ConfirmationNextSteps(o, orderId, date, env);
    NotificationNoNextSteps(o, orderId, date);
  }

  lemma ConfirmationOrderId(o: Order, orderId: string, date: string, env: Env)
    ensures ShowsOnce(ConfirmationFields(o, orderId, date, env), OrderId, orderId)
  {
    ConfirmationOnce(o, orderId, date, env, OrderId, orderId);
  }

  lemma NotificationOrderId(o: Order, orderId: string, date: string)
    ensures ShowsOnce(NotificationFields(o, orderId, date), OrderId, orderId)
  {
    NotificationOnce(o, orderId, date, OrderId, orderId);
  }

  /** Both documents carry the same order id, each exactly once. */
  lemma SameOrderId(o: Order, orderId: string, date: string, env: Env)
    ensures ShowsOnce(ConfirmationFields(o, orderId, date, env), OrderId, orderId)
    ensures ShowsOnce(NotificationFields(o, orderId, date), OrderId, orderId)
  {
    ConfirmationOrderId(o, orderId, date, env);
    NotificationOrderId(o, orderId, date);
  }

  const ConfirmationSubjectPrefix := "Order Confirmation - "
  const NotificationSubjectPrefix := "\U{1F514} New Order Received - "

  function ConfirmationMessage(o: Order, orderId: string, date: string, env: Env): MailOptions
  {
    MailOptions("\"Asian Import Export Co\" <" + Interp(env.smtpUser) + ">", o.customer.email,
                ConfirmationSubjectPrefix + orderId, None, Render(ConfirmationDoc(o, orderId, date, env)))
  }

  function NotificationMessage(o: Order, orderId: string, date: string, env: Env): MailOptions
  {
    MailOptions("\"Website Orders\" <" + Interp(env.smtpUser) + ">", Str(SalesAddress),
                NotificationSubjectPrefix + orderId + " - $" + o.total, None, Render(NotificationDoc(o, orderId, date)))
  }

  /** Both subjects name the order id; the notification's also names the total. */
  lemma SubjectsCarryOrderId(o: Order, orderId: string, date: string, env: Env)
    ensures Contains(ConfirmationMessage(o, orderId, date, env).subject, orderId)
    ensures Contains(NotificationMessage(o, orderId, date, env).subject, orderId)
    ensures Contains(NotificationMessage(o, orderId, date, env).subject, o.total)
  {
    assert ConfirmationSubjectPrefix + orderId == ConfirmationSubjectPrefix + orderId + "";
    ContainsMiddle(ConfirmationSubjectPrefix, orderId, "");
    ContainsMiddle(NotificationSubjectPrefix, orderId, " - $" + o.total);
    assert NotificationSubjectPrefix + orderId + " - $" + o.total
        == NotificationSubjectPrefix + orderId + (" - $" + o.total);
    assert NotificationSubjectPrefix + orderId + " - $" + o.total
        == (NotificationSubjectPrefix + orderId + " - $") + o.total + "";
    ContainsMiddle(NotificationSubjectPrefix + orderId + " - $", o.total, "");
  }

  /** Every item's row is literally part of the customer's confirmation. */
  lemma ItemRowInConfirmation(o: Order, orderId: string, date: string, env: Env, i: nat)
    requires i < |o.items|
    ensures Contains(ConfirmationMessage(o, orderId, date, env).html, Render(ItemRow(o.items[i])))
  {
    var d := ConfirmationDoc(o, orderId, date, env);
    ConfirmationItems(o, orderId, date, env);
    ValueRendered(d, Items, ItemsHtml(o.items));
    ItemRowInFragment(o.items, i);
    ContainsTransitive(Render(d), ItemsHtml(o.items), Render(ItemRow(o.items[i])));
  }

  /** Every item's row is literally part of the sales notification. */
  lemma ItemRowInNotification(o: Order, orderId: string, date: string, env: Env, i: nat)
    requires i < |o.items|
    ensures Contains(NotificationMessage(o, orderId, date, env).html, Render(ItemRow(o.items[i])))
  {
    var d := NotificationDoc(o, orderId, date);
    NotificationItems(o, orderId, date);
    ValueRendered(d, Items, ItemsHtml(o.items));
    ItemRowInFragment(o.items, i);
    ContainsTransitive(Render(d), ItemsHtml(o.items), Render(ItemRow(o.items[i])));
  }

  const InvoiceFailed := Response(500, map["error" := JString("Failed to send invoice")])

  function InvoiceSent(orderId: string): Response
  {
    Response(200, map["success" := JBool(true), "orderId" := JString(orderId),
                      "message" := JString("Invoice sent successfully")])
  }

  /** One run of the handler: the messages it attempted, the planned outcomes left, its answer. */
  datatype Delivery = Delivery(sent: seq<MailOptions>, rest: seq<Outcome>, response: Response)

  /**
   * The two sends, in order: the first message always, the second only after
   * the first succeeded; the answer is 200 only when both succeeded.
   */
  function Deliver(first: MailOptions, second: MailOptions, orderId: string, script: seq<Outcome>): (run: Delivery)
    ensures 1 <= |run.sent| <= 2 && run.sent[0] == first
    ensures |run.sent| == 2 <==> NextOutcome(script) == Sent
    ensures |run.sent| == 2 ==> run.sent[1] == second && run.rest == AfterSend(AfterSend(script))
    ensures |run.sent| == 1 ==> run.rest == AfterSend(script)
    ensures run.response == InvoiceSent(orderId) || run.response == InvoiceFailed
    ensures run.response == InvoiceSent(orderId) <==>
              NextOutcome(script) == Sent && NextOutcome(AfterSend(script)) == Sent
  {
    if NextOutcome(script) != Sent then
      Delivery([first], AfterSend(script), InvoiceFailed)
    else if NextOutcome(AfterSend(script)) != Sent then
      Delivery([first, second], AfterSend(AfterSend(script)), InvoiceFailed)
    else
      Delivery([first, second], AfterSend(AfterSend(script)), InvoiceSent(orderId))
  }

  /** The two answers are told apart by their status. */
  lemma AnswersDiffer(orderId: string)
    ensures InvoiceSent(orderId).status == 200 && InvoiceFailed.status == 500
    ensures "orderId" !in InvoiceFailed.body && InvoiceSent(orderId).body["orderId"] == JString(orderId)
  {
  }

  /**
   * The handler as a value: render both documents (a throw answers 500 before
   * any send), then deliver the confirmation and the notification.
   */
  function SendInvoice(r: Request, orderId: string, date: string, env: Env, script: seq<Outcome>): Delivery
  {
    match Checked(r)
    case None => Delivery([], script, InvoiceFailed)
    case Some(o) =>
      Deliver(ConfirmationMessage(o, orderId, date, env), NotificationMessage(o, orderId, date, env), orderId, script)
  }

  /**
   * Both sends succeed: the confirmation went to the customer, then the
   * notification to sales, both subjects name the order id and the answer
   * carries it.
   */
  lemma InvoiceDelivered(r: Request, orderId: string, date: string, env: Env, script: seq<Outcome>)
    requires Checked(r).Some? && NextOutcome(script) == Sent && NextOutcome(AfterSend(script)) == Sent
    ensures var run := SendInvoice(r, orderId, date, env, script);
            |run.sent| == 2 && run.sent[0].to == r.customer.value.email && run.sent[1].to == Str(SalesAddress)
            && Contains(run.sent[0].subject, orderId) && Contains(run.sent[1].subject, orderId)
            && run.response.status == 200 && run.response.body["orderId"] == JString(orderId)
            && run.response.body["message"] == JString("Invoice sent successfully")
  {
    SubjectsCarryOrderId(Checked(r).value, orderId, date, env);
  }

  /** The confirmation fails: the notification is never attempted and the answer has no order id. */
  lemma ConfirmationFailed(r: Request, orderId: string, date: string, env: Env, script: seq<Outcome>)
    requires Checked(r).Some? && NextOutcome(script) == Failed
    ensures var run := SendInvoice(r, orderId, date, env, script);
            |run.sent| == 1 && run.sent[0].to == r.customer.value.email && run.rest == AfterSend(script)
            && run.response == InvoiceFailed && "orderId" !in run.response.body
  {
  }

  /** The notification fails after the confirmation went out: both were attempted, the answer is the failure. */
  lemma NotificationFailed(r: Request, orderId: string, date: string, env: Env, script: seq<Outcome>)
    requires Checked(r).Some? && NextOutcome(script) == Sent && NextOutcome(AfterSend(script)) == Failed
    ensures var run := SendInvoice(r, orderId, date, env, script);
            |run.sent| == 2 && run.sent[1].to == Str(SalesAddress) && run.response == InvoiceFailed
  {
  }

  /** Rendering throws: nothing is sent and no planned outcome is used. */
  lemma RenderingFailed(r: Request, orderId: string, date: string, env: Env, script: seq<Outcome>)
    requires Checked(r).None?
    ensures SendInvoice(r, orderId, date, env, script) == Delivery([], script, InvoiceFailed)
  {
  }

  /** The request handler: the transport's log and outcomes and the answer are those of `SendInvoice`. */
  method HandleSendInvoice(transport: Transport, r: Request, orderId: string, date: string, env: Env)
    returns (res: Response)
    modifies transport
    ensures var run := SendInvoice(r, orderId, date, env, old(transport.script));
            transport.log == old(transport.log) + run.sent && transport.script == run.rest && res == run.response
  {
    var checked := Checked(r);
    if checked.None? {
      return InvoiceFailed;
    }
    var o := checked.value;
    var ok := transport.SendMail(ConfirmationMessage(o, orderId, date, env));
    if !ok {
      return InvoiceFailed;
    }
    ok := transport.SendMail(NotificationMessage(o, orderId, date, env));
    if !ok {
      return InvoiceFailed;
    }
    res := InvoiceSent(orderId);
  }
}
