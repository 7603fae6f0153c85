# Order and inquiry mailer, modelled in Dafny

The system is a small web back end for an import/export storefront. It has
two endpoints.

- `POST /api/send-email` receives a contact form or a product inquiry. It
  renders one plain-text body and one HTML body, picks a mailbox by the
  inquiry type, sends one message and answers 200 or 500.
- `POST /api/send-invoice` receives a cart checkout. It renders an order
  confirmation for the customer and an order notification for the sales
  mailbox from the same data, sends the two in order, and answers 200 (with
  the order id) only if both sends succeeded.

The model keeps the deterministic core of both handlers: routing, subjects,
placeholder and conditional-row rules, the item table, the payment label and
the send orchestration.

- `js.dfy` (module `Js`): the JavaScript value rules the templates rely on.
  A request field is absent, `null` or a string (`JsValue`). `Interp` is
  `${v}`, `Truthy` is truthiness, `OrElse` is `v || "default"`,
  `StrictEquals` is `===` against a literal, and `Join` is `join("")`.
- `document.dfy` (module `Document`): a rendered body as a template literal,
  i.e. markup pieces alternating with labelled values (`Slot(field, value)`).
  `Render` produces the string. Properties are stated over `Slots`, which
  fields a body shows in what order with what value, and lifted to the
  rendered text by `ValueRendered`. `ShowsOnce(fs, f, v)` says that exactly
  one interpolation shows field `f` and that it shows `v`; `FieldsOf` and
  its multiset count the interpolations per field, and `OnceIsOnly` derives
  that a field shown once has no other value anywhere.
- `mail.dfy` (module `Mail`): the SMTP transport as an oracle. A
  `Transport` object holds the outcomes its sends will get (`script`) and
  logs every message it is asked to send (`log`). It also holds the
  response shape and the two fixed mailboxes.
- `inquiry.dfy` (module `Inquiry`): the inquiry renderer, the router and the
  handler method.
- `invoice.dfy` (module `Invoice`): the item rows, the two invoice
  documents, the subjects, the two-step send (`Deliver` / `SendInvoice`)
  and the handler method.
- `scenarios.dfy` (module `Scenarios`): the two end-to-end exchanges (a
  general inquiry, a two-item order) run against a fresh transport.

Values the handlers get from outside are parameters.

- `Env` holds `SMTP_USER` and `OWNER_EMAIL`.
- `orderId` stands for `ORD-<Date.now()>-<random>`.
- `date` stands for the `toLocaleString` rendering of `orderDate`.
- `price`, `lineTotal`, `subtotal` and `total` are the `toFixed(2)` strings.
- A send's success or failure comes from the transport's `script`.

## Model

| member | source | states |
|---|---|---|
| Js.OrElse | index.js:54 | `v \|\| d` yields the field's text exactly when it is truthy (a non-empty string), otherwise the default; the ensures is the definition of `\|\|` on these values, and `FalsyAlike` is what is proved from it |
| Js.FalsyAlike | index.js:59 | an absent field, a `null` field and an empty string all fall back to the default |
| Js.JoinAppend | index.js:216-227 | joining a concatenation of string lists equals concatenating their joins |
| Js.JoinAt | index.js:216-227 | element `i` of a joined list sits between the join of the elements before it and the join of those after it |
| Mail.Transport.constructor | index.js:195-206 | a fresh transport has the given planned outcomes and an empty log |
| Mail.Transport.SendMail | index.js:175-181 | a send appends the message to the log whether or not it succeeds; it succeeds exactly when the next planned outcome is `Sent` (an exhausted plan fails); it consumes one planned outcome |
| Inquiry.Subject | index.js:45-47 | product inquiry: exactly `Product Inquiry: <model> (<quantity> units)`; otherwise (line 120) the `subject` field if truthy, else `General Inquiry from Website` |
| Inquiry.Destination | index.js:177 | the destination is the sales mailbox iff `type === "product_inquiry"`, and the info mailbox iff not |
| Inquiry.TextBody | index.js:49-66 | the plain-text body shows exactly the inquiry's field list, in order, in both variants (the general variant at lines 121-133) |
| Inquiry.HtmlBody | index.js:68-116 | the HTML body shows exactly the same field list, in the same order (the general variant at lines 135-172) |
| Inquiry.SameInformation | index.js:49-172 | the text and HTML bodies carry identical information |
| Inquiry.FieldCounts | index.js:49-172 | both bodies show name, email, phone and message once each; product, quantity, shipping terms and address once each, in the product variant only; the company once, only when truthy; and no other field |
| Inquiry.CompanyShown | index.js:98-105 | a truthy company is shown once, as given; a falsy company leaves no Company line or row at all (no placeholder), in text (lines 60, 128) and HTML (lines 157-164) |
| Inquiry.PhonePlaceholder | index.js:59 | the phone is shown once in both variants, and a falsy phone is shown as `Not provided` (text lines 59, 127; HTML lines 96, 155) |
| Inquiry.ProductLines | index.js:52-53 | the product variant shows the model and the quantity, each exactly once, as given (HTML lines 76-77) |
| Inquiry.ShippingAndAddress | index.js:54-61 | the product variant shows the shipping terms and the address, each exactly once, as `v \|\| "Not provided"` (HTML lines 78, 108) |
| Inquiry.ProductVariantFields | index.js:49-66 | the product variant shows product, quantity, shipping terms and address, each exactly once, with their values |
| Inquiry.ProductPlaceholders | index.js:54-61 | in a product inquiry a falsy address or shipping term is shown exactly once, as `Not provided` (HTML lines 78, 108) |
| Inquiry.GeneralVariantFields | index.js:121-133 | the general variant shows no product, quantity, shipping-terms or address field |
| Inquiry.ContactFields | index.js:56-58 | both variants show name and email, each exactly once, as given (general variant lines 125-126) |
| Inquiry.MessageShown | index.js:63-64 | both variants show the customer's message exactly once, as given (HTML line 114; general variant lines 130-131 and 169) |
| Inquiry.InquiryMessage | index.js:175-181 | a definition: the `sendMail` options of the inquiry (sender, routed recipient, subject, text and HTML bodies); what it promises is proved in `Inquiry.InquiryMessageFacts` |
| Inquiry.InquiryMessageFacts | index.js:175-181 | the message goes to the routed mailbox, carries a text body, and both bodies contain the customer's message verbatim |
| Inquiry.HandleSendEmail | index.js:175-187 | exactly one send is attempted with the rendered message; the answer is `200 {success: true}` if it succeeds, `500 {error: "Failed to send email"}` if not |
| Invoice.Checked | index.js:216-293 | rendering goes ahead (and sends can happen) iff the customer, the items array, the subtotal and the total are all usable; the order keeps the request's customer, items, subtotal, total and payment method |
| Invoice.PaymentLabel | index.js:243-335 | a definition: `Credit Card` or `Bank Transfer` by the payment method; its properties are proved in `Invoice.PaymentChoice` |
| Invoice.NextStepsText | index.js:301-304 | a definition: the card or bank-transfer next-steps sentence by the payment method; its properties are proved in `Invoice.PaymentChoice` |
| Invoice.PaymentChoice | index.js:243 | the label is `Credit Card` iff the payment method is exactly `"credit-card"`, else `Bank Transfer`; the next-steps sentence (lines 301-304) is chosen by the same test, so the two never disagree |
| Invoice.ItemRow | index.js:218-225 | a definition: one item's row with its name, quantity, price and line total; where it lands is proved in `Invoice.ItemRowAt` and `Invoice.ItemRowInFragment` |
| Invoice.RowsHtml | index.js:216-226 | `items.map(row)`: one rendered row per item, row `i` from item `i`; the ensures is the definition of `map`, and the three lemmas below are what is proved from it |
| Invoice.ItemsHtml | index.js:216-227 | a definition: the rows joined with `join("")`; its properties are proved in `Invoice.ItemsHtmlAppend` and `Invoice.ItemRowAt` |
| Invoice.ItemsHtmlAppend | index.js:216-227 | the item fragment of `a + b` is the fragment of `a` followed by that of `b`: rows keep the items' order |
| Invoice.ItemRowAt | index.js:216-227 | item `i`'s row sits between the rows of the items before it and those after it |
| Invoice.ItemRowInFragment | index.js:216-227 | every item's row is a substring of the fragment |
| Invoice.ConfirmationDoc | index.js:230-320 | the confirmation shows exactly its field list: order id, date, label, shipping details, optional notes, items, subtotal, total, next steps, owner email |
| Invoice.NotificationDoc | index.js:323-401 | the notification shows exactly its field list: order id, date, label, total, customer details (email and phone as link target and text), optional notes, items, subtotal, total |
| Invoice.ConfirmationCounts | index.js:230-320 | the confirmation shows each of its fields exactly once, except the owner's email, shown twice (link target and link text, line 315); the notes only when truthy |
| Invoice.NotificationCounts | index.js:323-401 | the notification shows each of its fields exactly once, except the total (lines 336 and 386) and the customer's email and phone (link target and link text, lines 348 and 352), each shown twice; the notes only when truthy |
| Invoice.ConfirmationLabel | index.js:243 | the confirmation shows the payment label once |
| Invoice.NotificationLabel | index.js:335 | the notification shows the payment label once |
| Invoice.SamePaymentLabel | index.js:243-335 | both documents show the same payment label, each exactly once (so no other label, by `Document.OnceIsOnly`) |
| Invoice.ConfirmationItems | index.js:284 | the confirmation embeds the item fragment exactly once |
| Invoice.NotificationItems | index.js:377 | the notification embeds the item fragment exactly once |
| Invoice.SameItemFragment | index.js:216-377 | both documents embed the one fragment built from the order's items, each exactly once |
| Invoice.ConfirmationNotesRow | index.js:265-270 | truthy notes are shown in the confirmation, once, as given |
| Invoice.ConfirmationNoNotesRow | index.js:265-270 | falsy notes leave no notes row in the confirmation |
| Invoice.NotificationNotesRow | index.js:358-363 | truthy notes are shown in the notification, once, as given |
| Invoice.NotificationNoNotesRow | index.js:358-363 | falsy notes leave no notes row in the notification |
| Invoice.NotesRule | index.js:265-363 | truthy notes get exactly one row in both documents, falsy notes a row in neither |
| Invoice.ConfirmationNextSteps | index.js:299-304 | the confirmation shows the next-steps sentence for the payment method, once |
| Invoice.NotificationNoNextSteps | index.js:388-397 | the notification has no next-steps sentence |
| Invoice.NextStepsForCustomerOnly | index.js:299-397 | the confirmation shows the next-steps sentence exactly once; the notification never shows it |
| Invoice.ConfirmationOrderId | index.js:241 | the confirmation shows the order id once |
| Invoice.NotificationOrderId | index.js:327 | the notification shows the order id once |
| Invoice.SameOrderId | index.js:241-327 | both documents carry the same order id, each exactly once |
| Invoice.ConfirmationMessage | index.js:404-409 | a definition: the customer's `sendMail` options, to `customer.email`; its subject is covered by `Invoice.SubjectsCarryOrderId` |
| Invoice.NotificationMessage | index.js:412-417 | a definition: the sales team's `sendMail` options, to the sales mailbox; its subject is covered by `Invoice.SubjectsCarryOrderId` |
| Invoice.SubjectsCarryOrderId | index.js:407-415 | both subjects contain the order id; the notification's also contains the total |
| Invoice.ItemRowInConfirmation | index.js:284 | every item's row is a substring of the sent confirmation |
| Invoice.ItemRowInNotification | index.js:377 | every item's row is a substring of the sent notification |
| Invoice.Deliver | index.js:404-427 | the first message is always attempted; the second is attempted iff the first succeeded; the answer is the success answer iff both succeeded, otherwise the failure answer; one planned outcome is used per attempt |
| Invoice.AnswersDiffer | index.js:419-426 | success is `200` and carries the order id; failure is `500` and has no `orderId` field |
| Invoice.InvoiceDelivered | index.js:404-423 | both sends succeed: two messages, to `customer.email` then to the sales mailbox, both subjects contain the order id, answer 200 with that `orderId` and `Invoice sent successfully` |
| Invoice.ConfirmationFailed | index.js:404-427 | the first send fails: only it was attempted, the answer is `500 {error: "Failed to send invoice"}` with no `orderId` |
| Invoice.NotificationFailed | index.js:412-427 | the second send fails after the first succeeded: both were attempted, the answer is the failure answer |
| Invoice.SendInvoice | index.js:208-427 | a definition of the try/catch flow: render, then the two sends, with any throw answered by the failure answer; its outcomes are proved in `Invoice.RenderingFailed`, `Invoice.InvoiceDelivered` and `Invoice.ConfirmationFailed` |
| Invoice.RenderingFailed | index.js:208-293 | rendering throws: nothing is sent, no planned outcome is used, the answer is the failure answer (catch at lines 424-427) |
| Invoice.HandleSendInvoice | index.js:191-428 | the handler's log, remaining outcomes and answer are exactly those of `SendInvoice` |
| Scenarios.GeneralInquiry | index.js:13-187 | Alice's general inquiry: answer `200 {success: true}`, exactly one message, to the info mailbox, subject `General Inquiry from Website` |
| Scenarios.TwoItemOrder | index.js:191-428 | a two-item bank-transfer order with both sends succeeding: answer 200 with the order id, exactly two messages, to the customer then to the sales mailbox |

## Left out

- Express setup, CORS, JSON parsing, `dotenv` and `listen` (index.js:1-10, 431-432): HTTP and process plumbing.
- Building the nodemailer transport from environment variables, including TLS settings (index.js:29-40, 195-206): this is a foreign network client. The model keeps only an oracle of send outcomes.
- Mail.Transport.SendMail: a plan of outcomes that runs out makes further sends fail. The real client can hang or succeed indefinitely, and the model has no timeouts.
- Order-id generation from `Date.now()` and `Math.random()` (index.js:209): a clock and randomness. The id is a parameter.
- Date formatting with `toLocaleString` (index.js:210-213): locale formatting. The formatted date is a parameter.
- `parseFloat`, `toFixed(2)` and `price * quantity` (index.js:222-223, 289, 293, 336, 382, 386, 415): floating-point arithmetic and formatting. The two-decimal strings are inputs, so the model does not relate an item's line total to its price and quantity, and does not prove that amounts have two decimals.
- Exact markup: CSS is left out everywhere. The inquiry bodies keep their tags and text, without indentation. The invoice documents keep a selection of their label and heading text, plus the `mailto:` and `tel:` link targets of interpolated values. Their tags are left out, as are the subtitle, the "Order Details" and "Order Information" headings, the item-table headers, the closing sentence about questions, the fixed `tel:14379003996` link target of the confirmation, and the action checklist (index.js:234, 239, 277-280, 307, 314, 332, 370-373, 394-396). Item cells are separated by ` | ` and ` | $`, which is the model's own separator and not the source's table markup. The properties are about which fields appear, in what order and with what values.
- `console.error` logging (index.js:185, 425) and interleaving between concurrent requests; the handlers share no state.
- Request fields that are JSON numbers, booleans, arrays or objects are modelled as strings or as absent. This loses JavaScript's own truthiness and interpolation of such values. A numeric `0` phone is falsy. An empty array such as `company: []` is truthy but interpolates as the empty string, so the source shows an empty Company line and row (index.js:60, 98-105), which no `JsValue` reproduces.
- Invoice.Checked: an `items` array containing a `null` element makes rendering throw. The model folds that case into "items unusable" (`None`) instead of modelling per-element validity.
- Missing inquiry fields other than phone, address and shipping terms render as the text `undefined` (or `null`), as the code does.
