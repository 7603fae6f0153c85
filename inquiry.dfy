/**
 * `POST /api/send-email`: a contact form or product inquiry, rendered as one
 * plain-text and one HTML body and sent to one of two fixed mailboxes.
 */
module Inquiry {
  import opened Js
  import opened Document
  import opened Mail

  const NotProvided := "Not provided"
  const DefaultSubject := "General Inquiry from Website"

  /** The flat request body; `inquiryType` is the body's `type` field. */
  datatype Payload = Payload(
    name: JsValue, email: JsValue, phone: JsValue, company: JsValue, message: JsValue,
    address: JsValue, quantity: JsValue, model: JsValue, inquiryType: JsValue,
    subject: JsValue, shippingTerm: JsValue)

  predicate IsProductInquiry(p: Payload)
  {
    StrictEquals(p.inquiryType, "product_inquiry")
  }

  function Subject(p: Payload): (s: string)
    ensures IsProductInquiry(p) ==>
              s == "Product Inquiry: " + Interp(p.model) + " (" + Interp(p.quantity) + " units)"
    ensures !IsProductInquiry(p) && Truthy(p.subject) ==> s == p.subject.text
    ensures !IsProductInquiry(p) && !Truthy(p.subject) ==> s == DefaultSubject
  {
    if IsProductInquiry(p) then "Product Inquiry: " + Interp(p.model) + " (" + Interp(p.quantity) + " units)"
    else OrElse(p.subject, DefaultSubject)
  }

  /** The hard-coded routing table: product inquiries go to sales, everything else to info. */
  function Destination(p: Payload): (to: string)
    ensures to == SalesAddress <==> IsProductInquiry(p)
    ensures to == InfoAddress <==> !IsProductInquiry(p)
  {
    if IsProductInquiry(p) then SalesAddress else InfoAddress
  }

  /** Product, quantity and shipping terms: the product variant's opening block. */
  function ProductBlock(p: Payload): seq<Slot>
  {
    if IsProductInquiry(p) then
      [Slot(Product, Interp(p.model)), Slot(Quantity, Interp(p.quantity)),
       Slot(ShippingTerms, OrElse(p.shippingTerm, NotProvided))]
    else []
  }

  function ContactBlock(p: Payload): seq<Slot>
  {
    [Slot(Name, Interp(p.name)), Slot(Email, Interp(p.email))]
  }

  function PhoneRow(p: Payload): seq<Slot>
  {
    [Slot(Phone, OrElse(p.phone, NotProvided))]
  }

  /** The company line or row, present only for a truthy company. */
  function CompanyRow(p: Payload): seq<Slot>
  {
    if Truthy(p.company) then [Slot(Company, p.company.text)] else []
  }

  /** The address line or row, present only in the product variant. */
  function AddressRow(p: Payload): seq<Slot>
  {
    if IsProductInquiry(p) then [Slot(Address, OrElse(p.address, NotProvided))] else []
  }

  function MessageRow(p: Payload): seq<Slot>
  {
    [Slot(Field.Message, Interp(p.message))]
  }

  /**
   * The information both bodies carry, in the order they show it: the
   * product block (product variant only), the customer details with the
   * optional company, the address (product variant only) and the message.
   */
  function Fields(p: Payload): seq<Slot>
  {
    ProductBlock(p) + ContactBlock(p) + PhoneRow(p) + CompanyRow(p) + AddressRow(p) + MessageRow(p)
  }

  // Markup of the plain-text body (indentation left out).
  const TextProductHead := "\nPRODUCT INQUIRY\n================\nProduct: "
  const TextGeneralHead := "\nGENERAL INQUIRY\n================"
  const TextQuantity := "\nQuantity: "
  const TextShipping := " units\nShipping Terms: "
  const TextRule := "\n----------------------------"
  const TextName := "\nCustomer Details:\nName: "
  const TextEmail := "\nEmail: "
  const TextPhone := "\nPhone: "
  const TextCompany := "\nCompany: "
  const TextAddress := "\n\nAddress: "
  const TextMessage := "\n----------------------------\nCustomer Message:\n"
  /** The general variant has no address line, so the company line's blank line comes right before the rule. */
  const TextGeneralMessage := "\n\n----------------------------\nCustomer Message:\n"
  const TextEnd := "\n================\n"

  /** The customer details of the text body; `lead` is the markup before them. */
  function TextCustomer(lead: string, p: Payload): seq<Seg>
  {
    [Seg(lead + TextName, Slot(Name, Interp(p.name))),
     Seg(TextEmail, Slot(Email, Interp(p.email))),
     Seg(TextPhone, Slot(Phone, OrElse(p.phone, NotProvided)))]
    + (if Truthy(p.company) then [Seg(TextCompany, Slot(Company, p.company.text))] else [])
  }

  /** The plain-text body: it shows exactly `Fields(p)`, in that order. */
  function TextBody(p: Payload): (d: Doc)
    ensures Slots(d) == Fields(p)
  {
    var message := Slot(Field.Message, Interp(p.message));
    if IsProductInquiry(p) then
      Doc([Seg(TextProductHead, Slot(Product, Interp(p.model))),
           Seg(TextQuantity, Slot(Quantity, Interp(p.quantity))),
           Seg(TextShipping, Slot(ShippingTerms, OrElse(p.shippingTerm, NotProvided)))]
          + TextCustomer(TextRule, p)
          + [Seg(TextAddress, Slot(Address, OrElse(p.address, NotProvided))), Seg(TextMessage, message)],
          TextEnd)
    else
      Doc(TextCustomer(TextGeneralHead, p) + [Seg(TextGeneralMessage, message)], TextEnd)
  }

  // Markup of the HTML body (styles left out).
  const HtmlProductHead := "<div><h2>PRODUCT INQUIRY</h2><div><h3><strong>Product:</strong> "
  const HtmlGeneralHead := "<div><h2>GENERAL INQUIRY</h2>"
  const HtmlQuantity := "<br><strong>Quantity:</strong> "
  const HtmlShipping := " units<br><strong>Shipping Terms:</strong> "
  const HtmlProductEnd := "</h3></div>"
  const HtmlName := "<table><tr><th colspan=\"2\">CUSTOMER DETAILS</th></tr><tr><td><strong>Name:</strong></td><td>"
  const HtmlEmail := "</td></tr><tr><td><strong>Email:</strong></td><td>"
  const HtmlPhone := "</td></tr><tr><td><strong>Phone:</strong></td><td>"
  const HtmlCompany := "</td></tr><tr><td><strong>Company:</strong></td><td>"
  const HtmlAddress := "</td></tr><tr><td><strong>Address:</strong></td><td>"
  const HtmlMessage := "</td></tr></table><div><h4>CUSTOMER MESSAGE:</h4><p>"
  const HtmlEnd := "</p></div></div>"

  /** The customer-details table of the HTML body; `lead` is the markup before it. */
  function HtmlCustomer(lead: string, p: Payload): seq<Seg>
  {
    [Seg(lead + HtmlName, Slot(Name, Interp(p.name))),
     Seg(HtmlEmail, Slot(Email, Interp(p.email))),
     Seg(HtmlPhone, Slot(Phone, OrElse(p.phone, NotProvided)))]
    + (if Truthy(p.company) then [Seg(HtmlCompany, Slot(Company, p.company.text))] else [])
  }

  /** The HTML body: it shows exactly the same fields as the text body, in the same order. */
  function HtmlBody(p: Payload): (d: Doc)
    ensures Slots(d) == Fields(p)
  {
    var message := Seg(HtmlMessage, Slot(Field.Message, Interp(p.message)));
    if IsProductInquiry(p) then
      Doc([Seg(HtmlProductHead, Slot(Product, Interp(p.model))),
           Seg(HtmlQuantity, Slot(Quantity, Interp(p.quantity))),
           Seg(HtmlShipping, Slot(ShippingTerms, OrElse(p.shippingTerm, NotProvided)))]
          + HtmlCustomer(HtmlProductEnd, p)
          + [Seg(HtmlAddress, Slot(Address, OrElse(p.address, NotProvided))), message],
          HtmlEnd)
    else
      Doc(HtmlCustomer(HtmlGeneralHead, p) + [message], HtmlEnd)
  }

  /** The plain-text and the HTML body carry the same information; only their markup differs. */
  lemma SameInformation(p: Payload)
    ensures Slots(TextBody(p)) == Slots(HtmlBody(p))
  {
  }

  /** The fields each block shows, in order. */
  lemma BlockFields(p: Payload)
    ensures FieldsOf(ProductBlock(p)) == if IsProductInquiry(p) then [Product, Quantity, ShippingTerms] else []
    ensures FieldsOf(ContactBlock(p)) == [Name, Email]
    ensures FieldsOf(PhoneRow(p)) == [Phone]
    ensures FieldsOf(CompanyRow(p)) == if Truthy(p.company) then [Company] else []
    ensures FieldsOf(AddressRow(p)) == if IsProductInquiry(p) then [Address] else []
    ensures FieldsOf(MessageRow(p)) == [Field.Message]
  {
  }

  /**
   * How many times each field is shown: name, email, phone and message in
   * both variants, product, quantity, shipping terms and address in the
   * product variant only, the company only when it is truthy; each once.
   */
  function FieldBag(p: Payload): multiset<Field>
  {
    multiset{Name, Email, Phone, Field.Message}
    + (if IsProductInquiry(p) then multiset{Product, Quantity, ShippingTerms, Address} else multiset{})
    + (if Truthy(p.company) then multiset{Company} else multiset{})
  }

  /** Both bodies show exactly the fields of `FieldBag`, as often as it says. */
  lemma FieldCounts(p: Payload)
    ensures multiset(FieldsOf(Fields(p))) == FieldBag(p)
  {
    BlockFields(p);
    FieldsJoin(ProductBlock(p), ContactBlock(p), PhoneRow(p), CompanyRow(p), AddressRow(p), MessageRow(p));
  }

  /** A field the bodies show, and `FieldBag` counts once, is shown exactly once. */
  lemma ShownOnce(p: Payload, f: Field, v: string)
    requires Slot(f, v) in ProductBlock(p) || Slot(f, v) in ContactBlock(p) || Slot(f, v) in PhoneRow(p)
             || Slot(f, v) in CompanyRow(p) || Slot(f, v) in AddressRow(p) || Slot(f, v) in MessageRow(p)
    requires FieldBag(p)[f] == 1
    ensures ShowsOnce(Fields(p), f, v)
  {
    FieldCounts(p);
  }

  /** A falsy company leaves no Company line or row at all; a truthy one is shown once, as given. */
  lemma CompanyShown(p: Payload)
    ensures Truthy(p.company) ==> ShowsOnce(Fields(p), Company, p.company.text)
    ensures !Truthy(p.company) ==> Lacks(Fields(p), Company)
  {
    if Truthy(p.company) {
      ShownOnce(p, Company, p.company.text);
    } else {
      LacksJoin(ProductBlock(p), ContactBlock(p), PhoneRow(p), CompanyRow(p), AddressRow(p), MessageRow(p),
                Company);
    }
  }

  /** Both variants show the phone once, as the placeholder "Not provided" when it is falsy. */
  lemma PhonePlaceholder(p: Payload)
    ensures ShowsOnce(Fields(p), Phone, OrElse(p.phone, NotProvided))
    ensures !Truthy(p.phone) ==> ShowsOnce(Fields(p), Phone, NotProvided)
  {
    ShownOnce(p, Phone, OrElse(p.phone, NotProvided));
  }

  /** The product variant shows the product model and the quantity, each once. */
  lemma ProductLines(p: Payload)
    requires IsProductInquiry(p)
    ensures ShowsOnce(Fields(p), Product, Interp(p.model))
    ensures ShowsOnce(Fields(p), Quantity, Interp(p.quantity))
  {
    ShownOnce(p, Product, Interp(p.model));
    ShownOnce(p, Quantity, Interp(p.quantity));
  }

  /** The product variant shows the shipping terms and the address, each once, with their placeholders. */
  lemma ShippingAndAddress(p: Payload)
    requires IsProductInquiry(p)
    ensures ShowsOnce(Fields(p), ShippingTerms, OrElse(p.shippingTerm, NotProvided))
    ensures ShowsOnce(Fields(p), Address, OrElse(p.address, NotProvided))
  {
    ShownOnce(p, ShippingTerms, OrElse(p.shippingTerm, NotProvided));
    ShownOnce(p, Address, OrElse(p.address, NotProvided));
  }

  /** The product variant shows product, quantity, shipping terms and address, each once. */
  lemma ProductVariantFields(p: Payload)
    requires IsProductInquiry(p)
    ensures ShowsOnce(Fields(p), Product, Interp(p.model))
    ensures ShowsOnce(Fields(p), Quantity, Interp(p.quantity))
    ensures ShowsOnce(Fields(p), ShippingTerms, OrElse(p.shippingTerm, NotProvided))
    ensures ShowsOnce(Fields(p), Address, OrElse(p.address, NotProvided))
  {
    ProductLines(p);
    ShippingAndAddress(p);
  }

  /** A falsy address or shipping term of a product inquiry is shown once, as "Not provided". */
  lemma ProductPlaceholders(p: Payload)
    requires IsProductInquiry(p)
    ensures !Truthy(p.address) ==> ShowsOnce(Fields(p), Address, NotProvided)
    ensures !Truthy(p.shippingTerm) ==> ShowsOnce(Fields(p), ShippingTerms, NotProvided)
  {
    ShippingAndAddress(p);
  }

  /** The general variant shows none of product, quantity, shipping terms, address. */
  lemma GeneralVariantFields(p: Payload)
    requires !IsProductInquiry(p)
    ensures Lacks(Fields(p), Product) && Lacks(Fields(p), Quantity)
    ensures Lacks(Fields(p), ShippingTerms) && Lacks(Fields(p), Address)
  {
    assert ProductBlock(p) == [] && AddressRow(p) == [];
    LacksJoin(ProductBlock(p), ContactBlock(p), PhoneRow(p), CompanyRow(p), AddressRow(p), MessageRow(p), Product);
    LacksJoin(ProductBlock(p), ContactBlock(p), PhoneRow(p), CompanyRow(p), AddressRow(p), MessageRow(p), Quantity);
    LacksJoin(ProductBlock(p), ContactBlock(p), PhoneRow(p), CompanyRow(p), AddressRow(p), MessageRow(p),
              ShippingTerms);
    LacksJoin(ProductBlock(p), ContactBlock(p), PhoneRow(p), CompanyRow(p), AddressRow(p), MessageRow(p), Address);
  }

  /** Both variants show the customer's name and email, each once, as given. */
  lemma ContactFields(p: Payload)
    ensures ShowsOnce(Fields(p), Name, Interp(p.name))
    ensures ShowsOnce(Fields(p), Email, Interp(p.email))
  {
    ShownOnce(p, Name, Interp(p.name));
    ShownOnce(p, Email, Interp(p.email));
  }

  /** Both variants show the customer's message once, as given. */
  lemma MessageShown(p: Payload)
    ensures ShowsOnce(Fields(p), Field.Message, Interp(p.message))
  {
    ShownOnce(p, Field.Message, Interp(p.message));
  }

  function InquiryMessage(p: Payload, env: Env): MailOptions
  {
    MailOptions("\"Product Inquiry\" <" + Interp(env.smtpUser) + ">", Str(Destination(p)), Subject(p),
                Some(Render(TextBody(p))), Render(HtmlBody(p)))
  }

  /** The message goes where the routing table says, and both bodies reproduce the customer's message verbatim. */
  lemma InquiryMessageFacts(p: Payload, env: Env)
    ensures InquiryMessage(p, env).to == Str(if IsProductInquiry(p) then SalesAddress else InfoAddress)
    ensures InquiryMessage(p, env).text.Some?
    ensures Contains(InquiryMessage(p, env).text.value, Interp(p.message))
    ensures Contains(InquiryMessage(p, env).html, Interp(p.message))
  {
    assert Shows(Fields(p), Field.Message, Interp(p.message));
    ValueRendered(TextBody(p), Field.Message, Interp(p.message));
    ValueRendered(HtmlBody(p), Field.Message, Interp(p.message));
  }

  const EmailSent := Response(200, map["success" := JBool(true)])
  const EmailFailed := Response(500, map["error" := JString("Failed to send email")])

  /** The request handler: render, attempt exactly one send, answer by its outcome. */
  method HandleSendEmail(transport: Transport, p: Payload, env: Env) returns (res: Response)
    modifies transport
    ensures transport.log == old(transport.log) + [InquiryMessage(p, env)]
    ensures transport.script == AfterSend(old(transport.script))
    ensures res == if NextOutcome(old(transport.script)) == Sent then EmailSent else EmailFailed
  {
    var ok := transport.SendMail(InquiryMessage(p, env));
    if ok {
      res := EmailSent;
    } else {
      res := EmailFailed;
    }
  }
}
