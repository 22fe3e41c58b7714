/**
 * The Razorpay webhook endpoint (`POST /api/razorpay-webhook`): a gate that
 * checks, in this order, that a webhook secret is configured, that the
 * request carries an `x-razorpay-signature` header, that the header equals
 * the lowercase-hex HMAC-SHA256 of the raw body, that the body is JSON, and
 * then dispatches on the event kind. A `payment_link.paid` event sends two
 * emails, first to the customer and then to staff; any other kind is
 * acknowledged without sending anything.
 *
 * HMAC-SHA256 and `JSON.parse` are parameters: every result below holds for
 * every digest function and every parser. The comparison of the digest
 * with the header is plain string equality, as in the route.
 */
module RazorpayWebhook {
  import opened Wrappers
  import opened JsValues
  import opened Mail

  /** HMAC-SHA256 of the body (second argument) under the key, as lowercase hex. */
  type Hmac = (string, string) -> string

  /** `JSON.parse`; `None` is the SyntaxError it throws on malformed text. */
  type JsonParser = string -> Option<JsValue>

  /** The two environment variables the route reads. */
  datatype Config = Config(webhookSecret: Option<string>, employeeEmail: Option<string>)

  /** The `x-razorpay-signature` header (absent when `None`) and the raw body text. */
  datatype Request = Request(signature: Option<string>, body: string)

  datatype ResponseBody = Message(message: string) | Error(error: string)

  datatype Response = Response(status: int, body: ResponseBody)

  /** The response and the emails handed to the transport, in order. */
  datatype Outcome = Outcome(response: Response, sent: seq<Email>)

  const PaidEvent := "payment_link.paid"

  /** `event.payload.payment_link.entity`, reduced to the fields the emails use. */
  datatype PaymentLink = PaymentLink(
    customerEmail: JsValue,
    customerName: JsValue,
    amount: JsValue,
    currency: JsValue,
    id: JsValue,
    shortUrl: JsValue)

  /**
   * Where the gate stops before any email is sent: one of the four
   * rejections, a fault thrown while reading the event, or a verified event
   * to dispatch.
   */
  datatype Verdict =
    | Misconfigured
    | MissingSignature
    | BadSignature
    | MalformedJson
    | Faulted
    | Paid(link: PaymentLink)
    | Unprocessed(kind: JsValue)

  /** An environment value or header that `!x` treats as present. */
  predicate IsSet(x: Option<string>) {
    x.Some? && x.value != ""
  }

  /** The request passes the signature check: the header equals the body's digest. */
  predicate Authentic(cfg: Config, req: Request, hmac: Hmac) {
    IsSet(cfg.webhookSecret) && IsSet(req.signature) &&
    hmac(cfg.webhookSecret.value, req.body) == req.signature.value
  }

  /**
   * `v.k1.k2...` for the property names `keys`, left to right; `None` is the
   * TypeError thrown as soon as one step meets `null` or `undefined`.
   */
  function Path(v: JsValue, keys: seq<string>): (r: Option<JsValue>)
    ensures keys == [] ==> r == Some(v)
    decreases |keys|
  {
    if keys == [] then Some(v)
    else
      match Member(v, keys[0])
      case None => None
      case Some(child) => Path(child, keys[1..])
  }

  /** A chain of property reads throws exactly when it passes through `null` or `undefined`. */
  lemma {:induction false} PathFails(v: JsValue, keys: seq<string>)
    ensures Path(v, keys).None? <==>
      exists i :: 0 <= i < |keys| && Path(v, keys[..i]).Some? && Nullish(Path(v, keys[..i]).value)
    decreases |keys|
  {
    if keys != [] {
      assert keys[..0] == [];
      if !Nullish(v) {
        var child := Member(v, keys[0]).value;
        PathFails(child, keys[1..]);
        forall i | 1 <= i <= |keys|
          ensures Path(v, keys[..i]) == Path(child, keys[1..][..i - 1])
        {
          assert keys[..i][0] == keys[0] && keys[..i][1..] == keys[1..][..i - 1];
        }
        if Path(v, keys).None? {
          var j :| 0 <= j < |keys| - 1 && Path(child, keys[1..][..j]).Some? &&
                   Nullish(Path(child, keys[1..][..j]).value);
          assert Path(v, keys[..j + 1]) == Path(child, keys[1..][..j]);
        } else {
          forall i | 0 <= i < |keys| && Path(v, keys[..i]).Some?
            ensures !Nullish(Path(v, keys[..i]).value)
          {
            if i > 0 {
              assert Path(v, keys[..i]) == Path(child, keys[1..][..i - 1]);
            }
          }
        }
      }
    }
  }

  const CustomerPath := ["payload", "payment_link", "entity", "customer"]

  /**
   * Lines 44-50: `event.payload.payment_link.entity`, then its customer's
   * email and name and its own amount, currency, id and short URL. Only the
   * chain down to the customer can throw.
   */
  function ExtractPaymentLink(event: JsValue): (r: Option<PaymentLink>)
    ensures r.Some? <==> Path(event, CustomerPath).Some? && !Nullish(Path(event, CustomerPath).value)
    ensures r.Some? ==> Path(event, CustomerPath[..3]).Some?
    ensures r.Some? ==>
      var customer := Path(event, CustomerPath).value;
      var entity := Path(event, CustomerPath[..3]).value;
      && Member(customer, "email") == Some(r.value.customerEmail)
      && Member(customer, "name") == Some(r.value.customerName)
      && Member(entity, "amount") == Some(r.value.amount)
      && Member(entity, "currency") == Some(r.value.currency)
      && Member(entity, "id") == Some(r.value.id)
      && Member(entity, "short_url") == Some(r.value.shortUrl)
  {
    assert CustomerPath[..3] + ["customer"] == CustomerPath;
    PathSnoc(event, CustomerPath[..3], "customer");
    var entity :- Path(event, CustomerPath[..3]);
    var customer :- Member(entity, "customer");
    var email :- Member(customer, "email");
    var name := Member(customer, "name").GetOr(Undefined);
    Some(PaymentLink(
      email, name,
      Member(entity, "amount").GetOr(Undefined),
      Member(entity, "currency").GetOr(Undefined),
      Member(entity, "id").GetOr(Undefined),
      Member(entity, "short_url").GetOr(Undefined)))
  }

  lemma {:induction false} PathSnoc(v: JsValue, keys: seq<string>, last: string)
    ensures Path(v, keys + [last]) ==
      match Path(v, keys)
      case None => None
      case Some(u) => Member(u, last)
    decreases |keys|
  {
    if keys == [] {
      assert [last][1..] == [];
    } else {
      assert (keys + [last])[1..] == keys[1..] + [last];
      match Member(v, keys[0])
      case None =>
      case Some(child) => PathSnoc(child, keys[1..], last);
    }
  }

  /** The gate up to dispatch (lines 18-50), without any side effect. */
  function Classify(cfg: Config, req: Request, hmac: Hmac, parse: JsonParser): (v: Verdict)
    ensures v == Misconfigured <==> !IsSet(cfg.webhookSecret)
    ensures v == MissingSignature <==> IsSet(cfg.webhookSecret) && !IsSet(req.signature)
    ensures v == BadSignature <==>
      IsSet(cfg.webhookSecret) && IsSet(req.signature) && !Authentic(cfg, req, hmac)
    ensures v == MalformedJson <==> Authentic(cfg, req, hmac) && parse(req.body).None?
    ensures v.Paid? || v.Unprocessed? || v == Faulted ==>
      Authentic(cfg, req, hmac) && parse(req.body).Some?
    ensures v.Paid? <==>
      Authentic(cfg, req, hmac) && parse(req.body).Some? &&
      Member(parse(req.body).value, "event") == Some(Str(PaidEvent)) &&
      ExtractPaymentLink(parse(req.body).value).Some?
    ensures v.Unprocessed? <==>
      Authentic(cfg, req, hmac) && parse(req.body).Some? &&
      Member(parse(req.body).value, "event").Some? &&
      Member(parse(req.body).value, "event").value != Str(PaidEvent)
    ensures v.Unprocessed? ==> Member(parse(req.body).value, "event") == Some(v.kind)
    ensures v == Faulted <==>
      Authentic(cfg, req, hmac) && parse(req.body).Some? &&
      (Member(parse(req.body).value, "event").None? ||
       (Member(parse(req.body).value, "event") == Some(Str(PaidEvent)) &&
        ExtractPaymentLink(parse(req.body).value).None?))
  {
    if !IsSet(cfg.webhookSecret) then Misconfigured
    else if !IsSet(req.signature) then MissingSignature
    else if hmac(cfg.webhookSecret.value, req.body) != req.signature.value then BadSignature
    else
      match parse(req.body)
      case None => MalformedJson
      case Some(event) =>
        match Member(event, "event")
        case None => Faulted
        case Some(kind) =>
          if kind == Str(PaidEvent) then
            match ExtractPaymentLink(event)
            case None => Faulted
            case Some(link) => Paid(link)
          else Unprocessed(kind)
  }

  // -----------------------------------------------------------------------
  // The two notification emails (lines 46-76)

  /** `paymentLink.customer.name || 'Valued Customer'`. */
  function CustomerName(link: PaymentLink): (name: string)
    ensures !Truthy(link.customerName) ==> name == "Valued Customer"
    ensures link.customerName.Str? && link.customerName.s != "" ==> name == link.customerName.s
  {
    if Truthy(link.customerName) then Display(link.customerName) else "Valued Customer"
  }

  /**
   * `(paymentLink.amount / 100).toFixed(2)` for an amount in paise. Null and
   * booleans coerce to 0 and 1; `undefined` and objects give NaN.
   */
  function AmountText(amount: JsValue): string {
    match amount
    case Num(n) => ToFixed2(n)
    case Null => ToFixed2(0)
    case Bool(b) => ToFixed2(if b then 1 else 0)
    case Str(s) =>
      if s == "" then ToFixed2(0)
      else if ParseInt(s).Some? then ToFixed2(ParseInt(s).value)
      else "NaN"
    case _ => "NaN"
  }

  /** An integral amount in paise is displayed as exactly amount / 100, to the paisa. */
  lemma AmountTextExact(paise: int)
    ensures ParseFixed2(AmountText(Num(paise))) == Some(paise)
  {
    ToFixed2RoundTrip(paise);
  }

  const ClientSubject := "Payment Successful for your WanderLust Concierge Booking!"

  const Indent := "\n        "

  function CustomerEmail(link: PaymentLink): Email {
    var name, amount := CustomerName(link), AmountText(link.amount);
    var currency, id, url := Display(link.currency), Display(link.id), Display(link.shortUrl);
    Email(Display(link.customerEmail), ClientSubject,
      Indent + "<h1>Thank You for Your Payment!</h1>" +
      Indent + "<p>Dear " + name + ",</p>" +
      Indent + "<p>We are pleased to inform you that your payment of " + currency + " " + amount +
        " for payment link ID " + id + " has been successfully processed.</p>" +
      Indent + "<p>Your travel consultant will be in touch shortly with the next steps for your booking.</p>" +
      Indent + "<p>Payment Link: <a href=\"" + url + "\">" + url + "</a></p>" +
      Indent + "<p>Thank you for choosing WanderLust Concierge!</p>" +
      "\n      ")
  }

  function StaffSubject(link: PaymentLink): string {
    "Payment Received: Booking for " + CustomerName(link) + " (ID: " + Display(link.id) + ")"
  }

  function StaffEmail(link: PaymentLink, staff: string): Email {
    var name, amount := CustomerName(link), AmountText(link.amount);
    var currency, id, url := Display(link.currency), Display(link.id), Display(link.shortUrl);
    Email(staff, StaffSubject(link),
      Indent + "<h1>Payment Received!</h1>" +
      Indent + "<p>A payment has been successfully processed for a booking.</p>" +
      Indent + "<p><strong>Customer Name:</strong> " + name + "</p>" +
      Indent + "<p><strong>Customer Email:</strong> " + Display(link.customerEmail) + "</p>" +
      Indent + "<p><strong>Amount:</strong> " + currency + " " + amount + "</p>" +
      Indent + "<p><strong>Payment Link ID:</strong> " + id + "</p>" +
      Indent + "<p><strong>Payment Link URL:</strong> <a href=\"" + url + "\">" + url + "</a></p>" +
      Indent + "<p>Please follow up with the client regarding their booking.</p>" +
      "\n      ")
  }

  // -----------------------------------------------------------------------
  // The whole handler

  const ProcessingFailed := Response(500, Error("Webhook processing failed."))

  const PaidMessage := "Webhook processed successfully for payment_link.paid"

  /** The response to a verdict that sends nothing. */
  function Reply(v: Verdict): (r: Response)
    requires !v.Paid?
    ensures r.status == 200 <==> v.Unprocessed?
    ensures r.status == 400 <==> v == MissingSignature || v == MalformedJson
    ensures r.status == 403 <==> v == BadSignature
    ensures r.status == 500 <==> v == Misconfigured || v == Faulted
    ensures r.body.Error? <==> !v.Unprocessed?
    ensures v == Faulted ==> r == ProcessingFailed
    ensures v.Unprocessed? ==>
      r.body == Message("Webhook received for event: " + Display(v.kind) + ", but not processed.")
  {
    match v
    case Misconfigured => Response(500, Error("Webhook secret not configured."))
    case MissingSignature => Response(400, Error("Missing Razorpay signature."))
    case BadSignature => Response(403, Error("Invalid signature."))
    case MalformedJson => Response(400, Error("Invalid JSON payload."))
    case Faulted => ProcessingFailed
    case Unprocessed(kind) =>
      Response(200, Message("Webhook received for event: " + Display(kind) + ", but not processed."))
  }

  /**
   * Lines 52-82: what the handler does with a verdict. A paid event sends
   * the customer email, then the staff email; a send that throws is caught
   * by the handler's `catch` and answered with 500, and the boolean a send
   * resolves to is never looked at.
   */
  function Dispatch(v: Verdict, staff: string, transport: Email -> SendOutcome): (o: Outcome)
    ensures o.response.status in {200, 400, 403, 500}
    ensures !v.Paid? ==> o == Outcome(Reply(v), [])
    ensures v.Paid? ==>
      && 1 <= |o.sent| <= 2
      && o.sent[0] == CustomerEmail(v.link)
      && (|o.sent| == 2 <==> !transport(CustomerEmail(v.link)).Threw?)
      && (|o.sent| == 2 ==> o.sent[1] == StaffEmail(v.link, staff))
    ensures o.response.status == 200 <==>
      v.Unprocessed? || (v.Paid? && forall i :: 0 <= i < |o.sent| ==> !transport(o.sent[i]).Threw?)
    ensures v.Paid? && o.response.status == 200 ==> |o.sent| == 2 && o.response.body == Message(PaidMessage)
    ensures v.Paid? && o.response.status != 200 ==> o.response == ProcessingFailed
  {
    if !v.Paid? then Outcome(Reply(v), [])
    else
      var toCustomer := CustomerEmail(v.link);
      if transport(toCustomer).Threw? then Outcome(ProcessingFailed, [toCustomer])
      else
        var toStaff := StaffEmail(v.link, staff);
        if transport(toStaff).Threw? then Outcome(ProcessingFailed, [toCustomer, toStaff])
        else Outcome(Response(200, Message(PaidMessage)), [toCustomer, toStaff])
  }

  /** What `POST` answers and which emails it hands to the transport. */
  function Handle(cfg: Config, req: Request, hmac: Hmac, parse: JsonParser,
                  transport: Email -> SendOutcome): (o: Outcome)
    ensures !IsSet(cfg.webhookSecret) ==>
      o == Outcome(Response(500, Error("Webhook secret not configured.")), [])
    ensures IsSet(cfg.webhookSecret) && !IsSet(req.signature) ==>
      o == Outcome(Response(400, Error("Missing Razorpay signature.")), [])
    ensures o.response.status == 403 <==>
      IsSet(cfg.webhookSecret) && IsSet(req.signature) && !Authentic(cfg, req, hmac)
    ensures o.response.status == 403 ==> o == Outcome(Response(403, Error("Invalid signature.")), [])
    ensures o.response == Response(400, Error("Invalid JSON payload.")) <==>
      Authentic(cfg, req, hmac) && parse(req.body).None?
    ensures o.sent != [] ==> Authentic(cfg, req, hmac) && parse(req.body).Some?
    ensures Authentic(cfg, req, hmac) && parse(req.body).Some? &&
            Member(parse(req.body).value, "event").Some? &&
            Member(parse(req.body).value, "event").value != Str(PaidEvent) ==>
      var kind := Member(parse(req.body).value, "event").value;
      o == Outcome(Response(200, Message("Webhook received for event: " + Display(kind) + ", but not processed.")), [])
    ensures Authentic(cfg, req, hmac) && parse(req.body).Some? &&
            (Member(parse(req.body).value, "event").None? ||
             (Member(parse(req.body).value, "event") == Some(Str(PaidEvent)) &&
              ExtractPaymentLink(parse(req.body).value).None?)) ==>
      o == Outcome(ProcessingFailed, [])
    ensures Authentic(cfg, req, hmac) && parse(req.body).Some? &&
            Member(parse(req.body).value, "event") == Some(Str(PaidEvent)) &&
            ExtractPaymentLink(parse(req.body).value).Some? ==>
      var link := ExtractPaymentLink(parse(req.body).value).value;
      && 1 <= |o.sent| <= 2
      && o.sent[0] == CustomerEmail(link)
      && (|o.sent| == 2 ==> o.sent[1] == StaffEmail(link, StaffAddress(cfg.employeeEmail)))
      && (o.response.status == 200 || o.response == ProcessingFailed)
  {
    Dispatch(Classify(cfg, req, hmac, parse), StaffAddress(cfg.employeeEmail), transport)
  }

  /**
   * The route handler: the gate, then the two awaited sends through
   * `mailer`, which records them.
   */
  method Post(cfg: Config, req: Request, hmac: Hmac, parse: JsonParser, mailer: Mailer)
      returns (response: Response)
    modifies mailer
    ensures response == Handle(cfg, req, hmac, parse, mailer.transport).response
    ensures mailer.log == old(mailer.log) + Handle(cfg, req, hmac, parse, mailer.transport).sent
  {
    var verdict := Classify(cfg, req, hmac, parse);
    ghost var staff := StaffAddress(cfg.employeeEmail);
    assert Handle(cfg, req, hmac, parse, mailer.transport) == Dispatch(verdict, staff, mailer.transport);
    if !verdict.Paid? {
      return Reply(verdict);
    }
    var link := verdict.link;
    var toCustomer := CustomerEmail(link);
    var first := mailer.Send(toCustomer.to, toCustomer.subject, toCustomer.html);
    if first.Threw? {
      return ProcessingFailed;
    }
    var toStaff := StaffEmail(link, StaffAddress(cfg.employeeEmail));
    var second := mailer.Send(toStaff.to, toStaff.subject, toStaff.html);
    if second.Threw? {
      return ProcessingFailed;
    }
    response := Response(200, Message(PaidMessage));
  }

  // -----------------------------------------------------------------------
  // Properties of the handler

  /**
   * A request that fails the signature check is answered without the body
   * ever being parsed and without any email: the outcome is the same for
   * every parser and every transport.
   */
  lemma UnverifiedNeverParsed(cfg: Config, req: Request, hmac: Hmac,
                              parse1: JsonParser, parse2: JsonParser,
                              transport1: Email -> SendOutcome, transport2: Email -> SendOutcome)
    requires !Authentic(cfg, req, hmac)
    ensures Handle(cfg, req, hmac, parse1, transport1) == Handle(cfg, req, hmac, parse2, transport2)
    ensures Handle(cfg, req, hmac, parse1, transport1).sent == []
  {
  }

  /**
   * What a send resolves to never matters: two transports that never throw
   * produce the same response and the same emails.
   */
  lemma DeliveryResultIgnored(cfg: Config, req: Request, hmac: Hmac, parse: JsonParser,
                              transport1: Email -> SendOutcome, transport2: Email -> SendOutcome)
    requires forall e :: transport1(e).Sent? && transport2(e).Sent?
    ensures Handle(cfg, req, hmac, parse, transport1) == Handle(cfg, req, hmac, parse, transport2)
  {
    var v := Classify(cfg, req, hmac, parse);
    var staff := StaffAddress(cfg.employeeEmail);
    if v.Paid? {
      var toCustomer := CustomerEmail(v.link);
      var toStaff := StaffEmail(v.link, staff);
      assert transport1(toCustomer).Sent? && transport2(toCustomer).Sent?;
      assert transport1(toStaff).Sent? && transport2(toStaff).Sent?;
    }
    assert Handle(cfg, req, hmac, parse, transport1) == Dispatch(v, staff, transport1);
    assert Handle(cfg, req, hmac, parse, transport2) == Dispatch(v, staff, transport2);
  }

  /**
   * With the repository's transport, a verified `payment_link.paid` event is
   * answered 200 after exactly two emails, to the customer and then to staff.
   */
  lemma PaidWithStubTransport(cfg: Config, req: Request, hmac: Hmac, parse: JsonParser)
    requires Classify(cfg, req, hmac, parse).Paid?
    ensures var link := Classify(cfg, req, hmac, parse).link;
      Handle(cfg, req, hmac, parse, StubTransport) ==
        Outcome(Response(200, Message(PaidMessage)),
                [CustomerEmail(link), StaffEmail(link, StaffAddress(cfg.employeeEmail))])
    ensures Handle(cfg, req, hmac, parse, StubTransport).sent[0].to ==
      Display(Classify(cfg, req, hmac, parse).link.customerEmail)
  {
  }

  /**
   * The signature binds the body: a header carrying the digest of the body
   * passes the check, and a header carrying the digest of any body with a
   * different digest is refused with 403.
   */
  lemma SignatureBindsBody(secret: string, employee: Option<string>, body: string, other: string,
                           hmac: Hmac, parse: JsonParser, transport: Email -> SendOutcome)
    requires secret != "" && hmac(secret, body) != ""
    ensures Authentic(Config(Some(secret), employee), Request(Some(hmac(secret, body)), body), hmac)
    ensures hmac(secret, other) != hmac(secret, body) && hmac(secret, other) != "" ==>
      Handle(Config(Some(secret), employee), Request(Some(hmac(secret, other)), body), hmac, parse, transport)
        == Outcome(Response(403, Error("Invalid signature.")), [])
  {
  }

  /** The amount of the worked example: 150000 paise are shown as 1500.00. */
  lemma ExampleAmount()
    ensures AmountText(Num(150000)) == "1500.00"
  {
    assert NatToString(1) == "1";
    assert NatToString(15) == "15";
    assert NatToString(150) == "150";
    assert NatToString(1500) == "1500";
    assert TwoDigits(0) == "00";
  }
}
