/**
 * The `submitEnquiry` server action: validate the form, drop the reCAPTCHA
 * token, check the token (a mock that always accepts), build the staff
 * email and send it. Its result is `{ success, error? }`.
 *
 * `format(date, "PPP")` is a parameter, and so is the mail transport.
 */
module EnquiryActions {
  import opened Wrappers
  import opened JsValues
  import opened Mail
  import opened EnquirySchema

  /** `format(date, "PPP")` from date-fns. */
  type DateFormatter = int -> string

  /** The two environment variables the action reads. */
  datatype EnquiryConfig = EnquiryConfig(employeeEmail: Option<string>, recaptchaSecret: Option<string>)

  /** `formData`: the validated values without `recaptchaToken` (line 49). */
  datatype EnquiryData = EnquiryData(
    name: string,
    email: string,
    phone: Option<string>,
    pickupLocation: string,
    finalDestination: string,
    pickupDate: Option<int>,
    returnDate: Option<int>,
    adults: int,
    children: Option<int>,
    numberOfRooms: Option<int>,
    stops: Option<string>,
    message: string)

  function WithoutToken(v: EnquiryFormValues): EnquiryData {
    EnquiryData(v.name, v.email, v.phone, v.pickupLocation, v.finalDestination,
                v.pickupDate, v.returnDate, v.adults, v.children, v.numberOfRooms,
                v.stops, v.message)
  }

  /**
   * `verifyRecaptcha`: without a secret key or a token it lets the
   * submission through for development; otherwise it is a mock that
   * reports success. Every path accepts.
   */
  function VerifyRecaptcha(secretKey: Option<string>, token: Option<string>): (ok: bool)
    ensures ok
  {
    if secretKey.None? || secretKey.value == "" || token.None? || token.value == "" then true
    else true
  }

  // -----------------------------------------------------------------------
  // Rendering of the enquiry email (lines 56-75)

  /**
   * `value || placeholder` for an optional string field, as the phone
   * (`'Not provided'`) and the stops (`'None'`) are rendered.
   */
  function OrPlaceholder(value: Option<string>, placeholder: string): (t: string)
    ensures value.Some? && value.value != "" ==> t == value.value
    ensures value.None? || value.value == "" ==> t == placeholder
    ensures placeholder != "" ==> t != ""
  {
    if value.Some? && value.value != "" then value.value else placeholder
  }

  /** `date ? format(date, "PPP") : 'Not specified'`; a Date object is always truthy. */
  function DateText(date: Option<int>, format: DateFormatter): (t: string)
    ensures date.Some? ==> t == format(date.value)
    ensures date.None? ==> t == "Not specified"
  {
    if date.Some? then format(date.value) else "Not specified"
  }

  /** `children !== undefined && children !== null ? children : '0'`. */
  function ChildrenText(children: Option<int>): string {
    if children.Some? then IntToString(children.value) else "0"
  }

  /** `numberOfRooms !== undefined && numberOfRooms !== null ? numberOfRooms : 'Not specified'`. */
  function RoomsText(rooms: Option<int>): (t: string)
    ensures rooms.None? ==> t == "Not specified"
  {
    if rooms.Some? then IntToString(rooms.value) else "Not specified"
  }

  /** The children line reads back as the number given, and as 0 when none was given. */
  lemma ChildrenTextReadsBack(children: Option<int>)
    ensures ParseInt(ChildrenText(children)) == Some(children.GetOr(0))
  {
    if children.Some? {
      IntToStringRoundTrip(children.value);
    } else {
      assert "0"[..0] == [];
    }
  }

  /** The rooms line reads back as the number given, and as no number when none was given. */
  lemma RoomsTextReadsBack(rooms: Option<int>)
    ensures ParseInt(RoomsText(rooms)) == rooms
    ensures rooms.None? ==> RoomsText(rooms) == "Not specified"
  {
    if rooms.Some? {
      IntToStringRoundTrip(rooms.value);
    } else {
      assert !IsDigit(RoomsText(rooms)[0]);
    }
  }

  function NewlineCount(s: string): nat {
    if s == [] then 0 else (if s[0] == '\n' then 1 else 0) + NewlineCount(s[1..])
  }

  /** `message.replace(/\n/g, '<br>')`. */
  function ReplaceNewlines(s: string): (r: string)
    ensures '\n' !in r
    ensures |r| == |s| + 3 * NewlineCount(s)
    ensures '\n' !in s ==> r == s
    ensures s == "\n" ==> r == "<br>"
  {
    if s == [] then []
    else (if s[0] == '\n' then "<br>" else [s[0]]) + ReplaceNewlines(s[1..])
  }

  /** The replacement works piece by piece. */
  lemma {:induction false} ReplaceNewlinesAppend(a: string, b: string)
    ensures ReplaceNewlines(a + b) == ReplaceNewlines(a) + ReplaceNewlines(b)
    decreases |a|
  {
    if a == [] {
      assert a + b == b;
    } else {
      var head := if a[0] == '\n' then "<br>" else [a[0]];
      assert (a + b)[0] == a[0] && (a + b)[1..] == a[1..] + b;
      ReplaceNewlinesAppend(a[1..], b);
      assert head + (ReplaceNewlines(a[1..]) + ReplaceNewlines(b)) ==
             (head + ReplaceNewlines(a[1..])) + ReplaceNewlines(b);
    }
  }

  /** Replacing twice is replacing once, and a message without newlines is left as it is. */
  lemma ReplaceNewlinesIdempotent(s: string)
    ensures ReplaceNewlines(ReplaceNewlines(s)) == ReplaceNewlines(s)
    ensures ReplaceNewlines(s) == s <==> '\n' !in s
  {
  }

  const Indent := "\n    "

  function EnquirySubject(d: EnquiryData): string {
    "New Travel Enquiry from " + d.name
  }

  function EnquiryBody(d: EnquiryData, format: DateFormatter): string {
    Indent + "<h1>New Travel Enquiry</h1>" +
    Indent + "<p><strong>Name:</strong> " + d.name + "</p>" +
    Indent + "<p><strong>Email:</strong> " + d.email + "</p>" +
    Indent + "<p><strong>Phone:</strong> " + OrPlaceholder(d.phone, "Not provided") + "</p>" +
    Indent + "<hr />" +
    Indent + "<p><strong>Pickup Location:</strong> " + d.pickupLocation + "</p>" +
    Indent + "<p><strong>Final Destination:</strong> " + d.finalDestination + "</p>" +
    Indent + "<p><strong>Pickup Date:</strong> " + DateText(d.pickupDate, format) + "</p>" +
    Indent + "<p><strong>Return Date:</strong> " + DateText(d.returnDate, format) + "</p>" +
    Indent + "<hr />" +
    Indent + "<p><strong>Number of Adults:</strong> " + IntToString(d.adults) + "</p>" +
    Indent + "<p><strong>Number of Children:</strong> " + ChildrenText(d.children) + "</p>" +
    Indent + "<p><strong>Preferred Number of Rooms:</strong> " + RoomsText(d.numberOfRooms) + "</p>" +
    Indent + "<p><strong>Optional Stops:</strong> " + OrPlaceholder(d.stops, "None") + "</p>" +
    Indent + "<hr />" +
    Indent + "<p><strong>Message:</strong></p>" +
    Indent + "<p>" + ReplaceNewlines(d.message) + "</p>" +
    "\n  "
  }

  function EnquiryEmail(d: EnquiryData, staff: string, format: DateFormatter): Email {
    Email(staff, EnquirySubject(d), EnquiryBody(d, format))
  }

  // -----------------------------------------------------------------------
  // The action

  datatype SubmitError = Invalid(issues: seq<Rule>) | Reason(text: string)

  /** `{ success: boolean; error?: string | ZodError }`. */
  datatype SubmitResult = SubmitResult(success: bool, error: Option<SubmitError>)

  /** The result and the emails handed to the transport. */
  datatype Submission = Submission(result: SubmitResult, sent: seq<Email>)

  const RecaptchaFailed := "reCAPTCHA verification failed. Please try again."
  const SendFailed := "Failed to send enquiry email. Please try again later."
  const Unexpected := "An unexpected error occurred while submitting your enquiry."

  /** What `submitEnquiry` returns and which emails it hands to the transport. */
  function Submit(v: EnquiryFormValues, isEmail: EmailCheck, cfg: EnquiryConfig,
                  format: DateFormatter, transport: Email -> SendOutcome): (s: Submission)
    ensures !Accepted(v, isEmail) ==>
      s == Submission(SubmitResult(false, Some(Invalid(Issues(v, isEmail)))), [])
    ensures Accepted(v, isEmail) ==>
      s.sent == [EnquiryEmail(WithoutToken(v), StaffAddress(cfg.employeeEmail), format)]
    ensures Accepted(v, isEmail) ==>
      s.sent[0].to == StaffAddress(cfg.employeeEmail) && s.sent[0].subject == "New Travel Enquiry from " + v.name
    ensures s.result.success <==> Accepted(v, isEmail) && transport(s.sent[0]) == Sent(true)
    ensures s.result.success <==> s.result.error.None?
    ensures Accepted(v, isEmail) && transport(s.sent[0]) == Sent(false) ==>
      s.result.error == Some(Reason(SendFailed))
    ensures Accepted(v, isEmail) && transport(s.sent[0]) == Threw ==>
      s.result.error == Some(Reason(Unexpected))
    ensures s.result.error != Some(Reason(RecaptchaFailed))
  {
    match SafeParse(v, isEmail)
    case Failure(issues) => Submission(SubmitResult(false, Some(Invalid(issues))), [])
    case Success(data) =>
      var formData := WithoutToken(data);
      if !VerifyRecaptcha(cfg.recaptchaSecret, data.recaptchaToken) then
        Submission(SubmitResult(false, Some(Reason(RecaptchaFailed))), [])
      else
        var email := EnquiryEmail(formData, StaffAddress(cfg.employeeEmail), format);
        var result :=
          match transport(email)
          case Sent(true) => SubmitResult(true, None)
          case Sent(false) => SubmitResult(false, Some(Reason(SendFailed)))
          case Threw => SubmitResult(false, Some(Reason(Unexpected)));
        Submission(result, [email])
  }

  /** The token plays no part: forms that differ only in it are treated alike. */
  lemma TokenIgnored(v: EnquiryFormValues, token: Option<string>, isEmail: EmailCheck,
                     cfg: EnquiryConfig, format: DateFormatter, transport: Email -> SendOutcome)
    ensures Submit(v.(recaptchaToken := token), isEmail, cfg, format, transport) ==
            Submit(v, isEmail, cfg, format, transport)
  {
    IssuesIgnoreToken(v, token, isEmail);
  }

  /** `submitEnquiry` itself, sending through `mailer`. */
  method SubmitEnquiry(v: EnquiryFormValues, isEmail: EmailCheck, cfg: EnquiryConfig,
                       format: DateFormatter, mailer: Mailer) returns (result: SubmitResult)
    modifies mailer
    ensures result == Submit(v, isEmail, cfg, format, mailer.transport).result
    ensures mailer.log == old(mailer.log) + Submit(v, isEmail, cfg, format, mailer.transport).sent
  {
    var validation := SafeParse(v, isEmail);
    if validation.Failure? {
      return SubmitResult(false, Some(Invalid(validation.issues)));
    }
    var formData := WithoutToken(validation.data);
    var recaptchaValid := VerifyRecaptcha(cfg.recaptchaSecret, validation.data.recaptchaToken);
    if !recaptchaValid {
      return SubmitResult(false, Some(Reason(RecaptchaFailed)));
    }
    var email := EnquiryEmail(formData, StaffAddress(cfg.employeeEmail), format);
    var sent := mailer.Send(email.to, email.subject, email.html);
    if sent == Sent(true) {
      result := SubmitResult(true, None);
    } else if sent == Sent(false) {
      result := SubmitResult(false, Some(Reason(SendFailed)));
    } else {
      result := SubmitResult(false, Some(Reason(Unexpected)));
    }
  }
}
