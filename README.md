# Scenic Escapes concierge site: verified model of its logic

The site is a travel-concierge marketing site built with Next.js. Most of it is page rendering. This project models in Dafny the four parts of it that make decisions:

- **The Razorpay webhook** (`POST /api/razorpay-webhook`, `razorpay_webhook.dfy`). The handler checks its inputs in a fixed order:
  1. The webhook secret must be configured (500 if not).
  2. The `x-razorpay-signature` header must be present (400 if not).
  3. The header must equal the lowercase-hex HMAC-SHA256 of the raw body (403 if not).
  4. The body must be JSON (400 if not).
  5. Reading the event must not throw (500 if it does).

  A `payment_link.paid` event then sends two emails, the customer's first and the staff's second, and is answered 200. Any other event kind is answered 200 and sends nothing. `Classify` is the gate as a pure function. `Dispatch` and `Handle` give the response and the emails handed to the transport. `Post` is the handler as a method that sends through a `Mailer`, which records every send.
- **The enquiry schema** (`enquiryFormSchema`, `enquiry_schema.dfy`). `Issues` lists the rules a form breaks, in the order zod's `safeParse` reports them. `Accepted` states the same rules declaratively. `SafeParse` is proved to succeed exactly when `Accepted` holds. Lemmas restate each rule.
- **The enquiry action** (`submitEnquiry`, `enquiry_actions.dfy`). It validates the form, drops the reCAPTCHA token and runs the reCAPTCHA check. That check accepts on every path. The action then renders the staff email, with placeholders for missing values and `<br>` for newlines, and sends it. `Submit` gives the outcome, and `SubmitEnquiry` is the method that sends through a `Mailer`.
- **The destination catalogue** (`destination_data.dfy`). It is the constant table of six destinations plus `getDestinationById`, a first-match `find` by id. The catalogue is a `const` and the lookup is a function, so a lookup can never change the table.

Shared modules:
- `js_values.dfy` holds the JavaScript value semantics these parts rely on: JSON values, property reads that throw on `null`/`undefined`, truthiness for `||`, `String(v)` for template literals, integer rendering and `toFixed(2)`. Each rendering has a parse-back partner and a round-trip lemma.
- `mail.dfy` holds the email record, the transport outcome (a boolean or a thrown error), the logging stub transport, the staff-address fallback and the `Mailer` class.

HMAC-SHA256, `JSON.parse`, zod's email test and date-fns `format` are parameters of the model. Every property is proved for all of them.

The form page submits its first date as `departureDate`, but the schema and the action know only `pickupDate`. The model follows the schema's field names. The form page is not part of this model.

A constant-time comparison of the signature is not modelled, because the code does not use one. The handler compares the digest and the header with plain `!==`, and the model does the same: the signature check is string equality.

## Model

| member | source | states |
|---|---|---|
| `JsValues.NatToString` | src/app/enquire/actions.ts:68 | rendering a number gives a non-empty digit string with no leading zero |
| `JsValues.NatToStringRoundTrip` | src/app/enquire/actions.ts:68 | reading the rendered digits back gives the number |
| `JsValues.IntToStringRoundTrip` | src/app/enquire/actions.ts:68-70 | the signed rendering used for `${n}` reads back as the same integer |
| `JsValues.ToFixed2RoundTrip` | src/app/api/razorpay-webhook/route.ts:47 | the `toFixed(2)` rendering of an amount in paise reads back as exactly that amount, sign included |
| `Mail.StaffAddress` | src/app/api/razorpay-webhook/route.ts:6 | a configured, non-empty address is the one used; the placeholder is used exactly when the variable is unset, empty or the placeholder itself; the address is never empty |
| `Mail.Mailer.Send` | src/app/api/razorpay-webhook/route.ts:8-15 | a send appends exactly its email to the log and returns what the transport answers |
| `RazorpayWebhook.PathFails` | src/app/api/razorpay-webhook/route.ts:44-45 | a chain of property reads throws exactly when one step meets `null` or `undefined` |
| `RazorpayWebhook.ExtractPaymentLink` | src/app/api/razorpay-webhook/route.ts:44-50 | extraction succeeds exactly when `payload.payment_link.entity.customer` is reachable and not nullish; email and name are the customer's members; amount, currency, id and short URL are the entity's |
| `RazorpayWebhook.Classify` | src/app/api/razorpay-webhook/route.ts:17-50 | each of the seven verdicts holds exactly when its condition does, checked in the source's order: secret, header, digest equality, JSON, then the event kind; an unknown kind is "not processed"; a missing kind, or a paid event without a customer, is a fault |
| `RazorpayWebhook.CustomerName` | src/app/api/razorpay-webhook/route.ts:46 | a falsy name becomes "Valued Customer"; a non-empty string name is kept |
| `RazorpayWebhook.AmountTextExact` | src/app/api/razorpay-webhook/route.ts:47 | the displayed amount of an integral amount in paise is exactly amount / 100, to two decimals |
| `RazorpayWebhook.ExampleAmount` | src/app/api/razorpay-webhook/route.ts:57 | 150000 paise are shown as "1500.00" |
| `RazorpayWebhook.Reply` | src/app/api/razorpay-webhook/route.ts:18-90 | each verdict that sends no email gets its own status: 500 for no secret or a fault, 400 for no header or bad JSON, 403 for a bad signature, 200 with the "not processed" message for an unknown kind; a fault is "Webhook processing failed." |
| `RazorpayWebhook.Dispatch` | src/app/api/razorpay-webhook/route.ts:43-90 | a verdict that sends nothing gets `Reply` and no email; a paid event sends the customer email first and the staff email second, unless the first send throws; 200 exactly when nothing throws; a throw gives 500 "Webhook processing failed." |
| `RazorpayWebhook.Handle` | src/app/api/razorpay-webhook/route.ts:17-91 | an unset secret gives 500 and a missing header 400; 403 exactly when the header differs from the digest; 400 "Invalid JSON payload." exactly when a verified body does not parse; an unknown event kind gets 200 "not processed" and no email; a missing kind or customer gets 500 and no email; a paid event sends the customer email, then the staff email to the configured staff address; no email unless verified and parsed |
| `RazorpayWebhook.Post` | src/app/api/razorpay-webhook/route.ts:17-91 | the handler answers what `Handle` answers and logs exactly the emails `Handle` sends |
| `RazorpayWebhook.UnverifiedNeverParsed` | src/app/api/razorpay-webhook/route.ts:31-41 | an unverified request gets the same answer for every parser and every transport, and no email |
| `RazorpayWebhook.DeliveryResultIgnored` | src/app/api/razorpay-webhook/route.ts:62-78 | the boolean a send resolves to never changes the outcome |
| `RazorpayWebhook.PaidWithStubTransport` | src/app/api/razorpay-webhook/route.ts:43-78 | with the stub transport a paid event gets 200 after exactly two emails, the customer's then the staff's |
| `RazorpayWebhook.SignatureBindsBody` | src/app/api/razorpay-webhook/route.ts:31-38 | the body's own digest passes the check, and a digest of a body with a different digest is refused with 403 and no email |
| `EnquirySchema.Select` | src/lib/types.ts:4-26 | the reported rules are exactly the broken ones; from a list in schema order they come out in schema order, each once; the last rule is last when it is broken |
| `EnquirySchema.Issues` | src/lib/types.ts:4-26 | a rule is reported exactly when it is broken, in schema order, each once; the date-order issue comes last; no issue is on `pickupDate`, `stops` or `recaptchaToken` |
| `EnquirySchema.AscendingUnique` | src/lib/types.ts:4-17 | two schema-ordered rule lists with the same members are equal |
| `EnquirySchema.IssuesDetermined` | src/lib/types.ts:4-26 | any schema-ordered list of exactly the broken rules is the issue list |
| `EnquirySchema.FirstIssueEarliest` | src/lib/types.ts:4-26 | the first issue reported is the broken rule that comes earliest in the schema |
| `EnquirySchema.AcceptedIffNothingBroken` | src/lib/types.ts:4-26 | the declarative reading of the rules holds exactly when no rule is broken |
| `EnquirySchema.SafeParse` | src/lib/types.ts:4-26 | parsing succeeds, returning the form unchanged, exactly when the rules hold; otherwise it returns the non-empty issue list |
| `EnquirySchema.TextFieldRules` | src/lib/types.ts:5-9 | name, pickup location and final destination are refused exactly when shorter than 2 characters; the email exactly when the email test fails |
| `EnquirySchema.PhoneRule` | src/lib/types.ts:7 | a phone is accepted exactly when absent, empty or at least 10 characters long |
| `EnquirySchema.CountRules` | src/lib/types.ts:12-14 | adults must be at least 1; children, if given, at least 0; rooms, if given, at least 1 |
| `EnquirySchema.MessageRule` | src/lib/types.ts:16 | the message is accepted exactly when it has 10 to 500 characters |
| `EnquirySchema.DateOrderRule` | src/lib/types.ts:18-26 | the date rule fails exactly when both dates are given and the return is earlier; it passes when either is absent; its issue is last and on `returnDate` |
| `EnquirySchema.IssuesIgnoreToken` | src/lib/types.ts:17 | the reCAPTCHA token never affects validation |
| `EnquiryActions.VerifyRecaptcha` | src/app/enquire/actions.ts:13-31 | the reCAPTCHA check accepts on every path |
| `EnquiryActions.OrPlaceholder` | src/app/enquire/actions.ts:61-71 | a missing or empty value shows its placeholder ("Not provided" for the phone, "None" for the stops); any other value is shown as typed |
| `EnquiryActions.DateText` | src/app/enquire/actions.ts:65-66 | a missing date shows "Not specified"; a given one is formatted |
| `EnquiryActions.ChildrenTextReadsBack` | src/app/enquire/actions.ts:69 | the children line reads back as the number given, and as 0 when none was given |
| `EnquiryActions.RoomsTextReadsBack` | src/app/enquire/actions.ts:70 | the rooms line reads back as the number given; with none given it is "Not specified", which reads back as no number |
| `EnquiryActions.ReplaceNewlines` | src/app/enquire/actions.ts:74 | a newline becomes "<br>" and the rendered message has no newline; it grows by 3 characters per newline, and is the message itself when it has none |
| `EnquiryActions.ReplaceNewlinesAppend` | src/app/enquire/actions.ts:74 | the replacement distributes over concatenation |
| `EnquiryActions.ReplaceNewlinesIdempotent` | src/app/enquire/actions.ts:74 | replacing twice equals replacing once; the replacement changes the message exactly when it has a newline |
| `EnquiryActions.Submit` | src/app/enquire/actions.ts:42-88 | an invalid form gives failure with its issues and sends nothing; a valid one sends exactly one email, to staff, with subject "New Travel Enquiry from " + name; success exactly when the send resolves to true; false gives the "Failed to send" error, a throw the generic one; the reCAPTCHA failure never occurs |
| `EnquiryActions.TokenIgnored` | src/app/enquire/actions.ts:49 | forms that differ only in the token give the same result and the same email |
| `EnquiryActions.SubmitEnquiry` | src/app/enquire/actions.ts:42-88 | the action returns what `Submit` returns and logs exactly the emails `Submit` sends |
| `DestinationData.FindIndex` | src/lib/destinationData.ts:81 | the index found holds the id and no earlier entry does; none is found exactly when no entry has the id |
| `DestinationData.Find` | src/lib/destinationData.ts:81 | the entry found has the id, is in the table and is the first such; none exactly when no entry has the id |
| `DestinationData.TableIds` | src/lib/destinationData.ts:17-78 | the table holds six entries with ids paris, kyoto, rome, bali, new-york and cape-town, in that order |
| `DestinationData.IdsDistinct` | src/lib/destinationData.ts:17-78 | no two entries share an id |
| `DestinationData.FindInTable` | src/lib/destinationData.ts:80-82 | a lookup in the table succeeds exactly for the six ids it holds |
| `DestinationData.GetDestinationById` | src/lib/destinationData.ts:80-82 | `undefined` exactly for ids outside the table; otherwise an entry of the table with that id |
| `DestinationData.LookupOwnId` | src/lib/destinationData.ts:80-82 | every entry is returned for its own id |

## Left out

- HMAC-SHA256 (RFC 2104 over FIPS 180-4 SHA-256) is a parameter of the model, not computed by it. So the properties hold for any digest function. Collision resistance is not assumed.
- `JSON.parse` and the JSON grammar are a parameter returning a value or a syntax failure. JSON numbers are integers in the model. A JSON object's duplicate keys and a `__proto__` key are left to the parser.
- Property reads (`Member`) are exact for the names the handler reads, none of which is `length` or an array index. They do not model properties inherited from prototypes.
- `Display` renders an object as "[object Object]". A JSON object whose own `toString` member is not a function makes `String(v)` throw a TypeError, which the handler answers with 500. The model does not capture this. An own `valueOf` alone changes nothing, because `toString` is tried first and the inherited one answers.
- `AmountText`: for that same kind of object as `amount`, `paymentLink.amount / 100` throws a TypeError. The handler then answers 500 and sends no email. The model renders the amount "NaN" instead, and answers 200 after both emails.
- `AmountText`: a string amount is coerced as an optionally signed decimal integer, or as 0 when empty. Other strings and all arrays are shown as "NaN". JavaScript's `ToNumber` accepts more forms, such as whitespace, exponents, hexadecimal and single-element arrays. Amounts of 10^23 paise or more, which `toFixed` writes in exponent form, are not modelled. Nor are amounts beyond exact double precision.
- `NatToString`: integers are rendered in plain decimal. JavaScript switches to exponent form at 10^21.
- Zod's email regex is a parameter (`EmailCheck`). `z.coerce.number` is not modelled: numeric fields are already integers, so a non-numeric or non-integral input, which zod would reject, cannot be written. Dates are integers, so an invalid `Date` cannot be written either.
- String lengths count Dafny characters, not UTF-16 code units, so a character outside the Basic Multilingual Plane counts once here and twice in JavaScript.
- date-fns `format(date, "PPP")` is a parameter (`DateFormatter`).
- Environment variables are explicit configuration values (`Config`, `EnquiryConfig`). The source reads them once at module load.
- `console` logging, `NextRequest`/`NextResponse` objects and async/await are not modelled; a response is a status with a `message` or `error` string. A failure of `request.text()` falls outside the handler's `try` and is not modelled.
- The mail transport is a parameter returning a boolean or a thrown error. `StubTransport` is the repository's logging stub. In the webhook, a thrown send is caught and answered with 500; this model has no way to make a send throw a `SyntaxError`.
- Replaying a verified request is not deduplicated. `Post` appends the emails again on every call, as its postcondition shows.
- The React pages, the header's menu state and the enquiry page's form wiring are not modelled. They only render.
