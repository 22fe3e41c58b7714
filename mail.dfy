/**
 * Outgoing mail as the route handler and the enquiry action see it: an
 * asynchronous `sendEmail(to, subject, htmlContent)` that resolves to a
 * boolean or rejects. The transport is a parameter; the repository's own
 * transport is a logging stub that always resolves to `true`.
 */
module Mail {
  import opened Wrappers

  datatype Email = Email(to: string, subject: string, html: string)

  /** What one `await sendEmail(...)` produces: a boolean, or a thrown error. */
  datatype SendOutcome = Sent(delivered: bool) | Threw

  /** The placeholder `sendEmail` of both source files: it logs and reports success. */
  function StubTransport(e: Email): SendOutcome {
    Sent(true)
  }

  const DefaultStaffAddress := "employee@example.com"

  /**
   * `process.env.EMPLOYEE_EMAIL_ADDRESS || "employee@example.com"`: the
   * configured staff address unless it is unset or empty.
   */
  function StaffAddress(configured: Option<string>): (a: string)
    ensures a != ""
    ensures configured.Some? && configured.value != "" ==> a == configured.value
    ensures a == DefaultStaffAddress <==> configured.None? || configured.value in {"", DefaultStaffAddress}
  {
    if configured.Some? && configured.value != "" then configured.value else DefaultStaffAddress
  }

  /**
   * The mail transport together with the record of every send it was
   * asked to make, in order.
   */
  class Mailer {
    const transport: Email -> SendOutcome
    var log: seq<Email>

    constructor (transport: Email -> SendOutcome)
      ensures this.transport == transport && log == []
    {
      this.transport := transport;
      log := [];
    }

    /** One `await sendEmail(to, subject, html)`: recorded, then answered by the transport. */
    method Send(to: string, subject: string, html: string) returns (outcome: SendOutcome)
      modifies this
      ensures log == old(log) + [Email(to, subject, html)]
      ensures outcome == transport(Email(to, subject, html))
    {
      log := log + [Email(to, subject, html)];
      outcome := transport(Email(to, subject, html));
    }
  }
}
