/**
 * The email job record that travels through the queue, its result record,
 * and the serialised form the store holds.
 */
module EmailJobs {
  import opened Wrappers

  /** Seconds on the wall clock. */
  type Time = int

  /** The nine declared job kinds. */
  datatype EmailJobType =
    | OtpMail | Verification | PasswordReset | Welcome | Notification
    | Invoice | Reminder | TicketConfirmation | Invitation

  /** The wire name of each kind. */
  function TypeName(t: EmailJobType): string {
    match t
    case OtpMail => "otp"
    case Verification => "verification"
    case PasswordReset => "password_reset"
    case Welcome => "welcome"
    case Notification => "notification"
    case Invoice => "invoice"
    case Reminder => "reminder"
    case TicketConfirmation => "ticket_confirmation"
    case Invitation => "invitation"
  }

  /** Distinct kinds have distinct wire names, so a decoded name determines the kind. */
  lemma TypeNameInjective(a: EmailJobType, b: EmailJobType)
    requires TypeName(a) == TypeName(b)
    ensures a == b
  {
    assert TypeName(a)[0] == TypeName(b)[0];
    if TypeName(a)[0] == 'i' { assert TypeName(a)[2] == TypeName(b)[2]; }
    if TypeName(a)[0] == 'v' || TypeName(a)[0] == 'p' || TypeName(a)[0] == 'w' || TypeName(a)[0] == 'n' {
      assert |TypeName(a)| == |TypeName(b)|;
    }
  }

  /**
   * A template-data value. Go decodes every JSON number into a float64, so a
   * number put in as an int comes back as a number of the same value; both are Num.
   */
  datatype TemplateValue = Str(s: string) | Num(n: int)

  type TemplateData = map<string, TemplateValue>

  /** models.EmailJob. A Go zero time is None. Priority 0 is the highest priority. */
  datatype EmailJob = EmailJob(
    id: string,
    kind: EmailJobType,
    to: string,
    subject: string,
    templateFile: string,
    templateData: TemplateData,
    priority: int,
    createdAt: Time,
    processAfter: Option<Time>,
    retryCount: int,
    maxRetries: int,
    lastError: string,
    lastAttemptedAt: Option<Time>)

  /** models.EmailJobResult: the job it is about, the outcome, an optional error text and the send time. */
  datatype EmailJobResult = EmailJobResult(
    jobId: string,
    successful: bool,
    error: string,
    sentAt: Option<Time>)

  /** What a list element of the store holds: the JSON of a job, or bytes that are not one. */
  datatype Payload = Encoded(job: EmailJob) | Malformed(raw: string)

  function Encode(job: EmailJob): Payload {
    Encoded(job)
  }

  function Decode(p: Payload): Result<EmailJob> {
    match p
    case Encoded(job) => Ok(job)
    case Malformed(_) => Err("failed to deserialize email job")
  }

  /** Decoding an encoded job gives back every field; the queue relies on this between push and pop. */
  lemma DecodeEncode(job: EmailJob)
    ensures Decode(Encode(job)) == Ok(job)
  {
  }

  /** A job with no process-after time is due at once; otherwise it is due once that time is not in the future. */
  predicate IsDue(job: EmailJob, now: Time) {
    job.processAfter.None? || job.processAfter.value <= now
  }
}
