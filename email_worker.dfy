/**
 * The task-queue email worker: it decodes a job, reads the template fields
 * it needs out of the job's template data (falling back to defaults), and
 * hands them to the mail sender. Its retry delay grows linearly.
 */
module EmailWorker {
  import opened Wrappers
  import opened EmailJobs
  import EmailService
  import EmailQueue

  /** A template-data entry that is a string; an absent key or a non-string value is None. */
  function StringEntry(d: TemplateData, k: string): (r: Option<string>)
    ensures r.Some? <==> k in d && d[k].Str?
    ensures r.Some? ==> d[k] == Str(r.value)
  {
    if k in d && d[k].Str? then Some(d[k].s) else None
  }

  /** getRecipientName: "RecipientName", else "FirstName", else empty. */
  function RecipientName(job: EmailJob): string {
    match StringEntry(job.templateData, "RecipientName")
    case Some(n) => n
    case None => StringEntry(job.templateData, "FirstName").GetOr("")
  }

  /** getTitleFromJob: "Title", else the subject. */
  function Title(job: EmailJob): string {
    StringEntry(job.templateData, "Title").GetOr(job.subject)
  }

  const OtpDefaultMessage: string := "Please use the verification code below to proceed."
  const WelcomeDefaultMessage: string := "Welcome! We're excited to have you join our community."
  const OtherDefaultMessage: string := "Thank you for using our service."

  /** getMessageFromJob: "Message", else a default chosen by the job kind. */
  function Message(job: EmailJob): string {
    match StringEntry(job.templateData, "Message")
    case Some(m) => m
    case None =>
      match job.kind
      case OtpMail => OtpDefaultMessage
      case Welcome => WelcomeDefaultMessage
      case _ => OtherDefaultMessage
  }

  /** getOTPFromJob: "OTP", else empty. */
  function OtpOf(job: EmailJob): string {
    StringEntry(job.templateData, "OTP").GetOr("")
  }

  /** The fields every extractor reads. */
  predicate ReadKey(k: string) {
    k == "RecipientName" || k == "FirstName" || k == "Title" || k == "Message" || k == "OTP"
  }

  /** A non-string value under a key is treated exactly as if the key were absent. */
  lemma NonStringValueIsIgnored(job: EmailJob, k: string, n: int)
    ensures var withNum := job.(templateData := job.templateData[k := Num(n)]);
      var without := job.(templateData := job.templateData - {k});
      && RecipientName(withNum) == RecipientName(without)
      && Title(withNum) == Title(without)
      && Message(withNum) == Message(without)
      && OtpOf(withNum) == OtpOf(without)
  {
  }

  /** Keys the extractors do not read change nothing they return. */
  lemma OtherKeysDoNotMatter(job: EmailJob, k: string, v: TemplateValue)
    requires !ReadKey(k)
    ensures var j := job.(templateData := job.templateData[k := v]);
      && RecipientName(j) == RecipientName(job) && Title(j) == Title(job)
      && Message(j) == Message(job) && OtpOf(j) == OtpOf(job)
  {
    var j := job.(templateData := job.templateData[k := v]);
    assert forall key :: ReadKey(key) ==> StringEntry(j.templateData, key) == StringEntry(job.templateData, key);
  }

  /** A string under "RecipientName" wins over "FirstName"; "FirstName" is used only without it. */
  lemma RecipientNamePrecedence(job: EmailJob, name: string, first: string)
    ensures RecipientName(job.(templateData := job.templateData["RecipientName" := Str(name)])) == name
    ensures StringEntry(job.templateData, "RecipientName").None? ==>
      RecipientName(job.(templateData := job.templateData["FirstName" := Str(first)])) == first
  {
    var d := job.templateData["FirstName" := Str(first)];
    if StringEntry(job.templateData, "RecipientName").None? {
      assert StringEntry(d, "RecipientName").None?;
    }
  }

  /** Without a string title the subject is the title; without a string message the default depends only on the kind. */
  lemma Defaults(job: EmailJob)
    ensures StringEntry(job.templateData, "Title").None? ==> Title(job) == job.subject
    ensures StringEntry(job.templateData, "Message").None? ==>
      Message(job) == (if job.kind == OtpMail then OtpDefaultMessage
                       else if job.kind == Welcome then WelcomeDefaultMessage
                       else OtherDefaultMessage)
    ensures StringEntry(job.templateData, "OTP").None? ==> OtpOf(job) == ""
  {
  }

  /** An OTP job from the queue builder, read by the worker, yields the builder's title, message and code. */
  lemma OtpJobThroughWorker(id: string, to: string, otp: string, otpType: string, now: Time, year: int)
    ensures var job := EmailQueue.OtpJob(id, to, otp, otpType, now, year);
      && Title(job) == EmailQueue.OtpText(otpType).1
      && Message(job) == EmailQueue.OtpText(otpType).2
      && OtpOf(job) == otp
      && RecipientName(job) == ""
  {
  }

  /**
   * The welcome job stores the name under "Name", which the worker does not
   * read: its recipient name comes out empty and, having no "Message", it
   * gets the welcome default.
   */
  lemma WelcomeJobThroughWorker(id: string, email: string, firstName: string, lastName: string,
                                password: string, orgName: string, now: Time, year: int)
    ensures var job := EmailQueue.WelcomeJob(id, email, firstName, lastName, password, orgName, now, year);
      && RecipientName(job) == ""
      && Message(job) == WelcomeDefaultMessage
      && Title(job) == job.subject
  {
  }

  /** RetryDelayFunc: n minutes before the n-th retry, in seconds. */
  function RetryDelay(n: int): int {
    n * 60
  }

  /** The worker's delay grows by one minute per attempt. */
  lemma RetryDelayLinear(n: int)
    ensures RetryDelay(n + 1) == RetryDelay(n) + 60
    ensures n >= 0 ==> RetryDelay(n) >= 0
  {
  }

  /** From the tenth attempt on, the queue's 2^n-second backoff exceeds the worker's n minutes (up to the 64-bit shift limit); at the ninth it does not. */
  lemma {:induction false} BackoffOvertakesRetryDelay(n: nat)
    requires 10 <= n < 64
    ensures EmailQueue.BackoffSeconds(n) > RetryDelay(n)
    ensures EmailQueue.BackoffSeconds(9) < RetryDelay(9)
  {
    assert EmailQueue.Pow2(9) == 512 by {
      assert EmailQueue.Pow2(4) == 16;
      assert EmailQueue.Pow2(8) == 256;
    }
    if n == 10 {
      assert EmailQueue.Pow2(10) == 1024;
    } else {
      BackoffOvertakesRetryDelay(n - 1);
      assert EmailQueue.Pow2(n) == 2 * EmailQueue.Pow2(n - 1);
    }
  }

  /** While the queue's backoff is still shorter: at the first attempt it is two seconds against a minute. */
  lemma FirstRetryDelays()
    ensures EmailQueue.BackoffSeconds(1) == 2 && RetryDelay(1) == 60
  {
  }

  /** The data handleEmailSend builds from a job. */
  function WorkerData(job: EmailJob): EmailService.EmailData {
    EmailService.EmptyData().(to := job.to, subject := job.subject, title := Title(job),
                              message := Message(job), recipientName := RecipientName(job),
                              otp := OtpOf(job), data := job.templateData)
  }

  const UnmarshalError: string := "failed to unmarshal email job: "
  const SendError: string := "failed to send email: "

  /**
   * handleEmailSend. A payload that does not decode is an error and sends
   * nothing; otherwise the job's fields go to the sender and its error, if
   * any, comes back wrapped.
   */
  method HandleEmailSend(payload: Payload, fromEmail: string, year: int,
                         render: (string, EmailService.EmailData) -> Result<string>, smtpErr: Option<string>)
    returns (err: Option<string>, sent: Option<EmailService.Mail>)
    ensures payload.Malformed? ==> err == Some(UnmarshalError + Decode(payload).msg) && sent == None
    ensures payload.Encoded? ==>
      var job := payload.job;
      var d := EmailService.Prepare(WorkerData(job), job.to, job.subject, fromEmail, year);
      && (render(job.templateFile, d).Err? ==>
            err == Some(SendError + ("failed to parse template: " + render(job.templateFile, d).msg)) && sent == None)
      && (render(job.templateFile, d).Ok? && smtpErr.Some? ==>
            err == Some(SendError + ("failed to send email: " + smtpErr.value)) && sent == None)
      && (render(job.templateFile, d).Ok? && smtpErr.None? ==>
            err == None && sent == Some(EmailService.Mail(fromEmail, [job.to],
              EmailService.Headers(fromEmail, job.to, job.subject) + EmailService.CRLF + render(job.templateFile, d).value)))
  {
    var decoded := Decode(payload);
    if decoded.Err? {
      return Some(UnmarshalError + decoded.msg), None;
    }
    var job := decoded.value;
    var data := WorkerData(job);
    var e;
    e, sent := EmailService.SendEmail(job.to, job.subject, job.templateFile, data, fromEmail, year, render, smtpErr);
    if e.Some? {
      return Some(SendError + e.value), sent;
    }
    err := None;
  }

  /** The rendered template sees the job's recipient and subject, and a title that is never empty when the subject is not. */
  lemma WorkerDataTemplateView(job: EmailJob, fromEmail: string, year: int)
    ensures var d := EmailService.Prepare(WorkerData(job), job.to, job.subject, fromEmail, year);
      && d.to == job.to && d.subject == job.subject && d.data == job.templateData
      && d.otp == OtpOf(job) && d.recipientName == RecipientName(job)
      && (job.subject != "" ==> d.title != "")
  {
  }
}
