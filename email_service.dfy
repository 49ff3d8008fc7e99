/**
 * The direct mail sender: template data defaulting, the OTP mail texts, and
 * the message framing handed to SMTP (header lines, a blank line, the body,
 * as section 2.1 of RFC 5322 lays a message out).
 *
 * Template rendering is a function parameter from the template name and the
 * data to a rendered body or an error; the SMTP exchange is the error it
 * returns, if any.
 */
module EmailService {
  import opened Wrappers
  import opened EmailJobs

  const CRLF: string := "\r\n"
  const BlankLine: string := "\r\n\r\n"

  /** EmailData: the fields a template can use, and the free-form Data map. */
  datatype EmailData = EmailData(
    to: string,
    subject: string,
    title: string,
    message: string,
    recipientName: string,
    otp: string,
    appName: string,
    supportEmail: string,
    currentYear: int,
    data: TemplateData)

  function EmptyData(): EmailData {
    EmailData("", "", "", "", "", "", "", "", 0, map[])
  }

  /** What sendSMTP hands to the mail server: sender, recipients and the raw message. */
  datatype Mail = Mail(from: string, recipients: seq<string>, message: string)

  const MimeLine: string := "MIME-Version: 1.0"
  const ContentTypeLine: string := "Content-Type: text/html; charset=UTF-8"

  predicate NoLineBreak(s: string) {
    forall i :: 0 <= i < |s| ==> s[i] != '\r' && s[i] != '\n'
  }

  /** The header block composeMessage writes, each line ended by CRLF. */
  function Headers(from: string, to: string, subject: string): string {
    "From: " + from + CRLF
    + "To: " + to + CRLF
    + "Subject: " + subject + CRLF
    + MimeLine + CRLF
    + ContentTypeLine + CRLF
  }

  /** composeMessage: the header lines, an empty line, then the body verbatim. */
  method ComposeMessage(from: string, to: string, subject: string, body: string) returns (msg: string)
    ensures msg == Headers(from, to, subject) + CRLF + body
  {
    msg := "From: " + from + "\r\n";
    msg := msg + "To: " + to + "\r\n";
    msg := msg + "Subject: " + subject + "\r\n";
    msg := msg + "MIME-Version: 1.0\r\n";
    msg := msg + "Content-Type: text/html; charset=UTF-8\r\n";
    msg := msg + "\r\n";
    msg := msg + body;
  }

  predicate BlankAt(s: string, j: int) {
    0 <= j && j + 4 <= |s| && s[j..j + 4] == BlankLine
  }

  /** The position of the first empty line (the first CRLFCRLF), which ends the header section. */
  function FindBlankLine(s: string): Option<nat>
    decreases |s|
  {
    if |s| < 4 then None
    else if s[..4] == BlankLine then Some(0)
    else match FindBlankLine(s[1..])
      case None => None
      case Some(k) => Some(k + 1)
  }

  /** FindBlankLine finds a blank line exactly when there is one, and then the first. */
  lemma {:induction false} FindBlankLineMeans(s: string)
    ensures FindBlankLine(s).None? <==> forall j :: 0 <= j < |s| ==> !BlankAt(s, j)
    ensures FindBlankLine(s).Some? ==>
      BlankAt(s, FindBlankLine(s).value) && forall j :: 0 <= j < FindBlankLine(s).value ==> !BlankAt(s, j)
    decreases |s|
  {
    if |s| < 4 {
    } else if s[..4] == BlankLine {
      assert s[0..4] == s[..4];
      assert BlankAt(s, 0);
    } else {
      var t := s[1..];
      FindBlankLineMeans(t);
      BlankShift(s);
      assert !BlankAt(s, 0) by { assert s[0..4] == s[..4]; }
      if FindBlankLine(t).Some? {
        assert BlankAt(s, FindBlankLine(t).value + 1);
      }
    }
  }

  /** A blank line at j > 0 is one at j - 1 of the string without its first character. */
  lemma BlankShift(s: string)
    requires |s| > 0
    ensures forall j :: 1 <= j < |s| ==> (BlankAt(s, j) <==> BlankAt(s[1..], j - 1))
  {
    forall j | 1 <= j < |s|
      ensures BlankAt(s, j) <==> BlankAt(s[1..], j - 1)
    {
      if j + 4 <= |s| {
        var a, b := s[j..j + 4], s[1..][j - 1..j + 3];
        assert forall k :: 0 <= k < 4 ==> a[k] == s[j + k] == b[k];
        assert a == b;
      }
    }
  }

  /** A line without line breaks, followed by CRLF and anything but a CR, holds no blank line. */
  lemma {:induction false} LineThenRest(a: string, rest: string)
    requires NoLineBreak(a) && |rest| > 0 && rest[0] != '\r'
    ensures FindBlankLine(a + CRLF + rest) ==
      (match FindBlankLine(rest) case None => None case Some(k) => Some(|a| + 2 + k))
    decreases |a|
  {
    var s := a + CRLF + rest;
    if |a| > 0 {
      assert s[0] == a[0];
      if |s| >= 4 { assert s[..4][0] == s[0]; }
      assert s[1..] == a[1..] + CRLF + rest;
      assert NoLineBreak(a[1..]) by { assert forall i :: 0 <= i < |a| - 1 ==> a[1..][i] == a[i + 1]; }
      LineThenRest(a[1..], rest);
    } else {
      assert s == "\r\n" + rest;
      if |s| >= 4 { assert s[..4][2] == rest[0]; }
      var t := s[1..];
      assert t == "\n" + rest;
      if |t| >= 4 { assert t[..4][0] == '\n'; }
      assert t[1..] == rest;
    }
  }

  /** A line without line breaks followed by an empty line: the blank line starts at its CRLF. */
  lemma {:induction false} LineThenBlank(a: string, body: string)
    requires NoLineBreak(a)
    ensures FindBlankLine(a + CRLF + (CRLF + body)) == Some(|a|)
    decreases |a|
  {
    var s := a + CRLF + (CRLF + body);
    if |a| > 0 {
      assert s[0] == a[0];
      assert s[..4][0] == s[0];
      assert s[1..] == a[1..] + CRLF + (CRLF + body);
      assert NoLineBreak(a[1..]) by { assert forall i :: 0 <= i < |a| - 1 ==> a[1..][i] == a[i + 1]; }
      LineThenBlank(a[1..], body);
    } else {
      assert s[..4] == BlankLine;
    }
  }

  /**
   * When From, To and Subject hold no CR or LF, the first empty line of the
   * message is the one composeMessage writes after the headers, and
   * everything after it is the body. Line breaks in those fields are not
   * escaped, so with them this need not hold.
   */
  lemma BodyFollowsFirstBlankLine(from: string, to: string, subject: string, body: string)
    requires NoLineBreak(from) && NoLineBreak(to) && NoLineBreak(subject)
    ensures var msg := Headers(from, to, subject) + CRLF + body;
      && FindBlankLine(msg) == Some(|Headers(from, to, subject)| - 2)
      && msg[FindBlankLine(msg).value + 4..] == body
  {
    var l1, l2, l3 := "From: " + from, "To: " + to, "Subject: " + subject;
    FixedLinesHaveNoBreak();
    JoinNoLineBreak("From: ", from);
    JoinNoLineBreak("To: ", to);
    JoinNoLineBreak("Subject: ", subject);
    var ls := [l1, l2, l3, MimeLine, ContentTypeLine];
    assert |l2| > 0 && |l3| > 0 && |MimeLine| > 0 && |ContentTypeLine| > 0;
    HeadersAsLines(from, to, subject);
    LinesThenBlank(ls, body);
    var h := Headers(from, to, subject);
    assert (h + CRLF + body)[|h| + 2..] == body;
  }

  lemma FixedLinesHaveNoBreak()
    ensures NoLineBreak("From: ") && NoLineBreak("To: ") && NoLineBreak("Subject: ")
    ensures NoLineBreak(MimeLine) && NoLineBreak(ContentTypeLine)
  {
  }

  lemma JoinNoLineBreak(p: string, x: string)
    requires NoLineBreak(p) && NoLineBreak(x)
    ensures NoLineBreak(p + x)
  {
    assert forall i :: 0 <= i < |p| ==> (p + x)[i] == p[i];
    assert forall i :: |p| <= i < |p + x| ==> (p + x)[i] == x[i - |p|];
  }

  /** Lines joined with each one ended by CRLF. */
  function Lines(ls: seq<string>): string {
    if |ls| == 0 then "" else ls[0] + CRLF + Lines(ls[1..])
  }

  /**
   * Header lines without line breaks, all but the first non-empty, then an
   * empty line and a body: the first blank line closes the last header line.
   */
  lemma {:induction false} LinesThenBlank(ls: seq<string>, body: string)
    requires |ls| >= 1
    requires forall i :: 0 <= i < |ls| ==> NoLineBreak(ls[i])
    requires forall i :: 1 <= i < |ls| ==> |ls[i]| > 0
    ensures FindBlankLine(Lines(ls) + CRLF + body) == Some(|Lines(ls)| - 2)
    decreases |ls|
  {
    var rest := Lines(ls[1..]);
    assert Lines(ls) == ls[0] + CRLF + rest;
    if |ls| == 1 {
      assert rest == "";
      assert Lines(ls) + CRLF + body == ls[0] + CRLF + (CRLF + body);
      LineThenBlank(ls[0], body);
    } else {
      var tail := rest + CRLF + body;
      assert Lines(ls) + CRLF + body == ls[0] + CRLF + tail;
      assert forall i :: 0 <= i < |ls| - 1 ==> ls[1..][i] == ls[i + 1];
      LinesThenBlank(ls[1..], body);
      assert rest == ls[1] + CRLF + Lines(ls[2..]) by { assert ls[1..][1..] == ls[2..]; }
      assert tail[0] == ls[1][0];
      LineThenRest(ls[0], tail);
    }
  }

  /** The header block is its five lines joined. */
  lemma HeadersAsLines(from: string, to: string, subject: string)
    ensures Headers(from, to, subject) ==
      Lines(["From: " + from, "To: " + to, "Subject: " + subject, MimeLine, ContentTypeLine])
  {
    var ls := ["From: " + from, "To: " + to, "Subject: " + subject, MimeLine, ContentTypeLine];
    assert ls[1..][1..][1..][1..][1..] == [];
    assert Lines(ls[4..]) == ContentTypeLine + CRLF by { assert ls[4..][1..] == []; }
    assert Lines(ls[3..]) == MimeLine + CRLF + Lines(ls[4..]) by { assert ls[3..][1..] == ls[4..]; }
    assert Lines(ls[2..]) == "Subject: " + subject + CRLF + Lines(ls[3..]) by { assert ls[2..][1..] == ls[3..]; }
    assert Lines(ls[1..]) == "To: " + to + CRLF + Lines(ls[2..]) by { assert ls[1..][1..] == ls[2..]; }
    assert Lines(ls) == "From: " + from + CRLF + Lines(ls[1..]);
  }

  /** The data the template sees: the common fields overwritten, the title defaulted. */
  function Prepare(data: EmailData, to: string, subject: string, fromEmail: string, year: int): EmailData {
    data.(to := to, subject := subject, appName := "Event Ticketing", supportEmail := fromEmail,
          currentYear := year, title := if data.title == "" then subject else data.title)
  }

  /**
   * Whatever the caller passed, the template gets the given recipient and
   * subject, the app name, the sender as support address and the current
   * year; a non-empty title is kept and an empty one becomes the subject;
   * message, recipient name, code and extra data pass through.
   */
  lemma PrepareOverwritesCommonFields(data: EmailData, to: string, subject: string, fromEmail: string, year: int)
    ensures Prepare(data, to, subject, fromEmail, year).to == to
    ensures Prepare(data, to, subject, fromEmail, year).subject == subject
    ensures Prepare(data, to, subject, fromEmail, year).appName == "Event Ticketing"
    ensures Prepare(data, to, subject, fromEmail, year).supportEmail == fromEmail
    ensures Prepare(data, to, subject, fromEmail, year).currentYear == year
    ensures data.title != "" ==> Prepare(data, to, subject, fromEmail, year).title == data.title
    ensures data.title == "" ==> Prepare(data, to, subject, fromEmail, year).title == subject
    ensures var d := Prepare(data, to, subject, fromEmail, year);
      && d.message == data.message && d.recipientName == data.recipientName
      && d.otp == data.otp && d.data == data.data
  {
  }

  /**
   * SendEmail: fill the common fields, render, then send. A render failure
   * returns an error and sends nothing; an SMTP failure is wrapped.
   */
  method SendEmail(to: string, subject: string, templateName: string, data: EmailData, fromEmail: string, year: int,
                   render: (string, EmailData) -> Result<string>, smtpErr: Option<string>)
    returns (err: Option<string>, sent: Option<Mail>)
    ensures var d := Prepare(data, to, subject, fromEmail, year);
      && (render(templateName, d).Err? ==>
            err == Some("failed to parse template: " + render(templateName, d).msg) && sent == None)
      && (render(templateName, d).Ok? && smtpErr.Some? ==>
            err == Some("failed to send email: " + smtpErr.value) && sent == None)
      && (render(templateName, d).Ok? && smtpErr.None? ==>
            err == None && sent == Some(Mail(fromEmail, [to], Headers(fromEmail, to, subject) + CRLF + render(templateName, d).value)))
  {
    var d := data;
    d := d.(to := to);
    d := d.(subject := subject);
    d := d.(appName := "Event Ticketing");
    d := d.(supportEmail := fromEmail);
    d := d.(currentYear := year);
    if d.title == "" {
      d := d.(title := subject);
    }
    assert d == Prepare(data, to, subject, fromEmail, year);
    var body := render(templateName, d);
    if body.Err? {
      return Some("failed to parse template: " + body.msg), None;
    }
    err, sent := SendSmtp(fromEmail, to, subject, body.value, smtpErr);
  }

  /** sendSMTP: compose the message and hand it to the server. */
  method SendSmtp(fromEmail: string, to: string, subject: string, body: string, smtpErr: Option<string>)
    returns (err: Option<string>, sent: Option<Mail>)
    ensures smtpErr.Some? ==> err == Some("failed to send email: " + smtpErr.value) && sent == None
    ensures smtpErr.None? ==> err == None && sent == Some(Mail(fromEmail, [to], Headers(fromEmail, to, subject) + CRLF + body))
  {
    var msg := ComposeMessage(fromEmail, to, subject, body);
    if smtpErr.Some? {
      return Some("failed to send email: " + smtpErr.value), None;
    }
    return None, Some(Mail(fromEmail, [to], msg));
  }

  /** The subject, title, message and template SendOTPEmail uses for a code type. */
  datatype OtpMailText = OtpMailText(subject: string, title: string, message: string, template: string)

  const RegistrationMail := OtpMailText("Verify Your Email - Registration OTP", "Email Verification",
    "Thank you for registering! Please use the verification code below to complete your email verification.",
    "otp_email.html")
  const PasswordResetMail := OtpMailText("Password Reset OTP", "Password Reset",
    "You've requested to reset your password. Please use the verification code below to proceed.",
    "reset_password_email.html")
  const DefaultOtpMail := OtpMailText("Your OTP Code", "Verification Code",
    "Please use the verification code below to proceed.", "otp_email.html")

  function OtpMailContent(otpType: string): OtpMailText {
    if otpType == "registration" then RegistrationMail
    else if otpType == "password_reset" then PasswordResetMail
    else DefaultOtpMail
  }

  /** Only password-reset codes use the reset template; every other type uses the OTP template. */
  lemma OtpTemplateChoice(otpType: string)
    ensures OtpMailContent(otpType).template == (if otpType == "password_reset" then "reset_password_email.html" else "otp_email.html")
    ensures OtpMailContent(otpType).title != ""
  {
  }

  function OtpMailData(otp: string, otpType: string): EmailData {
    var c := OtpMailContent(otpType);
    EmptyData().(title := c.title, message := c.message, otp := otp, data := map["OTPType" := Str(otpType)])
  }

  /**
   * SendOTPEmail: the type's texts and template, the code, and the type
   * under "OTPType"; the render and SMTP outcomes are those of SendEmail.
   */
  method SendOTPEmail(to: string, otp: string, otpType: string, fromEmail: string, year: int,
                      render: (string, EmailData) -> Result<string>, smtpErr: Option<string>)
    returns (err: Option<string>, sent: Option<Mail>)
    ensures var c := OtpMailContent(otpType);
      var d := Prepare(OtpMailData(otp, otpType), to, c.subject, fromEmail, year);
      && d.data["OTPType"] == Str(otpType) && d.otp == otp && d.title == c.title && d.message == c.message
      && (render(c.template, d).Err? ==>
            err == Some("failed to parse template: " + render(c.template, d).msg) && sent == None)
      && (render(c.template, d).Ok? && smtpErr.Some? ==>
            err == Some("failed to send email: " + smtpErr.value) && sent == None)
      && (render(c.template, d).Ok? && smtpErr.None? ==>
            err == None && sent == Some(Mail(fromEmail, [to], Headers(fromEmail, to, c.subject) + CRLF + render(c.template, d).value)))
  {
    var c := OtpMailContent(otpType);
    var data := EmptyData().(title := c.title, message := c.message, otp := otp, data := map["OTPType" := Str(otpType)]);
    err, sent := SendEmail(to, c.subject, c.template, data, fromEmail, year, render, smtpErr);
  }

  const WelcomeSubject := "Welcome to Event Ticketing!"

  /** The data SendWelcomeEmail passes: the welcome title, a greeting naming the user, and the name. */
  function WelcomeMailData(firstName: string): EmailData {
    EmptyData().(title := WelcomeSubject,
                 message := "Welcome " + firstName + "! We're excited to have you join our community.",
                 recipientName := firstName)
  }

  /** SendWelcomeEmail: the welcome template with the user's first name; the outcomes are those of SendEmail. */
  method SendWelcomeEmail(to: string, firstName: string, fromEmail: string, year: int,
                          render: (string, EmailData) -> Result<string>, smtpErr: Option<string>)
    returns (err: Option<string>, sent: Option<Mail>)
    ensures var d := Prepare(WelcomeMailData(firstName), to, WelcomeSubject, fromEmail, year);
      && d.recipientName == firstName && d.title == WelcomeSubject
      && (render("welcome_email.html", d).Err? ==>
            err == Some("failed to parse template: " + render("welcome_email.html", d).msg) && sent == None)
      && (render("welcome_email.html", d).Ok? && smtpErr.Some? ==>
            err == Some("failed to send email: " + smtpErr.value) && sent == None)
      && (render("welcome_email.html", d).Ok? && smtpErr.None? ==>
            err == None
            && sent == Some(Mail(fromEmail, [to], Headers(fromEmail, to, WelcomeSubject) + CRLF + render("welcome_email.html", d).value)))
  {
    var data := EmptyData().(title := "Welcome to Event Ticketing!",
                             message := "Welcome " + firstName + "! We're excited to have you join our community.",
                             recipientName := firstName);
    err, sent := SendEmail(to, "Welcome to Event Ticketing!", "welcome_email.html", data, fromEmail, year, render, smtpErr);
  }

  /** SendWelcomeEmailWithCredentials is a stub: whatever it is given, it fails and sends nothing. */
  function SendWelcomeEmailWithCredentials(user: string, password: string, orgName: string): (r: Option<string>)
    ensures r.Some? && r.value != ""
  {
    Some("not implemented yet - will be added when needed")
  }
}
