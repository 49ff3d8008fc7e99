/**
 * Request-field validators, the display names used in validation messages,
 * and the formatting of a failed validation into a list of field errors.
 *
 * Each anchored regular expression of the validator table is written as the
 * character-class predicate it accepts. Character classes are ASCII, as the
 * patterns are (`\d` is ASCII in RE2; `\s` is tab, newline, form feed,
 * carriage return and space).
 */
module Validators {
  import opened Wrappers
  import opened Text
  import Otp

  predicate AllDigits(s: string) {
    forall i :: 0 <= i < |s| ==> IsDigit(s[i])
  }

  predicate AllChars(s: string, p: char -> bool) {
    forall i :: 0 <= i < |s| ==> p(s[i])
  }

  /** RE2 `\s`. */
  predicate IsRegexSpace(c: char) {
    c == '\t' || c == '\n' || c == '\U{C}' || c == '\r' || c == ' '
  }

  predicate IsAlnum(c: char) { IsLetter(c) || IsDigit(c) }

  predicate IsLowerHex(c: char) { IsDigit(c) || 'a' <= c <= 'f' }

  // ---- email and URL ----

  /** `[a-zA-Z0-9._%+\-]`: the local part of an address. */
  predicate IsLocalChar(c: char) {
    IsAlnum(c) || c == '.' || c == '_' || c == '%' || c == '+' || c == '-'
  }

  /** `[a-zA-Z0-9.\-]`: a host name character. */
  predicate IsHostChar(c: char) {
    IsAlnum(c) || c == '.' || c == '-'
  }

  /**
   * `[a-zA-Z0-9.\-]+\.[a-zA-Z]{2,}`: host characters throughout, and a dot
   * after at least one of them followed by two or more letters to the end.
   * Letters are host characters and a dot is not a letter, so that dot can
   * only be the last one.
   */
  predicate ValidHost(d: string) {
    AllChars(d, IsHostChar) &&
    match LastIndexOf(d, '.')
    case None => false
    case Some(q) => q >= 1 && |d| - q - 1 >= 2 && AllChars(d[q + 1..], IsLetter)
  }

  /** validateEmail. Neither side may hold an '@', so the address splits at its only one. */
  predicate ValidEmail(s: string) {
    match IndexOf(s, '@')
    case None => false
    case Some(p) => p >= 1 && AllChars(s[..p], IsLocalChar) && ValidHost(s[p + 1..])
  }

  /** The text after the scheme separator of an http or https URL. */
  function AfterScheme(s: string): Option<string> {
    if HasPrefix(s, "http://") then Some(s[7..])
    else if HasPrefix(s, "https://") then Some(s[8..])
    else None
  }

  /**
   * validateURL. The path part `(?:/[^/]*)*` accepts exactly the strings that
   * are empty or start with '/', so the host runs to the first '/'.
   */
  predicate ValidURL(s: string) {
    match AfterScheme(s)
    case None => false
    case Some(r) =>
      match IndexOf(r, '/')
      case None => ValidHost(r)
      case Some(k) => ValidHost(r[..k])
  }

  // ---- numbers and codes ----

  /** validatePhone: `^\+?[0-9]{7,15}$`. */
  predicate ValidPhone(s: string) {
    var d := if |s| > 0 && s[0] == '+' then s[1..] else s;
    7 <= |d| <= 15 && AllDigits(d)
  }

  /** validateCreditCard: the Visa, Mastercard, Amex, Diners, Discover and JCB number shapes. */
  predicate ValidCreditCard(s: string) {
    AllDigits(s) && |s| >= 2 &&
    ( (s[0] == '4' && (|s| == 13 || |s| == 16))
    || (s[0] == '5' && '1' <= s[1] <= '5' && |s| == 16)
    || (s[0] == '3' && (s[1] == '4' || s[1] == '7') && |s| == 15)
    || (s[0] == '3' && |s| == 14 && ((s[1] == '0' && '0' <= s[2] <= '5') || s[1] == '6' || s[1] == '8'))
    || (s[0] == '6' && |s| == 16 && (s[1..4] == "011" || s[1] == '5'))
    || (|s| == 15 && (s[..4] == "2131" || s[..4] == "1800"))
    || (s[0] == '3' && s[1] == '5' && |s| == 16))
  }

  /** validateExpiryDate: `^(0[1-9]|1[0-2])\/([0-9]{2})$`. */
  predicate ValidExpiryDate(s: string) {
    |s| == 5 && s[2] == '/' && IsDigit(s[3]) && IsDigit(s[4]) &&
    ((s[0] == '0' && '1' <= s[1] <= '9') || (s[0] == '1' && '0' <= s[1] <= '2'))
  }

  /** validateCVV: three or four digits. */
  predicate ValidCVV(s: string) {
    3 <= |s| <= 4 && AllDigits(s)
  }

  /** validateOTP: four to six digits. */
  predicate ValidOTP(s: string) {
    4 <= |s| <= 6 && AllDigits(s)
  }

  /** validateUUID: lower-case hex in groups of 8-4-4-4-12. */
  predicate ValidUUID(s: string) {
    |s| == 36 &&
    forall i :: 0 <= i < 36 ==>
      if i == 8 || i == 13 || i == 18 || i == 23 then s[i] == '-' else IsLowerHex(s[i])
  }

  /** validateUsername: 3-20 letters, digits or underscores. */
  predicate ValidUsername(s: string) {
    3 <= |s| <= 20 && forall i :: 0 <= i < |s| ==> IsAlnum(s[i]) || s[i] == '_'
  }

  /** validateName: 2-50 letters, white space, hyphens or apostrophes. */
  predicate ValidName(s: string) {
    2 <= |s| <= 50 && forall i :: 0 <= i < |s| ==> IsLetter(s[i]) || IsRegexSpace(s[i]) || s[i] == '-' || s[i] == '\''
  }

  /** validateAddress: 5-200 letters, digits, white space or `.,#-'`. */
  predicate ValidAddress(s: string) {
    5 <= |s| <= 200 &&
    forall i :: 0 <= i < |s| ==>
      IsAlnum(s[i]) || IsRegexSpace(s[i]) || s[i] == '.' || s[i] == ',' || s[i] == '#' || s[i] == '-' || s[i] == '\''
  }

  /** validateZipCode: five digits, optionally a hyphen and four more. */
  predicate ValidZipCode(s: string) {
    (|s| == 5 && AllDigits(s)) || (|s| == 10 && AllDigits(s[..5]) && s[5] == '-' && AllDigits(s[6..]))
  }

  /** validateCurrencyAmount: digits, optionally a point and one or two digits. */
  predicate ValidCurrencyAmount(s: string) {
    (|s| >= 1 && AllDigits(s))
    || (|s| >= 3 && s[|s| - 2] == '.' && AllDigits(s[..|s| - 2]) && IsDigit(s[|s| - 1]))
    || (|s| >= 4 && s[|s| - 3] == '.' && AllDigits(s[..|s| - 3]) && AllDigits(s[|s| - 2..]))
  }

  /** Every code GenerateOTP makes with four to six digits passes the OTP validator. */
  lemma GeneratedOtpIsValid(digits: nat, roll: nat)
    requires 4 <= digits <= 6
    ensures ValidOTP(Otp.OtpCode(digits, roll))
  {
    Otp.OtpCodeShape(digits, roll);
  }

  /** A four-digit code is both a valid OTP and a valid CVV; a three-digit CVV is not an OTP. */
  lemma OtpAndCvvOverlap(s: string)
    requires AllDigits(s)
    ensures |s| == 4 ==> ValidOTP(s) && ValidCVV(s)
    ensures |s| == 3 ==> ValidCVV(s) && !ValidOTP(s)
  {
  }

  /** A '+' may be put before a valid phone number without a '+'; the number has 7 to 16 characters. */
  lemma PhonePlusPrefix(s: string)
    requires ValidPhone(s) && s[0] != '+'
    ensures ValidPhone("+" + s)
    ensures 7 <= |s| <= 15
  {
    assert ("+" + s)[1..] == s;
  }

  /** A ZIP+4 code is a five-digit code, a hyphen and four digits. */
  lemma ZipPlusFour(a: string, b: string)
    requires |a| == 5 && |b| == 4
    ensures ValidZipCode(a + "-" + b) <==> ValidZipCode(a) && AllDigits(b)
  {
    var s := a + "-" + b;
    assert s[..5] == a && s[6..] == b && s[5] == '-';
  }

  /** An address splits at its one '@': it is valid iff the local part is and the host is. */
  lemma EmailParts(local: string, host: string)
    requires '@' !in local && '@' !in host
    ensures ValidEmail(local + "@" + host) <==> |local| >= 1 && AllChars(local, IsLocalChar) && ValidHost(host)
  {
    var s := local + "@" + host;
    assert s[..|local|] == local && s[|local| + 1..] == host;
    IndexOfFirst(s, '@', |local|);
  }

  /**
   * A host is a non-empty run of host characters, a dot, and a top-level
   * domain of letters: it is valid iff that domain has two or more letters.
   */
  lemma HostParts(name: string, tld: string)
    requires AllChars(tld, IsLetter)
    ensures ValidHost(name + "." + tld) <==> |name| >= 1 && AllChars(name, IsHostChar) && |tld| >= 2
  {
    var d := name + "." + tld;
    assert d[|name| + 1..] == tld;
    assert '.' !in tld;
    LastIndexOfLast(d, '.', |name|);
    assert d[..|name|] == name;
  }

  /** A host without a dot is never valid, so "localhost" is refused. */
  lemma HostNeedsDot(d: string)
    requires '.' !in d
    ensures !ValidHost(d)
  {
  }

  /** An http(s) URL is valid iff its host is, whatever path follows. */
  lemma UrlParts(scheme: string, host: string, path: string)
    requires scheme == "http://" || scheme == "https://"
    requires '/' !in host && (path == "" || path[0] == '/')
    ensures ValidURL(scheme + host + path) <==> ValidHost(host)
  {
    var s := scheme + host + path;
    assert s[..|scheme|] == scheme;
    if scheme == "https://" {
      assert s[..7][4] == 's';
      assert s[8..] == host + path;
    } else {
      assert s[7..] == host + path;
    }
    assert AfterScheme(s) == Some(host + path);
    if path != "" {
      assert (host + path)[..|host|] == host;
      IndexOfFirst(host + path, '/', |host|);
    } else {
      assert host + path == host;
    }
  }

  /** Only the http and https schemes are accepted. */
  lemma UrlNeedsHttpScheme(s: string)
    requires !HasPrefix(s, "http://") && !HasPrefix(s, "https://")
    ensures !ValidURL(s)
  {
  }

  /** A card number has 13 to 16 digits and starts with 1 to 6. */
  lemma CardShape(s: string)
    requires ValidCreditCard(s)
    ensures 13 <= |s| <= 16 && '1' <= s[0] <= '6'
  {
  }

  /** A number starting with 4 (Visa) is valid iff it has 13 or 16 digits. */
  lemma VisaLengths(s: string)
    requires AllDigits(s) && |s| >= 2 && s[0] == '4'
    ensures ValidCreditCard(s) <==> |s| == 13 || |s| == 16
  {
  }

  /** A number starting with 34 or 37 (Amex) is valid iff it has 15 digits. */
  lemma AmexLength(s: string)
    requires AllDigits(s) && |s| >= 4 && s[0] == '3' && (s[1] == '4' || s[1] == '7')
    ensures ValidCreditCard(s) <==> |s| == 15
  {
  }

  /** Value of a two-digit decimal text. */
  function TwoDigitValue(mm: string): int
    requires |mm| == 2
  {
    (mm[0] as int - '0' as int) * 10 + (mm[1] as int - '0' as int)
  }

  /** An expiry date "MM/YY" is valid iff both parts are digits and the month is 1 to 12. */
  lemma ExpiryMeaning(mm: string, yy: string)
    requires |mm| == 2 && |yy| == 2
    ensures ValidExpiryDate(mm + "/" + yy) <==> AllDigits(mm) && AllDigits(yy) && 1 <= TwoDigitValue(mm) <= 12
  {
    var s := mm + "/" + yy;
    assert s[0] == mm[0] && s[1] == mm[1] && s[2] == '/' && s[3] == yy[0] && s[4] == yy[1];
  }

  /** A whole number with a fractional part is a valid amount iff the fraction has one or two digits. */
  lemma AmountMeaning(whole: string, frac: string)
    requires |whole| >= 1 && AllDigits(whole) && AllDigits(frac)
    ensures ValidCurrencyAmount(whole + "." + frac) <==> 1 <= |frac| <= 2
  {
    var s := whole + "." + frac;
    assert s[|whole|] == '.';
    assert forall i :: 0 <= i < |frac| ==> s[|whole| + 1 + i] == frac[i];
    if |frac| == 1 {
      assert s[..|s| - 2] == whole;
    } else if |frac| == 2 {
      assert s[..|s| - 3] == whole;
      assert s[|s| - 2..] == frac;
    } else if |frac| >= 3 {
      assert s[..|s| - 2][|whole|] == '.';
      assert s[..|s| - 3][|whole|] == '.';
    } else {
      assert s[|s| - 1] == '.';
    }
  }

  /** A whole number of digits is a valid amount; a text ending in a point is not. */
  lemma AmountWholeOrPoint(s: string)
    ensures |s| >= 1 && AllDigits(s) ==> ValidCurrencyAmount(s)
    ensures |s| >= 1 && s[|s| - 1] == '.' ==> !ValidCurrencyAmount(s)
  {
  }

  /** An upper-case hex letter anywhere makes a UUID invalid. */
  lemma UuidRejectsUpperCase(s: string, i: nat)
    requires i < |s| && 'A' <= s[i] <= 'F'
    ensures !ValidUUID(s)
  {
  }

  /** Lower-casing never turns a valid UUID invalid: a valid one is already lower case. */
  lemma UuidIsLowerCase(s: string)
    requires ValidUUID(s)
    ensures ToLower(s) == s
  {
  }

  // ---- strong password ----

  /** Bytes of the UTF-8 encoding of one character. */
  function Utf8Width(c: char): nat {
    if c as int < 0x80 then 1 else if c as int < 0x800 then 2 else if c as int < 0x10000 then 3 else 4
  }

  /** len() of a Go string: its UTF-8 byte length. */
  function Utf8Length(s: string): nat
    decreases |s|
  {
    if |s| == 0 then 0 else Utf8Length(s[..|s| - 1]) + Utf8Width(s[|s| - 1])
  }

  /** Every character takes at least one byte, so the byte length is never below the character count. */
  lemma {:induction false} Utf8LengthAtLeastChars(s: string)
    ensures Utf8Length(s) >= |s|
    ensures (forall i :: 0 <= i < |s| ==> s[i] as int < 0x80) ==> Utf8Length(s) == |s|
    decreases |s|
  {
    if |s| > 0 {
      Utf8LengthAtLeastChars(s[..|s| - 1]);
    }
  }

  /** The special characters `[!@#$%^&*()_+\-=\[\]{};':"\\|,.<>\/?]`. */
  predicate IsSpecial(c: char) {
    c == '!' || c == '@' || c == '#' || c == '$' || c == '%' || c == '^' || c == '&' || c == '*'
    || c == '(' || c == ')' || c == '_' || c == '+' || c == '-' || c == '=' || c == '[' || c == ']'
    || c == '{' || c == '}' || c == ';' || c == '\'' || c == ':' || c == '"' || c == '\\' || c == '|'
    || c == ',' || c == '.' || c == '<' || c == '>' || c == '/' || c == '?'
  }

  predicate Contains(s: string, p: char -> bool) {
    exists i :: 0 <= i < |s| && p(s[i])
  }

  /** validateStrongPassword. */
  predicate StrongPassword(s: string) {
    Utf8Length(s) >= 8 && Contains(s, IsUpperAscii) && Contains(s, IsLowerAscii)
    && Contains(s, IsDigit) && Contains(s, IsSpecial)
  }

  /** A strong password holds four different kinds of character, so at least four characters. */
  lemma StrongPasswordHasFourKinds(s: string)
    requires StrongPassword(s)
    ensures |s| >= 4
  {
    var u :| 0 <= u < |s| && IsUpperAscii(s[u]);
    var l :| 0 <= l < |s| && IsLowerAscii(s[l]);
    var d :| 0 <= d < |s| && IsDigit(s[d]);
    var x :| 0 <= x < |s| && IsSpecial(s[x]);
    assert u != l && u != d && u != x && l != d && l != x && d != x;
  }

  /**
   * The length rule counts bytes, not characters: a six-character password
   * with two two-byte letters meets it, while the same rule phrased in
   * characters would not.
   */
  lemma StrongPasswordCountsBytes()
    ensures StrongPassword("Aa1!\U{E9}\U{E9}") && |"Aa1!\U{E9}\U{E9}"| == 6
  {
    var s := "Aa1!\U{E9}\U{E9}";
    assert Utf8Length(s) == 8 by {
      var p4 := "Aa1!";
      Utf8LengthAtLeastChars(p4);
      assert s[..5][..4] == p4;
      assert Utf8Length(s[..5]) == Utf8Length(p4) + Utf8Width(s[4]);
      assert Utf8Width('\U{E9}') == 2;
    }
    assert IsUpperAscii(s[0]) && IsLowerAscii(s[1]) && IsDigit(s[2]) && IsSpecial(s[3]);
  }

  /** Eight ASCII characters of the four kinds are a strong password. */
  lemma AsciiStrongPassword(s: string)
    requires |s| >= 8 && forall i :: 0 <= i < |s| ==> s[i] as int < 0x80
    requires Contains(s, IsUpperAscii) && Contains(s, IsLowerAscii) && Contains(s, IsDigit) && Contains(s, IsSpecial)
    ensures StrongPassword(s)
  {
    Utf8LengthAtLeastChars(s);
  }

  // ---- display names ----

  /** The fixed display-name table of getFieldDisplayName. */
  const DisplayNames: map<string, string> := map[
    "first_name" := "First name", "last_name" := "Last name", "email" := "Email address",
    "password" := "Password", "new_password" := "New password", "confirm_password" := "Confirm password",
    "old_password" := "Current password", "phone" := "Phone number", "phone_number" := "Phone number",
    "address" := "Address", "street_address" := "Street address", "city" := "City", "state" := "State",
    "zip_code" := "ZIP code", "postal_code" := "Postal code", "country" := "Country",
    "date_of_birth" := "Date of birth", "birth_date" := "Birth date",
    "organization_name" := "Organization name", "company_name" := "Company name",
    "event_name" := "Event name", "event_title" := "Event title", "description" := "Description",
    "start_date" := "Start date", "end_date" := "End date", "start_time" := "Start time",
    "end_time" := "End time", "price" := "Price", "ticket_price" := "Ticket price",
    "quantity" := "Quantity", "capacity" := "Capacity", "location" := "Location", "venue" := "Venue",
    "category" := "Category", "credit_card" := "Credit card number", "card_number" := "Card number",
    "expiry_date" := "Expiry date", "cvv" := "CVV/CVC", "cardholder_name" := "Cardholder name",
    "otp_code" := "OTP code", "verification_code" := "Verification code", "reset_token" := "Reset code",
    "email_token" := "Email", "refresh_token" := "Refresh token", "access_token" := "Access token",
    "user_id" := "User ID", "organization_id" := "Organization ID", "event_id" := "Event ID",
    "ticket_id" := "Ticket ID", "NewPassword" := "New password", "ConfirmPassword" := "Confirm password",
    "FirstName" := "First name", "LastName" := "Last name", "Email" := "Email address",
    "Password" := "Password"]

  /** A snake-case part: first character upper-cased, the rest lower-cased; an empty part stays empty. */
  function CapPart(p: string): string {
    if |p| > 0 then [UpperChar(p[0])] + ToLower(p[1..]) else p
  }

  function CapParts(ps: seq<string>): (r: seq<string>)
    ensures |r| == |ps| && forall i :: 0 <= i < |ps| ==> r[i] == CapPart(ps[i])
  {
    seq(|ps|, i requires 0 <= i < |ps| => CapPart(ps[i]))
  }

  /** After the first character: a space before each upper-case letter, everything lower-cased. */
  function CamelTail(s: string): string
    decreases |s|
  {
    if |s| == 0 then ""
    else CamelTail(s[..|s| - 1]) + (if IsUpperAscii(s[|s| - 1]) then " " else "") + [LowerChar(s[|s| - 1])]
  }

  function CamelTitle(s: string): string {
    if |s| == 0 then "" else [UpperChar(s[0])] + CamelTail(s[1..])
  }

  /** What convertCamelCaseToTitleCase returns. */
  function TitleCase(s: string): string {
    if '_' in s then Join(CapParts(Split(s, '_')), " ") else CamelTitle(s)
  }

  /** convertCamelCaseToTitleCase: parts rewritten in place, or runes appended one by one. */
  method ConvertCamelCaseToTitleCase(fieldName: string) returns (r: string)
    ensures r == TitleCase(fieldName)
  {
    if '_' in fieldName {
      var original := Split(fieldName, '_');
      var parts := original;
      var i := 0;
      while i < |parts|
        invariant 0 <= i <= |parts| == |original|
        invariant forall k :: 0 <= k < i ==> parts[k] == CapPart(original[k])
        invariant forall k :: i <= k < |parts| ==> parts[k] == original[k]
      {
        if |parts[i]| > 0 {
          parts := parts[i := [UpperChar(parts[i][0])] + ToLower(parts[i][1..])];
        }
        i := i + 1;
      }
      assert parts == CapParts(original);
      return Join(parts, " ");
    }
    var result: string := [];
    for i := 0 to |fieldName|
      invariant i == 0 ==> result == []
      invariant i > 0 ==> result == CamelTitle(fieldName[..i])
    {
      if i > 0 && IsUpperAscii(fieldName[i]) {
        result := result + [' '];
      }
      if i == 0 {
        result := result + [UpperChar(fieldName[i])];
      } else {
        assert fieldName[..i + 1][1..] == fieldName[1..i + 1];
        assert fieldName[1..i + 1][..i - 1] == fieldName[1..i];
        result := result + [LowerChar(fieldName[i])];
      }
    }
    assert fieldName[..|fieldName|] == fieldName;
    return result;
  }

  lemma LowerOfUpper(c: char)
    ensures LowerChar(UpperChar(c)) == LowerChar(c)
  {
  }

  /** Lower-casing a title-cased part gives the lower-cased part. */
  lemma CapPartLower(p: string)
    ensures ToLower(CapPart(p)) == ToLower(p)
  {
    if |p| > 0 {
      LowerOfUpper(p[0]);
      ToLowerIdempotent(p[1..]);
      ToLowerConcat([UpperChar(p[0])], ToLower(p[1..]));
      ToLowerConcat([p[0]], p[1..]);
      assert p == [p[0]] + p[1..];
    }
  }

  /**
   * For a snake-case name, title-casing changes case only and turns each
   * underscore into one space: empty parts are kept, so repeated underscores
   * give repeated spaces.
   */
  lemma SnakeCaseIsSpacedName(s: string)
    requires '_' in s
    ensures ToLower(TitleCase(s)) == ToLower(Replace(s, '_', ' '))
    ensures |TitleCase(s)| == |s|
  {
    var ps := Split(s, '_');
    var cs := CapParts(ps);
    ToLowerJoin(cs, " ");
    ToLowerJoin(ps, " ");
    forall i | 0 <= i < |ps|
      ensures ToLower(cs[i]) == ToLower(ps[i])
    {
      CapPartLower(ps[i]);
    }
    assert seq(|cs|, i requires 0 <= i < |cs| => ToLower(cs[i])) == seq(|ps|, i requires 0 <= i < |ps| => ToLower(ps[i]));
    JoinSplitReplace(s, '_', ' ');
    assert ToLower(" ") == " ";
  }

  function CountUpper(s: string): nat
    decreases |s|
  {
    if |s| == 0 then 0 else CountUpper(s[..|s| - 1]) + (if IsUpperAscii(s[|s| - 1]) then 1 else 0)
  }

  /** Camel case: one extra character, a space, per upper-case letter after the first character. */
  lemma {:induction false} CamelTailLength(s: string)
    ensures |CamelTail(s)| == |s| + CountUpper(s)
    decreases |s|
  {
    if |s| > 0 {
      CamelTailLength(s[..|s| - 1]);
    }
  }

  lemma CamelCaseLength(s: string)
    requires '_' !in s && |s| > 0
    ensures |TitleCase(s)| == |s| + CountUpper(s[1..])
    ensures TitleCase(s)[0] == UpperChar(s[0])
  {
    CamelTailLength(s[1..]);
  }

  lemma TitleCaseExamples()
    ensures TitleCase("aB") == "A b"
    ensures TitleCase("a__b") == "A  B"
  {
    assert '_' !in "aB" by { assert "aB"[0] != '_' && "aB"[1] != '_'; }
    assert "aB"[1..] == "B";
    assert "B"[..0] == "";
    assert CamelTail("B") == " b";
    assert "a__b"[0] == 'a';
    assert '_' in "a__b" by { assert "a__b"[1] == '_'; }
    assert Split("", '_') == [""];
    assert "b"[1..] == "";
    assert ["b"[0]] + Split("", '_')[0] == "b";
    assert Split("b", '_') == ["b"];
    assert "_b"[1..] == "b";
    assert Split("_b", '_') == ["", "b"];
    assert "__b"[1..] == "_b";
    assert Split("__b", '_') == ["", "", "b"];
    assert "a__b"[1..] == "__b";
    assert ["a"[0]] + Split("__b", '_')[0] == "a";
    assert Split("a__b", '_') == ["a", "", "b"];
    assert CapPart("a") == "A" by { assert "a"[1..] == ""; }
    assert CapPart("b") == "B" by { assert "b"[1..] == ""; }
    assert CapParts(["a", "", "b"]) == ["A", "", "B"];
  }

  /** getFieldDisplayName: the table entry if there is one, else the title-cased name. */
  function FieldDisplayName(field: string): string {
    if field in DisplayNames then DisplayNames[field] else TitleCase(field)
  }

  /** A name outside the table is converted without losing characters: the display name is never shorter. */
  lemma FieldDisplayNameNotShorter(field: string)
    requires field !in DisplayNames
    ensures |FieldDisplayName(field)| >= |field|
  {
    if field == "" {
    } else if '_' in field {
      SnakeCaseIsSpacedName(field);
    } else {
      CamelCaseLength(field);
    }
  }

  // ---- error messages ----

  /** A validator.FieldError: the field's name, the failed tag and its parameter. */
  datatype FieldError = FieldError(field: string, tag: string, param: string)

  /** The tags getErrorMsg has a message for. */
  const KnownTags: set<string> := {
    "required", "email", "phone", "strong_password", "min", "max", "url", "credit_card",
    "expiry_date", "cvv", "otp", "uuid", "username", "name", "address", "zip_code",
    "currency_amount", "eqfield", "nefield", "gte", "lte", "gt", "lt", "len", "alphanum",
    "alpha", "numeric", "datetime", "oneof"}

  /** What getErrorMsg puts after the display name, for each tag. */
  function MessageTail(tag: string, param: string): string {
    match tag
    case "required" => " is required"
    case "email" => " must be a valid email address"
    case "phone" => " must be a valid phone number"
    case "strong_password" => " must be at least 8 characters long and contain uppercase, lowercase, number, and special character"
    case "min" => " must be at least " + param + " characters long"
    case "max" => " must not exceed " + param + " characters"
    case "url" => " must be a valid URL"
    case "credit_card" => " must be a valid credit card number"
    case "expiry_date" => " must be a valid expiry date in MM/YY format"
    case "cvv" => " must be a valid CVV/CVC code (3-4 digits)"
    case "otp" => " must be a valid OTP (4-6 digits)"
    case "uuid" => " must be a valid UUID"
    case "username" => " must be 3-20 characters long and contain only letters, numbers, and underscores"
    case "name" => " must be 2-50 characters long and contain only letters, spaces, hyphens, and apostrophes"
    case "address" => " must be 5-200 characters long and contain only valid address characters"
    case "zip_code" => " must be a valid zip/postal code"
    case "currency_amount" => " must be a valid currency amount (e.g., 10.99)"
    case "eqfield" => " and " + FieldDisplayName(param) + " do not match"
    case "nefield" => " must be different from " + FieldDisplayName(param)
    case "gte" => " must be greater than or equal to " + param
    case "lte" => " must be less than or equal to " + param
    case "gt" => " must be greater than " + param
    case "lt" => " must be less than " + param
    case "len" => " must be exactly " + param + " characters long"
    case "alphanum" => " must contain only letters and numbers"
    case "alpha" => " must contain only letters"
    case "numeric" => " must contain only numbers"
    case "datetime" => " must be a valid date and time"
    case "oneof" => " must be one of the following values: " + param
    case _ => " is invalid"
  }

  /** getErrorMsg. */
  function ErrorMessage(e: FieldError): string {
    FieldDisplayName(e.field) + MessageTail(e.tag, e.param)
  }

  /** Every message starts with the field's display name; a tag without a message gives "<name> is invalid". */
  lemma ErrorMessageShape(e: FieldError)
    ensures HasPrefix(ErrorMessage(e), FieldDisplayName(e.field))
    ensures e.tag !in KnownTags ==> ErrorMessage(e) == FieldDisplayName(e.field) + " is invalid"
    ensures e.tag == "eqfield" ==>
      ErrorMessage(e) == FieldDisplayName(e.field) + " and " + FieldDisplayName(e.param) + " do not match"
  {
    var n := FieldDisplayName(e.field);
    var t := MessageTail(e.tag, e.param);
    assert (n + t)[..|n|] == n;
    if e.tag !in KnownTags {
      UnknownTagTail(e.tag, e.param);
    }
    if e.tag == "eqfield" {
      assert t == " and " + FieldDisplayName(e.param) + " do not match";
    }
  }

  /** A tag without a message of its own gets " is invalid". */
  lemma UnknownTagTail(tag: string, param: string)
    requires tag !in KnownTags
    ensures MessageTail(tag, param) == " is invalid"
  {
  }

  // ---- FormatErrors ----

  /** The error FormatErrors receives: the validator's field errors, or any other error with its text. */
  datatype BindError = FieldErrors(errors: seq<FieldError>) | OtherError(text: string)

  datatype ValidationError = ValidationError(field: string, message: string)

  /** The loop of FormatErrors: one entry per field error, in order, with the message `message` gives it. */
  method FormatFieldErrors(errors: seq<FieldError>, message: FieldError -> string) returns (r: seq<ValidationError>)
    ensures |r| == |errors|
    ensures forall i :: 0 <= i < |r| ==> r[i] == ValidationError(errors[i].field, message(errors[i]))
  {
    r := [];
    for i := 0 to |errors|
      invariant |r| == i
      invariant forall k :: 0 <= k < i ==> r[k] == ValidationError(errors[k].field, message(errors[k]))
    {
      r := r + [ValidationError(errors[i].field, message(errors[i]))];
    }
  }

  /** FormatErrors: one entry per field error, in order; any other error is one "request" entry. */
  method FormatErrors(err: BindError) returns (r: seq<ValidationError>)
    ensures err.OtherError? ==> r == [ValidationError("request", err.text)]
    ensures err.FieldErrors? ==>
      |r| == |err.errors| &&
      forall i :: 0 <= i < |r| ==> r[i] == ValidationError(err.errors[i].field, ErrorMessage(err.errors[i]))
  {
    if err.FieldErrors? {
      r := FormatFieldErrors(err.errors, ErrorMessage);
    } else {
      r := [ValidationError("request", err.text)];
    }
  }
}
