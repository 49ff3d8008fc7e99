/**
 * One-time passwords: generation, and a key/value store of codes that expire
 * ten minutes after they are saved and are deleted by a successful check.
 */
module Otp {
  import opened Wrappers
  import opened Text

  /** Seconds an OTP stays valid. */
  const OtpExpirySeconds: int := 600

  const SaveError: string := "failed to save OTP"
  const VerifyError: string := "failed to verify OTP"
  const InvalidateError: string := "failed to invalidate OTP"

  const Registration: string := "registration"
  const PasswordReset: string := "password_reset"
  const PhoneVerification: string := "phone_verification"
  const TwoFactorAuth: string := "2fa"
  const PaymentConfirmation: string := "payment"

  /** The store key of an OTP: its type, a colon, and the identifier. */
  function Key(otpType: string, identifier: string): string {
    otpType + ":" + identifier
  }

  /**
   * For types without a colon (all five declared types) the key determines
   * both the type and the identifier, so an OTP of one purpose never answers
   * for another.
   */
  lemma KeyInjective(t1: string, i1: string, t2: string, i2: string)
    requires ':' !in t1 && ':' !in t2
    requires Key(t1, i1) == Key(t2, i2)
    ensures t1 == t2 && i1 == i2
  {
    var k := Key(t1, i1);
    FirstColon(t1, i1);
    FirstColon(t2, i2);
    assert t1 == k[..|t1|] && i1 == k[|t1| + 1..];
    assert t2 == k[..|t2|] && i2 == k[|t2| + 1..];
  }

  /** In a key whose type has no colon, the first colon ends the type. */
  lemma FirstColon(t: string, i: string)
    requires ':' !in t
    ensures IndexOf(Key(t, i), ':') == Some(|t|)
  {
    var k := Key(t, i);
    assert k[..|t|] == t;
    IndexOfFirst(k, ':', |t|);
  }

  /** A type that does contain a colon can share a key with another type. */
  lemma KeyAmbiguousWithColon()
    ensures Key("a:b", "c") == Key("a", "b:c")
  {
  }

  /** pow10: a loop multiplying by ten n times (a non-positive n gives 1). */
  method Pow10(n: int) returns (r: int)
    ensures r == (if n <= 0 then 1 else TenTo(n))
  {
    r := 1;
    var i := 0;
    while i < n
      invariant 0 <= i <= (if n < 0 then 0 else n)
      invariant r == TenTo(i)
    {
      r := r * 10;
      i := i + 1;
    }
  }

  /** rand.Intn(hi - lo + 1) + lo for a draw `roll` of the random source: a number from lo to hi. */
  function Draw(lo: nat, hi: nat, roll: nat): (n: nat)
    requires lo <= hi
    ensures lo <= n <= hi
  {
    lo + roll % (hi - lo + 1)
  }

  /**
   * The code GenerateOTP returns for a draw `roll` of the random source:
   * a number from min = 10^(d-1) to max = 10^d - 1, written in decimal.
   */
  function OtpCode(digits: nat, roll: nat): string
    requires digits >= 1
  {
    OtpSpan(digits);
    Decimal(Draw(TenTo(digits - 1), TenTo(digits) - 1, roll))
  }

  /** Every generated code has exactly `digits` decimal digits and no leading zero. */
  lemma OtpCodeShape(digits: nat, roll: nat)
    requires digits >= 1
    ensures |OtpCode(digits, roll)| == digits
    ensures OtpCode(digits, roll)[0] != '0'
    ensures forall i :: 0 <= i < digits ==> IsDigit(OtpCode(digits, roll)[i])
  {
    OtpSpan(digits);
    DecimalLength(Draw(TenTo(digits - 1), TenTo(digits) - 1, roll), digits);
  }

  /** Every d-digit number is the code of some draw. */
  lemma OtpCodeCoversRange(digits: nat, n: nat)
    requires digits >= 1 && TenTo(digits - 1) <= n < TenTo(digits)
    ensures OtpCode(digits, n - TenTo(digits - 1)) == Decimal(n)
  {
    var lo := TenTo(digits - 1);
    SmallRemainder(n - lo, TenTo(digits) - 1 - lo + 1);
  }

  lemma SmallRemainder(x: int, m: int)
    requires 0 <= x < m
    ensures x % m == x
  {
  }

  /**
   * GenerateOTP. The random source is the parameter `roll`. Go's int64 overflows
   * from 19 digits on and `Intn` panics for fewer than one, so those are excluded.
   */
  method GenerateOTP(digits: int, roll: nat) returns (otp: string)
    requires 1 <= digits <= 18
    ensures otp == OtpCode(digits, roll)
  {
    var lo := Pow10(digits - 1);
    var p := Pow10(digits);
    var hi := p - 1;
    OtpSpan(digits);
    otp := Decimal(Draw(lo, hi, roll));
  }

  /** The range of d-digit numbers is not empty. */
  lemma OtpSpan(digits: nat)
    requires digits >= 1
    ensures TenTo(digits - 1) <= TenTo(digits) - 1
  {
    assert TenTo(digits) == 10 * TenTo(digits - 1);
  }

  /** A saved code and the time its TTL runs out. */
  datatype OtpEntry = OtpEntry(code: string, expiresAt: int)

  type Store = map<string, OtpEntry>

  /** The code a GET of `key` sees at time `now`: none once the TTL has run out. */
  function Live(m: Store, key: string, now: int): Option<string> {
    if key in m && now < m[key].expiresAt then Some(m[key].code) else None
  }

  /** SaveOTP on a working store: SET with a ten-minute TTL, replacing any earlier code. */
  function Save(m: Store, identifier: string, otpType: string, otp: string, now: int): Store {
    m[Key(otpType, identifier) := OtpEntry(otp, now + OtpExpirySeconds)]
  }

  datatype Verdict = Verdict(store: Store, valid: bool, err: Option<string>)

  /**
   * VerifyOTP: a missing or expired key is "not valid" without an error, a
   * store error is an error, a match deletes the key (a failing delete is
   * ignored) and is valid, a mismatch leaves the key and is not valid.
   */
  function Verify(m: Store, identifier: string, otpType: string, otp: string, now: int,
                  getFails: bool, delFails: bool): Verdict {
    var key := Key(otpType, identifier);
    if getFails then Verdict(m, false, Some(VerifyError))
    else match Live(m, key, now)
      case None => Verdict(m, false, None)
      case Some(stored) =>
        if stored == otp then Verdict(if delFails then m else m - {key}, true, None)
        else Verdict(m, false, None)
  }

  /** InvalidateOTP on a working store: DEL the key. */
  function Invalidate(m: Store, identifier: string, otpType: string): Store {
    m - {Key(otpType, identifier)}
  }

  /** A saved code verifies during the ten minutes after it was saved. */
  lemma SaveThenVerify(m: Store, identifier: string, otpType: string, otp: string, now: int, t: int, delFails: bool)
    requires now <= t < now + OtpExpirySeconds
    ensures Verify(Save(m, identifier, otpType, otp, now), identifier, otpType, otp, t, false, delFails).valid
  {
  }

  /** From ten minutes after saving on, the code no longer verifies, and no error is reported. */
  lemma SavedCodeExpires(m: Store, identifier: string, otpType: string, otp: string, now: int, t: int, guess: string, delFails: bool)
    requires t >= now + OtpExpirySeconds
    ensures var v := Verify(Save(m, identifier, otpType, otp, now), identifier, otpType, guess, t, false, delFails);
      !v.valid && v.err == None
  {
  }

  /**
   * Once a code has verified and its delete succeeded, verifying it again
   * fails.
   */
  lemma VerifyIsSingleUse(m: Store, identifier: string, otpType: string, otp: string, now: int, t: int, anyDel: bool)
    requires Verify(m, identifier, otpType, otp, now, false, false).valid
    ensures !Verify(Verify(m, identifier, otpType, otp, now, false, false).store, identifier, otpType, otp, t, false, anyDel).valid
  {
  }

  /**
   * VerifyOTP ignores the error of its DEL: when that delete fails, the used
   * code stays in the store and verifies again until it expires.
   */
  lemma FailedDeleteLeavesCodeUsable(m: Store, identifier: string, otpType: string, otp: string, now: int, t: int, anyDel: bool)
    requires Verify(m, identifier, otpType, otp, now, false, true).valid
    requires Key(otpType, identifier) in m && t < m[Key(otpType, identifier)].expiresAt
    ensures Verify(m, identifier, otpType, otp, now, false, true).store == m
    ensures Verify(Verify(m, identifier, otpType, otp, now, false, true).store, identifier, otpType, otp, t, false, anyDel).valid
  {
  }

  /** Verification succeeds exactly when the live code equals the guess. */
  lemma VerifyMeansMatch(m: Store, identifier: string, otpType: string, otp: string, now: int, getFails: bool, delFails: bool)
    ensures Verify(m, identifier, otpType, otp, now, getFails, delFails).valid
        <==> !getFails && Live(m, Key(otpType, identifier), now) == Some(otp)
    ensures !Verify(m, identifier, otpType, otp, now, getFails, delFails).valid
        ==> Verify(m, identifier, otpType, otp, now, getFails, delFails).store == m
  {
  }

  /** Saving a second code replaces the first: the first no longer verifies. */
  lemma ResaveReplaces(m: Store, identifier: string, otpType: string, first: string, second: string, t0: int, t1: int, t: int, delFails: bool)
    requires first != second
    ensures !Verify(Save(Save(m, identifier, otpType, first, t0), identifier, otpType, second, t1), identifier, otpType, first, t, false, delFails).valid
  {
  }

  /** A code saved for one purpose does not verify for another (with colon-free types). */
  lemma PurposesAreSeparate(m: Store, identifier: string, saved: string, asked: string, otp: string, now: int, t: int, delFails: bool)
    requires ':' !in saved && ':' !in asked && saved != asked
    requires !Verify(m, identifier, asked, otp, t, false, delFails).valid
    ensures !Verify(Save(m, identifier, saved, otp, now), identifier, asked, otp, t, false, delFails).valid
  {
    if Key(saved, identifier) == Key(asked, identifier) {
      KeyInjective(saved, identifier, asked, identifier);
    }
  }

  /** After invalidation the code does not verify. */
  lemma InvalidateThenVerify(m: Store, identifier: string, otpType: string, otp: string, t: int, delFails: bool)
    ensures !Verify(Invalidate(m, identifier, otpType), identifier, otpType, otp, t, false, delFails).valid
  {
  }

  /** OTPService over its part of the store. */
  class OtpService {
    var entries: Store

    constructor ()
      ensures entries == map[]
    {
      entries := map[];
    }

    method SaveOTP(identifier: string, otpType: string, otp: string, now: int, fails: bool)
      returns (err: Option<string>)
      modifies this
      ensures fails ==> entries == old(entries) && err == Some(SaveError)
      ensures !fails ==> entries == Save(old(entries), identifier, otpType, otp, now) && err == None
    {
      if fails {
        return Some(SaveError);
      }
      entries := entries[Key(otpType, identifier) := OtpEntry(otp, now + OtpExpirySeconds)];
      err := None;
    }

    method VerifyOTP(identifier: string, otpType: string, otp: string, now: int, getFails: bool, delFails: bool)
      returns (valid: bool, err: Option<string>)
      modifies this
      ensures Verdict(entries, valid, err) == Verify(old(entries), identifier, otpType, otp, now, getFails, delFails)
    {
      var key := Key(otpType, identifier);
      if getFails {
        return false, Some(VerifyError);
      }
      if key !in entries || entries[key].expiresAt <= now {
        return false, None;
      }
      if entries[key].code == otp {
        if !delFails {
          entries := entries - {key};
        }
        return true, None;
      }
      return false, None;
    }

    method InvalidateOTP(identifier: string, otpType: string, fails: bool)
      returns (err: Option<string>)
      modifies this
      ensures fails ==> entries == old(entries) && err == Some(InvalidateError)
      ensures !fails ==> entries == Invalidate(old(entries), identifier, otpType) && err == None
    {
      if fails {
        return Some(InvalidateError);
      }
      entries := entries - {Key(otpType, identifier)};
      err := None;
    }
  }
}
