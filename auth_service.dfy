/**
 * The authentication flows that issue and consume one-time codes and rotate
 * refresh tokens, over abstract user and token tables.
 *
 * The database is a pair of sequences; a query's `First` is the lowest index
 * that matches. Password hashing, token signing and parsing, and the random
 * source come in as parameters. The two OTP mail senders the service calls
 * but the repository does not define are one abstract effect: a delivery
 * appended to `outbox`, or the error the sender returns.
 */
module Auth {
  import opened Wrappers
  import opened Text
  import opened EmailJobs
  import Otp
  import EmailQueue

  datatype User = User(
    id: string,
    email: string,
    firstName: string,
    lastName: string,
    passwordHash: string,
    isEmailVerified: bool)

  const RefreshKind: string := "refresh"
  const ResetKind: string := "reset"

  /** A row of the token table. */
  datatype TokenRow = TokenRow(userId: string, tokenHash: string, kind: string, expiresAt: Time, revoked: bool)

  /** One code handed to an OTP mail sender. */
  datatype OtpDelivery = OtpDelivery(to: string, code: string, otpType: string)

  /** Everything the auth flows read or write. */
  datatype World = World(
    users: seq<User>,
    tokens: seq<TokenRow>,
    otp: Otp.Store,
    queue: EmailQueue.QueueState,
    outbox: seq<OtpDelivery>)

  datatype OtpResponse = OtpResponse(success: bool, message: string, expiresIn: int)

  /** gorm's error text for a query that matches no row. */
  const RecordNotFound: string := "record not found"

  /** A stand-in for the SHA-256 hex digest of a token: injective, and never the token itself. */
  function HashToken(t: string): string {
    "sha256:" + t
  }

  lemma HashTokenInjective(a: string, b: string)
    requires HashToken(a) == HashToken(b)
    ensures a == b
  {
    assert a == HashToken(a)[7..];
    assert b == HashToken(b)[7..];
  }

  /** The first user with exactly this email. */
  function FindByEmail(users: seq<User>, email: string): (r: Option<nat>)
    ensures r.None? <==> forall i :: 0 <= i < |users| ==> users[i].email != email
    ensures r.Some? ==> r.value < |users| && users[r.value].email == email
    ensures r.Some? ==> forall i :: 0 <= i < r.value ==> users[i].email != email
    decreases |users|
  {
    if |users| == 0 then None
    else if users[0].email == email then Some(0)
    else match FindByEmail(users[1..], email)
      case None => None
      case Some(k) => Some(k + 1)
  }

  /** The first user with this id. */
  function FindById(users: seq<User>, id: string): (r: Option<nat>)
    ensures r.None? <==> forall i :: 0 <= i < |users| ==> users[i].id != id
    ensures r.Some? ==> r.value < |users| && users[r.value].id == id
    ensures r.Some? ==> forall i :: 0 <= i < r.value ==> users[i].id != id
    decreases |users|
  {
    if |users| == 0 then None
    else if users[0].id == id then Some(0)
    else match FindById(users[1..], id)
      case None => None
      case Some(k) => Some(k + 1)
  }

  /** The token query's condition: this hash and type, not revoked, expiring after now. */
  predicate LiveToken(row: TokenRow, hash: string, kind: string, now: Time) {
    row.tokenHash == hash && row.kind == kind && !row.revoked && row.expiresAt > now
  }

  /** The first token row the query matches. */
  function FindToken(tokens: seq<TokenRow>, hash: string, kind: string, now: Time): (r: Option<nat>)
    ensures r.None? <==> forall i :: 0 <= i < |tokens| ==> !LiveToken(tokens[i], hash, kind, now)
    ensures r.Some? ==> r.value < |tokens| && LiveToken(tokens[r.value], hash, kind, now)
    ensures r.Some? ==> forall i :: 0 <= i < r.value ==> !LiveToken(tokens[i], hash, kind, now)
    decreases |tokens|
  {
    if |tokens| == 0 then None
    else if LiveToken(tokens[0], hash, kind, now) then Some(0)
    else match FindToken(tokens[1..], hash, kind, now)
      case None => None
      case Some(k) => Some(k + 1)
  }

  /**
   * Register, from the duplicate check on. The email is stored lower-cased and
   * unverified; failures to save or send the registration code are only logged.
   */
  function RegisterSpec(w: World, email: string, firstName: string, lastName: string, passwordHash: string,
                    newId: string, roll: nat, now: Time, saveFails: bool, sendErr: Option<string>): (World, Result<User>) {
    var e := ToLower(email);
    if FindByEmail(w.users, e).Some? then (w, Err("User with this email already exists"))
    else
      var u := User(newId, e, firstName, lastName, passwordHash, false);
      var code := Otp.OtpCode(6, roll);
      var store := if saveFails then w.otp else Otp.Save(w.otp, e, Otp.Registration, code, now);
      var outbox := if sendErr.None? then w.outbox + [OtpDelivery(e, code, Otp.Registration)] else w.outbox;
      (w.(users := w.users + [u], otp := store, outbox := outbox), Ok(u))
  }

  /** An email already taken, whatever its case in the request, is refused and nothing changes. */
  lemma RegisterRejectsTakenEmail(w: World, email: string, firstName: string, lastName: string, passwordHash: string,
                                  newId: string, roll: nat, now: Time, saveFails: bool, sendErr: Option<string>, i: nat)
    requires i < |w.users| && w.users[i].email == ToLower(email)
    ensures RegisterSpec(w, email, firstName, lastName, passwordHash, newId, roll, now, saveFails, sendErr)
      == (w, Err("User with this email already exists"))
  {
  }

  /**
   * A free email always registers, whatever happens to the code: one user is
   * appended, lower-cased and unverified, and only the code store and the
   * outbox may change besides.
   */
  lemma RegisterAddsUser(w: World, email: string, firstName: string, lastName: string, passwordHash: string,
                         newId: string, roll: nat, now: Time, saveFails: bool, sendErr: Option<string>)
    requires forall i :: 0 <= i < |w.users| ==> w.users[i].email != ToLower(email)
    ensures var (w', r) := RegisterSpec(w, email, firstName, lastName, passwordHash, newId, roll, now, saveFails, sendErr);
      && r == Ok(User(newId, ToLower(email), firstName, lastName, passwordHash, false))
      && w'.users == w.users + [r.value]
      && w'.tokens == w.tokens && w'.queue == w.queue
      && (saveFails ==> w'.otp == w.otp)
      && (sendErr.Some? ==> w'.outbox == w.outbox)
  {
  }

  /**
   * The code a registration issues verifies the new account: checked within
   * ten minutes, it marks exactly that user as verified.
   */
  lemma RegisterThenVerify(w: World, email: string, firstName: string, lastName: string, passwordHash: string,
                           newId: string, roll: nat, now: Time, t: Time, delFails: bool)
    requires forall i :: 0 <= i < |w.users| ==> w.users[i].email != ToLower(email)
    requires now <= t < now + Otp.OtpExpirySeconds
    ensures var (w1, _) := RegisterSpec(w, email, firstName, lastName, passwordHash, newId, roll, now, false, None);
      var (w2, err) := VerifyOtpSpec(w1, ToLower(email), Otp.Registration, Otp.OtpCode(6, roll), t, false, delFails, None);
      && err == None
      && |w2.users| == |w.users| + 1
      && w2.users[|w.users|].isEmailVerified
      && w2.users[..|w.users|] == w.users
  {
    var (w1, _) := RegisterSpec(w, email, firstName, lastName, passwordHash, newId, roll, now, false, None);
    assert w1.users[|w.users|].email == ToLower(email);
    assert forall i :: 0 <= i < |w.users| ==> w1.users[i] == w.users[i];
    assert FindByEmail(w1.users, ToLower(email)) == Some(|w.users|);
  }

  /**
   * AuthService.VerifyOTP: a store error and an invalid code are errors; a
   * valid registration code then marks the user with exactly that email as
   * verified, other types need nothing further. `saveErr` is the error of
   * the database save of that user, if it fails.
   */
  function VerifyOtpSpec(w: World, identifier: string, otpType: string, code: string, now: Time,
                     getFails: bool, delFails: bool, saveErr: Option<string>): (World, Option<string>) {
    var v := Otp.Verify(w.otp, identifier, otpType, code, now, getFails, delFails);
    var w1 := w.(otp := v.store);
    if v.err.Some? then (w1, Some("error verifying OTP: " + v.err.value))
    else if !v.valid then (w1, Some("Invalid or expired OTP"))
    else if otpType == Otp.Registration then
      match FindByEmail(w1.users, identifier)
      case None => (w1, Some(RecordNotFound))
      case Some(i) =>
        if saveErr.Some? then (w1, saveErr)
        else (w1.(users := w1.users[i := w1.users[i].(isEmailVerified := true)]), None)
    else (w1, None)
  }

  /**
   * The outcome of VerifyOTP, case by case; only the code store and one
   * verified flag can change, and a failed save changes no user.
   */
  lemma VerifyOtpOutcomes(w: World, identifier: string, otpType: string, code: string, now: Time, getFails: bool, delFails: bool,
                          saveErr: Option<string>)
    ensures var (w', err) := VerifyOtpSpec(w, identifier, otpType, code, now, getFails, delFails, saveErr);
      && (getFails ==> err == Some("error verifying OTP: " + Otp.VerifyError) && w' == w)
      && (!getFails && Otp.Live(w.otp, Otp.Key(otpType, identifier), now) != Some(code) ==>
            err == Some("Invalid or expired OTP") && w' == w)
      && w'.tokens == w.tokens && w'.queue == w.queue && w'.outbox == w.outbox
      && |w'.users| == |w.users|
      && (otpType != Otp.Registration ==> w'.users == w.users)
      && (saveErr.Some? ==> w'.users == w.users)
      && (otpType == Otp.Registration && saveErr.Some? ==> err.Some?)
      && (forall i :: 0 <= i < |w.users| ==> w'.users[i] == w.users[i] || w'.users[i] == w.users[i].(isEmailVerified := true))
  {
    Otp.VerifyMeansMatch(w.otp, identifier, otpType, code, now, getFails, delFails);
  }

  /** SendPasswordResetEmail: a code saved under the stored email, then handed to the reset-mail sender. */
  function SendPasswordResetSpec(w: World, email: string, roll: nat, now: Time, saveFails: bool, sendErr: Option<string>): (World, Option<string>) {
    match FindByEmail(w.users, ToLower(email))
    case None => (w, None)
    case Some(i) =>
      var u := w.users[i];
      var code := Otp.OtpCode(6, roll);
      if saveFails then (w, Some("failed to save password reset OTP: " + Otp.SaveError))
      else
        var w1 := w.(otp := Otp.Save(w.otp, u.email, Otp.PasswordReset, code, now));
        match sendErr
        case Some(e) => (w1, Some(e))
        case None => (w1.(outbox := w1.outbox + [OtpDelivery(u.email, code, Otp.PasswordReset)]), None)
  }

  /** An unknown email is answered like a known one and leaves everything as it was. */
  lemma PasswordResetUnknownEmail(w: World, email: string, roll: nat, now: Time, saveFails: bool, sendErr: Option<string>)
    requires forall i :: 0 <= i < |w.users| ==> w.users[i].email != ToLower(email)
    ensures SendPasswordResetSpec(w, email, roll, now, saveFails, sendErr) == (w, None)
  {
  }

  /**
   * ResetPassword. A live "reset" row whose stored hash equals the raw reset
   * token wins; otherwise the reset token is an OTP for the email in
   * EmailToken. `hashed` is the outcome of hashing the new password and
   * `writeErr` the error of the write that stores it (in the reset-row case,
   * the transaction that also revokes the row, rolled back on failure).
   */
  function ResetPasswordSpec(w: World, resetToken: string, emailToken: string, hashed: Result<string>, now: Time,
                         getFails: bool, delFails: bool, writeErr: Option<string>): (World, Option<string>) {
    match FindToken(w.tokens, resetToken, ResetKind, now)
    case Some(k) =>
      var row := w.tokens[k];
      (match FindById(w.users, row.userId)
       case None => (w, Some(RecordNotFound))
       case Some(i) =>
         match hashed
         case Err(e) => (w, Some(e))
         case Ok(h) =>
           if writeErr.Some? then (w, writeErr)
           else (w.(users := w.users[i := w.users[i].(passwordHash := h)],
                    tokens := w.tokens[k := row.(revoked := true)]), None))
    case None =>
      if emailToken == "" || resetToken == "" then (w, Some("Email and OTP code are required for password reset"))
      else
        var (w1, err) := VerifyOtpSpec(w, emailToken, Otp.PasswordReset, resetToken, now, getFails, delFails, None);
        if err.Some? then (w1, Some("Invalid or expired OTP code"))
        else match FindByEmail(w1.users, emailToken)
          case None => (w1, Some("User not found"))
          case Some(i) =>
            match hashed
            case Err(e) => (w1, Some(e))
            case Ok(h) =>
              if writeErr.Some? then (w1, writeErr)
              else (w1.(users := w1.users[i := w1.users[i].(passwordHash := h)]), None)
  }

  /** A failed hash or a failed write is an error and changes no password and no token row. */
  lemma ResetFailuresKeepPasswords(w: World, resetToken: string, emailToken: string, hashed: Result<string>, now: Time,
                                   getFails: bool, delFails: bool, writeErr: Option<string>)
    requires hashed.Err? || writeErr.Some?
    ensures var (w', err) := ResetPasswordSpec(w, resetToken, emailToken, hashed, now, getFails, delFails, writeErr);
      err.Some? && w'.users == w.users && w'.tokens == w.tokens
  {
    VerifyOtpOutcomes(w, emailToken, Otp.PasswordReset, resetToken, now, getFails, delFails, None);
  }

  /** Without a matching reset row, a password changes only after its code has verified. */
  lemma ResetNeedsValidCode(w: World, resetToken: string, emailToken: string, hashed: Result<string>, now: Time,
                            getFails: bool, delFails: bool, writeErr: Option<string>)
    requires FindToken(w.tokens, resetToken, ResetKind, now).None?
    requires getFails || Otp.Live(w.otp, Otp.Key(Otp.PasswordReset, emailToken), now) != Some(resetToken)
    ensures var (w', err) := ResetPasswordSpec(w, resetToken, emailToken, hashed, now, getFails, delFails, writeErr);
      err.Some? && w'.users == w.users && w'.tokens == w.tokens
  {
    VerifyOtpOutcomes(w, emailToken, Otp.PasswordReset, resetToken, now, getFails, delFails, None);
  }

  /** Without a matching reset row, an empty email or code is refused before anything is looked up. */
  lemma ResetNeedsEmailAndCode(w: World, resetToken: string, emailToken: string, hashed: Result<string>, now: Time,
                               getFails: bool, delFails: bool, writeErr: Option<string>)
    requires FindToken(w.tokens, resetToken, ResetKind, now).None?
    requires emailToken == "" || resetToken == ""
    ensures ResetPasswordSpec(w, resetToken, emailToken, hashed, now, getFails, delFails, writeErr)
      == (w, Some("Email and OTP code are required for password reset"))
  {
  }

  /**
   * Checking a password-reset code through VerifyOTP consumes it when the
   * delete of the code succeeded: a later ResetPassword with the same code,
   * and no legacy reset row that carries it, fails and changes no password.
   */
  lemma VerifiedResetCodeIsSpent(w: World, email: string, code: string, hashed: Result<string>, now: Time, t: Time,
                                 anyGet: bool, anyDel: bool, writeErr: Option<string>)
    requires VerifyOtpSpec(w, email, Otp.PasswordReset, code, now, false, false, None).1 == None
    requires FindToken(VerifyOtpSpec(w, email, Otp.PasswordReset, code, now, false, false, None).0.tokens, code, ResetKind, t).None?
    ensures var w1 := VerifyOtpSpec(w, email, Otp.PasswordReset, code, now, false, false, None).0;
      var (w2, err) := ResetPasswordSpec(w1, code, email, hashed, t, anyGet, anyDel, writeErr);
      err.Some? && w2.users == w1.users
  {
    var w1 := VerifyOtpSpec(w, email, Otp.PasswordReset, code, now, false, false, None).0;
    Otp.VerifyIsSingleUse(w.otp, email, Otp.PasswordReset, code, now, t, anyDel);
    Otp.VerifyMeansMatch(w1.otp, email, Otp.PasswordReset, code, t, false, anyDel);
    ResetNeedsValidCode(w1, code, email, hashed, t, anyGet, anyDel, writeErr);
  }

  /**
   * The OTP reset flow works end to end: the code mailed by
   * SendPasswordResetEmail, presented with the stored email within ten
   * minutes, sets the new password hash on that user and consumes the code.
   */
  lemma PasswordResetRoundTrip(w: World, email: string, roll: nat, newHash: string, now: Time, t: Time, i: nat)
    requires email != ""
    requires i < |w.users| && w.users[i].email == ToLower(email)
    requires forall j :: 0 <= j < i ==> w.users[j].email != ToLower(email)
    requires now <= t < now + Otp.OtpExpirySeconds
    requires FindToken(w.tokens, Otp.OtpCode(6, roll), ResetKind, t).None?
    ensures var w1 := SendPasswordResetSpec(w, email, roll, now, false, None).0;
      var (w2, err) := ResetPasswordSpec(w1, Otp.OtpCode(6, roll), ToLower(email), Ok(newHash), t, false, false, None);
      && err == None
      && w2.users == w.users[i := w.users[i].(passwordHash := newHash)]
      && Otp.Live(w2.otp, Otp.Key(Otp.PasswordReset, ToLower(email)), t).None?
  {
    var code := Otp.OtpCode(6, roll);
    var e := ToLower(email);
    Otp.OtpCodeShape(6, roll);
    assert FindByEmail(w.users, e) == Some(i);
    var w1 := SendPasswordResetSpec(w, email, roll, now, false, None).0;
    assert w1.users == w.users && w1.tokens == w.tokens;
    assert w1.otp == Otp.Save(w.otp, e, Otp.PasswordReset, code, now);
    Otp.SaveThenVerify(w.otp, e, Otp.PasswordReset, code, now, t, false);
    var (wv, verr) := VerifyOtpSpec(w1, e, Otp.PasswordReset, code, t, false, false, None);
    assert verr == None && wv.users == w.users;
    assert wv.otp == w1.otp - {Otp.Key(Otp.PasswordReset, e)};
  }

  /** Logout with all: every unrevoked refresh row of the user is revoked, nothing else. */
  function RevokeAll(tokens: seq<TokenRow>, userId: string): seq<TokenRow> {
    seq(|tokens|, i requires 0 <= i < |tokens| =>
      if tokens[i].userId == userId && tokens[i].kind == RefreshKind && !tokens[i].revoked
      then tokens[i].(revoked := true) else tokens[i])
  }

  /** Logout: with all, one UPDATE revokes the rows; `updateErr` is its error, if it fails. */
  function LogoutSpec(w: World, userId: string, all: bool, updateErr: Option<string>): (World, Option<string>) {
    if !all then (w, None)
    else if updateErr.Some? then (w, updateErr)
    else (w.(tokens := RevokeAll(w.tokens, userId)), None)
  }

  /**
   * Logout(all) leaves the user no usable refresh token, changes no other
   * user's row and only ever sets the revoked flag; without all, or when the
   * update fails, it changes nothing, and only a failed update is an error.
   */
  lemma LogoutRevokesOnlyOwnTokens(w: World, userId: string, all: bool, updateErr: Option<string>)
    ensures !all ==> LogoutSpec(w, userId, all, updateErr) == (w, None)
    ensures all && updateErr.Some? ==> LogoutSpec(w, userId, all, updateErr) == (w, updateErr)
    ensures all && updateErr.None? ==> LogoutSpec(w, userId, all, updateErr).1 == None
    ensures var r := LogoutSpec(w, userId, all, updateErr).0.tokens;
      && |r| == |w.tokens|
      && (all && updateErr.None? ==> forall i, h, t :: 0 <= i < |r| && r[i].userId == userId ==> !LiveToken(r[i], h, RefreshKind, t))
      && (forall i :: 0 <= i < |r| && w.tokens[i].userId != userId ==> r[i] == w.tokens[i])
      && (forall i :: 0 <= i < |r| ==> r[i].(revoked := w.tokens[i].revoked) == w.tokens[i])
  {
  }

  /**
   * RefreshToken: the JWT must parse, a live refresh row must hold its hash,
   * and the user named in the claims must exist; then the row is revoked and a
   * row for the new refresh token expiring after `ttl` is added. The two
   * writes are separate: `revokeErr` and `createErr` are their errors, and a
   * failed create leaves the revoke in place.
   */
  function RefreshSpec(w: World, refreshToken: string, claims: Result<string>, issued: Result<string>,
                        now: Time, ttl: int, revokeErr: Option<string>, createErr: Option<string>): (World, Result<string>) {
    match claims
    case Err(e) => (w, Err(e))
    case Ok(claimUser) =>
      match FindToken(w.tokens, HashToken(refreshToken), RefreshKind, now)
      case None => (w, Err("Invalid or expired refresh token"))
      case Some(k) =>
        match FindById(w.users, claimUser)
        case None => (w, Err(RecordNotFound))
        case Some(i) =>
          match issued
          case Err(e) => (w, Err(e))
          case Ok(newToken) =>
            var w1 := w.(tokens := w.tokens[k := w.tokens[k].(revoked := true)]);
            var row := TokenRow(w.users[i].id, HashToken(newToken), RefreshKind, now + ttl, false);
            if revokeErr.Some? then (w, Err(revokeErr.value))
            else if createErr.Some? then (w1, Err(createErr.value))
            else (w1.(tokens := w1.tokens + [row]), Ok(newToken))
  }

  /** A refresh succeeds only for a parsed token whose hash sits in a live refresh row, with both writes succeeding. */
  lemma RefreshNeedsLiveRow(w: World, refreshToken: string, claims: Result<string>, issued: Result<string>, now: Time, ttl: int,
                            revokeErr: Option<string>, createErr: Option<string>)
    requires RefreshSpec(w, refreshToken, claims, issued, now, ttl, revokeErr, createErr).1.Ok?
    ensures claims.Ok? && issued.Ok? && revokeErr.None? && createErr.None?
    ensures exists k :: 0 <= k < |w.tokens| && LiveToken(w.tokens[k], HashToken(refreshToken), RefreshKind, now)
  {
    var k := FindToken(w.tokens, HashToken(refreshToken), RefreshKind, now).value;
    assert LiveToken(w.tokens[k], HashToken(refreshToken), RefreshKind, now);
  }

  /**
   * Rotation: after a successful refresh the new token is usable until now +
   * ttl, and the presented one is refused from then on (when, as signed
   * tokens are, every stored hash is distinct and the new token differs from the old).
   */
  lemma RefreshRotates(w: World, refreshToken: string, claims: Result<string>, issued: Result<string>, now: Time, ttl: int,
                       t: Time, claims2: Result<string>, issued2: Result<string>, revokeErr2: Option<string>, createErr2: Option<string>)
    requires forall i, j :: 0 <= i < j < |w.tokens| ==> w.tokens[i].tokenHash != w.tokens[j].tokenHash
    requires RefreshSpec(w, refreshToken, claims, issued, now, ttl, None, None).1.Ok?
    requires issued != Ok(refreshToken)
    requires claims2.Ok?
    ensures var (w1, r) := RefreshSpec(w, refreshToken, claims, issued, now, ttl, None, None);
      && (t < now + ttl ==> LiveToken(w1.tokens[|w1.tokens| - 1], HashToken(r.value), RefreshKind, t))
      && RefreshSpec(w1, refreshToken, claims2, issued2, t, ttl, revokeErr2, createErr2) == (w1, Err("Invalid or expired refresh token"))
  {
    var (w1, r) := RefreshSpec(w, refreshToken, claims, issued, now, ttl, None, None);
    var k := FindToken(w.tokens, HashToken(refreshToken), RefreshKind, now).value;
    var h := HashToken(refreshToken);
    forall j | 0 <= j < |w1.tokens|
      ensures !LiveToken(w1.tokens[j], h, RefreshKind, t)
    {
      if j == |w.tokens| {
        if w1.tokens[j].tokenHash == h {
          HashTokenInjective(r.value, refreshToken);
        }
      } else if j != k {
        assert w1.tokens[j] == w.tokens[j];
      }
    }
  }

  /**
   * The writes are not atomic. A failed revoke changes nothing; a failed
   * create after the revoke leaves the presented token revoked and no new
   * one stored, so (with distinct stored hashes) the token can no longer be
   * refreshed and the caller holds no usable refresh token from this call.
   */
  lemma RefreshWriteFailures(w: World, refreshToken: string, claims: Result<string>, issued: Result<string>, now: Time, ttl: int,
                             revokeErr: Option<string>, createErr: Option<string>,
                             t: Time, claims2: Result<string>, issued2: Result<string>, revokeErr2: Option<string>, createErr2: Option<string>)
    requires forall i, j :: 0 <= i < j < |w.tokens| ==> w.tokens[i].tokenHash != w.tokens[j].tokenHash
    requires RefreshSpec(w, refreshToken, claims, issued, now, ttl, None, None).1.Ok?
    requires revokeErr.Some? || createErr.Some?
    requires claims2.Ok?
    ensures var (w1, r) := RefreshSpec(w, refreshToken, claims, issued, now, ttl, revokeErr, createErr);
      && r.Err? && |w1.tokens| == |w.tokens| && w1.users == w.users
      && (revokeErr.Some? ==> w1 == w && r == Err(revokeErr.value))
      && (revokeErr.None? ==> r == Err(createErr.value))
      && (revokeErr.None? ==>
            RefreshSpec(w1, refreshToken, claims2, issued2, t, ttl, revokeErr2, createErr2) == (w1, Err("Invalid or expired refresh token")))
  {
    var (w1, r) := RefreshSpec(w, refreshToken, claims, issued, now, ttl, revokeErr, createErr);
    var k := FindToken(w.tokens, HashToken(refreshToken), RefreshKind, now).value;
    var h := HashToken(refreshToken);
    if revokeErr.None? {
      forall j | 0 <= j < |w1.tokens|
        ensures !LiveToken(w1.tokens[j], h, RefreshKind, t)
      {
        if j != k {
          assert w1.tokens[j] == w.tokens[j];
        }
      }
    }
  }

  /**
   * GenerateAndSendOTP: a six-digit code saved under (type, identifier), then
   * dispatched by type. The code is saved before dispatch, so a type that
   * cannot be sent still leaves its code in the store.
   */
  function GenerateAndSendSpec(w: World, identifier: string, otpType: string, roll: nat, now: Time, year: int,
                              saveFails: bool, sendErr: Option<string>, jobId: string, pushFails: bool): (World, Result<OtpResponse>) {
    if identifier == "" then (w, Err("Identifier is required"))
    else
      var code := Otp.OtpCode(6, roll);
      if saveFails then (w, Err("failed to save OTP: " + Otp.SaveError))
      else
        var w1 := w.(otp := Otp.Save(w.otp, identifier, otpType, code, now));
        var resp := OtpResponse(true, "OTP sent to " + identifier, Otp.OtpExpirySeconds);
        if otpType == Otp.Registration || otpType == Otp.PasswordReset then
          match sendErr
          case Some(e) => (w1, Err(e))
          case None => (w1.(outbox := w1.outbox + [OtpDelivery(identifier, code, otpType)]), Ok(resp))
        else if otpType == Otp.PhoneVerification then (w1, Err("SMS OTP not yet implemented"))
        else if otpType == Otp.TwoFactorAuth then
          var (q, err) := EmailQueue.Enqueue(w1.queue, EmailQueue.OtpJob(jobId, identifier, code, Otp.TwoFactorAuth, now, year), now, jobId, pushFails);
          match err
          case Some(e) => (w1.(queue := q), Err(e))
          case None => (w1.(queue := q), Ok(resp))
        else (w1, Err("unknown OTP type: " + otpType))
  }

  /** An empty identifier or a failed save changes nothing and is an error. */
  lemma GenerateAndSendRefusals(w: World, identifier: string, otpType: string, roll: nat, now: Time, year: int,
                                saveFails: bool, sendErr: Option<string>, jobId: string, pushFails: bool)
    requires identifier == "" || saveFails
    ensures var (w', r) := GenerateAndSendSpec(w, identifier, otpType, roll, now, year, saveFails, sendErr, jobId, pushFails);
      w' == w && r.Err?
    ensures identifier == "" ==>
      GenerateAndSendSpec(w, identifier, otpType, roll, now, year, saveFails, sendErr, jobId, pushFails).1 == Err("Identifier is required")
  {
  }

  /**
   * Once saved, the code stays in the store whatever the type, even for
   * phone verification and unknown types, which are errors; no table changes.
   */
  lemma GenerateAndSendSavesFirst(w: World, identifier: string, otpType: string, roll: nat, now: Time, year: int,
                                  sendErr: Option<string>, jobId: string, pushFails: bool)
    requires identifier != ""
    ensures var (w', r) := GenerateAndSendSpec(w, identifier, otpType, roll, now, year, false, sendErr, jobId, pushFails);
      && w'.otp == Otp.Save(w.otp, identifier, otpType, Otp.OtpCode(6, roll), now)
      && w'.users == w.users && w'.tokens == w.tokens
      && (otpType == Otp.PhoneVerification ==> r == Err("SMS OTP not yet implemented"))
      && (otpType != Otp.Registration && otpType != Otp.PasswordReset && otpType != Otp.TwoFactorAuth ==> r.Err?)
  {
    var code := Otp.OtpCode(6, roll);
    var w1 := w.(otp := Otp.Save(w.otp, identifier, otpType, code, now));
    if otpType == Otp.TwoFactorAuth {
      var job := EmailQueue.OtpJob(jobId, identifier, code, Otp.TwoFactorAuth, now, year);
      var (q, err) := EmailQueue.Enqueue(w1.queue, job, now, jobId, pushFails);
      var (w', r) := GenerateAndSendSpec(w, identifier, otpType, roll, now, year, false, sendErr, jobId, pushFails);
      assert w' == w1.(queue := q);
    }
  }

  /** A success reports 600 seconds to expiry and names the identifier. */
  lemma GenerateAndSendSuccess(w: World, identifier: string, otpType: string, roll: nat, now: Time, year: int,
                               saveFails: bool, sendErr: Option<string>, jobId: string, pushFails: bool)
    requires GenerateAndSendSpec(w, identifier, otpType, roll, now, year, saveFails, sendErr, jobId, pushFails).1.Ok?
    ensures GenerateAndSendSpec(w, identifier, otpType, roll, now, year, saveFails, sendErr, jobId, pushFails).1.value
      == OtpResponse(true, "OTP sent to " + identifier, 600)
  {
  }

  /** A 2fa code is mailed through the queue, as a high-priority job. */
  lemma TwoFactorCodeGoesToHighList(w: World, identifier: string, roll: nat, now: Time, year: int,
                                    sendErr: Option<string>, jobId: string)
    requires identifier != ""
    ensures var (w', r) := GenerateAndSendSpec(w, identifier, Otp.TwoFactorAuth, roll, now, year, false, sendErr, jobId, false);
      && r.Ok?
      && w'.queue.high == [Encoded(EmailQueue.Stamp(EmailQueue.OtpJob(jobId, identifier, Otp.OtpCode(6, roll), Otp.TwoFactorAuth, now, year), now, jobId))] + w.queue.high
      && w'.outbox == w.outbox
  {
  }

  /** The service over its tables, the code store and the mail queue. */
  class AuthService {
    var users: seq<User>
    var tokens: seq<TokenRow>
    var outbox: seq<OtpDelivery>
    const otp: Otp.OtpService
    const queue: EmailQueue.EmailQueueService
    const refreshTtl: int

    function State(): World
      reads this, otp, queue
    {
      World(users, tokens, otp.entries, queue.State(), outbox)
    }

    constructor (otp: Otp.OtpService, queue: EmailQueue.EmailQueueService, refreshTtl: int)
      ensures this.otp == otp && this.queue == queue && this.refreshTtl == refreshTtl
      ensures users == [] && tokens == [] && outbox == []
    {
      this.otp := otp;
      this.queue := queue;
      this.refreshTtl := refreshTtl;
      users, tokens, outbox := [], [], [];
    }

    method Register(email: string, firstName: string, lastName: string, passwordHash: string,
                    newId: string, roll: nat, now: Time, saveFails: bool, sendErr: Option<string>)
      returns (r: Result<User>)
      modifies this, otp
      ensures (State(), r) == RegisterSpec(old(State()), email, firstName, lastName, passwordHash, newId, roll, now, saveFails, sendErr)
    {
      var e := ToLower(email);
      if FindByEmail(users, e).Some? {
        return Err("User with this email already exists");
      }
      var u := User(newId, e, firstName, lastName, passwordHash, false);
      users := users + [u];
      var code := Otp.GenerateOTP(6, roll);
      var saveErr := otp.SaveOTP(e, Otp.Registration, code, now, saveFails);
      if sendErr.None? {
        outbox := outbox + [OtpDelivery(e, code, Otp.Registration)];
      }
      r := Ok(u);
    }

    method VerifyOTP(identifier: string, otpType: string, code: string, now: Time, getFails: bool, delFails: bool,
                     saveErr: Option<string>)
      returns (err: Option<string>)
      modifies this, otp
      ensures (State(), err) == VerifyOtpSpec(old(State()), identifier, otpType, code, now, getFails, delFails, saveErr)
    {
      var valid, verr := otp.VerifyOTP(identifier, otpType, code, now, getFails, delFails);
      if verr.Some? {
        return Some("error verifying OTP: " + verr.value);
      }
      if !valid {
        return Some("Invalid or expired OTP");
      }
      if otpType == Otp.Registration {
        err := HandleRegistrationOtpVerification(identifier, saveErr);
      } else {
        err := None;
      }
    }

    method HandleRegistrationOtpVerification(email: string, saveErr: Option<string>) returns (err: Option<string>)
      modifies this
      ensures FindByEmail(old(users), email).None? ==> users == old(users) && err == Some(RecordNotFound)
      ensures FindByEmail(old(users), email).Some? && saveErr.Some? ==> users == old(users) && err == saveErr
      ensures FindByEmail(old(users), email).Some? && saveErr.None? ==>
        var i := FindByEmail(old(users), email).value;
        users == old(users)[i := old(users)[i].(isEmailVerified := true)] && err == None
      ensures tokens == old(tokens) && outbox == old(outbox)
    {
      var found := FindByEmail(users, email);
      if found.None? {
        return Some(RecordNotFound);
      }
      if saveErr.Some? {
        return saveErr;
      }
      var i := found.value;
      users := users[i := users[i].(isEmailVerified := true)];
      err := None;
    }

    method SendPasswordResetEmail(email: string, roll: nat, now: Time, saveFails: bool, sendErr: Option<string>)
      returns (err: Option<string>)
      modifies this, otp
      ensures (State(), err) == SendPasswordResetSpec(old(State()), email, roll, now, saveFails, sendErr)
    {
      var found := FindByEmail(users, ToLower(email));
      if found.None? {
        return None;
      }
      var u := users[found.value];
      var code := Otp.GenerateOTP(6, roll);
      var saveErr := otp.SaveOTP(u.email, Otp.PasswordReset, code, now, saveFails);
      if saveErr.Some? {
        return Some("failed to save password reset OTP: " + saveErr.value);
      }
      if sendErr.Some? {
        return sendErr;
      }
      outbox := outbox + [OtpDelivery(u.email, code, Otp.PasswordReset)];
      err := None;
    }

    method ResetPassword(resetToken: string, emailToken: string, hashed: Result<string>, now: Time, getFails: bool, delFails: bool,
                         writeErr: Option<string>)
      returns (err: Option<string>)
      modifies this, otp
      ensures (State(), err) == ResetPasswordSpec(old(State()), resetToken, emailToken, hashed, now, getFails, delFails, writeErr)
    {
      var row := FindToken(tokens, resetToken, ResetKind, now);
      if row.Some? {
        var k := row.value;
        var owner := FindById(users, tokens[k].userId);
        if owner.None? {
          return Some(RecordNotFound);
        }
        if hashed.Err? {
          return Some(hashed.msg);
        }
        if writeErr.Some? {
          return writeErr;
        }
        var i := owner.value;
        users := users[i := users[i].(passwordHash := hashed.value)];
        tokens := tokens[k := tokens[k].(revoked := true)];
        return None;
      }
      if emailToken == "" || resetToken == "" {
        return Some("Email and OTP code are required for password reset");
      }
      var verr := VerifyOTP(emailToken, Otp.PasswordReset, resetToken, now, getFails, delFails, None);
      if verr.Some? {
        return Some("Invalid or expired OTP code");
      }
      var found := FindByEmail(users, emailToken);
      if found.None? {
        return Some("User not found");
      }
      if hashed.Err? {
        return Some(hashed.msg);
      }
      if writeErr.Some? {
        return writeErr;
      }
      var i := found.value;
      users := users[i := users[i].(passwordHash := hashed.value)];
      err := None;
    }

    method Logout(userId: string, all: bool, updateErr: Option<string>) returns (err: Option<string>)
      modifies this
      ensures (State(), err) == LogoutSpec(old(State()), userId, all, updateErr)
    {
      if all {
        if updateErr.Some? {
          return updateErr;
        }
        tokens := RevokeAll(tokens, userId);
      }
      err := None;
    }

    method RefreshToken(refreshToken: string, claims: Result<string>, issued: Result<string>, now: Time,
                        revokeErr: Option<string>, createErr: Option<string>)
      returns (r: Result<string>)
      modifies this
      ensures (State(), r) == RefreshSpec(old(State()), refreshToken, claims, issued, now, refreshTtl, revokeErr, createErr)
    {
      if claims.Err? {
        return Err(claims.msg);
      }
      var row := FindToken(tokens, HashToken(refreshToken), RefreshKind, now);
      if row.None? {
        return Err("Invalid or expired refresh token");
      }
      var owner := FindById(users, claims.value);
      if owner.None? {
        return Err(RecordNotFound);
      }
      if issued.Err? {
        return Err(issued.msg);
      }
      if revokeErr.Some? {
        return Err(revokeErr.value);
      }
      var k := row.value;
      tokens := tokens[k := tokens[k].(revoked := true)];
      if createErr.Some? {
        return Err(createErr.value);
      }
      tokens := tokens + [TokenRow(users[owner.value].id, HashToken(issued.value), RefreshKind, now + refreshTtl, false)];
      r := Ok(issued.value);
    }

    method GenerateAndSendOTP(identifier: string, otpType: string, roll: nat, now: Time, year: int,
                              saveFails: bool, sendErr: Option<string>, jobId: string, pushFails: bool)
      returns (r: Result<OtpResponse>)
      modifies this, otp, queue
      ensures (State(), r) == GenerateAndSendSpec(old(State()), identifier, otpType, roll, now, year, saveFails, sendErr, jobId, pushFails)
    {
      if identifier == "" {
        return Err("Identifier is required");
      }
      var code := Otp.GenerateOTP(6, roll);
      var saveErr := otp.SaveOTP(identifier, otpType, code, now, saveFails);
      if saveErr.Some? {
        return Err("failed to save OTP: " + saveErr.value);
      }
      var err: Option<string>;
      if otpType == Otp.Registration || otpType == Otp.PasswordReset {
        err := sendErr;
        if sendErr.None? {
          outbox := outbox + [OtpDelivery(identifier, code, otpType)];
        }
      } else if otpType == Otp.PhoneVerification {
        err := Some("SMS OTP not yet implemented");
      } else if otpType == Otp.TwoFactorAuth {
        err := queue.QueueOTPEmail(identifier, code, Otp.TwoFactorAuth, jobId, now, year, pushFails);
      } else {
        err := Some("unknown OTP type: " + otpType);
      }
      if err.Some? {
        return Err(err.value);
      }
      r := Ok(OtpResponse(true, "OTP sent to " + identifier, Otp.OtpExpirySeconds));
    }
  }
}
