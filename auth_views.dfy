/**
 * The authentication views (backend/reservations/views.py): the three login
 * endpoints, which hand out tokens only to a user of the endpoint's role, and
 * the password reset, a small state machine over a cache that maps an email to
 * a four-digit code and its expiry time.
 *
 * `authenticate` and `RefreshToken.for_user` are opaque: the user row that
 * authentication found (if any) and the tokens minted for it are parameters.
 * The random code and the current time are parameters too.
 */
module AuthViews {
  import opened Wrappers
  import opened Records

  // ---------------------------------------------------------------------------
  // ClientLoginView, AdminLoginView, DoctorLoginView
  // ---------------------------------------------------------------------------

  const InvalidCredentials: string := "Invalid credentials"
  const InvalidDoctorCredentials: string := "Invalid credentials or not a doctor"
  const NoDoctorProfile: string := "No doctor profile associated with this user."

  /** The 401 message of an endpoint. */
  function RejectMessage(endpoint: Role): string {
    if endpoint == DoctorRole then InvalidDoctorCredentials else InvalidCredentials
  }

  /**
   * A login at the endpoint for `endpoint` users. `auth` is the row
   * `authenticate` returned, if any. The doctor endpoint also needs the doctor
   * row whose email is the user's: none gives 404, several raise (500).
   */
  function Login(t: Tables, endpoint: Role, auth: Option<int>, tokens: Tokens): (r: Response)
    requires auth.Some? ==> auth.value in t.users
    ensures r.status == 200 ==> auth.Some? && t.users[auth.value].role == endpoint
    ensures (auth.None? || t.users[auth.value].role != endpoint) ==> r == Response(401, ErrorBody(RejectMessage(endpoint)))
    ensures endpoint != DoctorRole && auth.Some? && t.users[auth.value].role == endpoint ==>
      r == Response(200, LoginBody(auth.value, t.users[auth.value], tokens))
    ensures endpoint == DoctorRole && auth.Some? && t.users[auth.value].role == DoctorRole ==>
      match Find(DoctorsWithEmail(t, t.users[auth.value].email))
      case Missing => r == Response(404, ErrorBody(NoDoctorProfile))
      case Ambiguous => r == Response(500, ServerError)
      case Found(did) => r == Response(200, DoctorLoginBody(did, t.users[auth.value], tokens))
  {
    if auth.None? || t.users[auth.value].role != endpoint then Response(401, ErrorBody(RejectMessage(endpoint)))
    else
      var user := t.users[auth.value];
      if endpoint != DoctorRole then Response(200, LoginBody(auth.value, user, tokens))
      else
        match Find(DoctorsWithEmail(t, user.email))
        case Missing => Response(404, ErrorBody(NoDoctorProfile))
        case Ambiguous => Response(500, ServerError)
        case Found(did) => Response(200, DoctorLoginBody(did, user, tokens))
  }

  /** Whether a response carries the tokens. */
  predicate HandsOutTokens(r: Response) {
    r.body.LoginBody? || r.body.DoctorLoginBody?
  }

  /**
   * Tokens are handed out exactly on a 200, and only to a user whose role is
   * the endpoint's; a doctor also gets the id of the doctor row with their email.
   */
  lemma TokensOnlyForTheRole(t: Tables, endpoint: Role, auth: Option<int>, tokens: Tokens)
    requires auth.Some? ==> auth.value in t.users
    ensures HandsOutTokens(Login(t, endpoint, auth, tokens)) <==> Login(t, endpoint, auth, tokens).status == 200
    ensures HandsOutTokens(Login(t, endpoint, auth, tokens)) ==>
      auth.Some? && t.users[auth.value].role == endpoint
    ensures Login(t, endpoint, auth, tokens).body.DoctorLoginBody? ==>
      var did := Login(t, endpoint, auth, tokens).body.doctorId;
      did in t.doctors && t.doctors[did].email == t.users[auth.value].email
  {
  }

  /** A client's credentials never open the admin or doctor endpoints, and so on for each pair. */
  lemma WrongEndpointRejected(t: Tables, endpoint: Role, auth: Option<int>, tokens: Tokens)
    requires auth.Some? && auth.value in t.users && t.users[auth.value].role != endpoint
    ensures Login(t, endpoint, auth, tokens).status == 401
    ensures !HandsOutTokens(Login(t, endpoint, auth, tokens))
  {
  }

  // ---------------------------------------------------------------------------
  // ForgotPasswordAPIView, VerifyCodeAPIView
  // ---------------------------------------------------------------------------

  /** A code and the instant (in seconds) at which it expires. */
  datatype CacheEntry = CacheEntry(code: int, expiresAt: int)

  /** The codes in the cache, by email (the cache key is `verification_code_` + email). */
  type Codes = map<string, CacheEntry>

  const CodeTimeout: int := 300
  const MinCode: int := 1000
  const MaxCode: int := 9999

  const NoSuchUser: string := "User with this email does not exist."
  const CodeSent: string := "Verification code sent to your email."
  const CodeExpired: string := "Verification code has expired or is invalid."
  const CodeMismatch: string := "Invalid verification code."
  const PasswordReset: string := "Password reset successfully."

  /** A reset view's response with the tables and the codes after it. */
  datatype ResetStep = ResetStep(response: Response, tables: Tables, codes: Codes)

  /**
   * `cache.get(key)`: the code while it has not expired. An entry at or past
   * its expiry reads as absent and is dropped by the read.
   */
  function CacheGet(codes: Codes, email: string, now: int): (r: (Option<int>, Codes))
    ensures r.0.Some? <==> email in codes && now < codes[email].expiresAt
    ensures r.0.Some? ==> r.0.value == codes[email].code && r.1 == codes
    ensures r.0.None? ==> r.1 == codes - {email}
  {
    if email !in codes then (None, codes)
    else if now < codes[email].expiresAt then (Some(codes[email].code), codes)
    else (None, codes - {email})
  }

  /**
   * 404 when no user has the email. Otherwise `code` (drawn by
   * `random.randint(1000, 9999)`) is stored for 300 seconds, replacing any
   * earlier code, and the mail is sent.
   */
  function ForgotPassword(t: Tables, codes: Codes, email: string, code: int, now: int): (s: ResetStep)
    requires MinCode <= code <= MaxCode
    ensures s.tables == t
    ensures UsersWithEmail(t, email) == {} ==> s.response == Response(404, ErrorBody(NoSuchUser)) && s.codes == codes
    ensures s.response.status == 200 <==> Find(UsersWithEmail(t, email)).Found?
    ensures s.response.status == 200 ==>
      s.response.body == MessageBody(CodeSent) && s.codes == codes[email := CacheEntry(code, now + CodeTimeout)]
    ensures s.response.status != 200 ==> s.codes == codes
  {
    match Find(UsersWithEmail(t, email))
    case Missing => ResetStep(Response(404, ErrorBody(NoSuchUser)), t, codes)
    case Ambiguous => ResetStep(Response(500, ServerError), t, codes)
    case Found(_) => ResetStep(Response(200, MessageBody(CodeSent)), t, codes[email := CacheEntry(code, now + CodeTimeout)])
  }

  /**
   * An absent, expired or zero code gives 400 "expired"; a code whose `str()`
   * differs from the one given gives 400 "invalid"; then the user's password is
   * set and the code deleted, or 404 when no user has the email.
   */
  function VerifyCode(t: Tables, codes: Codes, email: string, code: string, newPassword: string, now: int): (s: ResetStep)
    ensures s.response.status == 200 <==>
      (email in codes && now < codes[email].expiresAt && codes[email].code != 0
       && IntString(codes[email].code) == code && Find(UsersWithEmail(t, email)).Found?)
    ensures s.response.status != 200 ==> s.tables == t
    ensures s.response.status != 200 && email in codes && now < codes[email].expiresAt ==> s.codes == codes
    ensures s.response.status == 200 ==>
      var uid := Find(UsersWithEmail(t, email)).id;
      && s.tables == t.(users := t.users[uid := t.users[uid].(password := Hashed(newPassword))])
      && s.codes == codes - {email}
      && s.response == Response(200, MessageBody(PasswordReset))
  {
    var (cached, codes1) := CacheGet(codes, email, now);
    if cached.None? || cached.value == 0 then ResetStep(Response(400, ErrorBody(CodeExpired)), t, codes1)
    else if IntString(cached.value) != code then ResetStep(Response(400, ErrorBody(CodeMismatch)), t, codes1)
    else
      match Find(UsersWithEmail(t, email))
      case Missing => ResetStep(Response(404, ErrorBody(NoSuchUser)), t, codes1)
      case Ambiguous => ResetStep(Response(500, ServerError), t, codes1)
      case Found(uid) =>
        ResetStep(Response(200, MessageBody(PasswordReset)),
                  t.(users := t.users[uid := t.users[uid].(password := Hashed(newPassword))]),
                  codes1 - {email})
  }

  /** The stored code is always a four-digit number that lives exactly 300 seconds. */
  lemma StoredCodeIsFourDigits(t: Tables, codes: Codes, email: string, code: int, now: int)
    requires MinCode <= code <= MaxCode
    requires ForgotPassword(t, codes, email, code, now).response.status == 200
    ensures var entry := ForgotPassword(t, codes, email, code, now).codes[email];
      MinCode <= entry.code <= MaxCode && entry.expiresAt == now + CodeTimeout
    ensures |DecimalString(code)| == 4
  {
    assert DecimalString(code) == DecimalString(code / 10) + [Dates.DigitChar(code % 10)];
    assert DecimalString(code / 10) == DecimalString(code / 100) + [Dates.DigitChar(code / 10 % 10)];
    assert DecimalString(code / 100) == DecimalString(code / 1000) + [Dates.DigitChar(code / 100 % 10)];
  }

  /** Asking for a code and giving it back within 300 seconds resets the password. */
  lemma ResetWithinTimeout(t: Tables, codes: Codes, email: string, code: int, now: int, later: int, newPassword: string)
    requires MinCode <= code <= MaxCode
    requires Find(UsersWithEmail(t, email)).Found?
    requires now <= later < now + CodeTimeout
    ensures var s := ForgotPassword(t, codes, email, code, now);
      var v := VerifyCode(s.tables, s.codes, email, DecimalString(code), newPassword, later);
      && v.response == Response(200, MessageBody(PasswordReset))
      && email !in v.codes
      && v.tables.users[Find(UsersWithEmail(t, email)).id].password == Hashed(newPassword)
  {
  }

  /** A code given back after 300 seconds has expired: nothing but the stale entry changes. */
  lemma CodeExpiresAfterTimeout(t: Tables, codes: Codes, email: string, code: int, now: int, later: int, given: string, newPassword: string)
    requires MinCode <= code <= MaxCode
    requires Find(UsersWithEmail(t, email)).Found?
    requires later >= now + CodeTimeout
    ensures var s := ForgotPassword(t, codes, email, code, now);
      var v := VerifyCode(s.tables, s.codes, email, given, newPassword, later);
      && v.response == Response(400, ErrorBody(CodeExpired))
      && v.tables == t
  {
  }

  /** Once a reset succeeded, the same code cannot be used again. */
  lemma CodeCannotBeReused(t: Tables, codes: Codes, email: string, code: string, newPassword: string, now: int,
                           code2: string, newPassword2: string, later: int)
    requires VerifyCode(t, codes, email, code, newPassword, now).response.status == 200
    ensures var s := VerifyCode(t, codes, email, code, newPassword, now);
      VerifyCode(s.tables, s.codes, email, code2, newPassword2, later).response == Response(400, ErrorBody(CodeExpired))
  {
  }

  /**
   * The code given is compared as a string with `str()` of the stored number:
   * the decimal form of a number opens the reset exactly when it is that number.
   */
  lemma CodeComparedAsNumber(t: Tables, codes: Codes, email: string, code: nat, newPassword: string, now: int)
    requires email in codes && now < codes[email].expiresAt && codes[email].code > 0
    requires Find(UsersWithEmail(t, email)).Found?
    ensures VerifyCode(t, codes, email, DecimalString(code), newPassword, now).response.status == 200
      <==> code == codes[email].code
  {
    DecimalStringInjective(code, codes[email].code);
  }

  /** A wrong code changes neither the password nor the stored code. */
  lemma WrongCodeChangesNothing(t: Tables, codes: Codes, email: string, code: string, newPassword: string, now: int)
    requires email in codes && now < codes[email].expiresAt && codes[email].code != 0
    requires IntString(codes[email].code) != code
    ensures VerifyCode(t, codes, email, code, newPassword, now) == ResetStep(Response(400, ErrorBody(CodeMismatch)), t, codes)
  {
  }

  /** The process-local cache: `cache.set`, `cache.get` and `cache.delete` on the codes. */
  class CodeCache {
    var entries: Codes

    constructor ()
      ensures entries == map[]
    {
      entries := map[];
    }

    /** `cache.get(key)`, dropping an expired entry. */
    method Get(email: string, now: int) returns (code: Option<int>)
      modifies this
      ensures (code, entries) == CacheGet(old(entries), email, now)
    {
      if email !in entries {
        return None;
      }
      if now < entries[email].expiresAt {
        return Some(entries[email].code);
      }
      entries := entries - {email};
      return None;
    }

    method Set(email: string, code: int, now: int, timeout: int)
      modifies this
      ensures entries == old(entries)[email := CacheEntry(code, now + timeout)]
    {
      entries := entries[email := CacheEntry(code, now + timeout)];
    }

    method Delete(email: string)
      modifies this
      ensures entries == old(entries) - {email}
    {
      entries := entries - {email};
    }
  }

  method ForgotPasswordView(db: Database, cache: CodeCache, email: string, code: int, now: int) returns (response: Response)
    requires MinCode <= code <= MaxCode
    modifies cache
    ensures ResetStep(response, db.Snapshot(), cache.entries) == ForgotPassword(db.Snapshot(), old(cache.entries), email, code, now)
  {
    var user := Find(UsersWithEmail(db.Snapshot(), email));
    if user.Missing? {
      return Response(404, ErrorBody(NoSuchUser));
    } else if user.Ambiguous? {
      return Response(500, ServerError);
    }
    cache.Set(email, code, now, CodeTimeout);
    response := Response(200, MessageBody(CodeSent));
  }

  method VerifyCodeView(db: Database, cache: CodeCache, email: string, code: string, newPassword: string, now: int)
    returns (response: Response)
    modifies db, cache
    ensures ResetStep(response, db.Snapshot(), cache.entries)
      == VerifyCode(old(db.Snapshot()), old(cache.entries), email, code, newPassword, now)
  {
    var cached := cache.Get(email, now);
    if cached.None? || cached.value == 0 {
      return Response(400, ErrorBody(CodeExpired));
    }
    if IntString(cached.value) != code {
      return Response(400, ErrorBody(CodeMismatch));
    }
    var user := Find(UsersWithEmail(db.Snapshot(), email));
    if user.Missing? {
      return Response(404, ErrorBody(NoSuchUser));
    } else if user.Ambiguous? {
      return Response(500, ServerError);
    }
    var uid := user.id;
    db.users := db.users[uid := db.users[uid].(password := Hashed(newPassword))];
    cache.Delete(email);
    response := Response(200, MessageBody(PasswordReset));
  }
}
