/**
 * The authentication service of the API (apps/api/internal/service/auth.go).
 *
 * Every outside answer is a parameter: what each repository call returns,
 * bcrypt's hash and comparison, the JWT signer, Google's token check, the
 * random digits, SHA-256, the clock and the new UUID.  Each operation
 * returns, besides its result, the repository and queue calls it made.
 */
module AuthService {
  import opened Wrappers
  import opened Text
  import opened ApiTypes
  import opened UserModel
  import AuthHandler

  // -------------------------------------------------------------- constants

  const Nanosecond: int := 1
  const Minute: int := 60_000_000_000 * Nanosecond
  const Day: int := 24 * 60 * Minute
  const CodeLength: nat := 6

  const PasswordTooShortMessage := "Password must be at least 8 characters"
  const InvalidCredentials := Unauthorized("Invalid credentials")
  const NoPasswordLogin := Unauthorized("Password login not available for this account")
  const GoogleNotConfigured := BadRequest("Google login is not configured", [])
  const InvalidGoogleToken := Unauthorized("Invalid Google token")
  const GoogleEmailNotVerified := Unauthorized("Google account email is not verified")

  /** invalidVerificationError. */
  const InvalidVerification := BadRequest("Invalid or expired verification code", [FieldError("code", "invalid or expired")])

  /** The parts of the service's configuration its decisions read. */
  datatype AuthConfig = AuthConfig(
    googleClientId: string,
    emailVerificationTtl: int,   // a time.Duration, in nanoseconds
    hasVerificationRepo: bool,
    hasTaskEnqueuer: bool)

  /** A signed access token and the user it was issued to. */
  datatype AuthResult = AuthResult(user: User, token: string)

  /** An email-verification row as the service creates it. */
  datatype Verification = Verification(userId: Uuid, email: string, codeHash: string, expiresAt: Instant)

  /** The payload of the queued verification e-mail. */
  datatype EmailTask = EmailTask(to: string, username: string, code: string, expiresInMinutes: int)

  /** A call to the auth repository, the verification repository or the queue. */
  datatype AuthCall =
    | CreateUserCall(user: User)
    | GetByEmailCall(email: string)
    | GetByUsernameCall(username: string)
    | GetByGoogleIdCall(subject: string)
    | SaveCall(user: User)
    | UpdateLoginAtCall(id: Uuid, at: Instant)
    | UpdateEmailVerifiedAtCall(id: Uuid, at: Instant)
    | GetActiveVerificationCall(userId: Uuid, codeHash: string, at: Instant)
    | MarkVerifiedCall(verificationId: Uuid, at: Instant)
    | ExpireActiveCall(userId: Uuid, at: Instant)
    | CreateVerificationCall(verification: Verification)
    | EnqueueCall(task: EmailTask)

  // ---------------------------------------------------------- pure helpers

  /** lookupUser: which repository lookup an identifier goes to. */
  function LookupCall(identifier: string): (c: AuthCall)
    ensures c.GetByEmailCall? <==> AuthHandler.IsEmail(identifier)
    ensures c.GetByEmailCall? ==> c.email == identifier
    ensures c.GetByUsernameCall? ==> c.username == identifier
    ensures c.GetByEmailCall? || c.GetByUsernameCall?
  {
    if AuthHandler.IsEmail(identifier) then GetByEmailCall(identifier) else GetByUsernameCall(identifier)
  }

  /**
   * deriveUsername: the text before the first `@` when it is not empty,
   * otherwise "user-" and the first eight characters of a new random UUID.
   */
  function DeriveUsername(email: string, newId: Uuid): (r: string)
    ensures r != "" && '@' !in r
    ensures email[..IndexOf(email, '@')] != "" ==> r == email[..IndexOf(email, '@')]
    ensures email[..IndexOf(email, '@')] == "" ==> HasPrefix(r, "user-") && |r| == 13
  {
    var local := email[..IndexOf(email, '@')];
    if local != "" then local
    else
      var tail := UuidString(newId)[..8];
      assert tail == Hex(newId[..4]);
      assert forall i | 0 <= i < |tail| :: IsHexChar(tail[i]);
      "user-" + tail
  }

  /** An e-mail whose local part is not empty yields that local part. */
  lemma DeriveUsernameOfEmail(email: string, newId: Uuid)
    requires AuthHandler.IsEmail(email)
    ensures var k := IndexOf(email, '@');
            0 < k < |email| && DeriveUsername(email, newId) == email[..k]
  {
    var k :| 0 < k < |email| && email[k] == '@' && AuthHandler.NoAtOrSpace(email[..k])
             && AuthHandler.DomainShaped(email[k + 1..]);
    assert forall i | 0 <= i < k :: email[..k][i] != '@';
    IndexOfFirst(email, '@', k);
  }

  /**
   * hashVerificationCode: the lower-case hex of the code's SHA-256 digest
   * (`sha256` stands for the digest function): 64 hex digits from which
   * the digest can be read back.
   */
  function HashVerificationCode(sha256: string -> seq<Byte>, code: string): (h: string)
    requires |sha256(code)| == 32
    ensures |h| == 64 && forall i | 0 <= i < |h| :: IsHexChar(h[i])
    ensures Unhex(h) == sha256(code)
  {
    UnhexHex(sha256(code));
    Hex(sha256(code))
  }

  /** The verification TTL the service uses: a non-positive setting means 24 hours. */
  function EffectiveTtl(ttl: int): (r: int)
    ensures r > 0
    ensures ttl > 0 ==> r == ttl
    ensures ttl <= 0 ==> r == Day
  {
    if ttl <= 0 then Day else ttl
  }

  /** The whole minutes of a positive TTL, and never less than one. */
  function ExpiresInMinutes(ttl: int): (m: int)
    requires ttl > 0
    ensures m >= 1
    ensures ttl >= Minute ==> m * Minute <= ttl < (m + 1) * Minute
    ensures ttl < Minute ==> m == 1
  {
    var m := ttl / Minute;
    if m <= 0 then 1 else m
  }

  // -------------------------------------------------- verification codes

  /** One answer of crypto/rand for a digit: a value below 10, or an error. */
  type Digit = n: int | 0 <= n < 10

  const RandError := "crypto/rand failed"

  /** Every one of the six draws succeeded. */
  predicate Drawn(draws: seq<Option<Digit>>) {
    |draws| >= CodeLength && forall i | 0 <= i < CodeLength :: draws[i].Some?
  }

  /** The code six successful draws spell, one ASCII digit per draw. */
  function CodeOf(draws: seq<Option<Digit>>): (code: string)
    requires Drawn(draws)
    ensures |code| == CodeLength
    ensures forall i | 0 <= i < CodeLength :: '0' <= code[i] <= '9' && code[i] as int - '0' as int == draws[i].value
  {
    seq(CodeLength, i requires 0 <= i < CodeLength && i < |draws| && draws[i].Some? => ('0' as int + draws[i].value) as char)
  }

  /**
   * generateVerificationCode: six draws, each appended as the ASCII digit
   * '0' + n; the first failing draw ends it with that error.  `draws` are
   * crypto/rand's answers in order.
   */
  method GenerateVerificationCode(draws: seq<Option<Digit>>) returns (r: Result<string, string>)
    requires |draws| >= CodeLength
    ensures r.Success? <==> forall i | 0 <= i < CodeLength :: draws[i].Some?
    ensures r.Success? ==> |r.value| == CodeLength
    ensures r.Success? ==> forall i | 0 <= i < CodeLength ::
                             '0' <= r.value[i] <= '9' && r.value[i] as int - '0' as int == draws[i].value
    ensures r.Success? ==> r.value == CodeOf(draws)
    ensures r.Failure? ==> r.error == RandError
  {
    var code: string := [];
    for i := 0 to CodeLength
      invariant |code| == i
      invariant forall j | 0 <= j < i :: draws[j].Some?
      invariant forall j | 0 <= j < i :: '0' <= code[j] <= '9' && code[j] as int - '0' as int == draws[j].value
    {
      if draws[i].None? {
        return Failure(RandError);
      }
      code := code + [('0' as int + draws[i].value) as char];
    }
    assert code == CodeOf(draws);
    return Success(code);
  }

  // -------------------------------------------------------- the operations

  /** queueEmailVerification has work to do: the user has an unverified
      e-mail and a verification repository exists. */
  predicate SendsVerification(cfg: AuthConfig, user: User) {
    user.email != "" && user.emailVerifiedAt.None? && cfg.hasVerificationRepo
  }

  /** The verification row queueEmailVerification creates for a code. */
  function VerificationRow(cfg: AuthConfig, user: User, now: Instant, sha256: string -> seq<Byte>, code: string): Verification
    requires |sha256(code)| == 32
  {
    Verification(user.id, user.email, HashVerificationCode(sha256, code), now + EffectiveTtl(cfg.emailVerificationTtl))
  }

  /** The e-mail task queueEmailVerification enqueues for a code. */
  function VerificationTask(cfg: AuthConfig, user: User, code: string): EmailTask {
    EmailTask(user.email, user.username, code, ExpiresInMinutes(EffectiveTtl(cfg.emailVerificationTtl)))
  }

  /**
   * The calls queueEmailVerification makes, in order, for the given
   * answers of crypto/rand and of the verification repository.
   */
  function QueueCalls(cfg: AuthConfig, user: User, now: Instant, draws: seq<Option<Digit>>, sha256: string -> seq<Byte>,
                      expired: Outcome<string>, created: Outcome<string>): (calls: seq<AuthCall>)
    requires forall s :: |sha256(s)| == 32
    ensures |calls| <= 3
    ensures calls != [] ==> SendsVerification(cfg, user) && Drawn(draws)
  {
    if !SendsVerification(cfg, user) || !Drawn(draws) then []
    else
      var code := CodeOf(draws);
      var expire := ExpireActiveCall(user.id, now);
      var create := CreateVerificationCall(VerificationRow(cfg, user, now, sha256, code));
      if expired.Fail? then [expire]
      else if created.Fail? || !cfg.hasTaskEnqueuer then [expire, create]
      else [expire, create, EnqueueCall(VerificationTask(cfg, user, code))]
  }

  /**
   * queueEmailVerification: nothing to do for a user without e-mail, one
   * already verified, or without a verification repository.  Otherwise a
   * code is drawn, active codes are expired, a row holding the code's hash
   * is created, and, when there is a queue, the e-mail task is enqueued.
   * The first failing step ends it with its error.
   */
  method QueueEmailVerification(cfg: AuthConfig, user: User, now: Instant,
                                draws: seq<Option<Digit>>, sha256: string -> seq<Byte>,
                                expired: Outcome<string>, created: Outcome<string>, enqueued: Outcome<string>)
    returns (r: Outcome<string>, calls: seq<AuthCall>)
    requires |draws| >= CodeLength
    requires forall s :: |sha256(s)| == 32
    ensures !SendsVerification(cfg, user) ==> r == Pass && calls == []
    ensures SendsVerification(cfg, user) && !Drawn(draws) ==> r == Fail(RandError) && calls == []
    ensures SendsVerification(cfg, user) && Drawn(draws) ==> |calls| >= 1 && calls[0] == ExpireActiveCall(user.id, now)
    ensures SendsVerification(cfg, user) && Drawn(draws) && expired.Fail? ==> r == expired && |calls| == 1
    ensures SendsVerification(cfg, user) && Drawn(draws) && expired.Pass? ==>
              |calls| >= 2 && calls[1] == CreateVerificationCall(VerificationRow(cfg, user, now, sha256, CodeOf(draws)))
              && calls[1].verification.expiresAt == now + EffectiveTtl(cfg.emailVerificationTtl)
    ensures SendsVerification(cfg, user) && Drawn(draws) && expired.Pass? && created.Fail? ==> r == created && |calls| == 2
    ensures SendsVerification(cfg, user) && Drawn(draws) && expired.Pass? && created.Pass? && !cfg.hasTaskEnqueuer ==>
              r == Pass && |calls| == 2
    ensures SendsVerification(cfg, user) && Drawn(draws) && expired.Pass? && created.Pass? && cfg.hasTaskEnqueuer ==>
              |calls| == 3 && calls[2] == EnqueueCall(VerificationTask(cfg, user, CodeOf(draws))) && r == enqueued
    ensures |calls| == 3 ==> calls[2].task.to == user.email && |calls[2].task.code| == CodeLength
                             && calls[1].verification.codeHash == HashVerificationCode(sha256, calls[2].task.code)
    ensures calls == QueueCalls(cfg, user, now, draws, sha256, expired, created)
  {
    if user.email == "" || user.emailVerifiedAt.Some? || !cfg.hasVerificationRepo {
      return Pass, [];
    }
    var code := GenerateVerificationCode(draws);
    if code.Failure? {
      return Fail(code.error), [];
    }
    var ttl := cfg.emailVerificationTtl;
    if ttl <= 0 {
      ttl := Day;
    }
    calls := [ExpireActiveCall(user.id, now)];
    if expired.Fail? {
      return expired, calls;
    }
    var verification := Verification(user.id, user.email, HashVerificationCode(sha256, code.value), now + ttl);
    calls := calls + [CreateVerificationCall(verification)];
    if created.Fail? {
      return created, calls;
    }
    if !cfg.hasTaskEnqueuer {
      return Pass, calls;
    }
    var minutes := ttl / Minute;
    if minutes <= 0 {
      minutes := 1;
    }
    calls := calls + [EnqueueCall(EmailTask(user.email, user.username, code.value, minutes))];
    return enqueued, calls;
  }

  /**
   * Register: a password shorter than 8 bytes is refused before anything
   * else; a bcrypt failure (`hashed` is None) is an internal error.  The
   * new user is created (`created` is the id the database assigns, or its
   * error), the verification e-mail is queued with its failure ignored,
   * and a token is signed (`signed`, None when signing fails).
   */
  method Register(cfg: AuthConfig, email: string, username: string, password: string,
                  hashed: Option<string>, created: Result<Uuid, DbError>, now: Instant,
                  draws: seq<Option<Digit>>, sha256: string -> seq<Byte>,
                  expired: Outcome<string>, createdCode: Outcome<string>, enqueued: Outcome<string>,
                  signed: Option<string>)
    returns (r: Result<AuthResult, ApiError>, calls: seq<AuthCall>)
    requires |draws| >= CodeLength
    requires forall s :: |sha256(s)| == 32
    ensures |password| < MinPasswordLength ==>
              r == Failure(BadRequest(PasswordTooShortMessage, [FieldError("password", "too short")])) && calls == []
    ensures |password| >= MinPasswordLength && hashed.None? ==> r == Failure(InternalServerError) && calls == []
    ensures calls != [] ==> |password| >= MinPasswordLength && hashed.Some?
                            && calls[0] == CreateUserCall(ZeroUser.(email := email, username := username, passwordHash := hashed.value))
    ensures calls != [] && created.Failure? ==> r == Failure(Handled(created.error)) && |calls| == 1
    ensures r.Success? ==> created.Success? && signed.Some?
                           && r.value == AuthResult(ZeroUser.(id := created.value, email := email, username := username,
                                                             passwordHash := hashed.value), signed.value)
    ensures calls != [] && created.Success? && signed.None? ==> r == Failure(InternalServerError)
    ensures |password| >= MinPasswordLength && hashed.Some? ==>
              |calls| >= 1 && calls[0] == CreateUserCall(ZeroUser.(email := email, username := username, passwordHash := hashed.value))
    ensures |password| >= MinPasswordLength && hashed.Some? && created.Success? ==>
              var user := ZeroUser.(id := created.value, email := email, username := username, passwordHash := hashed.value);
              calls[1..] == QueueCalls(cfg, user, now, draws, sha256, expired, createdCode)
              && (signed.Some? ==> r == Success(AuthResult(user, signed.value)))
  {
    if |password| < MinPasswordLength {
      return Failure(BadRequest(PasswordTooShortMessage, [FieldError("password", "too short")])), [];
    }
    if hashed.None? {
      return Failure(InternalServerError), [];
    }
    var user := ZeroUser.(email := email, username := username, passwordHash := hashed.value);
    calls := [CreateUserCall(user)];
    if created.Failure? {
      return Failure(Handled(created.error)), calls;
    }
    user := user.(id := created.value);
    var queued, queueCalls := QueueEmailVerification(cfg, user, now, draws, sha256, expired, createdCode, enqueued);
    calls := calls + queueCalls;
    if signed.None? {
      return Failure(InternalServerError), calls;
    }
    return Success(AuthResult(user, signed.value)), calls;
  }

  /**
   * Login: the identifier goes to lookupUser.  Not-found (errors.Is) is
   * "Invalid credentials", another failure goes to HandleError; a user
   * without a password hash, or whose hash does not match (`matches` is
   * bcrypt's answer), is refused.  Only then is the login time recorded
   * (its error ignored) and a token signed.
   */
  method Login(identifier: string, found: Result<User, DbError>, matches: bool, now: Instant, signed: Option<string>)
    returns (r: Result<AuthResult, ApiError>, calls: seq<AuthCall>)
    ensures |calls| >= 1 && calls[0] == LookupCall(identifier)
    ensures found.Failure? ==> |calls| == 1 && r == Failure(if IsRecordNotFound(found.error) then InvalidCredentials
                                                            else Handled(found.error))
    ensures found.Success? && found.value.passwordHash == "" ==> r == Failure(NoPasswordLogin) && |calls| == 1
    ensures found.Success? && found.value.passwordHash != "" && !matches ==> r == Failure(InvalidCredentials) && |calls| == 1
    ensures |calls| > 1 <==> found.Success? && found.value.passwordHash != "" && matches
    ensures |calls| > 1 ==> calls == [LookupCall(identifier), UpdateLoginAtCall(found.value.id, now)]
                            && r == (if signed.Some? then Success(AuthResult(found.value, signed.value))
                                     else Failure(InternalServerError))
  {
    calls := [LookupCall(identifier)];
    if found.Failure? {
      if IsRecordNotFound(found.error) {
        return Failure(InvalidCredentials), calls;
      }
      return Failure(Handled(found.error)), calls;
    }
    var user := found.value;
    if user.passwordHash == "" {
      return Failure(NoPasswordLogin), calls;
    }
    if !matches {
      return Failure(InvalidCredentials), calls;
    }
    calls := calls + [UpdateLoginAtCall(user.id, now)];
    if signed.None? {
      return Failure(InternalServerError), calls;
    }
    return Success(AuthResult(user, signed.value)), calls;
  }

  /** Google's verdict on an ID token: its subject and its e-mail claims.  A
      missing or mistyped `email` claim reads as "", `email_verified` as false. */
  datatype GooglePayload = GooglePayload(subject: string, email: string, emailVerified: bool)

  /** The user the Google resolution ends with, or its error. */
  function GoogleResolution(p: GooglePayload, byGoogle: Result<User, DbError>, byEmail: Result<User, DbError>,
                            saved: Outcome<DbError>, created: Result<Uuid, DbError>, newId: Uuid): Result<User, ApiError>
  {
    if byGoogle.Success? then Success(byGoogle.value)
    else if !IsRecordNotFound(byGoogle.error) then Failure(Handled(byGoogle.error))
    else if byEmail.Success? then
      if saved.Pass? then Success(byEmail.value.(googleId := Some(p.subject))) else Failure(Handled(saved.error))
    else if !IsRecordNotFound(byEmail.error) then Failure(Handled(byEmail.error))
    else if created.Success? then Success(GoogleNewUser(p, newId).(id := created.value))
    else Failure(Handled(created.error))
  }

  /** The repository calls the Google resolution makes, in order. */
  function GoogleResolutionCalls(p: GooglePayload, byGoogle: Result<User, DbError>, byEmail: Result<User, DbError>,
                                 newId: Uuid): seq<AuthCall>
  {
    if byGoogle.Success? || !IsRecordNotFound(byGoogle.error) then [GetByGoogleIdCall(p.subject)]
    else if byEmail.Success? then
      [GetByGoogleIdCall(p.subject), GetByEmailCall(p.email), SaveCall(byEmail.value.(googleId := Some(p.subject)))]
    else if IsRecordNotFound(byEmail.error) then
      [GetByGoogleIdCall(p.subject), GetByEmailCall(p.email), CreateUserCall(GoogleNewUser(p, newId))]
    else [GetByGoogleIdCall(p.subject), GetByEmailCall(p.email)]
  }

  /** The user created for a Google identity with no account yet. */
  function GoogleNewUser(p: GooglePayload, newId: Uuid): User {
    ZeroUser.(email := p.email, username := DeriveUsername(p.email, newId), googleId := Some(p.subject))
  }

  /**
   * The account a verified Google identity signs in as: the user linked to
   * the subject; else the user with that e-mail, now linked and saved; else
   * a new user named after the e-mail.  A lookup failure other than
   * not-found, or a failing save or create, goes to HandleError.
   */
  method ResolveGoogleUser(p: GooglePayload, byGoogle: Result<User, DbError>, byEmail: Result<User, DbError>,
                           saved: Outcome<DbError>, created: Result<Uuid, DbError>, newId: Uuid)
    returns (r: Result<User, ApiError>, calls: seq<AuthCall>)
    ensures |calls| >= 1 && calls[0] == GetByGoogleIdCall(p.subject)
    ensures byGoogle.Success? ==> r == Success(byGoogle.value) && |calls| == 1
    ensures byGoogle.Failure? && !IsRecordNotFound(byGoogle.error) ==>
              r == Failure(Handled(byGoogle.error)) && |calls| == 1
    ensures byGoogle.Failure? && IsRecordNotFound(byGoogle.error) && byEmail.Success? ==>
              var linked := byEmail.value.(googleId := Some(p.subject));
              calls == [GetByGoogleIdCall(p.subject), GetByEmailCall(p.email), SaveCall(linked)]
              && r == (if saved.Pass? then Success(linked) else Failure(Handled(saved.error)))
    ensures byGoogle.Failure? && IsRecordNotFound(byGoogle.error) && byEmail.Failure? && IsRecordNotFound(byEmail.error) ==>
              var user := GoogleNewUser(p, newId);
              calls == [GetByGoogleIdCall(p.subject), GetByEmailCall(p.email), CreateUserCall(user)]
              && r == (if created.Success? then Success(user.(id := created.value)) else Failure(Handled(created.error)))
    ensures byGoogle.Failure? && IsRecordNotFound(byGoogle.error) && byEmail.Failure? && !IsRecordNotFound(byEmail.error) ==>
              calls == [GetByGoogleIdCall(p.subject), GetByEmailCall(p.email)] && r == Failure(Handled(byEmail.error))
    ensures r == GoogleResolution(p, byGoogle, byEmail, saved, created, newId)
    ensures calls == GoogleResolutionCalls(p, byGoogle, byEmail, newId)
  {
    calls := [GetByGoogleIdCall(p.subject)];
    if byGoogle.Success? {
      return Success(byGoogle.value), calls;
    }
    if !IsRecordNotFound(byGoogle.error) {
      return Failure(Handled(byGoogle.error)), calls;
    }
    calls := calls + [GetByEmailCall(p.email)];
    if byEmail.Success? {
      var user := byEmail.value.(googleId := Some(p.subject));
      calls := calls + [SaveCall(user)];
      if saved.Fail? {
        return Failure(Handled(saved.error)), calls;
      }
      return Success(user), calls;
    }
    if IsRecordNotFound(byEmail.error) {
      var user := GoogleNewUser(p, newId);
      calls := calls + [CreateUserCall(user)];
      if created.Failure? {
        return Failure(Handled(created.error)), calls;
      }
      return Success(user.(id := created.value)), calls;
    }
    return Failure(Handled(byEmail.error)), calls;
  }

  /**
   * LoginWithGoogle: refused outright when no client id is configured;
   * otherwise the token must be valid (`validated` is idtoken.Validate's
   * answer) and carry a verified e-mail.  The resolved user's login time is
   * recorded and, if their e-mail was unverified, it is marked verified now
   * (both errors ignored); then a token is signed.
   */
  method LoginWithGoogle(cfg: AuthConfig, validated: Option<GooglePayload>,
                         byGoogle: Result<User, DbError>, byEmail: Result<User, DbError>,
                         saved: Outcome<DbError>, created: Result<Uuid, DbError>, newId: Uuid,
                         now: Instant, signed: Option<string>)
    returns (r: Result<AuthResult, ApiError>, calls: seq<AuthCall>)
    ensures cfg.googleClientId == "" ==> r == Failure(GoogleNotConfigured) && calls == []
    ensures cfg.googleClientId != "" && validated.None? ==> r == Failure(InvalidGoogleToken) && calls == []
    ensures cfg.googleClientId != "" && validated.Some? && (validated.value.email == "" || !validated.value.emailVerified) ==>
              r == Failure(GoogleEmailNotVerified) && calls == []
    ensures calls != [] ==> validated.Some? && calls[0] == GetByGoogleIdCall(validated.value.subject)
    ensures r.Success? ==> signed.Some? && r.value.token == signed.value
                           && r.value.user.emailVerifiedAt.Some?
                           && UpdateLoginAtCall(r.value.user.id, now) in calls
    ensures r.Success? && byGoogle.Failure? ==> r.value.user.googleId == Some(validated.value.subject)
    ensures cfg.googleClientId != "" && validated.Some? && validated.value.email != "" && validated.value.emailVerified ==>
              var resolved := GoogleResolution(validated.value, byGoogle, byEmail, saved, created, newId);
              var looked := GoogleResolutionCalls(validated.value, byGoogle, byEmail, newId);
              (resolved.Failure? ==> r == Failure(resolved.error) && calls == looked)
              && (resolved.Success? && resolved.value.emailVerifiedAt.Some? ==>
                    calls == looked + [UpdateLoginAtCall(resolved.value.id, now)]
                    && (signed.Some? ==> r == Success(AuthResult(resolved.value, signed.value))))
              && (resolved.Success? && resolved.value.emailVerifiedAt.None? ==>
                    calls == looked + [UpdateLoginAtCall(resolved.value.id, now), UpdateEmailVerifiedAtCall(resolved.value.id, now)]
                    && (signed.Some? ==> r == Success(AuthResult(resolved.value.(emailVerifiedAt := Some(now)), signed.value))))
              && (resolved.Success? && signed.None? ==> r == Failure(InternalServerError))
  {
    if cfg.googleClientId == "" {
      return Failure(GoogleNotConfigured), [];
    }
    if validated.None? {
      return Failure(InvalidGoogleToken), [];
    }
    var p := validated.value;
    if p.email == "" || !p.emailVerified {
      return Failure(GoogleEmailNotVerified), [];
    }
    var resolved;
    resolved, calls := ResolveGoogleUser(p, byGoogle, byEmail, saved, created, newId);
    if resolved.Failure? {
      return Failure(resolved.error), calls;
    }
    var user := resolved.value;
    calls := calls + [UpdateLoginAtCall(user.id, now)];
    if user.emailVerifiedAt.None? {
      calls := calls + [UpdateEmailVerifiedAtCall(user.id, now)];
      user := user.(emailVerifiedAt := Some(now));
    }
    if signed.None? {
      return Failure(InternalServerError), calls;
    }
    return Success(AuthResult(user, signed.value)), calls;
  }

  /** VerifyEmail goes on to check the code: the user exists, is not yet
      verified, and a verification repository exists. */
  predicate AwaitsCode(cfg: AuthConfig, found: Result<User, DbError>) {
    found.Success? && found.value.emailVerifiedAt.None? && cfg.hasVerificationRepo
  }

  /**
   * VerifyEmail: an unknown e-mail is the invalid-code error; a user already
   * verified is returned at once, without the verification repository.
   * Otherwise the code's hash must match an active row (`active` is that
   * row's id, or the lookup's error); the row is marked used and the user
   * verified now.
   */
  method VerifyEmail(cfg: AuthConfig, email: string, code: string, now: Instant, sha256: string -> seq<Byte>,
                     found: Result<User, DbError>, active: Result<Uuid, DbError>,
                     marked: Outcome<DbError>, stamped: Outcome<DbError>)
    returns (r: Result<User, ApiError>, calls: seq<AuthCall>)
    requires forall s :: |sha256(s)| == 32
    ensures |calls| >= 1 && calls[0] == GetByEmailCall(email)
    ensures found.Failure? ==> |calls| == 1 && r == Failure(if IsRecordNotFound(found.error) then InvalidVerification
                                                            else Handled(found.error))
    ensures found.Success? && found.value.emailVerifiedAt.Some? ==> r == Success(found.value) && |calls| == 1
    ensures found.Success? && found.value.emailVerifiedAt.None? && !cfg.hasVerificationRepo ==>
              r == Failure(InternalServerError) && |calls| == 1
    ensures |calls| > 1 ==> found.Success? && found.value.emailVerifiedAt.None? && cfg.hasVerificationRepo
                            && calls[1] == GetActiveVerificationCall(found.value.id, HashVerificationCode(sha256, code), now)
    ensures |calls| > 1 && active.Failure? ==>
              |calls| == 2 && r == Failure(if IsRecordNotFound(active.error) then InvalidVerification else Handled(active.error))
    ensures r.Success? && |calls| > 1 ==>
              calls == [GetByEmailCall(email), GetActiveVerificationCall(found.value.id, HashVerificationCode(sha256, code), now),
                        MarkVerifiedCall(active.value, now), UpdateEmailVerifiedAtCall(found.value.id, now)]
              && r.value == found.value.(emailVerifiedAt := Some(now))
    ensures r.Success? ==> r.value.emailVerifiedAt.Some?
    ensures AwaitsCode(cfg, found) ==>
              |calls| >= 2 && calls[1] == GetActiveVerificationCall(found.value.id, HashVerificationCode(sha256, code), now)
    ensures AwaitsCode(cfg, found) && active.Success? ==> |calls| >= 3 && calls[2] == MarkVerifiedCall(active.value, now)
    ensures AwaitsCode(cfg, found) && active.Success? && marked.Fail? ==>
              r == Failure(Handled(marked.error)) && |calls| == 3
    ensures AwaitsCode(cfg, found) && active.Success? && marked.Pass? ==>
              |calls| == 4 && calls[3] == UpdateEmailVerifiedAtCall(found.value.id, now)
    ensures AwaitsCode(cfg, found) && active.Success? && marked.Pass? && stamped.Fail? ==>
              r == Failure(Handled(stamped.error))
    ensures AwaitsCode(cfg, found) && active.Success? && marked.Pass? && stamped.Pass? ==>
              r == Success(found.value.(emailVerifiedAt := Some(now)))
  {
    calls := [GetByEmailCall(email)];
    if found.Failure? {
      if IsRecordNotFound(found.error) {
        return Failure(InvalidVerification), calls;
      }
      return Failure(Handled(found.error)), calls;
    }
    var user := found.value;
    if user.emailVerifiedAt.Some? {
      return Success(user), calls;
    }
    if !cfg.hasVerificationRepo {
      return Failure(InternalServerError), calls;
    }
    var codeHash := HashVerificationCode(sha256, code);
    calls := calls + [GetActiveVerificationCall(user.id, codeHash, now)];
    if active.Failure? {
      if IsRecordNotFound(active.error) {
        return Failure(InvalidVerification), calls;
      }
      return Failure(Handled(active.error)), calls;
    }
    calls := calls + [MarkVerifiedCall(active.value, now)];
    if marked.Fail? {
      return Failure(Handled(marked.error)), calls;
    }
    calls := calls + [UpdateEmailVerifiedAtCall(user.id, now)];
    if stamped.Fail? {
      return Failure(Handled(stamped.error)), calls;
    }
    return Success(user.(emailVerifiedAt := Some(now))), calls;
  }
}
