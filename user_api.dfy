/**
 * The user routes: one-time-code registration (send, verify, signup), the
 * unchecked `createUser`, login and logout. The service's state is the OTP
 * collection keyed by email and the user collection keyed by email. Each
 * route is a step function over that state (what it answers and the state
 * after it), implemented by a method of `UserService` that performs the
 * route's lookups and writes in the handler's order.
 *
 * Outside collaborators are inputs: the random six-digit draw, whether the
 * email was delivered, and the clock in milliseconds. Password hashing is an
 * ideal hash and the session token is its claims.
 */
module UserApi {
  import opened Wrappers
  import opened JsValues
  import opened OtpModel
  import Http
  import opened Identity

  type UserId = nat

  /** The result of `Math.floor(100000 + Math.random() * 900000)`. */
  type SixDigit = n: int | 100000 <= n <= 999999 witness 100000

  // ---- The code as text: Number.prototype.toString for naturals ----

  predicate IsDigit(c: char) {
    '0' <= c <= '9'
  }

  predicate AllDigits(s: string) {
    forall i :: 0 <= i < |s| ==> IsDigit(s[i])
  }

  /** The shape of every code sent: six decimal digits. */
  predicate IsCode(s: string) {
    |s| == 6 && AllDigits(s)
  }

  function DigitChar(d: nat): (c: char)
    requires d < 10
  {
    ('0' as int + d) as char
  }

  /** The decimal numeral of `n`, without leading zeros. */
  function DecimalString(n: nat): string
    decreases n
  {
    if n < 10 then [DigitChar(n)] else DecimalString(n / 10) + [DigitChar(n % 10)]
  }

  /** The number a string of decimal digits denotes. */
  function DecimalValue(s: string): nat
    requires AllDigits(s)
    decreases |s|
  {
    if s == [] then 0 else DecimalValue(s[..|s| - 1]) * 10 + (s[|s| - 1] as int - '0' as int)
  }

  function Pow10(k: nat): nat {
    if k == 0 then 1 else 10 * Pow10(k - 1)
  }

  /** Reading back the numeral gives the number. */
  lemma {:induction false} DecimalRoundTrip(n: nat)
    ensures AllDigits(DecimalString(n))
    ensures DecimalValue(DecimalString(n)) == n
    decreases n
  {
    if n >= 10 {
      DecimalRoundTrip(n / 10);
      var s := DecimalString(n);
      assert s[..|s| - 1] == DecimalString(n / 10);
    }
  }

  /** A number with k+1 digits has a numeral of length k+1. */
  lemma {:induction false} DecimalLength(n: nat, k: nat)
    requires Pow10(k) <= n < Pow10(k + 1)
    ensures |DecimalString(n)| == k + 1
    decreases k
  {
    if k > 0 {
      DecimalLength(n / 10, k - 1);
    }
  }

  /** Every draw gives a code of exactly six digits. */
  lemma SixDigitCode(n: SixDigit)
    ensures IsCode(DecimalString(n))
  {
    assert Pow10(5) == 100000 && Pow10(6) == 1000000;
    DecimalLength(n, 5);
    DecimalRoundTrip(n);
  }

  /** Different draws give different codes. */
  lemma DistinctDrawsDistinctCodes(a: nat, b: nat)
    requires a != b
    ensures DecimalString(a) != DecimalString(b)
  {
    DecimalRoundTrip(a);
    DecimalRoundTrip(b);
  }

  // ---- Credentials, tokens, replies ----

  /**
   * A password hash. Hashing is ideal: a digest is determined by the secret
   * it was made from, and only that secret matches it.
   */
  datatype Digest = Digest(secret: string)

  function Hash(password: string): Digest {
    Digest(password)
  }

  /** `bcrypt.compare(password, digest)`. */
  predicate Matches(password: string, d: Digest) {
    d.secret == password
  }

  datatype User = User(id: UserId, username: string, email: Email, password: Digest, age: Option<int>)

  /** The claims of a signed session token; `expiresInMs` is None when the token never expires. */
  datatype Claims = Claims(id: Option<UserId>, email: Email, expiresInMs: Option<int>)

  /** The `token` cookie set on the response; `token` is None for the empty value. */
  datatype Cookie = Cookie(token: Option<Claims>, httpOnly: bool, secure: bool,
                           sameSite: Option<string>, maxAgeMs: Option<int>)

  datatype Reply = Reply(status: int, message: string, userId: Option<UserId>, cookie: Option<Cookie>)

  const EmailRequired: string := "Email is required"
  const OtpSentMessage: string := "OTP sent to email"
  const SendFailed: string := "Failed to send OTP"
  const EmailAndOtpRequired: string := "Email and OTP are required"
  const InvalidOtp: string := "Invalid or expired OTP"
  const OtpVerified: string := "OTP verified successfully. You can now proceed to signup."
  const AllFieldsRequired: string := "All fields are required"
  const NotVerified: string := "Email not verified. Please verify OTP first."
  const UserExists: string := "User already exists"
  const Registered: string := "User registered successfully"
  const NewUserCreated: string := "New User Created"
  const ServerError: string := "Internal Server Error"
  const UserNotFound: string := "User not found"
  const LoggedIn: string := "Logged in successfully"
  const WrongPassword: string := "Wrong Password"
  const LoggedOut: string := "Logged out successfully"

  /** One hour, the login token's lifetime and its cookie's max-age. */
  const SessionMs: int := 3600000

  function Failed(status: int, message: string): Reply {
    Reply(status, message, None, None)
  }

  /** `res.cookie('token', token)` with no options. */
  function PlainCookie(claims: Claims): Cookie {
    Cookie(Some(claims), false, false, None, None)
  }

  // ---- The state and its invariant ----

  datatype Accounts = Accounts(otps: map<Email, OtpRecord>, users: map<Email, User>, nextUserId: UserId)

  /** What a route answers, and the state after it. */
  datatype Step = Step(reply: Reply, accounts: Accounts)

  /**
   * Every code record sits under its own email, passes the schema's
   * validators and holds a six-digit code; every user sits under its own
   * email and has an id issued before `nextUserId`, distinct from every
   * other user's.
   */
  predicate Consistent(acc: Accounts) {
    && (forall e :: e in acc.otps ==> acc.otps[e].email == e && WellFormed(acc.otps[e]) && IsCode(acc.otps[e].otp))
    && (forall e :: e in acc.users ==> acc.users[e].email == e && acc.users[e].id < acc.nextUserId)
    && (forall e, f :: e in acc.users && f in acc.users && e != f ==> acc.users[e].id != acc.users[f].id)
  }

  /** `OTP.findOne({ email, otp })`, which cannot see records the TTL index has removed. */
  predicate CodeMatches(otps: map<Email, OtpRecord>, email: Email, otp: string, now: int)
    ensures email !in otps || !IsLive(otps[email], now) ==> !CodeMatches(otps, email, otp, now)
    ensures email in otps && IsLive(otps[email], now) ==> (CodeMatches(otps, email, otp, now) <==> otps[email].otp == otp)
  {
    email in otps && otps[email].otp == otp && IsLive(otps[email], now)
  }

  /** `OTP.findOne({ email, isVerified: true })`, likewise only among live records. */
  predicate HasVerifiedCode(otps: map<Email, OtpRecord>, email: Email, now: int)
    ensures email !in otps || !IsLive(otps[email], now) ==> !HasVerifiedCode(otps, email, now)
    ensures email in otps && IsLive(otps[email], now) ==> (HasVerifiedCode(otps, email, now) <==> otps[email].isVerified)
  {
    email in otps && otps[email].isVerified && IsLive(otps[email], now)
  }

  // ---- The routes ----

  /**
   * POST /user/sendOTP: 400 without an email. Otherwise the record for the
   * email is upserted with the new code, `isVerified = false` and
   * `createdAt = now` before the email goes out, so it is there whether or
   * not delivery succeeds; the answer is 200 on delivery and 500 otherwise.
   */
  function SendOtp(acc: Accounts, email: Option<string>, draw: SixDigit, delivered: bool, now: int): (r: Step)
    ensures Falsy(email) ==> r == Step(Failed(Http.BadRequest, EmailRequired), acc)
    ensures !Falsy(email) ==>
      && r.accounts.users == acc.users && r.accounts.nextUserId == acc.nextUserId
      && r.accounts.otps.Keys == acc.otps.Keys + {email.value}
      && (forall e :: e in acc.otps && e != email.value ==> r.accounts.otps[e] == acc.otps[e])
      && r.accounts.otps[email.value].email == email.value
      && r.accounts.otps[email.value].otp == DecimalString(draw)
      && IsCode(r.accounts.otps[email.value].otp)
      && !r.accounts.otps[email.value].isVerified
      && r.accounts.otps[email.value].createdAt == now
      && r.reply.status == (if delivered then Http.Ok else Http.InternalError)
    ensures Consistent(acc) ==> Consistent(r.accounts)
  {
    if Falsy(email) then Step(Failed(Http.BadRequest, EmailRequired), acc)
    else
      var e := email.value;
      var code := DecimalString(draw);
      SixDigitCode(draw);
      var rec := NewOtpRecord(Some(e), Some(code), Some(false), Some(now), now).value;
      var after := acc.(otps := acc.otps[e := rec]);
      if delivered then Step(Reply(Http.Ok, OtpSentMessage, None, None), after)
      else Step(Failed(Http.InternalError, SendFailed), after)
  }

  /**
   * POST /user/verify-otp: 400 unless both fields are given and a live
   * record matches email and code exactly; on a match that record gets
   * `isVerified = true` and nothing else changes.
   */
  function VerifyOtp(acc: Accounts, email: Option<string>, otp: Option<string>, now: int): (r: Step)
    ensures r.reply.status == Http.Ok || r.reply.status == Http.BadRequest
    ensures r.reply.status == Http.Ok <==>
      !Falsy(email) && !Falsy(otp) && CodeMatches(acc.otps, email.value, otp.value, now)
    ensures r.reply.message == EmailAndOtpRequired <==> Falsy(email) || Falsy(otp)
    ensures r.reply.status != Http.Ok ==> r.accounts == acc
    ensures r.reply.status == Http.Ok ==>
      && r.accounts.users == acc.users && r.accounts.nextUserId == acc.nextUserId
      && r.accounts.otps.Keys == acc.otps.Keys
      && (forall e :: e in acc.otps && e != email.value ==> r.accounts.otps[e] == acc.otps[e])
      && r.accounts.otps[email.value] == acc.otps[email.value].(isVerified := true)
    ensures Consistent(acc) ==> Consistent(r.accounts)
  {
    if Falsy(email) || Falsy(otp) then Step(Failed(Http.BadRequest, EmailAndOtpRequired), acc)
    else if !CodeMatches(acc.otps, email.value, otp.value, now) then Step(Failed(Http.BadRequest, InvalidOtp), acc)
    else
      var e := email.value;
      var rec := acc.otps[e].(isVerified := true);
      Step(Reply(Http.Ok, OtpVerified, None, None), acc.(otps := acc.otps[e := rec]))
  }

  /**
   * POST /user/signup: 400 when a field is missing; then 400 "not verified"
   * unless a live verified record exists, checked BEFORE whether the user
   * exists; then 400 "already exists". Otherwise exactly one user is added
   * under the email with a fresh id and the hashed password, the email's
   * code record is deleted, and 201 carries the id and a token cookie.
   */
  function Signup(acc: Accounts, username: Option<string>, email: Option<string>, password: Option<string>,
                  age: Option<int>, now: int): (r: Step)
    ensures r.reply.status == Http.Created || r.reply.status == Http.BadRequest
    ensures r.reply.message == AllFieldsRequired <==> Falsy(username) || Falsy(email) || Falsy(password)
    ensures r.reply.message == NotVerified <==>
      !Falsy(username) && !Falsy(email) && !Falsy(password) && !HasVerifiedCode(acc.otps, email.value, now)
    ensures r.reply.message == UserExists <==>
      !Falsy(username) && !Falsy(email) && !Falsy(password) && HasVerifiedCode(acc.otps, email.value, now)
      && email.value in acc.users
    ensures r.reply.status == Http.Created <==>
      !Falsy(username) && !Falsy(email) && !Falsy(password) && HasVerifiedCode(acc.otps, email.value, now)
      && email.value !in acc.users
    ensures r.reply.status != Http.Created ==> r.accounts == acc && r.reply.cookie == None
    ensures r.reply.status == Http.Created ==>
      && r.accounts.users.Keys == acc.users.Keys + {email.value}
      && (forall e :: e in acc.users ==> r.accounts.users[e] == acc.users[e])
      && r.accounts.users[email.value] == User(acc.nextUserId, username.value, email.value, Hash(password.value), age)
      && r.accounts.nextUserId == acc.nextUserId + 1
      && r.accounts.otps == acc.otps - {email.value}
      && r.reply.userId == Some(acc.nextUserId)
      && r.reply.cookie == Some(PlainCookie(Claims(Some(acc.nextUserId), email.value, None)))
    ensures Consistent(acc) ==> Consistent(r.accounts)
  {
    if Falsy(username) || Falsy(email) || Falsy(password) then Step(Failed(Http.BadRequest, AllFieldsRequired), acc)
    else if !HasVerifiedCode(acc.otps, email.value, now) then Step(Failed(Http.BadRequest, NotVerified), acc)
    else if email.value in acc.users then Step(Failed(Http.BadRequest, UserExists), acc)
    else
      var e := email.value;
      var user := User(acc.nextUserId, username.value, e, Hash(password.value), age);
      var cookie := PlainCookie(Claims(Some(user.id), e, None));
      Step(Reply(Http.Created, Registered, Some(user.id), Some(cookie)),
           Accounts(acc.otps - {e}, acc.users[e := user], acc.nextUserId + 1))
  }

  /** The body of POST /user/createUser. */
  datatype Registration = Registration(username: string, email: Email, password: string, age: Option<int>)

  /**
   * POST /user/createUser: no code check at all. A new email gets a user
   * with a fresh id and the hashed password, and 201 with a token cookie
   * carrying only the email; an email already registered is refused by the
   * collection's unique index, which surfaces as 500. Code records are
   * never touched.
   */
  function CreateUser(acc: Accounts, reg: Registration): (r: Step)
    ensures r.accounts.otps == acc.otps
    ensures r.reply.status == Http.Created <==> reg.email !in acc.users
    ensures r.reply.status != Http.Created ==> r == Step(Failed(Http.InternalError, ServerError), acc)
    ensures r.reply.status == Http.Created ==>
      && r.accounts.users.Keys == acc.users.Keys + {reg.email}
      && (forall e :: e in acc.users ==> r.accounts.users[e] == acc.users[e])
      && r.accounts.users[reg.email] == User(acc.nextUserId, reg.username, reg.email, Hash(reg.password), reg.age)
      && r.accounts.nextUserId == acc.nextUserId + 1
      && r.reply.userId == Some(acc.nextUserId)
      && r.reply.cookie == Some(PlainCookie(Claims(None, reg.email, None)))
    ensures Consistent(acc) ==> Consistent(r.accounts)
  {
    if reg.email in acc.users then Step(Failed(Http.InternalError, ServerError), acc)
    else
      var user := User(acc.nextUserId, reg.username, reg.email, Hash(reg.password), reg.age);
      Step(Reply(Http.Created, NewUserCreated, Some(user.id), Some(PlainCookie(Claims(None, reg.email, None)))),
           acc.(users := acc.users[reg.email := user], nextUserId := acc.nextUserId + 1))
  }

  /**
   * POST /user/login: 404 for an unknown email, 401 when the password does
   * not match the stored hash, and 200 only on a match, with a one-hour
   * token carrying the user's id and email in an http-only, secure,
   * cross-site cookie. It reads the user collection and changes nothing.
   */
  function Login(users: map<Email, User>, email: Email, password: string): (r: Reply)
    ensures r.status == Http.NotFound <==> email !in users
    ensures r.status == Http.Unauthorized <==> email in users && !Matches(password, users[email].password)
    ensures r.status == Http.Ok <==> email in users && Matches(password, users[email].password)
    ensures r.cookie.Some? <==> r.status == Http.Ok
    ensures r.status == Http.Ok ==>
      && r.cookie.value.token == Some(Claims(Some(users[email].id), users[email].email, Some(SessionMs)))
      && r.cookie.value.httpOnly && r.cookie.value.secure
      && r.cookie.value.sameSite == Some("None") && r.cookie.value.maxAgeMs == Some(SessionMs)
  {
    if email !in users then Failed(Http.NotFound, UserNotFound)
    else
      var user := users[email];
      if Matches(password, user.password) then
        var claims := Claims(Some(user.id), user.email, Some(SessionMs));
        Reply(Http.Ok, LoggedIn, None, Some(Cookie(Some(claims), true, true, Some("None"), Some(SessionMs))))
      else Failed(Http.Unauthorized, WrongPassword)
  }

  /** POST /user/logout: 200, and the token cookie is overwritten empty and expires at once. */
  function Logout(): (r: Reply)
    ensures r.status == Http.Ok
    ensures r.cookie.Some? && r.cookie.value.token.None? && r.cookie.value.maxAgeMs == Some(0)
  {
    Reply(Http.Ok, LoggedOut, None, Some(Cookie(None, true, true, Some("None"), Some(0))))
  }

  // ---- Properties of the registration flow ----

  /** The registration state of one email: NONE, SENT, VERIFIED, CONSUMED. */
  datatype Phase = NoCode | Sent | Verified | Consumed

  function PhaseOf(acc: Accounts, e: Email, now: int): Phase {
    if e in acc.otps && IsLive(acc.otps[e], now) then
      (if acc.otps[e].isVerified then Verified else Sent)
    else if e in acc.users then Consumed
    else NoCode
  }

  /**
   * The transitions of the registration state machine: sending moves any
   * state to SENT, a successful verify moves SENT or VERIFIED to VERIFIED,
   * and only a VERIFIED email can be signed up, which makes it CONSUMED.
   */
  lemma OtpLifecycle(acc: Accounts, e: Email, draw: SixDigit, delivered: bool, otp: Option<string>,
                     username: Option<string>, password: Option<string>, age: Option<int>, now: int)
    requires e != ""
    ensures PhaseOf(SendOtp(acc, Some(e), draw, delivered, now).accounts, e, now) == Sent
    ensures VerifyOtp(acc, Some(e), otp, now).reply.status == Http.Ok ==>
      PhaseOf(acc, e, now) in {Sent, Verified} && PhaseOf(VerifyOtp(acc, Some(e), otp, now).accounts, e, now) == Verified
    ensures Signup(acc, username, Some(e), password, age, now).reply.status == Http.Created ==>
      PhaseOf(acc, e, now) == Verified && PhaseOf(Signup(acc, username, Some(e), password, age, now).accounts, e, now) == Consumed
  {
  }

  /**
   * After a code is sent, the code itself verifies while the record is live,
   * and the code of any other draw is rejected; verifying does not use the
   * code up, so the same code verifies again.
   */
  lemma {:induction false} OtpRoundTrip(acc: Accounts, e: Email, draw: SixDigit, other: SixDigit,
                                        delivered: bool, sentAt: int, now: int)
    requires e != "" && other != draw
    requires sentAt <= now < sentAt + TtlMs
    ensures var sent := SendOtp(acc, Some(e), draw, delivered, sentAt).accounts;
      && VerifyOtp(sent, Some(e), Some(DecimalString(other)), now).reply == Failed(Http.BadRequest, InvalidOtp)
      && VerifyOtp(sent, Some(e), Some(DecimalString(draw)), now).reply.status == Http.Ok
      && VerifyOtp(VerifyOtp(sent, Some(e), Some(DecimalString(draw)), now).accounts,
                   Some(e), Some(DecimalString(draw)), now).reply.status == Http.Ok
  {
    DistinctDrawsDistinctCodes(draw, other);
    SixDigitCode(draw);
  }

  /** Once the TTL has run out, neither verify nor signup sees the record. */
  lemma ExpiredCodeIgnored(acc: Accounts, e: Email, otp: Option<string>, username: Option<string>,
                           password: Option<string>, age: Option<int>, now: int)
    requires e in acc.otps && !IsLive(acc.otps[e], now)
    ensures VerifyOtp(acc, Some(e), otp, now).reply.status == Http.BadRequest
    ensures Signup(acc, username, Some(e), password, age, now).reply.status == Http.BadRequest
    ensures VerifyOtp(acc, Some(e), otp, now).reply == VerifyOtp(acc.(otps := acc.otps - {e}), Some(e), otp, now).reply
    ensures Signup(acc, username, Some(e), password, age, now).reply
         == Signup(acc.(otps := acc.otps - {e}), username, Some(e), password, age, now).reply
  {
  }

  /**
   * The whole flow for a new email: send, verify with the emailed code,
   * sign up (201 with the new id), after which the password logs in and any
   * other password does not; a repeated signup is then refused as NOT
   * VERIFIED, since the signup deleted the code record and the code check
   * comes before the user check.
   */
  lemma {:induction false} RegistrationScenario(acc: Accounts, e: Email, draw: SixDigit, username: string,
                                                password: string, wrong: string, age: Option<int>,
                                                t0: int, t1: int, t2: int)
    requires e != "" && username != "" && password != "" && wrong != password
    requires e !in acc.users
    requires t0 <= t1 <= t2 < t0 + TtlMs
    ensures var s1 := SendOtp(acc, Some(e), draw, true, t0);
      var s2 := VerifyOtp(s1.accounts, Some(e), Some(DecimalString(draw)), t1);
      var s3 := Signup(s2.accounts, Some(username), Some(e), Some(password), age, t2);
      var s4 := Signup(s3.accounts, Some(username), Some(e), Some(password), age, t2);
      && s1.reply.status == Http.Ok
      && s2.reply.status == Http.Ok
      && s3.reply.status == Http.Created && s3.reply.userId == Some(acc.nextUserId)
      && Login(s3.accounts.users, e, password).status == Http.Ok
      && Login(s3.accounts.users, e, wrong).status == Http.Unauthorized
      && s4.reply == Failed(Http.BadRequest, NotVerified)
  {
  }

  /**
   * createUser does no code check: its answer and the users it leaves do
   * not depend on the code records at all.
   */
  lemma CreateUserIgnoresOtp(acc: Accounts, otps: map<Email, OtpRecord>, reg: Registration)
    ensures CreateUser(acc.(otps := otps), reg).reply == CreateUser(acc, reg).reply
    ensures CreateUser(acc.(otps := otps), reg).accounts.users == CreateUser(acc, reg).accounts.users
  {
  }

  /** A request that may change the state. Login and logout change nothing and are left out. */
  datatype UserRequest =
    | SendOtpReq(email: Option<string>, draw: SixDigit, delivered: bool, now: int)
    | VerifyOtpReq(email: Option<string>, otp: Option<string>, now: int)
    | SignupReq(username: Option<string>, email: Option<string>, password: Option<string>, age: Option<int>, now: int)
    | CreateUserReq(reg: Registration)

  /** The state after one request. */
  function Apply(acc: Accounts, req: UserRequest): (r: Accounts)
    ensures Consistent(acc) ==> Consistent(r)
  {
    match req
    case SendOtpReq(email, draw, delivered, now) => SendOtp(acc, email, draw, delivered, now).accounts
    case VerifyOtpReq(email, otp, now) => VerifyOtp(acc, email, otp, now).accounts
    case SignupReq(username, email, password, age, now) => Signup(acc, username, email, password, age, now).accounts
    case CreateUserReq(reg) => CreateUser(acc, reg).accounts
  }

  /** The state after a sequence of requests, handled in order. */
  function Run(acc: Accounts, reqs: seq<UserRequest>): (r: Accounts)
    ensures Consistent(acc) ==> Consistent(r)
    decreases |reqs|
  {
    if reqs == [] then acc else Run(Apply(acc, reqs[0]), reqs[1..])
  }

  /** Users are never changed or removed: a registered user survives any run as it was. */
  lemma {:induction false} UsersPersist(acc: Accounts, reqs: seq<UserRequest>, e: Email)
    requires e in acc.users
    ensures e in Run(acc, reqs).users && Run(acc, reqs).users[e] == acc.users[e]
    decreases |reqs|
  {
    if reqs != [] {
      UsersPersist(Apply(acc, reqs[0]), reqs[1..], e);
    }
  }

  /** The request is not a createUser for `e`, the one route that registers without a code. */
  predicate NotCreateFor(req: UserRequest, e: Email) {
    req.CreateUserReq? ==> req.reg.email != e
  }

  /** Request `i` of the run is a verify-otp for `e` that succeeds in the state the run has reached. */
  predicate VerifiedAt(acc: Accounts, reqs: seq<UserRequest>, e: Email, i: nat)
    requires i < |reqs|
  {
    && reqs[i].VerifyOtpReq? && reqs[i].email == Some(e)
    && VerifyOtp(Run(acc, reqs[..i]), reqs[i].email, reqs[i].otp, reqs[i].now).reply.status == Http.Ok
  }

  /**
   * Signup is gated by a successful verification: starting with `e`
   * unregistered and without a verified code, a run in which no verify-otp
   * for `e` succeeds (failed attempts, whatever code they offer, are allowed)
   * and no createUser bypasses the gate leaves `e`'s record unverified and
   * never registers `e`.
   */
  lemma {:induction false} SignupNeedsVerify(acc: Accounts, reqs: seq<UserRequest>, e: Email)
    requires e !in acc.users
    requires e in acc.otps ==> !acc.otps[e].isVerified
    requires forall i :: 0 <= i < |reqs| ==> NotCreateFor(reqs[i], e)
    requires forall i :: 0 <= i < |reqs| ==> !VerifiedAt(acc, reqs, e, i)
    ensures e !in Run(acc, reqs).users
    ensures e in Run(acc, reqs).otps ==> !Run(acc, reqs).otps[e].isVerified
    decreases |reqs|
  {
    if reqs != [] {
      var next := Apply(acc, reqs[0]);
      assert e !in next.users && (e in next.otps ==> !next.otps[e].isVerified) by {
        match reqs[0]
        case SendOtpReq(email, draw, delivered, now) =>
        case VerifyOtpReq(email, otp, now) =>
          assert reqs[..0] == [];
          assert !VerifiedAt(acc, reqs, e, 0);
        case SignupReq(username, email, password, age, now) =>
        case CreateUserReq(reg) =>
          assert NotCreateFor(reqs[0], e);
      }
      var rest := reqs[1..];
      forall i | 0 <= i < |rest| ensures NotCreateFor(rest[i], e) && !VerifiedAt(next, rest, e, i) {
        assert rest[i] == reqs[i + 1];
        assert NotCreateFor(reqs[i + 1], e) && !VerifiedAt(acc, reqs, e, i + 1);
        var prefix := reqs[..i + 1];
        assert prefix[0] == reqs[0] && prefix[1..] == rest[..i];
        assert Run(acc, prefix) == Run(next, rest[..i]);
      }
      SignupNeedsVerify(next, rest, e);
    }
  }

  // ---- The service, updated in place ----

  /** The OTP and user collections, changed by the registration routes. */
  class UserService {
    var otps: map<Email, OtpRecord>
    var users: map<Email, User>
    var nextUserId: UserId

    function State(): Accounts
      reads this
    {
      Accounts(otps, users, nextUserId)
    }

    ghost predicate Valid()
      reads this
    {
      Consistent(State())
    }

    constructor ()
      ensures Valid() && otps == map[] && users == map[]
    {
      otps := map[];
      users := map[];
      nextUserId := 0;
    }

    /** The guard, the code, the upsert, then the email; the record stays even when delivery fails. */
    method HandleSendOtp(email: Option<string>, draw: SixDigit, delivered: bool, now: int) returns (reply: Reply)
      requires Valid()
      modifies this
      ensures Valid()
      ensures Step(reply, State()) == SendOtp(old(State()), email, draw, delivered, now)
    {
      if Falsy(email) {
        return Failed(Http.BadRequest, EmailRequired);
      }
      var code := DecimalString(draw);
      SixDigitCode(draw);
      var rec := NewOtpRecord(email, Some(code), Some(false), Some(now), now).value;
      otps := otps[email.value := rec];
      if delivered {
        reply := Reply(Http.Ok, OtpSentMessage, None, None);
      } else {
        reply := Failed(Http.InternalError, SendFailed);
      }
    }

    /** The guard, `findOne({ email, otp })`, then `isVerified = true` and `save()`. */
    method HandleVerifyOtp(email: Option<string>, otp: Option<string>, now: int) returns (reply: Reply)
      requires Valid()
      modifies this
      ensures Valid()
      ensures Step(reply, State()) == VerifyOtp(old(State()), email, otp, now)
    {
      if Falsy(email) || Falsy(otp) {
        return Failed(Http.BadRequest, EmailAndOtpRequired);
      }
      var found := if CodeMatches(otps, email.value, otp.value, now) then Some(otps[email.value]) else None;
      if found.None? {
        return Failed(Http.BadRequest, InvalidOtp);
      }
      var rec := found.value.(isVerified := true);
      otps := otps[email.value := rec];
      reply := Reply(Http.Ok, OtpVerified, None, None);
    }

    /** The guards in order, then `User.create`, then `OTP.deleteOne`, then the token. */
    method HandleSignup(username: Option<string>, email: Option<string>, password: Option<string>,
                        age: Option<int>, now: int) returns (reply: Reply)
      requires Valid()
      modifies this
      ensures Valid()
      ensures Step(reply, State()) == Signup(old(State()), username, email, password, age, now)
    {
      if Falsy(username) || Falsy(email) || Falsy(password) {
        return Failed(Http.BadRequest, AllFieldsRequired);
      }
      var e := email.value;
      if !HasVerifiedCode(otps, e, now) {
        return Failed(Http.BadRequest, NotVerified);
      }
      if e in users {
        return Failed(Http.BadRequest, UserExists);
      }
      var user := User(nextUserId, username.value, e, Hash(password.value), age);
      users := users[e := user];
      nextUserId := nextUserId + 1;
      otps := otps - {e};
      reply := Reply(Http.Created, Registered, Some(user.id), Some(PlainCookie(Claims(Some(user.id), e, None))));
    }

    /** `User.create` with the hashed password, then the token; a taken email fails the insert. */
    method HandleCreateUser(reg: Registration) returns (reply: Reply)
      requires Valid()
      modifies this
      ensures Valid()
      ensures Step(reply, State()) == CreateUser(old(State()), reg)
    {
      if reg.email in users {
        return Failed(Http.InternalError, ServerError);
      }
      var user := User(nextUserId, reg.username, reg.email, Hash(reg.password), reg.age);
      users := users[reg.email := user];
      nextUserId := nextUserId + 1;
      reply := Reply(Http.Created, NewUserCreated, Some(user.id), Some(PlainCookie(Claims(None, reg.email, None))));
    }
  }
}
