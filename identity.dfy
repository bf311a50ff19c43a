/** The identity routes of `server/src/auth.routes.js`: email and phone
    normalisation, the admin flag, the six-digit one-time codes, and the
    signup, check-user, is-admin-email, login, request-otp, verify-otp and
    update-profile handlers.

    Each state-changing handler appears twice: a function `...Step` from the
    old tables and the request to the reply and the new tables, whose
    postconditions state what the handler promises, and a method of the same
    name that performs the handler's SQL statements one by one on a `Db` and is
    proved to end in exactly the state the function describes. bcrypt, uuid,
    Math.random and the clock are parameters. */
module Identity {
  import opened Wrappers
  import opened Text
  import opened Store

  /** `bcrypt.hash(plain, 10)` with the salt this request happens to draw. */
  type Hasher = string -> string

  /** `bcrypt.compare(plain, hash)`. */
  type Matcher = (string, string) -> bool

  /** Expiry of a one-time code: five minutes. */
  const OtpLifetimeMs: int := 5 * 60 * 1000

  /** A challenge with this many failed attempts is blocked. */
  const MaxOtpAttempts: nat := 5

  /** `Math.floor(Math.random() * 900000)` is below this bound. */
  const OtpDrawRange: nat := 900000

  const EmailAndPasswordRequired := "Email and password are required"
  const NameRequired := "Name is required"
  const MobileRequired := "Mobile number is required"
  const AddressRequired := "Address is required"
  const EmailAlreadyRegistered := "Email already registered"
  const ServerError := "Server error"
  const EmailAndPhoneRequired := "Email and phone are required"
  const AdminRequiresOtp := "Admin login requires OTP. Please request an OTP and verify to continue."
  const InvalidCredentials := "Invalid credentials"
  const VerifyEmailFirst := "Please verify your email using OTP to continue."
  const EmailRequired := "Email is required"
  const AccountNotFound := "Account not found. Please sign up first."
  const EmailAndCodeRequired := "Email and code are required"
  const InvalidCode := "Invalid code"
  const TooManyAttempts := "Too many attempts. Request a new OTP."
  const OtpExpired := "OTP expired. Request a new one."
  const NotAuthenticated := "Not authenticated"
  const ProfileFieldsRequired := "Name, phone, and address are required"

  // ---------------------------------------------------------------------------
  // Normalisation

  /** `String(email || '').trim().toLowerCase()`. */
  function NormalizeEmail(email: string): (r: string)
    ensures IsTrimmed(r) && HasNoUpper(r)
    ensures |r| <= |email|
  {
    LowerKeepsTrimmed(Trim(email));
    Lower(Trim(email))
  }

  lemma NormalizeEmailIdempotent(email: string)
    ensures NormalizeEmail(NormalizeEmail(email)) == NormalizeEmail(email)
  {
    var n := NormalizeEmail(email);
    TrimOfTrimmed(n);
    LowerIdempotent(Trim(email));
  }

  /** Emails that differ only in letter case normalise alike. */
  lemma NormalizeEmailIgnoresCase(a: string, b: string)
    requires Lower(a) == Lower(b)
    ensures NormalizeEmail(a) == NormalizeEmail(b)
  {
    TrimLowerCommute(a);
    TrimLowerCommute(b);
  }

  /** `String(phone || '').replace(/\D/g, '')`. */
  function NormalizePhone(phone: string): (r: string)
    ensures AllDigits(r)
  {
    DigitsOnly(phone)
  }

  /** The normalised phone holds exactly the digits of the input, in order. */
  lemma NormalizePhoneKeepsDigits(phone: string)
    ensures IsSubsequence(NormalizePhone(phone), phone)
    ensures forall c :: IsDigit(c) ==> multiset(NormalizePhone(phone))[c] == multiset(phone)[c]
    ensures forall c :: !IsDigit(c) ==> multiset(NormalizePhone(phone))[c] == 0
  {
    DigitsOnlyKeepsDigits(phone);
  }

  lemma NormalizePhoneIdempotent(phone: string)
    ensures NormalizePhone(NormalizePhone(phone)) == NormalizePhone(phone)
  {
    DigitsOnlyIdempotent(phone);
  }

  /** `getAdminEmailNorm()`: ADMIN_EMAIL trimmed and lower-cased. */
  function AdminEmailNorm(cfg: Config): (r: string)
    ensures IsTrimmed(r) && HasNoUpper(r)
  {
    NormalizeEmail(cfg.adminEmail)
  }

  /** `(process.env.ADMIN_EMAIL || '').toLowerCase()`: lower-cased, NOT
      trimmed; used by signup, by the admin-flag synchronisation and by the
      admin guard. */
  function AdminEmailLower(cfg: Config): (r: string)
    ensures |r| == |cfg.adminEmail| && HasNoUpper(r)
    ensures IsTrimmed(r) <==> IsTrimmed(cfg.adminEmail)
  {
    Lower(cfg.adminEmail)
  }

  /** The two derivations of the admin email agree exactly when ADMIN_EMAIL
      has no leading or trailing space. */
  lemma AdminDerivationsAgree(cfg: Config)
    ensures AdminEmailLower(cfg) == AdminEmailNorm(cfg) <==> IsTrimmed(cfg.adminEmail)
  {
    var a := cfg.adminEmail;
    if IsTrimmed(a) {
      TrimOfTrimmed(a);
    }
    if AdminEmailLower(cfg) == AdminEmailNorm(cfg) {
      assert |Trim(a)| == |Lower(Trim(a))| == |Lower(a)| == |a|;
      TrimKeepsLength(a);
    }
  }

  /** The admin flag a user with this email must carry. Since a normalised
      email never has surrounding spaces, no email calls for the flag while
      ADMIN_EMAIL has them. */
  predicate ShouldBeAdmin(cfg: Config, email: string)
    ensures ShouldBeAdmin(cfg, email) ==> IsTrimmed(cfg.adminEmail)
  {
    AdminEmailLower(cfg) != "" && AdminEmailLower(cfg) == NormalizeEmail(email)
  }

  /** POST /is-admin-email: the normalised email is non-empty and equals the
      normalised ADMIN_EMAIL. It recognises the same emails as the admin-flag
      rule whenever ADMIN_EMAIL has no surrounding spaces. */
  predicate IsAdminEmail(cfg: Config, email: string)
    ensures IsTrimmed(cfg.adminEmail) ==> (IsAdminEmail(cfg, email) <==> ShouldBeAdmin(cfg, email))
  {
    AdminDerivationsAgree(cfg);
    NormalizeEmail(email) != "" && NormalizeEmail(email) == AdminEmailNorm(cfg)
  }

  // ---------------------------------------------------------------------------
  // One-time codes

  /** `String(Math.floor(100000 + Math.random() * 900000))` for the draw
      `Math.floor(Math.random() * 900000)`. */
  function OtpCode(draw: nat): (code: string)
    requires draw < OtpDrawRange
    ensures |code| == 6 && AllDigits(code)
    ensures DecimalValue(code) == 100000 + draw
    ensures 100000 <= DecimalValue(code) <= 999999
  {
    assert Pow10(5) == 100000 by {
      assert Pow10(1) == 10 && Pow10(2) == 100 && Pow10(3) == 1000 && Pow10(4) == 10000;
    }
    DecimalStringLength(100000 + draw, 6);
    DecimalString(100000 + draw)
  }

  /** The fresh inputs of `issueEmailOtp`: the row's uuid, the random draw and
      the clock reading. */
  datatype OtpDraw = OtpDraw(id: string, random: nat, now: int)

  /** The `otp_logins` row `issueEmailOtp` inserts. */
  function NewChallenge(d: OtpDraw, userId: string, email: string, hash: Hasher): OtpChallenge
    requires d.random < OtpDrawRange
  {
    OtpChallenge(d.id, userId, email, hash(OtpCode(d.random)), 0, d.now, d.now + OtpLifetimeMs, None)
  }

  /** The code echoed back outside production (`devOtp`). */
  function DevOtp(cfg: Config, d: OtpDraw): Option<string>
    requires d.random < OtpDrawRange
  {
    if cfg.production then None else Some(OtpCode(d.random))
  }

  predicate IsCandidate(c: OtpChallenge, email: string) {
    c.email == email && c.consumedAt.None?
  }

  /** `SELECT * FROM otp_logins WHERE email = ? AND consumed_at IS NULL ORDER
      BY created_at DESC LIMIT 1` (see `NewestUnconsumedIsNewest`). */
  function NewestUnconsumed(otps: seq<OtpChallenge>, email: string): (r: Option<nat>)
    ensures r.Some? ==> r.value < |otps| && IsCandidate(otps[r.value], email)
  {
    NewestIn(otps, email, |otps|)
  }

  /** The same query over the first `n` rows. */
  function NewestIn(otps: seq<OtpChallenge>, email: string, n: nat): (r: Option<nat>)
    requires n <= |otps|
    ensures r.Some? ==> r.value < n && IsCandidate(otps[r.value], email)
    decreases n
  {
    if n == 0 then None
    else
      var rest := NewestIn(otps, email, n - 1);
      if IsCandidate(otps[n - 1], email) && (rest.None? || otps[rest.value].createdAt <= otps[n - 1].createdAt)
      then Some(n - 1)
      else rest
  }

  lemma {:induction false} NewestInIsNewest(otps: seq<OtpChallenge>, email: string, n: nat)
    requires n <= |otps|
    ensures var r := NewestIn(otps, email, n);
            r.None? <==> forall j :: 0 <= j < n ==> !IsCandidate(otps[j], email)
    ensures var r := NewestIn(otps, email, n);
            r.Some? ==> IsCandidate(otps[r.value], email)
    ensures var r := NewestIn(otps, email, n);
            r.Some? ==> forall j :: 0 <= j < n && IsCandidate(otps[j], email) ==>
                          otps[j].createdAt <= otps[r.value].createdAt
    ensures var r := NewestIn(otps, email, n);
            r.Some? ==> forall j :: r.value < j < n && IsCandidate(otps[j], email) ==>
                          otps[j].createdAt < otps[r.value].createdAt
    decreases n
  {
    if n > 0 {
      NewestInIsNewest(otps, email, n - 1);
    }
  }

  /** The selected row is an unconsumed challenge for the email that no other
      one was created after; among rows created at the same instant it is the
      one inserted last; and nothing is selected only when there is no
      unconsumed challenge for the email at all. */
  lemma NewestUnconsumedIsNewest(otps: seq<OtpChallenge>, email: string)
    ensures var r := NewestUnconsumed(otps, email);
            r.None? <==> forall j :: 0 <= j < |otps| ==> !IsCandidate(otps[j], email)
    ensures var r := NewestUnconsumed(otps, email);
            r.Some? ==> IsCandidate(otps[r.value], email)
    ensures var r := NewestUnconsumed(otps, email);
            r.Some? ==> forall j :: 0 <= j < |otps| && IsCandidate(otps[j], email) ==>
                          otps[j].createdAt <= otps[r.value].createdAt
    ensures var r := NewestUnconsumed(otps, email);
            r.Some? ==> forall j :: r.value < j < |otps| && IsCandidate(otps[j], email) ==>
                          otps[j].createdAt < otps[r.value].createdAt
  {
    NewestInIsNewest(otps, email, |otps|);
  }

  /** The query reads only the email, consumed_at and created_at columns of
      the rows it ranges over. */
  lemma {:induction false} NewestInAgrees(a: seq<OtpChallenge>, b: seq<OtpChallenge>, email: string, n: nat)
    requires n <= |a| && n <= |b|
    requires forall j :: 0 <= j < n ==>
               a[j].email == b[j].email && a[j].consumedAt == b[j].consumedAt && a[j].createdAt == b[j].createdAt
    ensures NewestIn(a, email, n) == NewestIn(b, email, n)
    decreases n
  {
    if n > 0 {
      NewestInAgrees(a, b, email, n - 1);
    }
  }

  /** The checks verify-otp makes on the selected challenge, in their order. */
  datatype OtpVerdict = Blocked | Expired | Mismatch | Accepted

  function CheckChallenge(c: OtpChallenge, code: string, now: int, matches: Matcher): (v: OtpVerdict)
    ensures v == Blocked <==> c.attempts >= MaxOtpAttempts
    ensures v == Expired <==> c.attempts < MaxOtpAttempts && c.expiresAt < now
    ensures v == Mismatch <==> c.attempts < MaxOtpAttempts && now <= c.expiresAt && !matches(code, c.otpHash)
    ensures v == Accepted <==> c.attempts < MaxOtpAttempts && now <= c.expiresAt && matches(code, c.otpHash)
  {
    if c.attempts >= MaxOtpAttempts then Blocked
    else if c.expiresAt < now then Expired
    else if !matches(code, c.otpHash) then Mismatch
    else Accepted
  }

  // ---------------------------------------------------------------------------
  // The UPDATE statements of auth.routes.js

  /** `UPDATE otp_logins SET attempts = attempts + 1 WHERE id = ?` */
  function BumpAttempts(otps: seq<OtpChallenge>, id: string): (r: seq<OtpChallenge>)
    ensures SameOtpIds(otps, r)
  {
    seq(|otps|, i requires 0 <= i < |otps| =>
      if otps[i].id == id then otps[i].(attempts := otps[i].attempts + 1) else otps[i])
  }

  /** `UPDATE otp_logins SET consumed_at = ? WHERE id = ?` */
  function ConsumeChallenge(otps: seq<OtpChallenge>, id: string, now: int): (r: seq<OtpChallenge>)
    ensures SameOtpIds(otps, r)
  {
    seq(|otps|, i requires 0 <= i < |otps| =>
      if otps[i].id == id then otps[i].(consumedAt := Some(now)) else otps[i])
  }

  /** `UPDATE users SET is_admin = ? WHERE id = ?` */
  function SetUserAdmin(users: map<string, User>, id: string, flag: bool): (r: map<string, User>)
    ensures SameUserKeys(users, r)
  {
    map e | e in users :: if users[e].id == id then users[e].(isAdmin := flag) else users[e]
  }

  /** `UPDATE users SET email_verified = 1 WHERE id = ?` */
  function SetUserEmailVerified(users: map<string, User>, id: string): (r: map<string, User>)
    ensures SameUserKeys(users, r)
  {
    map e | e in users :: if users[e].id == id then users[e].(emailVerified := true) else users[e]
  }

  /** `UPDATE users SET name = ?, phone = ?, address = ?, phone_verified = 0 WHERE id = ?` */
  function SetUserProfile(users: map<string, User>, id: string, name: string, phone: string, address: string)
    : (r: map<string, User>)
    ensures SameUserKeys(users, r)
  {
    map e | e in users ::
      if users[e].id == id then users[e].(name := name, phone := phone, address := address, phoneVerified := false)
      else users[e]
  }

  /** With unique row ids, an update by id touches exactly the row at `i`. */
  lemma BumpAttemptsAt(otps: seq<OtpChallenge>, i: nat)
    requires UniqueOtpIds(otps) && i < |otps|
    ensures BumpAttempts(otps, otps[i].id) == otps[i := otps[i].(attempts := otps[i].attempts + 1)]
  {
  }

  lemma ConsumeChallengeAt(otps: seq<OtpChallenge>, i: nat, now: int)
    requires UniqueOtpIds(otps) && i < |otps|
    ensures ConsumeChallenge(otps, otps[i].id, now) == otps[i := otps[i].(consumedAt := Some(now))]
  {
  }

  lemma SetUserAdminAt(users: map<string, User>, e: string, flag: bool)
    requires UniqueUserIds(users) && e in users
    ensures SetUserAdmin(users, users[e].id, flag) == users[e := users[e].(isAdmin := flag)]
  {
    var r := SetUserAdmin(users, users[e].id, flag);
    forall x | x in users
      ensures r[x] == users[e := users[e].(isAdmin := flag)][x]
    {
      if x != e {
        assert users[x].id != users[e].id;
      }
    }
  }

  lemma SetUserEmailVerifiedAt(users: map<string, User>, e: string)
    requires UniqueUserIds(users) && e in users
    ensures SetUserEmailVerified(users, users[e].id) == users[e := users[e].(emailVerified := true)]
  {
    var r := SetUserEmailVerified(users, users[e].id);
    forall x | x in users
      ensures r[x] == users[e := users[e].(emailVerified := true)][x]
    {
      if x != e {
        assert users[x].id != users[e].id;
      }
    }
  }

  // ---------------------------------------------------------------------------
  // Admin-flag synchronisation and the session snapshot

  datatype Synced = Synced(users: map<string, User>, user: User)

  /** `syncAdminFlagForUser(db, user)`: the returned user carries the flag its
      email calls for; the table is written only when the in-memory flag
      disagreed, and then only the `is_admin` of the rows with the user's id. */
  function SyncAdminFlag(users: map<string, User>, cfg: Config, u: User): (s: Synced)
    ensures s.user == u.(isAdmin := ShouldBeAdmin(cfg, u.email))
    ensures u.isAdmin == ShouldBeAdmin(cfg, u.email) ==> s.users == users
    ensures u.isAdmin != ShouldBeAdmin(cfg, u.email) ==> s.users == SetUserAdmin(users, u.id, ShouldBeAdmin(cfg, u.email))
    ensures SameUserKeys(users, s.users)
  {
    var should := ShouldBeAdmin(cfg, u.email);
    if u.isAdmin != should then Synced(SetUserAdmin(users, u.id, should), u.(isAdmin := should))
    else Synced(users, u)
  }

  /** A second synchronisation changes nothing. */
  lemma SyncAdminFlagIdempotent(users: map<string, User>, cfg: Config, u: User)
    ensures var s := SyncAdminFlag(users, cfg, u); SyncAdminFlag(s.users, cfg, s.user) == s
  {
  }

  /** Synchronising a user loaded from a table with unique ids rewrites that
      user's row and no other. */
  lemma SyncAdminFlagRow(users: map<string, User>, cfg: Config, e: string)
    requires e in users && UniqueUserIds(users)
    ensures var s := SyncAdminFlag(users, cfg, users[e]); s.users == users[e := s.user]
  {
    var u := users[e];
    if u.isAdmin != ShouldBeAdmin(cfg, u.email) {
      SetUserAdminAt(users, e, ShouldBeAdmin(cfg, u.email));
    } else {
      assert users[e := u] == users;
    }
  }

  /** The user object saved into the session. */
  function SessionOf(u: User): SessionUser {
    SessionUser(u.id, u.email, u.name, u.phone, u.address, u.isAdmin, u.emailVerified, u.phoneVerified)
  }

  // ---------------------------------------------------------------------------
  // POST /signup

  datatype SignupRequest = SignupRequest(email: string, password: string, name: string, phone: string, address: string)

  predicate SignupFieldsPresent(req: SignupRequest) {
    req.email != "" && req.password != "" && req.name != "" && req.phone != "" && req.address != ""
  }

  /** The row signup inserts: unverified, admin iff the lower-cased ADMIN_EMAIL
      equals the normalised email. */
  function SignupUser(cfg: Config, req: SignupRequest, userId: string, now: int, hash: Hasher): User {
    var e := NormalizeEmail(req.email);
    User(userId, e, req.name, hash(req.password), now, NormalizePhone(req.phone), req.address,
         AdminEmailLower(cfg) != "" && AdminEmailLower(cfg) == e, false, false)
  }

  /** POST /signup. The reply carries `devOtp` (outside production) and never a session. */
  function SignupStep(t: Tables, cfg: Config, req: SignupRequest, userId: string, now: int, otp: OtpDraw, hash: Hasher)
    : (o: Outcome<Option<string>>)
    requires otp.random < OtpDrawRange
    ensures TablesValid(t) ==> TablesValid(o.tables)
    ensures o.tables.orders == t.orders
    ensures req.email == "" || req.password == "" ==> o == Outcome(Error(400, EmailAndPasswordRequired), t)
    ensures req.email != "" && req.password != "" && req.name == "" ==> o == Outcome(Error(400, NameRequired), t)
    ensures req.email != "" && req.password != "" && req.name != "" && req.phone == "" ==>
              o == Outcome(Error(400, MobileRequired), t)
    ensures req.email != "" && req.password != "" && req.name != "" && req.phone != "" && req.address == "" ==>
              o == Outcome(Error(400, AddressRequired), t)
    ensures SignupFieldsPresent(req) && NormalizeEmail(req.email) in t.users ==>
              o == Outcome(Error(409, EmailAlreadyRegistered), t)
    ensures o.reply.Ok? <==>
              SignupFieldsPresent(req) && NormalizeEmail(req.email) !in t.users
              && !UserIdTaken(t.users, userId) && !OtpIdTaken(t.otps, otp.id)
    ensures o.reply.Ok? ==>
              var e := NormalizeEmail(req.email);
              var u := SignupUser(cfg, req, userId, now, hash);
              o.reply.value == DevOtp(cfg, otp)
              && o.tables.users == t.users[e := u]
              && !u.emailVerified && !u.phoneVerified
              && o.tables.otps == t.otps + [NewChallenge(otp, userId, e, hash)]
  {
    if req.email == "" || req.password == "" then Outcome(Error(400, EmailAndPasswordRequired), t)
    else if req.name == "" then Outcome(Error(400, NameRequired), t)
    else if req.phone == "" then Outcome(Error(400, MobileRequired), t)
    else if req.address == "" then Outcome(Error(400, AddressRequired), t)
    else
      var e := NormalizeEmail(req.email);
      if e in t.users then Outcome(Error(409, EmailAlreadyRegistered), t)
      else if UserIdTaken(t.users, userId) then Outcome(Error(500, ServerError), t)
      else
        var u := SignupUser(cfg, req, userId, now, hash);
        InsertUserKeepsValid(t.users, u);
        var users := t.users[e := u];
        if OtpIdTaken(t.otps, otp.id) then Outcome(Error(500, ServerError), t.(users := users))
        else
          var c := NewChallenge(otp, userId, e, hash);
          AppendOtpKeepsValid(t.otps, c);
          Outcome(Ok(DevOtp(cfg, otp)), t.(users := users, otps := t.otps + [c]))
  }

  method Signup(db: Db, cfg: Config, req: SignupRequest, userId: string, now: int, otp: OtpDraw, hash: Hasher)
    returns (r: Reply<Option<string>>)
    requires db.Valid() && otp.random < OtpDrawRange
    modifies db
    ensures Outcome(r, db.Contents()) == SignupStep(old(db.Contents()), cfg, req, userId, now, otp, hash)
    ensures db.Valid()
  {
    if req.email == "" || req.password == "" { return Error(400, EmailAndPasswordRequired); }
    if req.name == "" { return Error(400, NameRequired); }
    if req.phone == "" { return Error(400, MobileRequired); }
    if req.address == "" { return Error(400, AddressRequired); }
    var emailNorm := NormalizeEmail(req.email);
    if emailNorm in db.users { return Error(409, EmailAlreadyRegistered); }
    var user := SignupUser(cfg, req, userId, now, hash);
    if UserIdTaken(db.users, userId) { return Error(500, ServerError); }
    db.users := db.users[emailNorm := user];
    r := IssueEmailOtp(db, cfg, user, emailNorm, otp, hash);
  }

  /** `issueEmailOtp`: appends one fresh challenge (or fails on an id clash). */
  method IssueEmailOtp(db: Db, cfg: Config, user: User, emailNorm: string, otp: OtpDraw, hash: Hasher)
    returns (r: Reply<Option<string>>)
    requires otp.random < OtpDrawRange
    modifies db
    ensures db.users == old(db.users) && db.orders == old(db.orders)
    ensures OtpIdTaken(old(db.otps), otp.id) ==> r == Error(500, ServerError) && db.otps == old(db.otps)
    ensures !OtpIdTaken(old(db.otps), otp.id) ==>
              r == Ok(DevOtp(cfg, otp)) && db.otps == old(db.otps) + [NewChallenge(otp, user.id, emailNorm, hash)]
  {
    if OtpIdTaken(db.otps, otp.id) { return Error(500, ServerError); }
    db.otps := db.otps + [NewChallenge(otp, user.id, emailNorm, hash)];
    r := Ok(DevOtp(cfg, otp));
  }

  // ---------------------------------------------------------------------------
  // POST /check-user (reads only)

  datatype UserCheck = Absent | Present(emailVerified: bool)

  /** An account is reported only when its stored phone, reduced to digits,
      is non-empty and equals the digits of the given phone. */
  function CheckUser(t: Tables, email: string, phone: string): (r: Reply<UserCheck>)
    ensures NormalizeEmail(email) == "" || NormalizePhone(phone) == "" <==> r == Error(400, EmailAndPhoneRequired)
    ensures r.Ok? && r.value.Present? <==>
              NormalizeEmail(email) != "" && NormalizeEmail(email) in t.users && NormalizePhone(phone) != ""
              && NormalizePhone(t.users[NormalizeEmail(email)].phone) == NormalizePhone(phone)
    ensures r.Ok? && r.value.Present? ==> r.value.emailVerified == t.users[NormalizeEmail(email)].emailVerified
  {
    var e := NormalizeEmail(email);
    var p := NormalizePhone(phone);
    if e == "" || p == "" then Error(400, EmailAndPhoneRequired)
    else if e !in t.users then Ok(Absent)
    else
      var stored := NormalizePhone(t.users[e].phone);
      if stored == "" || stored != p then Ok(Absent) else Ok(Present(t.users[e].emailVerified))
  }

  // ---------------------------------------------------------------------------
  // POST /login

  /** POST /login. The configured admin is always refused before any lookup;
      an unknown email and a wrong password get the same reply. */
  function LoginStep(t: Tables, cfg: Config, email: string, password: string, matches: Matcher)
    : (o: Outcome<SessionUser>)
    ensures TablesValid(t) ==> TablesValid(o.tables)
    ensures o.tables.otps == t.otps && o.tables.orders == t.orders
    ensures email == "" || password == "" ==> o == Outcome(Error(400, EmailAndPasswordRequired), t)
    ensures email != "" && password != "" && IsAdminEmail(cfg, email) ==>
              o == Outcome(Error(403, AdminRequiresOtp), t)
    ensures email != "" && password != "" && !IsAdminEmail(cfg, email)
            && (NormalizeEmail(email) !in t.users || !matches(password, t.users[NormalizeEmail(email)].passwordHash)) ==>
              o == Outcome(Error(401, InvalidCredentials), t)
    ensures email != "" && password != "" && !IsAdminEmail(cfg, email) && NormalizeEmail(email) in t.users
            && matches(password, t.users[NormalizeEmail(email)].passwordHash)
            && !t.users[NormalizeEmail(email)].emailVerified ==>
              o == Outcome(Error(403, VerifyEmailFirst), t)
    ensures o.reply.Ok? <==>
              email != "" && password != "" && !IsAdminEmail(cfg, email) && NormalizeEmail(email) in t.users
              && matches(password, t.users[NormalizeEmail(email)].passwordHash)
              && t.users[NormalizeEmail(email)].emailVerified
    ensures o.reply.Error? ==> o.tables == t
    ensures o.reply.Ok? ==>
              var u := t.users[NormalizeEmail(email)];
              o.reply.value == SessionOf(u.(isAdmin := ShouldBeAdmin(cfg, u.email)))
              && o.tables.users == SyncAdminFlag(t.users, cfg, u).users
  {
    if email == "" || password == "" then Outcome(Error(400, EmailAndPasswordRequired), t)
    else
      var e := NormalizeEmail(email);
      var admin := AdminEmailNorm(cfg);
      if admin != "" && e == admin then Outcome(Error(403, AdminRequiresOtp), t)
      else if e !in t.users then Outcome(Error(401, InvalidCredentials), t)
      else if !matches(password, t.users[e].passwordHash) then Outcome(Error(401, InvalidCredentials), t)
      else if !t.users[e].emailVerified then Outcome(Error(403, VerifyEmailFirst), t)
      else
        var s := SyncAdminFlag(t.users, cfg, t.users[e]);
        SameUserKeysKeepValid(t.users, s.users);
        Outcome(Ok(SessionOf(s.user)), t.(users := s.users))
  }

  method SyncAdminFlagForUser(db: Db, cfg: Config, user: User) returns (synced: User)
    modifies db
    ensures db.otps == old(db.otps) && db.orders == old(db.orders)
    ensures Synced(db.users, synced) == SyncAdminFlag(old(db.users), cfg, user)
  {
    var shouldBeAdmin := ShouldBeAdmin(cfg, user.email);
    synced := user;
    if user.isAdmin != shouldBeAdmin {
      db.users := SetUserAdmin(db.users, user.id, shouldBeAdmin);
      synced := user.(isAdmin := shouldBeAdmin);
    }
  }

  method Login(db: Db, cfg: Config, email: string, password: string, matches: Matcher)
    returns (r: Reply<SessionUser>)
    requires db.Valid()
    modifies db
    ensures Outcome(r, db.Contents()) == LoginStep(old(db.Contents()), cfg, email, password, matches)
    ensures db.Valid()
  {
    if email == "" || password == "" { return Error(400, EmailAndPasswordRequired); }
    var emailNorm := NormalizeEmail(email);
    var adminEmailNorm := AdminEmailNorm(cfg);
    if adminEmailNorm != "" && emailNorm == adminEmailNorm { return Error(403, AdminRequiresOtp); }
    if emailNorm !in db.users { return Error(401, InvalidCredentials); }
    var user := db.users[emailNorm];
    if !matches(password, user.passwordHash) { return Error(401, InvalidCredentials); }
    if !user.emailVerified { return Error(403, VerifyEmailFirst); }
    user := SyncAdminFlagForUser(db, cfg, user);
    r := Ok(SessionOf(user));
  }

  // ---------------------------------------------------------------------------
  // POST /request-otp

  /** The account request-otp creates for the configured admin on first use:
      an admin, unverified, with a password nobody knows. */
  function AdminUser(userId: string, email: string, now: int, unusablePasswordHash: string): User {
    User(userId, email, "Admin", unusablePasswordHash, now, "", "", true, false, false)
  }

  /** POST /request-otp. `adminId` and `unusablePassword` are the two uuids
      drawn when the admin account is provisioned. */
  function RequestOtpStep(t: Tables, cfg: Config, email: string, adminId: string, unusablePassword: string,
                          otp: OtpDraw, hash: Hasher): (o: Outcome<Option<string>>)
    requires otp.random < OtpDrawRange
    ensures TablesValid(t) ==> TablesValid(o.tables)
    ensures o.tables.orders == t.orders
    ensures NormalizeEmail(email) == "" ==> o == Outcome(Error(400, EmailRequired), t)
    ensures NormalizeEmail(email) != "" && NormalizeEmail(email) !in t.users && !IsAdminEmail(cfg, email) ==>
              o == Outcome(Error(404, AccountNotFound), t)
    ensures o.reply.Ok? <==>
              NormalizeEmail(email) != ""
              && (NormalizeEmail(email) in t.users || (IsAdminEmail(cfg, email) && !UserIdTaken(t.users, adminId)))
              && !OtpIdTaken(t.otps, otp.id)
    ensures o.reply.Ok? ==>
              var e := NormalizeEmail(email);
              o.reply.value == DevOtp(cfg, otp)
              && (e in t.users ==> o.tables.users == t.users)
              && (e !in t.users ==> o.tables.users == t.users[e := AdminUser(adminId, e, otp.now, hash(unusablePassword))])
              && e in o.tables.users
              && o.tables.otps == t.otps + [NewChallenge(otp, o.tables.users[e].id, e, hash)]
  {
    var e := NormalizeEmail(email);
    if e == "" then Outcome(Error(400, EmailRequired), t)
    else
      var admin := AdminEmailNorm(cfg);
      var provision := e !in t.users && admin != "" && e == admin;
      if provision && UserIdTaken(t.users, adminId) then Outcome(Error(500, ServerError), t)
      else
        var u := AdminUser(adminId, e, otp.now, hash(unusablePassword));
        var users := if provision then t.users[e := u] else t.users;
        if e !in users then Outcome(Error(404, AccountNotFound), t)
        else if OtpIdTaken(t.otps, otp.id) then
          (if provision then InsertUserKeepsValid(t.users, u); Outcome(Error(500, ServerError), t.(users := users))
           else Outcome(Error(500, ServerError), t.(users := users)))
        else
          var c := NewChallenge(otp, users[e].id, e, hash);
          AppendOtpKeepsValid(t.otps, c);
          if provision then
            InsertUserKeepsValid(t.users, u);
            Outcome(Ok(DevOtp(cfg, otp)), t.(users := users, otps := t.otps + [c]))
          else Outcome(Ok(DevOtp(cfg, otp)), t.(users := users, otps := t.otps + [c]))
  }

  method RequestOtp(db: Db, cfg: Config, email: string, adminId: string, unusablePassword: string,
                    otp: OtpDraw, hash: Hasher) returns (r: Reply<Option<string>>)
    requires db.Valid() && otp.random < OtpDrawRange
    modifies db
    ensures Outcome(r, db.Contents()) == RequestOtpStep(old(db.Contents()), cfg, email, adminId, unusablePassword, otp, hash)
    ensures db.Valid()
  {
    var emailNorm := NormalizeEmail(email);
    if emailNorm == "" { return Error(400, EmailRequired); }
    var adminEmailNorm := AdminEmailNorm(cfg);
    if emailNorm !in db.users && adminEmailNorm != "" && emailNorm == adminEmailNorm {
      if UserIdTaken(db.users, adminId) { return Error(500, ServerError); }
      db.users := db.users[emailNorm := AdminUser(adminId, emailNorm, otp.now, hash(unusablePassword))];
    }
    if emailNorm !in db.users { return Error(404, AccountNotFound); }
    var user := db.users[emailNorm];
    r := IssueEmailOtp(db, cfg, user, emailNorm, otp, hash);
  }

  // ---------------------------------------------------------------------------
  // POST /verify-otp

  /** The challenge verify-otp looks at for a (normalised) email, if any. */
  function Selected(t: Tables, e: string): Option<nat> {
    NewestUnconsumed(t.otps, e)
  }

  /** The request passes the field checks, the account exists and it has a
      pending challenge, whose verdict is then decisive. */
  predicate HasChallenge(t: Tables, email: string, code: string) {
    var e := NormalizeEmail(email);
    e != "" && Trim(code) != "" && e in t.users && Selected(t, e).Some?
  }

  function Verdict(t: Tables, email: string, code: string, now: int, matches: Matcher): OtpVerdict
    requires HasChallenge(t, email, code)
  {
    CheckChallenge(t.otps[Selected(t, NormalizeEmail(email)).value], Trim(code), now, matches)
  }

  /** POST /verify-otp. Only the newest unconsumed challenge counts; it is
      refused when blocked, then when expired, then when the code does not
      match (which costs an attempt); otherwise it is consumed, the email is
      verified and the admin flag resynchronised. What each guard answers is
      stated by `VerifyOtpOutcomes`. */
  function VerifyOtpStep(t: Tables, cfg: Config, email: string, code: string, now: int, matches: Matcher)
    : (o: Outcome<SessionUser>)
    ensures o.tables.orders == t.orders
    ensures o.reply.Error? ==> o.tables.users == t.users
    ensures o.reply.Ok? ==> o.reply.value.emailVerified
  {
    var e := NormalizeEmail(email);
    var k := Trim(code);
    if e == "" || k == "" then Outcome(Error(400, EmailAndCodeRequired), t)
    else if e !in t.users then Outcome(Error(401, InvalidCode), t)
    else match Selected(t, e)
      case None => Outcome(Error(401, InvalidCode), t)
      case Some(i) => VerifyChallenge(t, cfg, e, k, i, now, matches)
  }

  /** Verify-otp once challenge row `i` has been selected for email `e`. */
  function VerifyChallenge(t: Tables, cfg: Config, e: string, k: string, i: nat, now: int, matches: Matcher)
    : (o: Outcome<SessionUser>)
    requires i < |t.otps| && e in t.users
    ensures o.tables.orders == t.orders
    ensures o.reply.Error? ==> o.tables.users == t.users
    ensures o.reply.Ok? ==> o.reply.value.emailVerified
  {
    var c := t.otps[i];
    if c.attempts >= MaxOtpAttempts then Outcome(Error(429, TooManyAttempts), t)
    else if c.expiresAt < now then Outcome(Error(401, OtpExpired), t)
    else if !matches(k, c.otpHash) then Outcome(Error(401, InvalidCode), t.(otps := BumpAttempts(t.otps, c.id)))
    else
      var user := t.users[e];
      var s := SyncAdminFlag(SetUserEmailVerified(t.users, user.id), cfg, user.(emailVerified := true));
      Outcome(Ok(SessionOf(s.user)), t.(users := s.users, otps := ConsumeChallenge(t.otps, c.id, now)))
  }

  /** Verify-otp keeps the schema's constraints. */
  lemma VerifyOtpKeepsValid(t: Tables, cfg: Config, email: string, code: string, now: int, matches: Matcher)
    requires TablesValid(t)
    ensures TablesValid(VerifyOtpStep(t, cfg, email, code, now, matches).tables)
  {
    var e := NormalizeEmail(email);
    if e != "" && Trim(code) != "" && e in t.users && Selected(t, e).Some? {
      VerifyChallengeKeepsValid(t, cfg, e, Trim(code), Selected(t, e).value, now, matches);
    }
  }

  lemma VerifyChallengeKeepsValid(t: Tables, cfg: Config, e: string, k: string, i: nat, now: int, matches: Matcher)
    requires TablesValid(t) && i < |t.otps| && e in t.users
    ensures TablesValid(VerifyChallenge(t, cfg, e, k, i, now, matches).tables)
  {
    var c := t.otps[i];
    if c.attempts < MaxOtpAttempts && now <= c.expiresAt {
      if !matches(k, c.otpHash) {
        var otps := BumpAttempts(t.otps, c.id);
        SameOtpIdsKeepValid(t.otps, otps);
        assert VerifyChallenge(t, cfg, e, k, i, now, matches).tables == t.(otps := otps);
      } else {
        var user := t.users[e];
        var users := SetUserEmailVerified(t.users, user.id);
        var s := SyncAdminFlag(users, cfg, user.(emailVerified := true));
        var otps := ConsumeChallenge(t.otps, c.id, now);
        SameUserKeysKeepValid(t.users, users);
        SameUserKeysKeepValid(users, s.users);
        SameOtpIdsKeepValid(t.otps, otps);
        assert VerifyChallenge(t, cfg, e, k, i, now, matches).tables == Tables(s.users, otps, t.orders);
      }
    }
  }

  /** The answer of each guard of verify-otp, in the handler's order: missing
      fields, no account or no pending challenge, a blocked challenge, an
      expired one, a wrong code (which changes no user), and success exactly
      when the verdict accepts the code. */
  lemma VerifyOtpOutcomes(t: Tables, cfg: Config, email: string, code: string, now: int, matches: Matcher)
    ensures var o := VerifyOtpStep(t, cfg, email, code, now, matches);
            NormalizeEmail(email) == "" || Trim(code) == "" ==> o == Outcome(Error(400, EmailAndCodeRequired), t)
    ensures var o := VerifyOtpStep(t, cfg, email, code, now, matches);
            NormalizeEmail(email) != "" && Trim(code) != "" && !HasChallenge(t, email, code) ==>
              o == Outcome(Error(401, InvalidCode), t)
    ensures var o := VerifyOtpStep(t, cfg, email, code, now, matches);
            HasChallenge(t, email, code) && Verdict(t, email, code, now, matches) == Blocked ==>
              o == Outcome(Error(429, TooManyAttempts), t)
    ensures var o := VerifyOtpStep(t, cfg, email, code, now, matches);
            HasChallenge(t, email, code) && Verdict(t, email, code, now, matches) == Expired ==>
              o == Outcome(Error(401, OtpExpired), t)
    ensures var o := VerifyOtpStep(t, cfg, email, code, now, matches);
            HasChallenge(t, email, code) && Verdict(t, email, code, now, matches) == Mismatch ==>
              o.reply == Error(401, InvalidCode) && o.tables.users == t.users
    ensures var o := VerifyOtpStep(t, cfg, email, code, now, matches);
            o.reply.Ok? <==> HasChallenge(t, email, code) && Verdict(t, email, code, now, matches) == Accepted
    ensures var o := VerifyOtpStep(t, cfg, email, code, now, matches);
            o.reply.Ok? ==> o.reply.value.emailVerified
  {
    if HasChallenge(t, email, code) {
      var e := NormalizeEmail(email);
      VerifyOtpSelects(t, cfg, email, code, now, matches);
      ChallengeVerdicts(t, cfg, e, Trim(code), Selected(t, e).value, now, matches);
    }
  }

  /** What verify-otp answers for each verdict on the selected challenge. */
  lemma ChallengeVerdicts(t: Tables, cfg: Config, e: string, k: string, i: nat, now: int, matches: Matcher)
    requires i < |t.otps| && e in t.users
    ensures var v := CheckChallenge(t.otps[i], k, now, matches);
            var o := VerifyChallenge(t, cfg, e, k, i, now, matches);
            (v == Blocked ==> o == Outcome(Error(429, TooManyAttempts), t))
            && (v == Expired ==> o == Outcome(Error(401, OtpExpired), t))
            && (v == Mismatch ==> o.reply == Error(401, InvalidCode) && o.tables.users == t.users)
            && (o.reply.Ok? <==> v == Accepted)
            && (o.reply.Ok? ==> o.reply.value.emailVerified)
  {
    var c := t.otps[i];
    if c.attempts < MaxOtpAttempts && now <= c.expiresAt && matches(k, c.otpHash) {
      var user := t.users[e];
      var s := SyncAdminFlag(SetUserEmailVerified(t.users, user.id), cfg, user.(emailVerified := true));
      assert s.user.emailVerified;
    }
  }

  /** Past the field and account checks, verify-otp judges the selected challenge. */
  lemma VerifyOtpSelects(t: Tables, cfg: Config, email: string, code: string, now: int, matches: Matcher)
    requires HasChallenge(t, email, code)
    ensures VerifyOtpStep(t, cfg, email, code, now, matches)
              == VerifyChallenge(t, cfg, NormalizeEmail(email), Trim(code), Selected(t, NormalizeEmail(email)).value, now, matches)
  {
  }

  /** A wrong code costs the selected challenge one attempt and changes nothing else. */
  lemma VerifyOtpMismatch(t: Tables, cfg: Config, email: string, code: string, now: int, matches: Matcher)
    requires UniqueOtpIds(t.otps) && HasChallenge(t, email, code) && Verdict(t, email, code, now, matches) == Mismatch
    ensures var i := Selected(t, NormalizeEmail(email)).value;
            VerifyOtpStep(t, cfg, email, code, now, matches)
              == Outcome(Error(401, InvalidCode), t.(otps := t.otps[i := t.otps[i].(attempts := t.otps[i].attempts + 1)]))
  {
    var e := NormalizeEmail(email);
    var i := Selected(t, e).value;
    VerifyOtpSelects(t, cfg, email, code, now, matches);
    ChallengeMismatch(t, cfg, e, Trim(code), i, now, matches);
    BumpAttemptsAt(t.otps, i);
  }

  lemma ChallengeMismatch(t: Tables, cfg: Config, e: string, k: string, i: nat, now: int, matches: Matcher)
    requires i < |t.otps| && e in t.users
    requires t.otps[i].attempts < MaxOtpAttempts && now <= t.otps[i].expiresAt && !matches(k, t.otps[i].otpHash)
    ensures VerifyChallenge(t, cfg, e, k, i, now, matches)
              == Outcome(Error(401, InvalidCode), t.(otps := BumpAttempts(t.otps, t.otps[i].id)))
  {
  }

  /** On a table with unique ids, marking row `e` verified and then
      synchronising its admin flag rewrites that row and no other. */
  lemma VerifiedUserRow(users: map<string, User>, cfg: Config, e: string)
    requires UsersKeyedByEmail(users) && UniqueUserIds(users) && e in users
    ensures var u := users[e].(emailVerified := true, isAdmin := ShouldBeAdmin(cfg, users[e].email));
            SyncAdminFlag(SetUserEmailVerified(users, users[e].id), cfg, users[e].(emailVerified := true))
              == Synced(users[e := u], u)
  {
    var v := users[e].(emailVerified := true);
    var u := v.(isAdmin := ShouldBeAdmin(cfg, v.email));
    var verified := SetUserEmailVerified(users, users[e].id);
    SetUserEmailVerifiedAt(users, e);
    assert verified[e] == v;
    SameUserKeysKeepValid(users, verified);
    SyncAdminFlagRow(verified, cfg, e);
    UpdateTwice(users, e, v, u);
  }

  lemma UpdateTwice(m: map<string, User>, k: string, a: User, b: User)
    ensures m[k := a][k := b] == m[k := b]
  {
  }

  /** The success branch of verify-otp as the handler writes it. */
  lemma ChallengeAccepted(t: Tables, cfg: Config, e: string, k: string, i: nat, now: int, matches: Matcher)
    requires i < |t.otps| && e in t.users
    requires t.otps[i].attempts < MaxOtpAttempts && now <= t.otps[i].expiresAt && matches(k, t.otps[i].otpHash)
    ensures var user := t.users[e];
            var s := SyncAdminFlag(SetUserEmailVerified(t.users, user.id), cfg, user.(emailVerified := true));
            VerifyChallenge(t, cfg, e, k, i, now, matches)
              == Outcome(Ok(SessionOf(s.user)), t.(users := s.users, otps := ConsumeChallenge(t.otps, t.otps[i].id, now)))
  {
  }

  /** A correct code consumes the selected challenge, marks the account
      verified with the admin flag its email calls for, and signs it in. */
  lemma VerifyOtpAccepted(t: Tables, cfg: Config, email: string, code: string, now: int, matches: Matcher)
    requires TablesValid(t) && HasChallenge(t, email, code) && Verdict(t, email, code, now, matches) == Accepted
    ensures var e := NormalizeEmail(email);
            var i := Selected(t, e).value;
            var u := t.users[e].(emailVerified := true, isAdmin := ShouldBeAdmin(cfg, e));
            VerifyOtpStep(t, cfg, email, code, now, matches)
              == Outcome(Ok(SessionOf(u)), Tables(t.users[e := u], t.otps[i := t.otps[i].(consumedAt := Some(now))], t.orders))
  {
    var e := NormalizeEmail(email);
    var i := Selected(t, e).value;
    VerifyOtpSelects(t, cfg, email, code, now, matches);
    ChallengeAccepted(t, cfg, e, Trim(code), i, now, matches);
    ConsumeChallengeAt(t.otps, i, now);
    VerifiedUserRow(t.users, cfg, e);
  }

  method VerifyOtp(db: Db, cfg: Config, email: string, code: string, now: int, matches: Matcher)
    returns (r: Reply<SessionUser>)
    requires db.Valid()
    modifies db
    ensures Outcome(r, db.Contents()) == VerifyOtpStep(old(db.Contents()), cfg, email, code, now, matches)
    ensures db.Valid()
  {
    ghost var t := db.Contents();
    VerifyOtpKeepsValid(t, cfg, email, code, now, matches);
    var emailNorm := NormalizeEmail(email);
    var codeTrim := Trim(code);
    if emailNorm == "" || codeTrim == "" { return Error(400, EmailAndCodeRequired); }
    if emailNorm !in db.users { return Error(401, InvalidCode); }
    var selected := NewestUnconsumed(db.otps, emailNorm);
    if selected.None? { return Error(401, InvalidCode); }
    VerifyOtpSelects(t, cfg, email, code, now, matches);
    r := JudgeChallenge(db, cfg, emailNorm, codeTrim, selected.value, now, matches);
  }

  /** The part of the verify-otp handler after the challenge row is loaded. */
  method JudgeChallenge(db: Db, cfg: Config, e: string, k: string, i: nat, now: int, matches: Matcher)
    returns (r: Reply<SessionUser>)
    requires i < |db.otps| && e in db.users
    modifies db
    ensures Outcome(r, db.Contents()) == VerifyChallenge(old(db.Contents()), cfg, e, k, i, now, matches)
  {
    var user := db.users[e];
    var row := db.otps[i];
    if row.attempts >= MaxOtpAttempts { return Error(429, TooManyAttempts); }
    if row.expiresAt < now { return Error(401, OtpExpired); }
    if !matches(k, row.otpHash) {
      db.otps := BumpAttempts(db.otps, row.id);
      return Error(401, InvalidCode);
    }
    db.otps := ConsumeChallenge(db.otps, row.id, now);
    db.users := SetUserEmailVerified(db.users, user.id);
    user := user.(emailVerified := true);
    user := SyncAdminFlagForUser(db, cfg, user);
    r := Ok(SessionOf(user));
  }

  // ---------------------------------------------------------------------------
  // POST /update-profile

  /** POST /update-profile: rewrites name, digits-only phone and address of
      the session user's row, clears its phone verification, and returns the
      updated session. */
  function UpdateProfileStep(t: Tables, session: Option<SessionUser>, name: string, phone: string, address: string)
    : (o: Outcome<SessionUser>)
    ensures TablesValid(t) ==> TablesValid(o.tables)
    ensures o.tables.otps == t.otps && o.tables.orders == t.orders
    ensures session.None? ==> o == Outcome(Error(401, NotAuthenticated), t)
    ensures session.Some? && (name == "" || phone == "" || address == "") ==>
              o == Outcome(Error(400, ProfileFieldsRequired), t)
    ensures o.reply.Ok? <==> session.Some? && name != "" && phone != "" && address != ""
    ensures o.reply.Ok? ==>
              var p := NormalizePhone(phone);
              o.reply.value == session.value.(name := name, phone := p, address := address, phoneVerified := false)
              && AllDigits(o.reply.value.phone)
              && o.tables.users == SetUserProfile(t.users, session.value.id, name, p, address)
  {
    if session.None? then Outcome(Error(401, NotAuthenticated), t)
    else if name == "" || phone == "" || address == "" then Outcome(Error(400, ProfileFieldsRequired), t)
    else
      var p := NormalizePhone(phone);
      var users := SetUserProfile(t.users, session.value.id, name, p, address);
      SameUserKeysKeepValid(t.users, users);
      Outcome(Ok(session.value.(name := name, phone := p, address := address, phoneVerified := false)), t.(users := users))
  }

  method UpdateProfile(db: Db, session: Option<SessionUser>, name: string, phone: string, address: string)
    returns (r: Reply<SessionUser>)
    requires db.Valid()
    modifies db
    ensures Outcome(r, db.Contents()) == UpdateProfileStep(old(db.Contents()), session, name, phone, address)
    ensures db.Valid()
  {
    if session.None? { return Error(401, NotAuthenticated); }
    if name == "" || phone == "" || address == "" { return Error(400, ProfileFieldsRequired); }
    var phoneNorm := NormalizePhone(phone);
    db.users := SetUserProfile(db.users, session.value.id, name, phoneNorm, address);
    r := Ok(session.value.(name := name, phone := phoneNorm, address := address, phoneVerified := false));
  }
}
