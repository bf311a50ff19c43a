/** Properties of `server/src/auth.routes.js` that relate several requests:
    what a signup allows next, the one-time code delivered by request-otp and
    checked by verify-otp, the lock-out after five wrong codes, the single use
    of a code, and the profile update seen through check-user. */
module AuthScenarios {
  import opened Wrappers
  import opened Text
  import opened Store
  import opened Identity

  // ---------------------------------------------------------------------------
  // Signup

  /** A fresh account cannot log in with any password before it has verified
      its email with a code; with the password it signed up with (and an
      email other than the admin's) it is told to verify its email first,
      and nothing is written. */
  lemma SignupThenLoginNeedsOtp(t: Tables, cfg: Config, req: SignupRequest, userId: string, now: int,
                                otp: OtpDraw, hash: Hasher, password: string, matches: Matcher)
    requires otp.random < OtpDrawRange
    requires SignupStep(t, cfg, req, userId, now, otp, hash).reply.Ok?
    ensures var o := SignupStep(t, cfg, req, userId, now, otp, hash);
            LoginStep(o.tables, cfg, req.email, password, matches).reply.Error?
    ensures var o := SignupStep(t, cfg, req, userId, now, otp, hash);
            matches(req.password, hash(req.password)) && !IsAdminEmail(cfg, req.email) ==>
              LoginStep(o.tables, cfg, req.email, req.password, matches) == Outcome(Error(403, VerifyEmailFirst), o.tables)
  {
  }

  /** After a signup, check-user recognises the email with the phone given at
      signup, reported as not yet verified. */
  lemma SignupIsRecognised(t: Tables, cfg: Config, req: SignupRequest, userId: string, now: int,
                           otp: OtpDraw, hash: Hasher)
    requires otp.random < OtpDrawRange
    requires SignupStep(t, cfg, req, userId, now, otp, hash).reply.Ok?
    requires NormalizeEmail(req.email) != "" && NormalizePhone(req.phone) != ""
    ensures var o := SignupStep(t, cfg, req, userId, now, otp, hash);
            CheckUser(o.tables, req.email, req.phone) == Ok(Present(false))
  {
    NormalizePhoneIdempotent(req.phone);
  }

  // ---------------------------------------------------------------------------
  // Issuing and checking a code

  /** When no stored challenge is newer than a freshly appended one, the
      fresh one is the challenge verify-otp selects. */
  lemma FreshChallengeSelected(otps: seq<OtpChallenge>, c: OtpChallenge, email: string)
    requires IsCandidate(c, email)
    requires forall j :: 0 <= j < |otps| ==> otps[j].createdAt <= c.createdAt
    ensures NewestUnconsumed(otps + [c], email) == Some(|otps|)
  {
    NewestInAgrees(otps + [c], otps, email, |otps|);
    NewestUnconsumedIsNewest(otps, email);
  }

  /** Six digits have no surrounding spaces, so trimming leaves a code alone. */
  lemma CodeIsTrimmed(draw: nat)
    requires draw < OtpDrawRange
    ensures Trim(OtpCode(draw)) == OtpCode(draw)
  {
    var code := OtpCode(draw);
    assert IsDigit(code[0]) && IsDigit(code[5]);
    TrimOfTrimmed(code);
  }

  /** The code request-otp issues signs the account in when it is entered
      within five minutes of issue, and is refused as expired after that
      (given a clock that never runs backwards and a hash the matcher
      accepts for the code it was made from). */
  lemma RequestThenVerify(t: Tables, cfg: Config, email: string, adminId: string, unusablePassword: string,
                          otp: OtpDraw, hash: Hasher, matches: Matcher, now: int)
    requires otp.random < OtpDrawRange && TablesValid(t)
    requires RequestOtpStep(t, cfg, email, adminId, unusablePassword, otp, hash).reply.Ok?
    requires forall j :: 0 <= j < |t.otps| ==> t.otps[j].createdAt <= otp.now
    requires matches(OtpCode(otp.random), hash(OtpCode(otp.random)))
    ensures var o := RequestOtpStep(t, cfg, email, adminId, unusablePassword, otp, hash);
            var v := VerifyOtpStep(o.tables, cfg, email, OtpCode(otp.random), now, matches);
            (now <= otp.now + OtpLifetimeMs ==> v.reply.Ok?)
            && (otp.now + OtpLifetimeMs < now ==> v.reply == Error(401, OtpExpired))
  {
    var o := RequestOtpStep(t, cfg, email, adminId, unusablePassword, otp, hash);
    var e := NormalizeEmail(email);
    var c := NewChallenge(otp, o.tables.users[e].id, e, hash);
    FreshChallengeSelected(t.otps, c, e);
    CodeIsTrimmed(otp.random);
    assert Selected(o.tables, e) == Some(|t.otps|);
    assert HasChallenge(o.tables, email, OtpCode(otp.random));
  }

  // ---------------------------------------------------------------------------
  // Lock-out

  /** `runs` holds the tables before and after each of a series of verify-otp
      requests with the same email and code, each one made on the tables the
      previous one left behind. */
  predicate IsVerifyRun(runs: seq<Tables>, cfg: Config, email: string, code: string, now: int, matches: Matcher) {
    forall j {:trigger VerifyOtpStep(runs[j], cfg, email, code, now, matches)} :: 0 <= j < |runs| - 1 ==>
      runs[j + 1] == VerifyOtpStep(runs[j], cfg, email, code, now, matches).tables
  }

  /** The tables after `n` wrong codes against challenge row `i`. */
  function Missed(t: Tables, i: nat, n: nat): (r: Tables)
    requires i < |t.otps|
    ensures SameOtpIds(t.otps, r.otps) && r.users == t.users && r.orders == t.orders
  {
    t.(otps := t.otps[i := t.otps[i].(attempts := t.otps[i].attempts + n)])
  }

  /** Wrong codes do not change which challenge is selected. */
  lemma MissedKeepsSelection(t: Tables, i: nat, n: nat, e: string)
    requires i < |t.otps|
    ensures Selected(Missed(t, i, n), e) == Selected(t, e)
  {
    var b := Missed(t, i, n).otps;
    forall j | 0 <= j < |t.otps|
      ensures t.otps[j].email == b[j].email && t.otps[j].consumedAt == b[j].consumedAt
              && t.otps[j].createdAt == b[j].createdAt
    {
    }
    NewestInAgrees(t.otps, b, e, |t.otps|);
  }

  /** A challenge that has already taken `n - 1` wrong codes takes one more. */
  lemma OneMoreMiss(t: Tables, cfg: Config, email: string, code: string, now: int, matches: Matcher, i: nat, n: nat)
    requires UniqueOtpIds(t.otps) && HasChallenge(t, email, code) && Verdict(t, email, code, now, matches) == Mismatch
    requires Selected(t, NormalizeEmail(email)) == Some(i)
    requires 0 < n && t.otps[i].attempts + n <= MaxOtpAttempts
    ensures VerifyOtpStep(Missed(t, i, n - 1), cfg, email, code, now, matches).tables == Missed(t, i, n)
  {
    var before := Missed(t, i, n - 1);
    StillMismatch(t, email, code, now, matches, i, n - 1);
    SameOtpIdsKeepValid(t.otps, before.otps);
    MissStep(before, cfg, email, code, now, matches, i);
    MissedTwice(t, i, n);
  }

  lemma StillMismatch(t: Tables, email: string, code: string, now: int, matches: Matcher, i: nat, k: nat)
    requires HasChallenge(t, email, code) && Verdict(t, email, code, now, matches) == Mismatch
    requires Selected(t, NormalizeEmail(email)) == Some(i)
    requires t.otps[i].attempts + k < MaxOtpAttempts
    ensures HasChallenge(Missed(t, i, k), email, code)
    ensures Selected(Missed(t, i, k), NormalizeEmail(email)) == Some(i)
    ensures Verdict(Missed(t, i, k), email, code, now, matches) == Mismatch
  {
    MissedKeepsSelection(t, i, k, NormalizeEmail(email));
  }

  lemma MissStep(t: Tables, cfg: Config, email: string, code: string, now: int, matches: Matcher, i: nat)
    requires UniqueOtpIds(t.otps) && HasChallenge(t, email, code) && Verdict(t, email, code, now, matches) == Mismatch
    requires Selected(t, NormalizeEmail(email)) == Some(i)
    ensures VerifyOtpStep(t, cfg, email, code, now, matches).tables == Missed(t, i, 1)
  {
    VerifyOtpMismatch(t, cfg, email, code, now, matches);
  }

  lemma MissedTwice(t: Tables, i: nat, n: nat)
    requires i < |t.otps| && 0 < n
    ensures Missed(Missed(t, i, n - 1), i, 1) == Missed(t, i, n)
  {
  }

  /** Each wrong code adds one attempt to the same challenge. */
  lemma {:induction false} MissesCountUp(runs: seq<Tables>, cfg: Config, email: string, code: string, now: int,
                                         matches: Matcher, i: nat, n: nat)
    requires IsVerifyRun(runs, cfg, email, code, now, matches) && n < |runs|
    requires UniqueOtpIds(runs[0].otps) && HasChallenge(runs[0], email, code)
    requires Verdict(runs[0], email, code, now, matches) == Mismatch
    requires Selected(runs[0], NormalizeEmail(email)) == Some(i)
    requires runs[0].otps[i].attempts + n <= MaxOtpAttempts
    ensures runs[n] == Missed(runs[0], i, n)
    decreases n
  {
    if n > 0 {
      var t := runs[0];
      MissesCountUp(runs, cfg, email, code, now, matches, i, n - 1);
      OneMoreMiss(t, cfg, email, code, now, matches, i, n);
      RunStep(runs, cfg, email, code, now, matches, n, Missed(t, i, n - 1), Missed(t, i, n));
    }
  }

  lemma RunStep(runs: seq<Tables>, cfg: Config, email: string, code: string, now: int, matches: Matcher, n: nat,
                before: Tables, after: Tables)
    requires IsVerifyRun(runs, cfg, email, code, now, matches) && 0 < n < |runs|
    requires runs[n - 1] == before
    requires VerifyOtpStep(before, cfg, email, code, now, matches).tables == after
    ensures runs[n] == after
  {
    assert runs[n] == VerifyOtpStep(runs[n - 1], cfg, email, code, now, matches).tables;
  }

  /** Five wrong codes against a fresh challenge block it: the next attempt is
      refused with 429 whatever code it carries, the right one included. */
  lemma FiveMissesLockOut(runs: seq<Tables>, cfg: Config, email: string, code: string, now: int, matches: Matcher,
                          next: string)
    requires IsVerifyRun(runs, cfg, email, code, now, matches) && |runs| == MaxOtpAttempts + 1
    requires UniqueOtpIds(runs[0].otps) && HasChallenge(runs[0], email, code)
    requires Verdict(runs[0], email, code, now, matches) == Mismatch
    requires runs[0].otps[Selected(runs[0], NormalizeEmail(email)).value].attempts == 0
    requires Trim(next) != ""
    ensures VerifyOtpStep(runs[MaxOtpAttempts], cfg, email, next, now, matches)
              == Outcome(Error(429, TooManyAttempts), runs[MaxOtpAttempts])
  {
    var t := runs[0];
    var e := NormalizeEmail(email);
    var i := Selected(t, e).value;
    MissesCountUp(runs, cfg, email, code, now, matches, i, MaxOtpAttempts);
    var locked := runs[MaxOtpAttempts];
    MissedKeepsSelection(t, i, MaxOtpAttempts, e);
    assert Selected(locked, e) == Some(i);
    assert HasChallenge(locked, email, next);
  }

  // ---------------------------------------------------------------------------
  // Single use

  /** A code that has signed the account in is consumed: the challenge it
      matched is never selected again, so replaying it fails when no other
      code is pending for the email. */
  lemma CodeIsSingleUse(t: Tables, cfg: Config, email: string, code: string, now: int, matches: Matcher, later: int)
    requires TablesValid(t) && HasChallenge(t, email, code) && Verdict(t, email, code, now, matches) == Accepted
    ensures var e := NormalizeEmail(email);
            var after := VerifyOtpStep(t, cfg, email, code, now, matches).tables;
            Selected(after, e) != Selected(t, e)
    ensures var e := NormalizeEmail(email);
            var after := VerifyOtpStep(t, cfg, email, code, now, matches).tables;
            (forall j :: 0 <= j < |t.otps| && IsCandidate(t.otps[j], e) ==> Some(j) == Selected(t, e)) ==>
              VerifyOtpStep(after, cfg, email, code, later, matches) == Outcome(Error(401, InvalidCode), after)
  {
    var e := NormalizeEmail(email);
    var i := Selected(t, e).value;
    VerifyOtpAccepted(t, cfg, email, code, now, matches);
    var after := VerifyOtpStep(t, cfg, email, code, now, matches).tables;
    assert after.otps == t.otps[i := t.otps[i].(consumedAt := Some(now))];
    NewestUnconsumedIsNewest(after.otps, e);
    assert !IsCandidate(after.otps[i], e);
    if forall j :: 0 <= j < |t.otps| && IsCandidate(t.otps[j], e) ==> Some(j) == Selected(t, e) {
      forall j | 0 <= j < |after.otps|
        ensures !IsCandidate(after.otps[j], e)
      {
        if j != i {
          assert after.otps[j] == t.otps[j];
        }
      }
      assert !HasChallenge(after, email, code);
    }
  }

  /** Once its email is verified by a code, an account that is not the
      configured admin logs in with its password. */
  lemma VerifiedAccountLogsIn(t: Tables, cfg: Config, email: string, code: string, now: int, matches: Matcher,
                              password: string)
    requires TablesValid(t) && HasChallenge(t, email, code) && Verdict(t, email, code, now, matches) == Accepted
    requires password != "" && !IsAdminEmail(cfg, email)
    requires matches(password, t.users[NormalizeEmail(email)].passwordHash)
    ensures var after := VerifyOtpStep(t, cfg, email, code, now, matches).tables;
            LoginStep(after, cfg, email, password, matches).reply.Ok?
  {
    VerifyOtpAccepted(t, cfg, email, code, now, matches);
  }

  // ---------------------------------------------------------------------------
  // The two derivations of the admin email

  lemma LowerKeepsUntrimmed(s: string)
    requires !IsTrimmed(s)
    ensures !IsTrimmed(Lower(s))
  {
  }

  /** With spaces around ADMIN_EMAIL, is-admin-email still recognises the
      admin (it trims), but no account is ever flagged as admin by signup,
      login or verify-otp (they only lower-case). */
  lemma PaddedAdminEmailNeverFlagged(cfg: Config, email: string)
    requires !IsTrimmed(cfg.adminEmail)
    ensures !ShouldBeAdmin(cfg, email)
    ensures AdminEmailNorm(cfg) != "" ==> IsAdminEmail(cfg, cfg.adminEmail)
  {
    LowerKeepsUntrimmed(cfg.adminEmail);
  }

  // ---------------------------------------------------------------------------
  // Profile

  /** After a profile update, check-user recognises the account with the new
      phone, in whatever format it is typed. */
  lemma UpdatedPhoneIsRecognised(t: Tables, session: Option<SessionUser>, name: string, phone: string,
                                 address: string, email: string)
    requires TablesValid(t) && session.Some? && NormalizeEmail(email) != ""
    requires NormalizeEmail(email) in t.users && t.users[NormalizeEmail(email)].id == session.value.id
    requires name != "" && address != "" && NormalizePhone(phone) != ""
    ensures var o := UpdateProfileStep(t, session, name, phone, address);
            CheckUser(o.tables, email, phone) == Ok(Present(t.users[NormalizeEmail(email)].emailVerified))
  {
    NormalizePhoneIdempotent(phone);
    assert phone != "";
  }
}
