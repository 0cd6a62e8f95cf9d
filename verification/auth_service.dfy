/**
 * The session lifecycle: registration and login each open a session holding a
 * signed refresh token; refreshing rotates it (the old session is marked
 * deleted and a new one opened); logout marks the session deleted.
 *
 * Password hashing, its comparison and the clock are parameters. A refresh token
 * is `Db.RefreshJwt`: signing is deterministic, so a token is determined by its
 * claims, the issue time being whole seconds of the signing clock.
 */
module Auth {
  import opened Wrappers
  import opened Db

  const EmailTakenMessage := "Email already registered"
  const BadCredentialsMessage := "Incorrect email or password"
  const InvalidRefreshMessage := "Invalid refresh token"

  /** A day in milliseconds: `setDate(getDate() + n)` moves a date by n of these. */
  const DayMs := 24 * 60 * 60 * 1000
  /** A day in seconds, the unit of a token's `expiresIn`. */
  const DaySeconds := 24 * 60 * 60

  /** The user as returned to clients: the row without its password. */
  datatype SanitizedUser = SanitizedUser(id: string, name: string, email: string)

  /** An access token: the user it names and the second it was issued. */
  datatype AccessJwt = AccessJwt(userId: string, issuedAt: int)

  datatype AuthResult = AuthResult(user: SanitizedUser, accessToken: AccessJwt, refreshToken: RefreshJwt)

  /** The tables the auth service writes. */
  datatype AuthState = AuthState(users: seq<User>, sessions: seq<Session>)

  datatype Step<+T> = Step(result: Result<T, ApiError>, state: AuthState)

  /** The values a call draws: fresh ids, the hash of the password, and the clock readings. */
  datatype Draws = Draws(
    userId: string,
    sessionId: string,
    hashedPassword: string,
    nowMs: nat,
    storedSignMs: nat,
    returnedSignMs: nat)

  function Sanitize(u: User): (s: SanitizedUser)
    ensures s.id == u.id && s.name == u.name && s.email == u.email
  {
    SanitizedUser(u.id, u.name, u.email)
  }

  /** `generateRefreshToken` at clock `signMs`: issued at whole seconds, valid for `days` days. */
  function SignRefresh(userId: string, sessionId: string, signMs: nat, days: nat): (t: RefreshJwt)
    ensures t.Signed? && t.userId == userId && t.sessionId == sessionId
    ensures t.expiresAt == t.issuedAt + days * DaySeconds
  {
    Signed(userId, sessionId, signMs / 1000, signMs / 1000 + days * DaySeconds)
  }

  /** Two tokens for the same session signed in different seconds differ. */
  lemma {:induction false} SignRefreshSecondsDiffer(userId: string, sessionId: string, a: nat, b: nat, days: nat)
    ensures SignRefresh(userId, sessionId, a, days) == SignRefresh(userId, sessionId, b, days)
      <==> a / 1000 == b / 1000
  {
  }

  /** `verifyRefreshToken`: a genuine token whose expiry second has not been reached. */
  predicate Verifies(t: RefreshJwt, nowMs: nat) {
    t.Signed? && nowMs / 1000 < t.expiresAt
  }

  // ----------------------------------------------------------- invariants

  ghost predicate DistinctEmails(users: seq<User>) {
    forall i, j :: 0 <= i < j < |users| ==> users[i].email != users[j].email
  }

  ghost predicate DistinctUserIds(users: seq<User>) {
    forall i, j :: 0 <= i < j < |users| ==> users[i].id != users[j].id
  }

  ghost predicate DistinctSessionIds(sessions: seq<Session>) {
    forall i, j :: 0 <= i < j < |sessions| ==> sessions[i].id != sessions[j].id
  }

  predicate HasUserId(users: seq<User>, id: string) {
    exists i :: 0 <= i < |users| && users[i].id == id
  }

  predicate HasSessionId(sessions: seq<Session>, id: string) {
    exists i :: 0 <= i < |sessions| && sessions[i].id == id
  }

  /** Every session belongs to a user and holds a genuine token naming that user and session. */
  ghost predicate SessionsBound(st: AuthState) {
    forall i :: 0 <= i < |st.sessions| ==>
      HasUserId(st.users, st.sessions[i].userId)
      && st.sessions[i].refreshToken.Signed?
      && st.sessions[i].refreshToken.userId == st.sessions[i].userId
      && st.sessions[i].refreshToken.sessionId == st.sessions[i].id
  }

  /** The schema's uniqueness constraints plus the binding of sessions to users and tokens. */
  ghost predicate Valid(st: AuthState) {
    DistinctEmails(st.users) && DistinctUserIds(st.users)
    && DistinctSessionIds(st.sessions) && SessionsBound(st)
  }

  // -------------------------------------------------------------- lookups

  /** `user.findUnique({ where: { email } })` */
  function FindUserByEmail(users: seq<User>, email: string): (r: Option<nat>)
    ensures r.Some? ==> r.value < |users| && users[r.value].email == email
    ensures r.None? <==> forall i :: 0 <= i < |users| ==> users[i].email != email
  {
    if |users| == 0 then None
    else if users[0].email == email then Some(0)
    else match FindUserByEmail(users[1..], email)
      case None => None
      case Some(i) => Some(i + 1)
  }

  /** `isEmailTaken` */
  predicate IsEmailTaken(users: seq<User>, email: string) {
    FindUserByEmail(users, email).Some?
  }

  /** The user a session's `include: { user: true }` joins to. */
  function FindUserById(users: seq<User>, id: string): (r: Option<nat>)
    ensures r.Some? ==> r.value < |users| && users[r.value].id == id
    ensures r.None? <==> !HasUserId(users, id)
  {
    if |users| == 0 then None
    else if users[0].id == id then Some(0)
    else match FindUserById(users[1..], id)
      case None => (assert forall i :: 1 <= i < |users| ==> users[i] == users[1..][i - 1]; None)
      case Some(i) => Some(i + 1)
  }

  /**
   * The session filter of `refreshToken` (with `checkExpiry`) and of `logout`
   * (without): same id, same user and the very token, not deleted, and for
   * refresh not yet expired.
   */
  predicate Matches(s: Session, t: RefreshJwt, nowMs: nat, checkExpiry: bool)
    requires t.Signed?
  {
    s.id == t.sessionId && s.userId == t.userId && s.refreshToken == t && !s.deleted
    && (checkExpiry ==> s.expiresAt > nowMs)
  }

  /** `userSession.findFirst` with that filter. */
  function FindSession(sessions: seq<Session>, t: RefreshJwt, nowMs: nat, checkExpiry: bool): (r: Option<nat>)
    requires t.Signed?
    ensures r.Some? ==> r.value < |sessions| && Matches(sessions[r.value], t, nowMs, checkExpiry)
    ensures r.None? <==> forall i :: 0 <= i < |sessions| ==> !Matches(sessions[i], t, nowMs, checkExpiry)
  {
    if |sessions| == 0 then None
    else if Matches(sessions[0], t, nowMs, checkExpiry) then Some(0)
    else match FindSession(sessions[1..], t, nowMs, checkExpiry)
      case None => (assert forall i :: 1 <= i < |sessions| ==> sessions[i] == sessions[1..][i - 1]; None)
      case Some(i) => Some(i + 1)
  }

  /** A fresh session for `userId`, expiring `days` days from `nowMs`, holding `token`. */
  function NewSession(id: string, userId: string, token: RefreshJwt, nowMs: nat, days: nat): Session {
    Session(id, userId, token, nowMs + days * DayMs, false, None)
  }

  /** The session at `i`, marked deleted at `nowMs`. */
  function MarkDeleted(sessions: seq<Session>, i: nat, nowMs: nat): (r: seq<Session>)
    requires i < |sessions|
    ensures |r| == |sessions| && r[i].deleted && r[i].deletedAt == Some(nowMs)
    ensures r[i] == sessions[i].(deleted := true, deletedAt := Some(nowMs))
    ensures forall k :: 0 <= k < |r| && k != i ==> r[k] == sessions[k]
  {
    sessions[i := sessions[i].(deleted := true, deletedAt := Some(nowMs))]
  }

  // ------------------------------------------------------------ operations

  /** `register` */
  function RegisterStep(st: AuthState, name: string, email: string, d: Draws, days: nat): Step<AuthResult> {
    if IsEmailTaken(st.users, email) then Step(Err(ApiError(BadRequest, EmailTakenMessage)), st)
    else
      var user := User(d.userId, name, email, d.hashedPassword);
      var token := SignRefresh(d.userId, d.sessionId, d.storedSignMs, days);
      var session := NewSession(d.sessionId, d.userId, token, d.nowMs, days);
      Step(Ok(AuthResult(Sanitize(user), AccessJwt(d.userId, d.returnedSignMs / 1000), token)),
           AuthState(st.users + [user], st.sessions + [session]))
  }

  /** `login`; `passwordMatches(plain, hash)` is the password comparison. */
  function LoginStep(
    st: AuthState, email: string, password: string, passwordMatches: (string, string) -> bool,
    d: Draws, days: nat): Step<AuthResult>
  {
    match FindUserByEmail(st.users, email)
    case None => Step(Err(ApiError(Unauthorized, BadCredentialsMessage)), st)
    case Some(i) =>
      var user := st.users[i];
      if !passwordMatches(password, user.password) then Step(Err(ApiError(Unauthorized, BadCredentialsMessage)), st)
      else
        var token := SignRefresh(user.id, d.sessionId, d.storedSignMs, days);
        Step(Ok(AuthResult(Sanitize(user), AccessJwt(user.id, d.returnedSignMs / 1000), token)),
             st.(sessions := st.sessions + [NewSession(d.sessionId, user.id, token, d.nowMs, days)]))
  }

  /**
   * `refreshToken` as written: the new session stores a token signed at
   * `storedSignMs`, while the caller receives a second token signed at
   * `returnedSignMs`.
   */
  function RefreshAsWritten(st: AuthState, t: RefreshJwt, d: Draws, days: nat): Step<AuthResult> {
    RefreshWith(st, t, d, days, d.returnedSignMs)
  }

  /** `refreshToken` returning the token the new session stores. */
  function RefreshStep(st: AuthState, t: RefreshJwt, d: Draws, days: nat): Step<AuthResult> {
    RefreshWith(st, t, d, days, d.storedSignMs)
  }

  /** The rotation, with the clock reading at which the returned token is signed. */
  function RefreshWith(st: AuthState, t: RefreshJwt, d: Draws, days: nat, returnedSignMs: nat): Step<AuthResult> {
    if !Verifies(t, d.nowMs) then Step(Err(ApiError(Unauthorized, InvalidRefreshMessage)), st)
    else match FindSession(st.sessions, t, d.nowMs, true)
      case None => Step(Err(ApiError(Unauthorized, InvalidRefreshMessage)), st)
      case Some(i) =>
        match FindUserById(st.users, st.sessions[i].userId)
        case None => Step(Err(ApiError(Unauthorized, InvalidRefreshMessage)), st)
        case Some(u) =>
          var user := st.users[u];
          var stored := SignRefresh(user.id, d.sessionId, d.storedSignMs, days);
          var sessions := MarkDeleted(st.sessions, i, d.nowMs) + [NewSession(d.sessionId, user.id, stored, d.nowMs, days)];
          Step(Ok(AuthResult(Sanitize(user), AccessJwt(user.id, d.returnedSignMs / 1000),
                             SignRefresh(user.id, d.sessionId, returnedSignMs, days))),
               st.(sessions := sessions))
  }

  /** `logout`: like refresh's lookup but without the expiry check, and nothing is created. */
  function LogoutStep(st: AuthState, t: RefreshJwt, nowMs: nat): Step<()> {
    if !Verifies(t, nowMs) then Step(Err(ApiError(Unauthorized, InvalidRefreshMessage)), st)
    else match FindSession(st.sessions, t, nowMs, false)
      case None => Step(Err(ApiError(Unauthorized, InvalidRefreshMessage)), st)
      case Some(i) => Step(Ok(()), st.(sessions := MarkDeleted(st.sessions, i, nowMs)))
  }

  // ------------------------------------------------------- register, login

  /** A taken email fails and creates nothing; otherwise one user and one session bound to it are added. */
  lemma {:induction false} RegisterOutcome(st: AuthState, name: string, email: string, d: Draws, days: nat)
    ensures var step := RegisterStep(st, name, email, d, days);
      && (IsEmailTaken(st.users, email) <==> step.result.Err?)
      && (step.result.Err? ==> step.result.error == ApiError(BadRequest, EmailTakenMessage) && step.state == st)
      && (step.result.Ok? ==>
            && step.state.users == st.users + [User(d.userId, name, email, d.hashedPassword)]
            && |step.state.sessions| == |st.sessions| + 1
            && step.state.sessions[..|st.sessions|] == st.sessions
            && step.state.sessions[|st.sessions|].userId == d.userId
            && step.state.sessions[|st.sessions|].refreshToken == step.result.value.refreshToken
            && step.result.value.user == SanitizedUser(d.userId, name, email))
  {
  }

  /** Registration keeps the invariant, given ids not yet in use. */
  lemma {:induction false} RegisterKeepsValid(st: AuthState, name: string, email: string, d: Draws, days: nat)
    requires Valid(st)
    requires !HasUserId(st.users, d.userId) && !HasSessionId(st.sessions, d.sessionId)
    ensures Valid(RegisterStep(st, name, email, d, days).state)
  {
    var step := RegisterStep(st, name, email, d, days);
    if step.result.Ok? {
      var users := step.state.users;
      assert users[|st.users|].id == d.userId;
      assert forall i :: 0 <= i < |st.sessions| ==> HasUserId(users, st.sessions[i].userId) by {
        forall i | 0 <= i < |st.sessions|
          ensures HasUserId(users, st.sessions[i].userId)
        {
          var k :| 0 <= k < |st.users| && st.users[k].id == st.sessions[i].userId;
          assert users[k] == st.users[k];
        }
      }
      assert HasUserId(users, d.userId);
    }
  }

  /** An unknown email and a wrong password give the same failure, and neither opens a session. */
  lemma {:induction false} LoginFailuresAlike(
    st: AuthState, email: string, password: string, passwordMatches: (string, string) -> bool, d: Draws, days: nat)
    ensures var step := LoginStep(st, email, password, passwordMatches, d, days);
      && (!IsEmailTaken(st.users, email) ==> step.result.Err?)
      && (step.result.Err? ==> step == Step(Err(ApiError(Unauthorized, BadCredentialsMessage)), st))
  {
  }

  /** Under unique emails, login succeeds exactly for the password of the user with that email. */
  lemma {:induction false} LoginSucceedsIff(
    st: AuthState, email: string, password: string, passwordMatches: (string, string) -> bool, d: Draws, days: nat)
    requires DistinctEmails(st.users)
    ensures LoginStep(st, email, password, passwordMatches, d, days).result.Ok?
      <==> exists i :: 0 <= i < |st.users| && st.users[i].email == email && passwordMatches(password, st.users[i].password)
  {
    match FindUserByEmail(st.users, email)
    case None =>
    case Some(k) =>
      if exists i :: 0 <= i < |st.users| && st.users[i].email == email && passwordMatches(password, st.users[i].password) {
        var i :| 0 <= i < |st.users| && st.users[i].email == email && passwordMatches(password, st.users[i].password);
        assert i == k;
      }
  }

  /** A successful login adds exactly one session, for that user, and leaves the rest alone. */
  lemma {:induction false} LoginAddsOneSession(
    st: AuthState, email: string, password: string, passwordMatches: (string, string) -> bool, d: Draws, days: nat)
    requires LoginStep(st, email, password, passwordMatches, d, days).result.Ok?
    ensures var step := LoginStep(st, email, password, passwordMatches, d, days);
      && step.state.users == st.users
      && |step.state.sessions| == |st.sessions| + 1
      && step.state.sessions[..|st.sessions|] == st.sessions
      && var s := step.state.sessions[|st.sessions|];
      s.id == d.sessionId && s.userId == step.result.value.user.id && !s.deleted
      && s.refreshToken == step.result.value.refreshToken && s.expiresAt == d.nowMs + days * DayMs
  {
  }

  /** Login keeps the invariant, given a session id not yet in use. */
  lemma {:induction false} LoginKeepsValid(
    st: AuthState, email: string, password: string, passwordMatches: (string, string) -> bool, d: Draws, days: nat)
    requires Valid(st) && !HasSessionId(st.sessions, d.sessionId)
    ensures Valid(LoginStep(st, email, password, passwordMatches, d, days).state)
  {
  }

  // --------------------------------------------------------- refresh, logout

  /**
   * Every refresh failure is the same UNAUTHORIZED answer and changes nothing;
   * it succeeds exactly for a genuine unexpired token held by a live, unexpired
   * session of an existing user.
   */
  lemma {:induction false} RefreshOutcome(st: AuthState, t: RefreshJwt, d: Draws, days: nat)
    ensures var step := RefreshStep(st, t, d, days);
      && (step.result.Err? ==> step == Step(Err(ApiError(Unauthorized, InvalidRefreshMessage)), st))
      && (step.result.Ok? <==> (Verifies(t, d.nowMs)
            && exists i :: 0 <= i < |st.sessions| && Matches(st.sessions[i], t, d.nowMs, true)
                 && HasUserId(st.users, st.sessions[i].userId)))
  {
    if Verifies(t, d.nowMs) && FindSession(st.sessions, t, d.nowMs, true).Some? {
      var k := FindSession(st.sessions, t, d.nowMs, true).value;
      forall i | 0 <= i < |st.sessions| && Matches(st.sessions[i], t, d.nowMs, true)
        ensures st.sessions[i].userId == st.sessions[k].userId
      {
      }
    }
  }

  /**
   * A successful refresh marks the matched session deleted at `now`, keeps every
   * other session, and appends one new live session for the same user holding
   * the returned token.
   */
  lemma {:induction false} RefreshRotates(st: AuthState, t: RefreshJwt, d: Draws, days: nat)
    requires RefreshStep(st, t, d, days).result.Ok?
    ensures var step := RefreshStep(st, t, d, days);
      var i := FindSession(st.sessions, t, d.nowMs, true).value;
      && step.state.users == st.users
      && |step.state.sessions| == |st.sessions| + 1
      && step.state.sessions[i] == st.sessions[i].(deleted := true, deletedAt := Some(d.nowMs))
      && (forall k :: 0 <= k < |st.sessions| && k != i ==> step.state.sessions[k] == st.sessions[k])
      && var s := step.state.sessions[|st.sessions|];
      s.id == d.sessionId && s.userId == st.sessions[i].userId && !s.deleted
      && s.refreshToken == step.result.value.refreshToken
  {
  }

  /** Refresh keeps the invariant, given a session id not yet in use. */
  lemma {:induction false} RefreshKeepsValid(st: AuthState, t: RefreshJwt, d: Draws, days: nat)
    requires Valid(st) && !HasSessionId(st.sessions, d.sessionId)
    ensures Valid(RefreshStep(st, t, d, days).state)
  {
    var step := RefreshStep(st, t, d, days);
    if step.result.Ok? {
      var i := FindSession(st.sessions, t, d.nowMs, true).value;
      var s := step.state.sessions;
      assert forall k :: 0 <= k < |st.sessions| ==> (s[k].id == st.sessions[k].id && s[k].userId == st.sessions[k].userId
        && s[k].refreshToken == st.sessions[k].refreshToken);
    }
  }

  /** Under the invariant, a token matches at most the one session its claims name. */
  lemma {:induction false} MatchUnique(st: AuthState, t: RefreshJwt, nowMs: nat, checkExpiry: bool, i: nat, j: nat)
    requires Valid(st) && t.Signed?
    requires i < |st.sessions| && j < |st.sessions|
    requires Matches(st.sessions[i], t, nowMs, checkExpiry) && Matches(st.sessions[j], t, nowMs, true)
    ensures i == j
  {
  }

  /** The rotated-out token no longer refreshes, whenever it is replayed. */
  lemma {:induction false} RefreshReplayFails(st: AuthState, t: RefreshJwt, d: Draws, d2: Draws, days: nat)
    requires Valid(st) && !HasSessionId(st.sessions, d.sessionId)
    requires RefreshStep(st, t, d, days).result.Ok?
    ensures RefreshStep(RefreshStep(st, t, d, days).state, t, d2, days).result.Err?
  {
    var step := RefreshStep(st, t, d, days);
    var i := FindSession(st.sessions, t, d.nowMs, true).value;
    var s := step.state.sessions;
    if Verifies(t, d2.nowMs) {
      forall j | 0 <= j < |s| ensures !Matches(s[j], t, d2.nowMs, true) {
        if j == i {
          assert s[j].deleted;
        } else if j < |st.sessions| {
          assert s[j] == st.sessions[j];
          assert st.sessions[j].id != st.sessions[i].id;
        } else {
          assert s[j].id == d.sessionId;
          assert st.sessions[i].id != d.sessionId;
        }
      }
    }
  }

  /**
   * The token a refresh returns refreshes again while both it and its session
   * are unexpired.
   */
  lemma {:induction false} RefreshChains(st: AuthState, t: RefreshJwt, d: Draws, d2: Draws, days: nat)
    requires Valid(st) && !HasSessionId(st.sessions, d.sessionId)
    requires RefreshStep(st, t, d, days).result.Ok?
    requires d2.nowMs / 1000 < d.storedSignMs / 1000 + days * DaySeconds
    requires d2.nowMs < d.nowMs + days * DayMs
    ensures var first := RefreshStep(st, t, d, days);
      RefreshStep(first.state, first.result.value.refreshToken, d2, days).result.Ok?
  {
    var first := RefreshStep(st, t, d, days);
    var t2 := first.result.value.refreshToken;
    RefreshKeepsValid(st, t, d, days);
    var n := |st.sessions|;
    assert Matches(first.state.sessions[n], t2, d2.nowMs, true);
    RefreshOutcome(first.state, t2, d2, days);
  }

  /** Logout fails with the refresh message and changes nothing, or marks exactly the matched session deleted. */
  lemma {:induction false} LogoutOutcome(st: AuthState, t: RefreshJwt, nowMs: nat)
    ensures var step := LogoutStep(st, t, nowMs);
      && (step.result.Err? ==> step == Step(Err(ApiError(Unauthorized, InvalidRefreshMessage)), st))
      && (step.result.Ok? <==> (Verifies(t, nowMs)
            && exists i :: 0 <= i < |st.sessions| && Matches(st.sessions[i], t, nowMs, false)))
      && (step.result.Ok? ==> var i := FindSession(st.sessions, t, nowMs, false).value;
            step.state.users == st.users
            && step.state.sessions == MarkDeleted(st.sessions, i, nowMs))
  {
  }

  /** Logout ignores the session's expiry: an expired session's genuine token still logs out. */
  lemma {:induction false} LogoutIgnoresSessionExpiry(st: AuthState, t: RefreshJwt, nowMs: nat, i: nat)
    requires Valid(st)
    requires Verifies(t, nowMs) && i < |st.sessions|
    requires Matches(st.sessions[i], t, nowMs, false) && st.sessions[i].expiresAt <= nowMs
    ensures LogoutStep(st, t, nowMs).result.Ok?
    ensures RefreshStep(st, t, Draws("", "", "", nowMs, 0, 0), 0).result.Err?
  {
    var live := FindSession(st.sessions, t, nowMs, true);
    if live.Some? {
      MatchUnique(st, t, nowMs, false, i, live.value);
    }
  }

  /** Logging out twice with the same token fails the second time. */
  lemma {:induction false} LogoutTwiceFails(st: AuthState, t: RefreshJwt, nowMs: nat, later: nat)
    requires Valid(st)
    requires LogoutStep(st, t, nowMs).result.Ok?
    ensures LogoutStep(LogoutStep(st, t, nowMs).state, t, later).result.Err?
  {
  }

  /** Logout keeps the invariant. */
  lemma {:induction false} LogoutKeepsValid(st: AuthState, t: RefreshJwt, nowMs: nat)
    requires Valid(st)
    ensures Valid(LogoutStep(st, t, nowMs).state)
  {
    var step := LogoutStep(st, t, nowMs);
    if step.result.Ok? {
      var s := step.state.sessions;
      assert forall k :: 0 <= k < |st.sessions| ==> (s[k].id == st.sessions[k].id && s[k].userId == st.sessions[k].userId
        && s[k].refreshToken == st.sessions[k].refreshToken);
    }
  }

  // --------------------------------------------------------------- finding

  /**
   * As written, when the two signing calls of a refresh fall in different
   * seconds, the returned token is not the one stored: it neither refreshes nor
   * logs out, at any later time.
   */
  lemma {:induction false} RefreshAsWrittenStrandsToken(st: AuthState, t: RefreshJwt, d: Draws, d2: Draws, days: nat)
    requires Valid(st) && !HasSessionId(st.sessions, d.sessionId)
    requires RefreshAsWritten(st, t, d, days).result.Ok?
    requires d.storedSignMs / 1000 != d.returnedSignMs / 1000
    ensures var first := RefreshAsWritten(st, t, d, days);
      var returned := first.result.value.refreshToken;
      && RefreshAsWritten(first.state, returned, d2, days).result.Err?
      && LogoutStep(first.state, returned, d2.nowMs).result.Err?
  {
    var first := RefreshAsWritten(st, t, d, days);
    var returned := first.result.value.refreshToken;
    var s := first.state.sessions;
    var n := |st.sessions|;
    assert returned.sessionId == d.sessionId;
    assert s[n].refreshToken != returned;
    assert forall k :: 0 <= k < n ==> s[k].id == st.sessions[k].id;
    assert forall k :: 0 <= k < |s| ==> !Matches(s[k], returned, d2.nowMs, false) by {
      forall k | 0 <= k < |s|
        ensures !Matches(s[k], returned, d2.nowMs, false)
      {
        if k < n {
          assert s[k].id != d.sessionId;
        }
      }
    }
  }

  /**
   * The code as written and the corrected step change the tables alike and
   * succeed or fail together. Their answers differ only in the refresh token,
   * which is the stored one exactly when both signings fall in the same second.
   */
  lemma {:induction false} RefreshAsWrittenAgrees(st: AuthState, t: RefreshJwt, d: Draws, days: nat)
    ensures var w := RefreshAsWritten(st, t, d, days); var c := RefreshStep(st, t, d, days);
      && w.state == c.state
      && w.result.Ok? == c.result.Ok?
      && (w.result.Err? ==> w.result == c.result)
      && (w.result.Ok? ==>
            && w.result.value.user == c.result.value.user
            && w.result.value.accessToken == c.result.value.accessToken
            && (w.result.value.refreshToken == c.result.value.refreshToken
                <==> d.storedSignMs / 1000 == d.returnedSignMs / 1000))
  {
    var c := RefreshStep(st, t, d, days);
    if c.result.Ok? {
      SignRefreshSecondsDiffer(c.result.value.user.id, d.sessionId, d.storedSignMs, d.returnedSignMs, days);
    }
  }

  /**
   * A successful refresh as written rotates the session as the corrected step
   * does; the new session holds the token signed first, and the answer carries
   * that token only when the second signing falls in the same second.
   */
  lemma {:induction false} RefreshAsWrittenRotates(st: AuthState, t: RefreshJwt, d: Draws, days: nat)
    requires RefreshAsWritten(st, t, d, days).result.Ok?
    ensures var step := RefreshAsWritten(st, t, d, days);
      var i := FindSession(st.sessions, t, d.nowMs, true).value;
      && step.state.users == st.users
      && |step.state.sessions| == |st.sessions| + 1
      && step.state.sessions[i] == st.sessions[i].(deleted := true, deletedAt := Some(d.nowMs))
      && (forall k :: 0 <= k < |st.sessions| && k != i ==> step.state.sessions[k] == st.sessions[k])
      && var s := step.state.sessions[|st.sessions|];
      s.id == d.sessionId && s.userId == st.sessions[i].userId && !s.deleted
      && s.refreshToken == SignRefresh(st.sessions[i].userId, d.sessionId, d.storedSignMs, days)
      && (s.refreshToken == step.result.value.refreshToken <==> d.storedSignMs / 1000 == d.returnedSignMs / 1000)
  {
    RefreshAsWrittenAgrees(st, t, d, days);
    RefreshRotates(st, t, d, days);
  }

  /** Refresh as written keeps the invariant, given a session id not yet in use. */
  lemma {:induction false} RefreshAsWrittenKeepsValid(st: AuthState, t: RefreshJwt, d: Draws, days: nat)
    requires Valid(st) && !HasSessionId(st.sessions, d.sessionId)
    ensures Valid(RefreshAsWritten(st, t, d, days).state)
  {
    RefreshAsWrittenAgrees(st, t, d, days);
    RefreshKeepsValid(st, t, d, days);
  }

  /** As written too, the rotated-out token no longer refreshes, whenever it is replayed. */
  lemma {:induction false} RefreshAsWrittenReplayFails(st: AuthState, t: RefreshJwt, d: Draws, d2: Draws, days: nat)
    requires Valid(st) && !HasSessionId(st.sessions, d.sessionId)
    requires RefreshAsWritten(st, t, d, days).result.Ok?
    ensures RefreshAsWritten(RefreshAsWritten(st, t, d, days).state, t, d2, days).result.Err?
  {
    RefreshAsWrittenAgrees(st, t, d, days);
    RefreshAsWrittenAgrees(RefreshStep(st, t, d, days).state, t, d2, days);
    RefreshReplayFails(st, t, d, d2, days);
  }

  /** A concrete instance: signed at 999 ms and at 1000 ms, the two tokens differ. */
  lemma {:induction false} RefreshAsWrittenExample()
    ensures SignRefresh("u", "s", 999, 7) != SignRefresh("u", "s", 1000, 7)
  {
  }

  // --------------------------------------------------------------- service

  /** `AuthService` over the shared store, with the configured refresh-token lifetime in days. */
  class AuthService {
    const db: Database
    const refreshTokenExpireInDays: nat

    constructor (db: Database, refreshTokenExpireInDays: nat)
      ensures this.db == db && this.refreshTokenExpireInDays == refreshTokenExpireInDays
    {
      this.db := db;
      this.refreshTokenExpireInDays := refreshTokenExpireInDays;
    }

    function StateOf(): AuthState
      reads db
    {
      AuthState(db.users, db.sessions)
    }

    /** `isEmailTaken` */
    method IsEmailTakenQuery(email: string) returns (taken: bool)
      ensures taken <==> exists i :: 0 <= i < |db.users| && db.users[i].email == email
    {
      var found := FindUserByEmail(db.users, email);
      taken := found.Some?;
    }

    /** `register` */
    method Register(name: string, email: string, d: Draws) returns (r: Result<AuthResult, ApiError>)
      modifies db`users, db`sessions
      ensures var step := RegisterStep(old(StateOf()), name, email, d, refreshTokenExpireInDays);
        r == step.result && StateOf() == step.state
    {
      var taken := IsEmailTakenQuery(email);
      if taken {
        return Err(ApiError(BadRequest, EmailTakenMessage));
      }
      var user := User(d.userId, name, email, d.hashedPassword);
      db.users := db.users + [user];
      var refreshToken := SignRefresh(d.userId, d.sessionId, d.storedSignMs, refreshTokenExpireInDays);
      db.sessions := db.sessions + [NewSession(d.sessionId, d.userId, refreshToken, d.nowMs, refreshTokenExpireInDays)];
      r := Ok(AuthResult(Sanitize(user), AccessJwt(d.userId, d.returnedSignMs / 1000), refreshToken));
    }

    /** `login` */
    method Login(email: string, password: string, passwordMatches: (string, string) -> bool, d: Draws)
      returns (r: Result<AuthResult, ApiError>)
      modifies db`sessions
      ensures var step := LoginStep(old(StateOf()), email, password, passwordMatches, d, refreshTokenExpireInDays);
        r == step.result && StateOf() == step.state
    {
      var found := FindUserByEmail(db.users, email);
      if found.None? || !passwordMatches(password, db.users[found.value].password) {
        return Err(ApiError(Unauthorized, BadCredentialsMessage));
      }
      var user := db.users[found.value];
      var refreshToken := SignRefresh(user.id, d.sessionId, d.storedSignMs, refreshTokenExpireInDays);
      db.sessions := db.sessions + [NewSession(d.sessionId, user.id, refreshToken, d.nowMs, refreshTokenExpireInDays)];
      r := Ok(AuthResult(Sanitize(user), AccessJwt(user.id, d.returnedSignMs / 1000), refreshToken));
    }

    /** `refreshToken`, returning the token the new session stores. */
    method RefreshToken(t: RefreshJwt, d: Draws) returns (r: Result<AuthResult, ApiError>)
      modifies db`sessions
      ensures var step := RefreshStep(old(StateOf()), t, d, refreshTokenExpireInDays);
        r == step.result && StateOf() == step.state
    {
      if !Verifies(t, d.nowMs) {
        return Err(ApiError(Unauthorized, InvalidRefreshMessage));
      }
      var session := FindSession(db.sessions, t, d.nowMs, true);
      if session.None? {
        return Err(ApiError(Unauthorized, InvalidRefreshMessage));
      }
      var owner := FindUserById(db.users, db.sessions[session.value].userId);
      if owner.None? {
        return Err(ApiError(Unauthorized, InvalidRefreshMessage));
      }
      var user := db.users[owner.value];
      db.sessions := MarkDeleted(db.sessions, session.value, d.nowMs);
      var refreshToken := SignRefresh(user.id, d.sessionId, d.storedSignMs, refreshTokenExpireInDays);
      db.sessions := db.sessions + [NewSession(d.sessionId, user.id, refreshToken, d.nowMs, refreshTokenExpireInDays)];
      r := Ok(AuthResult(Sanitize(user), AccessJwt(user.id, d.returnedSignMs / 1000), refreshToken));
    }

    /** `logout` */
    method Logout(t: RefreshJwt, nowMs: nat) returns (r: Result<(), ApiError>)
      modifies db`sessions
      ensures var step := LogoutStep(old(StateOf()), t, nowMs);
        r == step.result && StateOf() == step.state
    {
      if !Verifies(t, nowMs) {
        return Err(ApiError(Unauthorized, InvalidRefreshMessage));
      }
      var session := FindSession(db.sessions, t, nowMs, false);
      if session.None? {
        return Err(ApiError(Unauthorized, InvalidRefreshMessage));
      }
      db.sessions := MarkDeleted(db.sessions, session.value, nowMs);
      r := Ok(());
    }
  }
}
