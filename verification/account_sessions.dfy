/** Password resets and the sessions they end. Each request is one atomic step on three tables: users,
    single-use account tokens, and refresh tokens. An access token is not stored: it names its user and the
    `token_version` it was minted under. */
module AccountSessions {
  import opened Base

  type Id = nat

  datatype Purpose = PasswordReset | EmailVerification

  datatype User = User(
    password: Option<string>, tokenVersion: nat, active: bool, mustVerify: bool, verified: bool, mfa: bool)

  datatype AuthToken = AuthToken(user: Id, purpose: Purpose, usedAt: Option<Time>, expiresAt: Time)

  datatype RefreshToken = RefreshToken(
    user: Id, family: Id, revokedAt: Option<Time>, replacedBy: Option<Id>, expiresAt: Time)

  datatype Access = Access(user: Id, version: nat)

  datatype Accounts = Accounts(
    now: Time, users: map<Id, User>, tokens: map<Id, AuthToken>, sessions: map<Id, RefreshToken>)

  predicate MaySignIn(u: User) { u.active && (u.mustVerify ==> u.verified) }

  predicate Live(r: RefreshToken, now: Time) { r.revokedAt.None? && r.expiresAt > now }

  /** The check every request makes of its access token. */
  predicate Accepts(users: map<Id, User>, a: Access)
  {
    a.user in users && MaySignIn(users[a.user]) && users[a.user].tokenVersion == a.version
  }

  // ---- The guarded updates ----------------------------------------------------------------

  predicate Claimable(t: AuthToken, purpose: Purpose, now: Time)
  {
    t.purpose == purpose && t.usedAt.None? && t.expiresAt > now
  }

  function Used(t: AuthToken, now: Time): AuthToken { if t.usedAt.None? then t.(usedAt := Some(now)) else t }

  function Revoked(r: RefreshToken, now: Time): RefreshToken
  {
    if r.revokedAt.None? then r.(revokedAt := Some(now)) else r
  }

  function Invalidated(tokens: map<Id, AuthToken>, user: Id, purpose: Purpose, now: Time): map<Id, AuthToken>
  {
    map t | t in tokens ::
      if tokens[t].user == user && tokens[t].purpose == purpose then Used(tokens[t], now) else tokens[t]
  }

  /** Expired tokens are left alone: they are dead already. */
  function RevokedFor(sessions: map<Id, RefreshToken>, user: Id, now: Time): map<Id, RefreshToken>
  {
    map s | s in sessions ::
      if sessions[s].user == user && sessions[s].expiresAt > now then Revoked(sessions[s], now) else sessions[s]
  }

  function FamilyRevoked(sessions: map<Id, RefreshToken>, family: Id, now: Time): map<Id, RefreshToken>
  {
    map s | s in sessions :: if sessions[s].family == family then Revoked(sessions[s], now) else sessions[s]
  }

  function Bumped(users: map<Id, User>, user: Id): map<Id, User>
  {
    if user in users then users[user := users[user].(tokenVersion := users[user].tokenVersion + 1)] else users
  }

  function Changed<T(==)>(before: map<Id, T>, after: map<Id, T>): set<Id>
  {
    set id | id in before && id in after && before[id] != after[id]
  }

  // ---- The requests -----------------------------------------------------------------------

  datatype Event =
    | Register(user: Id, details: User, session: Id, family: Id, at: Time, expires: Time)
    | IssueToken(user: Id, purpose: Purpose, token: Id, at: Time, expires: Time)
    | ResetPassword(token: Id, password: string, at: Time)
    | VerifyEmail(token: Id, at: Time)
    | Login(user: Id, password: string, session: Id, family: Id, at: Time, expires: Time)
    | SecondFactor(user: Id, session: Id, family: Id, at: Time, expires: Time)
    | Rotate(presented: Id, session: Id, at: Time, expires: Time)
    | Logout(user: Id, at: Time)
    | ChangeFactor(user: Id, enabled: bool, at: Time)
    | ChangePassword(user: Id, current: string, password: string, at: Time)
    | SetActive(user: Id, active: bool, at: Time)

  /** Time moves on, and new rows have new ids. */
  predicate Enabled(st: Accounts, e: Event)
  {
    && st.now <= e.at
    && (e.Register? ==> e.user !in st.users && (forall t :: t in st.tokens ==> st.tokens[t].user != e.user)
                        && (forall s :: s in st.sessions ==> st.sessions[s].user != e.user))
    && (e.IssueToken? ==> e.token !in st.tokens)
    && (e.Register? || e.Login? || e.SecondFactor? ==> NewSession(st, e.session, e.family))
    && (e.Rotate? ==> e.session !in st.sessions)
  }

  predicate NewSession(st: Accounts, session: Id, family: Id)
  {
    session !in st.sessions && forall s :: s in st.sessions ==> st.sessions[s].family != family
  }

  predicate TokenGranted(st: Accounts, user: Id, purpose: Purpose)
  {
    && user in st.users && st.users[user].active
    && (purpose.PasswordReset? ==> st.users[user].password.Some?)
    && (purpose.EmailVerification? ==> !st.users[user].verified)
  }

  predicate TokenConsumed(st: Accounts, token: Id, purpose: Purpose, now: Time)
  {
    && token in st.tokens && Claimable(st.tokens[token], purpose, now)
    && st.tokens[token].user in st.users && st.users[st.tokens[token].user].active
  }

  predicate LoggedIn(st: Accounts, user: Id, password: string)
  {
    && user in st.users && MaySignIn(st.users[user]) && !st.users[user].mfa
    && st.users[user].password == Some(password)
  }

  predicate Rotated(st: Accounts, presented: Id, now: Time)
  {
    && presented in st.sessions && Live(st.sessions[presented], now)
    && st.sessions[presented].user in st.users && MaySignIn(st.users[st.sessions[presented].user])
  }

  /** A revoked refresh token was presented: it has leaked. */
  predicate Reused(st: Accounts, presented: Id)
  {
    presented in st.sessions && st.sessions[presented].revokedAt.Some?
  }

  predicate PasswordChanged(st: Accounts, user: Id, current: string)
  {
    user in st.users && st.users[user].password == Some(current)
  }

  /** The request did what it was made for. */
  predicate Succeeds(st: Accounts, e: Event)
  {
    match e
    case Register(_, _, _, _, _, _) => true
    case IssueToken(user, purpose, _, _, _) => TokenGranted(st, user, purpose)
    case ResetPassword(token, _, at) => TokenConsumed(st, token, PasswordReset, at)
    case VerifyEmail(token, at) => TokenConsumed(st, token, EmailVerification, at)
    case Login(user, password, _, _, _, _) => LoggedIn(st, user, password)
    case SecondFactor(user, _, _, _, _) => user in st.users && st.users[user].active
    case Rotate(presented, _, at, _) => Rotated(st, presented, at)
    case Logout(user, _) => user in st.users
    case ChangeFactor(user, _, _) => user in st.users
    case ChangePassword(user, current, _, _) => PasswordChanged(st, user, current)
    case SetActive(user, _, _) => user in st.users
  }

  /** A new password, a new version, and every session of the user revoked. */
  function Secured(st: Accounts, user: Id, u: User, at: Time): Accounts
  {
    st.(users := st.users[user := u.(tokenVersion := u.tokenVersion + 1)],
        sessions := RevokedFor(st.sessions, user, at))
  }

  function After(st0: Accounts, e: Event): Accounts
    requires Enabled(st0, e)
  {
    var st := st0.(now := e.at);
    if Succeeds(st0, e) then
      match e
      case Register(user, details, session, family, at, expires) =>
        st.(users := st.users[user := details.(tokenVersion := 0)],
            sessions := st.sessions[session := RefreshToken(user, family, None, None, expires)])
      case IssueToken(user, purpose, token, at, expires) =>
        st.(tokens := Invalidated(st.tokens, user, purpose, at)[token := AuthToken(user, purpose, None, expires)])
      case ResetPassword(token, password, at) =>
        var t := st.tokens[token];
        Secured(st.(tokens := st.tokens[token := t.(usedAt := Some(at))]),
                t.user, st.users[t.user].(password := Some(password)), at)
      case VerifyEmail(token, at) =>
        var t := st.tokens[token];
        st.(tokens := st.tokens[token := t.(usedAt := Some(at))],
            users := st.users[t.user := st.users[t.user].(verified := true, mustVerify := false)])
      case Login(user, _, session, family, at, expires) =>
        st.(sessions := st.sessions[session := RefreshToken(user, family, None, None, expires)])
      case SecondFactor(user, session, family, at, expires) =>
        st.(sessions := st.sessions[session := RefreshToken(user, family, None, None, expires)])
      case Rotate(presented, session, at, expires) =>
        var r := st.sessions[presented];
        st.(sessions := st.sessions[presented := r.(revokedAt := Some(at), replacedBy := Some(session))]
                                   [session := RefreshToken(r.user, r.family, None, None, expires)])
      case Logout(user, at) => Secured(st, user, st.users[user], at)
      case ChangeFactor(user, enabled, at) => Secured(st, user, st.users[user].(mfa := enabled), at)
      case ChangePassword(user, _, password, at) =>
        Secured(st, user, st.users[user].(password := Some(password)), at)
      case SetActive(user, active, _) => st.(users := st.users[user := st.users[user].(active := active)])
    else if e.Rotate? && Reused(st0, e.presented) then
      var r := st.sessions[e.presented];
      st.(users := Bumped(st.users, r.user), sessions := FamilyRevoked(st.sessions, r.family, e.at))
    else st
  }

  /** The access token a request hands out, if any: always under the user's version of that moment. */
  function Minted(st: Accounts, e: Event): Option<Access>
    requires Enabled(st, e)
  {
    if !Succeeds(st, e) then None
    else
      match e
      case Register(user, _, _, _, _, _) => Some(Access(user, 0))
      case Login(user, _, _, _, _, _) => Some(Access(user, st.users[user].tokenVersion))
      case SecondFactor(user, _, _, _, _) => Some(Access(user, st.users[user].tokenVersion))
      case Rotate(presented, _, _, _) =>
        var user := st.sessions[presented].user;
        Some(Access(user, st.users[user].tokenVersion))
      case _ => None
  }

  // ---- What only ever moves one way -------------------------------------------------------

  predicate UserLater(a: User, b: User) { a.tokenVersion <= b.tokenVersion }

  predicate TokenLater(a: AuthToken, b: AuthToken)
  {
    b.user == a.user && b.purpose == a.purpose && b.expiresAt == a.expiresAt
    && (a.usedAt.Some? ==> b.usedAt == a.usedAt)
  }

  predicate RefreshLater(a: RefreshToken, b: RefreshToken)
  {
    b.user == a.user && b.family == a.family && b.expiresAt == a.expiresAt
    && (a.revokedAt.Some? ==> b.revokedAt == a.revokedAt)
  }

  predicate Later(a: Accounts, b: Accounts)
  {
    && a.now <= b.now
    && (forall u :: u in a.users ==> u in b.users && UserLater(a.users[u], b.users[u]))
    && (forall t :: t in a.tokens ==> t in b.tokens && TokenLater(a.tokens[t], b.tokens[t]))
    && (forall s :: s in a.sessions ==> s in b.sessions && RefreshLater(a.sessions[s], b.sessions[s]))
  }

  lemma StepUsers(st: Accounts, e: Event)
    requires Enabled(st, e)
    ensures forall u :: u in st.users ==> u in After(st, e).users && UserLater(st.users[u], After(st, e).users[u])
  {
  }

  lemma StepTokens(st: Accounts, e: Event)
    requires Enabled(st, e)
    ensures forall t :: t in st.tokens ==> t in After(st, e).tokens && TokenLater(st.tokens[t], After(st, e).tokens[t])
  {
  }

  lemma StepSessions(st: Accounts, e: Event)
    requires Enabled(st, e)
    ensures forall s :: s in st.sessions ==>
      s in After(st, e).sessions && RefreshLater(st.sessions[s], After(st, e).sessions[s])
  {
  }

  /** Versions only grow; used tokens stay used and revoked sessions revoked. */
  lemma StepIsLater(st: Accounts, e: Event)
    requires Enabled(st, e)
    ensures Later(st, After(st, e))
  {
    StepUsers(st, e);
    StepTokens(st, e);
    StepSessions(st, e);
  }

  ghost predicate Leads(st: Accounts, es: seq<Event>, st': Accounts)
    decreases es
  {
    if es == [] then st == st' else Enabled(st, es[0]) && Leads(After(st, es[0]), es[1..], st')
  }

  lemma LaterTransitive(a: Accounts, b: Accounts, c: Accounts)
    requires Later(a, b) && Later(b, c)
    ensures Later(a, c)
  {
  }

  lemma {:induction false} RunIsLater(st: Accounts, es: seq<Event>, st': Accounts)
    requires Leads(st, es, st')
    ensures Later(st, st')
    decreases es
  {
    if es != [] {
      StepIsLater(st, es[0]);
      RunIsLater(After(st, es[0]), es[1..], st');
      LaterTransitive(st, After(st, es[0]), st');
    }
  }

  // ---- A reset link works at most once ----------------------------------------------------

  /** How often a run resets a password with this token. */
  function Resets(st: Accounts, es: seq<Event>, token: Id): nat
    decreases es
  {
    if es == [] || !Enabled(st, es[0]) then 0
    else
      var here := if es[0].ResetPassword? && es[0].token == token && Succeeds(st, es[0]) then 1 else 0;
      here + Resets(After(st, es[0]), es[1..], token)
  }

  lemma {:induction false} ResetAtMostOnce(st: Accounts, es: seq<Event>, token: Id)
    ensures Resets(st, es, token) <= 1
    ensures token in st.tokens && st.tokens[token].usedAt.Some? ==> Resets(st, es, token) == 0
    decreases es
  {
    if es != [] && Enabled(st, es[0]) {
      StepIsLater(st, es[0]);
      ResetAtMostOnce(After(st, es[0]), es[1..], token);
    }
  }

  /** Asking for a new link ends every earlier one, for good. */
  lemma {:induction false} OnlyTheNewestLink(
    st: Accounts, e: Event, es: seq<Event>, st': Accounts, earlier: Id, password: string, at: Time)
    requires Enabled(st, e) && e.IssueToken? && Succeeds(st, e) && Leads(After(st, e), es, st')
    requires earlier in st.tokens && st.tokens[earlier].user == e.user && st.tokens[earlier].purpose == e.purpose
    ensures !TokenConsumed(st', earlier, e.purpose, at)
  {
    RunIsLater(After(st, e), es, st');
  }

  // ---- A reset ends every session ---------------------------------------------------------

  predicate EndsSessions(e: Event) { e.ResetPassword? || e.Logout? || e.ChangeFactor? || e.ChangePassword? }

  function Whose(st: Accounts, e: Event): Id
    requires EndsSessions(e) && Succeeds(st, e)
  {
    if e.ResetPassword? then st.tokens[e.token].user else e.user
  }

  lemma {:induction false} SessionsStayEnded(st: Accounts, e: Event, es: seq<Event>, st': Accounts, s: Id)
    requires Enabled(st, e) && EndsSessions(e) && Succeeds(st, e) && Leads(After(st, e), es, st')
    requires s in st.sessions && st.sessions[s].user == Whose(st, e)
    ensures s in st'.sessions && !Live(st'.sessions[s], st'.now)
  {
    StepIsLater(st, e);
    RunIsLater(After(st, e), es, st');
    SecuredNow(st, e);
    assert s in After(st, e).sessions && RefreshLater(After(st, e).sessions[s], st'.sessions[s]);
  }

  lemma {:induction false} AccessStaysRejected(
    st: Accounts, e: Event, es: seq<Event>, st': Accounts, a: Access)
    requires Enabled(st, e) && EndsSessions(e) && Succeeds(st, e) && Leads(After(st, e), es, st')
    requires a.user == Whose(st, e) && a.version <= st.users[a.user].tokenVersion
    ensures !Accepts(st'.users, a)
  {
    RunIsLater(After(st, e), es, st');
    SecuredNow(st, e);
    assert UserLater(After(st, e).users[a.user], st'.users[a.user]);
  }

  lemma {:induction false} MintedIsNoNewer(before: Accounts, e: Event, es: seq<Event>, st: Accounts)
    requires Enabled(before, e) && Minted(before, e).Some? && Leads(After(before, e), es, st)
    ensures var a := Minted(before, e).value; a.user in st.users && a.version <= st.users[a.user].tokenVersion
  {
    MintedVersion(before, e);
    RunIsLater(After(before, e), es, st);
    var a := Minted(before, e).value;
    assert UserLater(After(before, e).users[a.user], st.users[a.user]);
  }

  /** After a reset, at any later point of any run: no refresh token of the user from before it is live, none
      rotates, and every access token minted before it is rejected. */
  lemma {:induction false} ResetEndsSessions(
    before: Accounts, minting: Event, es: seq<Event>, st: Accounts, e: Event, es': seq<Event>, st': Accounts)
    requires Enabled(before, minting) && Leads(After(before, minting), es, st)
    requires Enabled(st, e) && EndsSessions(e) && Succeeds(st, e) && Leads(After(st, e), es', st')
    ensures forall s :: s in st.sessions && st.sessions[s].user == Whose(st, e) ==>
              s in st'.sessions && !Live(st'.sessions[s], st'.now) && !Rotated(st', s, st'.now)
    ensures var a := Minted(before, minting);
      a.Some? && a.value.user == Whose(st, e) ==> !Accepts(st'.users, a.value)
  {
    forall s | s in st.sessions && st.sessions[s].user == Whose(st, e)
      ensures s in st'.sessions && !Live(st'.sessions[s], st'.now)
    {
      SessionsStayEnded(st, e, es', st', s);
    }
    var a := Minted(before, minting);
    if a.Some? && a.value.user == Whose(st, e) {
      MintedIsNoNewer(before, minting, es, st);
      AccessStaysRejected(st, e, es', st', a.value);
    }
  }

  lemma MintedVersion(st: Accounts, e: Event)
    requires Enabled(st, e) && Minted(st, e).Some?
    ensures var a := Minted(st, e).value;
      a.user in After(st, e).users && a.version == After(st, e).users[a.user].tokenVersion
  {
  }

  lemma SecuredNow(st: Accounts, e: Event)
    requires Enabled(st, e) && EndsSessions(e) && Succeeds(st, e)
    ensures var user, st' := Whose(st, e), After(st, e);
      && user in st.users && user in st'.users
      && st'.users[user].tokenVersion == st.users[user].tokenVersion + 1
      && forall s :: s in st'.sessions && st'.sessions[s].user == user ==> !Live(st'.sessions[s], e.at)
  {
  }

  // ---- Families: one live token each, and none after a reuse ------------------------------

  predicate Unrevoked(st: Accounts, s: Id) { s in st.sessions && st.sessions[s].revokedAt.None? }

  ghost predicate OnePerFamily(st: Accounts)
  {
    forall s, r :: Unrevoked(st, s) && Unrevoked(st, r) && st.sessions[s].family == st.sessions[r].family ==> s == r
  }

  predicate Unused(st: Accounts, t: Id) { t in st.tokens && st.tokens[t].usedAt.None? }

  predicate SamePurpose(t: AuthToken, t': AuthToken) { t.user == t'.user && t.purpose == t'.purpose }

  ghost predicate OnePerUser(st: Accounts)
  {
    forall t, t' :: Unused(st, t) && Unused(st, t') && SamePurpose(st.tokens[t], st.tokens[t']) ==> t == t'
  }

  /** Who is unrevoked after a step was so before, unless it is the step's new session. */
  lemma UnrevokedBefore(st: Accounts, e: Event, s: Id)
    requires Enabled(st, e) && Unrevoked(After(st, e), s)
    ensures s in st.sessions ==> Unrevoked(st, s) && After(st, e).sessions[s].family == st.sessions[s].family
    ensures s in st.sessions && e.Rotate? && Succeeds(st, e) ==> s != e.presented
  {
  }

  /** A new session starts a family of its own, or takes the place of the token it replaces. */
  lemma NewSessionsFamily(st: Accounts, e: Event, s: Id)
    requires Enabled(st, e) && s in After(st, e).sessions && s !in st.sessions
    ensures (e.Register? || e.Login? || e.SecondFactor? || e.Rotate?) && s == e.session && Succeeds(st, e)
    ensures var family := After(st, e).sessions[s].family;
      if e.Rotate? then Unrevoked(st, e.presented) && st.sessions[e.presented].family == family
      else forall r :: r in st.sessions ==> st.sessions[r].family != family
  {
  }

  lemma StepKeepsOnePerFamily(st: Accounts, e: Event)
    requires OnePerFamily(st) && Enabled(st, e)
    ensures OnePerFamily(After(st, e))
  {
    var st' := After(st, e);
    forall s, r | Unrevoked(st', s) && Unrevoked(st', r) && st'.sessions[s].family == st'.sessions[r].family
      ensures s == r
    {
      UnrevokedBefore(st, e, s);
      UnrevokedBefore(st, e, r);
      if s !in st.sessions { NewSessionsFamily(st, e, s); }
      if r !in st.sessions { NewSessionsFamily(st, e, r); }
    }
  }

  lemma StepKeepsOnePerUser(st: Accounts, e: Event)
    requires OnePerUser(st) && Enabled(st, e)
    ensures OnePerUser(After(st, e))
  {
  }

  /** At every point of every run, a session family has at most one unrevoked token, and a user at most one
      unused token per purpose. */
  lemma {:induction false} SingleLiveTokens(st: Accounts, es: seq<Event>, st': Accounts)
    requires OnePerFamily(st) && OnePerUser(st) && Leads(st, es, st')
    ensures OnePerFamily(st') && OnePerUser(st')
    decreases es
  {
    if es != [] {
      StepKeepsOnePerFamily(st, es[0]);
      StepKeepsOnePerUser(st, es[0]);
      SingleLiveTokens(After(st, es[0]), es[1..], st');
    }
  }

  predicate FamilyDead(st: Accounts, family: Id)
  {
    && (exists s :: s in st.sessions && st.sessions[s].family == family)
    && (forall s :: s in st.sessions && st.sessions[s].family == family ==> st.sessions[s].revokedAt.Some?)
  }

  lemma {:induction false} DeadFamilyStaysDead(st: Accounts, es: seq<Event>, st': Accounts, family: Id)
    requires FamilyDead(st, family) && Leads(st, es, st')
    ensures FamilyDead(st', family)
    decreases es
  {
    if es != [] {
      var mid := After(st, es[0]);
      StepIsLater(st, es[0]);
      var s :| s in st.sessions && st.sessions[s].family == family;
      assert s in mid.sessions && mid.sessions[s].family == family;
      forall r | r in mid.sessions && mid.sessions[r].family == family ensures mid.sessions[r].revokedAt.Some? {
        if r in st.sessions { assert RefreshLater(st.sessions[r], mid.sessions[r]); }
      }
      DeadFamilyStaysDead(mid, es[1..], st', family);
    }
  }

  /** Presenting a rotated token ends its family for good, and every access token of the user so far. */
  lemma {:induction false} ReuseEndsFamily(
    st: Accounts, e: Event, es: seq<Event>, st': Accounts, a: Access)
    requires Enabled(st, e) && e.Rotate? && Reused(st, e.presented) && Leads(After(st, e), es, st')
    requires a.user == st.sessions[e.presented].user && a.user in st.users
    requires a.version <= st.users[a.user].tokenVersion
    ensures FamilyDead(st', st.sessions[e.presented].family)
    ensures !Accepts(st'.users, a)
  {
    var family, mid := st.sessions[e.presented].family, After(st, e);
    assert e.presented in mid.sessions && mid.sessions[e.presented].family == family;
    DeadFamilyStaysDead(mid, es, st', family);
    RunIsLater(mid, es, st');
    assert UserLater(mid.users[a.user], st'.users[a.user]);
  }

  // ---- The tables in place ----------------------------------------------------------------

  class AccountStore {
    var users: map<Id, User>
    var tokens: map<Id, AuthToken>
    var sessions: map<Id, RefreshToken>

    constructor ()
      ensures users == map[] && tokens == map[] && sessions == map[]
    {
      users, tokens, sessions := map[], map[], map[];
    }

    ghost function At(now: Time): Accounts
      reads this
    {
      Accounts(now, users, tokens, sessions)
    }

    method Claim(token: Id, purpose: Purpose, now: Time) returns (claimed: bool)
      modifies this`tokens
      ensures claimed == (token in old(tokens) && Claimable(old(tokens)[token], purpose, now))
      ensures tokens == if claimed then old(tokens)[token := old(tokens)[token].(usedAt := Some(now))]
                        else old(tokens)
    {
      claimed := token in tokens && Claimable(tokens[token], purpose, now);
      if claimed { tokens := tokens[token := tokens[token].(usedAt := Some(now))]; }
    }

    method InvalidateOutstanding(user: Id, purpose: Purpose, now: Time) returns (count: nat)
      modifies this`tokens
      ensures tokens == Invalidated(old(tokens), user, purpose, now)
      ensures count == |Changed(old(tokens), tokens)|
    {
      var hit := set t | t in tokens && tokens[t].user == user && tokens[t].purpose == purpose
                         && tokens[t].usedAt.None?;
      ghost var before := tokens;
      tokens := map t | t in tokens :: if t in hit then tokens[t].(usedAt := Some(now)) else tokens[t];
      count := |hit|;
      assert hit == Changed(before, tokens);
    }

    method RevokeAllForUser(user: Id, now: Time) returns (count: nat)
      modifies this`sessions
      ensures sessions == RevokedFor(old(sessions), user, now)
      ensures count == |Changed(old(sessions), sessions)|
    {
      var hit := set s | s in sessions && sessions[s].user == user && Live(sessions[s], now);
      ghost var before := sessions;
      sessions := map s | s in sessions :: if s in hit then sessions[s].(revokedAt := Some(now)) else sessions[s];
      count := |hit|;
      assert hit == Changed(before, sessions);
    }

    method RevokeFamily(family: Id, now: Time) returns (count: nat)
      modifies this`sessions
      ensures sessions == FamilyRevoked(old(sessions), family, now)
      ensures count == |Changed(old(sessions), sessions)|
    {
      var hit := set s | s in sessions && sessions[s].family == family && sessions[s].revokedAt.None?;
      ghost var before := sessions;
      sessions := map s | s in sessions :: if s in hit then sessions[s].(revokedAt := Some(now)) else sessions[s];
      count := |hit|;
      assert hit == Changed(before, sessions);
    }

    method MarkReplaced(token: Id, replacedBy: Id, now: Time) returns (claimed: bool)
      modifies this`sessions
      ensures claimed == (token in old(sessions) && old(sessions)[token].revokedAt.None?)
      ensures sessions == if claimed
        then old(sessions)[token := old(sessions)[token].(revokedAt := Some(now), replacedBy := Some(replacedBy))]
        else old(sessions)
    {
      claimed := token in sessions && sessions[token].revokedAt.None?;
      if claimed {
        sessions := sessions[token := sessions[token].(revokedAt := Some(now), replacedBy := Some(replacedBy))];
      }
    }

    /** Consumes the token, sets the password, revokes every session: the step `ResetPassword`, whole. */
    method ResetPassword(token: Id, password: string, now: Time) returns (ok: bool)
      modifies this
      ensures ok == Succeeds(old(At(now)), Event.ResetPassword(token, password, now))
      ensures At(now) == After(old(At(now)), Event.ResetPassword(token, password, now))
    {
      if token !in tokens || tokens[token].purpose != PasswordReset { return false; }
      if tokens[token].expiresAt <= now { return false; }
      var user := tokens[token].user;
      if user !in users || !users[user].active { return false; }
      ok := Claim(token, PasswordReset, now);
      if !ok { return; }
      var u := users[user].(password := Some(password));
      users := users[user := u.(tokenVersion := u.tokenVersion + 1)];
      var _ := RevokeAllForUser(user, now);
    }

    /** Invalidates earlier links, then adds the new one. */
    method RequestPasswordReset(user: Id, token: Id, now: Time, expires: Time) returns (sent: bool)
      requires token !in tokens
      modifies this
      ensures sent == Succeeds(old(At(now)), IssueToken(user, PasswordReset, token, now, expires))
      ensures At(now) == After(old(At(now)), IssueToken(user, PasswordReset, token, now, expires))
    {
      if user !in users || !users[user].active || users[user].password.None? { return false; }
      var _ := InvalidateOutstanding(user, PasswordReset, now);
      tokens := tokens[token := AuthToken(user, PasswordReset, None, expires)];
      sent := true;
    }

    /** Looks the token up, and rotates it if it may be: the step `Rotate`, whole. */
    method Refresh(presented: Id, session: Id, now: Time, expires: Time) returns (access: Option<Access>)
      requires session !in sessions
      modifies this
      ensures access == Minted(old(At(now)), Event.Rotate(presented, session, now, expires))
      ensures At(now) == After(old(At(now)), Event.Rotate(presented, session, now, expires))
    {
      if presented !in sessions { return None; }
      var record := sessions[presented];
      if record.revokedAt.Some? {
        OnReuseDetected(record, now);
        return None;
      }
      if record.expiresAt <= now { return None; }
      if record.user !in users || !MaySignIn(users[record.user]) { return None; }
      access := Exchange(presented, record, users[record.user].tokenVersion, session, now, expires);
    }

    /** Issues the successor, then claims the old token, given the rows as they were read. Whatever happened to
        the token since: if it was rotated or revoked, the successor is revoked too and the family ends. */
    method Exchange(presented: Id, record: RefreshToken, version: nat, session: Id, now: Time, expires: Time)
      returns (access: Option<Access>)
      requires session !in sessions && presented in sessions
      modifies this
      ensures tokens == old(tokens)
      ensures access.Some? <==> old(sessions)[presented].revokedAt.None?
      ensures access.Some? ==> access == Some(Access(record.user, version)) && users == old(users)
      ensures access.Some? ==> sessions == old(sessions)
        [presented := old(sessions)[presented].(revokedAt := Some(now), replacedBy := Some(session))]
        [session := RefreshToken(record.user, record.family, None, None, expires)]
      ensures access.None? ==>
        && users == Bumped(old(users), record.user)
        && sessions == FamilyRevoked(
             old(sessions)[session := RefreshToken(record.user, record.family, Some(now), None, expires)],
             record.family, now)
    {
      sessions := sessions[session := RefreshToken(record.user, record.family, None, None, expires)];
      var claimed := MarkReplaced(presented, session, now);
      if claimed { return Some(Access(record.user, version)); }
      sessions := sessions[session := Revoked(sessions[session], now)];
      OnReuseDetected(record, now);
      access := None;
    }

    method OnReuseDetected(record: RefreshToken, now: Time)
      modifies this
      ensures tokens == old(tokens)
      ensures users == Bumped(old(users), record.user) && sessions == FamilyRevoked(old(sessions), record.family, now)
    {
      var _ := RevokeFamily(record.family, now);
      if record.user in users {
        users := users[record.user := users[record.user].(tokenVersion := users[record.user].tokenVersion + 1)];
      }
    }

    /** Confirms the address named by an unused, live verification token. */
    method VerifyEmail(token: Id, now: Time) returns (ok: bool)
      modifies this
      ensures ok == Succeeds(old(At(now)), Event.VerifyEmail(token, now))
      ensures At(now) == After(old(At(now)), Event.VerifyEmail(token, now))
    {
      if token !in tokens || !Claimable(tokens[token], EmailVerification, now) { return false; }
      var user := tokens[token].user;
      if user !in users || !users[user].active { return false; }
      ok := Claim(token, EmailVerification, now);
      if ok { users := users[user := users[user].(verified := true, mustVerify := false)]; }
    }

    /** A correct password, past the verification and second-factor gates, starts a session family. */
    method Login(user: Id, password: string, session: Id, family: Id, now: Time, expires: Time)
      returns (access: Option<Access>)
      requires NewSession(At(now), session, family)
      modifies this
      ensures access == Minted(old(At(now)), Event.Login(user, password, session, family, now, expires))
      ensures At(now) == After(old(At(now)), Event.Login(user, password, session, family, now, expires))
    {
      if user !in users || !users[user].active || users[user].password != Some(password) { return None; }
      if users[user].mustVerify && !users[user].verified { return None; }
      if users[user].mfa { return None; }
      sessions := sessions[session := RefreshToken(user, family, None, None, expires)];
      access := Some(Access(user, users[user].tokenVersion));
    }

    method Logout(user: Id, now: Time)
      requires user in users
      modifies this
      ensures At(now) == After(old(At(now)), Event.Logout(user, now))
    {
      users := users[user := users[user].(tokenVersion := users[user].tokenVersion + 1)];
      var _ := RevokeAllForUser(user, now);
    }

    method ChangePassword(user: Id, current: string, password: string, now: Time) returns (ok: bool)
      requires user in users
      modifies this
      ensures ok == Succeeds(old(At(now)), Event.ChangePassword(user, current, password, now))
      ensures At(now) == After(old(At(now)), Event.ChangePassword(user, current, password, now))
    {
      if users[user].password != Some(current) { return false; }
      var u := users[user].(password := Some(password));
      users := users[user := u.(tokenVersion := u.tokenVersion + 1)];
      var _ := RevokeAllForUser(user, now);
      ok := true;
    }
  }
}
