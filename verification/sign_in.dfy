/** What each request does to the accounts, column by column, and what that means for signing in. */
module SignIn {
  import opened Base
  import opened AccountSessions

  // ---- Columns ----------------------------------------------------------------------------

  /** A reset with one of the user's tokens, or a change by the user, that goes through. */
  predicate SetsPassword(st: Accounts, e: Event, u: Id)
  {
    Succeeds(st, e) && ((e.ResetPassword? && st.tokens[e.token].user == u) || (e.ChangePassword? && e.user == u))
  }

  predicate Verifies(st: Accounts, e: Event, u: Id)
  {
    e.VerifyEmail? && Succeeds(st, e) && st.tokens[e.token].user == u
  }

  /** What ends a user's access tokens: a request that secures the account, or a reuse detected. */
  predicate Bumps(st: Accounts, e: Event, u: Id)
  {
    || (EndsSessions(e) && Succeeds(st, e) && Whose(st, e) == u)
    || (e.Rotate? && Reused(st, e.presented) && st.sessions[e.presented].user == u)
  }

  /** Each field of a user is changed by its own requests and by nothing else: the password ... */
  lemma PasswordAfter(st: Accounts, e: Event, u: Id)
    requires Enabled(st, e) && u in st.users
    ensures u in After(st, e).users
    ensures After(st, e).users[u].password == if SetsPassword(st, e, u) then Some(e.password) else st.users[u].password
  {
  }

  /** ... the flags ... */
  lemma FlagsAfter(st: Accounts, e: Event, u: Id)
    requires Enabled(st, e) && u in st.users
    ensures u in After(st, e).users
    ensures var a, b := st.users[u], After(st, e).users[u];
      && b.active == (if e.SetActive? && e.user == u then e.active else a.active)
      && b.mfa == (if e.ChangeFactor? && e.user == u then e.enabled else a.mfa)
      && b.verified == (Verifies(st, e, u) || a.verified)
      && b.mustVerify == (!Verifies(st, e, u) && a.mustVerify)
  {
  }

  /** ... and the version. */
  lemma VersionAfter(st: Accounts, e: Event, u: Id)
    requires Enabled(st, e) && u in st.users
    ensures u in After(st, e).users
    ensures After(st, e).users[u].tokenVersion == st.users[u].tokenVersion + if Bumps(st, e, u) then 1 else 0
  {
  }

  lemma NewUsers(st: Accounts, e: Event, u: Id)
    requires Enabled(st, e) && u in After(st, e).users && u !in st.users
    ensures e.Register? && e.user == u && After(st, e).users[u] == e.details.(tokenVersion := 0)
  {
  }

  /** What revokes a refresh token that is not revoked yet. */
  predicate Revokes(st: Accounts, e: Event, s: Id)
    requires s in st.sessions
  {
    var r := st.sessions[s];
    || (EndsSessions(e) && Succeeds(st, e) && Whose(st, e) == r.user && r.expiresAt > e.at)
    || (e.Rotate? && Succeeds(st, e) && e.presented == s)
    || (e.Rotate? && Reused(st, e.presented) && st.sessions[e.presented].family == r.family)
  }

  lemma SessionAfter(st: Accounts, e: Event, s: Id)
    requires Enabled(st, e) && s in st.sessions
    ensures s in After(st, e).sessions
    ensures var a, b := st.sessions[s], After(st, e).sessions[s];
      && b.user == a.user && b.family == a.family && b.expiresAt == a.expiresAt
      && b.revokedAt == (if a.revokedAt.None? && Revokes(st, e, s) then Some(e.at) else a.revokedAt)
      && b.replacedBy == (if e.Rotate? && Succeeds(st, e) && e.presented == s then Some(e.session) else a.replacedBy)
  {
  }

  lemma NewSessions(st: Accounts, e: Event, s: Id)
    requires Enabled(st, e) && s in After(st, e).sessions && s !in st.sessions
    ensures (e.Register? || e.Login? || e.SecondFactor? || e.Rotate?) && Succeeds(st, e) && s == e.session
    ensures var r := After(st, e).sessions[s];
      && r.revokedAt.None? && r.replacedBy.None? && r.expiresAt == e.expires
      && (if e.Rotate? then r.user == st.sessions[e.presented].user && r.family == st.sessions[e.presented].family
          else r.user == e.user && r.family == e.family)
  {
  }

  /** What uses up a single-use token. */
  predicate Spends(st: Accounts, e: Event, t: Id)
    requires t in st.tokens
  {
    || ((e.ResetPassword? || e.VerifyEmail?) && Succeeds(st, e) && e.token == t)
    || (e.IssueToken? && Succeeds(st, e) && st.tokens[t].user == e.user && st.tokens[t].purpose == e.purpose)
  }

  lemma TokenAfter(st: Accounts, e: Event, t: Id)
    requires Enabled(st, e) && t in st.tokens
    ensures t in After(st, e).tokens
    ensures var a, b := st.tokens[t], After(st, e).tokens[t];
      && b.user == a.user && b.purpose == a.purpose && b.expiresAt == a.expiresAt
      && b.usedAt == (if a.usedAt.None? && Spends(st, e, t) then Some(e.at) else a.usedAt)
  {
  }

  lemma NewTokens(st: Accounts, e: Event, t: Id)
    requires Enabled(st, e) && t in After(st, e).tokens && t !in st.tokens
    ensures e.IssueToken? && Succeeds(st, e) && t == e.token
    ensures After(st, e).tokens[t] == AuthToken(e.user, e.purpose, None, e.expires)
  {
  }

  /** A request that is turned away changes nothing but the time, unless it presents a revoked token. */
  lemma RefusedChangesNothing(st: Accounts, e: Event)
    requires Enabled(st, e) && !Succeeds(st, e) && !(e.Rotate? && Reused(st, e.presented))
    ensures After(st, e) == st.(now := e.at) && Minted(st, e).None?
  {
  }

  // ---- Who is let in ----------------------------------------------------------------------

  /** A login goes through exactly for an active user with that password, whose address is confirmed if it must be,
      and who has no second factor; a second factor only needs an active account. */
  lemma LoginExactly(st: Accounts, e: Event)
    ensures e.Login? ==>
      (Succeeds(st, e) <==>
         && e.user in st.users && st.users[e.user].active && st.users[e.user].password == Some(e.password)
         && (st.users[e.user].mustVerify ==> st.users[e.user].verified) && !st.users[e.user].mfa)
    ensures e.SecondFactor? ==> (Succeeds(st, e) <==> e.user in st.users && st.users[e.user].active)
    ensures e.ChangePassword? ==>
      (Succeeds(st, e) <==> e.user in st.users && st.users[e.user].password == Some(e.current))
    ensures e.Logout? || e.ChangeFactor? || e.SetActive? ==> (Succeeds(st, e) <==> e.user in st.users)
    ensures e.Register? ==> Succeeds(st, e)
  {
  }

  /** A refresh token rotates exactly if it is unrevoked and unexpired, and its user may sign in. */
  lemma RotatesExactly(st: Accounts, e: Event)
    requires e.Rotate?
    ensures Succeeds(st, e) <==>
      && e.presented in st.sessions
      && st.sessions[e.presented].revokedAt.None? && e.at < st.sessions[e.presented].expiresAt
      && st.sessions[e.presented].user in st.users
      && var u := st.users[st.sessions[e.presented].user]; u.active && (u.mustVerify ==> u.verified)
    ensures Reused(st, e.presented) <==> e.presented in st.sessions && st.sessions[e.presented].revokedAt.Some?
  {
  }

  /** A session just started can be rotated until it expires, and its access token is good, while its user may
      sign in. */
  lemma SessionIsGood(st: Accounts, e: Event, session: Id, at: Time, expires: Time)
    requires Enabled(st, e) && Minted(st, e).Some?
    ensures var st', user := After(st, e), Minted(st, e).value.user;
      && user in st'.users
      && (Accepts(st'.users, Minted(st, e).value) <==> MaySignIn(st'.users[user]))
      && (Succeeds(st', Event.Rotate(e.session, session, at, expires)) <==>
            at < e.expires && MaySignIn(st'.users[user]))
  {
  }

  /** A link is issued exactly to an active user who has a password, or an address to confirm ... */
  lemma IssuedExactly(st: Accounts, e: Event)
    requires e.IssueToken?
    ensures Succeeds(st, e) <==>
      && e.user in st.users && st.users[e.user].active
      && if e.purpose.PasswordReset? then st.users[e.user].password.Some? else !st.users[e.user].verified
  {
  }

  /** ... and just issued it works exactly for its own purpose, and until it expires. */
  lemma LinkWorksExactly(st: Accounts, e: Event, password: string, at: Time)
    requires Enabled(st, e) && e.IssueToken? && Succeeds(st, e)
    ensures Succeeds(After(st, e), Event.ResetPassword(e.token, password, at)) <==>
      e.purpose.PasswordReset? && at < e.expires
    ensures Succeeds(After(st, e), Event.VerifyEmail(e.token, at)) <==> e.purpose.EmailVerification? && at < e.expires
  {
  }

  // ---- What a user signs in with ----------------------------------------------------------

  /** No reset or change of this user's password goes through. */
  ghost predicate KeepsPassword(st: Accounts, es: seq<Event>, u: Id)
    decreases es
  {
    es == [] || !Enabled(st, es[0]) || (!SetsPassword(st, es[0], u) && KeepsPassword(After(st, es[0]), es[1..], u))
  }

  /** Nothing but a reset or a change ever changes what a user signs in with. */
  lemma {:induction false} PasswordStays(st: Accounts, es: seq<Event>, st': Accounts, u: Id)
    requires Leads(st, es, st') && u in st.users && KeepsPassword(st, es, u)
    ensures u in st'.users && st'.users[u].password == st.users[u].password
    decreases es
  {
    if es != [] {
      PasswordAfter(st, es[0], u);
      PasswordStays(After(st, es[0]), es[1..], st', u);
    }
  }

  /** After a reset or a change, and until the next one, the user signs in with the new password and with no
      other. */
  lemma SignsInWithTheNewPassword(
    st: Accounts, e: Event, u: Id, es: seq<Event>, st': Accounts, login: Event)
    requires Enabled(st, e) && SetsPassword(st, e, u) && Leads(After(st, e), es, st')
    requires KeepsPassword(After(st, e), es, u) && login.Login? && login.user == u
    ensures u in st'.users
    ensures var now := st'.users[u];
      now.active && (now.mustVerify ==> now.verified) && !now.mfa ==>
        (Succeeds(st', login) <==> login.password == e.password)
  {
    PasswordAfter(st, e, u);
    PasswordStays(After(st, e), es, st', u);
    LoginExactly(st', login);
  }
}
