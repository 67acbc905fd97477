/** A token rotation, a password login and a second-factor login racing a password reset, statement by statement.
    Each is a transaction under READ COMMITTED: an UPDATE picks its rows from what is committed as it starts, waits
    for a row another transaction has written, and looks at the row again before it writes. Each can be rolled
    back, and tried again. A password login and a reset both write the user's own row, so such a login does not
    commit between the reset's write of that row and its end; the transaction that starts a session after a second
    factor writes no users row. */
module SessionRace {
  import opened Base
  import opened AccountSessions

  type Table = map<Id, RefreshToken>

  /** What does not change: the user, the token presented, the ids its successor and the sessions of the two logins
      get, the new family of those, and the clock. */
  datatype Setting = Setting(
    user: Id, presented: Id, successor: Id, login: Id, factor: Id, family: Id, now: Time, expires: Time)

  datatype Rotation = NotLooked | Looked | Inserted | Claimed | Lost | Rotated | Refused

  /** The login presents the old password: good until the reset commits. */
  datatype Login = NotChecked | Checked | Denied | LoggedIn

  /** `todo`: the rows the revoking UPDATE picked; `seen`: those it has reached; `held`: those it has written. */
  datatype Reset =
    | NotStarted
    | UserWritten
    | Revoking(todo: set<Id>, seen: set<Id>, held: set<Id>)
    | Committed

  /** `signedIn`: the second-factor login has committed. */
  datatype State = State(sessions: Table, rotation: Rotation, login: Login, signedIn: bool, reset: Reset)

  datatype Event =
    | Look
    | Insert
    | Claim
    | CommitRotation
    | CommitRefusal
    | AbortRotation
    | CheckPassword
    | CommitLogin
    | AbortLogin
    | CommitSecondFactor
    | WriteUser
    | PickRows
    | Reach(id: Id)
    | CommitReset
    | AbortReset

  function LiveOf(c: Setting, t: Table): set<Id> { set s | s in t && t[s].user == c.user && Live(t[s], c.now) }

  /** The rotation has written the presented row and not committed. */
  predicate LockedByRotation(c: Setting, st: State, id: Id) { st.rotation.Claimed? && id == c.presented }

  predicate LockedByReset(st: State, id: Id) { st.reset.Revoking? && id in st.reset.held }

  predicate Enabled(c: Setting, st: State, e: Event)
  {
    match e
    case Look => st.rotation.NotLooked?
    case Insert => st.rotation.Looked?
    case Claim => st.rotation.Inserted? && !LockedByReset(st, c.presented)
    case CommitRotation => st.rotation.Claimed?
    case CommitRefusal => st.rotation.Lost?
    case AbortRotation => st.rotation in {Looked, Inserted, Claimed, Lost}
    case CheckPassword => st.login.NotChecked?
    case CommitLogin => st.login.Checked? && (st.reset.NotStarted? || st.reset.Committed?)
    case AbortLogin => st.login.Checked?
    case CommitSecondFactor => !st.signedIn
    case WriteUser => st.reset.NotStarted?
    case PickRows => st.reset.UserWritten?
    case Reach(id) => st.reset.Revoking? && id in st.reset.todo - st.reset.seen && !LockedByRotation(c, st, id)
    case CommitReset => st.reset.Revoking? && st.reset.seen == st.reset.todo
    case AbortReset => st.reset.UserWritten? || st.reset.Revoking?
  }

  function NewSession(c: Setting, family: Id): RefreshToken { RefreshToken(c.user, family, None, None, c.expires) }

  function RotatedTable(c: Setting, t: Table): Table
    requires c.presented in t
  {
    t[c.presented := t[c.presented].(revokedAt := Some(c.now), replacedBy := Some(c.successor))]
     [c.successor := NewSession(c, t[c.presented].family)]
  }

  function RevokedRows(c: Setting, t: Table, held: set<Id>): Table
  {
    map s | s in t :: if s in held then Revoked(t[s], c.now) else t[s]
  }

  function After(c: Setting, st: State, e: Event): State
    requires Enabled(c, st, e) && c.presented in st.sessions
  {
    var t := st.sessions;
    match e
    case Look => st.(rotation := if Live(t[c.presented], c.now) then Looked else Refused)
    case Insert => st.(rotation := Inserted)
    case Claim => st.(rotation := if t[c.presented].revokedAt.None? then Claimed else Lost)
    case CommitRotation => st.(sessions := RotatedTable(c, t), rotation := Rotated)
    case CommitRefusal =>
      // A lost claim commits its successor revoked, and the rest of the family with it.
      var family := t[c.presented].family;
      st.(sessions := FamilyRevoked(t[c.successor := NewSession(c, family)], family, c.now), rotation := Refused)
    case AbortRotation => st.(rotation := NotLooked)
    case CheckPassword => st.(login := if st.reset.Committed? then Denied else Checked)
    case CommitLogin => st.(sessions := t[c.login := NewSession(c, c.family)], login := LoggedIn)
    case AbortLogin => st.(login := NotChecked)
    case CommitSecondFactor => st.(sessions := t[c.factor := NewSession(c, c.family)], signedIn := true)
    case WriteUser => st.(reset := UserWritten)
    case PickRows => st.(reset := Revoking(LiveOf(c, t), {}, {}))
    case Reach(id) =>
      var r := st.reset;
      var mine := id in t && t[id].revokedAt.None?;
      st.(reset := Revoking(r.todo, r.seen + {id}, if mine then r.held + {id} else r.held))
    case CommitReset => st.(sessions := RevokedRows(c, t, st.reset.held), reset := Committed)
    case AbortReset => st.(reset := NotStarted)
  }

  /** The presented token is the user's and live; the new ids and the logins' family are new. */
  predicate Starts(c: Setting, t: Table)
  {
    && c.presented in t && t[c.presented].user == c.user && Live(t[c.presented], c.now) && c.expires > c.now
    && c.successor !in t && c.login !in t && c.factor !in t
    && c.login != c.successor && c.factor != c.successor && c.factor != c.login
    && (forall s :: s in t ==> t[s].family != c.family)
  }

  ghost predicate Runs(c: Setting, t: Table, es: seq<Event>, st: State)
    decreases es
  {
    if es == [] then st == State(t, NotLooked, NotChecked, false, NotStarted)
    else exists m: State ::
      Runs(c, t, es[..|es| - 1], m) && c.presented in m.sessions && Enabled(c, m, es[|es| - 1])
      && st == After(c, m, es[|es| - 1])
  }

  /** The events since the reset was last rolled back. */
  function Attempt(es: seq<Event>): seq<Event>
  {
    if es == [] || es[|es| - 1] == AbortReset then [] else Attempt(es[..|es| - 1]) + [es[|es| - 1]]
  }

  /** A transaction commits after that attempt has picked the rows to revoke. */
  predicate Slips(a: seq<Event>, commit: Event)
  {
    exists i, j :: 0 <= i < j < |a| && a[i] == PickRows && a[j] == commit
  }

  /** The sessions started by transactions that do. */
  function SlippedIn(c: Setting, a: seq<Event>): set<Id>
  {
    (if Slips(a, CommitRotation) then {c.successor} else {})
    + (if Slips(a, CommitLogin) then {c.login} else {})
    + (if Slips(a, CommitSecondFactor) then {c.factor} else {})
  }

  function Slipped(c: Setting, es: seq<Event>): set<Id> { SlippedIn(c, Attempt(es)) }

  predicate Picked(es: seq<Event>) { PickRows in Attempt(es) }

  /** The session a commit starts. */
  function Started(c: Setting, e: Event): set<Id>
  {
    match e
    case CommitRotation => {c.successor}
    case CommitLogin => {c.login}
    case CommitSecondFactor => {c.factor}
    case _ => {}
  }

  lemma SlipsAppend(a: seq<Event>, e: Event, commit: Event)
    ensures Slips(a + [e], commit) <==> Slips(a, commit) || (PickRows in a && e == commit)
  {
    var all := a + [e];
    if PickRows in a && e == commit {
      var i :| 0 <= i < |a| && a[i] == PickRows;
      assert all[i] == PickRows && all[|a|] == e;
    }
    if Slips(a, commit) {
      var i, j :| 0 <= i < j < |a| && a[i] == PickRows && a[j] == commit;
      assert all[i] == PickRows && all[j] == commit;
    }
  }

  lemma SlippedAppend(c: Setting, a: seq<Event>, e: Event)
    ensures SlippedIn(c, a + [e]) == SlippedIn(c, a) + if PickRows in a then Started(c, e) else {}
  {
    SlipsAppend(a, e, CommitRotation);
    SlipsAppend(a, e, CommitLogin);
    SlipsAppend(a, e, CommitSecondFactor);
  }

  lemma OneMoreEvent(c: Setting, es: seq<Event>, e: Event)
    ensures e == AbortReset ==> !Picked(es + [e]) && Slipped(c, es + [e]) == {}
    ensures e != AbortReset ==> (Picked(es + [e]) <==> Picked(es) || e == PickRows)
    ensures e != AbortReset ==> Slipped(c, es + [e]) == Slipped(c, es) + if Picked(es) then Started(c, e) else {}
  {
    assert (es + [e])[..|es|] == es;
    SlippedAppend(c, Attempt(es), e);
  }

  // ---- What the run so far says about the state -------------------------------------------

  predicate HasPicked(st: State) { st.reset.Revoking? || st.reset.Committed? }

  /** The sessions added so far. */
  function Arrived(c: Setting, st: State): set<Id>
  {
    (if st.rotation.Rotated? then {c.successor} else {})
    + (if st.login.LoggedIn? then {c.login} else {})
    + (if st.signedIn then {c.factor} else {})
  }

  /** Until the reset commits: the first rows, the presented one possibly rotated, and what has arrived, live. */
  predicate RowsBefore(c: Setting, t: Table, st: State)
    requires c.presented in t && c.presented in st.sessions
  {
    && (forall s :: s in t && s != c.presented ==> s in st.sessions && st.sessions[s] == t[s])
    && (forall s :: s in st.sessions ==> s in t || s in Arrived(c, st))
    && (forall x :: x in Arrived(c, st) ==> x in LiveOf(c, st.sessions))
    && !st.rotation.Lost? && !st.rotation.Refused?
    && (if st.rotation.Rotated? then st.sessions[c.presented].revokedAt.Some?
        else st.sessions[c.presented] == t[c.presented])
  }

  /** The rotation's family is not the logins'. */
  predicate Families(c: Setting, st: State)
  {
    && c.presented in st.sessions && st.sessions[c.presented].family != c.family
    && (c.login in st.sessions ==> st.login.LoggedIn? && st.sessions[c.login].family == c.family)
    && (c.factor in st.sessions ==> st.signedIn && st.sessions[c.factor].family == c.family)
  }

  /** The revoking UPDATE has picked all that is live but what has slipped by. What it has written stays live until
      it commits, and it passes over nothing live. */
  predicate Progress(c: Setting, slipped: set<Id>, st: State)
    requires st.reset.Revoking?
  {
    var todo, seen, held := st.reset.todo, st.reset.seen, st.reset.held;
    && held <= seen <= todo && held <= LiveOf(c, st.sessions)
    && (forall s :: s in todo ==> s in st.sessions && st.sessions[s].user == c.user && st.sessions[s].expiresAt > c.now)
    && (forall s :: s in LiveOf(c, st.sessions) ==> (s in todo <==> s !in slipped))
    && (forall s :: s in seen && s in LiveOf(c, st.sessions) ==> s in held)
    && (c.presented in held ==> !st.rotation.Claimed?)
  }

  /** Once the reset has committed, what is live of the user's is what slipped by. */
  predicate AfterReset(c: Setting, slipped: set<Id>, st: State)
    requires c.presented in st.sessions
  {
    && st.sessions[c.presented].revokedAt.Some? && !st.rotation.Claimed?
    && LiveOf(c, st.sessions) == slipped
    && (c.successor in st.sessions ==> st.rotation.Rotated? || st.rotation.Refused?)
  }

  predicate Inv(c: Setting, t: Table, slipped: set<Id>, st: State)
    requires c.presented in t
  {
    && Families(c, st) && slipped <= Arrived(c, st)
    && match st.reset
       case Committed => AfterReset(c, slipped, st)
       case Revoking(_, _, _) => RowsBefore(c, t, st) && Progress(c, slipped, st)
       case _ => RowsBefore(c, t, st) && slipped == {}
  }

  /** What every step starts from, and what it leads to. */
  predicate Ready(c: Setting, t: Table, slipped: set<Id>, st: State, e: Event)
  {
    Starts(c, t) && Inv(c, t, slipped, st) && Enabled(c, st, e)
  }

  function NextSlipped(c: Setting, slipped: set<Id>, st: State, e: Event): set<Id>
  {
    if e == AbortReset then {} else slipped + if HasPicked(st) then Started(c, e) else {}
  }

  lemma TryKeepsInv(c: Setting, t: Table, slipped: set<Id>, st: State, e: Event)
    requires Ready(c, t, slipped, st, e) && (e.Look? || e.Insert? || e.Claim? || e.AbortRotation?)
    ensures Inv(c, t, slipped, After(c, st, e))
  {
    assert Arrived(c, After(c, st, e)) == Arrived(c, st);
  }

  lemma CheckKeepsInv(c: Setting, t: Table, slipped: set<Id>, st: State, e: Event)
    requires Ready(c, t, slipped, st, e) && (e.CheckPassword? || e.AbortLogin?)
    ensures Inv(c, t, slipped, After(c, st, e))
  {
    assert Arrived(c, After(c, st, e)) == Arrived(c, st);
  }

  lemma RotatedLive(c: Setting, t: Table)
    requires c.presented in t && c.presented != c.successor && c.expires > c.now
    ensures LiveOf(c, RotatedTable(c, t)) == LiveOf(c, t) - {c.presented} + {c.successor}
  {
  }

  lemma RotatedArrives(c: Setting, st: State)
    ensures Arrived(c, st.(rotation := Rotated)) == Arrived(c, st) + {c.successor}
  {
  }

  lemma RotationKeepsRows(c: Setting, t: Table, slipped: set<Id>, st: State)
    requires Ready(c, t, slipped, st, CommitRotation)
    ensures !st.reset.Committed? && c.successor !in st.sessions
    ensures var after := After(c, st, CommitRotation);
      && Families(c, after) && RowsBefore(c, t, after)
      && Arrived(c, after) == Arrived(c, st) + {c.successor}
      && LiveOf(c, after.sessions) == LiveOf(c, st.sessions) - {c.presented} + {c.successor}
  {
    RotatedLive(c, st.sessions);
    RotatedArrives(c, st);
    assert Arrived(c, After(c, st, CommitRotation)) == Arrived(c, st.(rotation := Rotated));
  }

  lemma RotationKeepsProgress(c: Setting, t: Table, slipped: set<Id>, st: State)
    requires Ready(c, t, slipped, st, CommitRotation) && st.reset.Revoking?
    ensures Progress(c, slipped + {c.successor}, After(c, st, CommitRotation))
  {
    RotationKeepsRows(c, t, slipped, st);
  }

  lemma RotationKeepsInv(c: Setting, t: Table, slipped: set<Id>, st: State)
    requires Ready(c, t, slipped, st, CommitRotation)
    ensures Inv(c, t, NextSlipped(c, slipped, st, CommitRotation), After(c, st, CommitRotation))
  {
    RotationKeepsRows(c, t, slipped, st);
    if st.reset.Revoking? { RotationKeepsProgress(c, t, slipped, st); }
  }

  lemma RefusalKeepsInv(c: Setting, t: Table, slipped: set<Id>, st: State)
    requires Ready(c, t, slipped, st, CommitRefusal)
    ensures Inv(c, t, slipped, After(c, st, CommitRefusal))
  {
    assert LiveOf(c, After(c, st, CommitRefusal).sessions) == LiveOf(c, st.sessions);
  }

  lemma LoginKeepsInv(c: Setting, t: Table, slipped: set<Id>, st: State)
    requires Ready(c, t, slipped, st, CommitLogin)
    ensures Inv(c, t, NextSlipped(c, slipped, st, CommitLogin), After(c, st, CommitLogin))
  {
    var after := After(c, st, CommitLogin);
    assert Arrived(c, after) == Arrived(c, st) + {c.login};
    assert LiveOf(c, after.sessions) == LiveOf(c, st.sessions) + {c.login};
  }

  lemma SecondFactorKeepsInv(c: Setting, t: Table, slipped: set<Id>, st: State)
    requires Ready(c, t, slipped, st, CommitSecondFactor)
    ensures Inv(c, t, NextSlipped(c, slipped, st, CommitSecondFactor), After(c, st, CommitSecondFactor))
  {
    var after := After(c, st, CommitSecondFactor);
    assert Arrived(c, after) == Arrived(c, st) + {c.factor};
    assert LiveOf(c, after.sessions) == LiveOf(c, st.sessions) + {c.factor};
  }

  lemma PickKeepsInv(c: Setting, t: Table, slipped: set<Id>, st: State, e: Event)
    requires Ready(c, t, slipped, st, e) && (e.WriteUser? || e.PickRows? || e.AbortReset?)
    ensures Inv(c, t, NextSlipped(c, slipped, st, e), After(c, st, e))
  {
    assert Arrived(c, After(c, st, e)) == Arrived(c, st);
  }

  lemma ReachKeepsInv(c: Setting, t: Table, slipped: set<Id>, st: State, id: Id)
    requires Ready(c, t, slipped, st, Reach(id))
    ensures Inv(c, t, slipped, After(c, st, Reach(id)))
  {
    assert Arrived(c, After(c, st, Reach(id))) == Arrived(c, st);
  }

  lemma ResetKeepsInv(c: Setting, t: Table, slipped: set<Id>, st: State)
    requires Ready(c, t, slipped, st, CommitReset)
    ensures Inv(c, t, slipped, After(c, st, CommitReset))
  {
    assert LiveOf(c, After(c, st, CommitReset).sessions) == LiveOf(c, st.sessions) - st.reset.held;
  }

  lemma StepKeepsInv(c: Setting, t: Table, slipped: set<Id>, st: State, e: Event)
    requires Ready(c, t, slipped, st, e)
    ensures Inv(c, t, NextSlipped(c, slipped, st, e), After(c, st, e))
  {
    assert Started(c, e) == {} && e != AbortReset ==> NextSlipped(c, slipped, st, e) == slipped;
    match e
    case Look => TryKeepsInv(c, t, slipped, st, e);
    case Insert => TryKeepsInv(c, t, slipped, st, e);
    case Claim => TryKeepsInv(c, t, slipped, st, e);
    case CommitRotation => RotationKeepsInv(c, t, slipped, st);
    case CommitRefusal => RefusalKeepsInv(c, t, slipped, st);
    case AbortRotation => TryKeepsInv(c, t, slipped, st, e);
    case CheckPassword => CheckKeepsInv(c, t, slipped, st, e);
    case CommitLogin => LoginKeepsInv(c, t, slipped, st);
    case AbortLogin => CheckKeepsInv(c, t, slipped, st, e);
    case CommitSecondFactor => SecondFactorKeepsInv(c, t, slipped, st);
    case WriteUser => PickKeepsInv(c, t, slipped, st, e);
    case PickRows => PickKeepsInv(c, t, slipped, st, e);
    case Reach(id) => ReachKeepsInv(c, t, slipped, st, id);
    case CommitReset => ResetKeepsInv(c, t, slipped, st);
    case AbortReset => PickKeepsInv(c, t, slipped, st, e);
  }

  predicate Follows(c: Setting, t: Table, es: seq<Event>, st: State)
    requires c.presented in t
  {
    Inv(c, t, Slipped(c, es), st) && (Picked(es) <==> HasPicked(st))
  }

  lemma StepFollows(c: Setting, t: Table, es: seq<Event>, st: State, e: Event)
    requires Starts(c, t) && Follows(c, t, es, st) && Enabled(c, st, e)
    ensures Follows(c, t, es + [e], After(c, st, e))
  {
    StepKeepsInv(c, t, Slipped(c, es), st, e);
    OneMoreEvent(c, es, e);
    assert NextSlipped(c, Slipped(c, es), st, e) == Slipped(c, es + [e]);
  }

  lemma {:induction false} RunKeepsInv(c: Setting, t: Table, es: seq<Event>, st: State)
    requires Starts(c, t) && Runs(c, t, es, st)
    ensures Follows(c, t, es, st)
    decreases es
  {
    if es == [] {
      assert Slipped(c, es) == {};
    } else {
      var front, e := es[..|es| - 1], es[|es| - 1];
      assert es == front + [e];
      var m: State :| Runs(c, t, front, m) && c.presented in m.sessions && Enabled(c, m, e) && st == After(c, m, e);
      RunKeepsInv(c, t, front, m);
      StepFollows(c, t, front, m, e);
    }
  }

  /** Once the reset has committed, what is left live of the user's is exactly the sessions started by transactions
      that committed after it had picked the rows to revoke. */
  lemma ResetLeavesExactly(c: Setting, t: Table, es: seq<Event>, st: State)
    requires Starts(c, t) && Runs(c, t, es, st) && st.reset.Committed?
    ensures LiveOf(c, st.sessions) == Slipped(c, es)
  {
    RunKeepsInv(c, t, es, st);
  }

  /** So it ends every session of the user exactly if there are none. */
  lemma ResetEndsAllExactly(c: Setting, t: Table, es: seq<Event>, st: State)
    requires Starts(c, t) && Runs(c, t, es, st) && st.reset.Committed?
    ensures var a := Attempt(es);
      LiveOf(c, st.sessions) == {} <==>
        !Slips(a, CommitRotation) && !Slips(a, CommitLogin) && !Slips(a, CommitSecondFactor)
  {
    ResetLeavesExactly(c, t, es, st);
    var a := Attempt(es);
    assert Slips(a, CommitRotation) ==> c.successor in Slipped(c, es);
    assert Slips(a, CommitLogin) ==> c.login in Slipped(c, es);
    assert Slips(a, CommitSecondFactor) ==> c.factor in Slipped(c, es);
  }

  /** A password login that commits after the reset has checked the old password before it. */
  predicate CheckedBefore(es: seq<Event>)
  {
    exists i, j :: 0 <= i < j < |es| && es[i] == CheckPassword && es[j] == CommitReset
  }

  lemma CheckedBeforeAppend(es: seq<Event>, e: Event)
    ensures CheckedBefore(es) ==> CheckedBefore(es + [e])
    ensures CheckPassword in es && e == CommitReset ==> CheckedBefore(es + [e])
  {
    var all := es + [e];
    if CheckPassword in es && e == CommitReset {
      var i :| 0 <= i < |es| && es[i] == CheckPassword;
      assert all[i] == CheckPassword && all[|es|] == CommitReset;
    }
    if i, j :| 0 <= i < j < |es| && es[i] == CheckPassword && es[j] == CommitReset {
      assert all[i] == CheckPassword && all[j] == CommitReset;
    }
  }

  lemma {:induction false} CheckedInTime(c: Setting, t: Table, es: seq<Event>, st: State)
    requires Runs(c, t, es, st)
    ensures st.login.Checked? ==> CheckPassword in es
    ensures st.login.Checked? && st.reset.Committed? ==> CheckedBefore(es)
    decreases es
  {
    if es != [] {
      var front, e := es[..|es| - 1], es[|es| - 1];
      assert es == front + [e];
      var m: State :| Runs(c, t, front, m) && c.presented in m.sessions && Enabled(c, m, e) && st == After(c, m, e);
      CheckedInTime(c, t, front, m);
      CheckedBeforeAppend(front, e);
    }
  }

  lemma LateLoginWasChecked(c: Setting, t: Table, es: seq<Event>, st: State)
    requires Runs(c, t, es, st) && st.reset.Committed? && c.presented in st.sessions && Enabled(c, st, CommitLogin)
    ensures CheckedBefore(es)
  {
    CheckedInTime(c, t, es, st);
  }

  /** And it commits only once the reset is over: a password login that slips by has waited for it. */
  lemma SlippingLoginIsLate(c: Setting, t: Table, es: seq<Event>, st: State)
    requires Starts(c, t) && Runs(c, t, es, st) && Picked(es) && Enabled(c, st, CommitLogin)
    ensures st.reset.Committed?
  {
    RunKeepsInv(c, t, es, st);
  }

  /** A rotation commits what the one-step rotation does. */
  lemma CommitsTheRotation(c: Setting, accounts: Accounts)
    requires c.presented in accounts.sessions && accounts.sessions[c.presented].user == c.user
    requires var e := AccountSessions.Event.Rotate(c.presented, c.successor, c.now, c.expires);
      AccountSessions.Enabled(accounts, e) && Succeeds(accounts, e)
    ensures RotatedTable(c, accounts.sessions) ==
      AccountSessions.After(accounts, AccountSessions.Event.Rotate(c.presented, c.successor, c.now, c.expires)).sessions
  {
  }

  /** Left alone from picking to commit, the revoking UPDATE is the one of the atomic reset. */
  lemma AloneItRevokesAll(c: Setting, st: State)
    requires c.presented in st.sessions && Enabled(c, st, CommitReset)
    requires st.reset.held == LiveOf(c, st.sessions)
    ensures After(c, st, CommitReset).sessions == RevokedFor(st.sessions, c.user, c.now)
  {
  }

  lemma Next(c: Setting, t: Table, es: seq<Event>, st: State, e: Event)
    returns (es': seq<Event>, st': State)
    requires Runs(c, t, es, st) && c.presented in st.sessions && Enabled(c, st, e) && (Picked(es) <==> HasPicked(st))
    ensures Runs(c, t, es', st') && st' == After(c, st, e) && (Picked(es') <==> HasPicked(st'))
    ensures Slipped(c, es') == NextSlipped(c, Slipped(c, es), st, e)
  {
    es', st' := es + [e], After(c, st, e);
    assert es'[..|es'| - 1] == es;
    OneMoreEvent(c, es, e);
  }

  const ONE := Setting(1, 10, 11, 12, 13, 6, 100, 200)
  const ONE_SESSION: Table := map[10 := RefreshToken(1, 5, None, None, 150)]

  /** A first attempt of the reset is rolled back; a login has checked the password. */
  lemma RolledBack() returns (es: seq<Event>, st: State)
    ensures Runs(ONE, ONE_SESSION, es, st) && !Picked(es) && Slipped(ONE, es) == {}
    ensures st == State(ONE_SESSION, NotLooked, Checked, false, NotStarted)
  {
    es, st := [], State(ONE_SESSION, NotLooked, NotChecked, false, NotStarted);
    es, st := Next(ONE, ONE_SESSION, es, st, CheckPassword);
    es, st := Next(ONE, ONE_SESSION, es, st, WriteUser);
    es, st := Next(ONE, ONE_SESSION, es, st, AbortReset);
  }

  /** A rotation claims the session's token. */
  lemma ClaimedOnce() returns (es: seq<Event>, st: State)
    ensures Runs(ONE, ONE_SESSION, es, st) && !Picked(es) && Slipped(ONE, es) == {}
    ensures st == State(ONE_SESSION, Claimed, Checked, false, NotStarted)
  {
    es, st := RolledBack();
    es, st := Next(ONE, ONE_SESSION, es, st, Look);
    es, st := Next(ONE, ONE_SESSION, es, st, Insert);
    es, st := Next(ONE, ONE_SESSION, es, st, Claim);
  }

  /** The reset picks its rows ... */
  lemma PickedBetween() returns (es: seq<Event>, st: State)
    ensures Runs(ONE, ONE_SESSION, es, st) && Picked(es) && Slipped(ONE, es) == {}
    ensures st == State(ONE_SESSION, Claimed, Checked, false, Revoking({10}, {}, {}))
  {
    es, st := ClaimedOnce();
    es, st := Next(ONE, ONE_SESSION, es, st, WriteUser);
    es, st := Next(ONE, ONE_SESSION, es, st, PickRows);
    assert LiveOf(ONE, ONE_SESSION) == {10};
  }

  /** ... the rotation and a second-factor login commit ... */
  lemma TwoSlipBy() returns (es: seq<Event>, st: State)
    ensures Runs(ONE, ONE_SESSION, es, st) && Picked(es) && Slipped(ONE, es) == {11, 13}
    ensures st.reset == Revoking({10}, {}, {}) && st.login.Checked? && st.rotation.Rotated?
    ensures 10 in st.sessions && st.sessions[10].revokedAt.Some?
  {
    es, st := PickedBetween();
    es, st := Next(ONE, ONE_SESSION, es, st, CommitRotation);
    es, st := Next(ONE, ONE_SESSION, es, st, CommitSecondFactor);
  }

  /** ... and it finds the presented row rotated ... */
  lemma ReachedTooLate() returns (es: seq<Event>, st: State)
    ensures Runs(ONE, ONE_SESSION, es, st) && Picked(es) && Slipped(ONE, es) == {11, 13}
    ensures st.reset == Revoking({10}, {10}, {}) && st.login.Checked? && 10 in st.sessions
  {
    var before, picked := TwoSlipBy();
    es, st := Next(ONE, ONE_SESSION, before, picked, Reach(10));
    assert st.reset.seen == {10};
  }

  /** ... and commits. */
  lemma CommittedOver() returns (es: seq<Event>, st: State)
    ensures Runs(ONE, ONE_SESSION, es, st) && Picked(es) && Slipped(ONE, es) == {11, 13}
    ensures st.reset.Committed? && st.login.Checked? && 10 in st.sessions
  {
    var before, reached := ReachedTooLate();
    es, st := Next(ONE, ONE_SESSION, before, reached, CommitReset);
  }

  /** Then the login goes on: all three sessions are left live. */
  lemma SurvivorsExist() returns (es: seq<Event>, st: State)
    ensures Starts(ONE, ONE_SESSION) && Runs(ONE, ONE_SESSION, es, st) && st.reset.Committed?
    ensures LiveOf(ONE, st.sessions) == {11, 12, 13}
  {
    es, st := CommittedOver();
    es, st := Next(ONE, ONE_SESSION, es, st, CommitLogin);
    ResetLeavesExactly(ONE, ONE_SESSION, es, st);
  }
}
