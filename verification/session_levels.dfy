/** The statement-by-statement races against the account model in which each request is one step: a request whose
    statements nobody interrupts is that step. */
module SessionLevels {
  import opened Base
  import Accounts = AccountSessions
  import Race = RotationRace
  import Versions = VersionRace

  type Requests = map<Race.RequestId, Race.Phase>

  function LiveIn(sessions: map<Accounts.Id, Accounts.RefreshToken>, family: Accounts.Id): set<Race.Id>
  {
    set s | s in sessions && sessions[s].family == family && sessions[s].revokedAt.None?
  }

  function DeadIn(sessions: map<Accounts.Id, Accounts.RefreshToken>, family: Accounts.Id): set<Race.Id>
  {
    set s | s in sessions && sessions[s].family == family && sessions[s].revokedAt.Some?
  }

  /** One family of the sessions table. */
  function View(st: Accounts.Accounts, family: Accounts.Id, requests: Requests): Race.State
  {
    Race.State(LiveIn(st.sessions, family), DeadIn(st.sessions, family), st.sessions.Keys, requests)
  }

  ghost predicate Leads(st: Race.State, es: seq<Race.Event>, st': Race.State)
    decreases es
  {
    if es == [] then st == st' else Race.Enabled(st, es[0]) && Leads(Race.After(st, es[0]), es[1..], st')
  }

  lemma LeadsStep(st: Race.State, e: Race.Event, es: seq<Race.Event>, st': Race.State)
    requires Race.Enabled(st, e) && Leads(Race.After(st, e), es, st')
    ensures Leads(st, [e] + es, st')
  {
    assert ([e] + es)[1..] == es;
  }

  /** No other transaction holds a row of the family. */
  predicate AtRest(requests: Requests) { forall q :: q in requests ==> Race.Holding(requests[q]) == {} }

  function Family(st: Accounts.Accounts, presented: Accounts.Id): Accounts.Id
    requires presented in st.sessions
  {
    st.sessions[presented].family
  }

  lemma RotatedView(st: Accounts.Accounts, e: Accounts.Event)
    requires Accounts.Enabled(st, e) && e.Rotate? && Accounts.Rotated(st, e.presented, e.at)
    ensures var f, before, after := Family(st, e.presented), st.sessions, Accounts.After(st, e).sessions;
      && LiveIn(after, f) == LiveIn(before, f) - {e.presented} + {e.session}
      && DeadIn(after, f) == DeadIn(before, f) + {e.presented} && after.Keys == before.Keys + {e.session}
  {
  }

  /** A live token, presented with nobody in between, is rotated as in one step. */
  lemma RotationAlone(st: Accounts.Accounts, e: Accounts.Event, requests: Requests, r: Race.RequestId)
    requires Accounts.Enabled(st, e) && e.Rotate? && Accounts.Rotated(st, e.presented, e.at)
    requires AtRest(requests) && r !in requests
    ensures var f := Family(st, e.presented);
      Leads(View(st, f, requests), [Race.Look(r, e.presented, e.session), Race.Claim(r), Race.Rotate(r)],
            View(Accounts.After(st, e), f, requests[r := Race.Finished]))
  {
    var f := Family(st, e.presented);
    var look, claim, rotate := Race.Look(r, e.presented, e.session), Race.Claim(r), Race.Rotate(r);
    var start := View(st, f, requests);
    var looked := Race.After(start, look);
    var claimed := Race.After(looked, claim);
    var rotated := Race.After(claimed, rotate);
    var end := View(Accounts.After(st, e), f, requests[r := Race.Finished]);
    RotatedView(st, e);
    Overwrite(requests, r, Race.Looked(e.presented, e.session), Race.Claimed(e.presented, e.session));
    Overwrite(requests, r, Race.Claimed(e.presented, e.session), Race.Finished);
    assert rotated == end;
    LeadsStep(claimed, rotate, [], end);
    LeadsStep(looked, claim, [rotate], end);
    LeadsStep(start, look, [claim, rotate], end);
    assert [look] + ([claim] + ([rotate] + [])) == [look, claim, rotate];
  }

  lemma RevokedView(st: Accounts.Accounts, e: Accounts.Event)
    requires Accounts.Enabled(st, e) && e.Rotate? && Accounts.Reused(st, e.presented)
    ensures var f, before, after := Family(st, e.presented), st.sessions, Accounts.After(st, e).sessions;
      && LiveIn(after, f) == {} && DeadIn(after, f) == DeadIn(before, f) + LiveIn(before, f)
      && after.Keys == before.Keys
  {
    var f, after := Family(st, e.presented), Accounts.After(st, e).sessions;
    assert after == Accounts.FamilyRevoked(st.sessions, f, e.at);
  }

  /** What is picked is reached, one row or none. */
  ghost function Reaches(live: set<Race.Id>, r: Race.RequestId): seq<Race.Event>
  {
    if live == {} then [] else var x :| x in live; [Race.Reach(r, x)]
  }

  lemma ReachesAll(st: Race.State, r: Race.RequestId)
    requires r in st.requests && st.requests[r] == Race.Revoking(st.live, {}, {})
    requires Race.AtMostOne(st.live) && forall q :: q in st.requests ==> Race.Holding(st.requests[q]) == {}
    ensures Leads(st, Reaches(st.live, r), st.(requests := st.requests[r := Race.Revoking(st.live, st.live, st.live)]))
  {
    if st.live == {} {
      assert st.requests[r := st.requests[r]] == st.requests;
    } else {
      var e := Reaches(st.live, r)[0];
      assert st.live == {e.id};
      assert {} + {e.id} == st.live;
      LeadsStep(st, e, [], Race.After(st, e));
      assert [e] + [] == Reaches(st.live, r);
    }
  }

  lemma {:induction false} LeadsConcat(
    a: Race.State, es: seq<Race.Event>, b: Race.State, fs: seq<Race.Event>, c: Race.State)
    requires Leads(a, es, b) && Leads(b, fs, c)
    ensures Leads(a, es + fs, c)
    decreases es
  {
    if es == [] {
      assert es + fs == fs;
    } else {
      LeadsConcat(Race.After(a, es[0]), es[1..], b, fs, c);
      assert (es + fs)[1..] == es[1..] + fs;
    }
  }

  /** A rotated token, presented with nobody in between, ends its family as in one step. */
  lemma ReuseAlone(st: Accounts.Accounts, e: Accounts.Event, requests: Requests, r: Race.RequestId)
    requires Accounts.Enabled(st, e) && e.Rotate? && Accounts.Reused(st, e.presented) && Accounts.OnePerFamily(st)
    requires AtRest(requests) && r !in requests
    ensures var f := Family(st, e.presented);
      var look := [Race.Look(r, e.presented, e.session), Race.Pick(r)];
      Leads(View(st, f, requests), look + Reaches(LiveIn(st.sessions, f), r) + [Race.Revoke(r)],
            View(Accounts.After(st, e), f, requests[r := Race.Finished]))
  {
    var f := Family(st, e.presented);
    var live := LiveIn(st.sessions, f);
    var look, pick, revoke := Race.Look(r, e.presented, e.session), Race.Pick(r), Race.Revoke(r);
    var start := View(st, f, requests);
    var looked := Race.After(start, look);
    var picked := Race.After(looked, pick);
    var reached := picked.(requests := picked.requests[r := Race.Revoking(live, live, live)]);
    var end := View(Accounts.After(st, e), f, requests[r := Race.Finished]);
    RevokedView(st, e);
    OneLive(st, f);
    ReachesAll(picked, r);
    Overwrite(requests, r, Race.Detected, Race.Revoking(live, {}, {}));
    Overwrite(requests, r, Race.Revoking(live, {}, {}), Race.Revoking(live, live, live));
    Overwrite(requests, r, Race.Revoking(live, live, live), Race.Finished);
    assert Race.After(reached, revoke) == end;
    LeadsStep(looked, pick, [], picked);
    LeadsStep(start, look, [pick], picked);
    LeadsConcat(start, [look, pick], picked, Reaches(live, r), reached);
    LeadsStep(reached, revoke, [], end);
    LeadsConcat(start, [look, pick] + Reaches(live, r), reached, [revoke], end);
  }

  lemma OneLive(st: Accounts.Accounts, family: Accounts.Id)
    requires Accounts.OnePerFamily(st)
    ensures Race.AtMostOne(LiveIn(st.sessions, family))
  {
    forall x, y | x in LiveIn(st.sessions, family) && y in LiveIn(st.sessions, family) ensures x == y {
      assert Accounts.Unrevoked(st, x) && Accounts.Unrevoked(st, y);
    }
  }

  /** A securing request whose read and write nobody comes between moves the version as in one step, and what is
      accepted afterwards is decided by that version. */
  lemma BumpAlone(st: Accounts.Accounts, e: Accounts.Event, race: Versions.State, b: Versions.RequestId)
    requires Accounts.Enabled(st, e) && Accounts.EndsSessions(e) && Accounts.Succeeds(st, e)
    requires var user := Accounts.Whose(st, e);
      user in st.users && race.version == st.users[user].tokenVersion && b !in race.read && b !in race.written
    ensures var user, after := Accounts.Whose(st, e), Accounts.After(st, e);
      var read := Versions.After(race, Versions.Read(b));
      var written := Versions.After(read, Versions.Write(b));
      && Versions.Enabled(race, Versions.Read(b)) && Versions.Enabled(read, Versions.Write(b))
      && user in after.users && after.users[user].tokenVersion == written.version
      && forall a: Accounts.Access :: a.user == user && Accounts.MaySignIn(after.users[user]) ==>
           (Accounts.Accepts(after.users, a) <==> a.version == written.version)
  {
    Accounts.SecuredNow(st, e);
  }
}
