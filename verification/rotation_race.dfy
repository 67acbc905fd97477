/** Presentations of the refresh tokens of one session family, any number at once, statement by statement. Each is
    a transaction under READ COMMITTED: an UPDATE picks its rows from what is committed as it starts, waits for a
    row another transaction has written, and looks at the row again before it writes. Each can be rolled back. */
module RotationRace {
  type Id = nat
  type RequestId = nat

  /** One presentation of a token: it finds the token unrevoked, adds a successor and claims the token; or it finds
      the token revoked, at first sight or by the claim, and revokes the family. `picked`: the rows the revoking
      UPDATE picked; `reached`: those it has looked at again; `held`: those it has written. */
  datatype Phase =
    | Looked(presented: Id, successor: Id)
    | Claimed(presented: Id, successor: Id)
    | Detected
    | Revoking(picked: set<Id>, reached: set<Id>, held: set<Id>)
    | Finished
    | RolledBack

  /** The family's committed rows, unrevoked and revoked, and every id ever drawn. */
  datatype State = State(live: set<Id>, dead: set<Id>, issued: set<Id>, requests: map<RequestId, Phase>)

  datatype Event =
    | Look(request: RequestId, presented: Id, successor: Id)
    | Claim(request: RequestId)
    | Rotate(request: RequestId)
    | Pick(request: RequestId)
    | Reach(request: RequestId, id: Id)
    | Revoke(request: RequestId)
    | Abort(request: RequestId)

  /** The rows a transaction has written and not committed. */
  function Holding(p: Phase): set<Id>
  {
    match p
    case Claimed(presented, _) => {presented}
    case Revoking(_, _, held) => held
    case _ => {}
  }

  /** The row it has inserted and not committed. */
  function Pending(p: Phase): set<Id> { if p.Looked? || p.Claimed? then {p.successor} else {} }

  predicate Locked(st: State, id: Id) { exists r :: r in st.requests && id in Holding(st.requests[r]) }

  predicate Enabled(st: State, e: Event)
  {
    match e
    case Look(r, presented, successor) =>
      r !in st.requests && presented in st.live + st.dead && successor !in st.issued
    case Claim(r) => r in st.requests && st.requests[r].Looked? && !Locked(st, st.requests[r].presented)
    case Rotate(r) => r in st.requests && st.requests[r].Claimed?
    case Pick(r) => r in st.requests && st.requests[r].Detected?
    case Reach(r, id) =>
      && r in st.requests && st.requests[r].Revoking?
      && id in st.requests[r].picked - st.requests[r].reached && !Locked(st, id)
    case Revoke(r) =>
      r in st.requests && st.requests[r].Revoking? && st.requests[r].reached == st.requests[r].picked
    case Abort(r) => r in st.requests && !st.requests[r].Finished? && !st.requests[r].RolledBack?
  }

  /** A lost claim's successor commits revoked and is never handed out, so it is not among the rows. */
  function After(st: State, e: Event): State
    requires Enabled(st, e)
  {
    match e
    case Look(r, presented, successor) =>
      if presented in st.live then
        st.(issued := st.issued + {successor}, requests := st.requests[r := Looked(presented, successor)])
      else
        st.(requests := st.requests[r := Detected])
    case Claim(r) =>
      var p := st.requests[r];
      var next := if p.presented in st.live then Claimed(p.presented, p.successor) else Detected;
      st.(requests := st.requests[r := next])
    case Rotate(r) =>
      var p := st.requests[r];
      st.(live := st.live - {p.presented} + {p.successor}, dead := st.dead + {p.presented},
          requests := st.requests[r := Finished])
    case Pick(r) => st.(requests := st.requests[r := Revoking(st.live, {}, {})])
    case Reach(r, id) =>
      var p := st.requests[r];
      var held := if id in st.live then p.held + {id} else p.held;
      st.(requests := st.requests[r := Revoking(p.picked, p.reached + {id}, held)])
    case Revoke(r) =>
      var held := st.requests[r].held;
      st.(live := st.live - held, dead := st.dead + held, requests := st.requests[r := Finished])
    case Abort(r) => st.(requests := st.requests[r := RolledBack])
  }

  /** The first n events are a run of a family that starts with one token. */
  predicate RunTo(first: Id, es: seq<Event>, n: nat)
    requires n <= |es|
    decreases n, 0
  {
    n == 0 || (RunTo(first, es, n - 1) && Enabled(At(first, es, n - 1), es[n - 1]))
  }

  function At(first: Id, es: seq<Event>, n: nat): State
    requires n <= |es| && RunTo(first, es, n)
    decreases n, 1
  {
    if n == 0 then State({first}, {}, {first}, map[]) else After(At(first, es, n - 1), es[n - 1])
  }

  // ---- What every interleaving keeps ------------------------------------------------------

  predicate AtMostOne(s: set<Id>) { forall x, y :: x in s && y in s ==> x == y }

  predicate PhaseOk(st: State, p: Phase)
  {
    && Pending(p) <= st.issued && Pending(p) !! st.live && Pending(p) !! st.dead
    && Holding(p) <= st.live
    && (p.Revoking? ==> p.held <= p.reached <= p.picked <= st.live + st.dead && AtMostOne(p.picked))
  }

  predicate Apart(p: Phase, q: Phase) { (Holding(p) == {} || Holding(q) == {}) && Pending(p) !! Pending(q) }

  predicate Inv(st: State)
  {
    && AtMostOne(st.live) && st.live !! st.dead && st.live <= st.issued && st.dead <= st.issued
    && (forall r :: r in st.requests ==> PhaseOk(st, st.requests[r]))
    && (forall r, q :: r in st.requests && q in st.requests && r != q ==> Apart(st.requests[r], st.requests[q]))
  }

  /** Whoever holds a row holds the live one, so nobody else holds any. */
  lemma UnlockedMeansFree(st: State, id: Id)
    requires Inv(st) && id in st.live && !Locked(st, id)
    ensures forall q :: q in st.requests ==> Holding(st.requests[q]) == {}
  {
    forall q | q in st.requests ensures Holding(st.requests[q]) == {} {
      assert PhaseOk(st, st.requests[q]);
      assert id !in Holding(st.requests[q]);
    }
  }

  /** What a step on request r has to show. */
  predicate Fits(st: State, r: RequestId, st': State)
  {
    && r in st'.requests && st'.requests == st.requests[r := st'.requests[r]]
    && AtMostOne(st'.live) && st'.live !! st'.dead && st'.live <= st'.issued && st'.dead <= st'.issued
    && PhaseOk(st', st'.requests[r])
    && (forall q :: q in st.requests && q != r ==>
          PhaseOk(st', st.requests[q]) && Apart(st.requests[q], st'.requests[r]))
  }

  lemma FitsKeepsInv(st: State, r: RequestId, st': State)
    requires Inv(st) && Fits(st, r, st')
    ensures Inv(st')
  {
    forall q | q in st'.requests ensures PhaseOk(st', st'.requests[q]) {
      if q != r { assert st'.requests[q] == st.requests[q]; }
    }
    forall q, q' | q in st'.requests && q' in st'.requests && q != q' ensures Apart(st'.requests[q], st'.requests[q']) {
      if q != r && q' != r { assert Apart(st.requests[q], st.requests[q']); }
    }
  }

  lemma LookFits(st: State, r: RequestId, presented: Id, successor: Id)
    requires Inv(st) && Enabled(st, Look(r, presented, successor))
    ensures Fits(st, r, After(st, Look(r, presented, successor)))
  {
  }

  lemma ClaimFits(st: State, r: RequestId)
    requires Inv(st) && Enabled(st, Claim(r))
    ensures Fits(st, r, After(st, Claim(r)))
  {
    var presented := st.requests[r].presented;
    assert PhaseOk(st, st.requests[r]);
    if presented in st.live { UnlockedMeansFree(st, presented); }
  }

  lemma RotateFits(st: State, r: RequestId)
    requires Inv(st) && Enabled(st, Rotate(r))
    ensures Fits(st, r, After(st, Rotate(r)))
  {
    assert PhaseOk(st, st.requests[r]);
    assert forall q :: q in st.requests && q != r ==> Apart(st.requests[q], st.requests[r]);
  }

  lemma PickFits(st: State, r: RequestId)
    requires Inv(st) && Enabled(st, Pick(r))
    ensures Fits(st, r, After(st, Pick(r)))
  {
  }

  lemma ReachFits(st: State, r: RequestId, id: Id)
    requires Inv(st) && Enabled(st, Reach(r, id))
    ensures Fits(st, r, After(st, Reach(r, id)))
  {
    assert PhaseOk(st, st.requests[r]);
    if id in st.live { UnlockedMeansFree(st, id); }
  }

  lemma RevokeFits(st: State, r: RequestId)
    requires Inv(st) && Enabled(st, Revoke(r))
    ensures Fits(st, r, After(st, Revoke(r)))
  {
    assert PhaseOk(st, st.requests[r]);
    assert forall q :: q in st.requests && q != r ==> Apart(st.requests[q], st.requests[r]);
  }

  lemma AbortFits(st: State, r: RequestId)
    requires Inv(st) && Enabled(st, Abort(r))
    ensures Fits(st, r, After(st, Abort(r)))
  {
  }

  lemma StepKeepsInv(st: State, e: Event)
    requires Inv(st) && Enabled(st, e)
    ensures Inv(After(st, e))
  {
    match e {
      case Look(r, presented, successor) => LookFits(st, r, presented, successor);
      case Claim(r) => ClaimFits(st, r);
      case Rotate(r) => RotateFits(st, r);
      case Pick(r) => PickFits(st, r);
      case Reach(r, id) => ReachFits(st, r, id);
      case Revoke(r) => RevokeFits(st, r);
      case Abort(r) => AbortFits(st, r);
    }
    FitsKeepsInv(st, e.request, After(st, e));
  }

  lemma SmallSet(s: set<Id>)
    requires AtMostOne(s)
    ensures |s| <= 1
  {
    if s != {} {
      var x :| x in s;
      assert s == {x};
    }
  }

  lemma {:induction false} RunKeepsInv(first: Id, es: seq<Event>, n: nat)
    requires n <= |es| && RunTo(first, es, n)
    ensures Inv(At(first, es, n))
    decreases n
  {
    if n > 0 {
      RunKeepsInv(first, es, n - 1);
      StepKeepsInv(At(first, es, n - 1), es[n - 1]);
    }
  }

  /** However many presentations run at once, the family never has two live tokens. */
  lemma AtMostOneLive(first: Id, es: seq<Event>, n: nat)
    requires n <= |es| && RunTo(first, es, n)
    ensures |At(first, es, n).live| <= 1
  {
    RunKeepsInv(first, es, n);
    SmallSet(At(first, es, n).live);
  }

  // ---- What one revocation leaves ---------------------------------------------------------

  /** Of the first n events, one is the picking of r ... */
  predicate Picked(es: seq<Event>, r: RequestId, n: nat)
    requires n <= |es|
  {
    exists i :: 0 <= i < n && es[i] == Pick(r)
  }

  /** ... and a rotation commits after it ... */
  predicate RotatedSince(es: seq<Event>, r: RequestId, n: nat)
    requires n <= |es|
  {
    exists j :: 0 <= j < n && es[j].Rotate? && Picked(es, r, j)
  }

  /** ... before r gets to the row it picked. */
  predicate Overtaken(es: seq<Event>, r: RequestId, n: nat)
    requires n <= |es|
  {
    exists k :: 0 <= k < n && es[k].Reach? && es[k].request == r && RotatedSince(es, r, k)
  }

  lemma OneMoreEvent(es: seq<Event>, r: RequestId, n: nat)
    requires n < |es|
    ensures Picked(es, r, n + 1) <==> Picked(es, r, n) || es[n] == Pick(r)
    ensures RotatedSince(es, r, n + 1) <==> RotatedSince(es, r, n) || (es[n].Rotate? && Picked(es, r, n))
    ensures Overtaken(es, r, n + 1) <==>
      Overtaken(es, r, n) || (es[n].Reach? && es[n].request == r && RotatedSince(es, r, n))
  {
  }

  /** Nothing is picked before r revokes; a picked row is gone once a rotation commits, and held or gone once
      reached. */
  predicate Follows(es: seq<Event>, r: RequestId, n: nat, live: set<Id>, p: Phase)
    requires n <= |es|
  {
    && (p.Looked? || p.Claimed? || p.Detected? ==> !Picked(es, r, n))
    && (p.Revoking? ==>
          && Picked(es, r, n) && (p.picked == {} ==> live == {})
          && (if p.reached == {} then
                !Overtaken(es, r, n) && if RotatedSince(es, r, n) then live !! p.picked else live <= p.picked
              else
                && p.reached == p.picked
                && if Overtaken(es, r, n) then p.held == {} && live !! p.picked else live <= p.held))
  }

  ghost predicate Tracks(es: seq<Event>, n: nat, st: State)
    requires n <= |es|
  {
    forall r :: if r in st.requests then Follows(es, r, n, st.live, st.requests[r]) else !Picked(es, r, n)
  }

  lemma NeverPicked(es: seq<Event>, r: RequestId, n: nat)
    requires n <= |es| && !Picked(es, r, n)
    ensures !RotatedSince(es, r, n) && !Overtaken(es, r, n)
  {
  }

  /** The steps of others. */
  lemma OtherStepFollows(es: seq<Event>, r: RequestId, n: nat, st: State)
    requires n < |es| && Inv(st) && Enabled(st, es[n]) && r in st.requests && es[n].request != r
    requires Follows(es, r, n, st.live, st.requests[r])
    ensures Follows(es, r, n + 1, After(st, es[n]).live, st.requests[r])
  {
    OneMoreEvent(es, r, n);
    if es[n].Rotate? {
      var q := es[n].request;
      assert PhaseOk(st, st.requests[q]) && PhaseOk(st, st.requests[r]) && Apart(st.requests[q], st.requests[r]);
    }
  }

  /** And its own. */
  lemma OwnStepFollows(es: seq<Event>, n: nat, st: State)
    requires n < |es| && Inv(st) && Enabled(st, es[n]) && Tracks(es, n, st)
    ensures var r, st' := es[n].request, After(st, es[n]); Follows(es, r, n + 1, st'.live, st'.requests[r])
  {
    var r := es[n].request;
    OneMoreEvent(es, r, n);
    if !Picked(es, r, n) { NeverPicked(es, r, n); }
    if es[n].Reach? { assert PhaseOk(st, st.requests[r]); }
  }

  lemma StepTracks(es: seq<Event>, n: nat, st: State)
    requires n < |es| && Inv(st) && Enabled(st, es[n]) && Tracks(es, n, st)
    ensures Tracks(es, n + 1, After(st, es[n]))
  {
    var st' := After(st, es[n]);
    OwnStepFollows(es, n, st);
    forall r
      ensures if r in st'.requests then Follows(es, r, n + 1, st'.live, st'.requests[r]) else !Picked(es, r, n + 1)
    {
      if r != es[n].request {
        OneMoreEvent(es, r, n);
        if r in st.requests { OtherStepFollows(es, r, n, st); }
      }
    }
  }

  lemma {:induction false} RunTracks(first: Id, es: seq<Event>, n: nat)
    requires n <= |es| && RunTo(first, es, n)
    ensures Inv(At(first, es, n)) && Tracks(es, n, At(first, es, n))
    decreases n
  {
    RunKeepsInv(first, es, n);
    if n > 0 {
      RunTracks(first, es, n - 1);
      StepTracks(es, n - 1, At(first, es, n - 1));
    }
  }

  /** When the revocation of a reused token commits, it has ended the family, unless a rotation committed between
      its picking of the live row and its reaching it: then it revokes nothing. */
  lemma RevocationEndsFamilyExactly(first: Id, es: seq<Event>, n: nat, r: RequestId)
    requires n < |es| && RunTo(first, es, n + 1) && es[n] == Revoke(r)
    ensures At(first, es, n + 1).live == if Overtaken(es, r, n) then At(first, es, n).live else {}
  {
    RunTracks(first, es, n);
    var st := At(first, es, n);
    assert Follows(es, r, n, st.live, st.requests[r]) && PhaseOk(st, st.requests[r]);
  }

  lemma DeadStep(st: State, e: Event)
    requires Inv(st) && Enabled(st, e) && st.live == {}
    ensures After(st, e).live == {}
  {
    assert e.request in st.requests ==> PhaseOk(st, st.requests[e.request]);
  }

  /** A dead family stays dead. */
  lemma {:induction false} DeadForever(first: Id, es: seq<Event>, m: nat, n: nat)
    requires m <= n <= |es| && RunTo(first, es, n) && RunTo(first, es, m) && At(first, es, m).live == {}
    ensures At(first, es, n).live == {}
    decreases n
  {
    if m < n {
      DeadForever(first, es, m, n - 1);
      RunKeepsInv(first, es, n - 1);
      DeadStep(At(first, es, n - 1), es[n - 1]);
    }
  }

  lemma {:induction false} DeadGrows(first: Id, es: seq<Event>, m: nat, n: nat)
    requires m <= n <= |es| && RunTo(first, es, n) && RunTo(first, es, m)
    ensures At(first, es, m).dead <= At(first, es, n).dead
    decreases n
  {
    if m < n { DeadGrows(first, es, m, n - 1); }
  }

  lemma {:induction false} RunToEarlier(first: Id, es: seq<Event>, m: nat, n: nat)
    requires m <= n <= |es| && RunTo(first, es, n)
    ensures RunTo(first, es, m)
    decreases n
  {
    if m < n { RunToEarlier(first, es, m, n - 1); }
  }

  // ---- One token presented twice ----------------------------------------------------------

  predicate Presents(es: seq<Event>, r: RequestId, x: Id, n: nat)
    requires n <= |es|
  {
    exists i :: 0 <= i < n && es[i].Look? && es[i].request == r && es[i].presented == x
  }

  lemma OneMorePresents(es: seq<Event>, r: RequestId, x: Id, n: nat)
    requires n < |es|
    ensures Presents(es, r, x, n + 1) <==>
      Presents(es, r, x, n) || (es[n].Look? && es[n].request == r && es[n].presented == x)
  {
  }

  /** What is known of a request that presents x: it claims x or has found it revoked, and x is gone for good once
      it has begun to revoke the family, even if that is rolled back, or is done. */
  predicate Deals(es: seq<Event>, r: RequestId, x: Id, n: nat, st: State)
    requires n <= |es|
  {
    && r in st.requests
    && (st.requests[r].Looked? || st.requests[r].Claimed? ==> st.requests[r].presented == x)
    && (st.requests[r].Detected? || st.requests[r].Finished? || Picked(es, r, n) ==> x in st.dead)
    && x in st.live + st.dead
  }

  lemma StepDeals(es: seq<Event>, r: RequestId, x: Id, n: nat, st: State)
    requires n < |es| && Inv(st) && Enabled(st, es[n]) && Tracks(es, n, st)
    requires Presents(es, r, x, n) ==> Deals(es, r, x, n, st)
    requires Presents(es, r, x, n + 1)
    ensures Deals(es, r, x, n + 1, After(st, es[n]))
  {
    OneMorePresents(es, r, x, n);
    OneMoreEvent(es, r, n);
    assert r in st.requests ==> Follows(es, r, n, st.live, st.requests[r]);
    assert es[n].request in st.requests ==> PhaseOk(st, st.requests[es[n].request]);
  }

  lemma {:induction false} RunDeals(first: Id, es: seq<Event>, r: RequestId, x: Id, n: nat)
    requires n <= |es| && RunTo(first, es, n) && Presents(es, r, x, n)
    ensures Deals(es, r, x, n, At(first, es, n))
    decreases n
  {
    OneMorePresents(es, r, x, n - 1);
    if Presents(es, r, x, n - 1) { RunDeals(first, es, r, x, n - 1); }
    RunTracks(first, es, n - 1);
    StepDeals(es, r, x, n - 1, At(first, es, n - 1));
  }

  /** The request found its token revoked, and its revocation of the family has committed. */
  predicate Detects(es: seq<Event>, r: RequestId, n: nat)
    requires n <= |es|
  {
    exists k :: 0 <= k < n && es[k] == Revoke(r)
  }

  lemma {:induction false} FinishedHow(first: Id, es: seq<Event>, r: RequestId, n: nat) returns (k: nat)
    requires n <= |es| && RunTo(first, es, n)
    requires r in At(first, es, n).requests && At(first, es, n).requests[r].Finished?
    ensures k < n && (es[k] == Rotate(r) || es[k] == Revoke(r))
    decreases n
  {
    if es[n - 1] == Rotate(r) || es[n - 1] == Revoke(r) {
      k := n - 1;
    } else {
      k := FinishedHow(first, es, r, n - 1);
    }
  }

  lemma {:induction false} PresentedBeforehand(first: Id, es: seq<Event>, r: RequestId, x: Id, n: nat, k: nat)
    requires k <= n <= |es| && RunTo(first, es, n) && RunTo(first, es, k) && r in At(first, es, k).requests
    requires Presents(es, r, x, n)
    ensures Presents(es, r, x, k)
    decreases n
  {
    if k < n {
      RunToEarlier(first, es, k, n - 1);
      StaysKnown(first, es, r, k, n - 1);
      OneMorePresents(es, r, x, n - 1);
      PresentedBeforehand(first, es, r, x, n - 1, k);
    }
  }

  lemma {:induction false} StaysKnown(first: Id, es: seq<Event>, r: RequestId, k: nat, n: nat)
    requires k <= n <= |es| && RunTo(first, es, n) && RunTo(first, es, k) && r in At(first, es, k).requests
    ensures r in At(first, es, n).requests
    decreases n
  {
    if k < n { StaysKnown(first, es, r, k, n - 1); }
  }

  /** A rotation takes the presented token, live until then, out for good. */
  lemma RotationTakes(first: Id, es: seq<Event>, r: RequestId, x: Id, k: nat, n: nat)
    requires k < n <= |es| && RunTo(first, es, n) && es[k] == Rotate(r) && Presents(es, r, x, n)
    ensures RunTo(first, es, k) && RunTo(first, es, k + 1)
    ensures x in At(first, es, k).live && x in At(first, es, k + 1).dead
  {
    RunToEarlier(first, es, k, n);
    RunToEarlier(first, es, k + 1, n);
    PresentedBeforehand(first, es, r, x, n, k);
    RunDeals(first, es, r, x, k);
    RunKeepsInv(first, es, k);
    var st := At(first, es, k);
    assert PhaseOk(st, st.requests[r]);
  }

  lemma OneRotationEach(first: Id, es: seq<Event>, r: RequestId, q: RequestId, x: Id, j: nat, k: nat, n: nat)
    requires j < k < n <= |es| && RunTo(first, es, n) && es[j] == Rotate(r)
    requires Presents(es, r, x, n) && Presents(es, q, x, n)
    ensures es[k] != Rotate(q)
  {
    RotationTakes(first, es, r, x, j, n);
    RunToEarlier(first, es, k, n);
    DeadGrows(first, es, j + 1, k);
    RunKeepsInv(first, es, k);
    if es[k] == Rotate(q) { RotationTakes(first, es, q, x, k, n); }
  }

  /** A reuse detected and not overtaken leaves the family dead for good. */
  lemma DetectionEndsFamily(first: Id, es: seq<Event>, r: RequestId, n: nat)
    requires n <= |es| && RunTo(first, es, n) && Detects(es, r, n) && !Overtaken(es, r, n)
    ensures At(first, es, n).live == {}
  {
    var k :| 0 <= k < n && es[k] == Revoke(r);
    RunToEarlier(first, es, k + 1, n);
    assert !Overtaken(es, r, k);
    RevocationEndsFamilyExactly(first, es, k, r);
    DeadForever(first, es, k + 1, n);
  }

  /** Once two presentations of one token have finished, however they interleaved with each other and with
      presentations of other tokens, at least one has detected the reuse; and unless each that has was overtaken,
      the family is dead. */
  lemma TwoPresentationsEndFamily(first: Id, es: seq<Event>, n: nat, r: RequestId, q: RequestId, x: Id)
    requires n <= |es| && RunTo(first, es, n) && r != q && Presents(es, r, x, n) && Presents(es, q, x, n)
    requires var st := At(first, es, n);
      r in st.requests && q in st.requests && st.requests[r].Finished? && st.requests[q].Finished?
    ensures Detects(es, r, n) || Detects(es, q, n)
    ensures (Detects(es, r, n) && !Overtaken(es, r, n)) || (Detects(es, q, n) && !Overtaken(es, q, n)) ==>
      At(first, es, n).live == {}
  {
    var j := FinishedHow(first, es, r, n);
    var k := FinishedHow(first, es, q, n);
    if es[j] == Rotate(r) && es[k] == Rotate(q) {
      if j < k { OneRotationEach(first, es, r, q, x, j, k, n); } else { OneRotationEach(first, es, q, r, x, k, j, n); }
    }
    if Detects(es, r, n) && !Overtaken(es, r, n) { DetectionEndsFamily(first, es, r, n); }
    if Detects(es, q, n) && !Overtaken(es, q, n) { DetectionEndsFamily(first, es, q, n); }
  }

  /** No other token of the family is presented. */
  predicate OnlyPresents(first: Id, es: seq<Event>, n: nat)
    requires n <= |es|
  {
    forall i :: 0 <= i < n && es[i].Look? ==> es[i].presented == first
  }

  lemma {:induction false} PresentsFirst(first: Id, es: seq<Event>, r: RequestId, n: nat)
    requires n <= |es| && RunTo(first, es, n) && OnlyPresents(first, es, n) && r in At(first, es, n).requests
    ensures Presents(es, r, first, n)
    decreases n
  {
    OneMorePresents(es, r, first, n - 1);
    if r in At(first, es, n - 1).requests { PresentsFirst(first, es, r, n - 1); }
  }

  lemma PickedIsKnown(es: seq<Event>, r: RequestId, n: nat, st: State)
    requires n <= |es| && Tracks(es, n, st) && Picked(es, r, n)
    ensures r in st.requests
  {
  }

  lemma ClaimedIsLive(st: State, r: RequestId)
    requires Inv(st) && r in st.requests && st.requests[r].Claimed?
    ensures st.requests[r].presented in st.live
  {
    assert PhaseOk(st, st.requests[r]);
  }

  lemma NoneRotatesAfter(first: Id, es: seq<Event>, r: RequestId, j: nat)
    requires j < |es| && RunTo(first, es, j + 1) && OnlyPresents(first, es, j + 1) && Picked(es, r, j)
    ensures !es[j].Rotate?
  {
    var st, q := At(first, es, j), es[j].request;
    RunTracks(first, es, j);
    PickedIsKnown(es, r, j, st);
    PresentsFirst(first, es, r, j);
    RunDeals(first, es, r, first, j);
    if es[j].Rotate? {
      ClaimedIsLive(st, q);
      PresentsFirst(first, es, q, j);
      RunDeals(first, es, q, first, j);
    }
  }

  lemma NeverOvertaken(first: Id, es: seq<Event>, r: RequestId, n: nat)
    requires n <= |es| && RunTo(first, es, n) && OnlyPresents(first, es, n)
    ensures !Overtaken(es, r, n)
  {
    if Overtaken(es, r, n) {
      var k :| 0 <= k < n && es[k].Reach? && es[k].request == r && RotatedSince(es, r, k);
      var j :| 0 <= j < k && es[j].Rotate? && Picked(es, r, j);
      RunToEarlier(first, es, j + 1, n);
      NoneRotatesAfter(first, es, r, j);
    }
  }

  /** So if only that token is ever presented, the family is dead. */
  lemma OneTokenTwiceEndsFamily(first: Id, es: seq<Event>, n: nat, r: RequestId, q: RequestId)
    requires n <= |es| && RunTo(first, es, n) && OnlyPresents(first, es, n) && r != q
    requires var st := At(first, es, n);
      r in st.requests && q in st.requests && st.requests[r].Finished? && st.requests[q].Finished?
    ensures At(first, es, n).live == {}
  {
    PresentsFirst(first, es, r, n);
    PresentsFirst(first, es, q, n);
    NeverOvertaken(first, es, r, n);
    NeverOvertaken(first, es, q, n);
    TwoPresentationsEndFamily(first, es, n, r, q, first);
  }

  // ---- A token that outlives the revocation -----------------------------------------------

  lemma Next(first: Id, es: seq<Event>, n: nat)
    requires n < |es| && RunTo(first, es, n) && Enabled(At(first, es, n), es[n])
    ensures RunTo(first, es, n + 1) && At(first, es, n + 1) == After(At(first, es, n), es[n])
  {
  }

  /** Token 10 is rotated to 11; it is presented again while 11 is being rotated to 13. */
  const OVERTAKEN := [Look(1, 10, 11), Claim(1), Rotate(1), Look(2, 10, 12), Look(3, 11, 13), Claim(3),
                      Pick(2), Rotate(3), Reach(2, 11), Revoke(2)]

  lemma RotatedOnce()
    ensures RunTo(10, OVERTAKEN, 3)
    ensures At(10, OVERTAKEN, 3) == State({11}, {10}, {10, 11}, map[1 := Finished])
  {
    Next(10, OVERTAKEN, 0);
    Next(10, OVERTAKEN, 1);
    Next(10, OVERTAKEN, 2);
  }

  lemma PresentedAgain()
    ensures RunTo(10, OVERTAKEN, 7)
    ensures At(10, OVERTAKEN, 7) ==
      State({11}, {10}, {10, 11, 13}, map[1 := Finished, 2 := Revoking({11}, {}, {}), 3 := Claimed(11, 13)])
  {
    RotatedOnce();
    Next(10, OVERTAKEN, 3);
    Next(10, OVERTAKEN, 4);
    Next(10, OVERTAKEN, 5);
    Next(10, OVERTAKEN, 6);
  }

  /** The reuse is detected and its revocation commits, and 13 is still live. */
  lemma TokenOutlivesRevocation()
    ensures RunTo(10, OVERTAKEN, 10) && OVERTAKEN[9] == Revoke(2) && At(10, OVERTAKEN, 10).live == {13}
  {
    PresentedAgain();
    Next(10, OVERTAKEN, 7);
    Next(10, OVERTAKEN, 8);
    Next(10, OVERTAKEN, 9);
  }
}
