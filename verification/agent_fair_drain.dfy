/** The fair drain: visit the organizations whose oldest queued run is oldest, and drain each one's
    oldest runs. No run starves, however many organizations and arrivals there are. */
module AgentFairDrain {
  import opened Base
  import opened AgentStateMachine
  import opened AgentRuns

  type Table = map<RunId, Run>

  function QueuedIds(t: Table): set<RunId> { set id | id in t && t[id].status == Queued }

  function QueuedOf(t: Table, org: OrgId): set<RunId>
  {
    set id | id in t && t[id].status == Queued && t[id].org == org
  }

  function QueuedOrgs(t: Table): set<OrgId>
  {
    set id | id in t && t[id].status == Queued :: t[id].org
  }

  function CreatedAt(t: Table, id: RunId): Time { if id in t then t[id].createdAt else 0 }

  function Age(t: Table): RunId -> Time { (id: RunId) => CreatedAt(t, id) }

  /** `at` is MIN(created_at) over those of the given runs that belong to an organization. */
  predicate IsOldest(t: Table, ids: set<RunId>, org: OrgId, at: Time)
  {
    && (exists id :: id in ids && id in t && t[id].org == org && t[id].createdAt == at)
    && (forall id :: id in ids && id in t && t[id].org == org ==> at <= t[id].createdAt)
  }

  lemma HasOldest(t: Table, org: OrgId)
    requires QueuedOf(t, org) != {}
    ensures exists at: Time :: IsOldest(t, QueuedOf(t, org), org, at)
  {
    var pool := QueuedOf(t, org);
    OldestExists(pool, Age(t));
    var id :| id in pool && forall j :: j in pool ==> CreatedAt(t, id) <= CreatedAt(t, j);
    assert IsOldest(t, pool, org, t[id].createdAt);
  }

  ghost function OldestIn(t: Table, org: OrgId): (at: Time)
    ensures QueuedOf(t, org) != {} ==> IsOldest(t, QueuedOf(t, org), org, at)
  {
    if QueuedOf(t, org) == {} then 0
    else
      HasOldest(t, org);
      var at: Time :| IsOldest(t, QueuedOf(t, org), org, at);
      at
  }

  /** The running minima over the runs seen so far. */
  ghost predicate Grouping(t: Table, seen: set<RunId>, oldest: map<OrgId, Time>)
  {
    && (forall o :: o in oldest ==> IsOldest(t, seen, o, oldest[o]))
    && (forall id :: id in seen && id in t ==> t[id].org in oldest)
  }

  function Minimized(oldest: map<OrgId, Time>, r: Run): map<OrgId, Time>
  {
    if r.org !in oldest || r.createdAt < oldest[r.org] then oldest[r.org := r.createdAt] else oldest
  }

  lemma OneMore(t: Table, all: set<RunId>, rest: set<RunId>, id: RunId, oldest: map<OrgId, Time>)
    requires id in t && id in all && id in rest && Grouping(t, all - rest, oldest)
    ensures Grouping(t, all - (rest - {id}), Minimized(oldest, t[id]))
  {
    var seen, more, oldest' := all - rest, all - (rest - {id}), Minimized(oldest, t[id]);
    forall o | o in oldest' ensures IsOldest(t, more, o, oldest'[o]) {
      if o in oldest {
        var first :| first in seen && first in t && t[first].org == o && t[first].createdAt == oldest[o];
        assert first in more && id in more;
      } else {
        assert id in more && o == t[id].org;
      }
    }
  }

  /** The running minima over all queued runs are the queued organizations' minima. */
  lemma Grouped(t: Table, oldest: map<OrgId, Time>)
    requires Grouping(t, QueuedIds(t), oldest)
    ensures oldest.Keys == QueuedOrgs(t)
    ensures forall o :: o in oldest ==> oldest[o] == OldestIn(t, o)
  {
    forall o | o in oldest ensures o in QueuedOrgs(t) && oldest[o] == OldestIn(t, o) {
      var first :| first in t && t[first].status == Queued && t[first].org == o && t[first].createdAt == oldest[o];
      assert first in QueuedOf(t, o);
      assert IsOldest(t, QueuedOf(t, o), o, OldestIn(t, o));
    }
  }

  method GroupByOrg(t: Table) returns (oldest: map<OrgId, Time>)
    ensures oldest.Keys == QueuedOrgs(t)
    ensures forall o :: o in oldest ==> oldest[o] == OldestIn(t, o)
  {
    oldest := map[];
    var queued := QueuedIds(t);
    var rest := queued;
    while rest != {}
      invariant rest <= queued && Grouping(t, queued - rest, oldest)
      decreases |rest|
    {
      var id :| id in rest;
      OneMore(t, queued, rest, id, oldest);
      oldest, rest := Minimized(oldest, t[id]), rest - {id};
    }
    Grouped(t, oldest);
  }

  /** SELECT organization_id ... GROUP BY organization_id ORDER BY MIN(created_at) LIMIT limit */
  method GetQueuedOrgs(t: Table, limit: nat) returns (orgs: seq<OrgId>)
    ensures IsVisit(t, limit, orgs)
  {
    var oldest := GroupByOrg(t);
    orgs := OldestFirst(oldest.Keys, (o: OrgId) => if o in oldest then oldest[o] else 0, limit);
    SameOrder(oldest.Keys, (o: OrgId) => if o in oldest then oldest[o] else 0, (o: OrgId) => OldestIn(t, o), limit,
              orgs);
  }

  /** SELECT ... WHERE organization_id = org ORDER BY created_at LIMIT limit */
  method GetQueuedForOrg(t: Table, org: OrgId, limit: nat) returns (ids: seq<RunId>)
    ensures IsBatch(t, org, limit, ids)
  {
    ids := OldestFirst(QueuedOf(t, org), Age(t), limit);
  }

  // ---- Sweeps -----------------------------------------------------------------------------

  predicate StillQueued(t: Table, id: RunId) { id in t && t[id].status == Queued }

  ghost predicate IsBatch(t: Table, org: OrgId, batch: nat, ids: seq<RunId>)
  {
    IsOldestFirst(QueuedOf(t, org), Age(t), batch, ids)
  }

  ghost predicate IsVisit(t: Table, limit: nat, orgs: seq<OrgId>)
  {
    IsOldestFirst(QueuedOrgs(t), (o: OrgId) => OldestIn(t, o), limit, orgs)
  }

  /** A visited organization loses a batch of its `batch` oldest runs. */
  ghost predicate Drained(t: Table, t': Table, org: OrgId, batch: nat)
  {
    exists ids: seq<RunId> :: IsBatch(t, org, batch, ids) && forall id :: id in ids ==> !StillQueued(t', id)
  }

  /** One sweep over at most `limit` organizations. Other workers and users may take further runs out of
      the queue; nothing returns to it, rows keep their age, and arrivals are younger than `id`. */
  ghost predicate Sweep(limit: nat, batch: nat, t: Table, t': Table, id: RunId)
  {
    && (exists orgs: seq<OrgId> :: IsVisit(t, limit, orgs) && forall o :: o in orgs ==> Drained(t, t', o, batch))
    && (forall j :: j in t ==> j in t' && t'[j].org == t[j].org && t'[j].createdAt == t[j].createdAt)
    && (forall j :: StillQueued(t', j) && j in t ==> StillQueued(t, j))
    && (forall j :: StillQueued(t', j) && j !in t ==> CreatedAt(t, id) < t'[j].createdAt)
  }

  /** The queued runs that are not younger than `id`, all organizations together. */
  function Ahead(t: Table, id: RunId): set<RunId>
  {
    set j | StillQueued(t, j) && j in t && j != id && CreatedAt(t, j) <= CreatedAt(t, id)
  }

  /** `id` is the oldest queued run of its organization. */
  predicate StrictlyOldest(t: Table, id: RunId)
    requires StillQueued(t, id)
  {
    forall j :: j in QueuedOf(t, t[id].org) && j != id ==> t[id].createdAt < t[j].createdAt
  }

  /** Every visited organization with an oldest run no younger than `id` loses a run ahead of `id`, or `id` itself. */
  lemma VisitHelps(t: Table, t': Table, org: OrgId, batch: nat, id: RunId) returns (gone: RunId)
    requires batch > 0 && Drained(t, t', org, batch) && StillQueued(t, id)
    requires QueuedOf(t, org) != {} && OldestIn(t, org) <= t[id].createdAt
    ensures gone in QueuedOf(t, org) && !StillQueued(t', gone) && (gone == id || gone in Ahead(t, id))
  {
    var ids: seq<RunId> :|
      IsBatch(t, org, batch, ids) && forall j :: j in ids ==> !StillQueued(t', j);
    assert |QueuedOf(t, org)| > 0;
    gone := ids[0];
    assert gone in ids;
    var oldest :| oldest in QueuedOf(t, org) && t[oldest].createdAt == OldestIn(t, org);
    if oldest in ids {
      var i :| 0 <= i < |ids| && ids[i] == oldest;
      if i > 0 { assert CreatedAt(t, ids[0]) <= CreatedAt(t, ids[i]); }
    } else {
      assert CreatedAt(t, ids[0]) <= CreatedAt(t, oldest);
    }
  }

  /** A set of runs ahead of `id`, taken by the sweep from the given organizations. */
  ghost predicate IsLoss(t: Table, t': Table, orgs: set<OrgId>, id: RunId, gone: set<RunId>)
  {
    gone <= Ahead(t, id) && forall g :: g in gone ==> !StillQueued(t', g) && t[g].org in orgs
  }

  /** A loss from some organizations, and one run more from another. */
  lemma OneMoreLoss(
    t: Table, t': Table, orgs: set<OrgId>, org: OrgId, id: RunId, gone: set<RunId>, g: RunId)
    requires IsLoss(t, t', orgs, id, gone) && org !in orgs
    requires g in Ahead(t, id) && !StillQueued(t', g) && t[g].org == org
    ensures IsLoss(t, t', orgs + {org}, id, gone + {g}) && |gone + {g}| == |gone| + 1
  {
    assert g !in gone;
  }

  ghost predicate Useful(t: Table, t': Table, org: OrgId, batch: nat, id: RunId)
    requires id in t
  {
    QueuedOf(t, org) != {} && OldestIn(t, org) <= t[id].createdAt && Drained(t, t', org, batch)
  }

  /** If `id` outlives a sweep, then for each visited organization at least one run ahead of it is gone. */
  lemma {:induction false} SweepHelps(t: Table, t': Table, orgs: seq<OrgId>, batch: nat, id: RunId)
    returns (gone: set<RunId>)
    requires batch > 0 && StillQueued(t, id) && StillQueued(t', id) && AllDistinct(orgs)
    requires forall o :: o in orgs ==> Useful(t, t', o, batch, id)
    ensures |gone| == |orgs| && IsLoss(t, t', Elements(orgs), id, gone)
  {
    gone := {};
    if orgs != [] {
      var front, last := orgs[..|orgs| - 1], orgs[|orgs| - 1];
      SplitLast(orgs);
      gone := SweepHelps(t, t', front, batch, id);
      var g := OneHelps(t, t', last, batch, id);
      OneMoreLoss(t, t', Elements(front), last, id, gone, g);
      gone := gone + {g};
    }
  }

  lemma OneHelps(t: Table, t': Table, org: OrgId, batch: nat, id: RunId) returns (g: RunId)
    requires batch > 0 && StillQueued(t, id) && StillQueued(t', id) && Useful(t, t', org, batch, id)
    ensures g in Ahead(t, id) && !StillQueued(t', g) && t[g].org == org
  {
    g := VisitHelps(t, t', org, batch, id);
  }

  /** The visited organizations that certainly lose a run ahead of `id`: all of them, or `id`'s own. */
  lemma UsefulVisits(limit: nat, t: Table, orgs: seq<OrgId>, id: RunId)
    returns (useful: seq<OrgId>)
    requires limit > 0 && StillQueued(t, id) && IsVisit(t, limit, orgs)
    ensures useful != [] && (forall o :: o in useful ==> o in orgs)
    ensures AllDistinct(useful)
    ensures forall o :: o in useful ==> QueuedOf(t, o) != {} && OldestIn(t, o) <= t[id].createdAt
    ensures t[id].org in orgs || |useful| == limit
  {
    var home := t[id].org;
    assert id in QueuedOf(t, home) && home in QueuedOrgs(t);
    useful := if home in orgs then [home] else orgs;
    if home !in orgs {
      assert forall k :: 0 <= k < |orgs| ==> OldestIn(t, orgs[k]) <= OldestIn(t, home);
      if |orgs| < limit { AllTaken(QueuedOrgs(t), orgs); }
    }
    forall o | o in useful ensures QueuedOf(t, o) != {} {
      assert o in QueuedOrgs(t);
      var j :| j in t && t[j].status == Queued && t[j].org == o;
      assert j in QueuedOf(t, o);
    }
  }

  lemma AheadShrinks(
    limit: nat, batch: nat, t: Table, t': Table, id: RunId, gone: set<RunId>, orgs: set<OrgId>)
    requires Sweep(limit, batch, t, t', id) && StillQueued(t, id) && StillQueued(t', id)
    requires IsLoss(t, t', orgs, id, gone)
    ensures |Ahead(t', id)| + |gone| <= |Ahead(t, id)| && Ahead(t', id) <= Ahead(t, id)
  {
    assert Ahead(t', id) <= Ahead(t, id) - gone;
    SubsetSize(Ahead(t', id), Ahead(t, id) - gone);
  }

  /** A sweep that leaves `id` queued takes at least one run out from ahead of it; and if `id` is its
      organization's strictly oldest run, a full complement of `limit` runs. */
  lemma SweepShrinksAhead(limit: nat, batch: nat, t: Table, t': Table, id: RunId)
    requires limit > 0 && batch > 0 && Sweep(limit, batch, t, t', id) && StillQueued(t, id) && StillQueued(t', id)
    ensures |Ahead(t', id)| < |Ahead(t, id)|
    ensures Ahead(t', id) <= Ahead(t, id)
    ensures StrictlyOldest(t, id) ==>
              StrictlyOldest(t', id) && |Ahead(t', id)| + limit <= |Ahead(t, id)|
  {
    var orgs: seq<OrgId> :|
      IsVisit(t, limit, orgs) && forall o :: o in orgs ==> Drained(t, t', o, batch);
    var useful := UsefulVisits(limit, t, orgs, id);
    var gone := SweepHelps(t, t', useful, batch, id);
    AheadShrinks(limit, batch, t, t', id, gone, Elements(useful));
    if t[id].org in orgs && StrictlyOldest(t, id) { StrictlyOldestIsTaken(batch, t, t', id); }
  }

  /** A visit to its own organization takes the strictly oldest run. */
  lemma StrictlyOldestIsTaken(batch: nat, t: Table, t': Table, id: RunId)
    requires batch > 0 && StillQueued(t, id) && StrictlyOldest(t, id)
    requires Drained(t, t', t[id].org, batch)
    ensures !StillQueued(t', id)
  {
    var home := t[id].org;
    assert id in QueuedOf(t, home);
    var gone := VisitHelps(t, t', home, batch, id);
  }

  ghost predicate Sweeps(limit: nat, batch: nat, ts: seq<Table>, id: RunId)
  {
    forall k :: 0 <= k < |ts| - 1 ==> Sweep(limit, batch, ts[k], ts[k + 1], id)
  }

  lemma {:induction false} OutlivingCosts(limit: nat, batch: nat, ts: seq<Table>, id: RunId, k: nat)
    requires limit > 0 && batch > 0 && k < |ts| && Sweeps(limit, batch, ts, id)
    requires StillQueued(ts[0], id) && StillQueued(ts[k], id)
    ensures |Ahead(ts[k], id)| + k <= |Ahead(ts[0], id)|
    ensures StrictlyOldest(ts[0], id) ==>
              StrictlyOldest(ts[k], id) && |Ahead(ts[k], id)| + Times(k, limit) <= |Ahead(ts[0], id)|
  {
    if k > 0 {
      assert Sweep(limit, batch, ts[k - 1], ts[k], id);
      StaysQueued(limit, batch, ts, id, k);
      OutlivingCosts(limit, batch, ts, id, k - 1);
      SweepShrinksAhead(limit, batch, ts[k - 1], ts[k], id);
    }
  }

  /** Nothing returns to the queue, so a run queued at the end was queued all along. */
  lemma StaysQueued(limit: nat, batch: nat, ts: seq<Table>, id: RunId, k: nat)
    requires 0 < k < |ts| && Sweeps(limit, batch, ts, id)
    requires StillQueued(ts[0], id) && StillQueued(ts[k], id)
    ensures StillQueued(ts[k - 1], id)
  {
    KeepsRows(limit, batch, ts, id, k - 1);
    assert Sweep(limit, batch, ts[k - 1], ts[k], id);
  }

  lemma {:induction false} KeepsRows(limit: nat, batch: nat, ts: seq<Table>, id: RunId, k: nat)
    requires k < |ts| && Sweeps(limit, batch, ts, id) && id in ts[0]
    ensures id in ts[k]
  {
    if k > 0 {
      KeepsRows(limit, batch, ts, id, k - 1);
      assert Sweep(limit, batch, ts[k - 1], ts[k], id);
    }
  }

  /** No starvation: any queued run is out of the queue after at most P + 1 sweeps, P being the runs ahead
      of it; an organization's strictly oldest run after at most floor(P / limit) + 1. */
  lemma NoStarvation(limit: nat, batch: nat, ts: seq<Table>, id: RunId, k: nat)
    requires limit > 0 && batch > 0 && k < |ts| && Sweeps(limit, batch, ts, id) && StillQueued(ts[0], id)
    ensures k > |Ahead(ts[0], id)| ==> !StillQueued(ts[k], id)
    ensures k > |Ahead(ts[0], id)| / limit && StrictlyOldest(ts[0], id) ==> !StillQueued(ts[k], id)
  {
    if StillQueued(ts[k], id) {
      OutlivingCosts(limit, batch, ts, id, k);
      var p := |Ahead(ts[0], id)|;
      if k > p / limit { BeyondQuotient(p, k, limit); }
    }
  }

  // ---- The worker's sweep -----------------------------------------------------------------

  /** Runs may have moved forward since t, and younger ones have arrived. */
  ghost predicate Onward(t: Table, t': Table)
  {
    && (forall j :: j in t' ==> RunOk(t'[j]))
    && (forall j :: j in t ==> j in t' && Later(t[j], t'[j]))
    && (forall i, j :: i in t && j in t' && j !in t ==> t[i].createdAt < t'[j].createdAt)
  }

  lemma OnwardTransitive(t: Table, t': Table, t'': Table)
    requires Onward(t, t') && Onward(t', t'')
    ensures Onward(t, t'')
  {
    forall j | j in t ensures j in t'' && Later(t[j], t''[j]) {
      assert Later(t[j], t'[j]) && Later(t'[j], t''[j]);
    }
    forall i, j | i in t && j in t'' && j !in t ensures t[i].createdAt < t''[j].createdAt {
      assert Later(t[i], t'[i]);
      if j in t' { assert Later(t'[j], t''[j]); }
    }
  }

  /** What another session may do to the queue: issue an UPDATE, or queue a run, younger than all there are. */
  datatype Act = Touch(id: RunId, u: Update) | Arrive(id: RunId, org: OrgId, at: Time)

  lemma TouchIsOnward(t: Table, id: RunId, u: Update)
    requires (forall j :: j in t ==> RunOk(t[j])) && id in t && Write(t[id], u).Some?
    ensures Onward(t, t[id := Write(t[id], u).value])
  {
    WriteMovesForward(t[id], u);
  }

  /** A batch taken later, when some of the queue is gone and younger runs have come, still takes out a batch of
      the queue as it was: whatever of that is not gone by then is old enough to be taken. */
  lemma DrainedDespite(
    t: Table, t': Table, t'': Table, org: OrgId, batch: nat, ids: seq<RunId>)
    requires Onward(t, t') && Onward(t', t'') && IsBatch(t', org, batch, ids)
    requires forall id :: id in ids ==> !StillQueued(t'', id)
    ensures Drained(t, t'', org, batch)
  {
    var pool := QueuedOf(t, org);
    var finer := (id: RunId) => 2 * CreatedAt(t, id) + if StillQueued(t'', id) then 1 else 0;
    var taken := AnswerExists(pool, finer, batch);
    FinerKey(pool, Age(t), finer, batch, taken);
    forall x | x in taken ensures !StillQueued(t'', x) {
      assert x in pool;
      if StillQueued(t'', x) {
        LeftBehind(t, t', t'', org, batch, ids, x);
        TakenHasFewBefore(pool, finer, batch, taken, x, Elements(ids));
        assert false;
      }
    }
    assert IsBatch(t, org, batch, taken);
  }

  /** A run of the old queue that a later batch leaves behind was behind all it took. */
  lemma LeftBehind(
    t: Table, t': Table, t'': Table, org: OrgId, batch: nat, ids: seq<RunId>, x: RunId)
    requires Onward(t, t') && Onward(t', t'') && IsBatch(t', org, batch, ids)
    requires forall id :: id in ids ==> !StillQueued(t'', id)
    requires x in QueuedOf(t, org) && StillQueued(t'', x)
    ensures |Elements(ids)| == batch && Elements(ids) <= QueuedOf(t, org)
    ensures forall y :: y in ids ==> CreatedAt(t, y) <= CreatedAt(t, x)
  {
    assert Later(t[x], t'[x]) && Later(t'[x], t''[x]);
    LeftHasManyBefore(QueuedOf(t', org), Age(t'), batch, ids, x);
    forall y | y in ids ensures y in QueuedOf(t, org) && CreatedAt(t, y) <= CreatedAt(t, x) {
      assert y in QueuedOf(t', org) && Age(t')(y) <= Age(t')(x);
      if y in t { assert Later(t[y], t'[y]); }
    }
  }

  /** What a visit took stays taken. */
  lemma DrainedStays(t: Table, t': Table, t'': Table, org: OrgId, batch: nat)
    requires Onward(t, t') && Onward(t', t'') && Drained(t, t', org, batch)
    ensures Drained(t, t'', org, batch)
  {
    var ids: seq<RunId> :| IsBatch(t, org, batch, ids) && forall id :: id in ids ==> !StillQueued(t', id);
    forall id | id in ids ensures !StillQueued(t'', id) {
      assert id in QueuedOf(t, org) && Later(t'[id], t''[id]);
    }
  }

  /** A visit's batch, taken from the queue as it was when listed. */
  ghost predicate Visited(t: Table, t': Table, org: OrgId, batch: nat)
  {
    exists listed: Table, ids: seq<RunId> :: IsVisitOf(t, listed, t', org, batch, ids)
  }

  ghost predicate IsVisitOf(t: Table, listed: Table, t': Table, org: OrgId, batch: nat, ids: seq<RunId>)
  {
    Onward(t, listed) && Onward(listed, t') && IsBatch(listed, org, batch, ids)
    && forall id :: id in ids ==> !StillQueued(t', id)
  }

  lemma VisitDrains(start: Table, t: Table, t': Table, org: OrgId, batch: nat)
    requires Onward(start, t) && Visited(t, t', org, batch)
    ensures Drained(start, t', org, batch)
  {
    var listed: Table, ids: seq<RunId> :| IsVisitOf(t, listed, t', org, batch, ids);
    OnwardTransitive(start, t, listed);
    DrainedDespite(start, listed, t', org, batch, ids);
  }

  lemma OnwardIsSweep(limit: nat, batch: nat, t: Table, t': Table, orgs: seq<OrgId>, id: RunId)
    requires Onward(t, t') && IsVisit(t, limit, orgs) && id in t
    requires AllDrained(t, t', orgs, batch)
    ensures Sweep(limit, batch, t, t', id)
  {
    forall j | j in t ensures j in t' && Later(t[j], t'[j]) {
    }
  }

  predicate AllGone(t: Table, ids: seq<RunId>) { forall id :: id in ids ==> !StillQueued(t, id) }

  lemma StillGone(t: Table, t': Table, t'': Table, ids: seq<RunId>, i: nat)
    requires Onward(t, t') && Onward(t', t'') && i < |ids| && AllGone(t', ids[..i]) && !StillQueued(t'', ids[i])
    requires forall id :: id in ids ==> id in t
    ensures Onward(t, t'') && AllGone(t'', ids[..i + 1])
  {
    OnwardTransitive(t, t', t'');
    TakeOneMore(ids, i);
    forall id | id in ids[..i] ensures !StillQueued(t'', id) { assert id in ids && Later(t'[id], t''[id]); }
  }

  /** When other sessions get their turn: before an organization is listed, before a run is executed, and when
      the sweep is over. What they do to a run while it executes is `others`. */
  datatype Moment = BeforeListing(org: OrgId) | BeforeRun(id: RunId) | Afterwards

  class AgentWorker {
    const runtime: AgentRuntime

    constructor (runtime: AgentRuntime)
      ensures this.runtime == runtime
    {
      this.runtime := runtime;
    }

    /** Other sessions act; what cannot happen does not. */
    method OthersAct(acts: seq<Act>)
      requires forall i :: i in runtime.service.repo.runs ==> RunOk(runtime.service.repo.runs[i])
      modifies runtime.service.repo
      ensures Onward(old(runtime.service.repo.runs), runtime.service.repo.runs)
    {
      var repo := runtime.service.repo;
      for i := 0 to |acts|
        invariant Onward(old(repo.runs), repo.runs)
      {
        ghost var before := repo.runs;
        OtherActs(acts[i]);
        OnwardTransitive(old(repo.runs), before, repo.runs);
      }
    }

    /** One act of another session. */
    method OtherActs(act: Act)
      requires forall i :: i in runtime.service.repo.runs ==> RunOk(runtime.service.repo.runs[i])
      modifies runtime.service.repo
      ensures Onward(old(runtime.service.repo.runs), runtime.service.repo.runs)
    {
      var repo := runtime.service.repo;
      match act {
        case Touch(id, u) =>
          if id in repo.runs {
            if Write(repo.runs[id], u).Some? { TouchIsOnward(repo.runs, id, u); }
            var _ := repo.Execute(repo.runs[id].org, id, u);
          }
        case Arrive(id, org, at) =>
          if id !in repo.runs && forall j :: j in repo.runs ==> repo.runs[j].createdAt < at {
            repo.Create(org, id, at);
          }
      }
    }

    /** Runs one organization's batch as listed; every run in it leaves the queue. */
    method DrainOrg(org: OrgId, batch: nat, enabled: bool, known: RunId -> bool, others: RunId -> seq<Update>,
                    endings: RunId -> Ending, world: Moment -> seq<Act>, now: Time)
      requires forall i :: i in runtime.service.repo.runs ==> RunOk(runtime.service.repo.runs[i])
      modifies runtime.service.repo
      ensures Onward(old(runtime.service.repo.runs), runtime.service.repo.runs)
      ensures Visited(old(runtime.service.repo.runs), runtime.service.repo.runs, org, batch)
    {
      var repo := runtime.service.repo;
      OthersAct(world(BeforeListing(org)));
      ghost var listed := repo.runs;
      var ids := GetQueuedForOrg(repo.runs, org, batch);
      for i := 0 to |ids|
        invariant Onward(listed, repo.runs) && AllGone(repo.runs, ids[..i])
      {
        assert ids[i] in QueuedOf(listed, org);
        ghost var before := repo.runs;
        RunOne(org, ids[i], enabled, known(ids[i]), others(ids[i]), endings(ids[i]), world(BeforeRun(ids[i])), now);
        StillGone(listed, before, repo.runs, ids, i);
      }
      assert ids[..|ids|] == ids;
      OnwardTransitive(old(repo.runs), listed, repo.runs);
      assert IsVisitOf(old(repo.runs), listed, repo.runs, org, batch, ids);
    }

    method RunOne(org: OrgId, id: RunId, enabled: bool, known: bool, others: seq<Update>, ending: Ending,
                  before: seq<Act>, now: Time)
      requires forall i :: i in runtime.service.repo.runs ==> RunOk(runtime.service.repo.runs[i])
      requires id in runtime.service.repo.runs && runtime.service.repo.runs[id].org == org
      modifies runtime.service.repo
      ensures Onward(old(runtime.service.repo.runs), runtime.service.repo.runs)
      ensures !StillQueued(runtime.service.repo.runs, id)
    {
      var repo := runtime.service.repo;
      OthersAct(before);
      ghost var between := repo.runs;
      assert Later(old(repo.runs)[id], between[id]);
      var _ := runtime.ExecuteRun(org, id, enabled, known, others, ending, now);
      assert Onward(between, repo.runs);
      OnwardTransitive(old(repo.runs), between, repo.runs);
    }

    /** The fair drain as run: whatever the executors do, whatever lands on any run meanwhile and whoever
        arrives, it is a sweep in the sense of `NoStarvation`, for every run there was. */
    method ProcessQueued(limit: nat, batch: nat, enabled: OrgId -> bool, known: RunId -> bool,
                         others: RunId -> seq<Update>, endings: RunId -> Ending, world: Moment -> seq<Act>, now: Time)
      requires forall i :: i in runtime.service.repo.runs ==> RunOk(runtime.service.repo.runs[i])
      modifies runtime.service.repo
      ensures forall i :: i in runtime.service.repo.runs ==> RunOk(runtime.service.repo.runs[i])
      ensures forall id :: id in old(runtime.service.repo.runs) ==>
        Sweep(limit, batch, old(runtime.service.repo.runs), runtime.service.repo.runs, id)
    {
      var repo := runtime.service.repo;
      ghost var t := repo.runs;
      var orgs := GetQueuedOrgs(repo.runs, limit);
      for k := 0 to |orgs|
        invariant Onward(t, repo.runs) && AllDrained(t, repo.runs, orgs[..k], batch)
      {
        ghost var before := repo.runs;
        DrainOrg(orgs[k], batch, enabled(orgs[k]), known, others, endings, world, now);
        OneMoreDrained(t, before, repo.runs, orgs, k, batch);
      }
      assert orgs[..|orgs|] == orgs;
      ghost var drained := repo.runs;
      OthersAct(world(Afterwards));
      AllStayDrained(t, drained, repo.runs, orgs, batch);
      forall id | id in t ensures Sweep(limit, batch, t, repo.runs, id) {
        OnwardIsSweep(limit, batch, t, repo.runs, orgs, id);
      }
    }
  }

  ghost predicate AllDrained(t: Table, t': Table, orgs: seq<OrgId>, batch: nat)
  {
    forall o :: o in orgs ==> Drained(t, t', o, batch)
  }

  lemma OneMoreDrained(t: Table, t': Table, t'': Table, orgs: seq<OrgId>, k: nat, batch: nat)
    requires k < |orgs| && Onward(t, t') && AllDrained(t, t', orgs[..k], batch)
    requires Onward(t', t'') && Visited(t', t'', orgs[k], batch)
    ensures Onward(t, t'') && AllDrained(t, t'', orgs[..k + 1], batch)
  {
    VisitDrains(t, t', t'', orgs[k], batch);
    AllStayDrained(t, t', t'', orgs[..k], batch);
    assert orgs[..k + 1] == orgs[..k] + [orgs[k]];
  }

  lemma AllStayDrained(t: Table, t': Table, t'': Table, orgs: seq<OrgId>, batch: nat)
    requires Onward(t, t') && Onward(t', t'') && AllDrained(t, t', orgs, batch)
    ensures Onward(t, t'') && AllDrained(t, t'', orgs, batch)
  {
    OnwardTransitive(t, t', t'');
    forall o | o in orgs ensures Drained(t, t'', o, batch) { DrainedStays(t, t', t'', o, batch); }
  }
}
