/** Any number of runtimes, cancelling users and sweeps racing on agent runs. Reads and guarded UPDATEs
    are separate atomic steps, so everything may happen between a service's read and its UPDATE. */
module AgentProtocol {
  import opened Base
  import opened AgentStateMachine
  import opened AgentRuns

  type ActorId = nat

  /** Program counters of execute_run and cancel_run. */
  datatype Pc =
    | Fetched
    | RejectRead | RejectWrite
    | StartRead | StartWrite
    | Executing
    | FinishRead(ok: bool) | FinishWrite(ok: bool, sawFlag: bool) | FinishFallback
    | Returned(started: bool, result: Option<Status>)
    | CancelRead | CancelPending | CancelFlag | CancelReturned

  datatype Actor = Actor(id: RunId, pc: Pc)

  datatype State = State(runs: map<RunId, Run>, actors: map<ActorId, Actor>, executions: map<RunId, nat>)

  datatype Event =
    | Created(id: RunId, org: OrgId, at: Time)
    | Spawned(a: ActorId, id: RunId, canceller: bool)
    | Moved(a: ActorId, usable: bool, ok: bool, now: Time)
    | Crashed(a: ActorId)
    | ByOthers(id: RunId, u: Update)

  function Init(): State { State(map[], map[], map[]) }

  /** Where an actor goes from its read of the row. */
  function AfterRead(pc: Pc, r: Run): Pc
    requires pc.RejectRead? || pc.StartRead? || pc.FinishRead? || pc.CancelRead?
  {
    match pc
    case RejectRead => if CanTransition(r.status, Failed) then RejectWrite else Returned(false, None)
    case StartRead => if CanTransition(r.status, Running) then StartWrite else Returned(false, None)
    case FinishRead(ok) =>
      if CanTransition(r.status, if ok then Succeeded else Failed)
      then FinishWrite(ok, r.cancelRequestedAt.Some?) else Returned(true, None)
    case _ =>
      if !IsCancellable(r.status) then CancelReturned
      else if r.status == Queued then CancelPending else CancelFlag
  }

  /** The UPDATE an actor is about to issue. */
  function Pending(pc: Pc, now: Time): Option<Update>
  {
    match pc
    case RejectWrite => Some(MarkFailedIfQueued("unavailable", now))
    case StartWrite => Some(MarkStarted(now))
    case FinishWrite(ok, sawFlag) =>
      Some(if ok then MarkSucceeded("output", now)
           else if sawFlag then MarkCancelledAfterRun(now) else MarkFailed("error", now))
    case FinishFallback => Some(MarkCancelledAfterRun(now))
    case CancelPending => Some(MarkCancelledIfPending(now, None))
    case CancelFlag => Some(MarkCancelRequested(now, None))
    case _ => None
  }

  /** Where an actor goes once its UPDATE returned a row, or none. */
  function AfterWrite(pc: Pc, w: Option<Run>): Pc
    requires Pending(pc, 0).Some?
  {
    match pc
    case RejectWrite => Returned(false, if w.Some? then Some(w.value.status) else None)
    case StartWrite => if w.Some? then Executing else Returned(false, None)
    case FinishWrite(_, _) => if w.Some? then Returned(true, Some(w.value.status)) else FinishFallback
    case FinishFallback => Returned(true, if w.Some? then Some(w.value.status) else None)
    case CancelPending => if w.Some? then CancelReturned else CancelFlag
    case _ => CancelReturned
  }

  predicate Enabled(s: State, e: Event)
  {
    match e
    case Created(id, _, _) => id !in s.runs
    case Spawned(a, id, _) => a !in s.actors && id in s.runs
    case Moved(a, _, _, _) =>
      a in s.actors && !s.actors[a].pc.Returned? && !s.actors[a].pc.CancelReturned?
      && s.actors[a].id in s.runs && s.actors[a].id in s.executions
    case Crashed(a) => a in s.actors
    case ByOthers(id, u) => id in s.runs && !u.MarkStarted?
  }

  function After(s: State, e: Event): State
    requires Enabled(s, e)
  {
    match e
    case Created(id, org, at) =>
      s.(runs := s.runs[id := NewRun(org, at)], executions := s.executions[id := 0])
    case Spawned(a, id, canceller) =>
      s.(actors := s.actors[a := Actor(id, if canceller then CancelRead else Fetched)])
    case Crashed(a) => s.(actors := s.actors - {a})
    case ByOthers(id, u) =>
      var w := Write(s.runs[id], u);
      if w.Some? then s.(runs := s.runs[id := w.value]) else s
    case Moved(a, usable, ok, now) =>
      var id, pc := s.actors[a].id, s.actors[a].pc;
      if Pending(pc, now).Some? then
        var w := Write(s.runs[id], Pending(pc, now).value);
        s.(actors := s.actors[a := Actor(id, AfterWrite(pc, w))],
           runs := if w.Some? then s.runs[id := w.value] else s.runs,
           executions := if pc.StartWrite? && w.Some? then s.executions[id := s.executions[id] + 1] else s.executions)
      else
        var pc' := match pc
          case Fetched => if usable then StartRead else RejectRead
          case Executing => FinishRead(ok)
          case Returned(_, _) => pc
          case CancelReturned => pc
          case _ => AfterRead(pc, s.runs[id]);
        s.(actors := s.actors[a := Actor(id, pc')])
  }

  predicate Step(s: State, e: Event, s': State) { Enabled(s, e) && s' == After(s, e) }

  ghost predicate Reaches(a: State, b: State, n: nat)
    decreases n
  {
    if n == 0 then a == b
    else exists m: State, e: Event :: Reaches(a, m, n - 1) && Step(m, e, b)
  }

  // ---- Invariant --------------------------------------------------------------------------

  /** What an actor may rely on, at each of its program counters, about the row as it is now. */
  predicate Knows(pc: Pc, r: Run)
  {
    match pc
    case Executing => r.status != Queued
    case FinishRead(_) => r.status != Queued
    case FinishWrite(_, sawFlag) =>
      r.status != Queued && (sawFlag ==> IsTerminal(r.status) || r.cancelRequestedAt.Some?)
    case FinishFallback => IsTerminal(r.status) || (r.status == Running && r.cancelRequestedAt.Some?)
    case Returned(started, result) =>
      && r.status != Queued && (started ==> IsTerminal(r.status))
      && (result.Some? ==> IsTerminal(r.status) && r.status == result.value)
    case CancelFlag => r.status != Queued
    case CancelReturned => IsTerminal(r.status) || (r.status == Running && r.cancelRequestedAt.Some?)
    case _ => true
  }

  ghost predicate RunsInv(s: State)
  {
    && s.executions.Keys == s.runs.Keys
    && (forall id :: id in s.runs ==>
          RunOk(s.runs[id]) && s.executions[id] <= (if s.runs[id].status == Queued then 0 else 1))
  }

  ghost predicate ActorsInv(s: State)
  {
    forall a :: a in s.actors ==> s.actors[a].id in s.runs && Knows(s.actors[a].pc, s.runs[s.actors[a].id])
  }

  ghost predicate Inv(s: State) { RunsInv(s) && ActorsInv(s) }

  /** Knowledge survives whatever anybody else does to the row. */
  lemma KnowledgeIsStable(pc: Pc, r: Run, r': Run)
    requires RunOk(r) && Knows(pc, r) && Later(r, r') && RunOk(r')
    ensures Knows(pc, r')
  {
  }

  /** An actor's own step takes it from knowledge to knowledge. */
  lemma OwnUpdateTeaches(pc: Pc, r: Run, now: Time)
    requires RunOk(r) && Knows(pc, r) && Pending(pc, now).Some?
    ensures var w := Write(r, Pending(pc, now).value);
            Knows(AfterWrite(pc, w), if w.Some? then w.value else r)
  {
  }

  lemma ReadTeaches(pc: Pc, r: Run)
    requires RunOk(r) && Knows(pc, r)
    requires pc.RejectRead? || pc.StartRead? || pc.FinishRead? || pc.CancelRead?
    ensures Knows(AfterRead(pc, r), r)
  {
  }

  lemma StepMovesForward(s: State, e: Event, s': State, id: RunId)
    requires Step(s, e, s') && RunsInv(s) && id in s.runs
    ensures id in s'.runs && RunOk(s'.runs[id]) && Later(s.runs[id], s'.runs[id])
  {
    if e.ByOthers? && e.id == id && Write(s.runs[id], e.u).Some? {
      WriteMovesForward(s.runs[id], e.u);
    } else if e.Moved? && s.actors[e.a].id == id && Pending(s.actors[e.a].pc, e.now).Some? {
      var u := Pending(s.actors[e.a].pc, e.now).value;
      if Write(s.runs[id], u).Some? { WriteMovesForward(s.runs[id], u); }
    }
  }

  /** The executor is counted only when a start takes the run out of the queue, for good. */
  lemma StepCountsStarts(s: State, e: Event, s': State, id: RunId)
    requires Step(s, e, s') && RunsInv(s) && id in s'.runs
    ensures id in s'.executions && RunOk(s'.runs[id])
    ensures s'.executions[id] <= (if s'.runs[id].status == Queued then 0 else 1)
  {
    if id in s.runs { StepMovesForward(s, e, s', id); }
  }

  lemma StepKeepsRunsInv(s: State, e: Event, s': State)
    requires Step(s, e, s') && RunsInv(s)
    ensures RunsInv(s')
  {
    forall id | id in s'.runs
      ensures RunOk(s'.runs[id]) && s'.executions[id] <= (if s'.runs[id].status == Queued then 0 else 1)
    {
      StepCountsStarts(s, e, s', id);
    }
  }

  /** What the moving actor knows afterwards. */
  lemma MoverKnows(s: State, e: Event, s': State)
    requires Step(s, e, s') && RunsInv(s) && e.Moved?
    requires Knows(s.actors[e.a].pc, s.runs[s.actors[e.a].id])
    ensures e.a in s'.actors && s'.actors[e.a].id == s.actors[e.a].id && s.actors[e.a].id in s'.runs
    ensures Knows(s'.actors[e.a].pc, s'.runs[s.actors[e.a].id])
  {
    var pc, r := s.actors[e.a].pc, s.runs[s.actors[e.a].id];
    if Pending(pc, e.now).Some? { OwnUpdateTeaches(pc, r, e.now); }
    else if pc.RejectRead? || pc.StartRead? || pc.FinishRead? || pc.CancelRead? { ReadTeaches(pc, r); }
  }

  /** Nobody else's program counter moves. */
  lemma OthersStay(s: State, e: Event, s': State, a: ActorId)
    requires Step(s, e, s') && a in s'.actors && !(e.Moved? && e.a == a)
    ensures a in s.actors ==> s'.actors[a] == s.actors[a]
    ensures a !in s.actors ==> (s'.actors[a].pc.Fetched? || s'.actors[a].pc.CancelRead?) && s'.actors[a].id in s'.runs
  {
  }

  lemma StepKeepsInv(s: State, e: Event, s': State)
    requires Step(s, e, s') && Inv(s)
    ensures Inv(s')
  {
    StepKeepsRunsInv(s, e, s');
    forall a | a in s'.actors
      ensures s'.actors[a].id in s'.runs && Knows(s'.actors[a].pc, s'.runs[s'.actors[a].id])
    {
      if e.Moved? && e.a == a {
        MoverKnows(s, e, s');
      } else {
        OthersStay(s, e, s', a);
        if a in s.actors {
          StepMovesForward(s, e, s', s.actors[a].id);
          KnowledgeIsStable(s.actors[a].pc, s.runs[s.actors[a].id], s'.runs[s.actors[a].id]);
        }
      }
    }
  }

  lemma {:induction false} InvAlongRuns(s: State, n: nat)
    requires Reaches(Init(), s, n)
    ensures Inv(s)
    decreases n
  {
    if n > 0 {
      var m, e :| Reaches(Init(), m, n - 1) && Step(m, e, s);
      InvAlongRuns(m, n - 1);
      StepKeepsInv(m, e, s);
    }
  }

  // ---- Theorems ---------------------------------------------------------------------------

  /** The executor is entered at most once per run, over its whole history and whoever races. */
  lemma AtMostOneExecution(s: State, n: nat, id: RunId)
    requires Reaches(Init(), s, n) && id in s.runs
    ensures id in s.executions && s.executions[id] <= 1
    ensures s.runs[id].status == Queued ==> s.executions[id] == 0
  {
    InvAlongRuns(s, n);
  }

  /** When execute_run returns the run is no longer queued; it is terminal if this call started it, and a
      returned row reports the status the run then has for good. */
  lemma ReturnedMeansLanded(s: State, n: nat, a: ActorId)
    requires Reaches(Init(), s, n) && a in s.actors && s.actors[a].pc.Returned?
    ensures s.actors[a].id in s.runs
    ensures var r, pc := s.runs[s.actors[a].id], s.actors[a].pc;
            && r.status != Queued && (pc.started || pc.result.Some? ==> IsTerminal(r.status))
            && (pc.result.Some? ==> r.status == pc.result.value)
  {
    InvAlongRuns(s, n);
    assert Knows(s.actors[a].pc, s.runs[s.actors[a].id]);
  }

  /** The landing fallback cannot miss: a run that refused to finish is flagged for good, or landed. */
  lemma FallbackLands(s: State, n: nat, a: ActorId, now: Time)
    requires Reaches(Init(), s, n) && a in s.actors && s.actors[a].pc.FinishFallback?
    ensures s.actors[a].id in s.runs
    ensures var r := s.runs[s.actors[a].id];
            IsTerminal(r.status) || (Write(r, MarkCancelledAfterRun(now)).Some? && r.status == Running)
  {
    InvAlongRuns(s, n);
    assert Knows(s.actors[a].pc, s.runs[s.actors[a].id]);
  }

  /** Over any run: terminal rows are frozen, nothing returns to the queue, and a flagged run can only
      stay running or end CANCELLED. */
  lemma {:induction false} ForwardAlongRuns(a: State, b: State, n: nat, id: RunId)
    requires Reaches(a, b, n) && Inv(a) && id in a.runs
    ensures Inv(b) && id in b.runs && Later(a.runs[id], b.runs[id])
    decreases n
  {
    if n > 0 {
      var m, e :| Reaches(a, m, n - 1) && Step(m, e, b);
      ForwardAlongRuns(a, m, n - 1, id);
      StepKeepsInv(m, e, b);
      StepMovesForward(m, e, b, id);
    }
  }

  /** A cancel that has returned is never lost: if the run was not finished by then, it can end only CANCELLED. */
  lemma CancelIsNeverLost(s: State, k: nat, a: ActorId, s': State, n: nat)
    requires Reaches(Init(), s, k) && a in s.actors && s.actors[a].pc.CancelReturned?
    requires Reaches(s, s', n)
    ensures s.actors[a].id in s.runs && s.actors[a].id in s'.runs
    ensures var r, r' := s.runs[s.actors[a].id], s'.runs[s.actors[a].id];
            if IsTerminal(r.status) then r' == r
            else r'.status == Cancelled || (r'.status == Running && r'.cancelRequestedAt == r.cancelRequestedAt)
  {
    InvAlongRuns(s, k);
    assert Knows(s.actors[a].pc, s.runs[s.actors[a].id]);
    ForwardAlongRuns(s, s', n, s.actors[a].id);
  }

  // ---- What single steps are for ----------------------------------------------------------

  predicate Enters(s: State, e: Event, s': State, id: RunId)
    requires Step(s, e, s')
  {
    e.Moved? && s.actors[e.a].id == id && !s.actors[e.a].pc.Executing? && s'.actors[e.a].pc.Executing?
  }

  /** The counter counts entries into the executor: a run's goes up by one just when some actor enters it. */
  lemma EntriesAreCounted(s: State, e: Event, s': State, id: RunId)
    requires Step(s, e, s') && RunsInv(s) && id in s.runs
    ensures id in s'.executions
    ensures s'.executions[id] == s.executions[id] + if Enters(s, e, s', id) then 1 else 0
  {
  }

  /** It enters only from a queued run, which it thereby starts. */
  lemma EntryStartsTheRun(s: State, e: Event, s': State)
    requires Step(s, e, s') && RunsInv(s) && e.Moved? && s'.actors[e.a].pc.Executing?
    ensures s.actors[e.a].pc.StartWrite?
    ensures var r, r' := s.runs[s.actors[e.a].id], s'.runs[s.actors[e.a].id];
      r.status == Queued && r'.status == Running && r'.startedAt == Some(e.now)
  {
  }

  /** What an executor came to is what is recorded: on a run that is still running and unflagged, an actor that
      saw no flag either lands SUCCEEDED exactly if its executor was fine, and returns that status. */
  lemma OutcomeIsRecorded(s: State, e: Event, s': State)
    requires Step(s, e, s') && Inv(s) && e.Moved? && s.actors[e.a].pc.FinishWrite? && !s.actors[e.a].pc.sawFlag
    requires var r := s.runs[s.actors[e.a].id]; r.status == Running && r.cancelRequestedAt.None?
    ensures var pc, r' := s.actors[e.a].pc, s'.runs[s.actors[e.a].id];
      && r'.status == (if pc.ok then Succeeded else Failed)
      && s'.actors[e.a].pc == Returned(true, Some(r'.status))
  {
  }

  lemma OutcomeIsCarried(s: State, e: Event, s': State)
    requires Step(s, e, s') && Inv(s) && e.Moved?
    ensures s.actors[e.a].pc.Executing? ==> s'.actors[e.a].pc == FinishRead(e.ok)
    ensures s.actors[e.a].pc.FinishRead? && s'.actors[e.a].pc.FinishWrite? ==>
      s'.actors[e.a].pc.ok == s.actors[e.a].pc.ok
      && (s'.actors[e.a].pc.sawFlag <==> s.runs[s.actors[e.a].id].cancelRequestedAt.Some?)
  {
  }

  /** An actor that found its run unusable, or is cancelling, never enters the executor. */
  predicate Bystander(pc: Pc)
  {
    || pc.RejectRead? || pc.RejectWrite? || (pc.Returned? && !pc.started)
    || pc.CancelRead? || pc.CancelPending? || pc.CancelFlag? || pc.CancelReturned?
  }

  lemma BystanderStays(s: State, e: Event, s': State)
    requires Step(s, e, s') && e.Moved?
    ensures s.actors[e.a].pc.Fetched? && !e.usable ==> Bystander(s'.actors[e.a].pc)
    ensures Bystander(s.actors[e.a].pc) ==> Bystander(s'.actors[e.a].pc)
    ensures s.actors[e.a].pc.Fetched? && e.usable ==> s'.actors[e.a].pc.StartRead?
  {
  }

  /** A rejection lands a queued run FAILED, and a cancel lands a queued run CANCELLED and flags a running one. */
  lemma BystandersAct(s: State, e: Event, s': State)
    requires Step(s, e, s') && Inv(s) && e.Moved?
    ensures var pc, r, r' := s.actors[e.a].pc, s.runs[s.actors[e.a].id], s'.runs[s.actors[e.a].id];
      && (pc.RejectWrite? && r.status == Queued ==>
            r'.status == Failed && s'.actors[e.a].pc == Returned(false, Some(Failed)))
      && (pc.CancelPending? && r.status == Queued ==> r'.status == Cancelled)
      && (pc.CancelFlag? && r.status == Running ==> r'.status == Running && r'.cancelRequestedAt.Some?)
  {
  }
}
