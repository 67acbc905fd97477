/** Agent-run rows, the guarded UPDATEs of their repository, and the services that string them together. */
module AgentRuns {
  import opened Base
  import opened AgentStateMachine

  type RunId = nat
  type OrgId = nat
  type UserId = nat

  datatype Run = Run(org: OrgId, createdAt: Time, status: Status, startedAt: Option<Time>, finishedAt: Option<Time>,
                     cancelRequestedAt: Option<Time>, cancelledBy: Option<UserId>,
                     output: Option<string>, error: Option<string>)

  function NewRun(org: OrgId, createdAt: Time): Run
  {
    Run(org, createdAt, Queued, None, None, None, None, None, None)
  }

  datatype Update =
    | MarkStarted(now: Time)
    | MarkSucceeded(output: string, at: Time)
    | MarkFailed(error: string, at: Time)
    | MarkFailedIfQueued(error: string, at: Time)
    | MarkCancelledAfterRun(at: Time)
    | MarkCancelledIfPending(at: Time, user: Option<UserId>)
    | MarkCancelRequested(at: Time, user: Option<UserId>)

  predicate Matches(r: Run, u: Update)
  {
    match u
    case MarkStarted(_) => r.status == Queued && r.cancelRequestedAt.None?
    case MarkSucceeded(_, _) => r.status == Running && r.cancelRequestedAt.None?
    case MarkFailed(_, _) => r.status == Running && r.cancelRequestedAt.None?
    case MarkFailedIfQueued(_, _) => r.status == Queued
    case MarkCancelledAfterRun(_) => r.status == Running && r.cancelRequestedAt.Some?
    case MarkCancelledIfPending(_, _) => r.status == Queued && r.cancelRequestedAt.None?
    case MarkCancelRequested(_, _) => r.status == Running && r.cancelRequestedAt.None?
  }

  function Assigned(r: Run, u: Update): Run
  {
    match u
    case MarkStarted(now) => r.(status := Running, startedAt := Some(now))
    case MarkSucceeded(output, at) => r.(status := Succeeded, finishedAt := Some(at), output := Some(output))
    case MarkFailed(error, at) => r.(status := Failed, finishedAt := Some(at), error := Some(error))
    case MarkFailedIfQueued(error, at) => r.(status := Failed, finishedAt := Some(at), error := Some(error))
    case MarkCancelledAfterRun(at) => r.(status := Cancelled, finishedAt := Some(at))
    case MarkCancelledIfPending(at, user) =>
      r.(status := Cancelled, cancelRequestedAt := Some(at), cancelledBy := user, finishedAt := Some(at))
    case MarkCancelRequested(at, user) => r.(cancelRequestedAt := Some(at), cancelledBy := user)
  }

  /** One UPDATE ... RETURNING: the new row, or None. */
  function Write(r: Run, u: Update): Option<Run>
  {
    if Matches(r, u) then Some(Assigned(r, u)) else None
  }

  /** A cancel flag is only ever carried by a run in flight or already cancelled. */
  predicate RunOk(r: Run)
  {
    && (r.cancelRequestedAt.Some? ==> r.status == Running || r.status == Cancelled)
    && (r.status == Cancelled ==> r.cancelRequestedAt.Some?)
    && (r.finishedAt.Some? <==> IsTerminal(r.status))
  }

  /** What no UPDATE by anyone can undo. */
  predicate Later(r: Run, r': Run)
  {
    && r'.org == r.org && r'.createdAt == r.createdAt
    && (r.status != Queued ==> r'.status != Queued)
    && (IsTerminal(r.status) ==> r' == r)
    && (r.cancelRequestedAt.Some? ==>
          r'.cancelRequestedAt == r.cancelRequestedAt && (r'.status == r.status || r'.status == Cancelled))
  }

  lemma WriteMovesForward(r: Run, u: Update)
    requires RunOk(r) && Write(r, u).Some?
    ensures RunOk(Write(r, u).value) && Later(r, Write(r, u).value)
  {
  }

  /** What an UPDATE leaves in each column. */
  lemma ColumnsAfter(r: Run, u: Update)
    requires Write(r, u).Some?
    ensures var r' := Write(r, u).value;
      && r'.org == r.org && r'.createdAt == r.createdAt
      && r'.startedAt == (if u.MarkStarted? then Some(u.now) else r.startedAt)
      && r'.finishedAt == (if u.MarkStarted? || u.MarkCancelRequested? then r.finishedAt else Some(u.at))
      && r'.output == (if u.MarkSucceeded? then Some(u.output) else r.output)
      && r'.error == (if u.MarkFailed? || u.MarkFailedIfQueued? then Some(u.error) else r.error)
    ensures var r', cancels := Write(r, u).value, u.MarkCancelledIfPending? || u.MarkCancelRequested?;
      && r'.cancelRequestedAt == (if cancels then Some(u.at) else r.cancelRequestedAt)
      && r'.cancelledBy == (if cancels then u.user else r.cancelledBy)
    ensures var to := Write(r, u).value.status;
      && (to == Queued <==> false)
      && (to == Running <==> u.MarkStarted? || u.MarkCancelRequested?)
      && (to == Succeeded <==> u.MarkSucceeded?)
      && (to == Failed <==> u.MarkFailed? || u.MarkFailedIfQueued?)
      && (to == Cancelled <==> u.MarkCancelledAfterRun? || u.MarkCancelledIfPending?)
  {
  }

  /** Which UPDATEs a coherent row is open to, status by status. */
  lemma OpenTo(r: Run, u: Update)
    requires RunOk(r)
    ensures r.status == Queued ==>
      (Write(r, u).Some? <==> u.MarkStarted? || u.MarkFailedIfQueued? || u.MarkCancelledIfPending?)
    ensures r.status == Running && r.cancelRequestedAt.None? ==>
      (Write(r, u).Some? <==> u.MarkSucceeded? || u.MarkFailed? || u.MarkCancelRequested?)
    ensures r.status == Running && r.cancelRequestedAt.Some? ==> (Write(r, u).Some? <==> u.MarkCancelledAfterRun?)
    ensures IsTerminal(r.status) ==> Write(r, u).None?
  {
  }

  /** A new run is queued, unflagged and can be started. */
  lemma NewRunIsQueued(org: OrgId, createdAt: Time, now: Time)
    ensures var r := NewRun(org, createdAt);
      && RunOk(r) && r.status == Queued && r.org == org && r.createdAt == createdAt
      && r.startedAt.None? && r.output.None? && r.error.None? && Write(r, MarkStarted(now)).Some?
  {
  }

  /** The repository realises the abstract table exactly: a transition is legal if and only if some
      UPDATE makes it on some coherent row. */
  lemma RepositoryRefinesTable(a: Status, b: Status)
    ensures CanTransition(a, b) <==>
            exists r: Run, u: Update ::
              RunOk(r) && r.status == a != b && Write(r, u).Some? && Write(r, u).value.status == b
  {
    if CanTransition(a, b) {
      var flag: Option<Time> := if a == Running && b == Cancelled then Some(0) else None;
      var r := NewRun(0, 0).(status := a, cancelRequestedAt := flag);
      var u := match (a, b)
        case (Queued, Running) => MarkStarted(0)
        case (Queued, Failed) => MarkFailedIfQueued("", 0)
        case (Queued, _) => MarkCancelledIfPending(0, None)
        case (_, Succeeded) => MarkSucceeded("", 0)
        case (_, Failed) => MarkFailed("", 0)
        case _ => MarkCancelledAfterRun(0);
      assert RunOk(r) && Write(r, u).Some? && Write(r, u).value.status == b;
    } else {
      forall r: Run, u: Update | RunOk(r) && r.status == a && Write(r, u).Some? && Write(r, u).value.status != a
        ensures Write(r, u).value.status != b
      {
      }
    }
  }

  /** In RUNNING exactly one of the two landing families is open: finish, or cancel after the run. */
  lemma ExactlyOneLanding(r: Run, output: string, error: string, at: Time)
    requires r.status == Running
    ensures Matches(r, MarkSucceeded(output, at)) <==> Matches(r, MarkFailed(error, at))
    ensures Matches(r, MarkSucceeded(output, at)) <==> !Matches(r, MarkCancelledAfterRun(at))
  {
  }

  /** A run after other workers, sweeps and users have had their turn with it. */
  function Meanwhile(r: Run, others: seq<Update>): Run
  {
    if others == [] then r
    else
      var m := Meanwhile(r, others[..|others| - 1]);
      var w := Write(m, others[|others| - 1]);
      if w.Some? then w.value else m
  }

  lemma {:induction false} MeanwhileMovesForward(r: Run, others: seq<Update>)
    requires RunOk(r)
    ensures RunOk(Meanwhile(r, others)) && Later(r, Meanwhile(r, others))
  {
    if others != [] {
      MeanwhileMovesForward(r, others[..|others| - 1]);
      var m := Meanwhile(r, others[..|others| - 1]);
      if Write(m, others[|others| - 1]).Some? { WriteMovesForward(m, others[|others| - 1]); }
    }
  }

  class AgentRunRepository {
    var runs: map<RunId, Run>

    constructor ()
      ensures runs == map[]
    {
      runs := map[];
    }

    /** Any of the guarded UPDATEs, addressed to (organization, id). */
    method Execute(org: OrgId, id: RunId, u: Update) returns (updated: Option<Run>)
      modifies this
      ensures updated == if id in old(runs) && old(runs)[id].org == org then Write(old(runs)[id], u) else None
      ensures runs == if updated.Some? then old(runs)[id := updated.value] else old(runs)
    {
      if id !in runs || runs[id].org != org { return None; }
      var r := runs[id];
      var unflagged := r.cancelRequestedAt.None?;
      match u {
        case MarkStarted(now) =>
          if r.status != Queued || !unflagged { return None; }
          r := r.(status := Running, startedAt := Some(now));
        case MarkSucceeded(output, at) =>
          if r.status != Running || !unflagged { return None; }
          r := r.(status := Succeeded, finishedAt := Some(at), output := Some(output));
        case MarkFailed(error, at) =>
          if r.status != Running || !unflagged { return None; }
          r := r.(status := Failed, finishedAt := Some(at), error := Some(error));
        case MarkFailedIfQueued(error, at) =>
          if r.status != Queued { return None; }
          r := r.(status := Failed, finishedAt := Some(at), error := Some(error));
        case MarkCancelledAfterRun(at) =>
          if r.status != Running || unflagged { return None; }
          r := r.(status := Cancelled, finishedAt := Some(at));
        case MarkCancelledIfPending(at, user) =>
          if r.status != Queued || !unflagged { return None; }
          r := r.(status := Cancelled, cancelRequestedAt := Some(at), cancelledBy := user, finishedAt := Some(at));
        case MarkCancelRequested(at, user) =>
          if r.status != Running || !unflagged { return None; }
          r := r.(cancelRequestedAt := Some(at), cancelledBy := user);
      }
      runs := runs[id := r];
      updated := Some(r);
    }

    /** Inserts a queued run. */
    method Create(org: OrgId, id: RunId, createdAt: Time)
      requires id !in runs
      modifies this
      ensures runs == old(runs)[id := NewRun(org, createdAt)]
    {
      runs := runs[id := NewRun(org, createdAt)];
    }

    /** Other sessions commit these UPDATEs before the caller's next statement. */
    method Interfere(id: RunId, others: seq<Update>)
      requires id in runs && RunOk(runs[id])
      modifies this
      ensures runs == old(runs)[id := Meanwhile(old(runs)[id], others)]
      ensures RunOk(runs[id]) && Later(old(runs)[id], runs[id])
    {
      var r := runs[id];
      for i := 0 to |others|
        invariant runs == old(runs)[id := Meanwhile(r, others[..i])] && runs[id].org == r.org
      {
        assert others[..i + 1][..i] == others[..i];
        MeanwhileMovesForward(r, others[..i + 1]);
        var _ := Execute(r.org, id, others[i]);
      }
      assert others[..|others|] == others;
      MeanwhileMovesForward(r, others);
    }
  }

  /** How a finishing call lands a running row: a cancel flag decides first, then the verdict. */
  function Landed(r: Run, verdict: Update, now: Time): Run
  {
    if r.cancelRequestedAt.Some? then Assigned(r, MarkCancelledAfterRun(now)) else Assigned(r, verdict)
  }

  class AgentService {
    const repo: AgentRunRepository

    constructor (repo: AgentRunRepository)
      ensures this.repo == repo
    {
      this.repo := repo;
    }

    /** QUEUED -> RUNNING, or None where the service raises. */
    method StartRun(org: OrgId, id: RunId, now: Time) returns (updated: Option<Run>)
      modifies repo
      ensures updated.Some? <==> id in old(repo.runs) && old(repo.runs)[id].org == org &&
                                 Matches(old(repo.runs)[id], MarkStarted(now))
      ensures updated.Some? ==> updated.value == Assigned(old(repo.runs)[id], MarkStarted(now))
      ensures repo.runs == if updated.Some? then old(repo.runs)[id := updated.value] else old(repo.runs)
    {
      if id !in repo.runs || repo.runs[id].org != org { return None; }
      if !CanTransition(repo.runs[id].status, Running) { return None; }
      updated := repo.Execute(org, id, MarkStarted(now));
    }

    /** RUNNING -> SUCCEEDED, honouring a cancel request, whatever lands between the read and the UPDATEs. */
    method CompleteRun(org: OrgId, id: RunId, between: seq<Update>, output: string, now: Time)
      returns (updated: Option<Run>)
      requires id in repo.runs && repo.runs[id].org == org && RunOk(repo.runs[id])
      modifies repo
      ensures var r := old(repo.runs)[id];
              var m := if CanTransition(r.status, Succeeded) then Meanwhile(r, between) else r;
              && (updated.Some? <==> CanTransition(r.status, Succeeded) && m.status == Running)
              && (updated.Some? ==> updated.value == Landed(m, MarkSucceeded(output, now), now))
              && repo.runs == old(repo.runs)[id := if updated.Some? then updated.value else m]
    {
      if !CanTransition(repo.runs[id].status, Succeeded) { return None; }
      repo.Interfere(id, between);
      updated := repo.Execute(org, id, MarkSucceeded(output, now));
      if updated.None? {
        updated := repo.Execute(org, id, MarkCancelledAfterRun(now));
      }
    }

    /** RUNNING -> FAILED, honouring a cancel request, whatever lands between the read and the UPDATEs. */
    method FailRun(org: OrgId, id: RunId, between: seq<Update>, error: string, now: Time)
      returns (updated: Option<Run>)
      requires id in repo.runs && repo.runs[id].org == org && RunOk(repo.runs[id])
      modifies repo
      ensures var r := old(repo.runs)[id];
              var m := if CanTransition(r.status, Failed) then Meanwhile(r, between) else r;
              && (updated.Some? <==> CanTransition(r.status, Failed) && m.status == Running)
              && (updated.Some? ==> updated.value == Landed(m, MarkFailed(error, now), now))
              && repo.runs == old(repo.runs)[id := if updated.Some? then updated.value else m]
    {
      var read := repo.runs[id];
      if !CanTransition(read.status, Failed) { return None; }
      repo.Interfere(id, between);
      if read.cancelRequestedAt.Some? {
        updated := repo.Execute(org, id, MarkCancelledAfterRun(now));
      } else {
        updated := repo.Execute(org, id, MarkFailed(error, now));
      }
      if updated.None? {
        updated := repo.Execute(org, id, MarkCancelledAfterRun(now));
      }
    }

    /** QUEUED -> FAILED before dispatch. */
    method FailQueuedRun(org: OrgId, id: RunId, error: string, now: Time) returns (updated: Option<Run>)
      modifies repo
      ensures updated.Some? <==> id in old(repo.runs) && old(repo.runs)[id].org == org &&
                                 old(repo.runs)[id].status == Queued
      ensures updated.Some? ==> updated.value == old(repo.runs)[id].(status := Failed, finishedAt := Some(now),
                                                                     error := Some(error))
      ensures repo.runs == if updated.Some? then old(repo.runs)[id := updated.value] else old(repo.runs)
    {
      if id !in repo.runs || repo.runs[id].org != org { return None; }
      if !CanTransition(repo.runs[id].status, Failed) { return None; }
      updated := repo.Execute(org, id, MarkFailedIfQueued(error, now));
    }

    /** Cancel a run: at once while queued, by flag while running. Whatever lands between the read and the
        UPDATEs, the run ends up cancelled, flagged, or finished already; None where the call is refused. */
    method CancelRun(org: OrgId, id: RunId, between: seq<Update>, user: Option<UserId>, now: Time)
      returns (after: Option<Run>)
      requires id in repo.runs && repo.runs[id].org == org && RunOk(repo.runs[id])
      modifies repo
      ensures var r := old(repo.runs)[id];
              var m := if IsCancellable(r.status) then Meanwhile(r, between) else r;
              && repo.runs.Keys == old(repo.runs).Keys
              && (forall i :: i in repo.runs && i != id ==> repo.runs[i] == old(repo.runs)[i])
              && (after.None? <==> r.status in {Succeeded, Failed})
              && (after.None? ==> repo.runs[id] == r)
              && (after.Some? ==> repo.runs[id] == after.value)
              && (after.Some? && IsTerminal(m.status) ==> after.value == m)
              && (after.Some? && m.status == Queued ==> after.value.status == Cancelled)
              && (after.Some? && m.status == Running ==>
                    after.value.status == Running && after.value.cancelRequestedAt.Some?)
    {
      var read := repo.runs[id];
      if read.status == Cancelled { return Some(read); }
      if !IsCancellable(read.status) { return None; }
      repo.Interfere(id, between);
      if read.status == Queued {
        after := repo.Execute(org, id, MarkCancelledIfPending(now, user));
        if after.None? {
          after := repo.Execute(org, id, MarkCancelRequested(now, user));
        }
      } else {
        after := repo.Execute(org, id, MarkCancelRequested(now, user));
      }
      if after.None? { after := Some(repo.runs[id]); }
    }
  }

  // ---- The runtime ------------------------------------------------------------------------

  /** How an executor ends: `Raised` carries the exception's stripped text, `Refused` the message and code of one
      of the application's own errors. */
  datatype Ending =
    | Success(output: string)
    | Failure(error: string)
    | Raised(message: string)
    | Refused(message: string, code: string)
    | Timeout

  /** The error text an ending is recorded with; None for a success. */
  function ErrorOf(ending: Ending): Option<string>
  {
    match ending
    case Success(_) => None
    case Failure(error) => Some(if error == "" then "Agent execution failed" else error)
    case Raised(message) =>
      Some(if message == "" then "Agent execution failed"
           else if |message| <= 500 then message else message[..500])
    case Refused(message, code) => Some(if message == "" then code else message)
    case Timeout => Some("Agent run exceeded its time budget")
  }

  function VerdictOf(ending: Ending, now: Time): Update
  {
    var error := ErrorOf(ending);
    if error.Some? then MarkFailed(error.value, now) else MarkSucceeded(ending.output, now)
  }

  /** The error text an ending leaves on a failed run: the text given, as far as there is one. */
  predicate Tells(error: string, ending: Ending)
  {
    match ending
    case Success(_) => false
    case Failure(given) => error == (if given != "" then given else "Agent execution failed")
    case Raised(message) =>
      if message == "" then error == "Agent execution failed"
      else error <= message && |error| == if |message| < 500 then |message| else 500
    case Refused(message, code) => error == (if message != "" then message else code)
    case Timeout => error == "Agent run exceeded its time budget"
  }

  /** A run that is still running when its executor ends: a cancel flag decides first; otherwise a success keeps
      the output and anything else the error. */
  lemma LandsAsEnded(r: Run, ending: Ending, now: Time)
    requires r.status == Running
    ensures var r' := Landed(r, VerdictOf(ending, now), now);
      && r'.finishedAt == Some(now) && r'.startedAt == r.startedAt
      && r'.cancelRequestedAt == r.cancelRequestedAt && r'.cancelledBy == r.cancelledBy
      && (r.cancelRequestedAt.Some? ==> r'.status == Cancelled && r'.output == r.output && r'.error == r.error)
      && (r.cancelRequestedAt.None? && ending.Success? ==>
            r'.status == Succeeded && r'.output == Some(ending.output) && r'.error == r.error)
      && (r.cancelRequestedAt.None? && !ending.Success? ==>
            r'.status == Failed && r'.output == r.output && r'.error.Some? && Tells(r'.error.value, ending)
            && (r'.error.value == "" ==> ending == Refused("", "")))
  {
  }

  class AgentRuntime {
    const service: AgentService

    constructor (service: AgentService)
      ensures this.service == service
    {
      this.service := service;
    }

    /** Lands a run with what its executor ended in, if it is still running. */
    method Finish(org: OrgId, id: RunId, ending: Ending, now: Time) returns (final: Option<Run>)
      requires id in service.repo.runs && service.repo.runs[id].org == org && RunOk(service.repo.runs[id])
      modifies service.repo
      ensures var r := old(service.repo.runs)[id];
              && (final.Some? <==> r.status == Running)
              && (final.Some? ==> final.value == Landed(r, VerdictOf(ending, now), now))
              && service.repo.runs == if final.Some? then old(service.repo.runs)[id := final.value]
                                      else old(service.repo.runs)
    {
      var error := ErrorOf(ending);
      if error.Some? {
        final := service.FailRun(org, id, [], error.value, now);
      } else {
        final := service.CompleteRun(org, id, [], ending.output, now);
      }
      assert service.repo.runs == old(service.repo.runs)[id := service.repo.runs[id]];
    }

    /** Claim and execute one queued run while `others` happens to it. A run that was queued and unflagged
        ends terminal: where it was already landed meanwhile it stays, otherwise a cancel flag decides
        before the executor's own verdict does. */
    method ExecuteRun(org: OrgId, id: RunId, aiEnabled: bool, hasExecutor: bool, others: seq<Update>, ending: Ending,
                      now: Time) returns (final: Option<Run>)
      requires forall i :: i in service.repo.runs ==> RunOk(service.repo.runs[i])
      requires id in service.repo.runs && service.repo.runs[id].org == org
      modifies service.repo
      ensures service.repo.runs.Keys == old(service.repo.runs).Keys
      ensures forall i :: i in old(service.repo.runs) && i != id ==> service.repo.runs[i] == old(service.repo.runs)[i]
      ensures service.repo.runs[id].status != Queued
      ensures RunOk(service.repo.runs[id]) && Later(old(service.repo.runs)[id], service.repo.runs[id])
      ensures final.Some? ==> service.repo.runs[id] == final.value && IsTerminal(final.value.status)
      ensures old(service.repo.runs)[id].status != Queued ==>
                final.None? && service.repo.runs[id] == old(service.repo.runs)[id]
      ensures old(service.repo.runs)[id].status == Queued && !(aiEnabled && hasExecutor) ==>
                && final.Some? && final.value.status == Failed && final.value.finishedAt == Some(now)
                && final.value.startedAt == old(service.repo.runs)[id].startedAt
                && final.value.output == old(service.repo.runs)[id].output
                && final.value.error == Some(if !aiEnabled then "AI execution disabled for this organization"
                                             else "Agent has no registered executor")
      ensures old(service.repo.runs)[id].status == Queued && aiEnabled && hasExecutor ==>
                var m := Meanwhile(Assigned(old(service.repo.runs)[id], MarkStarted(now)), others);
                && (final.None? <==> IsTerminal(m.status))
                && (if IsTerminal(m.status) then service.repo.runs[id] == m
                    else service.repo.runs[id] == Landed(m, VerdictOf(ending, now), now))
      ensures old(service.repo.runs)[id].status == Queued && aiEnabled && hasExecutor ==>
                var m := Meanwhile(Assigned(old(service.repo.runs)[id], MarkStarted(now)), others);
                var r := service.repo.runs[id];
                && (m.status == Running && m.cancelRequestedAt.Some? ==> r.status == Cancelled && r.output == m.output)
                && (m.status == Running && m.cancelRequestedAt.None? ==>
                      if ending.Success?
                      then r.status == Succeeded && r.output == Some(ending.output) && r.error == m.error
                      else r.status == Failed && r.output == m.output
                           && r.error.Some? && Tells(r.error.value, ending))
    {
      if !aiEnabled {
        final := service.FailQueuedRun(org, id, "AI execution disabled for this organization", now);
        return;
      }
      if !hasExecutor {
        final := service.FailQueuedRun(org, id, "Agent has no registered executor", now);
        return;
      }
      var started := service.StartRun(org, id, now);
      if started.None? { return None; }
      WriteMovesForward(old(service.repo.runs)[id], MarkStarted(now));
      service.repo.Interfere(id, others);
      ghost var m := service.repo.runs[id];
      if m.status == Running { LandsAsEnded(m, ending, now); }
      final := Finish(org, id, ending, now);
    }
  }
}
