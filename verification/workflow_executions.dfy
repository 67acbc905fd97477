/** Workflow executions: a seven-status queue row in which, unlike a delivery, cancel wins. Rows do not
    interact, so every interleaving is, seen from one row, a sequence of the UPDATEs that hit it. */
module WorkflowExecutions {
  import opened Base

  type ExecutionId = nat
  type OrgId = nat
  type UserId = nat

  datatype Status = Queued | Running | Succeeded | Failed | Retrying | Cancelled | TimedOut

  datatype Execution = Execution(
    org: OrgId, status: Status, attempts: nat, maxAttempts: nat, retryDelay: nat, exponential: bool,
    startedAt: Option<Time>, finishedAt: Option<Time>, nextRetryAt: Option<Time>,
    cancelRequestedAt: Option<Time>, cancelledBy: Option<UserId>, output: Option<string>, error: Option<string>)

  function NewExecution(org: OrgId, maxAttempts: nat, retryDelay: nat, exponential: bool): Execution
  {
    Execution(org, Queued, 0, maxAttempts, retryDelay, exponential, None, None, None, None, None, None, None)
  }

  /** `at` is the clock as the UPDATE runs. `MarkFailed` goes to RETRYING if it is given a retry time. */
  datatype Update =
    | MarkStarted(at: Time)
    | MarkSucceeded(output: string, at: Time)
    | MarkFailed(error: string, retryAt: Option<Time>, at: Time)
    | MarkFailedIfQueued(error: string, at: Time)
    | MarkCancelledAfterRun(at: Time)
    | MarkCancelledIfPending(user: Option<UserId>, at: Time)
    | MarkCancelRequested(user: Option<UserId>, at: Time)
    | MarkTimedOut(error: string, at: Time)
    | MarkRequeued(at: Time)
    | MarkRequeuedDue(dueBefore: Time, at: Time)

  predicate Matches(r: Execution, u: Update)
  {
    var unflagged := r.cancelRequestedAt.None?;
    match u
    case MarkStarted(_) => r.status == Queued && unflagged
    case MarkSucceeded(_, _) => r.status == Running && unflagged
    case MarkFailed(_, _, _) => r.status == Running && unflagged
    case MarkFailedIfQueued(_, _) => r.status == Queued
    case MarkCancelledAfterRun(_) => r.status == Running && !unflagged
    case MarkCancelledIfPending(_, _) => (r.status == Queued || r.status == Retrying) && unflagged
    case MarkCancelRequested(_, _) => r.status == Running && unflagged
    case MarkTimedOut(_, _) => r.status == Running && unflagged
    case MarkRequeued(_) => r.status == Failed || r.status == Cancelled || r.status == TimedOut
    case MarkRequeuedDue(dueBefore, _) =>
      r.status == Retrying && r.nextRetryAt.Some? && r.nextRetryAt.value <= dueBefore
  }

  function Assigned(r: Execution, u: Update): Execution
  {
    match u
    case MarkStarted(at) => r.(status := Running, attempts := r.attempts + 1, startedAt := Some(at))
    case MarkSucceeded(output, at) => r.(status := Succeeded, output := Some(output), finishedAt := Some(at))
    case MarkFailed(error, retryAt, at) =>
      r.(status := if retryAt.Some? then Retrying else Failed, error := Some(error), nextRetryAt := retryAt,
         finishedAt := if retryAt.Some? then r.finishedAt else Some(at))
    case MarkFailedIfQueued(error, at) =>
      r.(status := Failed, error := Some(error), nextRetryAt := None, finishedAt := Some(at))
    case MarkCancelledAfterRun(at) => r.(status := Cancelled, finishedAt := Some(at))
    case MarkCancelledIfPending(user, at) =>
      r.(status := Cancelled, cancelRequestedAt := Some(at), cancelledBy := user, finishedAt := Some(at))
    case MarkCancelRequested(user, at) => r.(cancelRequestedAt := Some(at), cancelledBy := user)
    case MarkTimedOut(error, at) => r.(status := TimedOut, error := Some(error), finishedAt := Some(at))
    case MarkRequeued(_) =>
      r.(status := Queued, nextRetryAt := None, cancelRequestedAt := None, cancelledBy := None)
    case MarkRequeuedDue(_, _) => r.(status := Queued, nextRetryAt := None)
  }

  function Write(r: Execution, u: Update): Option<Execution>
  {
    if Matches(r, u) then Some(Assigned(r, u)) else None
  }

  /** What an UPDATE leaves in each column: the status and counters ... */
  lemma CountersAfter(r: Execution, u: Update)
    requires Write(r, u).Some?
    ensures var r' := Write(r, u).value;
      && r'.org == r.org && r'.maxAttempts == r.maxAttempts && r'.retryDelay == r.retryDelay
      && r'.exponential == r.exponential
      && r'.attempts == (if u.MarkStarted? then r.attempts + 1 else r.attempts)
      && (r'.status == Running <==> u.MarkStarted? || u.MarkCancelRequested?)
      && (r'.status == Succeeded <==> u.MarkSucceeded?)
      && (r'.status == Retrying <==> u.MarkFailed? && u.retryAt.Some?)
      && (r'.status == Failed <==> (u.MarkFailed? && u.retryAt.None?) || u.MarkFailedIfQueued?)
      && (r'.status == Cancelled <==> u.MarkCancelledAfterRun? || u.MarkCancelledIfPending?)
      && (r'.status == TimedOut <==> u.MarkTimedOut?)
      && (r'.status == Queued <==> u.MarkRequeued? || u.MarkRequeuedDue?)
  {
  }

  /** ... and the rest; a coherent row has a retry time only while it waits for it, or once cancelled waiting. */
  lemma ColumnsAfter(r: Execution, u: Update)
    requires Write(r, u).Some?
    ensures var r', to := Write(r, u).value, Write(r, u).value.status;
      && r'.startedAt == (if u.MarkStarted? then Some(u.at) else r.startedAt)
      && r'.finishedAt == (if to in {Succeeded, Failed, Cancelled, TimedOut} then Some(u.at) else r.finishedAt)
      && r'.output == (if to == Succeeded then Some(u.output) else r.output)
      && r'.error == (if to == Failed || to == Retrying || to == TimedOut then Some(u.error) else r.error)
    ensures var r', to := Write(r, u).value, Write(r, u).value.status;
      && (to == Retrying ==> r'.nextRetryAt == u.retryAt) && (to == Queued ==> r'.nextRetryAt == None)
      && (to != Retrying && to != Queued && to != Failed ==> r'.nextRetryAt == r.nextRetryAt)
      && (to == Failed ==> r'.nextRetryAt == None)
    ensures var r', cancels := Write(r, u).value, u.MarkCancelledIfPending? || u.MarkCancelRequested?;
      && r'.cancelRequestedAt ==
           (if cancels then Some(u.at) else if u.MarkRequeued? then None else r.cancelRequestedAt)
      && r'.cancelledBy == (if cancels then u.user else if u.MarkRequeued? then None else r.cancelledBy)
  {
  }

  /** Which UPDATEs a coherent row is open to, status by status. */
  lemma OpenTo(r: Execution, u: Update)
    requires Coherent(r)
    ensures Write(r, u).Some? <==> match r.status
      case Queued => u.MarkStarted? || u.MarkFailedIfQueued? || u.MarkCancelledIfPending?
      case Running =>
        if r.cancelRequestedAt.Some? then u.MarkCancelledAfterRun?
        else u.MarkSucceeded? || u.MarkFailed? || u.MarkTimedOut? || u.MarkCancelRequested?
      case Retrying => u.MarkCancelledIfPending? || (u.MarkRequeuedDue? && r.nextRetryAt.value <= u.dueBefore)
      case Succeeded => false
      case _ => u.MarkRequeued?
  {
  }

  /** A new execution is queued, untried and unflagged. */
  lemma NewIsQueued(org: OrgId, maxAttempts: nat, retryDelay: nat, exponential: bool, at: Time)
    ensures var r := NewExecution(org, maxAttempts, retryDelay, exponential);
      && Coherent(r) && Ordered(r, at) && r.status == Queued && r.attempts == 0
      && r.org == org && r.maxAttempts == maxAttempts && r.retryDelay == retryDelay && r.exponential == exponential
      && r.startedAt.None? && r.finishedAt.None? && r.output.None? && r.error.None?
      && Write(r, MarkStarted(at)).Some?
  {
  }

  /** The row after one UPDATE; one that matches nothing changes nothing. */
  function Hit(r: Execution, u: Update): Execution
  {
    if Matches(r, u) then Assigned(r, u) else r
  }

  /** The row after a history of UPDATEs. */
  function After(r: Execution, us: seq<Update>): Execution
    decreases us
  {
    if us == [] then r else After(Hit(r, us[0]), us[1..])
  }

  function Starts(r: Execution, us: seq<Update>): nat
    decreases us
  {
    if us == [] then 0
    else (if us[0].MarkStarted? && Matches(r, us[0]) then 1 else 0) + Starts(Hit(r, us[0]), us[1..])
  }

  /** A cancel flag lives only on a run in flight or already cancelled, so it can never block the queue. */
  predicate Coherent(r: Execution)
  {
    && (r.cancelRequestedAt.Some? ==> r.status == Running || r.status == Cancelled)
    && (r.status == Cancelled ==> r.cancelRequestedAt.Some?)
    && (r.status == Retrying ==> r.nextRetryAt.Some?)
    && (r.nextRetryAt.Some? ==> r.status == Retrying || r.status == Cancelled)
  }

  lemma HitKeepsCoherent(r: Execution, u: Update)
    requires Coherent(r)
    ensures Coherent(Hit(r, u))
  {
  }

  /** Every row that starts out coherent stays so, counts all its starts, manual requeues included, and can
      always be started when it is queued. */
  lemma {:induction false} HistoryIsCoherent(r: Execution, us: seq<Update>, at: Time)
    requires Coherent(r)
    ensures Coherent(After(r, us))
    ensures After(r, us).attempts == r.attempts + Starts(r, us)
    ensures After(r, us).maxAttempts == r.maxAttempts
    ensures After(r, us).status == Queued ==> Write(After(r, us), MarkStarted(at)).Some?
    decreases us
  {
    if us != [] {
      HitKeepsCoherent(r, us[0]);
      HistoryIsCoherent(Hit(r, us[0]), us[1..], at);
    }
  }

  /** The first k UPDATEs change nothing, and the next one cancels. */
  ghost predicate CancelledBy(r: Execution, us: seq<Update>, k: nat)
  {
    k < |us| && After(r, us[..k]) == r && Hit(r, us[k]).status == Cancelled
  }

  /** Cancel wins: once a running execution is flagged, whatever follows, the first UPDATE that changes it
      at all is the one that cancels it. */
  lemma {:induction false} CancelWins(r: Execution, us: seq<Update>)
    requires r.status == Running && r.cancelRequestedAt.Some?
    ensures After(r, us) == r || exists k: nat :: CancelledBy(r, us, k)
  {
    if us != [] {
      if Hit(r, us[0]) == r {
        CancelWins(r, us[1..]);
        if k: nat :| CancelledBy(r, us[1..], k) {
          assert us[..k + 1][1..] == us[1..][..k];
          assert CancelledBy(r, us, k + 1);
        }
      } else {
        assert us[..0] == [];
        assert CancelledBy(r, us, 0);
      }
    }
  }

  // ---- Durations --------------------------------------------------------------------------

  predicate Timely(us: seq<Update>, from: Time)
  {
    us == [] || (from <= us[0].at && Timely(us[1..], us[0].at))
  }

  function Last(us: seq<Update>, from: Time): Time { if us == [] then from else us[|us| - 1].at }

  /** How start and finish stamps lie once the clock reads `now`. */
  predicate Stamped(r: Execution, now: Time)
  {
    && (r.startedAt.Some? ==> r.startedAt.value <= now)
    && (r.finishedAt.Some? ==> r.finishedAt.value <= now)
    && (r.status in {Succeeded, Failed, Cancelled, TimedOut} ==> r.finishedAt.Some?)
    && (r.startedAt.Some? && r.finishedAt.Some? ==>
          if r.status in {Running, Retrying} then r.finishedAt.value <= r.startedAt.value
          else r.status != Queued ==> r.startedAt.value <= r.finishedAt.value)
  }

  lemma HitKeepsStamped(r: Execution, u: Update, now: Time)
    requires Stamped(r, now) && now <= u.at
    requires r.status == Queued || r.status == Running || r.status == Retrying || r.finishedAt.Some?
    ensures Stamped(Hit(r, u), u.at)
  {
  }

  /** Start and finish stamps never lie in the future, and a landed execution finished no earlier than it
      last started. */
  lemma {:induction false} DurationsAlongHistory(r: Execution, us: seq<Update>, now: Time)
    requires Stamped(r, now) && Timely(us, now)
    ensures Stamped(After(r, us), Last(us, now))
    decreases us
  {
    if us != [] {
      HitKeepsStamped(r, us[0], now);
      DurationsAlongHistory(Hit(r, us[0]), us[1..], us[0].at);
    }
  }

  /** The reported duration is negative. */
  predicate Negative(r: Execution)
  {
    r.startedAt.Some? && r.finishedAt.Some? && r.finishedAt.value < r.startedAt.value
  }

  /** The UPDATE hits and stamps a finish. */
  predicate Finishes(r: Execution, u: Update)
  {
    Matches(r, u)
    && !u.MarkStarted? && !u.MarkCancelRequested? && !u.MarkRequeued? && !u.MarkRequeuedDue?
    && (u.MarkFailed? ==> u.retryAt.None?)
  }

  predicate NeverFinishes(r: Execution, us: seq<Update>)
    decreases us
  {
    us == [] || (!Finishes(r, us[0]) && NeverFinishes(Hit(r, us[0]), us[1..]))
  }

  /** A start that hits while an earlier finish stamp is still there. */
  predicate StartsAfterFinish(r: Execution, u: Update)
  {
    u.MarkStarted? && Matches(r, u) && r.finishedAt.Some? && r.finishedAt.value < u.at
  }

  ghost predicate StartedLate(r: Execution, us: seq<Update>, k: nat)
  {
    k < |us| && StartsAfterFinish(After(r, us[..k]), us[k])
    && NeverFinishes(Hit(After(r, us[..k]), us[k]), us[k + 1..])
  }

  lemma HitTurnsNegativeExactly(r: Execution, u: Update, now: Time)
    requires Stamped(r, now) && now <= u.at
    ensures Negative(Hit(r, u)) <==> (Negative(r) && !Finishes(r, u)) || StartsAfterFinish(r, u)
  {
  }

  lemma StartedLateNext(r: Execution, us: seq<Update>, k: nat)
    requires us != []
    ensures StartedLate(r, us, k + 1) <==> StartedLate(Hit(r, us[0]), us[1..], k)
  {
    if k + 1 < |us| {
      assert us[..k + 1][1..] == us[1..][..k] && us[k + 2..] == us[1..][k + 1..];
    }
  }

  /** Exactly when a duration is negative: some start hit while an earlier finish stamp was present, and no
      finish has been stamped since. */
  lemma {:induction false} NegativeExactly(r: Execution, us: seq<Update>, now: Time)
    requires Stamped(r, now) && Timely(us, now)
    ensures Negative(After(r, us)) <==>
      (Negative(r) && NeverFinishes(r, us)) || exists k: nat :: StartedLate(r, us, k)
    decreases us
  {
    if us != [] {
      var r', rest := Hit(r, us[0]), us[1..];
      HitKeepsStamped(r, us[0], now);
      HitTurnsNegativeExactly(r, us[0], now);
      NegativeExactly(r', rest, us[0].at);
      assert us[..0] == [];
      assert StartedLate(r, us, 0) <==> StartsAfterFinish(r, us[0]) && NeverFinishes(r', rest);
      if k: nat :| StartedLate(r', rest, k) { StartedLateNext(r, us, k); }
      if k: nat :| StartedLate(r, us, k) && k > 0 { StartedLateNext(r, us, k - 1); }
    }
  }

  /** With no two stamps alike, what an execution's row says about the order of its stamps. */
  predicate Ordered(r: Execution, now: Time)
  {
    && (r.startedAt.Some? ==> r.startedAt.value <= now)
    && (r.finishedAt.Some? ==> r.finishedAt.value <= now)
    && (r.status in {Running, Retrying} ==> r.startedAt.Some?)
    && (r.startedAt.Some? && r.finishedAt.Some? && r.status != Queued ==>
          if r.status in {Running, Retrying} then r.finishedAt.value < r.startedAt.value
          else r.startedAt.value < r.finishedAt.value)
  }

  predicate StrictlyTimely(us: seq<Update>, from: Time)
  {
    us == [] || (from < us[0].at && StrictlyTimely(us[1..], us[0].at))
  }

  /** The sign of a duration can be read off the row, unless it is queued: negative exactly on a running or
      retrying execution that already carries a finish stamp. */
  lemma {:induction false} DurationSignExactly(r: Execution, us: seq<Update>, now: Time)
    requires Ordered(r, now) && StrictlyTimely(us, now)
    ensures var r' := After(r, us);
      Ordered(r', Last(us, now))
      && (r'.status != Queued ==> (Negative(r') <==> r'.status in {Running, Retrying} && r'.finishedAt.Some?))
    decreases us
  {
    if us != [] {
      HitKeepsOrdered(r, us[0], now);
      DurationSignExactly(Hit(r, us[0]), us[1..], us[0].at);
    }
  }

  lemma HitKeepsOrdered(r: Execution, u: Update, now: Time)
    requires Ordered(r, now) && now < u.at
    ensures Ordered(Hit(r, u), u.at)
  {
  }

  /** Such a history: started, timed out, manually requeued, started again. */
  lemma NegativeDuration() returns (r: Execution)
    ensures exists us :: StrictlyTimely(us, 0) && r == After(NewExecution(0, 3, 60, true), us)
    ensures Negative(r) && r.status == Running
  {
    var r0 := NewExecution(0, 3, 60, true);
    var us := [MarkStarted(1), MarkTimedOut("execution timed out", 2), MarkRequeued(3), MarkStarted(4)];
    assert us[1..] == [MarkTimedOut("execution timed out", 2), MarkRequeued(3), MarkStarted(4)];
    assert us[1..][1..] == [MarkRequeued(3), MarkStarted(4)];
    assert us[1..][1..][1..] == [MarkStarted(4)];
    r := After(r0, us);
    assert StrictlyTimely(us, 0);
  }

  // ---- The repository and the services ----------------------------------------------------

  function RetryDelay(r: Execution): nat
    requires r.attempts > 0
  {
    if r.exponential then r.retryDelay * Pow2(r.attempts - 1) else r.retryDelay
  }

  class WorkflowExecutionRepository {
    var rows: map<ExecutionId, Execution>

    constructor ()
      ensures rows == map[]
    {
      rows := map[];
    }

    /** Any of the guarded UPDATEs, addressed to (organization, id). */
    method Execute(org: OrgId, id: ExecutionId, u: Update) returns (updated: Option<Execution>)
      modifies this
      ensures updated == if id in old(rows) && old(rows)[id].org == org then Write(old(rows)[id], u) else None
      ensures rows == if updated.Some? then old(rows)[id := updated.value] else old(rows)
    {
      if id !in rows || rows[id].org != org { return None; }
      var r := rows[id];
      var unflagged := r.cancelRequestedAt.None?;
      match u {
        case MarkStarted(at) =>
          if r.status != Queued || !unflagged { return None; }
          r := r.(status := Running, attempts := r.attempts + 1, startedAt := Some(at));
        case MarkSucceeded(output, at) =>
          if r.status != Running || !unflagged { return None; }
          r := r.(status := Succeeded, output := Some(output), finishedAt := Some(at));
        case MarkFailed(error, retryAt, at) =>
          if r.status != Running || !unflagged { return None; }
          r := r.(status := if retryAt.Some? then Retrying else Failed, error := Some(error), nextRetryAt := retryAt);
          if retryAt.None? { r := r.(finishedAt := Some(at)); }
        case MarkFailedIfQueued(error, at) =>
          if r.status != Queued { return None; }
          r := r.(status := Failed, error := Some(error), nextRetryAt := None, finishedAt := Some(at));
        case MarkCancelledAfterRun(at) =>
          if r.status != Running || unflagged { return None; }
          r := r.(status := Cancelled, finishedAt := Some(at));
        case MarkCancelledIfPending(user, at) =>
          if !(r.status in {Queued, Retrying}) || !unflagged { return None; }
          r := r.(status := Cancelled, cancelRequestedAt := Some(at), cancelledBy := user, finishedAt := Some(at));
        case MarkCancelRequested(user, at) =>
          if r.status != Running || !unflagged { return None; }
          r := r.(cancelRequestedAt := Some(at), cancelledBy := user);
        case MarkTimedOut(error, at) =>
          if r.status != Running || !unflagged { return None; }
          r := r.(status := TimedOut, error := Some(error), finishedAt := Some(at));
        case MarkRequeued(_) =>
          if !(r.status in {Failed, Cancelled, TimedOut}) { return None; }
          r := r.(status := Queued, nextRetryAt := None, cancelRequestedAt := None, cancelledBy := None);
        case MarkRequeuedDue(dueBefore, _) =>
          if r.status != Retrying || r.nextRetryAt.None? || r.nextRetryAt.value > dueBefore { return None; }
          r := r.(status := Queued, nextRetryAt := None);
      }
      rows := rows[id := r];
      updated := Some(r);
    }

    /** Other sessions commit these UPDATEs before the caller's next statement. */
    method Interfere(id: ExecutionId, others: seq<Update>)
      requires id in rows
      modifies this
      ensures rows == old(rows)[id := After(old(rows)[id], others)]
      ensures rows[id].org == old(rows)[id].org
    {
      for i := 0 to |others|
        invariant rows.Keys == old(rows).Keys && rows[id].org == old(rows)[id].org
        invariant forall j :: j in rows && j != id ==> rows[j] == old(rows)[j]
        invariant After(rows[id], others[i..]) == After(old(rows)[id], others)
      {
        var _ := Execute(rows[id].org, id, others[i]);
      }
    }
  }

  datatype Ending = Completed(output: string) | Failing(error: string, scheduleRetry: bool) | TimingOut

  /** Where an ending takes a running, unflagged execution that was read as `read`. */
  function Verdict(read: Execution, ending: Ending, now: Time): Update
  {
    match ending
    case Completed(output) => MarkSucceeded(output, now)
    case Failing(error, scheduleRetry) =>
      MarkFailed(error, if scheduleRetry && 0 < read.attempts < read.maxAttempts then Some(now + RetryDelay(read))
                        else None, now)
    case TimingOut => MarkTimedOut("execution timed out", now)
  }

  /** The delay before a retry: the configured one after the first attempt; after each further one twice as long, or
      just as long. */
  lemma DelayDoubles(r: Execution)
    requires r.attempts > 0
    ensures r.attempts == 1 ==> RetryDelay(r) == r.retryDelay
    ensures r.attempts > 1 ==>
      RetryDelay(r) == (if r.exponential then 2 else 1) * RetryDelay(r.(attempts := r.attempts - 1))
  {
    if r.attempts > 1 && r.exponential {
      DoublePower(r.retryDelay, r.attempts - 1);
    }
  }

  lemma DoublePower(delay: nat, n: nat)
    requires n > 0
    ensures delay * Pow2(n) == 2 * (delay * Pow2(n - 1))
  {
  }

  /** What an ending makes of a running execution, read as `read`: success keeps the output; a failure is retried
      exactly if it may be and an attempt is left, after the delay; a timeout is final. */
  predicate Ends(read: Execution, r: Execution, ending: Ending, now: Time, r': Execution)
    requires read.attempts > 0
  {
    && (r'.status == Succeeded <==> ending.Completed?)
    && (r'.status == TimedOut <==> ending.TimingOut?)
    && (r'.status == Retrying <==> ending.Failing? && ending.scheduleRetry && read.attempts < read.maxAttempts)
    && (r'.status == Failed <==> ending.Failing? && !(ending.scheduleRetry && read.attempts < read.maxAttempts))
    && (ending.Completed? ==> r'.output == Some(ending.output) && r'.error == r.error)
    && (ending.Failing? ==> r'.error == Some(ending.error) && r'.output == r.output)
    && (ending.TimingOut? ==> r'.error == Some("execution timed out") && r'.output == r.output)
    && (r'.status == Retrying ==> r'.nextRetryAt == Some(now + RetryDelay(read)))
    && (r'.status != Retrying ==> r'.finishedAt == Some(now))
  }

  lemma VerdictEnds(read: Execution, r: Execution, ending: Ending, now: Time)
    requires r.status == Running && r.cancelRequestedAt.None? && read.attempts > 0
    ensures Write(r, Verdict(read, ending, now)).Some?
    ensures Ends(read, r, ending, now, Write(r, Verdict(read, ending, now)).value)
  {
  }

  /** Retries are scheduled only while an attempt is left, and nobody requeues by hand. */
  predicate Frugal(r: Execution, us: seq<Update>)
    decreases us
  {
    us == []
    || (!us[0].MarkRequeued? && (us[0].MarkFailed? && us[0].retryAt.Some? ==> r.attempts < r.maxAttempts)
        && Frugal(Hit(r, us[0]), us[1..]))
  }

  /** Then no execution is started more often than it may be attempted. */
  lemma {:induction false} AttemptsBounded(r: Execution, us: seq<Update>)
    requires r.attempts <= r.maxAttempts && (r.status == Queued || r.status == Retrying ==> r.attempts < r.maxAttempts)
    requires Frugal(r, us)
    ensures After(r, us).attempts <= After(r, us).maxAttempts == r.maxAttempts
    decreases us
  {
    if us != [] { AttemptsBounded(Hit(r, us[0]), us[1..]); }
  }

  class WorkflowExecutionService {
    const repo: WorkflowExecutionRepository

    constructor (repo: WorkflowExecutionRepository)
      ensures this.repo == repo
    {
      this.repo := repo;
    }

    /** complete, fail and timeout. Whatever lands between the read and the UPDATEs, a call that finds the
        execution still running lands it: CANCELLED if it is flagged by then, else as the ending says. */
    method Land(org: OrgId, id: ExecutionId, ending: Ending, between: seq<Update>, now: Time)
      returns (updated: Option<Execution>)
      requires id in repo.rows && repo.rows[id].org == org && repo.rows[id].attempts > 0 && Coherent(repo.rows[id])
      modifies repo
      ensures var r := old(repo.rows)[id];
              var m := if r.status == Running then After(r, between) else r;
              && (updated.None? ==> repo.rows == old(repo.rows)[id := m])
              && (updated.Some? ==> repo.rows == old(repo.rows)[id := updated.value])
              && (updated.Some? ==> r.status == Running && m.status == Running)
              && (updated.Some? ==> updated.value == if m.cancelRequestedAt.Some?
                                                     then m.(status := Cancelled, finishedAt := Some(now))
                                                     else Assigned(m, Verdict(r, ending, now)))
              && (updated.Some? && m.cancelRequestedAt.None? ==> Ends(r, m, ending, now, updated.value))
              && (updated.None? && r.status == Running && m.status == Running ==>
                    ending.Failing? && r.cancelRequestedAt.Some? && m.cancelRequestedAt.None?)
    {
      var read := repo.rows[id];
      if read.status != Running { return None; }
      repo.Interfere(id, between);
      ghost var m := repo.rows[id];
      if m.status == Running && m.cancelRequestedAt.None? { VerdictEnds(read, m, ending, now); }
      if ending.Failing? && read.cancelRequestedAt.Some? {
        updated := repo.Execute(org, id, MarkCancelledAfterRun(now));
        return;
      }
      match ending {
        case Completed(output) => updated := repo.Execute(org, id, MarkSucceeded(output, now));
        case Failing(error, scheduleRetry) =>
          var retryAt: Option<Time> := None;
          if scheduleRetry && read.attempts < read.maxAttempts { retryAt := Some(now + RetryDelay(read)); }
          updated := repo.Execute(org, id, MarkFailed(error, retryAt, now));
        case TimingOut => updated := repo.Execute(org, id, MarkTimedOut("execution timed out", now));
      }
      if updated.None? {
        updated := repo.Execute(org, id, MarkCancelledAfterRun(now));
      }
    }
  }
}
