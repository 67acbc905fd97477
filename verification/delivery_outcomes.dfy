/** What holds of every delivery over whole runs: permanence, attempt and waiting budgets,
    the fate of cancel requests, and that no row is ever stranded. */
module DeliveryOutcomes {
  import opened Base
  import opened DeliveryRows
  import opened InAppInbox
  import opened DeliveryProtocol

  // ---- Permanence -------------------------------------------------------------------------

  lemma StepKeepsDelivered(cfg: Config, s: State, e: Event, s': State, id: DeliveryId)
    requires Step(cfg, s, e, s') && id in s.rows && s.rows[id].status == Delivered
    ensures id in s'.rows && s'.rows[id] == s.rows[id]
  {
  }

  /** A DELIVERED row is never written again, by anyone, in any run. */
  lemma {:induction false} DeliveredForever(cfg: Config, a: State, b: State, n: nat, id: DeliveryId)
    requires Reaches(cfg, a, b, n) && id in a.rows && a.rows[id].status == Delivered
    ensures id in b.rows && b.rows[id] == a.rows[id]
    decreases n
  {
    if n > 0 {
      var m, e :| Reaches(cfg, a, m, n - 1) && Step(cfg, m, e, b);
      DeliveredForever(cfg, a, m, n - 1, id);
      StepKeepsDelivered(cfg, m, e, b, id);
    }
  }

  // ---- Budgets ----------------------------------------------------------------------------

  /** Total backoff after the first n attempts. */
  function Waits(base: nat, n: nat): nat
  {
    if n == 0 then 0 else Waits(base, n - 1) + Backoff(base, n)
  }

  lemma {:induction false} WaitsMonotone(base: nat, m: nat, n: nat)
    requires m <= n
    ensures Waits(base, m) <= Waits(base, n)
    decreases n
  {
    if m < n { WaitsMonotone(base, m, n - 1); }
  }

  /** base * 2^n, doubling step by step. */
  function Doubled(base: nat, n: nat): nat { if n == 0 then base else 2 * Doubled(base, n - 1) }

  lemma TwiceProduct(a: nat, b: nat)
    ensures a * (2 * b) == 2 * (a * b)
  {
  }

  lemma {:induction false} DoubledIsProduct(base: nat, n: nat)
    ensures Doubled(base, n) == base * Pow2(n)
    decreases n
  {
    if n > 0 {
      DoubledIsProduct(base, n - 1);
      TwiceProduct(base, Pow2(n - 1));
    }
  }

  lemma {:induction false} BackoffDoubles(base: nat, n: nat)
    requires n > 0
    ensures Backoff(base, n) == Min(Doubled(base, n - 1), MAX_DELAY)
  {
    DoubledIsProduct(base, n - 1);
  }

  lemma {:induction false} WaitsDoubled(base: nat, n: nat)
    requires base > 0
    ensures Doubled(base, n) > 0 && Waits(base, n) <= Doubled(base, n) - base
    ensures Waits(base, n) == Doubled(base, n) - base <==> n == 0 || Doubled(base, n - 1) <= MAX_DELAY
    decreases n
  {
    if n > 0 {
      WaitsDoubled(base, n - 1);
      BackoffDoubles(base, n);
      if n > 1 { WaitsDoubled(base, n - 2); }
    }
  }

  /** The geometric bound on total backoff, met exactly while the one-hour cap never bites. */
  lemma {:induction false} WaitsBound(base: nat, n: nat)
    requires base > 0
    ensures Waits(base, n) <= base * (Pow2(n) - 1)
    ensures Waits(base, n) == base * (Pow2(n) - 1) <==> n == 0 || base * Pow2(n - 1) <= MAX_DELAY
  {
    WaitsDoubled(base, n);
    DoubledIsProduct(base, n);
    if n > 0 { DoubledIsProduct(base, n - 1); }
    Distribute(base, Pow2(n));
  }

  lemma Distribute(base: nat, p: nat)
    ensures base * (p - 1) == base * p - base
  {
  }

  function Min(a: int, b: int): int { if a < b then a else b }

  /** attempts counts the claims since the last manual retry, is bounded by the budget plus one per
      recovery, and the time spent waiting is bounded by the attempts that could be retried. */
  predicate InBudget(base: nat, r: Row, t: Tally)
  {
    && r.maxAttempts > 0 && r.attempts == t.claims
    && r.attempts <= r.maxAttempts + t.recoveries
    && (r.status == Queued || r.status == Retrying ==> r.attempts < r.maxAttempts + t.recoveries)
    && (r.status == Processing ==>
          r.attempts > 0 && t.waited <= Waits(base, Min(r.attempts - 1, r.maxAttempts - 1)))
    && t.waited <= Waits(base, Min(r.attempts, r.maxAttempts - 1))
  }

  ghost predicate Budgeted(cfg: Config, s: State)
  {
    forall id :: id in s.rows && id in s.tallies ==> InBudget(cfg.retryBase, s.rows[id], s.tallies[id])
  }

  /** An UPDATE keeps the budget, if a retry is scheduled only below max_attempts and after Backoff(attempts). */
  lemma WriteKeepsBudget(base: nat, r: Row, t: Tally, u: Update, clock: Time)
    requires RowOk(r, clock) && InBudget(base, r, t) && Write(r, u, clock).Updated?
    requires u.ScheduleRetry? ==>
               0 < r.attempts < r.maxAttempts && u.nextAt == clock + Backoff(base, r.attempts)
    ensures InBudget(base, Write(r, u, clock).row, Tallied(t, u, clock))
  {
    var r' := Write(r, u, clock).row;
    if r.attempts > 0 {
      WaitsMonotone(base, Min(r.attempts - 1, r.maxAttempts - 1), Min(r.attempts, r.maxAttempts - 1));
    }
    WaitsMonotone(base, Min(r.attempts, r.maxAttempts - 1), Min(r.attempts + 1, r.maxAttempts - 1));
  }

  /** A retry is scheduled only by a holder, below max_attempts and after the backoff. */
  lemma RetryIsWithinBudget(cfg: Config, s: State, e: Event)
    requires Enabled(cfg, s, e) && LiveOwn(cfg, s)
    requires Issued(cfg, s, e).Some? && Issued(cfg, s, e).value.1.ScheduleRetry?
    ensures var (id, u) := Issued(cfg, s, e).value;
      id in s.rows && 0 < s.rows[id].attempts < s.rows[id].maxAttempts
      && u.nextAt == s.clock + Backoff(cfg.retryBase, s.rows[id].attempts)
  {
    assert e.Landed? && Owns(s, e.w);
  }

  lemma IssueKeepsBudget(cfg: Config, s: State, e: Event)
    requires Enabled(cfg, s, e) && RowsOk(s) && LiveOwn(cfg, s) && Budgeted(cfg, s) && Issued(cfg, s, e).Some?
    ensures var (id, u) := Issued(cfg, s, e).value; Budgeted(cfg, Issue(s, id, u))
  {
    var (id, u) := Issued(cfg, s, e).value;
    if u.ScheduleRetry? { RetryIsWithinBudget(cfg, s, e); }
    if id in s.rows && id in s.tallies && Write(s.rows[id], u, s.clock).Updated? {
      WriteKeepsBudget(cfg.retryBase, s.rows[id], s.tallies[id], u, s.clock);
    }
  }

  lemma StepKeepsBudget(cfg: Config, s: State, e: Event, s': State)
    requires Step(cfg, s, e, s') && RowsOk(s) && LiveOwn(cfg, s) && Budgeted(cfg, s)
    ensures Budgeted(cfg, s')
  {
    if Issued(cfg, s, e).Some? {
      var (id, u) := Issued(cfg, s, e).value;
      IssueKeepsBudget(cfg, s, e);
      assert s'.rows == Issue(s, id, u).rows && s'.tallies == Issue(s, id, u).tallies;
    }
  }

  lemma {:induction false} BudgetAlongRuns(cfg: Config, a: State, b: State, n: nat)
    requires cfg.recovery >= cfg.hold && Inv(cfg, a) && Budgeted(cfg, a) && Reaches(cfg, a, b, n)
    ensures Budgeted(cfg, b)
    decreases n
  {
    if n > 0 {
      var m, e :| Reaches(cfg, a, m, n - 1) && Step(cfg, m, e, b);
      BudgetAlongRuns(cfg, a, m, n - 1);
      InvAlongRuns(cfg, a, m, n - 1);
      StepKeepsBudget(cfg, m, e, b);
    }
  }

  lemma BudgetReachable(cfg: Config, s: State, id: DeliveryId)
    requires cfg.recovery >= cfg.hold && Reachable(cfg, s) && id in s.rows
    ensures id in s.tallies && InBudget(cfg.retryBase, s.rows[id], s.tallies[id])
  {
    InvReachable(cfg, s);
    var clock :| Leads(cfg, Init(clock), s);
    var n: nat :| Reaches(cfg, Init(clock), s, n);
    BudgetAlongRuns(cfg, Init(clock), s, n);
  }

  /** Every reachable row keeps its attempt budget, and the backoff it has waited since its last manual
      retry stays within base * (2^(max_attempts-1) - 1), whatever recoveries and cancels happened. */
  lemma AttemptsAndWaitingBounded(cfg: Config, s: State, id: DeliveryId)
    requires cfg.recovery >= cfg.hold && cfg.retryBase > 0 && Reachable(cfg, s) && id in s.rows
    ensures id in s.tallies && s.rows[id].maxAttempts > 0
    ensures var r, t := s.rows[id], s.tallies[id];
            && r.attempts == t.claims <= r.maxAttempts + t.recoveries
            && (r.status == Queued || r.status == Retrying ==> r.attempts < r.maxAttempts + t.recoveries)
            && t.waited <= cfg.retryBase * (Pow2(r.maxAttempts - 1) - 1)
  {
    BudgetReachable(cfg, s, id);
    var r := s.rows[id];
    WaitsMonotone(cfg.retryBase, Min(r.attempts, r.maxAttempts - 1), r.maxAttempts - 1);
    WaitsBound(cfg.retryBase, r.maxAttempts - 1);
  }

  // ---- Cancel requests --------------------------------------------------------------------

  /** Which UPDATE takes a flag away, and where it leaves the row. */
  lemma FlagTakenBy(r: Row, u: Update, clock: Time)
    requires RowOk(r, clock) && r.cancelRequestedAt.Some? && Write(r, u, clock).Updated?
    ensures var r' := Write(r, u, clock).row;
      || r'.cancelRequestedAt == r.cancelRequestedAt || r'.status == Delivered || r'.status == Failed
      || (r.status == Cancelled && r'.status == Queued && u.MarkRequeued?)
  {
    CancelRequestIsSticky(r, u, clock);
  }

  /** A cancel request leaves a row only with a delivery, a failure or a manual retry. */
  lemma FlagLostOnlyBy(cfg: Config, s: State, e: Event, s': State, id: DeliveryId)
    requires Step(cfg, s, e, s') && RowsOk(s) && id in s.rows && s.rows[id].cancelRequestedAt.Some?
    ensures id in s'.rows
    ensures || s'.rows[id].cancelRequestedAt == s.rows[id].cancelRequestedAt
            || s'.rows[id].status == Delivered || s'.rows[id].status == Failed
            || (s.rows[id].status == Cancelled && s'.rows[id].status == Queued && e.UserUpdate? && e.u.MarkRequeued?)
  {
    RowMovedByIssue(cfg, s, e, id);
    var issued := Issued(cfg, s, e);
    if issued.Some? && issued.value.0 == id && Write(s.rows[id], issued.value.1, s.clock).Updated? {
      FlagTakenBy(s.rows[id], issued.value.1, s.clock);
    }
  }

  /** Where a transient failure lands a row that its holder still owns. */
  lemma TransientLanding(
    cfg: Config, r: Row, claimed: Row, error: string, note: nat, now: Time, wall: Time)
    requires HasActor(r) && r.status == Processing && claimed.attempts > 0
    requires claimed.cancelRequestedAt.Some? ==> r.cancelRequestedAt == claimed.cancelRequestedAt
    ensures var o := Write(r, Landing(cfg, claimed, Transient(error), note, now), wall);
      && o.Updated?
      && (o.row.status == Cancelled <==> claimed.cancelRequestedAt.Some?)
      && (o.row.status == Retrying <==> claimed.cancelRequestedAt.None? && claimed.attempts < claimed.maxAttempts)
      && (o.row.status == Cancelled || o.row.status == Retrying || o.row.status == Failed)
  {
  }

  /** A delivery and a permanent failure land as such, flagged or not. */
  lemma FinalLanding(
    cfg: Config, r: Row, claimed: Row, error: string, note: nat, now: Time, wall: Time)
    requires RowOk(r, wall) && r.status == Processing && claimed.attempts > 0
    ensures var o := Write(r, Landing(cfg, claimed, Sent, note, now), wall);
      o.Updated? && o.row.status == Delivered && o.row.notification == Some(note) && o.row.deliveredAt == Some(now)
    ensures var o := Write(r, Landing(cfg, claimed, Permanent(error), note, now), wall);
      o.Updated? && o.row.status == Failed && o.row.lastError == Some(error) && o.row.failedAt == Some(now)
  {
  }

  /** A transient failure lands CANCELLED exactly when the row was already flagged as it was claimed;
      a request made during the attempt is not looked at, and the row is retried or failed. */
  lemma CancelHonouredExactly(cfg: Config, s: State, w: WorkerId, error: string)
    requires cfg.recovery >= cfg.hold && Reachable(cfg, s) && Enabled(cfg, s, Landed(w, Transient(error)))
    ensures s.attempts[w].id in After(cfg, s, Landed(w, Transient(error))).rows
    ensures var a, s' := s.attempts[w], After(cfg, s, Landed(w, Transient(error)));
            var to := s'.rows[a.id].status;
            && (to == Cancelled <==> a.claimed.cancelRequestedAt.Some?)
            && (to == Retrying <==> a.claimed.cancelRequestedAt.None? && a.claimed.attempts < a.claimed.maxAttempts)
            && (to == Cancelled || to == Retrying || to == Failed)
  {
    InvReachable(cfg, s);
    var a := s.attempts[w];
    assert Owns(s, w) && RowOk(s.rows[a.id], s.clock);
    LandingStep(cfg, s, w, Transient(error));
    TransientLanding(cfg, s.rows[a.id], a.claimed, error, |s.inbox|, s.clock, s.clock);
  }

  lemma FlagOfClaimed(r: Row)
    requires FirstClaimed(r)
    ensures var o := Write(r, MarkCancelRequested(0, Some(7)), 0);
      o.Updated? && o.row.status == Processing && o.row.cancelRequestedAt.Some? && HasActor(o.row)
  {
  }

  lemma FlaggedInFlight(cfg: Config) returns (s: State)
    ensures Leads(cfg, Init(0), s) && Live(cfg, s, 0) && s.attempts[0].id == 0 && s.attempts[0].staged.None?
    ensures RowsOk(s) && 0 in s.rows && s.rows[0].status == Processing && s.rows[0].cancelRequestedAt.Some?
    ensures FirstClaimed(s.attempts[0].claimed)
  {
    var s2, r := FirstClaim(cfg, false);
    FlagOfClaimed(r);
    s := Move(cfg, Init(0), s2, UserUpdate(0, MarkCancelRequested(0, Some(7))));
  }

  /** So a user can flag a delivery in flight and see it retried all the same. */
  lemma FlagInFlightIsNotHonoured(cfg: Config) returns (s: State)
    ensures Reachable(cfg, s) && 0 in s.rows
    ensures s.rows[0].cancelRequestedAt.Some? && s.rows[0].status == Retrying
  {
    var s3 := FlaggedInFlight(cfg);
    assert RowOk(s3.rows[0], s3.clock);
    TransientLanding(cfg, s3.rows[0], s3.attempts[0].claimed, "down", |s3.inbox|, s3.clock, s3.clock);
    s := LandFrom(cfg, Init(0), s3, 0, Transient("down"));
  }

  // ---- Nobody is stranded -----------------------------------------------------------------

  lemma TerminalToQueue(cfg: Config, s: State, id: DeliveryId) returns (b: State)
    requires RowsOk(s) && id in s.rows && (s.rows[id].status == Failed || s.rows[id].status == Cancelled)
    ensures Leads(cfg, s, b) && RowsOk(b) && id in b.rows && b.rows[id].status == Queued
  {
    Here(cfg, s);
    b := Move(cfg, s, s, UserUpdate(id, MarkRequeued(s.clock)));
  }

  lemma RetryingToQueue(cfg: Config, s: State, id: DeliveryId) returns (b: State)
    requires RowsOk(s) && id in s.rows && s.rows[id].status == Retrying
    ensures Leads(cfg, s, b) && RowsOk(b) && id in b.rows && b.rows[id].status == Queued
  {
    Here(cfg, s);
    b := Wait(cfg, s, s, s.rows[id].nextAttemptAt.value);
    b := Move(cfg, s, b, Promoted(id, b.clock));
  }

  lemma ProcessingToQueue(cfg: Config, s: State, id: DeliveryId) returns (b: State)
    requires RowsOk(s) && id in s.rows && s.rows[id].status == Processing
    ensures Leads(cfg, s, b) && RowsOk(b) && id in b.rows && b.rows[id].status == Queued
  {
    Here(cfg, s);
    b := Wait(cfg, s, s, s.clock + cfg.recovery + 1);
    b := Move(cfg, s, b, Recovered(id, b.clock - cfg.recovery));
  }

  /** Any row but a DELIVERED one can get back into the queue. */
  lemma BackToQueue(cfg: Config, s: State, id: DeliveryId) returns (b: State)
    requires RowsOk(s) && id in s.rows && s.rows[id].status != Delivered
    ensures Leads(cfg, s, b) && RowsOk(b) && id in b.rows && b.rows[id].status == Queued
  {
    match s.rows[id].status
    case Queued =>
      Here(cfg, s);
      b := s;
    case Processing => b := ProcessingToQueue(cfg, s, id);
    case Retrying => b := RetryingToQueue(cfg, s, id);
    case _ => b := TerminalToQueue(cfg, s, id);
  }

  /** A due row can be claimed, sent and landed by any idle worker, on the spot. */
  lemma Send(cfg: Config, a: State, b: State, w: WorkerId, id: DeliveryId) returns (c: State)
    requires Leads(cfg, a, b) && RowsOk(b) && w !in b.attempts
    requires id in b.rows && b.rows[id].status == Queued && Due(b.rows[id], b.clock)
    ensures Leads(cfg, a, c) && id in c.rows && c.rows[id].status == Delivered
  {
    assert RowOk(b.rows[id], b.clock);
    var ready := ReachLanding(cfg, a, b, w, id, b.clock, true);
    c := LandFrom(cfg, a, ready, w, Sent);
  }

  lemma {:induction false} FreshWorker(busy: set<WorkerId>) returns (w: WorkerId)
    ensures forall v :: v in busy ==> v < w
    decreases |busy|
  {
    w := 0;
    if busy != {} {
      var v :| v in busy;
      var w' := FreshWorker(busy - {v});
      w := if w' <= v then v + 1 else w';
      assert forall u :: u in busy ==> u == v || u in busy - {v};
    }
  }

  /** Whatever has happened, every delivery can still be delivered. */
  lemma NeverStranded(cfg: Config, s: State, id: DeliveryId) returns (b: State)
    requires Reachable(cfg, s) && id in s.rows
    ensures Leads(cfg, s, b) && id in b.rows && b.rows[id].status == Delivered
  {
    var clock :| Leads(cfg, Init(clock), s);
    var n: nat :| Reaches(cfg, Init(clock), s, n);
    RowsOkAlongRuns(cfg, Init(clock), s, n);
    Here(cfg, s);
    b := s;
    if s.rows[id].status != Delivered {
      b := BackToQueue(cfg, s, id);
      var r := b.rows[id];
      var w := FreshWorker(b.attempts.Keys);
      b := Wait(cfg, s, b, r.scheduledFor);
      if r.nextAttemptAt.Some? { b := Wait(cfg, s, b, r.nextAttemptAt.value); }
      b := Send(cfg, s, b, w, id);
    }
  }
}
