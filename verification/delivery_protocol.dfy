/** The delivery outbox as a system of racing actors. Every guarded UPDATE is one atomic step;
    workers claim rows, call the provider and land the attempt; users cancel and retry; sweeps
    promote and recover. The row carries no attempt token, so everything rests on timing. */
module DeliveryProtocol {
  import opened Base
  import opened DeliveryRows
  import opened InAppInbox

  type WorkerId = nat

  /** `hold`: the longest time from an attempt's claim stamp to its last statement (provider timeout
      plus landing). `recovery`: the staleness window of the recovery sweep. */
  datatype Config = Config(hold: nat, recovery: nat, retryBase: nat)

  /** A worker's local state: the row its claim returned, and the inbox row it has flushed. */
  datatype Attempt = Attempt(id: DeliveryId, claimed: Row, staged: Option<Notification>)

  /** What happened to a row since it was enqueued or last manually retried. */
  datatype Tally = Tally(claims: nat, recoveries: nat, waited: nat)

  datatype State = State(
    clock: Time, rows: map<DeliveryId, Row>, inbox: seq<Notification>,
    attempts: map<WorkerId, Attempt>, tallies: map<DeliveryId, Tally>)

  datatype Result = Sent | Permanent(error: string) | Transient(error: string)

  datatype Event =
    | Tick(to: Time)
    | Enqueue(id: DeliveryId, org: OrgId, message: Message, maxAttempts: nat, scheduledFor: Option<Time>)
    | Claimed(w: WorkerId, id: DeliveryId, stamp: Time)
    | Flushed(w: WorkerId)
    | Landed(w: WorkerId, result: Result)
    | Crashed(w: WorkerId)
    | UserUpdate(id: DeliveryId, u: Update)
    | Promoted(id: DeliveryId, now: Time)
    | Recovered(id: DeliveryId, before: Time)

  function Init(clock: Time): State { State(clock, map[], [], map[], map[]) }

  const MAX_DELAY: nat := 3600

  /** base * 2^(attempt-1), capped at one hour. */
  function Backoff(base: nat, attempt: nat): nat
    requires attempt > 0
  {
    var delay := base * Pow2(attempt - 1);
    if delay < MAX_DELAY then delay else MAX_DELAY
  }

  /** Which UPDATE ends an attempt. Decided from the row the claim returned, not from the row as it is now. */
  function Landing(cfg: Config, claimed: Row, result: Result, note: nat, now: Time): Update
    requires claimed.attempts > 0
  {
    match result
    case Sent => MarkDelivered(note, now)
    case Permanent(error) => MarkFailed(error, now)
    case Transient(error) =>
      if claimed.cancelRequestedAt.Some? then MarkCancelledAfterSend(error, now)
      else if claimed.attempts >= claimed.maxAttempts then MarkFailed(error, now)
      else ScheduleRetry(now + Backoff(cfg.retryBase, claimed.attempts), error)
  }

  predicate AttemptOk(a: Attempt)
  {
    && a.claimed.attempts > 0 && a.claimed.attemptStartedAt.Some?
    && (a.staged.Some? ==> a.staged.value == Render(a.id, a.claimed))
  }

  /** A worker may act on its claim only inside the hold bound. */
  predicate Live(cfg: Config, s: State, w: WorkerId)
  {
    && w in s.attempts && AttemptOk(s.attempts[w])
    && s.clock <= s.attempts[w].claimed.attemptStartedAt.value + cfg.hold
  }

  predicate Enabled(cfg: Config, s: State, e: Event)
  {
    match e
    case Tick(to) => s.clock <= to
    case Enqueue(id, _, _, maxAttempts, _) => id !in s.rows && maxAttempts > 0
    case Claimed(w, id, stamp) =>
      w !in s.attempts && id in s.rows && stamp <= s.clock && Write(s.rows[id], Claim(stamp), s.clock).Updated?
    case Flushed(w) => Live(cfg, s, w) && s.attempts[w].staged.None?
    case Landed(w, result) => Live(cfg, s, w) && (result.Sent? <==> s.attempts[w].staged.Some?)
    case Crashed(w) => w in s.attempts
    case UserUpdate(id, u) => id in s.rows && (u.MarkCancelRequested? || u.MarkCancelled? || u.MarkRequeued?)
    case Promoted(id, now) => id in s.rows && now <= s.clock
    case Recovered(id, before) => id in s.rows && before <= s.clock - cfg.recovery
  }

  /** The single-row UPDATE an event issues, if it issues one. */
  function Issued(cfg: Config, s: State, e: Event): Option<(DeliveryId, Update)>
    requires Enabled(cfg, s, e)
  {
    match e
    case Claimed(_, id, stamp) => Some((id, Claim(stamp)))
    case Landed(w, result) =>
      var a := s.attempts[w];
      Some((a.id, Landing(cfg, a.claimed, result, |s.inbox|, s.clock)))
    case UserUpdate(id, u) => Some((id, u))
    case Promoted(id, now) => Some((id, PromoteDue(now)))
    case Recovered(id, before) => Some((id, RequeueStale(before, s.clock)))
    case _ => None
  }

  function Tallied(t: Tally, u: Update, clock: Time): Tally
  {
    match u
    case Claim(_) => t.(claims := t.claims + 1)
    case RequeueStale(_, _) => t.(recoveries := t.recoveries + 1)
    case ScheduleRetry(nextAt, _) => if clock <= nextAt then t.(waited := t.waited + (nextAt - clock)) else t
    case MarkRequeued(_) => Tally(0, 0, 0)
    case _ => t
  }

  /** A tally counts claims, recoveries and the time retries are put off by, and starts over with a manual retry. */
  lemma TalliedExactly(t: Tally, u: Update, clock: Time)
    ensures var t' := Tallied(t, u, clock);
      if u.MarkRequeued? then t'.claims == t'.recoveries == t'.waited == 0
      else
        && t'.claims == t.claims + (if u.Claim? then 1 else 0)
        && t'.recoveries == t.recoveries + (if u.RequeueStale? then 1 else 0)
        && t'.waited == t.waited + if u.ScheduleRetry? && u.nextAt > clock then u.nextAt - clock else 0
  {
  }

  /** The table after one UPDATE on one row; an id with no row is simply not matched. */
  function Issue(s: State, id: DeliveryId, u: Update): State
  {
    if id !in s.rows || id !in s.tallies then s
    else
      var o := Write(s.rows[id], u, s.clock);
      if o.Updated?
      then s.(rows := s.rows[id := o.row], tallies := s.tallies[id := Tallied(s.tallies[id], u, s.clock)])
      else s
  }

  function After(cfg: Config, s: State, e: Event): State
    requires Enabled(cfg, s, e)
  {
    match e
    case Tick(to) => s.(clock := to)
    case Enqueue(id, org, message, maxAttempts, scheduledFor) =>
      s.(rows := s.rows[id := NewRow(org, message, maxAttempts, scheduledFor, s.clock)],
         tallies := s.tallies[id := Tally(0, 0, 0)])
    case Claimed(w, id, stamp) =>
      var row := Write(s.rows[id], Claim(stamp), s.clock).row;
      Issue(s, id, Claim(stamp)).(attempts := s.attempts[w := Attempt(id, row, None)])
    case Flushed(w) =>
      var a := s.attempts[w];
      s.(attempts := s.attempts[w := a.(staged := Some(Render(a.id, a.claimed)))])
    case Landed(w, result) =>
      // The attempt's transaction commits its flushed inbox row whether or not the UPDATE matched.
      var a := s.attempts[w];
      Issue(s, a.id, Landing(cfg, a.claimed, result, |s.inbox|, s.clock))
        .(attempts := s.attempts - {w}, inbox := if result.Sent? then s.inbox + [a.staged.value] else s.inbox)
    case Crashed(w) => s.(attempts := s.attempts - {w})
    case UserUpdate(id, u) => Issue(s, id, u)
    case Promoted(id, now) => Issue(s, id, PromoteDue(now))
    case Recovered(id, before) => Issue(s, id, RequeueStale(before, s.clock))
  }

  predicate Step(cfg: Config, s: State, e: Event, s': State)
  {
    Enabled(cfg, s, e) && s' == After(cfg, s, e)
  }

  /** `b` follows from `a` in exactly n steps of any interleaving. */
  ghost predicate Reaches(cfg: Config, a: State, b: State, n: nat)
    decreases n
  {
    if n == 0 then a == b
    else exists m: State, e: Event :: Reaches(cfg, a, m, n - 1) && Step(cfg, m, e, b)
  }

  ghost predicate Leads(cfg: Config, a: State, b: State)
  {
    exists n: nat :: Reaches(cfg, a, b, n)
  }

  ghost predicate Reachable(cfg: Config, s: State)
  {
    exists clock: Time :: Leads(cfg, Init(clock), s)
  }

  // ---- Invariants -------------------------------------------------------------------------

  ghost predicate RowsOk(s: State)
  {
    && s.tallies.Keys == s.rows.Keys
    && (forall id :: id in s.rows ==> RowOk(s.rows[id], s.clock))
    && (forall w :: w in s.attempts ==> AttemptOk(s.attempts[w]) && s.attempts[w].id in s.rows)
  }

  /** The row is still exactly as this worker's claim left it, but for a cancel request. */
  predicate Owns(s: State, w: WorkerId)
    requires w in s.attempts
  {
    var a := s.attempts[w];
    && a.id in s.rows
    && var r := s.rows[a.id];
       && r.status == Processing && r.attemptStartedAt == a.claimed.attemptStartedAt
       && r.attempts == a.claimed.attempts && r.maxAttempts == a.claimed.maxAttempts
       && r.org == a.claimed.org && r.message == a.claimed.message
       && (a.claimed.cancelRequestedAt.Some? ==> r.cancelRequestedAt == a.claimed.cancelRequestedAt)
  }

  ghost predicate LiveOwn(cfg: Config, s: State)
  {
    forall w :: Live(cfg, s, w) ==> Owns(s, w)
  }

  /** At most one live holder per delivery. */
  ghost predicate Exclusive(cfg: Config, s: State)
  {
    forall v, w :: Live(cfg, s, v) && Live(cfg, s, w) && v != w ==> s.attempts[v].id != s.attempts[w].id
  }

  /** The inbox holds this delivery's one rendering if its row is DELIVERED, and nothing of it otherwise. */
  predicate Balanced(inbox: seq<Notification>, rows: map<DeliveryId, Row>, id: DeliveryId)
  {
    && Copies(inbox, id) == (if id in rows && rows[id].status == Delivered then [Render(id, rows[id])] else [])
    && (id in rows && rows[id].notification.Some? ==>
          var n := rows[id].notification.value;
          n < |inbox| && inbox[n] == Render(id, rows[id]))
  }

  ghost predicate ExactlyOnce(s: State)
  {
    forall id :: Balanced(s.inbox, s.rows, id)
  }

  /** A row changes only by the UPDATE an event issues. */
  lemma RowMovedByIssue(cfg: Config, s: State, e: Event, id: DeliveryId)
    requires Enabled(cfg, s, e) && id in s.rows
    ensures var issued, s' := Issued(cfg, s, e), After(cfg, s, e);
      id in s'.rows
      && s'.rows[id] == if issued.Some? then Issue(s, issued.value.0, issued.value.1).rows[id] else s.rows[id]
  {
  }

  /** A row that was there stays coherent ... */
  lemma OldRowStaysOk(cfg: Config, s: State, e: Event, id: DeliveryId)
    requires Enabled(cfg, s, e) && RowsOk(s) && id in s.rows
    ensures id in After(cfg, s, e).rows && RowOk(After(cfg, s, e).rows[id], After(cfg, s, e).clock)
  {
    RowMovedByIssue(cfg, s, e, id);
    var issued := Issued(cfg, s, e);
    if issued.Some? && issued.value.0 == id { WriteKeepsRowOk(s.rows[id], issued.value.1, s.clock); }
  }

  /** ... one that was not is as enqueued ... */
  lemma NewRowIsOk(cfg: Config, s: State, e: Event, id: DeliveryId)
    requires Enabled(cfg, s, e) && RowsOk(s) && id !in s.rows && id in After(cfg, s, e).rows
    ensures RowOk(After(cfg, s, e).rows[id], After(cfg, s, e).clock)
  {
  }

  /** ... and an attempt keeps what its claim returned. */
  lemma OldAttemptStaysOk(cfg: Config, s: State, e: Event, w: WorkerId)
    requires Enabled(cfg, s, e) && RowsOk(s) && w in After(cfg, s, e).attempts && w in s.attempts
    ensures var a := After(cfg, s, e).attempts[w]; AttemptOk(a) && a.id in After(cfg, s, e).rows
  {
    RowMovedByIssue(cfg, s, e, s.attempts[w].id);
  }

  lemma NewAttemptIsOk(cfg: Config, s: State, e: Event, w: WorkerId)
    requires Enabled(cfg, s, e) && RowsOk(s) && w in After(cfg, s, e).attempts && w !in s.attempts
    ensures var a := After(cfg, s, e).attempts[w]; AttemptOk(a) && a.id in After(cfg, s, e).rows
  {
  }

  lemma TalliesFollowRows(cfg: Config, s: State, e: Event)
    requires Enabled(cfg, s, e) && RowsOk(s)
    ensures After(cfg, s, e).tallies.Keys == After(cfg, s, e).rows.Keys
  {
  }

  lemma StepKeepsRowsOk(cfg: Config, s: State, e: Event, s': State)
    requires Step(cfg, s, e, s') && RowsOk(s)
    ensures RowsOk(s')
  {
    TalliesFollowRows(cfg, s, e);
    forall id | id in s'.rows ensures RowOk(s'.rows[id], s'.clock) {
      if id in s.rows { OldRowStaysOk(cfg, s, e, id); } else { NewRowIsOk(cfg, s, e, id); }
    }
    forall w | w in s'.attempts ensures AttemptOk(s'.attempts[w]) && s'.attempts[w].id in s'.rows {
      if w in s.attempts { OldAttemptStaysOk(cfg, s, e, w); } else { NewAttemptIsOk(cfg, s, e, w); }
    }
  }

  /** Recovery cannot see a live holder's row as stale: its claim stamp is too young, and its last
      write is no older than its claim stamp. */
  lemma LiveIsNotStale(cfg: Config, s: State, w: WorkerId, before: Time)
    requires RowsOk(s) && Live(cfg, s, w) && Owns(s, w)
    requires cfg.recovery >= cfg.hold && before <= s.clock - cfg.recovery
    ensures !Stale(s.rows[s.attempts[w].id], before)
  {
  }

  /** Of the ten UPDATEs, those that cannot move a PROCESSING row off the claim that holds it. */
  predicate LeavesClaims(r: Row, u: Update)
  {
    || u.Claim? || u.PromoteDue? || u.MarkCancelRequested? || u.MarkCancelled? || u.MarkRequeued?
    || (u.RequeueStale? && !Stale(r, u.before))
  }

  lemma IssueKeepsOwn(s: State, id: DeliveryId, u: Update, w: WorkerId)
    requires w in s.attempts && Owns(s, w)
    requires id != s.attempts[w].id || LeavesClaims(s.rows[id], u)
    ensures Owns(Issue(s, id, u), w)
  {
  }

  /** A worker's claim is only ever dropped by its own landing or crash. */
  lemma ClaimKept(cfg: Config, s: State, e: Event, w: WorkerId)
    requires Enabled(cfg, s, e) && w in s.attempts && !((e.Landed? || e.Crashed?) && e.w == w)
    ensures var s' := After(cfg, s, e);
      w in s'.attempts && s'.attempts[w].id == s.attempts[w].id && s'.attempts[w].claimed == s.attempts[w].claimed
  {
  }

  /** Nobody but the holder issues an UPDATE that could take a live holder's row from it. */
  lemma OthersIssueHarmless(cfg: Config, s: State, e: Event, w: WorkerId)
    requires cfg.recovery >= cfg.hold && Enabled(cfg, s, e) && RowsOk(s) && Exclusive(cfg, s)
    requires Live(cfg, s, w) && Owns(s, w) && Issued(cfg, s, e).Some? && !(e.Landed? && e.w == w)
    ensures var (id, u) := Issued(cfg, s, e).value; id != s.attempts[w].id || LeavesClaims(s.rows[id], u)
  {
    if e.Recovered? && e.id == s.attempts[w].id { LiveIsNotStale(cfg, s, w, e.before); }
  }

  /** Nobody but the holder can move a live holder's row. */
  lemma OthersKeepOwn(cfg: Config, s: State, e: Event, w: WorkerId)
    requires cfg.recovery >= cfg.hold && Enabled(cfg, s, e) && RowsOk(s) && Exclusive(cfg, s)
    requires Live(cfg, s, w) && Owns(s, w)
    requires !((e.Landed? || e.Crashed?) && e.w == w)
    ensures w in After(cfg, s, e).attempts && Owns(After(cfg, s, e), w)
  {
    ClaimKept(cfg, s, e, w);
    RowMovedByIssue(cfg, s, e, s.attempts[w].id);
    var issued := Issued(cfg, s, e);
    if issued.Some? {
      OthersIssueHarmless(cfg, s, e, w);
      IssueKeepsOwn(s, issued.value.0, issued.value.1, w);
    }
  }

  /** Who is live after a step was live before it, on the same row, unless it has just claimed. */
  lemma LiveBefore(cfg: Config, s: State, e: Event, w: WorkerId)
    requires Enabled(cfg, s, e) && Live(cfg, After(cfg, s, e), w) && !(e.Claimed? && e.w == w)
    ensures Live(cfg, s, w) && !((e.Landed? || e.Crashed?) && e.w == w)
    ensures After(cfg, s, e).attempts[w].id == s.attempts[w].id
  {
  }

  /** A claim takes a queued row, so no live holder's. */
  lemma ClaimTakesFreeRow(cfg: Config, s: State, e: Event, w: WorkerId)
    requires Enabled(cfg, s, e) && e.Claimed? && Live(cfg, s, w) && Owns(s, w)
    ensures s.attempts[w].id != e.id
  {
  }

  /** ... and owns it. */
  lemma ClaimOwns(cfg: Config, s: State, e: Event)
    requires Enabled(cfg, s, e) && e.Claimed? && RowsOk(s)
    ensures var s' := After(cfg, s, e); e.w in s'.attempts && s'.attempts[e.w].id == e.id && Owns(s', e.w)
  {
  }

  lemma StepKeepsLiveOwn(cfg: Config, s: State, e: Event, s': State)
    requires cfg.recovery >= cfg.hold
    requires Step(cfg, s, e, s') && RowsOk(s) && LiveOwn(cfg, s) && Exclusive(cfg, s)
    ensures LiveOwn(cfg, s') && Exclusive(cfg, s')
  {
    if e.Claimed? { ClaimOwns(cfg, s, e); }
    forall w | Live(cfg, s', w) && !(e.Claimed? && e.w == w)
      ensures Live(cfg, s, w) && Owns(s', w) && s'.attempts[w].id == s.attempts[w].id
      ensures e.Claimed? ==> s.attempts[w].id != e.id
    {
      LiveBefore(cfg, s, e, w);
      OthersKeepOwn(cfg, s, e, w);
      if e.Claimed? { ClaimTakesFreeRow(cfg, s, e, w); }
    }
  }

  // ---- Exactly once -----------------------------------------------------------------------

  lemma OnlyDeliveryDelivers(r: Row, u: Update, wall: Time)
    requires RowOk(r, wall) && Write(r, u, wall).Updated?
    ensures var r' := Write(r, u, wall).row;
            && r.status != Delivered && r.notification.None?
            && (r'.status == Delivered <==> u.MarkDelivered?)
            && r'.notification == (if u.MarkDelivered? then Some(u.notification) else None)
            && r'.org == r.org && r'.message == r.message && r'.maxAttempts == r.maxAttempts
  {
  }

  lemma IssueKeepsLedger(s: State, id: DeliveryId, u: Update)
    requires RowsOk(s) && ExactlyOnce(s) && !u.MarkDelivered?
    ensures ExactlyOnce(Issue(s, id, u))
  {
    var s' := Issue(s, id, u);
    if id in s.rows && Write(s.rows[id], u, s.clock).Updated? {
      OnlyDeliveryDelivers(s.rows[id], u, s.clock);
      forall j ensures Balanced(s'.inbox, s'.rows, j) {
        assert Balanced(s.inbox, s.rows, j);
      }
    }
  }

  /** What a delivery does to the delivered row: its one rendering is in, at the place the row names. */
  lemma DeliveredIsBalanced(
    inbox: seq<Notification>, rows: map<DeliveryId, Row>, id: DeliveryId, r: Row, n: Notification)
    requires id in rows && rows[id].status != Delivered && Balanced(inbox, rows, id)
    requires r.status == Delivered && r.notification == Some(|inbox|) && n == Render(id, r)
    ensures Balanced(inbox + [n], rows[id := r], id)
  {
    CopiesAppend(inbox, n, id);
  }

  /** ... and to any other. */
  lemma OthersStayBalanced(
    inbox: seq<Notification>, rows: map<DeliveryId, Row>, id: DeliveryId, r: Row, n: Notification, other: DeliveryId)
    requires other != id && n.deliveryId == id && Balanced(inbox, rows, other)
    ensures Balanced(inbox + [n], rows[id := r], other)
  {
    CopiesAppend(inbox, n, other);
  }

  lemma DeliveryKeepsLedger(cfg: Config, s: State, w: WorkerId)
    requires RowsOk(s) && ExactlyOnce(s) && Enabled(cfg, s, Landed(w, Sent)) && Owns(s, w)
    ensures ExactlyOnce(After(cfg, s, Landed(w, Sent)))
  {
    var a, s' := s.attempts[w], After(cfg, s, Landed(w, Sent));
    OnlyDeliveryDelivers(s.rows[a.id], MarkDelivered(|s.inbox|, s.clock), s.clock);
    var r := s'.rows[a.id];
    forall id ensures Balanced(s'.inbox, s'.rows, id) {
      assert Balanced(s.inbox, s.rows, id);
      if id == a.id {
        DeliveredIsBalanced(s.inbox, s.rows, id, r, a.staged.value);
      } else {
        OthersStayBalanced(s.inbox, s.rows, a.id, r, a.staged.value, id);
      }
    }
  }

  lemma StepKeepsExactlyOnce(cfg: Config, s: State, e: Event, s': State)
    requires Step(cfg, s, e, s') && RowsOk(s) && LiveOwn(cfg, s) && ExactlyOnce(s)
    ensures ExactlyOnce(s')
  {
    if e.Landed? && e.result.Sent? {
      assert Owns(s, e.w);
      DeliveryKeepsLedger(cfg, s, e.w);
    } else if Issued(cfg, s, e).Some? {
      var issued := Issued(cfg, s, e).value;
      var m := Issue(s, issued.0, issued.1);
      IssueKeepsLedger(s, issued.0, issued.1);
      assert s'.rows == m.rows && s'.inbox == m.inbox;
      forall j ensures Balanced(s'.inbox, s'.rows, j) {
        assert Balanced(m.inbox, m.rows, j);
      }
    } else {
      forall j ensures Balanced(s'.inbox, s'.rows, j) {
        assert Balanced(s.inbox, s.rows, j);
      }
    }
  }

  // ---- Over whole runs --------------------------------------------------------------------

  ghost predicate Inv(cfg: Config, s: State)
  {
    RowsOk(s) && LiveOwn(cfg, s) && Exclusive(cfg, s) && ExactlyOnce(s)
  }

  lemma {:induction false} InvAlongRuns(cfg: Config, a: State, b: State, n: nat)
    requires cfg.recovery >= cfg.hold && Inv(cfg, a) && Reaches(cfg, a, b, n)
    ensures Inv(cfg, b)
    decreases n
  {
    if n > 0 {
      var m, e :| Reaches(cfg, a, m, n - 1) && Step(cfg, m, e, b);
      InvAlongRuns(cfg, a, m, n - 1);
      StepKeepsRowsOk(cfg, m, e, b);
      StepKeepsLiveOwn(cfg, m, e, b);
      StepKeepsExactlyOnce(cfg, m, e, b);
    }
  }

  lemma InvReachable(cfg: Config, s: State)
    requires cfg.recovery >= cfg.hold && Reachable(cfg, s)
    ensures Inv(cfg, s)
  {
    var clock :| Leads(cfg, Init(clock), s);
    var n: nat :| Reaches(cfg, Init(clock), s, n);
    InvAlongRuns(cfg, Init(clock), s, n);
  }

  /** Coherence needs no timing at all. */
  lemma {:induction false} RowsOkAlongRuns(cfg: Config, a: State, b: State, n: nat)
    requires RowsOk(a) && Reaches(cfg, a, b, n)
    ensures RowsOk(b)
    decreases n
  {
    if n > 0 {
      var m, e :| Reaches(cfg, a, m, n - 1) && Step(cfg, m, e, b);
      RowsOkAlongRuns(cfg, a, m, n - 1);
      StepKeepsRowsOk(cfg, m, e, b);
    }
  }

  lemma Here(cfg: Config, s: State)
    ensures Leads(cfg, s, s)
  {
    assert Reaches(cfg, s, s, 0);
  }

  lemma Extend(cfg: Config, a: State, m: State, e: Event)
    requires Leads(cfg, a, m) && Enabled(cfg, m, e)
    ensures Leads(cfg, a, After(cfg, m, e))
  {
    var n: nat :| Reaches(cfg, a, m, n);
    assert Step(cfg, m, e, After(cfg, m, e));
    assert Reaches(cfg, a, After(cfg, m, e), n + 1);
  }

  /** A claim by an idle worker leaves it live, holding the row as claimed. */
  lemma ClaimStep(cfg: Config, s: State, w: WorkerId, id: DeliveryId, stamp: Time)
    requires RowsOk(s) && w !in s.attempts && id in s.rows && stamp <= s.clock <= stamp + cfg.hold
    requires Write(s.rows[id], Claim(stamp), s.clock).Updated?
    ensures var claimed := Write(s.rows[id], Claim(stamp), s.clock).row;
      && Enabled(cfg, s, Claimed(w, id, stamp))
      && var s' := After(cfg, s, Claimed(w, id, stamp));
      && s'.rows == s.rows[id := claimed] && s'.attempts == s.attempts[w := Attempt(id, claimed, None)]
      && Live(cfg, s', w) && s'.clock == s.clock && s'.inbox == s.inbox && s'.tallies.Keys == s.tallies.Keys
  {
  }

  lemma FlushStep(cfg: Config, s: State, w: WorkerId)
    requires Live(cfg, s, w) && s.attempts[w].staged.None?
    ensures Enabled(cfg, s, Flushed(w)) && Live(cfg, After(cfg, s, Flushed(w)), w)
    ensures var a := s.attempts[w];
      After(cfg, s, Flushed(w)) == s.(attempts := s.attempts[w := a.(staged := Some(Render(a.id, a.claimed)))])
  {
  }

  /** A live worker's landing moves its row as the landing says, and adds what it had flushed. */
  lemma LandingStep(cfg: Config, s: State, w: WorkerId, result: Result)
    requires Live(cfg, s, w) && s.attempts[w].id in s.rows && s.attempts[w].id in s.tallies
    requires result.Sent? <==> s.attempts[w].staged.Some?
    ensures Enabled(cfg, s, Landed(w, result))
    ensures var a, s' := s.attempts[w], After(cfg, s, Landed(w, result));
      var o := Write(s.rows[a.id], Landing(cfg, a.claimed, result, |s.inbox|, s.clock), s.clock);
      && s'.rows == s.rows[a.id := if o.Updated? then o.row else s.rows[a.id]]
      && s'.attempts == s.attempts - {w} && s'.clock == s.clock
      && s'.inbox == if result.Sent? then s.inbox + [a.staged.value] else s.inbox
  {
  }

  lemma Advance(cfg: Config, a: State, s: State, e: Event)
    requires Leads(cfg, a, s) && RowsOk(s) && Enabled(cfg, s, e)
    ensures Leads(cfg, a, After(cfg, s, e)) && RowsOk(After(cfg, s, e))
  {
    Extend(cfg, a, s, e);
    StepKeepsRowsOk(cfg, s, e, After(cfg, s, e));
  }

  lemma FlushFrom(cfg: Config, a: State, s: State, w: WorkerId) returns (s': State)
    requires Leads(cfg, a, s) && RowsOk(s) && Live(cfg, s, w) && s.attempts[w].staged.None?
    ensures Leads(cfg, a, s') && RowsOk(s') && Live(cfg, s', w)
    ensures var x := s.attempts[w];
      s' == s.(attempts := s.attempts[w := x.(staged := Some(Render(x.id, x.claimed)))])
  {
    FlushStep(cfg, s, w);
    Advance(cfg, a, s, Flushed(w));
    s' := After(cfg, s, Flushed(w));
  }

  /** Claimed and, for a send, flushed: about to land. */
  lemma ReachLanding(
    cfg: Config, a: State, s: State, w: WorkerId, id: DeliveryId, stamp: Time, send: bool) returns (s': State)
    requires Leads(cfg, a, s) && RowsOk(s) && w !in s.attempts && id in s.rows
    requires stamp <= s.clock <= stamp + cfg.hold && Write(s.rows[id], Claim(stamp), s.clock).Updated?
    ensures Leads(cfg, a, s') && Live(cfg, s', w) && RowsOk(s') && s'.clock == s.clock && s'.inbox == s.inbox
    ensures var claimed := Write(s.rows[id], Claim(stamp), s.clock).row;
      && s'.rows == s.rows[id := claimed] && s'.tallies.Keys == s.tallies.Keys
      && s'.attempts == s.attempts[w := Attempt(id, claimed, if send then Some(Render(id, claimed)) else None)]
  {
    ClaimStep(cfg, s, w, id, stamp);
    Advance(cfg, a, s, Claimed(w, id, stamp));
    s' := After(cfg, s, Claimed(w, id, stamp));
    if send {
      var claimed := s'.attempts[w].claimed;
      s' := FlushFrom(cfg, a, s', w);
      Overwrite(s.attempts, w, Attempt(id, claimed, None), Attempt(id, claimed, Some(Render(id, claimed))));
    }
  }

  lemma LandFrom(cfg: Config, a: State, s: State, w: WorkerId, result: Result) returns (s': State)
    requires Leads(cfg, a, s) && RowsOk(s) && Live(cfg, s, w) && (result.Sent? <==> s.attempts[w].staged.Some?)
    ensures Leads(cfg, a, s') && RowsOk(s')
    ensures var x := s.attempts[w];
      var o := Write(s.rows[x.id], Landing(cfg, x.claimed, result, |s.inbox|, s.clock), s.clock);
      && s'.rows == s.rows[x.id := if o.Updated? then o.row else s.rows[x.id]]
      && s'.attempts == s.attempts - {w} && s'.clock == s.clock
      && s'.inbox == if result.Sent? then s.inbox + [x.staged.value] else s.inbox
  {
    LandingStep(cfg, s, w, result);
    Advance(cfg, a, s, Landed(w, result));
    s' := After(cfg, s, Landed(w, result));
  }

  /** Let time pass. */
  lemma Wait(cfg: Config, a: State, b: State, to: Time) returns (c: State)
    requires Leads(cfg, a, b) && RowsOk(b)
    ensures Leads(cfg, a, c) && RowsOk(c) && c == b.(clock := if b.clock < to then to else b.clock)
  {
    var e := Tick(if b.clock < to then to else b.clock);
    Advance(cfg, a, b, e);
    c := After(cfg, b, e);
  }

  /** A user or a sweep moves one row. */
  lemma Move(cfg: Config, a: State, b: State, e: Event) returns (c: State)
    requires Leads(cfg, a, b) && RowsOk(b) && Enabled(cfg, b, e)
    requires e.UserUpdate? || e.Promoted? || e.Recovered?
    requires var (id, u) := Issued(cfg, b, e).value; Write(b.rows[id], u, b.clock).Updated?
    ensures var (id, u) := Issued(cfg, b, e).value; id in c.rows && c.rows[id] == Write(b.rows[id], u, b.clock).row
    ensures Leads(cfg, a, c) && RowsOk(c) && c.attempts == b.attempts && c.inbox == b.inbox && c.clock == b.clock
  {
    Advance(cfg, a, b, e);
    c := After(cfg, b, e);
  }

  /** Delivery 0 is enqueued at time 0 ... */
  lemma FirstEnqueue(cfg: Config) returns (s: State)
    ensures Leads(cfg, Init(0), s) && RowsOk(s)
    ensures s.clock == 0 && s.inbox == [] && s.attempts == map[]
    ensures s.rows == map[0 := NewRow(0, Message(None, "subject", "body", None, None, None), 4, None, 0)]
  {
    var s0 := Init(0);
    var enqueue := Enqueue(0, 0, Message(None, "subject", "body", None, None, None), 4, None);
    Here(cfg, s0);
    Extend(cfg, s0, s0, enqueue);
    s := After(cfg, s0, enqueue);
    StepKeepsRowsOk(cfg, s0, enqueue, s);
  }

  /** A row as its first claim leaves it. */
  predicate FirstClaimed(r: Row)
  {
    && r.status == Processing && r.attemptStartedAt == Some(0) && r.cancelRequestedAt.None?
    && r.scheduledFor == 0 && r.attempts == 1 && r.maxAttempts == 4
  }

  lemma ClaimOfNewRow(m: Message)
    ensures var o := Write(NewRow(0, m, 4, None, 0), Claim(0), 0); o.Updated? && FirstClaimed(o.row)
  {
  }

  /** ... and the first worker claims it and, to send it, flushes its inbox row. */
  lemma FirstClaim(cfg: Config, send: bool) returns (s: State, r: Row)
    ensures Leads(cfg, Init(0), s) && Live(cfg, s, 0) && RowsOk(s) && s.clock == 0 && s.inbox == []
    ensures s.rows == map[0 := r] && FirstClaimed(r)
    ensures s.attempts == map[0 := Attempt(0, r, if send then Some(Render(0, r)) else None)]
  {
    var s1 := FirstEnqueue(cfg);
    ClaimOfNewRow(s1.rows[0].message);
    s := ReachLanding(cfg, Init(0), s1, 0, 0, 0, send);
    r := s.rows[0];
  }

  lemma RecoveredIsDue(r: Row, before: Time, now: Time)
    requires FirstClaimed(r) && HasActor(r) && 0 < before <= now
    ensures var o := Write(r, RequeueStale(before, now), now);
      o.Updated? && o.row.status == Queued && Due(o.row, now)
  {
  }

  /** Just past a recovery window, an unfinished attempt's row is back in the queue. */
  lemma LateRecovery(cfg: Config) returns (s: State)
    ensures Leads(cfg, Init(0), s) && s.clock == cfg.recovery + 1 && s.inbox == [] && s.attempts.Keys == {0}
    ensures s.attempts[0].id == 0 && AttemptOk(s.attempts[0]) && s.attempts[0].staged.Some?
    ensures s.attempts[0].claimed.attemptStartedAt == Some(0) && RowsOk(s)
    ensures 0 in s.rows && s.rows[0].status == Queued && Due(s.rows[0], s.clock)
  {
    var s3, _ := FirstClaim(cfg, true);
    var s4 := Wait(cfg, Init(0), s3, cfg.recovery + 1);
    RecoveredIsDue(s4.rows[0], 1, s4.clock);
    s := Move(cfg, Init(0), s4, Recovered(0, 1));
  }

  /** If the window is shorter than the hold bound, a second worker then claims the same delivery. */
  lemma SecondClaim(cfg: Config) returns (s: State)
    requires cfg.recovery < cfg.hold
    ensures Leads(cfg, Init(0), s) && RowsOk(s)
    ensures s.inbox == [] && Live(cfg, s, 0) && Live(cfg, s, 1) && s.attempts[0].id == s.attempts[1].id == 0
    ensures 0 in s.rows && 0 in s.tallies && s.attempts[0].staged.Some? && s.attempts[1].staged.Some?
  {
    var late := LateRecovery(cfg);
    assert HasActor(late.rows[0]);
    s := ReachLanding(cfg, Init(0), late, 1, 0, late.clock, true);
  }

  /** Then both deliver: two inbox rows for one delivery. */
  lemma DoubleSend(cfg: Config) returns (both: State, twice: State)
    requires cfg.recovery < cfg.hold
    ensures Reachable(cfg, both) && !Exclusive(cfg, both)
    ensures Reachable(cfg, twice) && |Copies(twice.inbox, 0)| == 2
  {
    both := SecondClaim(cfg);
    var once := SendNow(cfg, both, 0);
    twice := SendNow(cfg, once, 1);
    CopiesAppend([], both.attempts[0].staged.value, 0);
    CopiesAppend(once.inbox, both.attempts[1].staged.value, 0);
    assert once.inbox == [both.attempts[0].staged.value];
  }

  /** A live holder's send adds its rendering to the inbox. */
  lemma SendNow(cfg: Config, s: State, w: WorkerId) returns (s': State)
    requires Leads(cfg, Init(0), s) && RowsOk(s) && Live(cfg, s, w) && s.attempts[w].staged.Some?
    ensures Leads(cfg, Init(0), s') && RowsOk(s') && s'.inbox == s.inbox + [s.attempts[w].staged.value]
    ensures s'.attempts == s.attempts - {w} && s'.clock == s.clock
  {
    s' := LandFrom(cfg, Init(0), s, w, Sent);
  }

  /** Mutual exclusion of live senders holds in every run exactly when the recovery window covers the
      hold bound; the same condition is exact for one-inbox-row-per-delivery. */
  lemma ExclusionExactly(cfg: Config)
    ensures (forall s :: Reachable(cfg, s) ==> Exclusive(cfg, s)) <==> cfg.recovery >= cfg.hold
  {
    if cfg.recovery >= cfg.hold {
      forall s | Reachable(cfg, s) ensures Exclusive(cfg, s) { InvReachable(cfg, s); }
    } else {
      var both, _ := DoubleSend(cfg);
    }
  }

  lemma ExactlyOnceExactly(cfg: Config)
    ensures (forall s :: Reachable(cfg, s) ==> ExactlyOnce(s)) <==> cfg.recovery >= cfg.hold
  {
    if cfg.recovery >= cfg.hold {
      forall s | Reachable(cfg, s) ensures ExactlyOnce(s) { InvReachable(cfg, s); }
    } else {
      var _, twice := DoubleSend(cfg);
      assert !Balanced(twice.inbox, twice.rows, 0);
    }
  }

  /** A live holder's landing UPDATE always finds its row. */
  lemma LandingAlwaysLands(cfg: Config, s: State, w: WorkerId, result: Result)
    requires cfg.recovery >= cfg.hold && Reachable(cfg, s) && Enabled(cfg, s, Landed(w, result))
    ensures var a := s.attempts[w];
            && a.id in s.rows
            && Write(s.rows[a.id], Landing(cfg, a.claimed, result, |s.inbox|, s.clock), s.clock).Updated?
            && !Live(cfg, After(cfg, s, Landed(w, result)), w)
  {
    InvReachable(cfg, s);
    assert Owns(s, w);
  }
}
