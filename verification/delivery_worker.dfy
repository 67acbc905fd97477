/** The delivery worker as it runs: claim, provider call and landing share one transaction, which holds
    the row's lock until it commits. Seen from the committed tables an attempt is a single step. */
module ShippedWorker {
  import opened Base
  import opened DeliveryRows
  import opened InAppInbox
  import opened DeliveryProtocol
  import opened DeliveryStore
  import opened DeliveryOutcomes

  /** What the provider call came to. */
  datatype Reply = Ok | NotOk(reason: Option<string>) | PermanentError(error: string) | RetryableError(error: string)
                 | OtherError(error: string) | TimedOut(error: string)

  function ResultOf(reply: Reply): Result
  {
    match reply
    case Ok => Sent
    case NotOk(reason) =>
      Transient(if reason.Some? && reason.value != "" then reason.value else "provider returned failure")
    case PermanentError(error) => Permanent(error)
    case RetryableError(error) => Transient(error)
    case OtherError(error) => Transient(error)
    case TimedOut(error) => Transient(error)
  }

  /** The committed effect of one attempt on its row: claim, then landing; None if the claim matched nothing. */
  function AttemptRow(cfg: Config, r: Row, stamp: Time, result: Result, note: nat, at: Time, wall: Time): Option<Row>
  {
    var claim := Write(r, Claim(stamp), wall);
    if !claim.Updated? then None
    else
      var landing := Write(claim.row, Landing(cfg, claim.row, result, note, at), wall);
      if landing.Updated? then Some(landing.row) else Some(claim.row)
  }

  /** The error text a reply leaves on the row: its own, or the default for a bare refusal. */
  predicate Tells(error: string, reply: Reply)
  {
    match reply
    case Ok => false
    case NotOk(None) => error == "provider returned failure"
    case NotOk(Some(reason)) => error == (if reason != "" then reason else "provider returned failure")
    case PermanentError(given) => error == given
    case RetryableError(given) => error == given
    case OtherError(given) => error == given
    case TimedOut(given) => error == given
  }

  /** What an attempt makes of a row at rest, read off the reply: delivered if it is Ok; failed if it is a
      permanent error, or the last attempt's; otherwise to be retried after the backoff. */
  predicate Lands(base: nat, r: Row, reply: Reply, at: Time, r': Row)
  {
    && r'.attempts == r.attempts + 1 && r'.maxAttempts == r.maxAttempts && r'.message == r.message && r'.org == r.org
    && (r'.status == Delivered <==> reply.Ok?)
    && (r'.status == Retrying <==> !reply.Ok? && !reply.PermanentError? && r.attempts + 1 < r.maxAttempts)
    && (r'.status == Failed <==> reply.PermanentError? || (!reply.Ok? && r.attempts + 1 >= r.maxAttempts))
    && (if reply.Ok? then r'.lastError.None? else r'.lastError.Some? && Tells(r'.lastError.value, reply))
    && (r'.status == Retrying ==> r'.nextAttemptAt == Some(at + Min(base * Pow2(r.attempts), 3600)))
    && (r'.status == Delivered ==> r'.deliveredAt == Some(at)) && (r'.status == Failed ==> r'.failedAt == Some(at))
  }

  class DeliveryWorker {
    const cfg: Config
    const deliveries: DeliveryRepository
    const provider: InAppProvider

    constructor (cfg: Config, deliveries: DeliveryRepository, provider: InAppProvider)
      ensures this.cfg == cfg && this.deliveries == deliveries && this.provider == provider
    {
      this.cfg, this.deliveries, this.provider := cfg, deliveries, provider;
    }

    /** Routes a failed attempt by the claimed row: terminal FAILED/CANCELLED or a retry. */
    method Land(org: OrgId, id: DeliveryId, claimed: Row, permanent: bool, error: string, now: Time, wall: Time)
      returns (o: Outcome)
      requires deliveries.Valid() && claimed.attempts > 0
      modifies deliveries
      ensures deliveries.Valid()
      ensures var result := if permanent then Permanent(error) else Transient(error);
              o == Answer(old(deliveries.rows), org, id, Landing(cfg, claimed, result, 0, now), wall)
      ensures deliveries.rows == Stored(old(deliveries.rows), id, o)
    {
      if claimed.cancelRequestedAt.Some? && !permanent {
        o := deliveries.MarkCancelledAfterSend(org, id, error, now, wall);
        return;
      }
      if permanent || claimed.attempts >= claimed.maxAttempts {
        o := deliveries.MarkFailed(org, id, error, now, wall);
        return;
      }
      o := deliveries.ScheduleRetry(org, id, now + Backoff(cfg.retryBase, claimed.attempts), error, wall);
    }

    /** The inbox row, then the DELIVERED transition that names it. */
    method Deliver(org: OrgId, id: DeliveryId, claimed: Row, now: Time, wall: Time)
      requires deliveries.Valid() && provider.flushed == []
      modifies deliveries, provider
      ensures deliveries.Valid() && provider.committed == old(provider.committed)
      ensures provider.flushed == [Render(id, claimed)]
      ensures var o := Answer(old(deliveries.rows), org, id, MarkDelivered(|old(provider.committed)|, now), wall);
              deliveries.rows == Stored(old(deliveries.rows), id, o)
    {
      var note := provider.Deliver(id, claimed);
      var _ := deliveries.MarkDelivered(org, id, note, now, wall);
    }

    /** What follows the claim: deliver, or land the failure. */
    method Finish(org: OrgId, id: DeliveryId, claimed: Row, reply: Reply, now: Time, wall: Time)
      requires deliveries.Valid() && provider.flushed == [] && claimed.attempts > 0
      modifies deliveries, provider
      ensures deliveries.Valid() && provider.committed == old(provider.committed)
      ensures provider.flushed == if reply.Ok? then [Render(id, claimed)] else []
      ensures var landing := Landing(cfg, claimed, ResultOf(reply), |old(provider.committed)|, now);
              deliveries.rows == Stored(old(deliveries.rows), id, Answer(old(deliveries.rows), org, id, landing, wall))
    {
      match reply {
        case Ok => Deliver(org, id, claimed, now, wall);
        case PermanentError(error) => var _ := Land(org, id, claimed, true, error, now, wall);
        case NotOk(reason) =>
          var text := if reason.Some? && reason.value != "" then reason.value else "provider returned failure";
          var _ := Land(org, id, claimed, false, text, now, wall);
        case RetryableError(error) => var _ := Land(org, id, claimed, false, error, now, wall);
        case OtherError(error) => var _ := Land(org, id, claimed, false, error, now, wall);
        case TimedOut(error) => var _ := Land(org, id, claimed, false, error, now, wall);
      }
    }

    /** One delivery's transaction, from claim to commit: the row moves by AttemptRow, and exactly a
        sent attempt adds its one rendering to the inbox. */
    method Attempt(org: OrgId, id: DeliveryId, stamp: Time, reply: Reply, now: Time, wall: Time) returns (sent: bool)
      requires deliveries.Valid() && provider.flushed == []
      modifies deliveries, provider
      ensures deliveries.Valid() && provider.flushed == []
      ensures sent <==> id in old(deliveries.rows) && old(deliveries.rows)[id].org == org &&
                        Write(old(deliveries.rows)[id], Claim(stamp), wall).Updated?
      ensures sent ==>
                && deliveries.rows == old(deliveries.rows)[id :=
                     AttemptRow(cfg, old(deliveries.rows)[id], stamp, ResultOf(reply), |old(provider.committed)|, now,
                                wall).value]
                && provider.committed == old(provider.committed) +
                     (if reply.Ok? then [Render(id, old(deliveries.rows)[id])] else [])
      ensures sent && AtRest(old(deliveries.rows)[id], wall) && stamp <= wall ==>
                id in deliveries.rows && Lands(cfg.retryBase, old(deliveries.rows)[id], reply, now, deliveries.rows[id])
      ensures !sent ==> deliveries.rows == old(deliveries.rows) && provider.committed == old(provider.committed)
    {
      var claim := deliveries.Claim(org, id, stamp, wall);
      if !claim.Updated? { return false; }
      Finish(org, id, claim.row, reply, now, wall);
      provider.Commit();
      sent := true;
      ghost var r := old(deliveries.rows)[id];
      if AtRest(r, wall) && stamp <= wall {
        ReplyLands(cfg, r, stamp, reply, |old(provider.committed)|, now, wall);
      }
    }
  }

  // ---- The committed view over whole runs -------------------------------------------------

  /** `waited` sums the backoff scheduled for each delivery since it was enqueued or last manually retried. */
  datatype Tables = Tables(
    clock: Time, rows: map<DeliveryId, Row>, inbox: seq<Notification>, waited: map<DeliveryId, nat>)

  datatype Commit =
    | Pass(to: Time)
    | Enqueued(id: DeliveryId, org: OrgId, message: Message, maxAttempts: nat, scheduledFor: Option<Time>)
    | Attempted(id: DeliveryId, stamp: Time, result: Result, at: Time)
    | Other(id: DeliveryId, u: Update)

  function Waited(t: Tables, id: DeliveryId): nat { if id in t.waited then t.waited[id] else 0 }

  /** The wait a landing schedules, from when it was decided; other landings schedule none. */
  function ScheduledWait(r: Row, at: Time): nat
  {
    if r.status == Retrying && r.nextAttemptAt.Some? && at <= r.nextAttemptAt.value
    then r.nextAttemptAt.value - at else 0
  }

  /** Nothing bounds how long an attempt takes or how short the recovery window is. */
  predicate Commits(cfg: Config, t: Tables, c: Commit, t': Tables)
  {
    match c
    case Pass(to) => t.clock <= to && t' == t.(clock := to)
    case Enqueued(id, org, message, maxAttempts, scheduledFor) =>
      id !in t.rows && maxAttempts > 0
      && t' == t.(rows := t.rows[id := NewRow(org, message, maxAttempts, scheduledFor, t.clock)],
                  waited := t.waited[id := 0])
    case Attempted(id, stamp, result, at) =>
      id in t.rows && stamp <= t.clock
      && var row := AttemptRow(cfg, t.rows[id], stamp, result, |t.inbox|, at, t.clock);
         row.Some?
         && t' == t.(rows := t.rows[id := row.value],
                     inbox := if result.Sent? then t.inbox + [Render(id, t.rows[id])] else t.inbox,
                     waited := t.waited[id := Waited(t, id) + ScheduledWait(row.value, at)])
    case Other(id, u) =>
      id in t.rows
      && (u.MarkCancelRequested? || u.MarkCancelled? || u.MarkRequeued? || u.PromoteDue? || u.RequeueStale?)
      && var o := Write(t.rows[id], u, t.clock);
         t' == t.(rows := Stored(t.rows, id, o),
                  waited := if u.MarkRequeued? && o.Updated? then t.waited[id := 0] else t.waited)
  }

  ghost predicate Runs(cfg: Config, a: Tables, b: Tables, n: nat)
    decreases n
  {
    if n == 0 then a == b
    else exists m: Tables, c: Commit :: Runs(cfg, a, m, n - 1) && Commits(cfg, m, c, b)
  }

  /** The recorded wait grows with each retry by as long as it is put off, and is reset by a manual retry alone. */
  lemma WaitedAfter(cfg: Config, t: Tables, c: Commit, t': Tables, id: DeliveryId)
    requires Commits(cfg, t, c, t') && id in t.rows
    ensures id in t'.rows
    ensures var before, after := t.rows[id], t'.rows[id];
      var again := c.Other? && c.id == id && c.u.MarkRequeued? && before.status != Queued && after.status == Queued;
      var putOff := c.Attempted? && c.id == id && after.status == Retrying && after.nextAttemptAt.Some?;
      && (again ==> Waited(t', id) == 0)
      && (putOff && after.nextAttemptAt.value > c.at ==>
            Waited(t', id) == Waited(t, id) + (after.nextAttemptAt.value - c.at))
      && (!again && !(putOff && after.nextAttemptAt.value > c.at) ==> Waited(t', id) == Waited(t, id))
  {
    if c.Other? && c.id == id && Write(t.rows[id], c.u, t.clock).Updated? { CountersAfter(t.rows[id], c.u, t.clock); }
  }

  /** At rest: coherent, and neither in flight nor flagged. */
  predicate AtRest(r: Row, clock: Time)
  {
    RowOk(r, clock) && r.status != Processing && r.cancelRequestedAt.None?
  }

  ghost predicate Quiet(t: Tables)
  {
    && (forall id :: id in t.rows ==> AtRest(t.rows[id], t.clock))
    && (forall id :: Balanced(t.inbox, t.rows, id))
  }

  /** An attempt always lands, and where it lands depends only on the result and the attempts used. */
  lemma AttemptLands(cfg: Config, r: Row, stamp: Time, result: Result, note: nat, at: Time, wall: Time)
    requires AtRest(r, wall) && stamp <= wall
    requires AttemptRow(cfg, r, stamp, result, note, at, wall).Some?
    ensures var r' := AttemptRow(cfg, r, stamp, result, note, at, wall).value;
            && AtRest(r', wall) && r'.attempts == r.attempts + 1
            && r'.org == r.org && r'.message == r.message && r.status == Queued
            && r'.status == (match result
                             case Sent => Delivered
                             case Permanent(_) => Failed
                             case Transient(_) => if r'.attempts < r'.maxAttempts then Retrying else Failed)
            && r'.notification == (if result.Sent? then Some(note) else None)
            && r'.maxAttempts == r.maxAttempts
            && (r'.status == Retrying ==> r'.nextAttemptAt == Some(at + Backoff(cfg.retryBase, r'.attempts)))
  {
    var c := Write(r, Claim(stamp), wall).row;
    WriteKeepsRowOk(r, Claim(stamp), wall);
    WriteKeepsRowOk(c, Landing(cfg, c, result, note, at), wall);
  }

  /** And the result follows from the reply. */
  lemma ReplyLands(cfg: Config, r: Row, stamp: Time, reply: Reply, note: nat, at: Time, wall: Time)
    requires AtRest(r, wall) && stamp <= wall
    requires AttemptRow(cfg, r, stamp, ResultOf(reply), note, at, wall).Some?
    ensures Lands(cfg.retryBase, r, reply, at, AttemptRow(cfg, r, stamp, ResultOf(reply), note, at, wall).value)
  {
    var c := Write(r, Claim(stamp), wall).row;
    var u := Landing(cfg, c, ResultOf(reply), note, at);
    WriteKeepsRowOk(r, Claim(stamp), wall);
    AlwaysOpenTo(c, u, wall);
    CountersAfter(c, u, wall);
  }

  /** No UPDATE meant for a row in flight ever matches a row at rest, and no cancel is ever turned away. */
  lemma InFlightUpdatesNeverMatch(r: Row, u: Update, clock: Time)
    requires AtRest(r, clock)
    ensures u.MarkCancelRequested? || u.MarkCancelledAfterSend? || u.RequeueStale? ==> Write(r, u, clock).NoRow?
    ensures !Write(r, u, clock).Rejected?
    ensures (u.MarkCancelled? || u.MarkRequeued? || u.PromoteDue?) && Write(r, u, clock).Updated? ==>
              AtRest(Write(r, u, clock).row, clock)
  {
  }

  lemma CommitKeepsRest(cfg: Config, t: Tables, c: Commit, t': Tables)
    requires Quiet(t) && Commits(cfg, t, c, t')
    ensures forall id :: id in t'.rows ==> AtRest(t'.rows[id], t'.clock)
  {
    if c.Other? { InFlightUpdatesNeverMatch(t.rows[c.id], c.u, t.clock); }
    if c.Attempted? { AttemptLands(cfg, t.rows[c.id], c.stamp, c.result, |t.inbox|, c.at, t.clock); }
  }

  lemma AttemptKeepsBalance(
    cfg: Config, t: Tables, target: DeliveryId, stamp: Time, result: Result, at: Time, id: DeliveryId)
    requires Quiet(t) && target in t.rows && stamp <= t.clock
    requires AttemptRow(cfg, t.rows[target], stamp, result, |t.inbox|, at, t.clock).Some?
    ensures var row := AttemptRow(cfg, t.rows[target], stamp, result, |t.inbox|, at, t.clock).value;
      Balanced(if result.Sent? then t.inbox + [Render(target, t.rows[target])] else t.inbox,
               t.rows[target := row], id)
  {
    assert Balanced(t.inbox, t.rows, id);
    CopiesAppend(t.inbox, Render(target, t.rows[target]), id);
    AttemptLands(cfg, t.rows[target], stamp, result, |t.inbox|, at, t.clock);
  }

  lemma CommitKeepsBalance(cfg: Config, t: Tables, c: Commit, t': Tables, id: DeliveryId)
    requires Quiet(t) && Commits(cfg, t, c, t')
    ensures Balanced(t'.inbox, t'.rows, id)
  {
    assert Balanced(t.inbox, t.rows, id);
    if c.Attempted? {
      AttemptKeepsBalance(cfg, t, c.id, c.stamp, c.result, c.at, id);
    } else if c.Other? && Write(t.rows[c.id], c.u, t.clock).Updated? {
      OnlyDeliveryDelivers(t.rows[c.id], c.u, t.clock);
    }
  }

  lemma CommitKeepsQuiet(cfg: Config, t: Tables, c: Commit, t': Tables)
    requires Quiet(t) && Commits(cfg, t, c, t')
    ensures Quiet(t')
  {
    CommitKeepsRest(cfg, t, c, t');
    forall id ensures Balanced(t'.inbox, t'.rows, id) { CommitKeepsBalance(cfg, t, c, t', id); }
  }

  /** With the shipped transaction boundary every delivery has exactly its one inbox row in every run,
      whatever the timeouts: PROCESSING is never committed, so recovery and in-flight cancels find nothing. */
  lemma {:induction false} ShippedExactlyOnce(cfg: Config, clock: Time, t: Tables, n: nat)
    requires Runs(cfg, Tables(clock, map[], [], map[]), t, n)
    ensures Quiet(t)
    decreases n
  {
    if n > 0 {
      var m, c :| Runs(cfg, Tables(clock, map[], [], map[]), m, n - 1) && Commits(cfg, m, c, t);
      ShippedExactlyOnce(cfg, clock, m, n - 1);
      CommitKeepsQuiet(cfg, m, c, t);
    }
  }

  /** The inbox row a message appears as. */
  predicate Shows(n: Notification, id: DeliveryId, r: Row)
  {
    && n.deliveryId == id && n.org == r.org && n.user == r.message.recipient
    && n.title == r.message.subject && n.body == r.message.body && n.actionUrl == r.message.actionUrl
    && (n.kind == ApprovalRequest <==>
          r.message.approvalRequest.Some? || r.message.typeHint == Some(NameOf(ApprovalRequest)))
  }

  /** In every run a delivered message is in the inbox, once, to its recipient and as it was written, and its row
      points at it; of any other delivery there is nothing. */
  lemma DeliveredIsShown(cfg: Config, clock: Time, t: Tables, n: nat, id: DeliveryId)
    requires Runs(cfg, Tables(clock, map[], [], map[]), t, n) && id in t.rows
    ensures t.rows[id].status == Delivered ==>
      && |Copies(t.inbox, id)| == 1 && Shows(Copies(t.inbox, id)[0], id, t.rows[id])
      && t.rows[id].notification.Some? && t.rows[id].notification.value < |t.inbox|
      && Shows(t.inbox[t.rows[id].notification.value], id, t.rows[id])
    ensures t.rows[id].status != Delivered ==> Copies(t.inbox, id) == []
  {
    ShippedExactlyOnce(cfg, clock, t, n);
    assert Balanced(t.inbox, t.rows, id) && AtRest(t.rows[id], t.clock);
    TypeShown(t.rows[id].message, System);
  }

  // ---- Budgets ----------------------------------------------------------------------------

  /** A delivery at rest: never over its attempts, strictly under them while it may still be tried, and never
      made to wait longer than those attempts allow. */
  predicate Frugal(base: nat, r: Row, waited: nat)
  {
    && r.maxAttempts > 0 && r.attempts <= r.maxAttempts
    && (r.status == Queued || r.status == Retrying ==> r.attempts < r.maxAttempts)
    && waited <= Waits(base, Min(r.attempts, r.maxAttempts - 1))
  }

  lemma AttemptKeepsFrugal(
    cfg: Config, r: Row, stamp: Time, result: Result, note: nat, at: Time, wall: Time, waited: nat)
    requires AtRest(r, wall) && stamp <= wall && Frugal(cfg.retryBase, r, waited)
    requires AttemptRow(cfg, r, stamp, result, note, at, wall).Some?
    ensures var r' := AttemptRow(cfg, r, stamp, result, note, at, wall).value;
            Frugal(cfg.retryBase, r', waited + ScheduledWait(r', at))
  {
    AttemptLands(cfg, r, stamp, result, note, at, wall);
    WaitsMonotone(cfg.retryBase, r.attempts, Min(r.attempts + 1, r.maxAttempts - 1));
  }

  lemma OtherKeepsFrugal(base: nat, r: Row, u: Update, clock: Time, waited: nat)
    requires AtRest(r, clock) && Frugal(base, r, waited) && Write(r, u, clock).Updated?
    requires u.MarkCancelled? || u.MarkRequeued? || u.PromoteDue?
    ensures Frugal(base, Write(r, u, clock).row, if u.MarkRequeued? then 0 else waited)
  {
  }

  ghost predicate AllFrugal(cfg: Config, t: Tables)
  {
    forall id :: id in t.rows ==> Frugal(cfg.retryBase, t.rows[id], Waited(t, id))
  }

  lemma CommitKeepsFrugal(cfg: Config, t: Tables, c: Commit, t': Tables)
    requires Quiet(t) && AllFrugal(cfg, t) && Commits(cfg, t, c, t')
    ensures AllFrugal(cfg, t')
  {
    match c
    case Attempted(id, stamp, result, at) =>
      AttemptKeepsFrugal(cfg, t.rows[id], stamp, result, |t.inbox|, at, t.clock, Waited(t, id));
    case Other(id, u) =>
      InFlightUpdatesNeverMatch(t.rows[id], u, t.clock);
      if Write(t.rows[id], u, t.clock).Updated? {
        OtherKeepsFrugal(cfg.retryBase, t.rows[id], u, t.clock, Waited(t, id));
      }
    case _ =>
  }

  /** As shipped, with no timing assumption at all: a delivery never uses more than its attempts, has one left
      while it is queued or retrying, and waits at most base * (2^(max_attempts-1) - 1) between manual retries. */
  lemma {:induction false} ShippedBudget(cfg: Config, clock: Time, t: Tables, n: nat, id: DeliveryId)
    requires cfg.retryBase > 0 && Runs(cfg, Tables(clock, map[], [], map[]), t, n) && id in t.rows
    ensures var r := t.rows[id];
      && r.maxAttempts > 0 && r.attempts <= r.maxAttempts
      && (r.status == Queued || r.status == Retrying ==> r.attempts < r.maxAttempts)
      && Waited(t, id) <= cfg.retryBase * (Pow2(r.maxAttempts - 1) - 1)
  {
    FrugalAlongRuns(cfg, clock, t, n);
    ShippedExactlyOnce(cfg, clock, t, n);
    var r := t.rows[id];
    assert AtRest(r, t.clock) && Frugal(cfg.retryBase, r, Waited(t, id));
    WaitsMonotone(cfg.retryBase, Min(r.attempts, r.maxAttempts - 1), r.maxAttempts - 1);
    WaitsBound(cfg.retryBase, r.maxAttempts - 1);
  }

  lemma {:induction false} FrugalAlongRuns(cfg: Config, clock: Time, t: Tables, n: nat)
    requires Runs(cfg, Tables(clock, map[], [], map[]), t, n)
    ensures AllFrugal(cfg, t)
    decreases n
  {
    if n > 0 {
      var m, c :| Runs(cfg, Tables(clock, map[], [], map[]), m, n - 1) && Commits(cfg, m, c, t);
      ShippedExactlyOnce(cfg, clock, m, n - 1);
      FrugalAlongRuns(cfg, clock, m, n - 1);
      CommitKeepsFrugal(cfg, m, c, t);
    }
  }

  // ---- Refinement -------------------------------------------------------------------------

  /** The committed effect of an attempt, as claim and landing leave it. */
  lemma AttemptIsClaimThenLanding(
    cfg: Config, id: DeliveryId, r: Row, stamp: Time, result: Result, note: nat, at: Time)
    requires AttemptRow(cfg, r, stamp, result, note, at, at).Some?
    ensures Write(r, Claim(stamp), at).Updated?
    ensures var claimed := Write(r, Claim(stamp), at).row;
      var o := Write(claimed, Landing(cfg, claimed, result, note, at), at);
      && AttemptRow(cfg, r, stamp, result, note, at, at).value == (if o.Updated? then o.row else claimed)
      && Render(id, claimed) == Render(id, r)
  {
  }

  lemma ClaimThenLand(
    cfg: Config, s: State, w: WorkerId, id: DeliveryId, stamp: Time, result: Result) returns (s': State)
    requires RowsOk(s) && w !in s.attempts && id in s.rows
    requires stamp <= s.clock <= stamp + cfg.hold && Write(s.rows[id], Claim(stamp), s.clock).Updated?
    ensures Leads(cfg, s, s') && s'.clock == s.clock && s'.attempts == s.attempts
    ensures var claimed := Write(s.rows[id], Claim(stamp), s.clock).row;
      var o := Write(claimed, Landing(cfg, claimed, result, |s.inbox|, s.clock), s.clock);
      && s'.rows == s.rows[id := if o.Updated? then o.row else claimed]
      && s'.inbox == if result.Sent? then s.inbox + [Render(id, claimed)] else s.inbox
  {
    Here(cfg, s);
    var ready := ReachLanding(cfg, s, s, w, id, stamp, result.Sent?);
    s' := LandFrom(cfg, s, ready, w, result);
    Overwrite(s.rows, id, ready.rows[id], s'.rows[id]);
    RemoveAdded(s.attempts, w, ready.attempts[w]);
  }

  /** The one-transaction attempt refines the racing protocol: an idle protocol state reaches, by claim,
      flush and landing, exactly the tables the transaction commits. */
  lemma AttemptRefines(
    cfg: Config, s: State, w: WorkerId, id: DeliveryId, stamp: Time, result: Result) returns (s': State)
    requires RowsOk(s) && w !in s.attempts && id in s.rows
    requires stamp <= s.clock <= stamp + cfg.hold
    requires AttemptRow(cfg, s.rows[id], stamp, result, |s.inbox|, s.clock, s.clock).Some?
    ensures Leads(cfg, s, s') && s'.clock == s.clock && s'.attempts == s.attempts
    ensures s'.rows ==
            s.rows[id := AttemptRow(cfg, s.rows[id], stamp, result, |s.inbox|, s.clock, s.clock).value]
    ensures s'.inbox == (if result.Sent? then s.inbox + [Render(id, s.rows[id])] else s.inbox)
  {
    AttemptIsClaimThenLanding(cfg, id, s.rows[id], stamp, result, |s.inbox|, s.clock);
    s' := ClaimThenLand(cfg, s, w, id, stamp, result);
  }
}
