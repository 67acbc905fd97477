/** One row of the delivery outbox and every guarded UPDATE the repository issues on it:
    a WHERE clause, a SET list, the trigger that stamps `updated_at`, and the table's
    has-actor CHECK constraint. */
module DeliveryRows {
  import opened Base

  type DeliveryId = nat
  type OrgId = nat
  type UserId = nat

  datatype Status = Queued | Processing | Delivered | Retrying | Failed | Cancelled

  /** The part of a row no UPDATE ever touches. */
  datatype Message = Message(recipient: Option<UserId>, subject: string, body: string, actionUrl: Option<string>,
                             approvalRequest: Option<nat>, typeHint: Option<string>)

  datatype Row = Row(
    org: OrgId, message: Message, maxAttempts: nat, scheduledFor: Time,
    status: Status, attempts: nat, nextAttemptAt: Option<Time>, attemptStartedAt: Option<Time>,
    cancelRequestedAt: Option<Time>, cancelledBy: Option<UserId>, lastError: Option<string>,
    notification: Option<nat>, deliveredAt: Option<Time>, failedAt: Option<Time>, cancelledAt: Option<Time>,
    updatedAt: Time)

  /** A row as `enqueue` inserts it. */
  function NewRow(org: OrgId, message: Message, maxAttempts: nat, scheduledFor: Option<Time>, now: Time): Row
  {
    var due := if scheduledFor.Some? then scheduledFor.value else now;
    Row(org, message, maxAttempts, due, Queued, 0, Some(due), None, None, None, None, None, None, None, None, now)
  }

  datatype Update =
    | Claim(now: Time)
    | MarkDelivered(notification: nat, at: Time)
    | MarkFailed(error: string, at: Time)
    | ScheduleRetry(nextAt: Time, error: string)
    | MarkCancelRequested(at: Time, user: Option<UserId>)
    | MarkCancelled(at: Time, user: Option<UserId>)
    | MarkCancelledAfterSend(error: string, at: Time)
    | MarkRequeued(at: Time)
    | PromoteDue(now: Time)
    | RequeueStale(before: Time, now: Time)

  predicate Due(r: Row, now: Time)
  {
    r.scheduledFor <= now && (r.nextAttemptAt.Some? ==> r.nextAttemptAt.value <= now)
  }

  predicate Stale(r: Row, before: Time)
  {
    r.attemptStartedAt.None? || r.attemptStartedAt.value < before || r.updatedAt < before
  }

  /** The WHERE clause. */
  predicate Matches(r: Row, u: Update)
  {
    match u
    case Claim(now) => r.status == Queued && Due(r, now)
    case MarkDelivered(_, _) => r.status == Processing
    case MarkFailed(_, _) => r.status == Processing
    case ScheduleRetry(_, _) => r.status == Processing
    case MarkCancelRequested(_, _) => r.status == Processing && r.cancelRequestedAt.None?
    case MarkCancelled(_, _) => r.status == Queued || r.status == Retrying
    case MarkCancelledAfterSend(_, _) => r.status == Processing && r.cancelRequestedAt.Some?
    case MarkRequeued(_) => r.status == Failed || r.status == Cancelled
    case PromoteDue(now) => r.status == Retrying && r.nextAttemptAt.Some? && r.nextAttemptAt.value <= now
    case RequeueStale(before, _) => r.status == Processing && Stale(r, before)
  }

  /** The SET list. */
  function Assigned(r: Row, u: Update): Row
  {
    match u
    case Claim(now) =>
      r.(status := Processing, attempts := r.attempts + 1, nextAttemptAt := None, attemptStartedAt := Some(now),
         lastError := None)
    case MarkDelivered(n, at) =>
      r.(status := Delivered, deliveredAt := Some(at), nextAttemptAt := None, attemptStartedAt := None,
         cancelRequestedAt := None, cancelledBy := None, lastError := None, notification := Some(n))
    case MarkFailed(error, at) =>
      r.(status := Failed, failedAt := Some(at), nextAttemptAt := None, attemptStartedAt := None,
         cancelRequestedAt := None, cancelledBy := None, lastError := Some(error))
    case ScheduleRetry(nextAt, error) =>
      r.(status := Retrying, nextAttemptAt := Some(nextAt), attemptStartedAt := None, lastError := Some(error))
    case MarkCancelRequested(at, user) =>
      r.(cancelRequestedAt := Some(at), cancelledBy := user)
    case MarkCancelled(at, user) =>
      r.(status := Cancelled, cancelledAt := Some(at), cancelledBy := user, nextAttemptAt := None,
         attemptStartedAt := None)
    case MarkCancelledAfterSend(error, at) =>
      r.(status := Cancelled, cancelledAt := Some(at), nextAttemptAt := None, attemptStartedAt := None,
         lastError := Some(error))
    case MarkRequeued(at) =>
      r.(status := Queued, attempts := 0, nextAttemptAt := Some(at), attemptStartedAt := None,
         cancelRequestedAt := None, cancelledBy := None, deliveredAt := None, failedAt := None, cancelledAt := None,
         lastError := None)
    case PromoteDue(_) =>
      r.(status := Queued, nextAttemptAt := None)
    case RequeueStale(_, now) =>
      r.(status := Queued, nextAttemptAt := Some(now), attemptStartedAt := None)
  }

  /** chk_deliveries_cancel_request_has_actor */
  predicate HasActor(r: Row) { r.cancelRequestedAt.Some? ==> r.cancelledBy.Some? }

  datatype Outcome = NoRow | Updated(row: Row) | Rejected

  /** One UPDATE ... RETURNING on one row, executed when the database clock reads `wall`. */
  function Write(r: Row, u: Update, wall: Time): Outcome
  {
    if !Matches(r, u) then NoRow
    else
      var r' := Assigned(r, u).(updatedAt := wall);
      if HasActor(r') then Updated(r') else Rejected
  }

  predicate Terminal(s: Status) { s == Delivered || s == Failed || s == Cancelled }

  /** Everything a row is at rest: which stamps it carries in which status, and that its claim
      stamp is never later than its last write. */
  predicate RowOk(r: Row, clock: Time)
  {
    && HasActor(r)
    && r.maxAttempts > 0
    && (r.attemptStartedAt.Some? <==> r.status == Processing)
    && (r.attemptStartedAt.Some? ==> r.attemptStartedAt.value <= r.updatedAt)
    && r.updatedAt <= clock
    && (r.deliveredAt.Some? <==> r.status == Delivered)
    && (r.failedAt.Some? <==> r.status == Failed)
    && (r.cancelledAt.Some? <==> r.status == Cancelled)
    && (r.notification.Some? <==> r.status == Delivered)
    && (r.status == Retrying ==> r.nextAttemptAt.Some?)
    && (r.nextAttemptAt.Some? ==> r.status == Queued || r.status == Retrying)
    && (r.cancelRequestedAt.Some? ==> r.status != Delivered && r.status != Failed)
    && (r.status == Processing ==> r.attempts > 0)
  }

  /** Coherence is kept by every UPDATE, provided a claim is stamped no later than it executes. */
  lemma WriteKeepsRowOk(r: Row, u: Update, wall: Time)
    requires RowOk(r, wall)
    requires u.Claim? ==> u.now <= wall
    ensures Write(r, u, wall).Updated? ==> RowOk(Write(r, u, wall).row, wall)
  {
  }

  /** A new delivery is queued, untried, and can be claimed from its scheduled time on, or at once if it has none. */
  lemma NewRowIsDue(
    org: OrgId, m: Message, maxAttempts: nat, scheduledFor: Option<Time>, now: Time, stamp: Time, wall: Time)
    requires maxAttempts > 0
    ensures var r := NewRow(org, m, maxAttempts, scheduledFor, now);
      && RowOk(r, now) && r.status == Queued && r.attempts == 0 && r.maxAttempts == maxAttempts
      && r.org == org && r.message == m && r.cancelRequestedAt.None? && r.lastError.None?
      && (Write(r, Claim(stamp), wall).Updated? <==>
            stamp >= match scheduledFor case Some(at) => at case None => now)
  {
  }

  /** A claim takes exactly a queued row whose scheduled time and retry time, if it has one, have come. */
  lemma ClaimedExactlyWhenDue(r: Row, now: Time, wall: Time)
    requires RowOk(r, wall)
    ensures Write(r, Claim(now), wall).Updated? <==>
      r.status == Queued && now >= r.scheduledFor && (r.nextAttemptAt.None? || now >= r.nextAttemptAt.value)
  {
  }

  /** An UPDATE that comes before a time: no claim or promotion is stamped with it, and nobody asks for a retry. */
  predicate Before(u: Update, t: Time)
  {
    (u.Claim? ==> u.now < t) && (u.PromoteDue? ==> u.now < t) && !u.MarkRequeued?
  }

  function Hit(r: Row, u: Update, wall: Time): Row
  {
    var o := Write(r, u, wall);
    if o.Updated? then o.row else r
  }

  /** The row after a history of UPDATEs, each with the database's clock. */
  function History(r: Row, us: seq<(Update, Time)>): Row
    decreases us
  {
    if us == [] then r else History(Hit(r, us[0].0, us[0].1), us[1..])
  }

  /** Not in flight, and its scheduled or its retry time is t or later. */
  predicate Waiting(r: Row, t: Time)
  {
    && HasActor(r) && r.status != Processing
    && (r.status == Queued || r.status == Retrying ==>
          r.scheduledFor >= t || (r.nextAttemptAt.Some? && r.nextAttemptAt.value >= t))
  }

  /** Nothing is claimed before its scheduled time, nor before its retry time unless somebody asks for a retry:
      whatever UPDATEs come before then, the delivery is not in flight. */
  lemma {:induction false} NotClaimedBefore(r: Row, us: seq<(Update, Time)>, t: Time)
    requires Waiting(r, t) && forall i :: 0 <= i < |us| ==> Before(us[i].0, t)
    ensures History(r, us).status != Processing && History(r, us).attempts == r.attempts
    decreases us
  {
    if us != [] {
      assert Before(us[0].0, t);
      forall i | 0 <= i < |us[1..]| ensures Before(us[1..][i].0, t) { assert us[1..][i] == us[i + 1]; }
      NotClaimedBefore(Hit(r, us[0].0, us[0].1), us[1..], t);
    }
  }

  /** A row in flight is stale exactly if its claim is older than the cutoff. */
  lemma StaleExactly(r: Row, before: Time, now: Time, wall: Time)
    requires RowOk(r, wall) && r.status == Processing
    ensures Write(r, RequeueStale(before, now), wall).Updated? <==> r.attemptStartedAt.value < before
  {
  }

  /** What an UPDATE leaves in each column: status and counters ... */
  lemma CountersAfter(r: Row, u: Update, wall: Time)
    requires Write(r, u, wall).Updated?
    ensures var r' := Write(r, u, wall).row;
      && r'.org == r.org && r'.message == r.message && r'.maxAttempts == r.maxAttempts
      && r'.scheduledFor == r.scheduledFor && r'.updatedAt == wall
      && r'.attempts == (if u.Claim? then r.attempts + 1 else if u.MarkRequeued? then 0 else r.attempts)
      && (r'.status == Processing <==> u.Claim? || u.MarkCancelRequested?)
      && (r'.status == Delivered <==> u.MarkDelivered?)
      && (r'.status == Failed <==> u.MarkFailed?)
      && (r'.status == Retrying <==> u.ScheduleRetry?)
      && (r'.status == Cancelled <==> u.MarkCancelled? || u.MarkCancelledAfterSend?)
      && (r'.status == Queued <==> u.MarkRequeued? || u.PromoteDue? || u.RequeueStale?)
  {
  }

  /** ... the stamps ... */
  lemma StampsAfter(r: Row, u: Update, wall: Time)
    requires RowOk(r, wall) && Write(r, u, wall).Updated?
    ensures var r' := Write(r, u, wall).row;
      && r'.deliveredAt == (if u.MarkDelivered? then Some(u.at) else None)
      && r'.failedAt == (if u.MarkFailed? then Some(u.at) else None)
      && r'.cancelledAt == (if u.MarkCancelled? || u.MarkCancelledAfterSend? then Some(u.at) else None)
      && r'.attemptStartedAt == (if u.Claim? then Some(u.now)
                                 else if u.MarkCancelRequested? then r.attemptStartedAt else None)
      && r'.notification == (if u.MarkDelivered? then Some(u.notification) else None)
  {
  }

  /** ... the times, the flag and the error. */
  lemma FlagsAfter(r: Row, u: Update, wall: Time)
    requires RowOk(r, wall) && Write(r, u, wall).Updated?
    ensures var r' := Write(r, u, wall).row;
      && r'.nextAttemptAt == (match u
                              case ScheduleRetry(at, _) => Some(at)
                              case MarkRequeued(at) => Some(at)
                              case RequeueStale(_, now) => Some(now)
                              case _ => None)
      && r'.lastError == (if u.MarkFailed? || u.ScheduleRetry? || u.MarkCancelledAfterSend? then Some(u.error)
                          else if u.Claim? || u.MarkDelivered? || u.MarkRequeued? then None else r.lastError)
    ensures var r' := Write(r, u, wall).row;
      && r'.cancelRequestedAt == (if u.MarkCancelRequested? then Some(u.at)
                                  else if u.MarkDelivered? || u.MarkFailed? || u.MarkRequeued? then None
                                  else r.cancelRequestedAt)
      && r'.cancelledBy == (if u.MarkCancelRequested? || u.MarkCancelled? then u.user
                            else if u.MarkDelivered? || u.MarkFailed? || u.MarkRequeued? then None else r.cancelledBy)
  {
  }

  /** Which UPDATEs a coherent row is open to, status by status. */
  lemma OpenTo(r: Row, u: Update, wall: Time)
    requires RowOk(r, wall) && !Write(r, u, wall).NoRow?
    ensures match r.status
      case Queued => u.Claim? || u.MarkCancelled?
      case Processing =>
        || u.MarkDelivered? || u.MarkFailed? || u.ScheduleRetry? || u.RequeueStale?
        || (if r.cancelRequestedAt.Some? then u.MarkCancelledAfterSend? else u.MarkCancelRequested?)
      case Retrying => u.MarkCancelled? || (u.PromoteDue? && u.now >= r.nextAttemptAt.value)
      case Failed => u.MarkRequeued?
      case Cancelled => u.MarkRequeued?
      case Delivered => false
  {
  }

  /** And for those that look at nothing else, it suffices. */
  lemma AlwaysOpenTo(r: Row, u: Update, wall: Time)
    requires RowOk(r, wall)
    ensures r.status == Processing && (u.MarkDelivered? || u.MarkFailed? || u.ScheduleRetry?) ==>
      Write(r, u, wall).Updated?
    ensures r.status == Processing && r.cancelRequestedAt.Some? && u.MarkCancelledAfterSend? ==>
      Write(r, u, wall).Updated?
    ensures r.status == Processing && r.cancelRequestedAt.None? && u.MarkCancelRequested? && u.user.Some? ==>
      Write(r, u, wall).Updated?
    ensures (r.status == Queued || r.status == Retrying) && u.MarkCancelled? && u.user.Some? ==>
      Write(r, u, wall).Updated?
    ensures r.status == Retrying && u.PromoteDue? && u.now >= r.nextAttemptAt.value ==> Write(r, u, wall).Updated?
    ensures (r.status == Failed || r.status == Cancelled) && u.MarkRequeued? ==> Write(r, u, wall).Updated?
  {
  }

  /** A delivery is done exactly if nothing but a manual retry can still change it. */
  lemma TerminalExactly(r: Row, wall: Time)
    requires RowOk(r, wall)
    ensures Terminal(r.status) <==> forall u: Update :: !u.MarkRequeued? ==> Write(r, u, wall).NoRow?
  {
    if Terminal(r.status) {
      forall u: Update | !u.MarkRequeued? ensures Write(r, u, wall).NoRow? {
        if !Write(r, u, wall).NoRow? { OpenTo(r, u, wall); }
      }
    } else {
      var u := if r.status == Processing then MarkDelivered(0, 0) else MarkCancelled(0, Some(0));
      AlwaysOpenTo(r, u, wall);
      assert !Write(r, u, wall).NoRow?;
    }
  }

  /** The statuses an UPDATE can leave and enter: the documented machine, with recovery and the cancelling of a
      queued row, which the documentation leaves out. */
  predicate Edge(a: Status, b: Status)
  {
    match a
    case Queued => b == Processing || b == Cancelled
    case Processing => b == Delivered || b == Failed || b == Retrying || b == Cancelled || b == Queued
    case Retrying => b == Queued || b == Cancelled
    case Failed => b == Queued
    case Cancelled => b == Queued
    case Delivered => false
  }

  /** An edge is exactly a status change some UPDATE makes on some coherent row. */
  lemma EdgesAreRealised(a: Status, b: Status)
    ensures Edge(a, b) <==>
            exists r: Row, u: Update, wall: Time ::
              RowOk(r, wall) && r.status == a != b && Write(r, u, wall).Updated? && Write(r, u, wall).row.status == b
  {
    if Edge(a, b) {
      var m := Message(None, "s", "b", None, None, None);
      var flagged := a == Processing && b == Cancelled;
      var r := Row(0, m, 1, 0, a, 1, if a == Retrying then Some(0) else None, if a == Processing then Some(0) else None,
                   if flagged then Some(0) else None, if flagged then Some(0) else None, None,
                   None, None, if a == Failed then Some(0) else None,
                   if a == Cancelled then Some(0) else None, 0);
      var u := match (a, b)
        case (Queued, Processing) => Claim(0)
        case (Processing, Delivered) => MarkDelivered(0, 0)
        case (Processing, Failed) => MarkFailed("", 0)
        case (Processing, Retrying) => ScheduleRetry(0, "")
        case (Processing, Cancelled) => MarkCancelledAfterSend("", 0)
        case (Processing, _) => RequeueStale(1, 0)
        case (Retrying, Queued) => PromoteDue(0)
        case (Failed, _) => MarkRequeued(0)
        case (Cancelled, _) => MarkRequeued(0)
        case _ => MarkCancelled(0, None);
      assert RowOk(r, 0) && Write(r, u, 0).Updated? && Write(r, u, 0).row.status == b;
    }
  }

  /** A cancel request survives every UPDATE except delivery, failure and manual retry. */
  lemma CancelRequestIsSticky(r: Row, u: Update, wall: Time)
    requires r.cancelRequestedAt.Some? && Write(r, u, wall).Updated?
    ensures Write(r, u, wall).row.cancelRequestedAt ==
            (if u.MarkDelivered? || u.MarkFailed? || u.MarkRequeued? then None else r.cancelRequestedAt)
  {
  }

  /** The CHECK constraint turns an UPDATE away exactly when a cancel names nobody and the row
      is, or thereby becomes, flagged. */
  lemma RejectedExactly(r: Row, u: Update, wall: Time)
    requires RowOk(r, wall)
    ensures Write(r, u, wall).Rejected? <==>
            || (u.MarkCancelRequested? && u.user.None? && r.status == Processing && r.cancelRequestedAt.None?)
            || (u.MarkCancelled? && u.user.None? && (r.status == Queued || r.status == Retrying)
                && r.cancelRequestedAt.Some?)
  {
  }
}
