/** The repository itself: a table of rows and the statements that change it in place. */
module DeliveryStore {
  import opened Base
  import opened DeliveryRows

  /** What one UPDATE addressed to (organization, id) answers. */
  function Answer(rows: map<DeliveryId, Row>, org: OrgId, id: DeliveryId, u: Update, wall: Time): Outcome
  {
    if id in rows && rows[id].org == org then Write(rows[id], u, wall) else NoRow
  }

  function Stored(rows: map<DeliveryId, Row>, id: DeliveryId, o: Outcome): map<DeliveryId, Row>
  {
    if o.Updated? then rows[id := o.row] else rows
  }

  /** Another organization's call, or one for a row that is not there, changes nothing; its own does what the
      UPDATE does to that row, and nothing to any other. */
  lemma OwnRowsOnly(
    rows: map<DeliveryId, Row>, org: OrgId, id: DeliveryId, u: Update, wall: Time, other: DeliveryId)
    ensures id !in rows || rows[id].org != org ==> Stored(rows, id, Answer(rows, org, id, u, wall)) == rows
    ensures other in rows && other != id ==>
      var rows' := Stored(rows, id, Answer(rows, org, id, u, wall)); other in rows' && rows'[other] == rows[other]
    ensures id in rows && rows[id].org == org && Write(rows[id], u, wall).Updated? ==>
      Stored(rows, id, Answer(rows, org, id, u, wall))[id] == Write(rows[id], u, wall).row
    ensures Stored(rows, id, Answer(rows, org, id, u, wall)).Keys == rows.Keys
  {
  }

  class DeliveryRepository {
    var rows: map<DeliveryId, Row>

    /** The CHECK constraint holds of every stored row. */
    ghost predicate Valid()
      reads this
    {
      forall id :: id in rows ==> HasActor(rows[id])
    }

    constructor ()
      ensures Valid() && rows == map[]
    {
      rows := map[];
    }

    /** The trigger and the constraint every UPDATE goes through. */
    method Save(id: DeliveryId, r: Row, wall: Time) returns (o: Outcome)
      requires Valid()
      modifies this
      ensures Valid()
      ensures o == (if HasActor(r) then Updated(r.(updatedAt := wall)) else Rejected)
      ensures rows == Stored(old(rows), id, o)
    {
      if r.cancelRequestedAt.Some? && r.cancelledBy.None? { return Rejected; }
      var stamped := r.(updatedAt := wall);
      rows := rows[id := stamped];
      o := Updated(stamped);
    }

    method Claim(org: OrgId, id: DeliveryId, now: Time, wall: Time) returns (o: Outcome)
      requires Valid()
      modifies this
      ensures Valid() && o == Answer(old(rows), org, id, Update.Claim(now), wall) && rows == Stored(old(rows), id, o)
    {
      if id !in rows { return NoRow; }
      var r := rows[id];
      if r.org != org || r.status != Queued || r.scheduledFor > now { return NoRow; }
      if r.nextAttemptAt.Some? && r.nextAttemptAt.value > now { return NoRow; }
      o := Save(id, r.(status := Processing, attempts := r.attempts + 1, nextAttemptAt := None,
                       attemptStartedAt := Some(now), lastError := None), wall);
    }

    method MarkDelivered(org: OrgId, id: DeliveryId, notification: nat, at: Time, wall: Time) returns (o: Outcome)
      requires Valid()
      modifies this
      ensures Valid() && o == Answer(old(rows), org, id, Update.MarkDelivered(notification, at), wall)
      ensures rows == Stored(old(rows), id, o)
    {
      if id !in rows { return NoRow; }
      var r := rows[id];
      if r.org != org || r.status != Processing { return NoRow; }
      o := Save(id, r.(status := Delivered, deliveredAt := Some(at), nextAttemptAt := None, attemptStartedAt := None,
                       cancelRequestedAt := None, cancelledBy := None, lastError := None,
                       notification := Some(notification)), wall);
    }

    method MarkFailed(org: OrgId, id: DeliveryId, error: string, at: Time, wall: Time) returns (o: Outcome)
      requires Valid()
      modifies this
      ensures Valid() && o == Answer(old(rows), org, id, Update.MarkFailed(error, at), wall)
      ensures rows == Stored(old(rows), id, o)
    {
      if id !in rows { return NoRow; }
      var r := rows[id];
      if r.org != org || r.status != Processing { return NoRow; }
      o := Save(id, r.(status := Failed, failedAt := Some(at), nextAttemptAt := None, attemptStartedAt := None,
                       cancelRequestedAt := None, cancelledBy := None, lastError := Some(error)), wall);
    }

    method ScheduleRetry(org: OrgId, id: DeliveryId, nextAt: Time, error: string, wall: Time) returns (o: Outcome)
      requires Valid()
      modifies this
      ensures Valid() && o == Answer(old(rows), org, id, Update.ScheduleRetry(nextAt, error), wall)
      ensures rows == Stored(old(rows), id, o)
    {
      if id !in rows { return NoRow; }
      var r := rows[id];
      if r.org != org || r.status != Processing { return NoRow; }
      o := Save(id, r.(status := Retrying, nextAttemptAt := Some(nextAt), attemptStartedAt := None,
                       lastError := Some(error)), wall);
    }

    method MarkCancelRequested(org: OrgId, id: DeliveryId, at: Time, user: Option<UserId>, wall: Time)
      returns (o: Outcome)
      requires Valid()
      modifies this
      ensures Valid() && o == Answer(old(rows), org, id, Update.MarkCancelRequested(at, user), wall)
      ensures rows == Stored(old(rows), id, o)
    {
      if id !in rows { return NoRow; }
      var r := rows[id];
      if r.org != org || r.status != Processing || r.cancelRequestedAt.Some? { return NoRow; }
      o := Save(id, r.(cancelRequestedAt := Some(at), cancelledBy := user), wall);
    }

    method MarkCancelled(org: OrgId, id: DeliveryId, at: Time, user: Option<UserId>, wall: Time) returns (o: Outcome)
      requires Valid()
      modifies this
      ensures Valid() && o == Answer(old(rows), org, id, Update.MarkCancelled(at, user), wall)
      ensures rows == Stored(old(rows), id, o)
    {
      if id !in rows { return NoRow; }
      var r := rows[id];
      if r.org != org || (r.status != Queued && r.status != Retrying) { return NoRow; }
      o := Save(id, r.(status := Cancelled, cancelledAt := Some(at), cancelledBy := user, nextAttemptAt := None,
                       attemptStartedAt := None), wall);
    }

    method MarkCancelledAfterSend(org: OrgId, id: DeliveryId, error: string, at: Time, wall: Time)
      returns (o: Outcome)
      requires Valid()
      modifies this
      ensures Valid() && o == Answer(old(rows), org, id, Update.MarkCancelledAfterSend(error, at), wall)
      ensures rows == Stored(old(rows), id, o)
    {
      if id !in rows { return NoRow; }
      var r := rows[id];
      if r.org != org || r.status != Processing || r.cancelRequestedAt.None? { return NoRow; }
      o := Save(id, r.(status := Cancelled, cancelledAt := Some(at), nextAttemptAt := None, attemptStartedAt := None,
                       lastError := Some(error)), wall);
    }

    method MarkRequeued(org: OrgId, id: DeliveryId, at: Time, wall: Time) returns (o: Outcome)
      requires Valid()
      modifies this
      ensures Valid() && o == Answer(old(rows), org, id, Update.MarkRequeued(at), wall)
      ensures rows == Stored(old(rows), id, o)
    {
      if id !in rows { return NoRow; }
      var r := rows[id];
      if r.org != org || (r.status != Failed && r.status != Cancelled) { return NoRow; }
      o := Save(id, r.(status := Queued, attempts := 0, nextAttemptAt := Some(at), attemptStartedAt := None,
                       cancelRequestedAt := None, cancelledBy := None, deliveredAt := None, failedAt := None,
                       cancelledAt := None, lastError := None), wall);
    }

    method RequeueStale(org: OrgId, id: DeliveryId, before: Time, now: Time, wall: Time) returns (o: Outcome)
      requires Valid()
      modifies this
      ensures Valid() && o == Answer(old(rows), org, id, Update.RequeueStale(before, now), wall)
      ensures rows == Stored(old(rows), id, o)
    {
      if id !in rows { return NoRow; }
      var r := rows[id];
      if r.org != org || r.status != Processing || !Stale(r, before) { return NoRow; }
      o := Save(id, r.(status := Queued, nextAttemptAt := Some(now), attemptStartedAt := None), wall);
    }

    /** The bulk promotion is the one-row promotion applied to every row at once; `limit` plays no part. */
    method RequeueDueRetrying(limit: nat, now: Time, wall: Time) returns (count: nat)
      requires Valid()
      modifies this
      ensures Valid() && rows.Keys == old(rows).Keys
      ensures forall id :: id in rows ==>
                var o := Write(old(rows)[id], PromoteDue(now), wall);
                rows[id] == if o.Updated? then o.row else old(rows)[id]
      ensures count == |set id | id in old(rows) && Matches(old(rows)[id], PromoteDue(now))|
    {
      var due := set id | id in rows && Matches(rows[id], PromoteDue(now));
      rows := map id | id in rows ::
        if id in due then rows[id].(status := Queued, nextAttemptAt := None, updatedAt := wall) else rows[id];
      count := |due|;
    }

    method CountPending(org: OrgId) returns (count: nat)
      ensures count == |set id | id in rows && rows[id].org == org && !Terminal(rows[id].status)|
    {
      var pending := set id | id in rows && rows[id].org == org && rows[id].status in {Queued, Processing, Retrying};
      assert pending == set id | id in rows && rows[id].org == org && !Terminal(rows[id].status);
      count := |pending|;
    }

    ghost function StaleIds(before: Time): set<DeliveryId>
      reads this
    {
      set id | id in rows && rows[id].status == Processing && Stale(rows[id], before)
    }

    /** The stale PROCESSING rows, least recently written first. */
    method ListStaleProcessing(before: Time, limit: nat) returns (ids: seq<DeliveryId>)
      ensures IsOldestFirst(StaleIds(before), (id: DeliveryId) => WrittenAt(old(rows), id), limit, ids)
    {
      var table := rows;
      var stale := set id | id in rows && rows[id].status == Processing && Stale(rows[id], before);
      ids := OldestFirst(stale, (id: DeliveryId) => WrittenAt(table, id), limit);
    }

    /** Requeues the 500 least recently written stale rows and nothing else; below 500, none is left stale. */
    method ReleaseStaleProcessing(before: Time, now: Time, wall: Time)
      returns (requeued: nat, ghost ids: seq<DeliveryId>)
      requires Valid()
      modifies this
      ensures Valid() && requeued == |ids|
      ensures IsOldestFirst(old(StaleIds(before)), (id: DeliveryId) => WrittenAt(old(rows), id), 500, ids)
      ensures rows == Released(old(rows), ids, before, now, wall)
      ensures requeued < 500 ==> StaleIds(before) == {}
    {
      var stale := ListStaleProcessing(before, 500);
      ids, requeued := stale, 0;
      ghost var table := rows;
      assert Released(table, stale[..0], before, now, wall) == table;
      for i := 0 to |stale|
        invariant Valid() && requeued == i
        invariant rows == Released(table, stale[..i], before, now, wall)
      {
        ReleasedOneMore(table, stale, i, before, now, wall);
        var o := RequeueStale(rows[stale[i]].org, stale[i], before, now, wall);
        if o.Updated? { requeued := requeued + 1; }
      }
      assert stale[..|stale|] == stale;
      if requeued < 500 {
        AllTaken(old(StaleIds(before)), stale);
        NoneLeftStale(table, stale, before, now, wall);
      }
    }
  }

  function WrittenAt(rows: map<DeliveryId, Row>, id: DeliveryId): Time { if id in rows then rows[id].updatedAt else 0 }

  /** The table once the given stale rows are back in the queue. */
  function Released(rows: map<DeliveryId, Row>, ids: seq<DeliveryId>, before: Time, now: Time, wall: Time)
    : map<DeliveryId, Row>
  {
    map id | id in rows ::
      var o := Write(rows[id], RequeueStale(before, now), wall);
      if id in ids && o.Updated? then o.row else rows[id]
  }

  lemma NoneLeftStale(
    rows: map<DeliveryId, Row>, ids: seq<DeliveryId>, before: Time, now: Time, wall: Time)
    requires forall id :: id in rows ==> HasActor(rows[id])
    requires forall id :: id in rows && rows[id].status == Processing && Stale(rows[id], before) ==> id in ids
    ensures var rows' := Released(rows, ids, before, now, wall);
      forall id :: id in rows' ==> !(rows'[id].status == Processing && Stale(rows'[id], before))
  {
  }

  lemma ReleasedOneMore(
    rows: map<DeliveryId, Row>, ids: seq<DeliveryId>, i: nat, before: Time, now: Time, wall: Time)
    requires i < |ids| && ids[i] in rows && ids[i] !in ids[..i]
    ensures var done := Released(rows, ids[..i], before, now, wall);
      && done[ids[i]] == rows[ids[i]]
      && Released(rows, ids[..i + 1], before, now, wall) ==
           Stored(done, ids[i], Write(rows[ids[i]], RequeueStale(before, now), wall))
  {
    assert ids[..i + 1] == ids[..i] + [ids[i]];
  }
}
