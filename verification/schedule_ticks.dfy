/** Cron ticks: finding the latest one at or before now, and reserving it so that it is dispatched once. */
module ScheduleTicks {
  import opened Base

  type TriggerId = nat

  // ---- The latest tick --------------------------------------------------------------------

  /** A calendar day; `weekday` counts from Sunday. */
  datatype Day = Day(day: nat, month: nat, weekday: nat)

  /** A parsed five-field expression; None is a wildcard. */
  datatype Cron = Cron(minutes: Option<set<int>>, hours: Option<set<int>>, days: Option<set<nat>>,
                       months: Option<set<nat>>, weekdays: Option<set<nat>>)

  const MINUTES_PER_DAY := 1440
  const LOOKBACK_DAYS := 1462

  predicate MatchesMinute(c: Cron, minuteOfDay: int)
  {
    && (c.hours.Some? ==> minuteOfDay / 60 in c.hours.value)
    && (c.minutes.Some? ==> minuteOfDay % 60 in c.minutes.value)
  }

  /** When both day fields are restricted either may match; otherwise the restricted one governs. */
  predicate DayMatches(c: Cron, d: Day)
  {
    && (c.months.Some? ==> d.month in c.months.value)
    && (if c.days.Some? && c.weekdays.Some?
        then d.day in c.days.value || d.weekday in c.weekdays.value
        else (c.days.Some? ==> d.day in c.days.value) && (c.weekdays.Some? ==> d.weekday in c.weekdays.value))
  }

  /** Whether the expression fires at a minute, counted from some midnight. */
  predicate Fires(c: Cron, calendar: int -> Day, minute: int)
  {
    MatchesMinute(c, minute % MINUTES_PER_DAY) && DayMatches(c, calendar(minute / MINUTES_PER_DAY))
  }

  lemma WithinDay(day: int, m: int)
    requires 0 <= m < MINUTES_PER_DAY
    ensures (day * MINUTES_PER_DAY + m) / MINUTES_PER_DAY == day
    ensures (day * MINUTES_PER_DAY + m) % MINUTES_PER_DAY == m
  {
  }

  /** Nothing fires on a day that does not match. */
  lemma IdleDay(c: Cron, calendar: int -> Day, day: int)
    requires !DayMatches(c, calendar(day))
    ensures forall m :: day * MINUTES_PER_DAY <= m < (day + 1) * MINUTES_PER_DAY ==> !Fires(c, calendar, m)
  {
    forall m | day * MINUTES_PER_DAY <= m < (day + 1) * MINUTES_PER_DAY ensures !Fires(c, calendar, m) {
      WithinDay(day, m - day * MINUTES_PER_DAY);
    }
  }

  /** A field admits a value if it is a wildcard or lists it. */
  predicate Admits<T(==)>(field: Option<set<T>>, value: T) { field.Some? ==> value in field.value }

  /** An expression fires at an hour and minute of a day exactly if its hour field admits the hour, its minute field
      the minute, its month field the month, and its day fields the day: both, or either if both are lists. */
  lemma FiresExactly(c: Cron, calendar: int -> Day, day: int, h: int, m: int)
    requires 0 <= h < 24 && 0 <= m < 60
    ensures Fires(c, calendar, day * 1440 + 60 * h + m) <==>
      && Admits(c.hours, h) && Admits(c.minutes, m) && Admits(c.months, calendar(day).month)
      && (if c.days.Some? && c.weekdays.Some?
          then Admits(c.days, calendar(day).day) || Admits(c.weekdays, calendar(day).weekday)
          else Admits(c.days, calendar(day).day) && Admits(c.weekdays, calendar(day).weekday))
  {
    WithinDay(day, 60 * h + m);
  }

  /** Once a day, at an hour and minute. */
  function Daily(h: int, m: int): Cron { Cron(Some({m}), Some({h}), None, None, None) }

  lemma FieldsOfMinute(minute: int) returns (day: int, h: int, m: int)
    ensures minute == day * 1440 + 60 * h + m && 0 <= h < 24 && 0 <= m < 60
  {
    day, h, m := minute / 1440, minute % 1440 / 60, minute % 60;
    assert minute % 1440 % 60 == minute % 60;
  }

  /** The minutes from a daily time up to the next do not fire. */
  lemma DailyIsQuiet(calendar: int -> Day, h: int, m: int, day: int, minute: int)
    requires 0 <= h < 24 && 0 <= m < 60
    requires day * 1440 + 60 * h + m < minute < (day + 1) * 1440 + 60 * h + m
    ensures !Fires(Daily(h, m), calendar, minute)
  {
    var d, h', m' := FieldsOfMinute(minute);
    FiresExactly(Daily(h, m), calendar, d, h', m');
  }

  /** The latest firing minute at or before now; None if there is none in the lookback. */
  ghost predicate IsPrevious(c: Cron, calendar: int -> Day, now: int, fire: Option<int>)
  {
    match fire
    case Some(minute) =>
      minute <= now && Fires(c, calendar, minute) && forall m :: minute < m <= now ==> !Fires(c, calendar, m)
    case None =>
      forall m :: (now / MINUTES_PER_DAY - LOOKBACK_DAYS) * MINUTES_PER_DAY <= m <= now ==> !Fires(c, calendar, m)
  }

  /** An expression that fired at any time in the last four years, leap day included, is not taken for one that
      never does. */
  lemma FiredIsFound(c: Cron, calendar: int -> Day, now: int, fire: Option<int>, minute: int)
    requires IsPrevious(c, calendar, now, fire) && Fires(c, calendar, minute)
    requires now - 1461 * 1440 <= minute <= now
    ensures fire.Some? && minute <= fire.value <= now
  {
    assert (now / 1440 - 1462) * 1440 <= minute;
  }

  /** For a daily time it is today's if that has come, and yesterday's otherwise. */
  lemma PreviousDaily(calendar: int -> Day, h: int, m: int, now: int, fire: Option<int>)
    requires 0 <= h < 24 && 0 <= m < 60 && IsPrevious(Daily(h, m), calendar, now, fire)
    ensures var today := now / 1440 * 1440 + 60 * h + m;
      fire == Some(if today <= now then today else today - 1440)
  {
    var day := if now / 1440 * 1440 + 60 * h + m <= now then now / 1440 else now / 1440 - 1;
    var at := day * 1440 + 60 * h + m;
    FiresExactly(Daily(h, m), calendar, day, h, m);
    assert at <= now < at + 1440;
    if fire.Some? && fire.value < at { assert false; }
    if fire.Some? && fire.value > at { DailyIsQuiet(calendar, h, m, day, fire.value); }
  }

  /** Walks the current day back minute by minute, then whole earlier days, skipping those that do not
      match: finds the latest firing minute at or before `now`, or shows there is none in the lookback. */
  method PreviousFire(c: Cron, calendar: int -> Day, now: int) returns (fire: Option<int>)
    ensures IsPrevious(c, calendar, now, fire)
  {
    var day := now / MINUTES_PER_DAY;
    var cursor := now;
    while cursor >= day * MINUTES_PER_DAY
      invariant day * MINUTES_PER_DAY - 1 <= cursor <= now
      invariant forall m :: cursor < m <= now ==> !Fires(c, calendar, m)
    {
      WithinDay(day, cursor - day * MINUTES_PER_DAY);
      if MatchesMinute(c, cursor - day * MINUTES_PER_DAY) && DayMatches(c, calendar(day)) { return Some(cursor); }
      cursor := cursor - 1;
    }
    for i := 0 to LOOKBACK_DAYS
      invariant day == now / MINUTES_PER_DAY - i
      invariant forall m :: day * MINUTES_PER_DAY <= m <= now ==> !Fires(c, calendar, m)
    {
      day := day - 1;
      if DayMatches(c, calendar(day)) {
        var minute := MINUTES_PER_DAY - 1;
        while minute >= 0
          invariant -1 <= minute < MINUTES_PER_DAY
          invariant forall m :: day * MINUTES_PER_DAY + minute < m <= now ==> !Fires(c, calendar, m)
        {
          WithinDay(day, minute);
          if MatchesMinute(c, minute) { return Some(day * MINUTES_PER_DAY + minute); }
          minute := minute - 1;
        }
      } else {
        IdleDay(c, calendar, day);
      }
    }
    fire := None;
  }

  // ---- Reserving a tick -------------------------------------------------------------------

  /** One worker's call: the tick it computed, and what its clock read. */
  datatype Call = Call(fire: Time, now: Time)

  predicate Wins(last: Option<Time>, c: Call) { last.None? || last.value < c.fire }

  function Reserved(last: Option<Time>, c: Call): Option<Time> { if Wins(last, c) then Some(c.now) else last }

  /** The calls that win, in the order the database executes them. */
  function Winners(last: Option<Time>, calls: seq<Call>): seq<Call>
    decreases calls
  {
    if calls == [] then []
    else (if Wins(last, calls[0]) then [calls[0]] else []) + Winners(Reserved(last, calls[0]), calls[1..])
  }

  predicate Sane(calls: seq<Call>) { forall i :: 0 <= i < |calls| ==> calls[i].fire <= calls[i].now }

  /** Each winner's clock reads strictly before the next winner's tick. */
  predicate Separated(last: Option<Time>, ws: seq<Call>)
    decreases ws
  {
    ws == [] ||
    ((last.Some? ==> last.value < ws[0].fire) && ws[0].fire <= ws[0].now && Separated(Some(ws[0].now), ws[1..]))
  }

  lemma {:induction false} WinnersSeparated(last: Option<Time>, calls: seq<Call>)
    requires Sane(calls)
    ensures Separated(last, Winners(last, calls))
    decreases calls
  {
    if calls != [] {
      var rest := Winners(Reserved(last, calls[0]), calls[1..]);
      WinnersSeparated(Reserved(last, calls[0]), calls[1..]);
      if Wins(last, calls[0]) { assert ([calls[0]] + rest)[1..] == rest; }
      else { assert [] + rest == rest; }
    }
  }

  lemma {:induction false} SeparatedPairs(last: Option<Time>, ws: seq<Call>, i: nat, j: nat)
    requires Separated(last, ws) && i < j < |ws|
    ensures ws[i].fire <= ws[i].now < ws[j].fire <= ws[j].now
    decreases j
  {
    if i > 0 { SeparatedPairs(Some(ws[0].now), ws[1..], i - 1, j - 1); }
    else if j > 1 {
      SeparatedPairs(Some(ws[0].now), ws[1..], 0, j - 1);
    }
  }

  /** However many workers race and however their clocks disagree, the ticks won and the stored stamps
      are strictly increasing: no tick is ever won twice. */
  lemma NoTickTwice(last: Option<Time>, calls: seq<Call>, i: nat, j: nat)
    requires Sane(calls) && i < j < |Winners(last, calls)|
    ensures Winners(last, calls)[i].fire < Winners(last, calls)[j].fire
    ensures Winners(last, calls)[i].now < Winners(last, calls)[j].now
  {
    WinnersSeparated(last, calls);
    SeparatedPairs(last, Winners(last, calls), i, j);
  }

  ghost predicate IsLatestTick(tick: Time -> bool, now: Time, fire: Time)
  {
    tick(fire) && fire <= now && forall t :: fire < t <= now ==> !tick(t)
  }

  /** Every call computes the latest tick on one clock, and calls reach the database in clock order. */
  ghost predicate InOrder(tick: Time -> bool, calls: seq<Call>)
  {
    && (forall i :: 0 <= i < |calls| ==> IsLatestTick(tick, calls[i].now, calls[i].fire))
    && (forall i, j :: 0 <= i < j < |calls| ==> calls[i].now <= calls[j].now)
  }

  /** The ticks the calls computed, each listed once. */
  function Distinct(calls: seq<Call>): seq<Time>
  {
    if calls == [] then []
    else
      var front, last := calls[..|calls| - 1], calls[|calls| - 1];
      if exists i :: 0 <= i < |front| && front[i].fire == last.fire then Distinct(front)
      else Distinct(front) + [last.fire]
  }

  function Ticks(ws: seq<Call>): seq<Time> { seq(|ws|, i requires 0 <= i < |ws| => ws[i].fire) }

  lemma {:induction false} WinnersAppend(last: Option<Time>, calls: seq<Call>, c: Call)
    ensures Winners(last, calls + [c]) ==
            Winners(last, calls) + (if Wins(LastOf(last, calls), c) then [c] else [])
    ensures LastOf(last, calls + [c]) == Reserved(LastOf(last, calls), c)
    decreases calls
  {
    if calls == [] {
      assert [c][1..] == [];
    } else {
      assert (calls + [c])[1..] == calls[1..] + [c];
      WinnersAppend(Reserved(last, calls[0]), calls[1..], c);
    }
  }

  function LastOf(last: Option<Time>, calls: seq<Call>): Option<Time>
    decreases calls
  {
    if calls == [] then last else LastOf(Reserved(last, calls[0]), calls[1..])
  }

  /** Every call computes the latest tick on its own clock. */
  ghost predicate Latest(tick: Time -> bool, calls: seq<Call>)
  {
    forall i :: 0 <= i < |calls| ==> IsLatestTick(tick, calls[i].now, calls[i].fire)
  }

  predicate IsNew(calls: seq<Call>, fire: Time) { forall j :: 0 <= j < |calls| ==> calls[j].fire != fire }

  predicate IsAhead(calls: seq<Call>, fire: Time) { forall j :: 0 <= j < |calls| ==> calls[j].fire < fire }

  /** Each tick, when a call first brings it, is later than every tick brought before. */
  predicate FirstSeenInOrder(calls: seq<Call>)
  {
    forall i :: 0 <= i < |calls| && IsNew(calls[..i], calls[i].fire) ==> IsAhead(calls[..i], calls[i].fire)
  }

  /** The stored stamp is the reading of a call with the latest tick so far. */
  ghost predicate Tops(calls: seq<Call>, last: Option<Time>)
  {
    if calls == [] then last.None?
    else exists i :: 0 <= i < |calls| && last == Some(calls[i].now)
                     && forall j :: 0 <= j < |calls| ==> calls[j].fire <= calls[i].fire
  }

  lemma TicksAppend(ws: seq<Call>, c: Call)
    ensures Ticks(ws + [c]) == Ticks(ws) + [c.fire]
  {
  }

  lemma {:induction false} DistinctAppend(calls: seq<Call>, c: Call)
    ensures Distinct(calls + [c]) ==
      if exists i :: 0 <= i < |calls| && calls[i].fire == c.fire then Distinct(calls) else Distinct(calls) + [c.fire]
  {
    assert (calls + [c])[..|calls|] == calls;
  }

  lemma FirstSeenAppend(calls: seq<Call>, c: Call)
    ensures FirstSeenInOrder(calls + [c]) <==>
      FirstSeenInOrder(calls) && (IsNew(calls, c.fire) ==> IsAhead(calls, c.fire))
  {
    var all := calls + [c];
    assert all[..|calls|] == calls && all[|calls|] == c;
    forall i | 0 <= i < |calls| ensures all[..i] == calls[..i] && all[i] == calls[i] {
    }
    if FirstSeenInOrder(all) {
      forall i | 0 <= i < |calls| && IsNew(calls[..i], calls[i].fire) ensures IsAhead(calls[..i], calls[i].fire) {
        assert IsNew(all[..i], all[i].fire);
      }
    }
  }

  /** A call whose tick is new only if it is ahead: it wins exactly if its tick is new. */
  lemma NextCall(tick: Time -> bool, calls: seq<Call>, c: Call, last: Option<Time>)
    requires Latest(tick, calls) && IsLatestTick(tick, c.now, c.fire) && Tops(calls, last)
    requires IsNew(calls, c.fire) ==> IsAhead(calls, c.fire)
    ensures Wins(last, c) <==> IsNew(calls, c.fire)
    ensures Tops(calls + [c], Reserved(last, c))
  {
    var all := calls + [c];
    assert all[|calls|] == c;
    if calls != [] {
      var i :| 0 <= i < |calls| && last == Some(calls[i].now)
               && forall j :: 0 <= j < |calls| ==> calls[j].fire <= calls[i].fire;
      assert all[i] == calls[i] && IsLatestTick(tick, calls[i].now, calls[i].fire);
      if Wins(last, c) {
        assert Reserved(last, c) == Some(all[|calls|].now);
      } else {
        assert Reserved(last, c) == Some(all[i].now) && c.fire <= calls[i].fire;
      }
    } else {
      assert Reserved(last, c) == Some(all[0].now);
    }
  }

  lemma {:induction false} InOrderWins(tick: Time -> bool, calls: seq<Call>)
    requires Latest(tick, calls) && FirstSeenInOrder(calls)
    ensures Ticks(Winners(None, calls)) == Distinct(calls)
    ensures Tops(calls, LastOf(None, calls))
  {
    if calls != [] {
      var front, c := calls[..|calls| - 1], calls[|calls| - 1];
      assert front + [c] == calls && IsLatestTick(tick, c.now, c.fire);
      FirstSeenAppend(front, c);
      assert Latest(tick, front) by {
        forall i | 0 <= i < |front| ensures IsLatestTick(tick, front[i].now, front[i].fire) {
          assert front[i] == calls[i];
        }
      }
      InOrderWins(tick, front);
      OneMoreCall(tick, front, c);
    }
  }

  lemma {:induction false} OneMoreCall(tick: Time -> bool, calls: seq<Call>, c: Call)
    requires Latest(tick, calls) && IsLatestTick(tick, c.now, c.fire) && Tops(calls, LastOf(None, calls))
    requires IsNew(calls, c.fire) ==> IsAhead(calls, c.fire)
    requires Ticks(Winners(None, calls)) == Distinct(calls)
    ensures Ticks(Winners(None, calls + [c])) == Distinct(calls + [c])
    ensures Tops(calls + [c], LastOf(None, calls + [c]))
  {
    WinnersAppend(None, calls, c);
    NextCall(tick, calls, c, LastOf(None, calls));
    TicksAppend(Winners(None, calls), c);
    DistinctAppend(calls, c);
  }

  predicate Increasing(ts: seq<Time>) { forall i, j :: 0 <= i < j < |ts| ==> ts[i] < ts[j] }

  lemma {:induction false} DistinctHasAll(calls: seq<Call>, i: nat)
    requires i < |calls|
    ensures calls[i].fire in Distinct(calls)
  {
    var front, c := calls[..|calls| - 1], calls[|calls| - 1];
    assert calls == front + [c];
    DistinctAppend(front, c);
    if i < |front| { DistinctHasAll(front, i); }
    else if !IsNew(front, c.fire) {
      var j :| 0 <= j < |front| && front[j].fire == c.fire;
      DistinctHasAll(front, j);
    }
  }

  /** If the distinct ticks increase in order of arrival, each is ahead of all before it. */
  lemma {:induction false} IncreasingIsInOrder(calls: seq<Call>)
    requires Increasing(Distinct(calls))
    ensures FirstSeenInOrder(calls)
  {
    if calls != [] {
      var front, c := calls[..|calls| - 1], calls[|calls| - 1];
      assert front + [c] == calls;
      DistinctAppend(front, c);
      var seen, all := Distinct(front), Distinct(calls);
      assert forall i :: 0 <= i < |seen| ==> all[i] == seen[i];
      IncreasingIsInOrder(front);
      if IsNew(front, c.fire) {
        forall j | 0 <= j < |front| ensures front[j].fire < c.fire {
          DistinctHasAll(front, j);
          var k :| 0 <= k < |seen| && seen[k] == front[j].fire;
          assert all[k] < all[|seen|];
        }
      }
      FirstSeenAppend(front, c);
    }
  }

  /** No computed tick is lost, and none dispatched twice, exactly if ticks first arrive in order: however the
      clocks disagree, the ticks won are the distinct ticks computed precisely then. */
  lemma {:induction false} NoTickLostExactly(tick: Time -> bool, calls: seq<Call>)
    requires Latest(tick, calls)
    ensures Ticks(Winners(None, calls)) == Distinct(calls) <==> FirstSeenInOrder(calls)
  {
    if FirstSeenInOrder(calls) {
      InOrderWins(tick, calls);
    } else if Ticks(Winners(None, calls)) == Distinct(calls) {
      assert Sane(calls);
      var ws := Winners(None, calls);
      forall i, j | 0 <= i < j < |Ticks(ws)| ensures Ticks(ws)[i] < Ticks(ws)[j] { NoTickTwice(None, calls, i, j); }
      IncreasingIsInOrder(calls);
    }
  }

  /** On one clock ticks arrive in order. */
  lemma OneClockIsInOrder(tick: Time -> bool, calls: seq<Call>)
    requires InOrder(tick, calls)
    ensures Latest(tick, calls) && FirstSeenInOrder(calls)
    ensures forall j :: 0 <= j < |calls| ==> calls[j].fire <= calls[|calls| - 1].fire
  {
    forall i, j | 0 <= j <= i < |calls| ensures calls[j].fire <= calls[i].fire {
      assert IsLatestTick(tick, calls[i].now, calls[i].fire) && IsLatestTick(tick, calls[j].now, calls[j].fire);
      assert i == j || calls[j].now <= calls[i].now;
    }
    forall i | 0 <= i < |calls| && IsNew(calls[..i], calls[i].fire) ensures IsAhead(calls[..i], calls[i].fire) {
      forall j | 0 <= j < i ensures calls[..i][j].fire < calls[i].fire { assert calls[..i][j] == calls[j]; }
    }
  }

  /** The stored stamp is the reading of a call with the last call's tick. */
  ghost predicate Caught(calls: seq<Call>, last: Option<Time>)
  {
    if calls == [] then last.None?
    else exists i :: 0 <= i < |calls| && last == Some(calls[i].now) && calls[i].fire == calls[|calls| - 1].fire
  }

  /** On one clock a tick is dispatched, once, exactly if some sweep ran in its interval: the ticks won are
      the ticks computed, each once and in order. */
  lemma {:induction false} DispatchedExactlyOnce(tick: Time -> bool, calls: seq<Call>)
    requires InOrder(tick, calls)
    ensures Ticks(Winners(None, calls)) == Distinct(calls)
    ensures Caught(calls, LastOf(None, calls))
  {
    OneClockIsInOrder(tick, calls);
    InOrderWins(tick, calls);
    if calls != [] {
      var i :| 0 <= i < |calls| && LastOf(None, calls) == Some(calls[i].now)
               && forall j :: 0 <= j < |calls| ==> calls[j].fire <= calls[i].fire;
      assert calls[|calls| - 1].fire <= calls[i].fire;
    }
  }

  /** Such a loss: the call for a later tick reaches the database first, and the earlier tick, which nobody
      dispatched, is gone. */
  lemma LateCallLosesItsTick(early: Call, late: Call)
    requires early.fire <= early.now < late.fire <= late.now
    ensures Ticks(Winners(None, [late, early])) == [late.fire]
    ensures Ticks(Winners(None, [early, late])) == [early.fire, late.fire]
  {
    WinnersAppend(None, [], late);
    WinnersAppend(None, [], early);
    assert [] + [late] == [late] && [] + [early] == [early];
    WinnersAppend(None, [late], early);
    WinnersAppend(None, [early], late);
    assert [late] + [early] == [late, early] && [early] + [late] == [early, late];
  }

  // ---- The dispatcher ---------------------------------------------------------------------

  datatype Queued = Queued(trigger: TriggerId, scheduledAt: Time)

  datatype Outcome = NotDue | NeverFires | Conflict | QueueFailed | Dispatched(fire: Time)

  /** Per trigger the queued executions carry strictly increasing ticks, none after the stored stamp. */
  predicate Ordered(lastFired: map<TriggerId, Option<Time>>, executions: seq<Queued>)
  {
    && (forall i :: 0 <= i < |executions| ==> Stamped(lastFired, executions[i]))
    && (forall i, j :: 0 <= i < j < |executions| && executions[i].trigger == executions[j].trigger ==>
          executions[i].scheduledAt < executions[j].scheduledAt)
  }

  predicate Stamped(lastFired: map<TriggerId, Option<Time>>, q: Queued)
  {
    q.trigger in lastFired && lastFired[q.trigger].Some? && q.scheduledAt <= lastFired[q.trigger].value
  }

  lemma WinnerKeepsOrder(
    lastFired: map<TriggerId, Option<Time>>, executions: seq<Queued>, trigger: TriggerId, c: Call)
    requires Ordered(lastFired, executions) && trigger in lastFired && Wins(lastFired[trigger], c) && c.fire <= c.now
    ensures Ordered(lastFired[trigger := Some(c.now)], executions + [Queued(trigger, c.fire)])
  {
    forall i | 0 <= i < |executions|
      ensures Stamped(lastFired[trigger := Some(c.now)], executions[i])
      ensures executions[i].trigger == trigger ==> executions[i].scheduledAt < c.fire
    {
      assert Stamped(lastFired, executions[i]);
    }
  }

  /** The latest firing minute at or before now, as a time. */
  predicate IsDueTick(c: Cron, calendar: int -> Day, now: Time, fire: Time)
  {
    && fire <= now && fire % 60 == 0 && Fires(c, calendar, fire / 60)
    && (forall m :: fire / 60 < m <= now / 60 ==> !Fires(c, calendar, m))
  }

  /** What a worker whose listing read `listed` makes of a tick, given the stamp now stored. */
  function Decide(stored: Option<Option<Time>>, listed: Option<Time>, c: Call, queueOk: bool): Outcome
  {
    if listed.Some? && listed.value >= c.fire then NotDue
    else if stored.None? || !Wins(stored.value, c) then Conflict
    else if queueOk then Dispatched(c.fire)
    else QueueFailed
  }

  lemma SecondsToDays(now: Time)
    ensures now / 60 / 1440 == now / 86400
  {
  }

  lemma SecondsToMinutes(at: int, now: Time)
    ensures at <= now / 60 <==> 60 * at <= now
  {
  }

  /** A daily trigger's due tick, on the second. */
  lemma DailyIsDue(calendar: int -> Day, h: int, m: int, now: Time, fire: Time)
    requires 0 <= h < 24 && 0 <= m < 60 && IsDueTick(Daily(h, m), calendar, now, fire)
    ensures var today := now / 86400 * 86400 + 3600 * h + 60 * m;
      fire == if today <= now then today else today - 86400
  {
    PreviousDaily(calendar, h, m, now / 60, Some(fire / 60));
    SecondsToDays(now);
    var day := now / 86400;
    SecondsToMinutes(day * 1440 + 60 * h + m, now);
    assert fire == 60 * (fire / 60);
  }

  /** When a trigger is dispatched, and why it is not. */
  lemma DecidedExactly(stored: Option<Option<Time>>, listed: Option<Time>, c: Call, queueOk: bool)
    ensures var o := Decide(stored, listed, c, queueOk);
      && (o == NotDue <==> listed.Some? && c.fire <= listed.value)
      && (o == Conflict <==>
            o != NotDue && !(stored.Some? && (stored.value.None? || stored.value.value < c.fire)))
      && (o.Dispatched? || o == QueueFailed <==> o != NotDue && o != Conflict)
      && (o.Dispatched? ==> o.fire == c.fire && queueOk) && (o == QueueFailed ==> !queueOk)
      && o != NeverFires
  {
  }

  /** Skipping by the listed stamp loses nothing, stamps only moving on: what is skipped would not have won. */
  lemma SkippingIsSound(stored: Option<Option<Time>>, listed: Option<Time>, c: Call)
    requires listed.Some? && stored.Some? ==> stored.value.Some? && listed.value <= stored.value.value
    ensures Decide(stored, listed, c, true).Dispatched? <==> stored.Some? && Wins(stored.value, c)
  {
  }

  class ScheduleDispatcher {
    var lastFired: map<TriggerId, Option<Time>>
    var executions: seq<Queued>

    ghost predicate Valid()
      reads this
    {
      Ordered(lastFired, executions)
    }

    function Stored(trigger: TriggerId): Option<Option<Time>>
      reads this
    {
      if trigger in lastFired then Some(lastFired[trigger]) else None
    }

    constructor (triggers: set<TriggerId>)
      ensures Valid() && executions == [] && lastFired.Keys == triggers
    {
      lastFired := map t | t in triggers :: None;
      executions := [];
    }

    /** UPDATE ... SET last_fired_at = now WHERE it is null or before the tick. */
    method ReserveLastFired(trigger: TriggerId, fire: Time, now: Time) returns (reserved: bool)
      modifies this`lastFired
      ensures reserved <==> trigger in old(lastFired) && Wins(old(lastFired)[trigger], Call(fire, now))
      ensures lastFired == if reserved then old(lastFired)[trigger := Some(now)] else old(lastFired)
    {
      if trigger !in lastFired { return false; }
      if lastFired[trigger].Some? && lastFired[trigger].value >= fire { return false; }
      lastFired := lastFired[trigger := Some(now)];
      reserved := true;
    }

    /** One trigger's turn in a sweep: `listed` is the stamp the sweep read when it listed the trigger.
        The reservation and the queued execution stand or fall together. */
    method DispatchOne(
      trigger: TriggerId, c: Cron, calendar: int -> Day, now: Time, listed: Option<Time>, queueOk: bool)
      returns (outcome: Outcome, tick: Option<Time>)
      requires Valid()
      modifies this
      ensures Valid()
      ensures tick.Some? ==> IsDueTick(c, calendar, now, tick.value)
      ensures tick.Some? ==> outcome == Decide(old(Stored(trigger)), listed, Call(tick.value, now), queueOk)
      ensures tick.None? ==> outcome == NeverFires && forall m ::
        (now / 60 / MINUTES_PER_DAY - LOOKBACK_DAYS) * MINUTES_PER_DAY <= m <= now / 60 ==> !Fires(c, calendar, m)
      ensures outcome.Dispatched? ==>
        && lastFired == old(lastFired)[trigger := Some(now)]
        && executions == old(executions) + [Queued(trigger, outcome.fire)]
      ensures !outcome.Dispatched? ==> lastFired == old(lastFired) && executions == old(executions)
    {
      tick := LatestTick(c, calendar, now);
      if tick.None? { return NeverFires, tick; }
      var fire := tick.value;
      if listed.Some? && listed.value >= fire { return NotDue, tick; }
      var savepoint := lastFired;
      var reserved := ReserveLastFired(trigger, fire, now);
      if !reserved { return Conflict, tick; }
      if !queueOk {
        lastFired := savepoint;
        return QueueFailed, tick;
      }
      WinnerKeepsOrder(savepoint, executions, trigger, Call(fire, now));
      executions := executions + [Queued(trigger, fire)];
      outcome := Dispatched(fire);
    }
  }

  method LatestTick(c: Cron, calendar: int -> Day, now: Time) returns (tick: Option<Time>)
    ensures tick.Some? ==> IsDueTick(c, calendar, now, tick.value)
    ensures tick.None? ==> forall m ::
      (now / 60 / MINUTES_PER_DAY - LOOKBACK_DAYS) * MINUTES_PER_DAY <= m <= now / 60 ==> !Fires(c, calendar, m)
  {
    var minute := PreviousFire(c, calendar, now / 60);
    if minute.None? { return None; }
    assert minute.value * 60 / 60 == minute.value;
    tick := Some(minute.value * 60);
  }
}
