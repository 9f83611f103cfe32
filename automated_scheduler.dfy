/** The playback-tick materializer: every booked schedule whose start has
    been reached is expanded into back-to-back 15-minute records from the
    current time until its end or 24 hours ahead, and the whole
    `schedules_automated` collection is replaced by that batch.

    The current time is a parameter. The source reads the clock once per
    schedule, inside the loop, so the model takes one reading per schedule:
    `clock[i]` is the time at which schedule `i` is examined. */
module AutomatedScheduler {
  import opened Schemas

  function Min(a: int, b: int): int {
    if a <= b then a else b
  }

  /** `ceil(n / d)` for positive `d` and non-negative `n`. */
  function CeilDiv(n: nat, d: nat): nat
    requires d > 0
  {
    (n + d - 1) / d
  }

  /** The record emitted for the cursor position `t`. */
  function Tick(s: ScheduleBase, t: int): ScheduleBase {
    ScheduleBase(s.billboardId, s.contentType, s.url, t, t + FifteenMinutes)
  }

  /** The instant at which the cursor stops for `s` examined at `currentTime`. */
  function Stop(s: ScheduleBase, currentTime: int): int {
    Min(s.endTime, currentTime + TwentyFourHours)
  }

  /** The records the inner loop emits from cursor position `cursor` on. */
  function TicksFrom(s: ScheduleBase, currentTime: int, cursor: int): seq<ScheduleBase>
    decreases currentTime + TwentyFourHours - cursor
  {
    if cursor < s.endTime && cursor < currentTime + TwentyFourHours then
      [Tick(s, cursor)] + TicksFrom(s, currentTime, cursor + FifteenMinutes)
    else
      []
  }

  /** The records one schedule contributes when examined at `currentTime`. */
  function ScheduleTicks(s: ScheduleBase, currentTime: int): seq<ScheduleBase> {
    if s.startTime <= currentTime then TicksFrom(s, currentTime, currentTime) else []
  }

  /** The whole batch: each schedule's records, in store order. */
  function Expand(schedules: seq<Document>, clock: seq<int>): seq<ScheduleBase>
    requires |clock| == |schedules|
  {
    if schedules == [] then []
    else ScheduleTicks(schedules[0].body, clock[0]) + Expand(schedules[1..], clock[1..])
  }

  /** Closed form of the number of records one schedule contributes. */
  function TickCount(s: ScheduleBase, currentTime: int): nat {
    var stop := Stop(s, currentTime);
    if s.startTime <= currentTime && currentTime < stop then
      CeilDiv(stop - currentTime, FifteenMinutes)
    else
      0
  }

  /** The sum of the per-schedule counts. */
  function TotalTicks(schedules: seq<Document>, clock: seq<int>): nat
    requires |clock| == |schedules|
  {
    if schedules == [] then 0
    else TickCount(schedules[0].body, clock[0]) + TotalTicks(schedules[1..], clock[1..])
  }

  // ---------------------------------------------------------------------
  // One schedule

  lemma {:induction false} TicksFromLength(s: ScheduleBase, currentTime: int, cursor: int)
    ensures var stop := Stop(s, currentTime);
      |TicksFrom(s, currentTime, cursor)| ==
        if cursor < stop then CeilDiv(stop - cursor, FifteenMinutes) else 0
    decreases currentTime + TwentyFourHours - cursor
  {
    var stop := Stop(s, currentTime);
    if cursor < stop {
      TicksFromLength(s, currentTime, cursor + FifteenMinutes);
      if cursor + FifteenMinutes < stop {
        assert CeilDiv(stop - cursor, FifteenMinutes)
            == CeilDiv(stop - cursor - FifteenMinutes, FifteenMinutes) + 1;
      }
    }
  }

  lemma {:induction false} TicksFromAt(s: ScheduleBase, currentTime: int, cursor: int, k: nat)
    requires k < |TicksFrom(s, currentTime, cursor)|
    ensures TicksFrom(s, currentTime, cursor)[k] == Tick(s, cursor + k * FifteenMinutes)
    ensures cursor + k * FifteenMinutes < Stop(s, currentTime)
    decreases currentTime + TwentyFourHours - cursor
  {
    if k > 0 {
      TicksFromAt(s, currentTime, cursor + FifteenMinutes, k - 1);
    }
  }

  /** A schedule contributes no records exactly when it has not started yet
      or has already ended; otherwise it contributes the closed-form count,
      which never exceeds 96 (24 hours in 15-minute steps). */
  lemma ScheduleTicksCount(s: ScheduleBase, currentTime: int)
    ensures |ScheduleTicks(s, currentTime)| == TickCount(s, currentTime)
    ensures TickCount(s, currentTime) <= TwentyFourHours / FifteenMinutes
    ensures s.startTime > currentTime ==> ScheduleTicks(s, currentTime) == []
    ensures s.endTime <= currentTime ==> ScheduleTicks(s, currentTime) == []
    ensures ScheduleTicks(s, currentTime) == [] <==>
              (s.startTime > currentTime || s.endTime <= currentTime)
  {
    if s.startTime <= currentTime {
      TicksFromLength(s, currentTime, currentTime);
    }
  }

  /** The shape of one schedule's records: 15 minutes wide, the first at the
      current time, each starting where the previous one ends, each starting
      before the end and before the horizon, with the schedule's billboard,
      type and url. Since 24 hours is a whole number of 15-minute steps, no
      record ends after the horizon; only the end-time side can overrun. */
  lemma ScheduleTicksShape(s: ScheduleBase, currentTime: int)
    ensures var r := ScheduleTicks(s, currentTime);
      forall k :: 0 <= k < |r| ==>
        && r[k].startTime == currentTime + k * FifteenMinutes
        && r[k].endTime == r[k].startTime + FifteenMinutes
        && r[k].billboardId == s.billboardId
        && r[k].contentType == s.contentType
        && r[k].url == s.url
        && r[k].startTime < s.endTime
        && r[k].startTime < currentTime + TwentyFourHours
        && r[k].endTime < Stop(s, currentTime) + FifteenMinutes
        && r[k].endTime <= currentTime + TwentyFourHours
    ensures var r := ScheduleTicks(s, currentTime);
      |r| > 0 ==> r[0].startTime == currentTime && s.startTime <= currentTime
    ensures var r := ScheduleTicks(s, currentTime);
      forall k :: 0 <= k < |r| - 1 ==>
        r[k + 1].startTime == r[k].endTime && r[k].startTime < r[k + 1].startTime
  {
    var r := ScheduleTicks(s, currentTime);
    forall k | 0 <= k < |r|
      ensures r[k] == Tick(s, currentTime + k * FifteenMinutes)
      ensures currentTime + k * FifteenMinutes < Stop(s, currentTime)
    {
      TicksFromAt(s, currentTime, currentTime, k);
    }
  }

  /** Only the start of a record is checked against the end time, so the
      last record can end after the schedule does: a schedule running from
      five minutes before the current time to forty minutes after it gets
      exactly three records, and the third ends at 45 minutes. */
  lemma LastTickOverrunsEnd(s: ScheduleBase, currentTime: int)
    requires s.startTime == currentTime - 300 && s.endTime == currentTime + 2400
    ensures |ScheduleTicks(s, currentTime)| == 3
    ensures ScheduleTicks(s, currentTime)[2].endTime == currentTime + 2700 > s.endTime
  {
    ScheduleTicksCount(s, currentTime);
    ScheduleTicksShape(s, currentTime);
  }

  // ---------------------------------------------------------------------
  // The whole batch

  /** The batch of a concatenation is the concatenation of the batches:
      records come out grouped by schedule, in store order. */
  lemma {:induction false} ExpandConcat(a: seq<Document>, ca: seq<int>, b: seq<Document>, cb: seq<int>)
    requires |ca| == |a| && |cb| == |b|
    ensures Expand(a + b, ca + cb) == Expand(a, ca) + Expand(b, cb)
  {
    if a == [] {
      assert a + b == b && ca + cb == cb;
    } else {
      assert (a + b)[1..] == a[1..] + b;
      assert (ca + cb)[1..] == ca[1..] + cb;
      ExpandConcat(a[1..], ca[1..], b, cb);
    }
  }

  /** The batch holds the sum of the per-schedule counts, at most 96 per schedule. */
  lemma {:induction false} ExpandLength(schedules: seq<Document>, clock: seq<int>)
    requires |clock| == |schedules|
    ensures |Expand(schedules, clock)| == TotalTicks(schedules, clock)
    ensures |Expand(schedules, clock)| <= (TwentyFourHours / FifteenMinutes) * |schedules|
  {
    if schedules != [] {
      ScheduleTicksCount(schedules[0].body, clock[0]);
      ExpandLength(schedules[1..], clock[1..]);
    }
  }

  /** Every record of the batch comes from one schedule that had started
      when it was examined: it carries that schedule's billboard, type and
      url, is 15 minutes wide, and starts no earlier than that schedule's
      clock reading and before its end and its horizon. */
  lemma {:induction false} ExpandProvenance(schedules: seq<Document>, clock: seq<int>)
    requires |clock| == |schedules|
    ensures forall k :: 0 <= k < |Expand(schedules, clock)| ==>
              ProducedBySome(Expand(schedules, clock)[k], schedules, clock)
  {
    if schedules != [] {
      var s, t := schedules[0].body, clock[0];
      var head, tail := ScheduleTicks(s, t), Expand(schedules[1..], clock[1..]);
      var r := Expand(schedules, clock);
      assert r == head + tail;
      ScheduleTicksShape(s, t);
      ExpandProvenance(schedules[1..], clock[1..]);
      assert forall k :: 0 <= k < |tail| ==> ProducedBySome(tail[k], schedules[1..], clock[1..]);
      forall k | 0 <= k < |r|
        ensures ProducedBySome(r[k], schedules, clock)
      {
        if k < |head| {
          assert r[k] == head[k];
          assert Produced(r[k], schedules[0].body, clock[0]);
        } else {
          var m := k - |head|;
          assert 0 <= m < |tail| && r[k] == tail[m];
          assert ProducedBySome(tail[m], schedules[1..], clock[1..]);
          var j :| 0 <= j < |schedules| - 1 && Produced(tail[m], schedules[1..][j].body, clock[1..][j]);
          assert Produced(r[k], schedules[j + 1].body, clock[j + 1]);
        }
      }
    }
  }

  /** `tick` is a record that schedule `s`, examined at `currentTime`, can emit. */
  ghost predicate Produced(tick: ScheduleBase, s: ScheduleBase, currentTime: int) {
    && s.startTime <= currentTime
    && tick.billboardId == s.billboardId
    && tick.contentType == s.contentType
    && tick.url == s.url
    && tick.endTime == tick.startTime + FifteenMinutes
    && currentTime <= tick.startTime
    && tick.startTime < s.endTime
    && tick.startTime < currentTime + TwentyFourHours
  }

  /** `tick` is a record that one of the schedules can emit at its own clock reading. */
  ghost predicate ProducedBySome(tick: ScheduleBase, schedules: seq<Document>, clock: seq<int>)
    requires |clock| == |schedules|
  {
    exists i :: 0 <= i < |schedules| && Produced(tick, schedules[i].body, clock[i])
  }

  /** When no schedule is running at its clock reading the batch is empty. */
  lemma {:induction false} NothingRunningGivesEmptyBatch(schedules: seq<Document>, clock: seq<int>)
    requires |clock| == |schedules|
    requires forall i :: 0 <= i < |schedules| ==>
               schedules[i].body.startTime > clock[i] || schedules[i].body.endTime <= clock[i]
    ensures Expand(schedules, clock) == []
  {
    if schedules != [] {
      ScheduleTicksCount(schedules[0].body, clock[0]);
      NothingRunningGivesEmptyBatch(schedules[1..], clock[1..]);
    }
  }

  // ---------------------------------------------------------------------
  // The loops of get_schedules_for_next_24_hours

  /** Walks the booked schedules in order and, for each one whose start has
      been reached, advances a cursor from the current time in 15-minute
      steps while it is before the end and before the horizon. */
  method GetSchedulesForNext24Hours(schedules: seq<Document>, clock: seq<int>)
    returns (generated: seq<ScheduleBase>)
    requires |clock| == |schedules|
    ensures generated == Expand(schedules, clock)
    ensures |generated| == TotalTicks(schedules, clock)
  {
    generated := [];
    var i := 0;
    while i < |schedules|
      invariant 0 <= i <= |schedules|
      invariant generated == Expand(schedules[..i], clock[..i])
    {
      var schedule := schedules[i].body;
      var currentTime := clock[i];
      ghost var before := generated;
      if schedule.startTime <= currentTime {
        var timeToCheck := currentTime;
        while timeToCheck < schedule.endTime && timeToCheck < currentTime + TwentyFourHours
          invariant generated + TicksFrom(schedule, currentTime, timeToCheck)
                    == before + ScheduleTicks(schedule, currentTime)
          decreases currentTime + TwentyFourHours - timeToCheck
        {
          var newSchedule := Tick(schedule, timeToCheck);
          assert TicksFrom(schedule, currentTime, timeToCheck)
              == [newSchedule] + TicksFrom(schedule, currentTime, timeToCheck + FifteenMinutes);
          generated := generated + [newSchedule];
          timeToCheck := timeToCheck + FifteenMinutes;
        }
      }
      assert generated == before + ScheduleTicks(schedule, currentTime);
      assert schedules[..i + 1] == schedules[..i] + [schedules[i]];
      assert clock[..i + 1] == clock[..i] + [clock[i]];
      ExpandConcat(schedules[..i], clock[..i], [schedules[i]], [clock[i]]);
      i := i + 1;
    }
    assert schedules[..i] == schedules && clock[..i] == clock;
    ExpandLength(schedules, clock);
  }

  // ---------------------------------------------------------------------
  // truncate_and_reinsert_schedules

  /** The two collections the materializer touches: the booked `schedules`
      it reads and the materialized `schedules_automated` it rewrites. */
  class Database {
    var schedules: seq<Document>
    var schedulesAutomated: seq<ScheduleBase>

    constructor (schedules: seq<Document>, schedulesAutomated: seq<ScheduleBase>)
      ensures this.schedules == schedules
      ensures this.schedulesAutomated == schedulesAutomated
    {
      this.schedules := schedules;
      this.schedulesAutomated := schedulesAutomated;
    }

    /** `delete_many({})` on `schedules_automated`. */
    method DeleteManyAutomated()
      modifies this`schedulesAutomated
      ensures schedulesAutomated == []
    {
      schedulesAutomated := [];
    }

    /** `insert_many(docs)` on `schedules_automated`; the driver refuses an
        empty list, which is why the caller checks first. */
    method InsertManyAutomated(docs: seq<ScheduleBase>)
      requires docs != []
      modifies this`schedulesAutomated
      ensures schedulesAutomated == old(schedulesAutomated) + docs
    {
      schedulesAutomated := schedulesAutomated + docs;
    }

    /** Rebuilds the materialized collection: whatever it held is gone and it
        holds exactly the freshly generated batch (so an empty batch leaves
        it empty); the booked schedules are only read. */
    method TruncateAndReinsertSchedules(clock: seq<int>)
      requires |clock| == |schedules|
      modifies this`schedulesAutomated
      ensures schedules == old(schedules)
      ensures schedulesAutomated == Expand(schedules, clock)
      ensures Expand(schedules, clock) == [] ==> schedulesAutomated == []
    {
      var schedulesToInsert := GetSchedulesForNext24Hours(schedules, clock);
      DeleteManyAutomated();
      if schedulesToInsert != [] {
        InsertManyAutomated(schedulesToInsert);
      }
    }
  }

  /** Rebuilding twice with the same booked schedules and the same clock
      readings leaves the same materialized contents as rebuilding once. */
  method RebuildTwice(db: Database, clock: seq<int>)
    requires |clock| == |db.schedules|
    modifies db
    ensures db.schedules == old(db.schedules)
    ensures db.schedulesAutomated == Expand(old(db.schedules), clock)
  {
    db.TruncateAndReinsertSchedules(clock);
    ghost var once := db.schedulesAutomated;
    db.TruncateAndReinsertSchedules(clock);
    assert db.schedulesAutomated == once;
  }
}
