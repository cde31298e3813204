/**
  The on/off schedule of `w_pandas.py` (the same code is kept a second
  time in `utils/unused.py`): a `TimeSlots` object turns a list of hourly
  start times into slots, merging start times less than an hour apart
  into one slot, and answers whether a time lies strictly inside a slot.

  A `TimeSlot` is a small record whose `end` the slot search sets after
  creating it; it is never shared outside the list being built, so it is a
  value here and setting its end replaces the last element of the list.
*/
module TimeSlots {
  import opened Clock

  /** The default `dt` of `find_slots`: one hour. */
  const Dt: int := SecondsPerHour

  /** `TimeSlot(start, now, end)`; `now` is the time the slots were found. */
  datatype TimeSlot = TimeSlot(start: int, now: int, end: int)

  /** `TimeSlot.inside`: both bounds are excluded. */
  predicate InsideSlot(slot: TimeSlot, t: int) {
    slot.start < t < slot.end
  }

  /** Neither end of a slot is inside it. */
  lemma InsideSlotIsOpen(slot: TimeSlot)
    ensures !InsideSlot(slot, slot.start) && !InsideSlot(slot, slot.end)
  {
  }

  /** `any(ts.inside(time) for ts in slots)`. */
  predicate InsideAny(slots: seq<TimeSlot>, t: int) {
    exists k :: 0 <= k < |slots| && InsideSlot(slots[k], t)
  }

  /** A time is inside a concatenation of slot lists exactly when it is
      inside one of the two. */
  lemma InsideAnyConcat(a: seq<TimeSlot>, b: seq<TimeSlot>, t: int)
    ensures InsideAny(a + b, t) <==> InsideAny(a, t) || InsideAny(b, t)
  {
    if InsideAny(a + b, t) {
      var k :| 0 <= k < |a + b| && InsideSlot((a + b)[k], t);
      if k >= |a| {
        assert (a + b)[k] == b[k - |a|];
      }
    }
    if InsideAny(a, t) {
      var k :| 0 <= k < |a| && InsideSlot(a[k], t);
      assert (a + b)[k] == a[k];
    }
    if InsideAny(b, t) {
      var k :| 0 <= k < |b| && InsideSlot(b[k], t);
      assert (a + b)[|a| + k] == b[k];
    }
  }

  /** Each start time is no earlier than the one before it. */
  predicate Ascending(ts: seq<int>) {
    forall i :: 0 <= i < |ts| - 1 ==> ts[i] <= ts[i + 1]
  }

  lemma AscendingPrefix(ts: seq<int>)
    requires |ts| >= 2 && Ascending(ts)
    ensures Ascending(ts[..|ts| - 1]) && ts[|ts| - 2] <= ts[|ts| - 1]
  {
    var p := ts[..|ts| - 1];
    forall i | 0 <= i < |p| - 1 ensures p[i] <= p[i + 1] {
      assert p[i] == ts[i] && p[i + 1] == ts[i + 1];
    }
  }

  // -----------------------------------------------------------------------
  // The slots of a list of start times

  /** The slots `find_slots` holds after visiting `times`: one slot for the
      first time; each later time extends the last slot when it starts at
      most `dt` after the previous time, and otherwise closes the last slot
      at the previous time plus `dt` and opens a slot of its own. */
  function Build(times: seq<int>, now: int): (r: seq<TimeSlot>)
    requires |times| >= 1
    ensures |r| >= 1
    decreases |times|
  {
    if |times| == 1 then [TimeSlot(times[0], now, times[0] + Dt)]
    else
      var prev := Build(times[..|times| - 1], now);
      var i := |times| - 2;
      var last := prev[|prev| - 1];
      if times[i] + Dt >= times[i + 1] then
        prev[..|prev| - 1] + [last.(end := times[i + 1] + Dt)]
      else
        prev[..|prev| - 1] + [last.(end := times[i] + Dt)] + [TimeSlot(times[i + 1], now, times[i + 1] + Dt)]
  }

  /** One step of `Build`, as the loop of `find_slots` takes it at index `i`. */
  lemma BuildStep(times: seq<int>, now: int, i: nat)
    requires i + 1 < |times|
    ensures var prev := Build(times[..i + 1], now);
            var last := prev[|prev| - 1];
            Build(times[..i + 2], now) ==
              if times[i] + Dt >= times[i + 1] then prev[..|prev| - 1] + [last.(end := times[i + 1] + Dt)]
              else prev[..|prev| - 1] + [last.(end := times[i] + Dt)] + [TimeSlot(times[i + 1], now, times[i + 1] + Dt)]
  {
    assert times[..i + 2][..i + 1] == times[..i + 1];
  }

  /** The slots one `find_slots` call adds: none for fewer than two times. */
  function NewSlots(times: seq<int>, now: int): seq<TimeSlot> {
    if |times| > 1 then Build(times, now) else []
  }

  /** The number of gaps longer than `dt` between consecutive times. */
  function Gaps(times: seq<int>): nat
    decreases |times|
  {
    if |times| < 2 then 0
    else Gaps(times[..|times| - 1]) + (if times[|times| - 2] + Dt < times[|times| - 1] then 1 else 0)
  }

  /** Fewer than two start times give no slot at all, even one start time. */
  lemma FewTimesNoSlots(times: seq<int>, now: int)
    requires |times| < 2
    ensures NewSlots(times, now) == []
  {
  }

  /** There is one slot more than there are gaps. */
  lemma {:induction false} SlotCount(times: seq<int>, now: int)
    requires |times| >= 1
    ensures |Build(times, now)| == 1 + Gaps(times)
    decreases |times|
  {
    if |times| > 1 {
      SlotCount(times[..|times| - 1], now);
    }
  }

  /** Every slot carries the `now` it was found at; the first slot starts
      at the first time, the last slot starts no later than the last time
      and ends at the last time plus `dt`. */
  lemma {:induction false} BuildEnds(times: seq<int>, now: int)
    requires |times| >= 1 && Ascending(times)
    ensures var r := Build(times, now);
            && r[0].start == times[0]
            && r[|r| - 1].start <= times[|times| - 1]
            && r[|r| - 1].end == times[|times| - 1] + Dt
            && forall j :: 0 <= j < |r| ==> r[j].now == now
    decreases |times|
  {
    if |times| > 1 {
      var p := times[..|times| - 1];
      AscendingPrefix(times);
      BuildEnds(p, now);
      var prev := Build(p, now);
      if |prev| > 1 {
        assert Build(times, now)[0] == prev[0];
      }
    }
  }

  /** Slots are non-empty and in order, each ending strictly before the
      next one starts. */
  lemma {:induction false} SlotsOrdered(times: seq<int>, now: int)
    requires |times| >= 1 && Ascending(times)
    ensures var r := Build(times, now);
            && (forall j :: 0 <= j < |r| ==> r[j].start < r[j].end)
            && (forall j :: 0 <= j < |r| - 1 ==> r[j].end < r[j + 1].start)
    decreases |times|
  {
    if |times| > 1 {
      var p := times[..|times| - 1];
      AscendingPrefix(times);
      SlotsOrdered(p, now);
      BuildEnds(p, now);
      BuildFront(times, now);
      var prev := Build(p, now);
      var r := Build(times, now);
      var n := |prev|;
      var i := |times| - 2;
      assert p[i] == times[i];
      forall j | 0 <= j < |r| ensures r[j].start < r[j].end {
        if j < n - 1 {
          assert r[j] == prev[j];
        } else if j == n - 1 {
          assert r[j].start <= times[i];
        }
      }
      forall j | 0 <= j < |r| - 1 ensures r[j].end < r[j + 1].start {
        if j < n - 2 {
          assert r[j] == prev[j] && r[j + 1] == prev[j + 1];
        } else if j == n - 2 {
          assert r[j] == prev[j] && r[j + 1].start == prev[j + 1].start;
        }
      }
    }
  }

  /** One more start time keeps every slot but the last and the last
      slot's start, and adds at most one slot. */
  lemma BuildFront(times: seq<int>, now: int)
    requires |times| > 1
    ensures var prev := Build(times[..|times| - 1], now);
            var r := Build(times, now);
            && |prev| <= |r| <= |prev| + 1
            && (forall j :: 0 <= j < |prev| - 1 ==> r[j] == prev[j])
            && r[|prev| - 1].start == prev[|prev| - 1].start
            && (|r| == |prev| + 1 ==>
                  && r[|prev| - 1].end == times[|times| - 2] + Dt
                  && r[|prev|].start == times[|times| - 1]
                  && times[|times| - 2] + Dt < times[|times| - 1])
            && (|r| == |prev| ==> r[|prev| - 1].end == times[|times| - 1] + Dt)
  {
  }

  /** Every slot ends `dt` after its last start time, the time `i`
      returned: the last slot at the last time, every other slot at a time
      followed by a gap longer than `dt`. The slot starts no later than
      that time. */
  lemma {:induction false} SlotEnds(times: seq<int>, now: int, j: nat) returns (i: nat)
    requires |times| >= 1 && Ascending(times) && j < |Build(times, now)|
    ensures SlotEndsAt(times, Build(times, now), j, i)
    decreases |times|
  {
    if |times| == 1 {
      i := 0;
    } else {
      var m := |times| - 1;
      var p := times[..m];
      var prev := Build(p, now);
      var r := Build(times, now);
      AscendingPrefix(times);
      BuildFront(times, now);
      if j < |prev| - 1 {
        i := SlotEnds(p, now, j);
        assert r[j] == prev[j];
        assert p[i] == times[i] && p[i + 1] == times[i + 1];
      } else if j == |prev| - 1 {
        BuildEnds(p, now);
        assert p[m - 1] == times[m - 1];
        i := if |r| == |prev| + 1 then m - 1 else m;
      } else {
        BuildEnds(times, now);
        i := m;
      }
    }
  }

  /** Slot `j` of `r` ends `dt` after start time `i` and starts no later;
      `i` is the last time for the last slot, and a time followed by a gap
      longer than `dt` for every other slot. */
  predicate SlotEndsAt(times: seq<int>, r: seq<TimeSlot>, j: nat, i: nat) {
    && i < |times| && j < |r|
    && r[j].end == times[i] + Dt && r[j].start <= times[i]
    && (j == |r| - 1 ==> i == |times| - 1)
    && (j < |r| - 1 ==> i < |times| - 1 && times[i] + Dt < times[i + 1])
  }

  /** Every start time lies in a slot, the slot `j` returned, that starts
      no later than it and ends no earlier than it plus `dt`. */
  lemma {:induction false} SlotsCover(times: seq<int>, now: int, i: nat) returns (j: nat)
    requires i < |times| && Ascending(times)
    ensures j < |Build(times, now)|
    ensures Build(times, now)[j].start <= times[i] && times[i] + Dt <= Build(times, now)[j].end
    decreases |times|
  {
    var r := Build(times, now);
    if |times| == 1 {
      j := 0;
    } else {
      var p := times[..|times| - 1];
      var prev := Build(p, now);
      var n := |prev|;
      AscendingPrefix(times);
      BuildEnds(p, now);
      BuildFront(times, now);
      if i < |times| - 1 {
        j := SlotsCover(p, now, i);
        assert p[i] == times[i];
        if j < n - 1 {
          assert r[j] == prev[j];
        } else {
          // The last slot so far keeps its start and ends no earlier.
          assert prev[j].end == times[|times| - 2] + Dt by {
            assert p[|p| - 1] == times[|times| - 2];
          }
          assert times[|times| - 2] <= times[|times| - 1];
        }
      } else {
        j := |r| - 1;
      }
    }
  }

  /** A time strictly inside a slot lies within `dt` after some start time. */
  lemma {:induction false} InsideIsNearStart(times: seq<int>, now: int, j: nat, t: int)
    requires |times| >= 1 && Ascending(times)
    requires j < |Build(times, now)| && InsideSlot(Build(times, now)[j], t)
    ensures exists i :: 0 <= i < |times| && times[i] <= t < times[i] + Dt
    decreases |times|
  {
    var r := Build(times, now);
    if |times| == 1 {
      assert times[0] <= t < times[0] + Dt;
    } else {
      var p := times[..|times| - 1];
      var prev := Build(p, now);
      var n := |prev|;
      var m := |times| - 1;
      AscendingPrefix(times);
      BuildEnds(p, now);
      if j < n - 1 {
        assert r[j] == prev[j];
        InsideIsNearStart(p, now, j, t);
        var i :| 0 <= i < |p| && p[i] <= t < p[i] + Dt;
        assert times[i] == p[i];
      } else if j == n - 1 && t < prev[n - 1].end {
        assert r[j].start == prev[j].start;
        InsideIsNearStart(p, now, j, t);
        var i :| 0 <= i < |p| && p[i] <= t < p[i] + Dt;
        assert times[i] == p[i];
      } else {
        assert times[m] <= t < times[m] + Dt;
      }
    }
  }

  /** A time inside one of the new slots lies within `dt` after (or at)
      the start time `i` returned. */
  lemma InsideNewSlotsStart(times: seq<int>, now: int, t: int) returns (i: nat)
    requires Ascending(times) && InsideAny(NewSlots(times, now), t)
    ensures i < |times| && times[i] <= t < times[i] + Dt
  {
    var r := NewSlots(times, now);
    var j :| 0 <= j < |r| && InsideSlot(r[j], t);
    InsideIsNearStart(times, now, j, t);
    i :| 0 <= i < |times| && times[i] <= t < times[i] + Dt;
  }

  /** `find_slots` read as intervals: a time is inside one of the new slots
      if it lies strictly within `dt` after a start time, and only if it
      lies within `dt` after (or at) one. */
  lemma InsideNewSlots(times: seq<int>, now: int, t: int)
    requires |times| > 1 && Ascending(times)
    ensures InsideAny(NewSlots(times, now), t) ==> exists i :: 0 <= i < |times| && times[i] <= t < times[i] + Dt
    ensures (exists i :: 0 <= i < |times| && times[i] < t < times[i] + Dt) ==> InsideAny(NewSlots(times, now), t)
  {
    var r := Build(times, now);
    if InsideAny(r, t) {
      var i := InsideNewSlotsStart(times, now, t);
    }
    if exists i :: 0 <= i < |times| && times[i] < t < times[i] + Dt {
      var i :| 0 <= i < |times| && times[i] < t < times[i] + Dt;
      var j := SlotsCover(times, now, i);
      assert InsideSlot(r[j], t);
    }
  }

  // -----------------------------------------------------------------------
  // The schedule object

  /** One pass of the loop of `find_slots` at index `i`: extend the last
      slot to the next time plus `dt`, or close it at this time plus `dt`
      and open a slot at the next time. */
  method FindSlotsStep(times: seq<int>, now: int, i: nat, found: seq<TimeSlot>) returns (next: seq<TimeSlot>)
    requires i + 1 < |times| && found == Build(times[..i + 1], now)
    ensures next == Build(times[..i + 2], now)
  {
    BuildStep(times, now, i);
    var last := found[|found| - 1];
    if times[i] + Dt >= times[i + 1] {
      next := found[..|found| - 1] + [last.(end := times[i + 1] + Dt)];
    } else {
      next := found[..|found| - 1] + [last.(end := times[i] + Dt)]
              + [TimeSlot(times[i + 1], now, times[i + 1] + Dt)];
    }
  }

  class TimeSlots {
    var startTimes: seq<int>
    var slots: seq<TimeSlot>

    /** `TimeSlots(start_times)`: no slots, then one `find_slots`. */
    constructor (startTimes: seq<int>, now: int)
      ensures this.startTimes == startTimes
      ensures slots == NewSlots(startTimes, now)
    {
      this.startTimes := startTimes;
      slots := [];
      new;
      FindSlots(now);
    }

    /** `append`: take new start times and add their slots. */
    method Append(startTimes: seq<int>, now: int)
      modifies this
      ensures this.startTimes == startTimes
      ensures slots == old(slots) + NewSlots(startTimes, now)
    {
      this.startTimes := startTimes;
      FindSlots(now);
    }

    /** `find_slots`: walk the start times once, setting the end of the
        last slot and opening a new slot at every gap, then add the slots
        found after the existing ones. */
    method FindSlots(now: int)
      modifies this
      ensures startTimes == old(startTimes)
      ensures slots == old(slots) + NewSlots(startTimes, now)
    {
      var times := startTimes;
      if |times| > 1 {
        // The end given here is overwritten by the first pass of the loop.
        var found := [TimeSlot(times[0], now, times[0] + Dt)];
        var i := 0;
        while i < |times| - 1
          invariant 0 <= i <= |times| - 1
          invariant found == Build(times[..i + 1], now)
          invariant startTimes == times && slots == old(slots)
        {
          found := FindSlotsStep(times, now, i, found);
          i := i + 1;
        }
        assert times[..|times|] == times;
        slots := slots + found;
      }
    }

    /** `TimeSlots.inside`. */
    predicate Inside(t: int)
      reads this
    {
      InsideAny(slots, t)
    }
  }

  /** Appending keeps the earlier slots in front, unchanged, and a time is
      inside afterwards exactly when it was inside before or is inside one
      of the new slots. */
  lemma AppendKeepsSlots(before: seq<TimeSlot>, times: seq<int>, now: int, t: int)
    ensures (before + NewSlots(times, now))[..|before|] == before
    ensures InsideAny(before + NewSlots(times, now), t) <==> InsideAny(before, t) || InsideAny(NewSlots(times, now), t)
  {
    InsideAnyConcat(before, NewSlots(times, now), t);
  }
}
