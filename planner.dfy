/**
  The slot planner of `w_pandas.py`: its `PriceList` loads the price
  series (from a cache file or the price service), splits it
  into calendar days, picks each day's `required_hours` cheapest hours and
  appends their slots to a `TimeSlots` schedule.

  `sort_values` is not a stable sort in pandas; the model sorts stably,
  which is one of the orders pandas may produce, and the properties below
  do not depend on how ties are broken.
*/
module Planner {
  import opened Wrappers
  import opened Clock
  import opened Series
  import opened SpotPrice
  import opened TimeSlots
  import opened FileCache

  /** `TimeSlots.required_hours`. */
  const RequiredHours: int := 6

  /** Where the slice `[0:n]` of a sequence of length `len` stops: a
      negative `n` counts from the end, and the stop never passes either end. */
  function SliceEnd(len: nat, n: int): (k: nat)
    ensures k <= len
  {
    if n >= 0 then (if n < len then n else len)
    else if len + n > 0 then len + n
    else 0
  }

  /** `prices.sort_values()[0:n]`: the `n` cheapest entries, cheapest first. */
  function Cheapest(prices: Series, n: int): Series {
    SortBy(prices, PriceOf)[..SliceEnd(|prices|, n)]
  }

  /** The entries left out of `Cheapest`. */
  function Others(prices: Series, n: int): Series {
    SortBy(prices, PriceOf)[SliceEnd(|prices|, n)..]
  }

  /** The start times `cheapest_hours` returns: those of the cheapest
      entries, in ascending time order. */
  function CheapestTimes(prices: Series, n: int): seq<int> {
    SortBy(Times(Cheapest(prices, n)), TimeKey)
  }

  /** `cheapest_hours`: collect the sorted start times one by one. */
  method CheapestHours(prices: Series, n: int) returns (startTimes: seq<int>)
    ensures startTimes == CheapestTimes(prices, n)
  {
    var cheapest := SortBy(prices, PriceOf)[..SliceEnd(|prices|, n)];
    var ordered := SortBy(Times(cheapest), TimeKey);
    startTimes := [];
    var i := 0;
    while i < |ordered|
      invariant 0 <= i <= |ordered|
      invariant startTimes == ordered[..i]
    {
      startTimes := startTimes + [ordered[i]];
      i := i + 1;
    }
    assert ordered[..|ordered|] == ordered;
  }

  /** The chosen hours and the rest split the day's prices, the chosen ones
      are `min(n, len)` many (for a non-negative `n`), and none of them costs
      more than any hour left out. */
  lemma CheapestAreCheapest(prices: Series, n: int)
    ensures multiset(Cheapest(prices, n)) + multiset(Others(prices, n)) == multiset(prices)
    ensures n >= 0 ==> |Cheapest(prices, n)| == if n < |prices| then n else |prices|
    ensures forall i, j :: 0 <= i < |Cheapest(prices, n)| && 0 <= j < |Others(prices, n)| ==>
              Cheapest(prices, n)[i].price <= Others(prices, n)[j].price
  {
    var sorted := SortBy(prices, PriceOf);
    var k := SliceEnd(|prices|, n);
    var chosen, others := sorted[..k], sorted[k..];
    assert sorted == chosen + others;
    forall i, j | 0 <= i < |chosen| && 0 <= j < |others| ensures chosen[i].price <= others[j].price {
      assert chosen[i] == sorted[i] && others[j] == sorted[k + j];
      assert PriceOf(sorted[i]) <= PriceOf(sorted[k + j]);
    }
  }

  /** The returned start times are ascending, as many as the chosen hours,
      and exactly the times of the chosen hours. */
  lemma CheapestTimesAscending(prices: Series, n: int)
    ensures Ascending(CheapestTimes(prices, n))
    ensures |CheapestTimes(prices, n)| == |Cheapest(prices, n)|
    ensures multiset(CheapestTimes(prices, n)) == multiset(Times(Cheapest(prices, n)))
  {
    var ts := CheapestTimes(prices, n);
    forall i | 0 <= i < |ts| - 1 ensures ts[i] <= ts[i + 1] {
      assert TimeKey(ts[i]) <= TimeKey(ts[i + 1]);
    }
  }

  // -----------------------------------------------------------------------
  // Planning every day

  /** `get_daily_prices`: the series grouped by calendar date. */
  function DailyGroups(s: Series): seq<Series> {
    Groups(s, Day)
  }

  /** The slots one day's cheapest hours give. */
  function DaySlots(day: Series, hours: int, now: int): seq<TimeSlot> {
    NewSlots(CheapestTimes(day, hours), now)
  }

  /** All the slots `find_slots` appends, one day after another. */
  function PlanSlots(days: seq<Series>, hours: int, now: int): seq<TimeSlot>
    decreases |days|
  {
    if days == [] then [] else PlanSlots(days[..|days| - 1], hours, now) + DaySlots(days[|days| - 1], hours, now)
  }

  /** Planning one more day appends that day's slots. */
  lemma PlanSlotsSnoc(days: seq<Series>, hours: int, now: int, i: nat)
    requires i < |days|
    ensures PlanSlots(days[..i + 1], hours, now) == PlanSlots(days[..i], hours, now) + DaySlots(days[i], hours, now)
  {
    assert days[..i + 1][..i] == days[..i];
  }

  /** The slots of appending `f(day)` for each day, in day order: the
      shape of `PlanSlots` with the day's slots left abstract. */
  function PlanWith(days: seq<Series>, f: Series -> seq<TimeSlot>): seq<TimeSlot>
    decreases |days|
  {
    if days == [] then [] else PlanWith(days[..|days| - 1], f) + f(days[|days| - 1])
  }

  function DayPlan(hours: int, now: int): Series -> seq<TimeSlot> {
    (day: Series) => DaySlots(day, hours, now)
  }

  lemma {:induction false} PlanSlotsIsPlanWith(days: seq<Series>, hours: int, now: int)
    ensures PlanSlots(days, hours, now) == PlanWith(days, DayPlan(hours, now))
    decreases |days|
  {
    if days != [] {
      var m := |days| - 1;
      PlanSlotsIsPlanWith(days[..m], hours, now);
      assert DayPlan(hours, now)(days[m]) == DaySlots(days[m], hours, now);
    }
  }

  /** A time inside the slots of one day is inside the appended slots. */
  lemma {:induction false} InsidePlanWithDay(days: seq<Series>, f: Series -> seq<TimeSlot>, k: nat, t: int)
    requires k < |days| && InsideAny(f(days[k]), t)
    ensures InsideAny(PlanWith(days, f), t)
    decreases |days|
  {
    var m := |days| - 1;
    InsideAnyConcat(PlanWith(days[..m], f), f(days[m]), t);
    if k < m {
      assert days[..m][k] == days[k];
      InsidePlanWithDay(days[..m], f, k, t);
    }
  }

  /** A time inside the appended slots is inside the slots of one day, the
      day `k` returned. */
  lemma {:induction false} InsidePlanWithSome(days: seq<Series>, f: Series -> seq<TimeSlot>, t: int) returns (k: nat)
    requires InsideAny(PlanWith(days, f), t)
    ensures k < |days| && InsideAny(f(days[k]), t)
    decreases |days|
  {
    var m := |days| - 1;
    InsideAnyConcat(PlanWith(days[..m], f), f(days[m]), t);
    if InsideAny(f(days[m]), t) {
      k := m;
    } else {
      k := InsidePlanWithSome(days[..m], f, t);
      assert days[..m][k] == days[k];
    }
  }

  /** A time inside the slots of one day is inside the planned slots. */
  lemma InsidePlanDay(days: seq<Series>, hours: int, now: int, k: nat, t: int)
    requires k < |days| && InsideAny(DaySlots(days[k], hours, now), t)
    ensures InsideAny(PlanSlots(days, hours, now), t)
  {
    PlanSlotsIsPlanWith(days, hours, now);
    assert DayPlan(hours, now)(days[k]) == DaySlots(days[k], hours, now);
    InsidePlanWithDay(days, DayPlan(hours, now), k, t);
  }

  /** A time inside the planned slots is inside the slots of one day, the
      day `k` returned. */
  lemma PlanDayOf(days: seq<Series>, hours: int, now: int, t: int) returns (k: nat)
    requires InsideAny(PlanSlots(days, hours, now), t)
    ensures k < |days| && InsideAny(DaySlots(days[k], hours, now), t)
  {
    PlanSlotsIsPlanWith(days, hours, now);
    k := InsidePlanWithSome(days, DayPlan(hours, now), t);
    assert DayPlan(hours, now)(days[k]) == DaySlots(days[k], hours, now);
  }

  /** Every chosen hour of every day is switched on: a time strictly within
      an hour chosen for one of the days is inside the planned slots, as
      long as that day has at least two chosen hours. */
  lemma ChosenHourIsOn(days: seq<Series>, hours: int, now: int, k: nat, i: nat, t: int)
    requires k < |days|
    requires var ts := CheapestTimes(days[k], hours); 1 < |ts| && i < |ts| && ts[i] < t < ts[i] + Dt
    ensures InsideAny(PlanSlots(days, hours, now), t)
  {
    var ts := CheapestTimes(days[k], hours);
    CheapestTimesAscending(days[k], hours);
    InsideNewSlots(ts, now, t);
    assert InsideAny(DaySlots(days[k], hours, now), t);
    InsidePlanDay(days, hours, now, k, t);
  }

  /** `t` lies within an hour (start included) chosen for `day`. */
  predicate NearChosen(day: Series, hours: int, t: int) {
    exists i :: 0 <= i < |CheapestTimes(day, hours)| &&
      CheapestTimes(day, hours)[i] <= t < CheapestTimes(day, hours)[i] + Dt
  }

  /** A time inside the slots of one day lies within one of its chosen hours. */
  lemma DayNearChosen(day: Series, hours: int, now: int, t: int)
    requires InsideAny(DaySlots(day, hours, now), t)
    ensures NearChosen(day, hours, t)
  {
    CheapestTimesAscending(day, hours);
    var i := InsideNewSlotsStart(CheapestTimes(day, hours), now, t);
  }

  /** Only chosen hours are switched on: a time inside the planned slots
      lies within an hour (start included) chosen for one of the days. */
  lemma OnlyChosenHoursAreOn(days: seq<Series>, hours: int, now: int, t: int)
    requires InsideAny(PlanSlots(days, hours, now), t)
    ensures exists k :: 0 <= k < |days| && NearChosen(days[k], hours, t)
  {
    var k := PlanDayOf(days, hours, now, t);
    DayNearChosen(days[k], hours, now, t);
  }

  /** The days are the calendar dates of the series in ascending order; an
      entry lies in the day of its own date and in no other. */
  lemma DailyGroupsAreDates(s: Series, e: Entry)
    requires e in s
    ensures Increasing(GroupKeys(s, Day)) && |DailyGroups(s)| == |GroupKeys(s, Day)|
    ensures exists k :: 0 <= k < |DailyGroups(s)| && e in DailyGroups(s)[k]
    ensures forall k :: 0 <= k < |DailyGroups(s)| && e in DailyGroups(s)[k] ==> GroupKeys(s, Day)[k] == Day(e.time)
  {
    GroupsPartition(s, Day, e);
    var k :| 0 <= k < |Groups(s, Day)| && e in Groups(s, Day)[k];
    assert e in DailyGroups(s)[k];
  }

  // -----------------------------------------------------------------------
  // Loading the prices

  /** `get_prices` of the planner's `PriceList`, as written. A young cache
      is read as the price engine reads it. Otherwise the service's answer
      becomes the prices and `cache_write` runs; that passes `typ='series'`
      to `Series.to_json`, which has no such keyword, so a returned series
      raises before anything is written. A returned None is not written and
      does not raise. The files never change. */
  function LoadStep(prices: Option<Series>, files: Files, path: string, now: int,
                    fetched: FetchOutcome): Step
  {
    if Age(files, path, now) < CacheTimeout then
      var read := CacheReadback(files, path);
      if read.Some? then Step(read, files, FromCache, false)
      else Step(prices, files, FromCache, true)
    else
      match fetched
      case FetchRaised => Step(prices, files, FromService, true)
      case FetchReturned(p) => Step(p, files, FromService, p.Some?)
  }

  /** What `get_daily_prices` gives after a load: None where the load raised
      or left no series (`None.groupby` raises), otherwise the days. */
  function DaysAfter(st: Step): Option<seq<Series>> {
    if st.raised || st.prices.None? then None else Some(DailyGroups(st.prices.value))
  }

  /** The cache is stale and the service returned a series. */
  predicate FetchedSeries(files: Files, path: string, now: int, fetched: FetchOutcome) {
    Age(files, path, now) >= CacheTimeout && fetched.FetchReturned? && fetched.series.Some?
  }

  /** The planner loads exactly as the price engine does, except that a
      series fetched from the service raises and is never written: the
      engine's step writes it and does not raise. */
  lemma LoadDiffersOnlyInWrite(prices: Option<Series>, files: Files, path: string, now: int,
                               fetched: FetchOutcome)
    ensures LoadStep(prices, files, path, now, fetched).files == files
    ensures FetchedSeries(files, path, now, fetched) ==>
              var st := LoadStep(prices, files, path, now, fetched);
              var engine := GetPricesStep(prices, files, path, now, fetched);
              st.raised && !engine.raised && st.prices == engine.prices
              && engine.files == files[path := File(Intact(fetched.series.value), now)]
    ensures !FetchedSeries(files, path, now, fetched) ==>
              LoadStep(prices, files, path, now, fetched) == GetPricesStep(prices, files, path, now, fetched)
  {
  }

  /** Once the cache is stale, the planner never gets any days: every load
      asks the service and raises or leaves no series, and since nothing is
      written the cache stays stale for every later load too. */
  lemma {:induction false} StaleCacheNeverPlans(prices: Option<Series>, files: Files, path: string,
                                                now: int, later: int, fetched: FetchOutcome,
                                                fetched2: FetchOutcome)
    requires Age(files, path, now) >= CacheTimeout && now <= later
    ensures var st := LoadStep(prices, files, path, now, fetched);
            && DaysAfter(st) == None
            && st.source == FromService
            && LoadStep(st.prices, st.files, path, later, fetched2).source == FromService
            && DaysAfter(LoadStep(st.prices, st.files, path, later, fetched2)) == None
  {
    var st := LoadStep(prices, files, path, now, fetched);
    assert st.files == files;
    assert Age(files, path, later) >= Age(files, path, now);
  }

  /** The `PriceList` of `w_pandas.py`: the cache file and the prices; it
      has no `last_updated` and no `update`. The service is the `fetched`
      parameter of `GetPrices`. */
  class PriceList {
    const cache: string
    const disk: Disk<Series>
    var prices: Option<Series>

    constructor (cache: string, disk: Disk<Series>)
      ensures this.cache == cache && this.disk == disk && prices == None
    {
      this.cache := cache;
      this.disk := disk;
      prices := None;
    }

    /** `cache_write`: raises when there is a series to write (the
        `typ` keyword), and does nothing otherwise. */
    method CacheWrite() returns (raised: bool)
      ensures raised <==> prices.Some?
    {
      raised := prices.Some?;
    }

    /** `cache_read`: raises when the file is missing or unparsable. */
    method CacheRead() returns (raised: bool)
      modifies this
      ensures raised <==> CacheReadback(disk.files, cache).None?
      ensures prices == if raised then old(prices) else CacheReadback(disk.files, cache)
    {
      if cache in disk.files && disk.files[cache].content.Intact? {
        prices := Some(disk.files[cache].content.value);
        raised := false;
      } else {
        raised := true;
      }
    }

    /** `get_prices`: the cache when it is younger than the timeout,
        otherwise the service, then `cache_write`. */
    method GetPrices(now: int, fetched: FetchOutcome) returns (source: Source, raised: bool)
      modifies this
      ensures var st := LoadStep(old(prices), disk.files, cache, now, fetched);
              prices == st.prices && source == st.source && raised == st.raised
    {
      var age := now - (if cache in disk.files then disk.files[cache].mtime else 0);
      if age < CacheTimeout {
        source := FromCache;
        raised := CacheRead();
      } else {
        source := FromService;
        match fetched
        case FetchRaised =>
          raised := true;
        case FetchReturned(p) =>
          prices := p;
          raised := CacheWrite();
      }
    }
  }

  /** `get_daily_prices`: load the prices, then group them by date. None
      where the source raises. */
  method GetDailyPrices(priceList: PriceList, now: int, fetched: FetchOutcome) returns (days: Option<seq<Series>>)
    modifies priceList
    ensures var st := LoadStep(old(priceList.prices), priceList.disk.files, priceList.cache, now, fetched);
            priceList.prices == st.prices && days == DaysAfter(st)
  {
    var source, raised := priceList.GetPrices(now, fetched);
    if raised || priceList.prices.None? {
      return None;
    }
    days := Some(DailyGroups(priceList.prices.value));
  }

  lemma ConcatAssoc<T>(a: seq<T>, b: seq<T>, c: seq<T>)
    ensures (a + b) + c == a + (b + c)
  {
  }

  lemma AppendDayStep(prefix: seq<TimeSlot>, days: seq<Series>, hours: int, now: int, i: nat)
    requires i < |days|
    ensures (prefix + PlanSlots(days[..i], hours, now)) + DaySlots(days[i], hours, now)
            == prefix + PlanSlots(days[..i + 1], hours, now)
  {
    PlanSlotsSnoc(days, hours, now, i);
    ConcatAssoc(prefix, PlanSlots(days[..i], hours, now), DaySlots(days[i], hours, now));
  }

  /** One pass of the loop of `PriceList.find_slots`: append the slots of
      day `i`'s cheapest hours. */
  method AppendDay(schedule: TimeSlots, ghost prefix: seq<TimeSlot>, days: seq<Series>, hours: int, now: int, i: nat)
    requires i < |days|
    requires schedule.slots == prefix + PlanSlots(days[..i], hours, now)
    modifies schedule
    ensures schedule.slots == prefix + PlanSlots(days[..i + 1], hours, now)
    ensures schedule.startTimes == CheapestTimes(days[i], hours)
  {
    var startTimes := CheapestHours(days[i], hours);
    AppendDayStep(prefix, days, hours, now, i);
    schedule.Append(startTimes, now);
  }

  /** The start times a schedule holds after appending `days`: those of
      the last day, or the ones it had when there is no day. */
  function LastStartTimes(before: seq<int>, days: seq<Series>, hours: int): seq<int> {
    if days == [] then before else CheapestTimes(days[|days| - 1], hours)
  }

  /** The loop of `PriceList.find_slots`: append each day's cheapest hours. */
  method AppendDays(schedule: TimeSlots, days: seq<Series>, hours: int, now: int)
    modifies schedule
    ensures schedule.slots == old(schedule.slots) + PlanSlots(days, hours, now)
    ensures schedule.startTimes == LastStartTimes(old(schedule.startTimes), days, hours)
  {
    ghost var prefix := schedule.slots;
    var i := 0;
    while i < |days|
      invariant 0 <= i <= |days|
      invariant schedule.slots == prefix + PlanSlots(days[..i], hours, now)
      invariant schedule.startTimes == LastStartTimes(old(schedule.startTimes), days[..i], hours)
    {
      AppendDay(schedule, prefix, days, hours, now, i);
      i := i + 1;
    }
    assert days[..|days|] == days;
  }

  /** `PriceList.find_slots` of `w_pandas.py`: create an empty schedule when
      none is given, then append the slots of each day's `required_hours`
      cheapest hours. Null where loading the prices raises. */
  method FindSlots(priceList: PriceList, slots: TimeSlots?, now: int, fetched: FetchOutcome)
    returns (result: TimeSlots?)
    modifies priceList, slots
    ensures var st := LoadStep(old(priceList.prices), priceList.disk.files, priceList.cache, now, fetched);
            && priceList.prices == st.prices
            && (result != null <==> DaysAfter(st).Some?)
            && (result != null ==>
                  && (slots != null ==> result == slots)
                  && (slots == null ==> fresh(result))
                  && result.slots == (if slots != null then old(slots.slots) else [])
                                     + PlanSlots(DaysAfter(st).value, RequiredHours, now)
                  && result.startTimes == LastStartTimes(if slots != null then old(slots.startTimes) else [],
                                                         DaysAfter(st).value, RequiredHours))
            && (result == null && slots != null ==>
                  slots.slots == old(slots.slots) && slots.startTimes == old(slots.startTimes))
  {
    var schedule := slots;
    if schedule == null {
      schedule := new TimeSlots([], now);
    }
    var days := GetDailyPrices(priceList, now, fetched);
    if days.None? {
      return null;
    }
    AppendDays(schedule, days.value, RequiredHours, now);
    result := schedule;
  }
}
