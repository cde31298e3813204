/**
  The price engine of `utils/spot_price.py`: a `PriceList` that keeps the
  day-ahead series, refreshes it at most every four hours from a cache file
  (younger than six hours) or from the price service, and answers the
  current hour's price and its rank among today's prices.

  Exceptions are explicit: a method returns `raised` where the source
  raises, and a query returns `None` where the source raises instead of
  returning a value.
*/
module SpotPrice {
  import opened Wrappers
  import opened Clock
  import opened Series
  import opened FileCache

  /** `PriceList.cache_timeout_s`. */
  const CacheTimeout: int := 6 * 3600
  /** `PriceList.update_interval`. */
  const UpdateInterval: int := 4 * 3600
  /** The rank reported when the current hour is not among today's prices. */
  const NotRanked: nat := 24

  /** What `service.get_prices()` did: raised, or returned a series or None. */
  datatype FetchOutcome = FetchRaised | FetchReturned(series: Option<Series>)

  type Files = map<string, File<Series>>

  /** `self.prices` and `self.last_updated`. */
  datatype Engine = Engine(prices: Option<Series>, lastUpdated: int)

  /** Where a refresh took the series from (`Untouched`: no refresh). */
  datatype Source = Untouched | FromCache | FromService

  datatype Step = Step(prices: Option<Series>, files: Files, source: Source, raised: bool)

  /** A fresh `PriceList`: no prices, last updated one day before `now`. */
  function InitialEngine(now: int): Engine {
    Engine(None, now - SecondsPerDay)
  }

  /** The files after `cache_write`: the series is written unless it is None. */
  function CacheWritten(files: Files, path: string, prices: Option<Series>, now: int): Files {
    if prices.Some? then files[path := File(Intact(prices.value), now)] else files
  }

  /** What `cache_read` loads; None where reading raises (no file, unparsable file). */
  function CacheReadback(files: Files, path: string): Option<Series> {
    if path in files && files[path].content.Intact? then Some(files[path].content.value) else None
  }

  /** `get_prices`: read the cache if it is younger than the timeout,
      otherwise ask the service and write what it returned to the cache. */
  function GetPricesStep(prices: Option<Series>, files: Files, path: string, now: int,
                         fetched: FetchOutcome): Step
  {
    if Age(files, path, now) < CacheTimeout then
      var read := CacheReadback(files, path);
      if read.Some? then Step(read, files, FromCache, false)
      else Step(prices, files, FromCache, true)
    else
      match fetched
      case FetchRaised => Step(prices, files, FromService, true)
      case FetchReturned(p) => Step(p, CacheWritten(files, path, p, now), FromService, false)
  }

  datatype UpdateResult = UpdateResult(engine: Engine, files: Files, source: Source, raised: bool)

  /** `update`: refresh only once more than `UpdateInterval` has passed, and
      advance `last_updated` only when the refresh did not raise. */
  function UpdateStep(e: Engine, files: Files, path: string, now: int, fetched: FetchOutcome): UpdateResult {
    if now - e.lastUpdated > UpdateInterval then
      var st := GetPricesStep(e.prices, files, path, now, fetched);
      UpdateResult(Engine(st.prices, if st.raised then e.lastUpdated else now), st.files, st.source, st.raised)
    else
      UpdateResult(e, files, Untouched, false)
  }

  class PriceList {
    const cache: string
    const disk: Disk<Series>
    var prices: Option<Series>
    var lastUpdated: int

    function State(): Engine
      reads this
    {
      Engine(prices, lastUpdated)
    }

    constructor (cache: string, disk: Disk<Series>, now: int)
      ensures this.cache == cache && this.disk == disk
      ensures State() == InitialEngine(now)
    {
      this.cache := cache;
      this.disk := disk;
      prices := None;
      lastUpdated := now - SecondsPerDay;
    }

    method CacheWrite(now: int)
      modifies disk
      ensures disk.files == CacheWritten(old(disk.files), cache, prices, now)
    {
      if prices.Some? {
        disk.Write(cache, prices.value, now);
      }
    }

    method CacheRead() returns (raised: bool)
      modifies this
      ensures raised <==> CacheReadback(disk.files, cache).None?
      ensures prices == if raised then old(prices) else CacheReadback(disk.files, cache)
      ensures lastUpdated == old(lastUpdated)
    {
      if cache in disk.files && disk.files[cache].content.Intact? {
        prices := Some(disk.files[cache].content.value);
        raised := false;
      } else {
        raised := true;
      }
    }

    method GetPrices(now: int, fetched: FetchOutcome) returns (source: Source, raised: bool)
      modifies this, disk
      ensures var st := GetPricesStep(old(prices), old(disk.files), cache, now, fetched);
              prices == st.prices && disk.files == st.files && source == st.source && raised == st.raised
      ensures lastUpdated == old(lastUpdated)
    {
      var age := now - (if cache in disk.files then disk.files[cache].mtime else 0);
      if age < CacheTimeout {
        source := FromCache;
        raised := CacheRead();
      } else {
        source := FromService;
        match fetched
        case FetchRaised =>
          raised := true;
        case FetchReturned(p) =>
          prices := p;
          CacheWrite(now);
          raised := false;
      }
    }

    method Update(now: int, fetched: FetchOutcome) returns (source: Source, raised: bool)
      modifies this, disk
      ensures var u := UpdateStep(old(State()), old(disk.files), cache, now, fetched);
              State() == u.engine && disk.files == u.files && source == u.source && raised == u.raised
    {
      if now - lastUpdated > UpdateInterval {
        source, raised := GetPrices(now, fetched);
        if !raised {
          lastUpdated := now;
        }
      } else {
        source, raised := Untouched, false;
      }
    }
  }

  // -----------------------------------------------------------------------
  // Properties of the refresh policy

  /** Within the interval nothing is refreshed and nothing changes; past it,
      `get_prices` runs. The comparison is strict. */
  lemma UpdateGate(e: Engine, files: Files, path: string, now: int, fetched: FetchOutcome)
    ensures var u := UpdateStep(e, files, path, now, fetched);
            (now - e.lastUpdated <= UpdateInterval <==> u.source == Untouched)
            && (u.source == Untouched ==> u.engine == e && u.files == files && !u.raised)
  {
  }

  /** A refresh that raised leaves `last_updated` (and the prices) as they
      were, so the next call retries; one that did not stamps `now`. */
  lemma UpdateRetriesAfterFailure(e: Engine, files: Files, path: string, now: int, fetched: FetchOutcome)
    ensures var u := UpdateStep(e, files, path, now, fetched);
            (u.raised ==> u.engine == e && UpdateStep(u.engine, u.files, path, now + 1, fetched).source != Untouched)
            && (u.source != Untouched && !u.raised ==> u.engine.lastUpdated == now)
  {
  }

  /** A new `PriceList` refreshes on its first update. */
  lemma FirstUpdateRefreshes(created: int, now: int, files: Files, path: string, fetched: FetchOutcome)
    requires created <= now
    ensures UpdateStep(InitialEngine(created), files, path, now, fetched).source != Untouched
  {
  }

  /** Updates within the interval after a successful refresh, and a second
      update at the same instant, do nothing: nothing is read or fetched
      and the state stays as the first update left it. */
  lemma UpdateIdempotentWithinInterval(e: Engine, files: Files, path: string, now: int, later: int,
                                       fetched: FetchOutcome, fetched2: FetchOutcome)
    requires now <= later <= now + UpdateInterval
    ensures var u := UpdateStep(e, files, path, now, fetched);
            !u.raised && (u.source != Untouched || later == now) ==>
              var v := UpdateStep(u.engine, u.files, path, later, fetched2);
              v.source == Untouched && v.engine == u.engine && v.files == u.files && !v.raised
  {
  }

  /** The cache is read exactly when it is younger than six hours;
      otherwise the service is asked. */
  lemma CacheFreshness(prices: Option<Series>, files: Files, path: string, now: int, fetched: FetchOutcome)
    ensures var st := GetPricesStep(prices, files, path, now, fetched);
            (st.source == FromCache <==> Age(files, path, now) < CacheTimeout)
            && (st.source == FromService <==> Age(files, path, now) >= CacheTimeout)
  {
  }

  /** A missing cache file counts as written at the epoch: from six hours
      after the epoch on, it is always stale and the service is asked. */
  lemma MissingCacheIsStale(prices: Option<Series>, files: Files, path: string, now: int, fetched: FetchOutcome)
    requires path !in files && now >= CacheTimeout
    ensures GetPricesStep(prices, files, path, now, fetched).source == FromService
  {
  }

  /** A fetch that returned a series writes it to the cache, and a read
      within six hours gives back that same series; a fetch that returned
      None writes nothing. */
  lemma CacheRoundTrip(prices: Option<Series>, files: Files, path: string, now: int,
                       fetched: FetchOutcome, later: int, prices2: Option<Series>, fetched2: FetchOutcome)
    requires Age(files, path, now) >= CacheTimeout && fetched.FetchReturned?
    requires now <= later < now + CacheTimeout
    ensures var st := GetPricesStep(prices, files, path, now, fetched);
            (fetched.series.None? ==> st.files == files && st.prices == None)
            && (fetched.series.Some? ==>
                  var st2 := GetPricesStep(prices2, st.files, path, later, fetched2);
                  st2.source == FromCache && !st2.raised && st2.prices == fetched.series)
  {
  }

  /** A cache file that is young but unparsable makes every refresh raise
      without asking the service, whatever the service would return. */
  lemma CorruptFreshCacheBlocksRefresh(prices: Option<Series>, files: Files, path: string, now: int,
                                       fetched: FetchOutcome)
    requires path in files && files[path].content.Corrupt? && now - files[path].mtime < CacheTimeout
    ensures var st := GetPricesStep(prices, files, path, now, fetched);
            st.raised && st.source == FromCache && st.prices == prices && st.files == files
  {
  }

  // -----------------------------------------------------------------------
  // Queries

  /** The (day of month, hour) bucket of `now`. */
  predicate InBucket(e: Entry, now: int) {
    DayOfMonth(e.time) == DayOfMonth(now) && HourOf(e.time) == HourOf(now)
  }

  /** The masks `index.day == now.day`, `index.hour == now.hour` and both. */
  function SameDay(now: int): Entry -> bool { (e: Entry) => DayOfMonth(e.time) == DayOfMonth(now) }
  function SameHour(now: int): Entry -> bool { (e: Entry) => HourOf(e.time) == HourOf(now) }
  function SameBucket(now: int): Entry -> bool { (e: Entry) => InBucket(e, now) }

  /** `current_price`: the price of the first entry in the bucket of `now`.
      None where the source raises: no prices at all, or an empty bucket
      (`values[0]` raises IndexError). */
  function CurrentPrice(prices: Option<Series>, now: int): (r: Option<real>)
    ensures r.Some? ==> prices.Some?
  {
    if prices.None? then None
    else
      var bucket := Filter(Filter(prices.value, SameDay(now)), SameHour(now));
      if bucket == [] then None else Some(bucket[0].price)
  }

  /** The current price exists exactly when some entry lies in the bucket
      of `now`, and it is the price of the first such entry. */
  lemma CurrentPriceIsFirstInBucket(prices: Option<Series>, now: int)
    ensures var r := CurrentPrice(prices, now);
            && (r.Some? <==> prices.Some? && exists i :: 0 <= i < |prices.value| && InBucket(prices.value[i], now))
            && (r.Some? ==> exists i :: 0 <= i < |prices.value| && InBucket(prices.value[i], now)
                                         && r.value == prices.value[i].price
                                         && forall j :: 0 <= j < i ==> !InBucket(prices.value[j], now))
  {
    if prices.Some? {
      var s := prices.value;
      var inBucket := SameBucket(now);
      FilterFilter(s, SameDay(now), SameHour(now), inBucket);
      var bucket := Filter(s, inBucket);
      if bucket == [] {
        forall i | 0 <= i < |s| ensures !InBucket(s[i], now) {
          assert s[i] in s;
        }
      } else {
        FilterHead(s, inBucket);
        var i :| 0 <= i < |s| && s[i] == bucket[0] && forall j :: 0 <= j < i ==> !inBucket(s[j]);
        assert bucket[0] in bucket;
        assert InBucket(s[i], now);
        assert forall j :: 0 <= j < i ==> !InBucket(s[j], now);
      }
    }
  }

  /** The position of key `k` in `ks` (the loop over `groupby`'s pairs). */
  function FindKey(ks: seq<int>, k: int): (r: Option<nat>)
    ensures r.None? <==> k !in ks
    ensures r.Some? ==> r.value < |ks| && ks[r.value] == k
  {
    if ks == [] then None
    else if ks[0] == k then Some(0)
    else
      var r := FindKey(ks[1..], k);
      if r.None? then None else Some(r.value + 1)
  }

  /** `get_daily_prices()`: one series per day of month, ascending. */
  function DailyPrices(s: Series): (r: seq<Series>)
    ensures |r| == |GroupKeys(s, DayOfMonth)|
    ensures forall i :: 0 <= i < |r| ==> r[i] == OnKey(s, DayOfMonth, GroupKeys(s, DayOfMonth)[i])
  {
    Groups(s, DayOfMonth)
  }

  /** `get_daily_prices(today=True)`: today's group, found by day of month.
      None where the source returns the list of all groups instead, which
      its caller cannot sort. */
  function TodaysPrices(s: Series, now: int): (r: Option<Series>)
    ensures r.Some? <==> DayOfMonth(now) in KeySet(s, DayOfMonth)
    ensures r.Some? ==> r.value == OnKey(s, DayOfMonth, DayOfMonth(now))
  {
    var i := FindKey(GroupKeys(s, DayOfMonth), DayOfMonth(now));
    if i.None? then None else Some(DailyPrices(s)[i.value])
  }

  /** Today's group exists exactly when some entry falls on today's day of
      month. */
  lemma TodaysPricesAreToday(s: Series, now: int)
    ensures TodaysPrices(s, now).Some? <==> exists i :: 0 <= i < |s| && DayOfMonth(s[i].time) == DayOfMonth(now)
  {
    KeySetMembers(s, DayOfMonth, DayOfMonth(now));
  }

  /** `todays_sorted`: today's prices, ascending; None where the source raises. */
  function TodaysSorted(prices: Option<Series>, now: int): (r: Option<Series>)
    ensures r.Some? <==> prices.Some? && TodaysPrices(prices.value, now).Some?
    ensures r.Some? ==> SortedBy(r.value, PriceOf)
                        && multiset(r.value) == multiset(TodaysPrices(prices.value, now).value)
  {
    if prices.None? then None
    else
      var today := TodaysPrices(prices.value, now);
      if today.None? then None else Some(SortBy(today.value, PriceOf))
  }

  /** `r` is what the search of `current_ranking` returns over `sorted`:
      the position of the first entry in hour `hour`, or 24 when none is. */
  ghost predicate IsRank(sorted: Series, hour: int, r: nat) {
    || (r < |sorted| && HourOf(sorted[r].time) == hour
        && forall j :: 0 <= j < r ==> HourOf(sorted[j].time) != hour)
    || (r == NotRanked && forall j :: 0 <= j < |sorted| ==> HourOf(sorted[j].time) != hour)
  }

  function RankFrom(sorted: Series, hour: int, i: nat): (r: nat)
    requires i <= |sorted|
    requires forall j :: 0 <= j < i ==> HourOf(sorted[j].time) != hour
    ensures IsRank(sorted, hour, r)
    decreases |sorted| - i
  {
    if i == |sorted| then NotRanked
    else if HourOf(sorted[i].time) == hour then i
    else RankFrom(sorted, hour, i + 1)
  }

  /** `current_ranking` as a value: None where the source raises. */
  function Ranking(prices: Option<Series>, now: int): (r: Option<nat>)
    ensures r.Some? <==> TodaysSorted(prices, now).Some?
    ensures r.Some? ==> IsRank(TodaysSorted(prices, now).value, HourOf(now), r.value)
  {
    var sorted := TodaysSorted(prices, now);
    if sorted.None? then None else Some(RankFrom(sorted.value, HourOf(now), 0))
  }

  /** `current_ranking`: the search loop over today's sorted prices. */
  method CurrentRanking(prices: Option<Series>, now: int) returns (r: Option<nat>)
    ensures r == Ranking(prices, now)
    ensures r.Some? ==> r.value < |TodaysSorted(prices, now).value| || r.value == NotRanked
  {
    var sorted := TodaysSorted(prices, now);
    if sorted.None? {
      return None;
    }
    var items := sorted.value;
    var hour := HourOf(now);
    var i := 0;
    while i < |items|
      invariant 0 <= i <= |items|
      invariant forall j :: 0 <= j < i ==> HourOf(items[j].time) != hour
      invariant RankFrom(items, hour, 0) == RankFrom(items, hour, i)
    {
      if HourOf(items[i].time) == hour {
        return Some(i);
      }
      i := i + 1;
    }
    r := Some(NotRanked);
  }

  function Below(v: real): Entry -> bool { (e: Entry) => e.price < v }
  function AtMost(v: real): Entry -> bool { (e: Entry) => e.price <= v }
  function Equal(v: real): Entry -> bool { (e: Entry) => e.price == v }

  /** In today's ascending prices, everything before the rank costs at most
      the current hour's price and everything after it at least as much. */
  lemma RankSplitsPrices(prices: Option<Series>, now: int)
    requires Ranking(prices, now).Some?
    ensures var sorted := TodaysSorted(prices, now).value;
            var r := Ranking(prices, now).value;
            r < |sorted| ==>
              (forall j :: 0 <= j < r ==> sorted[j].price <= sorted[r].price)
              && (forall j :: r < j < |sorted| ==> sorted[r].price <= sorted[j].price)
  {
  }

  /** In an ascending sequence, the entries strictly cheaper than position
      `r` all come before it. */
  lemma CheaperComeFirst(sorted: Series, r: nat)
    requires SortedBy(sorted, PriceOf) && r < |sorted|
    ensures Count(sorted, Below(sorted[r].price)) == Count(sorted[..r], Below(sorted[r].price))
  {
    var v := sorted[r].price;
    var after := sorted[r..];
    assert sorted == sorted[..r] + after;
    CountConcat(sorted[..r], after, Below(v));
    forall j | 0 <= j < |after| ensures !Below(v)(after[j]) {
      assert after[j] == sorted[r + j];
      assert PriceOf(sorted[r]) <= PriceOf(sorted[r + j]);
    }
    CountNone(after, Below(v));
  }

  /** In an ascending sequence, every entry up to position `r` costs at most
      the price at `r`. */
  lemma PrefixAtMost(sorted: Series, r: nat)
    requires SortedBy(sorted, PriceOf) && r < |sorted|
    ensures r < Count(sorted, AtMost(sorted[r].price))
  {
    var v := sorted[r].price;
    var upto := sorted[..r + 1];
    assert sorted == upto + sorted[r + 1..];
    CountConcat(upto, sorted[r + 1..], AtMost(v));
    forall j | 0 <= j < |upto| ensures AtMost(v)(upto[j]) {
      assert upto[j] == sorted[j];
      if j < r {
        assert PriceOf(sorted[j]) <= PriceOf(sorted[r]);
      }
    }
    CountAll(upto, AtMost(v));
  }

  /** In an ascending sequence whose price at `r` occurs once, the entries
      before `r` are exactly the strictly cheaper ones. */
  lemma UniquePriceExactCount(sorted: Series, r: nat)
    requires SortedBy(sorted, PriceOf) && r < |sorted|
    requires Count(sorted, Equal(sorted[r].price)) == 1
    ensures Count(sorted[..r], Below(sorted[r].price)) == r
  {
    var v := sorted[r].price;
    var before := sorted[..r];
    CountSplit(sorted, r, Equal(v));
    CountZero(before, Equal(v));
    forall j | 0 <= j < |before| ensures Below(v)(before[j]) {
      assert before[j] == sorted[j];
      assert PriceOf(sorted[j]) <= PriceOf(sorted[r]);
      assert !Equal(v)(before[j]);
    }
    CountAll(before, Below(v));
  }

  /** In an ascending sequence, position `r` has at most `r` entries
      strictly cheaper than it and more than `r` at most as dear; exactly
      `r` cheaper ones when its price occurs once. */
  lemma SortedPositionCounts(sorted: Series, r: nat)
    requires SortedBy(sorted, PriceOf) && r < |sorted|
    ensures var v := sorted[r].price;
            && Count(sorted, Below(v)) <= r < Count(sorted, AtMost(v))
            && (Count(sorted, Equal(v)) == 1 ==> r == Count(sorted, Below(v)))
  {
    CheaperComeFirst(sorted, r);
    PrefixAtMost(sorted, r);
    if Count(sorted, Equal(sorted[r].price)) == 1 {
      UniquePriceExactCount(sorted, r);
    }
  }

  /** The rank counts today's cheaper hours: at least as many as are
      strictly cheaper than the current hour, fewer than those at most as
      dear; when the current hour's price occurs once today, exactly the
      number of strictly cheaper hours. */
  lemma RankCountsCheaperHours(prices: Option<Series>, now: int)
    requires Ranking(prices, now).Some?
    ensures var today := TodaysPrices(prices.value, now).value;
            var sorted := TodaysSorted(prices, now).value;
            var r := Ranking(prices, now).value;
            r < |sorted| ==>
              var v := sorted[r].price;
              && Count(today, Below(v)) <= r < Count(today, AtMost(v))
              && (Count(today, Equal(v)) == 1 ==> r == Count(today, Below(v)))
  {
    var today := TodaysPrices(prices.value, now).value;
    var sorted := TodaysSorted(prices, now).value;
    var r := Ranking(prices, now).value;
    if r < |sorted| {
      var v := sorted[r].price;
      CountSortBy(today, PriceOf, Below(v));
      CountSortBy(today, PriceOf, AtMost(v));
      CountSortBy(today, PriceOf, Equal(v));
      SortedPositionCounts(sorted, r);
    }
  }

  lemma {:induction false} CountZero<T>(s: seq<T>, p: T -> bool)
    requires Count(s, p) == 0
    ensures forall i :: 0 <= i < |s| ==> !p(s[i])
    decreases |s|
  {
    if s != [] {
      CountZero(s[1..], p);
      assert forall i :: 1 <= i < |s| ==> s[i] == s[1..][i - 1];
    }
  }

  /** An entry in the bucket of `now` is among today's prices. */
  lemma BucketEntryIsToday(s: Series, now: int, i: nat)
    requires i < |s| && InBucket(s[i], now)
    ensures TodaysPrices(s, now).Some? && s[i] in TodaysPrices(s, now).value
  {
    TodaysPricesAreToday(s, now);
    assert s[i] in s;
  }

  /** An entry in the bucket of `now` is among today's sorted prices. */
  lemma BucketEntryIsSorted(prices: Option<Series>, now: int, i: nat)
    requires prices.Some? && i < |prices.value| && InBucket(prices.value[i], now)
    ensures TodaysSorted(prices, now).Some? && prices.value[i] in TodaysSorted(prices, now).value
  {
    var s := prices.value;
    BucketEntryIsToday(s, now, i);
    assert s[i] in multiset(TodaysPrices(s, now).value);
  }

  /** When some hour of today's sorted prices is the current hour, the
      search stops at a position of the list. */
  lemma HourInSortedIsRanked(prices: Option<Series>, now: int, x: Entry)
    requires TodaysSorted(prices, now).Some? && x in TodaysSorted(prices, now).value
    requires HourOf(x.time) == HourOf(now)
    ensures Ranking(prices, now).Some? && Ranking(prices, now).value < |TodaysSorted(prices, now).value|
    ensures HourOf(TodaysSorted(prices, now).value[Ranking(prices, now).value].time) == HourOf(now)
  {
    var sorted := TodaysSorted(prices, now).value;
    var k :| 0 <= k < |sorted| && sorted[k] == x;
  }

  /** When the current hour has a price, the rank is found among today's
      prices, at an entry of the current hour: the sentinel 24 is never the
      answer then. */
  lemma PricedHourIsRanked(prices: Option<Series>, now: int)
    requires CurrentPrice(prices, now).Some?
    ensures Ranking(prices, now).Some?
    ensures Ranking(prices, now).value < |TodaysSorted(prices, now).value|
    ensures HourOf(TodaysSorted(prices, now).value[Ranking(prices, now).value].time) == HourOf(now)
  {
    CurrentPriceIsFirstInBucket(prices, now);
    var i :| 0 <= i < |prices.value| && InBucket(prices.value[i], now);
    BucketEntryIsSorted(prices, now, i);
    HourInSortedIsRanked(prices, now, prices.value[i]);
  }
}
