/**
  The elprisetjustnu.se price service of `utils/price_providers.py`.
  `Request` maps every failure of an HTTP exchange to "no data",
  `MakeUrl` names the price file of one calendar day, `ParseData` turns
  the service's JSON list into a series of prices in öre per kWh, and
  `Elprisetjustnu.FetchPrices` asks for today's and tomorrow's files and
  joins the two.

  JSON values and HTTP outcomes come from module `Web`. `float(...)` on a
  string and `dateutil`'s timestamp parser are library code and enter as
  the two functions of `Parsers`.
*/
module PriceProviders {
  import opened Wrappers
  import opened Clock
  import opened Series
  import opened Web

  // -----------------------------------------------------------------------
  // The HTTP exchange

  /** `SpotpriceRequest.request`: the decoded body of a 200 response, and
      `None` for a transport error, any other status, or a body that does
      not decode. */
  function Request(outcome: HttpOutcome): (r: Option<Json>)
    ensures r.Some? <==> outcome.Response? && outcome.status == 200 && outcome.body.Some?
    ensures r.Some? ==> r.value == outcome.body.value
    ensures outcome.TransportError? || (outcome.Response? && outcome.status != 200) ==> r == None
  {
    match outcome
    case TransportError => None
    case Response(status, body) => if status == 200 then body else None
  }

  // -----------------------------------------------------------------------
  // The URL of one day's price file

  const BaseUrl: string := "https://www.elprisetjustnu.se/api/v1/prices"
  const Region: string := "SE3"
  /** What follows the day of month: `_SE3.json`. */
  const FileSuffix: string := "_" + Region + ".json"

  predicate IsDigit(c: char) { '0' <= c <= '9' }

  predicate AllDigits(s: string) { forall i :: 0 <= i < |s| ==> IsDigit(s[i]) }

  function DigitValue(c: char): int { c as int - '0' as int }

  function Digit(d: nat): (c: char)
    requires d < 10
    ensures IsDigit(c) && DigitValue(c) == d
  {
    ('0' as int + d) as char
  }

  /** Decimal notation of `n` without leading zeros (`%Y` of a year). */
  function Decimal(n: nat): (s: string)
    ensures |s| >= 1 && AllDigits(s)
    decreases n
  {
    if n < 10 then [Digit(n)] else Decimal(n / 10) + [Digit(n % 10)]
  }

  /** Two-digit zero-padded notation (`%m`, `%d`). */
  function Pad2(n: nat): (s: string)
    requires n < 100
    ensures |s| == 2 && AllDigits(s)
  {
    [Digit(n / 10), Digit(n % 10)]
  }

  /** The number a string of digits denotes. */
  function ValueOf(s: string): nat
    requires AllDigits(s)
    decreases |s|
  {
    if s == [] then 0 else ValueOf(s[..|s| - 1]) * 10 + DigitValue(s[|s| - 1]) as nat
  }

  /** Reading back a decimal gives the number written. */
  lemma {:induction false} DecimalRoundTrip(n: nat)
    ensures ValueOf(Decimal(n)) == n
    decreases n
  {
    if n >= 10 {
      DecimalRoundTrip(n / 10);
      var s := Decimal(n);
      assert s[..|s| - 1] == Decimal(n / 10);
    }
  }

  lemma Pad2RoundTrip(n: nat)
    requires n < 100
    ensures ValueOf(Pad2(n)) == n
  {
    var s := Pad2(n);
    assert s[..1] == [Digit(n / 10)];
    assert s[..1][..0] == [];
    assert ValueOf(s[..1]) == n / 10;
    assert ValueOf(s) == (n / 10) * 10 + n % 10;
  }

  /** A date `datetime` can hold, in the year range `strftime` writes. */
  predicate UrlDate(d: Date) {
    ValidDate(d) && 1 <= d.year
  }

  /** `Elprisetjustnu.make_url`: base URL, year, month-day and region. */
  function MakeUrl(d: Date): (url: string)
    requires UrlDate(d)
  {
    BaseUrl + "/" + Decimal(d.year) + "/" + Pad2(d.month) + "-" + Pad2(d.day) + FileSuffix
  }

  /** The date a price-file URL names, or `None` when it is not one. */
  function DateOfUrl(url: string): Option<Date> {
    var head := BaseUrl + "/";
    if |url| < |head| || url[..|head|] != head then None else DateOfPath(url[|head|..])
  }

  /** The date of a path `year/MM-DD_SE3.json`. */
  function DateOfPath(path: string): Option<Date> {
    if |path| < 16 then None else DateOfFields(path[..|path| - 15], path[|path| - 15..])
  }

  function DateOfFields(year: string, rest: string): Option<Date>
    requires |rest| == 15
  {
    if AllDigits(year) && rest[0] == '/' && AllDigits(rest[1..3]) && rest[3] == '-'
       && AllDigits(rest[4..6]) && rest[6..] == FileSuffix
    then Some(Date(ValueOf(year), ValueOf(rest[1..3]), ValueOf(rest[4..6])))
    else None
  }

  lemma DateOfUrlPath(path: string)
    ensures DateOfUrl(BaseUrl + "/" + path) == DateOfPath(path)
  {
    var head := BaseUrl + "/";
    assert (head + path)[..|head|] == head && (head + path)[|head|..] == path;
  }

  lemma DateOfPathFields(year: string, rest: string)
    requires |year| >= 1 && |rest| == 15
    ensures DateOfPath(year + rest) == DateOfFields(year, rest)
  {
    var path := year + rest;
    assert path[..|path| - 15] == year && path[|path| - 15..] == rest;
  }

  lemma DateOfFieldsParts(y: string, m: string, d: string)
    requires AllDigits(y) && |m| == 2 && AllDigits(m) && |d| == 2 && AllDigits(d)
    ensures DateOfFields(y, "/" + m + "-" + d + FileSuffix) == Some(Date(ValueOf(y), ValueOf(m), ValueOf(d)))
  {
    var rest := "/" + m + "-" + d + FileSuffix;
    assert rest[1..3] == m && rest[4..6] == d && rest[6..] == FileSuffix;
  }

  /** The URL names exactly the requested day: reading the date back out of
      it gives that date. */
  lemma MakeUrlRoundTrip(d: Date)
    requires UrlDate(d)
    ensures DateOfUrl(MakeUrl(d)) == Some(d)
  {
    var y, m, dd := Decimal(d.year), Pad2(d.month), Pad2(d.day);
    var rest := "/" + m + "-" + dd + FileSuffix;
    assert MakeUrl(d) == BaseUrl + "/" + (y + rest);
    DateOfUrlPath(y + rest);
    DateOfPathFields(y, rest);
    DateOfFieldsParts(y, m, dd);
    DecimalRoundTrip(d.year);
    Pad2RoundTrip(d.month);
    Pad2RoundTrip(d.day);
  }

  /** Different days have different price files. */
  lemma MakeUrlInjective(d1: Date, d2: Date)
    requires UrlDate(d1) && UrlDate(d2) && d1 != d2
    ensures MakeUrl(d1) != MakeUrl(d2)
  {
    MakeUrlRoundTrip(d1);
    MakeUrlRoundTrip(d2);
  }

  // -----------------------------------------------------------------------
  // Assigning by label in a series

  /** `price_list[t] = v`: overwrite the entry labelled `t`, or append one. */
  function Assign(s: Series, t: int, v: real): Series
    decreases |s|
  {
    if s == [] then [Entry(t, v)]
    else if s[0].time == t then [Entry(t, v)] + s[1..]
    else [s[0]] + Assign(s[1..], t, v)
  }

  /** The value labelled `t`, if any. */
  function Lookup(s: Series, t: int): Option<real>
    decreases |s|
  {
    if s == [] then None
    else if s[0].time == t then Some(s[0].price)
    else Lookup(s[1..], t)
  }

  /** No label occurs twice. */
  predicate UniqueTimes(s: Series) {
    forall i, j :: 0 <= i < j < |s| ==> s[i].time != s[j].time
  }

  lemma {:induction false} AssignLookup(s: Series, t: int, v: real, u: int)
    ensures Lookup(Assign(s, t, v), u) == if u == t then Some(v) else Lookup(s, u)
    decreases |s|
  {
    if s != [] && s[0].time != t {
      AssignLookup(s[1..], t, v, u);
    }
  }

  lemma {:induction false} AssignTimes(s: Series, t: int, v: real, u: int)
    ensures u in Times(Assign(s, t, v)) <==> u == t || u in Times(s)
    decreases |s|
  {
    if s != [] {
      assert Times(s) == [s[0].time] + Times(s[1..]);
      if s[0].time == t {
        assert Times(Assign(s, t, v)) == [t] + Times(s[1..]);
      } else {
        AssignTimes(s[1..], t, v, u);
        assert Times(Assign(s, t, v)) == [s[0].time] + Times(Assign(s[1..], t, v));
      }
    }
  }

  lemma {:induction false} AssignUnique(s: Series, t: int, v: real)
    requires UniqueTimes(s)
    ensures UniqueTimes(Assign(s, t, v))
    decreases |s|
  {
    if s != [] {
      var r := Assign(s, t, v);
      if s[0].time == t {
        forall i, j | 0 <= i < j < |r| ensures r[i].time != r[j].time {
          assert r[j] == s[j];
          if i > 0 { assert r[i] == s[i]; }
        }
      } else {
        var rest := Assign(s[1..], t, v);
        AssignUnique(s[1..], t, v);
        forall i, j | 0 <= i < j < |r| ensures r[i].time != r[j].time {
          assert r[j] == rest[j - 1];
          if i > 0 {
            assert r[i] == rest[i - 1];
          } else {
            AssignTimes(s[1..], t, v, s[0].time);
            assert rest[j - 1].time in Times(rest);
            if rest[j - 1].time in Times(s[1..]) {
              var k :| 0 <= k < |s| - 1 && Times(s[1..])[k] == rest[j - 1].time;
              assert s[k + 1].time == s[1..][k].time;
            }
          }
        }
      }
    }
  }

  /** In a series without repeated labels, looking up an entry's label
      finds that entry's value; a label that is found labels an entry. */
  lemma {:induction false} LookupEntries(s: Series, t: int)
    requires UniqueTimes(s)
    ensures forall e :: e in s && e.time == t ==> Lookup(s, t) == Some(e.price)
    ensures Lookup(s, t).Some? ==> Entry(t, Lookup(s, t).value) in s
    decreases |s|
  {
    if s != [] {
      assert UniqueTimes(s[1..]) by {
        forall i, j | 0 <= i < j < |s| - 1 ensures s[1..][i].time != s[1..][j].time {
          assert s[1..][i] == s[i + 1] && s[1..][j] == s[j + 1];
        }
      }
      LookupEntries(s[1..], t);
      forall e | e in s && e.time == t ensures Lookup(s, t) == Some(e.price) {
        var k :| 0 <= k < |s| && s[k] == e;
        if k > 0 {
          assert s[0].time != t;
          assert e == s[1..][k - 1];
        }
      }
    }
  }

  // -----------------------------------------------------------------------
  // parse_data

  /** Library conversions the parser relies on: `float(str)` and
      `dateutil.parser.parse(str)`, each `None` where it raises. */
  datatype Parsers = Parsers(number: string -> Option<real>, instant: string -> Option<int>)

  /** `float(x)` of a JSON value, `None` where it raises. */
  function ToFloat(j: Json, parsers: Parsers): Option<real> {
    match j
    case JNum(n) => Some(n)
    case JBool(b) => Some(if b then 1.0 else 0.0)
    case JStr(s) => parsers.number(s)
    case _ => None
  }

  /** `parser.parse(x)` of a JSON value, `None` where it raises. */
  function ToInstant(j: Json, parsers: Parsers): Option<int> {
    if j.JStr? then parsers.instant(j.s) else None
  }

  /** The entry a record contributes: its start time and its price in öre,
      when the price converts to a non-zero number and the time parses. */
  function Record(fields: map<string, Json>, parsers: Parsers): Option<Entry> {
    var sek := if "SEK_per_kWh" in fields then ToFloat(fields["SEK_per_kWh"], parsers) else None;
    var time := if "time_start" in fields then ToInstant(fields["time_start"], parsers) else None;
    if sek.Some? && sek.value != 0.0 && time.Some? then Some(Entry(time.value, sek.value * 100.0))
    else None
  }

  /** Every item is an object; any other item makes `item.get` raise. */
  predicate AllObjects(items: seq<Json>) {
    forall i :: 0 <= i < |items| ==> items[i].JObject?
  }

  /** The entry of an item, if it is a record that contributes one. */
  function ItemEntry(item: Json, parsers: Parsers): Option<Entry> {
    if item.JObject? then Record(item.fields, parsers) else None
  }

  /** The series the loop builds from `items`, record by record. */
  function Collect(items: seq<Json>, parsers: Parsers): Series
    decreases |items|
  {
    if items == [] then []
    else
      var s := Collect(items[..|items| - 1], parsers);
      match ItemEntry(items[|items| - 1], parsers)
      case None => s
      case Some(e) => Assign(s, e.time, e.price)
  }

  /** What `parse_data` ends with. */
  datatype ParseOutcome = NoData | ParseRaised | Parsed(series: Series)

  /** `Elprisetjustnu.parse_data`: `None` for absent or empty data, an
      exception for data that is not a list or holds a non-object item,
      otherwise the collected series. */
  function ParseSpec(data: Option<Json>, parsers: Parsers): ParseOutcome {
    if data.None? || !Truthy(data.value) then NoData
    else if !data.value.JList? || !AllObjects(data.value.items) then ParseRaised
    else Parsed(Collect(data.value.items, parsers))
  }

  /** The series after one more item, and the items so far all objects. */
  lemma CollectStep(items: seq<Json>, parsers: Parsers, i: nat)
    requires i < |items| && items[i].JObject? && AllObjects(items[..i])
    ensures AllObjects(items[..i + 1])
    ensures Collect(items[..i + 1], parsers) ==
              match Record(items[i].fields, parsers)
              case None => Collect(items[..i], parsers)
              case Some(e) => Assign(Collect(items[..i], parsers), e.time, e.price)
  {
    assert items[..i + 1][..i] == items[..i];
    assert items[..i + 1][i] == items[i];
  }

  /** `parse_data` as the loop it is: assign each contributing record into
      a series that starts empty. */
  method ParseData(data: Option<Json>, parsers: Parsers) returns (r: ParseOutcome)
    ensures r == ParseSpec(data, parsers)
  {
    if data.None? || !Truthy(data.value) {
      return NoData;
    }
    if !data.value.JList? {
      return ParseRaised;
    }
    var items := data.value.items;
    var priceList: Series := [];
    var i := 0;
    while i < |items|
      invariant 0 <= i <= |items|
      invariant AllObjects(items[..i])
      invariant priceList == Collect(items[..i], parsers)
    {
      if !items[i].JObject? {
        return ParseRaised;
      }
      CollectStep(items, parsers, i);
      var entry := Record(items[i].fields, parsers);
      if entry.Some? {
        priceList := Assign(priceList, entry.value.time, entry.value.price);
      }
      i := i + 1;
    }
    assert items[..|items|] == items;
    return Parsed(priceList);
  }

  /** The reference reading of the records: the price of the last
      contributing record labelled `t`. */
  function LastPrice(items: seq<Json>, t: int, parsers: Parsers): Option<real>
    decreases |items|
  {
    if items == [] then None
    else
      var e := ItemEntry(items[|items| - 1], parsers);
      if e.Some? && e.value.time == t then Some(e.value.price)
      else LastPrice(items[..|items| - 1], t, parsers)
  }

  /** The collected series has no repeated label, and the value under each
      label is that of the last record carrying it: a later record
      overwrites an earlier one. */
  lemma {:induction false} CollectLookup(items: seq<Json>, parsers: Parsers, t: int)
    ensures UniqueTimes(Collect(items, parsers))
    ensures Lookup(Collect(items, parsers), t) == LastPrice(items, t, parsers)
    decreases |items|
  {
    if items != [] {
      var init := items[..|items| - 1];
      CollectLookup(init, parsers, t);
      var e := ItemEntry(items[|items| - 1], parsers);
      if e.Some? {
        AssignLookup(Collect(init, parsers), e.value.time, e.value.price, t);
        AssignUnique(Collect(init, parsers), e.value.time, e.value.price);
      }
    }
  }

  /** A contributing record: a non-zero price and a time that parses. */
  predicate Contributes(item: Json, parsers: Parsers) {
    item.JObject? && Record(item.fields, parsers).Some?
  }

  /** The last price labelled `t` comes from some contributing record with
      that label, and it is 100 times its non-zero kWh price. */
  lemma {:induction false} LastPriceSource(items: seq<Json>, t: int, parsers: Parsers) returns (k: nat)
    requires LastPrice(items, t, parsers).Some?
    ensures k < |items| && Contributes(items[k], parsers)
    ensures ItemEntry(items[k], parsers) == Some(Entry(t, LastPrice(items, t, parsers).value))
    ensures LastPrice(items, t, parsers).value != 0.0
    decreases |items|
  {
    var e := ItemEntry(items[|items| - 1], parsers);
    if e.Some? && e.value.time == t {
      k := |items| - 1;
    } else {
      k := LastPriceSource(items[..|items| - 1], t, parsers);
      assert items[..|items| - 1][k] == items[k];
    }
  }

  /** Outcome of `parse_data`: `None` exactly for absent or falsy data;
      an exception exactly for non-empty data that is not a list of
      objects; otherwise a series with unique labels whose every entry is
      the last contributing record for its label, and which has an entry
      for every label some contributing record carries. */
  lemma ParseSpecOutcome(data: Option<Json>, parsers: Parsers)
    ensures ParseSpec(data, parsers) == NoData <==> data.None? || !Truthy(data.value)
    ensures ParseSpec(data, parsers) == ParseRaised <==>
              data.Some? && Truthy(data.value) && (!data.value.JList? || !AllObjects(data.value.items))
    ensures ParseSpec(data, parsers).Parsed? ==>
              var s := ParseSpec(data, parsers).series;
              && UniqueTimes(s)
              && (forall e :: e in s ==> LastPrice(data.value.items, e.time, parsers) == Some(e.price) && e.price != 0.0)
  {
    if ParseSpec(data, parsers).Parsed? {
      var items := data.value.items;
      var s := Collect(items, parsers);
      forall e | e in s ensures LastPrice(items, e.time, parsers) == Some(e.price) && e.price != 0.0 {
        CollectLookup(items, parsers, e.time);
        LookupEntries(s, e.time);
        var k := LastPriceSource(items, e.time, parsers);
      }
      CollectLookup(items, parsers, 0);
    }
  }

  /** Every contributing record's label is in the parsed series. */
  lemma RecordsAreKept(items: seq<Json>, parsers: Parsers, k: nat)
    requires k < |items| && Contributes(items[k], parsers)
    ensures ItemEntry(items[k], parsers).value.time in Times(Collect(items, parsers))
  {
    var t := ItemEntry(items[k], parsers).value.time;
    LastPriceFound(items, parsers, k);
    CollectLookup(items, parsers, t);
    LookupEntries(Collect(items, parsers), t);
    var s := Collect(items, parsers);
    var i :| 0 <= i < |s| && s[i] == Entry(t, Lookup(s, t).value);
    assert Times(s)[i] == t;
  }

  lemma {:induction false} LastPriceFound(items: seq<Json>, parsers: Parsers, k: nat)
    requires k < |items| && Contributes(items[k], parsers)
    ensures LastPrice(items, ItemEntry(items[k], parsers).value.time, parsers).Some?
    decreases |items|
  {
    var t := ItemEntry(items[k], parsers).value.time;
    var e := ItemEntry(items[|items| - 1], parsers);
    if !(e.Some? && e.value.time == t) {
      assert k < |items| - 1;
      assert items[..|items| - 1][k] == items[k];
      LastPriceFound(items[..|items| - 1], parsers, k);
    }
  }

  /** A record priced at exactly zero contributes nothing, whatever its time. */
  lemma ZeroPriceSkipped(fields: map<string, Json>, parsers: Parsers)
    requires "SEK_per_kWh" in fields && ToFloat(fields["SEK_per_kWh"], parsers) == Some(0.0)
    ensures Record(fields, parsers) == None
  {
  }

  // -----------------------------------------------------------------------
  // fetch_prices

  /** `pd.concat([p1, p2])`: `None` operands are dropped, and all of them
      being `None` raises. */
  function Concat(p1: ParseOutcome, p2: ParseOutcome): Option<Series>
    requires !p1.ParseRaised? && !p2.ParseRaised?
  {
    if p1.NoData? && p2.NoData? then None
    else Some((if p1.Parsed? then p1.series else []) + (if p2.Parsed? then p2.series else []))
  }

  /** Where `fetch_prices` leaves the URL, and the joined series (`None`
      when it raises). */
  datatype FetchResult = FetchResult(url: string, joined: Option<Series>)

  /** A clock reading whose day and the day after are both dates `datetime`
      can hold. */
  predicate Datable(now: int) {
    UrlDate(DateOfDay(Day(now))) && UrlDate(DateOfDay(Day(now) + 1))
  }

  function TodayUrl(now: int): string
    requires Datable(now)
  {
    MakeUrl(DateOfDay(Day(now)))
  }

  function TomorrowUrl(now: int): string
    requires Datable(now)
  {
    MakeUrl(DateOfDay(Day(now) + 1))
  }

  /** `Elprisetjustnu.fetch_prices` on the service's answers `server(url)`,
      with the clock read twice (`now`, then `later`). */
  function Fetch(server: string -> HttpOutcome, parsers: Parsers, now: int, later: int): FetchResult
    requires Datable(now) && Datable(later)
  {
    var p1 := ParseSpec(Request(server(TodayUrl(now))), parsers);
    if p1.ParseRaised? then FetchResult(TodayUrl(now), None)
    else
      var p2 := ParseSpec(Request(server(TomorrowUrl(later))), parsers);
      if p2.ParseRaised? then FetchResult(TomorrowUrl(later), None)
      else FetchResult(TomorrowUrl(later), Concat(p1, p2))
  }

  /** The price service client. */
  class Elprisetjustnu {
    var url: string
    var priceList: Option<Series>

    /** The URL starts at the price file of the day of `when`, and no
        prices are held yet. */
    constructor (when: int)
      requires UrlDate(DateOfDay(Day(when)))
      ensures url == MakeUrl(DateOfDay(Day(when))) && priceList == None
    {
      url := MakeUrl(DateOfDay(Day(when)));
      priceList := None;
    }

    /** Fetch today's file, then tomorrow's, and join them; `raised` when
        either parse or the join raises, in which case the held prices are
        unchanged. */
    method FetchPrices(server: string -> HttpOutcome, parsers: Parsers, now: int, later: int)
      returns (raised: bool, prices: Series)
      requires Datable(now) && Datable(later)
      modifies this
      ensures var f := Fetch(server, parsers, now, later);
              && url == f.url
              && (raised <==> f.joined.None?)
              && (raised ==> priceList == old(priceList))
              && (!raised ==> priceList == Some(prices) && prices == f.joined.value)
    {
      url := TodayUrl(now);
      var p1 := ParseData(Request(server(url)), parsers);
      if p1.ParseRaised? {
        return true, [];
      }
      url := TomorrowUrl(later);
      var p2 := ParseData(Request(server(url)), parsers);
      if p2.ParseRaised? || (p1.NoData? && p2.NoData?) {
        return true, [];
      }
      prices := (if p1.Parsed? then p1.series else []) + (if p2.Parsed? then p2.series else []);
      priceList := Some(prices);
      raised := false;
    }
  }

  /** The two requests of a fetch go to the price files of the day of the
      first clock reading and of the day after the second; the URL is left
      at the second; a fetch succeeds exactly when both answers parse and
      at least one holds data, and then the joined series is today's
      entries followed by tomorrow's. */
  lemma FetchShape(server: string -> HttpOutcome, parsers: Parsers, now: int, later: int)
    requires Datable(now) && Datable(later)
    ensures DateOfUrl(TodayUrl(now)) == Some(DateOfDay(Day(now)))
    ensures DateOfUrl(TomorrowUrl(later)) == Some(DateOfDay(Day(later) + 1))
    ensures var f := Fetch(server, parsers, now, later);
            var p1 := ParseSpec(Request(server(TodayUrl(now))), parsers);
            var p2 := ParseSpec(Request(server(TomorrowUrl(later))), parsers);
            && (f.joined.Some? <==> !p1.ParseRaised? && !p2.ParseRaised? && (p1.Parsed? || p2.Parsed?))
            && (!p1.ParseRaised? ==> f.url == TomorrowUrl(later))
            && (p1.Parsed? && p2.Parsed? ==> f.joined == Some(p1.series + p2.series))
            && (p1.NoData? && p2.Parsed? ==> f.joined == Some(p2.series))
            && (p1.Parsed? && p2.NoData? ==> f.joined == Some(p1.series))
  {
    MakeUrlRoundTrip(DateOfDay(Day(now)));
    MakeUrlRoundTrip(DateOfDay(Day(later) + 1));
    var p1 := ParseSpec(Request(server(TodayUrl(now))), parsers);
    var p2 := ParseSpec(Request(server(TomorrowUrl(later))), parsers);
    if p1.Parsed? && p2.NoData? {
      assert p1.series + [] == p1.series;
    }
    if p1.NoData? && p2.Parsed? {
      assert [] + p2.series == p2.series;
    }
  }
}
