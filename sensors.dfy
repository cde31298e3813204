/**
  The temperature sensors of `utils/sensors.py`. An HTTP sensor reads one
  JSON document per URL and picks its temperature by key priority; every
  name of its map gets a reading, −1000 when nothing usable came back.
  `run_tsensors` merges the one-wire readings with the HTTP readings and
  publishes them with an online announcement, or announces offline when
  there is nothing to publish, once a minute.

  The one-wire readings come from hardware and enter as a map; the HTTP
  answers enter as a function of the URL.
*/
module Sensors {
  import opened Wrappers
  import opened Web
  import opened Mqtt

  /** The reading of a sensor that delivered nothing usable. */
  const NoReading: Json := JNum(-1000.0)

  /** The keys tried for a temperature, in priority order. */
  const TemperatureKeys: seq<string> := ["temperature", "temp", "temp:"]

  /** Seconds between two rounds of `run_tsensors`. */
  const RoundDelay: int := 60

  // -----------------------------------------------------------------------
  // parse_temperature

  /** `key` occurs in `s` as a contiguous piece. */
  predicate IsSubstring(key: string, s: string)
    decreases |s|
  {
    |key| <= |s| && (s[..|key|] == key || IsSubstring(key, s[1..]))
  }

  /** Python's `key in j` on a decoded value: a key of an object, an
      element of a list, a piece of a string; `None` where `in` raises. */
  function Contains(j: Json, key: string): Option<bool> {
    match j
    case JObject(fields) => Some(key in fields)
    case JList(items) => Some(JStr(key) in items)
    case JStr(s) => Some(IsSubstring(key, s))
    case _ => None
  }

  /** What `parse_temperature` ends with: an exception, or a return value
      (`None` when no key matched). */
  datatype Lookup = LookupRaised | Found(value: Option<Json>)

  /** The loop over the keys: the first key `in` the value decides, and
      indexing anything but an object by it raises. */
  function FirstKey(j: Json, keys: seq<string>): Lookup
    decreases |keys|
  {
    if keys == [] then Found(None)
    else
      match Contains(j, keys[0])
      case None => LookupRaised
      case Some(present) =>
        if !present then FirstKey(j, keys[1..])
        else if j.JObject? then Found(Some(j.fields[keys[0]]))
        else LookupRaised
  }

  /** `http_sensors.parse_temperature`. */
  function ParseTemperature(j: Json): Lookup {
    FirstKey(j, TemperatureKeys)
  }

  /** On an object the value is that of `temperature`, else `temp`, else
      `temp:`, else `None`; on a list or a string it raises exactly when one
      of the keys occurs in it; on anything else it raises. */
  lemma ParseTemperaturePriority(j: Json)
    ensures j.JObject? ==>
              var f := j.fields;
              ParseTemperature(j) == Found(
                if "temperature" in f then Some(f["temperature"])
                else if "temp" in f then Some(f["temp"])
                else if "temp:" in f then Some(f["temp:"])
                else None)
    ensures j.JList? ==>
              (ParseTemperature(j) == LookupRaised <==>
                 JStr("temperature") in j.items || JStr("temp") in j.items || JStr("temp:") in j.items)
    ensures j.JStr? ==>
              (ParseTemperature(j) == LookupRaised <==>
                 IsSubstring("temperature", j.s) || IsSubstring("temp", j.s) || IsSubstring("temp:", j.s))
    ensures !j.JObject? && !j.JList? && !j.JStr? ==> ParseTemperature(j) == LookupRaised
    ensures ParseTemperature(j).Found? && !j.JObject? ==> ParseTemperature(j) == Found(None)
  {
    assert TemperatureKeys[1..] == ["temp", "temp:"];
    assert TemperatureKeys[1..][1..] == ["temp:"];
    assert TemperatureKeys[1..][1..][1..] == [];
  }

  // -----------------------------------------------------------------------
  // get_temperatures

  /** One item of `url_name_map`. */
  datatype HttpSensor = HttpSensor(url: string, name: string)

  /** The reading a decoded 200 response gives: the temperature when it is
      truthy, otherwise −1000; `None` when `parse_temperature` raises. */
  function FromBody(j: Json): Option<Json> {
    match ParseTemperature(j)
    case LookupRaised => None
    case Found(v) => Some(if v.Some? && Truthy(v.value) then v.value else NoReading)
  }

  /** The reading of one URL, with a body that does not decode counting as
      no reading; `None` when the request or the lookup raises. */
  function Reading(r: HttpOutcome): Option<Json> {
    match r
    case TransportError => None
    case Response(status, body) =>
      if status != 200 || body.None? then Some(NoReading)
      else FromBody(body.value)
  }

  /** A status other than 200, a body that does not decode, and a missing
      or falsy temperature all leave −1000; a truthy temperature is the
      reading. */
  lemma ReadingDefaults(r: HttpOutcome)
    ensures r.Response? && r.status != 200 ==> Reading(r) == Some(NoReading)
    ensures r.Response? && r.status == 200 && r.body.Some? && ParseTemperature(r.body.value).Found? ==>
              var v := ParseTemperature(r.body.value).value;
              Reading(r) == Some(if v.Some? && Truthy(v.value) then v.value else NoReading)
    ensures r.Response? && r.status == 200 && r.body.Some? && r.body.value.JObject? ==>
              Reading(r).Some?
    ensures Reading(r).None? <==>
              r.TransportError? || (r.status == 200 && r.body.Some? && ParseTemperature(r.body.value) == LookupRaised)
  {
    if r.Response? && r.status == 200 && r.body.Some? && r.body.value.JObject? {
      ParseTemperaturePriority(r.body.value);
    }
  }

  /** What `get_temperatures` ends with. */
  datatype Temps = TempsRaised | Temps(values: map<string, Json>)

  /** The loop of `get_temperatures`, from the result so far. */
  function TemperaturesFrom(sensors: seq<HttpSensor>, responses: string -> HttpOutcome,
                            result: map<string, Json>): Temps
    decreases |sensors|
  {
    if sensors == [] then Temps(result)
    else
      match Reading(responses(sensors[0].url))
      case None => TempsRaised
      case Some(v) => TemperaturesFrom(sensors[1..], responses, result[sensors[0].name := v])
  }

  function Names(sensors: seq<HttpSensor>): set<string> {
    set s | s in sensors :: s.name
  }

  /** Exactly one entry per distinct name of the map (and the earlier
      ones): none is missing and none is added. */
  lemma {:induction false} TemperaturesKeys(sensors: seq<HttpSensor>, responses: string -> HttpOutcome,
                                            result: map<string, Json>)
    ensures var t := TemperaturesFrom(sensors, responses, result);
            t.Temps? ==> t.values.Keys == result.Keys + Names(sensors)
    decreases |sensors|
  {
    if sensors != [] {
      var v := Reading(responses(sensors[0].url));
      if v.Some? {
        TemperaturesKeys(sensors[1..], responses, result[sensors[0].name := v.value]);
        assert Names(sensors) == {sensors[0].name} + Names(sensors[1..]) by {
          forall n | n in Names(sensors) ensures n in {sensors[0].name} + Names(sensors[1..]) {
            var s :| s in sensors && s.name == n;
            var i :| 0 <= i < |sensors| && sensors[i] == s;
            if i > 0 { assert s in sensors[1..]; }
          }
          forall n | n in Names(sensors[1..]) ensures n in Names(sensors) {
            var s :| s in sensors[1..] && s.name == n;
            assert s in sensors;
          }
          assert sensors[0] in sensors;
        }
      }
    }
  }

  /** The call raises exactly when some URL's request or lookup raises. */
  lemma {:induction false} TemperaturesRaise(sensors: seq<HttpSensor>, responses: string -> HttpOutcome,
                                             result: map<string, Json>)
    ensures TemperaturesFrom(sensors, responses, result).TempsRaised? <==>
              exists s :: s in sensors && Reading(responses(s.url)).None?
    decreases |sensors|
  {
    if sensors != [] {
      TemperaturesRaise(sensors[1..], responses, result);
      var v := Reading(responses(sensors[0].url));
      if v.Some? {
        TemperaturesRaise(sensors[1..], responses, result[sensors[0].name := v.value]);
        if exists s :: s in sensors && Reading(responses(s.url)).None? {
          var s :| s in sensors && Reading(responses(s.url)).None?;
          assert s != sensors[0];
          var i :| 0 <= i < |sensors| && sensors[i] == s;
          assert s in sensors[1..];
        }
      } else {
        assert sensors[0] in sensors;
      }
    }
  }

  /** The reading stored under a name is that of the last URL with that
      name. */
  lemma {:induction false} TemperatureOfName(sensors: seq<HttpSensor>, responses: string -> HttpOutcome,
                                             result: map<string, Json>, k: nat)
    requires k < |sensors| && forall j :: k < j < |sensors| ==> sensors[j].name != sensors[k].name
    ensures var t := TemperaturesFrom(sensors, responses, result);
            t.Temps? ==> sensors[k].name in t.values
                         && Some(t.values[sensors[k].name]) == Reading(responses(sensors[k].url))
    decreases |sensors|
  {
    var v := Reading(responses(sensors[0].url));
    if v.Some? {
      var next := result[sensors[0].name := v.value];
      if k == 0 {
        forall s | s in sensors[1..] ensures s.name != sensors[0].name {
          var j :| 0 <= j < |sensors| - 1 && sensors[1..][j] == s;
          assert sensors[j + 1] == s;
        }
        KeepsName(sensors[1..], responses, next, sensors[0].name);
      } else {
        forall j | k - 1 < j < |sensors| - 1 ensures sensors[1..][j].name != sensors[1..][k - 1].name {
          assert sensors[1..][j] == sensors[j + 1];
        }
        TemperatureOfName(sensors[1..], responses, next, k - 1);
      }
    }
  }

  /** A name no remaining URL has keeps its reading. */
  lemma {:induction false} KeepsName(sensors: seq<HttpSensor>, responses: string -> HttpOutcome,
                                     result: map<string, Json>, n: string)
    requires n in result && forall s :: s in sensors ==> s.name != n
    ensures var t := TemperaturesFrom(sensors, responses, result);
            t.Temps? ==> n in t.values && t.values[n] == result[n]
    decreases |sensors|
  {
    if sensors != [] {
      var v := Reading(responses(sensors[0].url));
      if v.Some? {
        assert sensors[0] in sensors;
        forall s | s in sensors[1..] ensures s.name != n {
          assert s in sensors;
        }
        KeepsName(sensors[1..], responses, result[sensors[0].name := v.value], n);
      }
    }
  }

  /** `http_sensors`. */
  class HttpSensors {
    var urlNameMap: seq<HttpSensor>

    constructor (urlNameMap: seq<HttpSensor>)
      ensures this.urlNameMap == urlNameMap
    {
      this.urlNameMap := urlNameMap;
    }

    /** `get_temperatures`: one reading per URL, stored under its name. */
    method GetTemperatures(responses: string -> HttpOutcome) returns (t: Temps)
      ensures t == TemperaturesFrom(urlNameMap, responses, map[])
    {
      var result: map<string, Json> := map[];
      var i := 0;
      while i < |urlNameMap|
        invariant 0 <= i <= |urlNameMap|
        invariant TemperaturesFrom(urlNameMap[i..], responses, result) == TemperaturesFrom(urlNameMap, responses, map[])
      {
        var s := urlNameMap[i];
        assert urlNameMap[i..][0] == s && urlNameMap[i..][1..] == urlNameMap[i + 1..];
        var temperature := NoReading;
        match responses(s.url)
        case TransportError =>
          return TempsRaised;
        case Response(status, body) =>
          if status == 200 && body.Some? {
            var temp := ParseTemperature(body.value);
            if temp.LookupRaised? {
              return TempsRaised;
            }
            if temp.value.Some? && Truthy(temp.value.value) {
              temperature := temp.value.value;
            }
          }
        result := result[s.name := temperature];
        i := i + 1;
      }
      assert urlNameMap[i..] == [];
      return Temps(result);
    }
  }

  // -----------------------------------------------------------------------
  // get_temperatures as written: a body that does not decode

  /** The reading of one URL as the loop is written, with the value left in
      `json_response` by an earlier URL: a body that does not decode makes
      the lookup run on that earlier document, or raise when there is none
      yet. Returns the reading and the new `json_response`. */
  function ReadingAsWritten(r: HttpOutcome, last: Option<Json>): (Option<Json>, Option<Json>) {
    match r
    case TransportError => (None, last)
    case Response(status, body) =>
      if status != 200 then (Some(NoReading), last)
      else if body.Some? then (FromBody(body.value), body)
      else if last.None? then (None, last)
      else (FromBody(last.value), last)
  }

  function TemperaturesAsWritten(sensors: seq<HttpSensor>, responses: string -> HttpOutcome,
                                 result: map<string, Json>, last: Option<Json>): Temps
    decreases |sensors|
  {
    if sensors == [] then Temps(result)
    else
      var (v, next) := ReadingAsWritten(responses(sensors[0].url), last);
      if v.None? then TempsRaised
      else TemperaturesAsWritten(sensors[1..], responses, result[sensors[0].name := v.value], next)
  }

  /** Whether every 200 response carries a body that decodes. */
  predicate AllDecode(sensors: seq<HttpSensor>, responses: string -> HttpOutcome) {
    forall s :: s in sensors && responses(s.url).Response? && responses(s.url).status == 200 ==>
      responses(s.url).body.Some?
  }

  /** When every 200 body decodes, the loop as written and the corrected
      one agree. */
  lemma {:induction false} AsWrittenAgrees(sensors: seq<HttpSensor>, responses: string -> HttpOutcome,
                                           result: map<string, Json>, last: Option<Json>)
    requires AllDecode(sensors, responses)
    ensures TemperaturesAsWritten(sensors, responses, result, last) == TemperaturesFrom(sensors, responses, result)
    decreases |sensors|
  {
    if sensors != [] {
      assert sensors[0] in sensors;
      var (v, next) := ReadingAsWritten(responses(sensors[0].url), last);
      assert v == Reading(responses(sensors[0].url));
      if v.Some? {
        forall s | s in sensors[1..] && responses(s.url).Response? && responses(s.url).status == 200
          ensures responses(s.url).body.Some?
        {
          assert s in sensors;
        }
        AsWrittenAgrees(sensors[1..], responses, result[sensors[0].name := v.value], next);
      }
    }
  }

  /** Two URLs; the first answers `{"temp": 20}`, the second answers 200
      with a body that is not JSON. As written, the second name reports the
      first URL's 20 degrees; the corrected loop reports −1000 for it. */
  lemma ReusedResponse()
    ensures var sensors := [HttpSensor("a", "first"), HttpSensor("b", "second")];
            var doc := JObject(map["temp" := JNum(20.0)]);
            var responses := (u: string) => if u == "a" then Response(200, Some(doc)) else Response(200, None);
            && TemperaturesAsWritten(sensors, responses, map[], None) == Temps(map["first" := JNum(20.0), "second" := JNum(20.0)])
            && TemperaturesFrom(sensors, responses, map[]) == Temps(map["first" := JNum(20.0), "second" := NoReading])
  {
    var sensors := [HttpSensor("a", "first"), HttpSensor("b", "second")];
    var doc := JObject(map["temp" := JNum(20.0)]);
    var responses := (u: string) => if u == "a" then Response(200, Some(doc)) else Response(200, None);
    ParseTemperaturePriority(doc);
    assert FromBody(doc) == Some(JNum(20.0));
    assert sensors[1..] == [HttpSensor("b", "second")];
    assert sensors[1..][1..] == [];
  }

  /** With a single URL, as `run_tsensors` configures it, a body that does
      not decode makes the loop as written raise (`json_response` is still
      unbound), which ends `run_tsensors`; the corrected loop reports −1000. */
  lemma UnboundResponse(url: string, name: string)
    ensures var responses := (u: string) => Response(200, None);
            && TemperaturesAsWritten([HttpSensor(url, name)], responses, map[], None) == TempsRaised
            && TemperaturesFrom([HttpSensor(url, name)], responses, map[]) == Temps(map[name := NoReading])
  {
    assert [HttpSensor(url, name)][1..] == [];
  }

  // -----------------------------------------------------------------------
  // run_tsensors

  /** One round of the loop: the one-wire readings and the HTTP answers,
      or an interrupt. */
  datatype SensorRound = SensorRound(w1: map<string, Json>, responses: string -> HttpOutcome) | Stop

  datatype RoundResult = RoundResult(events: seq<Event<map<string, Json>>>, stop: bool)

  /** `{**result, **w1}` then `{**result, **http}`: the HTTP reading wins
      for a name both have. */
  function Merge(kernelOk: bool, w1: map<string, Json>, http: map<string, Json>): map<string, Json> {
    (if kernelOk then w1 else map[]) + http
  }

  lemma MergeOverrides(kernelOk: bool, w1: map<string, Json>, http: map<string, Json>)
    ensures var m := Merge(kernelOk, w1, http);
            && m.Keys == (if kernelOk then w1.Keys else {}) + http.Keys
            && (forall n :: n in http ==> m[n] == http[n])
            && (forall n :: kernelOk && n in w1 && n !in http ==> m[n] == w1[n])
  {
  }

  /** What a round does once the HTTP readings are in: an exception
      disconnects, which announces offline, and ends the loop; otherwise
      publish online and the readings when there are any, else offline,
      then wait a minute. */
  function RoundAfter(kernelOk: bool, w1: map<string, Json>, temps: Temps): RoundResult {
    match temps
    case TempsRaised => RoundResult([Available(false)], true)
    case Temps(http) =>
      var result := Merge(kernelOk, w1, http);
      if |result| != 0 then RoundResult([Available(true), Data(result), Sleep(RoundDelay)], false)
      else RoundResult([Available(false), Sleep(RoundDelay)], false)
  }

  /** One pass of the `while True` body over the corrected reading (see
      `AsWrittenAgrees`); an interrupt ends the loop like an exception. */
  function TSensorsRound(kernelOk: bool, sensors: seq<HttpSensor>, round: SensorRound): RoundResult {
    match round
    case Stop => RoundResult([Available(false)], true)
    case SensorRound(w1, responses) => RoundAfter(kernelOk, w1, TemperaturesFrom(sensors, responses, map[]))
  }

  /** The same pass over `get_temperatures` as written: each call starts
      with `json_response` unbound. */
  function TSensorsRoundAsWritten(kernelOk: bool, sensors: seq<HttpSensor>, round: SensorRound): RoundResult {
    match round
    case Stop => RoundResult([Available(false)], true)
    case SensorRound(w1, responses) => RoundAfter(kernelOk, w1, TemperaturesAsWritten(sensors, responses, map[], None))
  }

  /** The round as written and the corrected round agree whenever every 200
      answer decodes. With the single URL `run_tsensors` configures, a 200
      answer that does not decode ends the loop as written (offline, then
      disconnect), while the corrected round publishes −1000 for that name
      and goes on. */
  lemma RoundAsWritten(kernelOk: bool, sensors: seq<HttpSensor>, round: SensorRound)
    ensures round.SensorRound? && AllDecode(sensors, round.responses) ==>
              TSensorsRoundAsWritten(kernelOk, sensors, round) == TSensorsRound(kernelOk, sensors, round)
    ensures round.SensorRound? && |sensors| == 1 && round.responses(sensors[0].url) == Response(200, None) ==>
              && TSensorsRoundAsWritten(kernelOk, sensors, round) == RoundResult([Available(false)], true)
              && TSensorsRound(kernelOk, sensors, round)
                 == RoundResult([Available(true), Data(Merge(kernelOk, round.w1, map[sensors[0].name := NoReading])),
                                 Sleep(RoundDelay)], false)
  {
    if round.SensorRound? && AllDecode(sensors, round.responses) {
      AsWrittenAgrees(sensors, round.responses, map[], None);
    }
    if round.SensorRound? && |sensors| == 1 && round.responses(sensors[0].url) == Response(200, None) {
      assert sensors[1..] == [];
      assert Reading(round.responses(sensors[0].url)) == Some(NoReading);
      assert TemperaturesFrom(sensors, round.responses, map[]) == Temps(map[sensors[0].name := NoReading]);
      var m := Merge(kernelOk, round.w1, map[sensors[0].name := NoReading]);
      assert sensors[0].name in m;
    }
  }

  /** The events of the rounds, up to the first that stops. */
  function TSensorsRounds(kernelOk: bool, sensors: seq<HttpSensor>, rounds: seq<SensorRound>): seq<Event<map<string, Json>>>
    decreases |rounds|
  {
    if rounds == [] then []
    else
      var r := TSensorsRound(kernelOk, sensors, rounds[0]);
      r.events + (if r.stop then [] else TSensorsRounds(kernelOk, sensors, rounds[1..]))
  }

  /** Data is published only when the merged readings are not empty, right
      after an online announcement and with exactly the merged readings; an
      empty merge announces offline. With at least one HTTP sensor the
      round never reports offline unless it stops: every name has a
      reading, −1000 at worst. */
  lemma RoundPublishes(kernelOk: bool, sensors: seq<HttpSensor>, w1: map<string, Json>, responses: string -> HttpOutcome)
    ensures var r := TSensorsRound(kernelOk, sensors, SensorRound(w1, responses));
            var t := TemperaturesFrom(sensors, responses, map[]);
            && (r.stop <==> t.TempsRaised?)
            && (t.Temps? && |Merge(kernelOk, w1, t.values)| != 0 ==>
                  r.events == [Available(true), Data(Merge(kernelOk, w1, t.values)), Sleep(RoundDelay)])
            && (t.Temps? && |Merge(kernelOk, w1, t.values)| == 0 ==>
                  r.events == [Available(false), Sleep(RoundDelay)])
            && (sensors != [] && !r.stop ==> r.events[0] == Available(true))
  {
    var t := TemperaturesFrom(sensors, responses, map[]);
    if sensors != [] && t.Temps? {
      TemperaturesKeys(sensors, responses, map[]);
      assert sensors[0] in sensors;
      var m := Merge(kernelOk, w1, t.values);
      assert sensors[0].name in m;
    }
  }

  /** The whole run: nothing when connecting fails, otherwise the online
      announcement of `connect` and then the rounds. */
  function TSensorsTrace(kernelOk: bool, sensors: seq<HttpSensor>, connected: bool, rounds: seq<SensorRound>): seq<Event<map<string, Json>>> {
    if connected then [Available(true)] + TSensorsRounds(kernelOk, sensors, rounds) else []
  }

  /** Every message is announced online just before it (so none comes
      first), and every wait lasts a minute. */
  predicate WellFormed(events: seq<Event<map<string, Json>>>) {
    && (forall k :: 0 <= k < |events| && events[k].Sleep? ==> events[k].seconds == RoundDelay)
    && (forall k :: 0 <= k < |events| && events[k].Data? ==> 0 < k && events[k - 1] == Available(true))
  }

  lemma WellFormedConcat(a: seq<Event<map<string, Json>>>, b: seq<Event<map<string, Json>>>)
    requires WellFormed(a) && WellFormed(b)
    ensures WellFormed(a + b)
  {
    var c := a + b;
    forall k | 0 <= k < |c| && c[k].Data? ensures 0 < k && c[k - 1] == Available(true) {
      if k < |a| {
        assert c[k] == a[k] && c[k - 1] == a[k - 1];
      } else {
        assert c[k] == b[k - |a|];
        assert k - |a| > 0;
        assert c[k - 1] == b[k - 1 - |a|];
      }
    }
    forall k | 0 <= k < |c| && c[k].Sleep? ensures c[k].seconds == RoundDelay {
      if k < |a| { assert c[k] == a[k]; } else { assert c[k] == b[k - |a|]; }
    }
  }

  /** Every round's events are well formed and none starts with a message. */
  lemma RoundWellFormed(kernelOk: bool, sensors: seq<HttpSensor>, round: SensorRound)
    ensures var r := TSensorsRound(kernelOk, sensors, round);
            && WellFormed(r.events) && r.events != [] && !r.events[0].Data?
            && (r.stop ==> r.events == [Available(false)])
  {
    match round
    case Stop =>
    case SensorRound(w1, responses) =>
      var t := TemperaturesFrom(sensors, responses, map[]);
      if t.Temps? {
        var result := Merge(kernelOk, w1, t.values);
        if |result| != 0 {
          OnlineDataSleep(result);
        }
      }
  }

  lemma OnlineDataSleep(result: map<string, Json>)
    ensures WellFormed([Available(true), Data(result), Sleep(RoundDelay)])
  {
    var ev := [Available(true), Data(result), Sleep(RoundDelay)];
    forall k | 0 <= k < |ev| && ev[k].Data? ensures 0 < k && ev[k - 1] == Available(true) {
      assert k == 1;
    }
  }

  lemma {:induction false} RunWellFormed(kernelOk: bool, sensors: seq<HttpSensor>, rounds: seq<SensorRound>)
    ensures var ev := TSensorsRounds(kernelOk, sensors, rounds);
            WellFormed(ev) && (ev != [] ==> !ev[0].Data?)
    decreases |rounds|
  {
    if rounds != [] {
      var r := TSensorsRound(kernelOk, sensors, rounds[0]);
      RoundWellFormed(kernelOk, sensors, rounds[0]);
      if !r.stop {
        var rest := TSensorsRounds(kernelOk, sensors, rounds[1..]);
        RunWellFormed(kernelOk, sensors, rounds[1..]);
        WellFormedConcat(r.events, rest);
        assert (r.events + rest)[0] == r.events[0];
      } else {
        assert r.events + [] == r.events;
      }
    }
  }

  /** One pass of the loop body. */
  method TSensorsStep(kernelOk: bool, httpSensors: HttpSensors, round: SensorRound)
    returns (events: seq<Event<map<string, Json>>>, stop: bool)
    ensures var r := TSensorsRound(kernelOk, httpSensors.urlNameMap, round);
            events == r.events && stop == r.stop
  {
    match round
    case Stop =>
      events, stop := [Available(false)], true;
    case SensorRound(w1, responses) =>
      var http := httpSensors.GetTemperatures(responses);
      if http.TempsRaised? {
        events, stop := [Available(false)], true;
      } else {
        var result := Merge(kernelOk, w1, http.values);
        if |result| != 0 {
          events, stop := [Available(true), Data(result), Sleep(RoundDelay)], false;
        } else {
          events, stop := [Available(false), Sleep(RoundDelay)], false;
        }
      }
  }

  /** The rounds from `i` on are round `i`'s events, then the rounds after
      it unless round `i` stops. */
  lemma TSensorsRoundsStep(kernelOk: bool, sensors: seq<HttpSensor>, rounds: seq<SensorRound>, i: nat)
    requires i < |rounds|
    ensures var r := TSensorsRound(kernelOk, sensors, rounds[i]);
            TSensorsRounds(kernelOk, sensors, rounds[i..])
              == r.events + (if r.stop then [] else TSensorsRounds(kernelOk, sensors, rounds[i + 1..]))
  {
    assert rounds[i..][0] == rounds[i] && rounds[i..][1..] == rounds[i + 1..];
  }

  /** One round of the loop, carried out on the trace so far: the events
      of round `i` join the trace, which is the whole trace when it stops. */
  method RunRound(kernelOk: bool, httpSensors: HttpSensors, rounds: seq<SensorRound>, i: nat,
                  trace: seq<Event<map<string, Json>>>, ghost whole: seq<Event<map<string, Json>>>)
    returns (next: seq<Event<map<string, Json>>>, stop: bool)
    requires i < |rounds|
    requires trace + TSensorsRounds(kernelOk, httpSensors.urlNameMap, rounds[i..]) == whole
    ensures stop ==> next == whole
    ensures !stop ==> next + TSensorsRounds(kernelOk, httpSensors.urlNameMap, rounds[i + 1..]) == whole
  {
    var events: seq<Event<map<string, Json>>>;
    events, stop := TSensorsStep(kernelOk, httpSensors, rounds[i]);
    TSensorsRoundsStep(kernelOk, httpSensors.urlNameMap, rounds, i);
    ghost var rest := TSensorsRounds(kernelOk, httpSensors.urlNameMap, rounds[i + 1..]);
    next := trace + events;
    if stop {
      assert events + [] == events;
    } else {
      assert trace + (events + rest) == next + rest;
    }
  }

  /** `run_tsensors` after the client has connected, over the given rounds:
      the events it hands to the client are exactly those of
      `TSensorsTrace`. */
  method RunTSensors(kernelOk: bool, httpSensors: HttpSensors, connected: bool, rounds: seq<SensorRound>)
    returns (trace: seq<Event<map<string, Json>>>)
    ensures trace == TSensorsTrace(kernelOk, httpSensors.urlNameMap, connected, rounds)
  {
    if !connected {
      return [];
    }
    ghost var whole := TSensorsTrace(kernelOk, httpSensors.urlNameMap, connected, rounds);
    trace := [Available(true)];
    assert rounds[0..] == rounds;
    var i := 0;
    while i < |rounds|
      invariant 0 <= i <= |rounds|
      invariant trace + TSensorsRounds(kernelOk, httpSensors.urlNameMap, rounds[i..]) == whole
    {
      var stop;
      trace, stop := RunRound(kernelOk, httpSensors, rounds, i, trace, whole);
      if stop {
        return;
      }
      i := i + 1;
    }
    assert trace + [] == trace;
  }

  /** The whole run is well formed: the connection's online announcement
      first, every message right after an online announcement, every wait a
      minute. */
  lemma TraceWellFormed(kernelOk: bool, sensors: seq<HttpSensor>, connected: bool, rounds: seq<SensorRound>)
    ensures WellFormed(TSensorsTrace(kernelOk, sensors, connected, rounds))
  {
    RunWellFormed(kernelOk, sensors, rounds);
    if connected {
      WellFormedConcat([Available(true)], TSensorsRounds(kernelOk, sensors, rounds));
    }
  }
}
