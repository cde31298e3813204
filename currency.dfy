/**
  The exchange-rate sensor of `utils/currency.py`. For each device of its
  map (an API URL and a sensor name) it takes the rate data from the cache
  file while that is younger than twelve hours. Otherwise it fetches the
  data, rewrites the cache with a fetch that returned something, and falls
  back to the stale cache when the fetch returned nothing. The device's
  parser then turns the data into a value, and only truthy values enter
  the result. All devices share the one cache file.

  `general_sensors` (which supplies the device map), `http_parsers` (the
  fetch and the parser of a device) and `file_age` are not part of this
  model: the device map is a constructor argument, the fetch and the
  parser are functions of the device, and a file's age is `FileCache.Age`.
*/
module Currency {
  import opened Wrappers
  import opened FileCache
  import opened Web

  const CacheTimeout: int := 12 * 3600
  const DefaultCachePath: string := "db/exchange_rate.json"

  /** One item of `device_map`: the API URL and the sensor name. */
  datatype Device = Device(url: string, name: string)

  type Files = map<string, File<Json>>

  /** `cache_read`: the decoded cache file; a file that does not decode
      gives Python's `None` (`JNull`), and a missing file, where `open`
      raises, gives `None` here. */
  function CacheContents(files: Files, path: string): (r: Option<Json>)
    ensures r.Some? <==> path in files
    ensures path in files && files[path].content.Corrupt? ==> r == Some(JNull)
    ensures path in files && files[path].content.Intact? ==> r == Some(files[path].content.value)
  {
    if path !in files then None
    else
      match files[path].content
      case Intact(v) => Some(v)
      case Corrupt => Some(JNull)
  }

  /** Where a device's data came from. */
  datatype DataSource = FromCache | Fetched | StaleFallback

  /** One device's data (`None` when reading the cache raised) and the
      files after reading it. */
  datatype DeviceRead = DeviceRead(source: DataSource, data: Option<Json>, files: Files)

  /** The cache-or-fetch decision for one device, given what its fetch
      would return. */
  function ReadData(files: Files, path: string, now: int, fetched: Json): DeviceRead {
    if Age(files, path, now) < CacheTimeout then DeviceRead(FromCache, CacheContents(files, path), files)
    else if Truthy(fetched) then DeviceRead(Fetched, Some(fetched), files[path := File(Intact(fetched), now)])
    else DeviceRead(StaleFallback, CacheContents(files, path), files)
  }

  /** The cache is used exactly while it is younger than twelve hours; a
      stale cache with a fetch that returned something is overwritten with
      exactly that data, which is then the device's data and leaves the
      cache fresh; a stale cache with a fetch that returned nothing is read
      anyway. Only a cache read can raise, and only on a missing file. */
  lemma ReadDataDecision(files: Files, path: string, now: int, fetched: Json)
    ensures var r := ReadData(files, path, now, fetched);
            && (r.source == FromCache <==> Age(files, path, now) < CacheTimeout)
            && (r.source == Fetched <==> Age(files, path, now) >= CacheTimeout && Truthy(fetched))
            && (r.source == Fetched ==>
                  r.data == Some(fetched) && r.files == files[path := File(Intact(fetched), now)]
                  && Age(r.files, path, now) < CacheTimeout)
            && (r.source != Fetched ==> r.data == CacheContents(files, path) && r.files == files)
            && (r.data.None? <==> r.source != Fetched && path !in files)
  {
  }

  /** The result and the files after `get_x_rate`, or `raised` when a
      cache read raised. */
  datatype XRate = XRate(raised: bool, result: map<string, Json>, files: Files)

  /** The loop of `get_x_rate` over `devices`, from the result so far. */
  function XRateFrom(devices: seq<Device>, files: Files, path: string, now: int,
                     fetch: Device -> Json, parse: (Device, Json) -> Json,
                     result: map<string, Json>): XRate
    decreases |devices|
  {
    if devices == [] then XRate(false, result, files)
    else
      var d := devices[0];
      var read := ReadData(files, path, now, fetch(d));
      if read.data.None? then XRate(true, result, read.files)
      else
        var parsed := parse(d, read.data.value);
        XRateFrom(devices[1..], read.files, path, now, fetch, parse,
                  if Truthy(parsed) then result[d.name := parsed] else result)
  }

  function Names(devices: seq<Device>): set<string> {
    set d | d in devices :: d.name
  }

  /** Every name of the result is the name of a device (or was already
      there), and every value in it is truthy. */
  lemma {:induction false} XRateKeys(devices: seq<Device>, files: Files, path: string, now: int,
                                     fetch: Device -> Json, parse: (Device, Json) -> Json,
                                     result: map<string, Json>)
    requires forall n :: n in result ==> Truthy(result[n])
    ensures var x := XRateFrom(devices, files, path, now, fetch, parse, result);
            && x.result.Keys <= result.Keys + Names(devices)
            && (forall n :: n in x.result ==> Truthy(x.result[n]))
    decreases |devices|
  {
    if devices != [] {
      var d := devices[0];
      var read := ReadData(files, path, now, fetch(d));
      if read.data.Some? {
        var parsed := parse(d, read.data.value);
        var next := if Truthy(parsed) then result[d.name := parsed] else result;
        XRateKeys(devices[1..], read.files, path, now, fetch, parse, next);
        assert Names(devices[1..]) <= Names(devices) by {
          forall n | n in Names(devices[1..]) ensures n in Names(devices) {
            var e :| e in devices[1..] && e.name == n;
            assert e in devices;
          }
        }
        assert d in devices;
      }
    }
  }

  /** The first device: when its parser yields a truthy value from the
      data it reads, that value is in the result under its name, unless a
      later device with the same name replaces it. */
  lemma XRateFirstDevice(devices: seq<Device>, files: Files, path: string, now: int,
                         fetch: Device -> Json, parse: (Device, Json) -> Json,
                         result: map<string, Json>)
    requires devices != []
    ensures var d := devices[0];
            var read := ReadData(files, path, now, fetch(d));
            var x := XRateFrom(devices, files, path, now, fetch, parse, result);
            read.data.Some? && Truthy(parse(d, read.data.value))
            && (forall e :: e in devices[1..] ==> e.name != d.name)
            ==> d.name in x.result && x.result[d.name] == parse(d, read.data.value)
  {
    var d := devices[0];
    var read := ReadData(files, path, now, fetch(d));
    if read.data.Some? && Truthy(parse(d, read.data.value)) && forall e :: e in devices[1..] ==> e.name != d.name {
      KeepsOtherNames(devices[1..], read.files, path, now, fetch, parse, result[d.name := parse(d, read.data.value)], d.name);
    }
  }

  /** The loop over `devices` is the loop over the first `k` devices and
      then, unless that raised, the loop over the rest from where it left
      the files and the result. */
  lemma {:induction false} XRateSplit(devices: seq<Device>, k: nat, files: Files, path: string, now: int,
                                      fetch: Device -> Json, parse: (Device, Json) -> Json,
                                      result: map<string, Json>)
    requires k <= |devices|
    ensures var p := XRateFrom(devices[..k], files, path, now, fetch, parse, result);
            var x := XRateFrom(devices, files, path, now, fetch, parse, result);
            && (p.raised ==> x.raised)
            && (!p.raised ==> x == XRateFrom(devices[k..], p.files, path, now, fetch, parse, p.result))
    decreases k
  {
    if k == 0 {
      assert devices[..0] == [] && devices[0..] == devices;
    } else {
      var d := devices[0];
      var read := ReadData(files, path, now, fetch(d));
      assert devices[..k][0] == d;
      assert devices[..k][1..] == devices[1..][..k - 1];
      if read.data.Some? {
        var parsed := parse(d, read.data.value);
        var next := if Truthy(parsed) then result[d.name := parsed] else result;
        XRateSplit(devices[1..], k - 1, read.files, path, now, fetch, parse, next);
        assert devices[1..][k - 1..] == devices[k..];
      }
    }
  }

  /** Any device `k`: when no earlier device raised, its parser yields a
      truthy value from the data it reads, and no later device has its
      name, the result maps that name to that value. */
  lemma XRateDevice(devices: seq<Device>, k: nat, files: Files, path: string, now: int,
                    fetch: Device -> Json, parse: (Device, Json) -> Json)
    requires k < |devices|
    ensures var p := XRateFrom(devices[..k], files, path, now, fetch, parse, map[]);
            var d := devices[k];
            var read := ReadData(p.files, path, now, fetch(d));
            var x := XRateFrom(devices, files, path, now, fetch, parse, map[]);
            !p.raised && read.data.Some? && Truthy(parse(d, read.data.value))
            && (forall j :: k < j < |devices| ==> devices[j].name != d.name)
            ==> d.name in x.result && x.result[d.name] == parse(d, read.data.value)
  {
    var p := XRateFrom(devices[..k], files, path, now, fetch, parse, map[]);
    XRateSplit(devices, k, files, path, now, fetch, parse, map[]);
    var rest := devices[k..];
    assert rest[0] == devices[k];
    if !p.raised && forall j :: k < j < |devices| ==> devices[j].name != devices[k].name {
      forall e | e in rest[1..] ensures e.name != rest[0].name {
        var i :| 0 <= i < |rest| - 1 && rest[1..][i] == e;
        assert e == devices[k + 1 + i];
      }
      XRateFirstDevice(rest, p.files, path, now, fetch, parse, p.result);
    }
  }

  /** A name no remaining device has keeps its value. */
  lemma {:induction false} KeepsOtherNames(devices: seq<Device>, files: Files, path: string, now: int,
                                           fetch: Device -> Json, parse: (Device, Json) -> Json,
                                           result: map<string, Json>, n: string)
    requires n in result && forall e :: e in devices ==> e.name != n
    ensures var x := XRateFrom(devices, files, path, now, fetch, parse, result);
            n in x.result && x.result[n] == result[n]
    decreases |devices|
  {
    if devices != [] {
      var d := devices[0];
      var read := ReadData(files, path, now, fetch(d));
      if read.data.Some? {
        var parsed := parse(d, read.data.value);
        var next := if Truthy(parsed) then result[d.name := parsed] else result;
        assert d in devices;
        forall e | e in devices[1..] ensures e.name != n {
          assert e in devices;
        }
        KeepsOtherNames(devices[1..], read.files, path, now, fetch, parse, next, n);
      }
    }
  }

  /** While the cache is fresh nothing is fetched or written for the rest
      of the call. */
  lemma {:induction false} FreshCacheNoWrites(devices: seq<Device>, files: Files, path: string, now: int,
                                              fetch: Device -> Json, parse: (Device, Json) -> Json,
                                              result: map<string, Json>)
    requires Age(files, path, now) < CacheTimeout
    ensures XRateFrom(devices, files, path, now, fetch, parse, result).files == files
    decreases |devices|
  {
    if devices != [] {
      var d := devices[0];
      var read := ReadData(files, path, now, fetch(d));
      if read.data.Some? {
        var parsed := parse(d, read.data.value);
        FreshCacheNoWrites(devices[1..], files, path, now, fetch, parse,
                           if Truthy(parsed) then result[d.name := parsed] else result);
      }
    }
  }

  /** A call writes the shared cache at most once: the files afterwards are
      the files before, or those with the cache overwritten by what one
      device's fetch returned, which was truthy. Every device after that
      one reads the cache it wrote. */
  lemma {:induction false} WritesAtMostOnce(devices: seq<Device>, files: Files, path: string, now: int,
                                            fetch: Device -> Json, parse: (Device, Json) -> Json,
                                            result: map<string, Json>)
    returns (written: Option<Json>)
    ensures var x := XRateFrom(devices, files, path, now, fetch, parse, result);
            x.files == (if written.None? then files else files[path := File(Intact(written.value), now)])
    ensures written.Some? ==> Truthy(written.value) && exists d :: d in devices && fetch(d) == written.value
    decreases |devices|
  {
    if devices == [] {
      return None;
    }
    var d := devices[0];
    var read := ReadData(files, path, now, fetch(d));
    ReadDataDecision(files, path, now, fetch(d));
    if read.data.None? {
      return None;
    }
    var parsed := parse(d, read.data.value);
    var next := if Truthy(parsed) then result[d.name := parsed] else result;
    if read.source == Fetched {
      FreshCacheNoWrites(devices[1..], read.files, path, now, fetch, parse, next);
      assert d in devices;
      return Some(fetch(d));
    }
    written := WritesAtMostOnce(devices[1..], files, path, now, fetch, parse, next);
    if written.Some? {
      var e :| e in devices[1..] && fetch(e) == written.value;
      assert e in devices;
    }
  }

  /** `ok`: an API key is set and not empty. */
  predicate KeyPresent(apiKey: Option<string>) {
    apiKey.Some? && apiKey.value != []
  }

  /** `currency_sensor`. */
  class CurrencySensor {
    var cache: string
    var apiKey: Option<string>
    var ok: bool
    var deviceMap: seq<Device>
    var disk: Disk<Json>

    /** The cache path comes from the configuration, with a default; `ok`
        records whether the API key is present in the environment. */
    constructor (conf: map<string, string>, deviceMap: seq<Device>, apiKey: Option<string>, disk: Disk<Json>)
      ensures this.cache == (if "cache" in conf then conf["cache"] else DefaultCachePath)
      ensures this.ok <==> KeyPresent(apiKey)
      ensures this.apiKey == apiKey && this.deviceMap == deviceMap && this.disk == disk
    {
      cache := if "cache" in conf then conf["cache"] else DefaultCachePath;
      this.apiKey := apiKey;
      this.deviceMap := deviceMap;
      this.disk := disk;
      ok := false;
      if KeyPresent(apiKey) {
        ok := true;
      }
    }

    /** `cache_read`; `None` when the file is missing. */
    method CacheRead() returns (data: Option<Json>)
      ensures data == CacheContents(disk.files, cache)
    {
      if cache !in disk.files {
        return None;
      }
      match disk.files[cache].content
      case Intact(v) => data := Some(v);
      case Corrupt => data := Some(JNull);
    }

    /** `cache_write`: the cache file holds exactly `data`, written `now`. */
    method CacheWrite(data: Json, now: int)
      modifies disk
      ensures disk.files == old(disk.files)[cache := File(Intact(data), now)]
    {
      disk.Write(cache, data, now);
    }

    /** `get_x_rate`: the loop over the device map. */
    method GetXRate(now: int, fetch: Device -> Json, parse: (Device, Json) -> Json)
      returns (raised: bool, result: map<string, Json>)
      modifies disk
      ensures var x := XRateFrom(deviceMap, old(disk.files), cache, now, fetch, parse, map[]);
              raised == x.raised && result == x.result && disk.files == x.files
    {
      result := map[];
      var i := 0;
      while i < |deviceMap|
        invariant 0 <= i <= |deviceMap|
        invariant XRateFrom(deviceMap[i..], disk.files, cache, now, fetch, parse, result)
                  == XRateFrom(deviceMap, old(disk.files), cache, now, fetch, parse, map[])
      {
        var d := deviceMap[i];
        assert deviceMap[i..][0] == d && deviceMap[i..][1..] == deviceMap[i + 1..];
        var data: Option<Json>;
        if Age(disk.files, cache, now) < CacheTimeout {
          data := CacheRead();
        } else {
          var fetched := fetch(d);
          if Truthy(fetched) {
            CacheWrite(fetched, now);
            data := Some(fetched);
          } else {
            data := CacheRead();
          }
        }
        if data.None? {
          return true, result;
        }
        var parsed := parse(d, data.value);
        if Truthy(parsed) {
          result := result[d.name := parsed];
        }
        i := i + 1;
      }
      assert deviceMap[i..] == [];
      return false, result;
    }
  }
}
