# spotprices in Dafny

A model of the core of *spotprices*. This small home-automation program
fetches Swedish day-ahead electricity prices, caches them on disk and
publishes the current price and its rank among today's hours over MQTT.
It also plans "cheapest hours" time slots, reads temperature sensors and
fetches exchange rates. The model covers these parts:

- `SpotPrice` (`utils/spot_price.py`): the `PriceList` engine. This is the cache age test, the cache read and write, `get_prices`, the four-hour `update` gate, `current_price`, `get_daily_prices`, `todays_sorted` and `current_ranking`.
- `PriceClient` (`utils/spot_price.py`): the publish loop of `run_client`, with its five-minute back-off and its shutdown.
- `TimeSlots` (`w_pandas.py`, duplicated in `utils/unused.py`): `TimeSlot.inside` and `TimeSlots` with `append`, `find_slots` and `inside`.
- `Planner` (`w_pandas.py`): the slot-planning `PriceList`, with its own `cache_write`, `cache_read` and `get_prices`, `get_daily_prices` by calendar date, `cheapest_hours` and `find_slots`.
- `PriceProviders` (`utils/price_providers.py`): the HTTP request and its failure mapping, plus the `Elprisetjustnu` provider (`make_url`, `parse_data`, `fetch_prices`).
- `Currency` (`utils/currency.py`): `currency_sensor` with its `ok` flag, `cache_read`, `cache_write` and `get_x_rate`.
- `Sensors` (`utils/sensors.py`): `parse_temperature`, `http_sensors.get_temperatures`, and the merge and online/offline decision of `run_tsensors`.

Supporting modules:

- `Wrappers` holds `Option`.
- `Clock` gives time as integer seconds in one fixed zone, with an exact proleptic Gregorian calendar. It proves `DateOfDay(DayNumber(d)) == d`.
- `Series` models a pandas price series as a sequence of `(time, price)` entries. It has filters, `groupby` and a stable sort that is proved sorted and a permutation.
- `FileCache` is a file system of `path -> (content, mtime)`. The `Disk` class holds it and updates it in place.
- `Mqtt` holds the events a client publishes: online/offline announcements, payloads and sleeps.
- `Web` models JSON values with Python truthiness, and HTTP outcomes.

Objects that the source mutates are classes: `SpotPrice.PriceList`,
`Planner.PriceList`, `TimeSlots.TimeSlots`, `PriceProviders.Elprisetjustnu`,
`Currency.CurrencySensor`, `Sensors.HttpSensors` and `FileCache.Disk`.
Each of their methods is proved against a function of the old state. The
source's endless `while True` loops run over a finite sequence of rounds.
Each round carries what the clock, the price service, the HTTP servers or
the sensors would return. Each loop method is proved to produce exactly
the event trace of a recursive specification function, and lemmas prove
that trace's shape.

Where the repository's description and its code differ, the model follows
the code:

- `current_price` raises `IndexError` when no entry falls in the current hour. It does not return the default price.
- `current_ranking` raises when today has no prices, because `get_daily_prices(today=True)` then returns a list, which has no `sort_values`. It returns 24 only when today has prices but none for the current hour.
- A cache file that is younger than the timeout but unreadable makes `get_prices` raise. It is not treated as a cache miss.
- `update` never falls back to a stale cache when the service raises.

## Model

| member | source | states |
|---|---|---|
| SpotPrice.PriceList.constructor | utils/spot_price.py:27-33 | no prices yet; `last_updated` is one day before the creation time |
| SpotPrice.PriceList.CacheWrite | utils/spot_price.py:42-44 | the cache file is written with the prices, stamped `now`, exactly when there are prices; otherwise the files are unchanged |
| SpotPrice.PriceList.CacheRead | utils/spot_price.py:46-48 | raises exactly when the cache file is missing or unparsable; otherwise the prices become the file's series |
| SpotPrice.PriceList.GetPrices | utils/spot_price.py:50-59 | the new prices and files are those of the cache-or-fetch step: a cache read while the cache is young, otherwise the service's answer, written back |
| SpotPrice.PriceList.Update | utils/spot_price.py:71-74 | the new state and files are those of the update step from the old state |
| SpotPrice.UpdateGate | utils/spot_price.py:71-73 | nothing is refreshed iff at most four hours have passed since the last update (a strict comparison); an update that does not refresh changes nothing |
| SpotPrice.UpdateRetriesAfterFailure | utils/spot_price.py:71-74 | a refresh that raised leaves the state unchanged, so the next call retries; a refresh that completed stamps `now` |
| SpotPrice.FirstUpdateRefreshes | utils/spot_price.py:32 | a new price list refreshes on its first update |
| SpotPrice.UpdateIdempotentWithinInterval | utils/spot_price.py:71-74 | after a completed refresh, an update within four hours does nothing and changes nothing |
| SpotPrice.CacheFreshness | utils/spot_price.py:50-59 | the cache is read iff it is younger than six hours; otherwise the service is asked |
| SpotPrice.MissingCacheIsStale | utils/spot_price.py:35-40 | a missing cache file counts as written at the epoch, so the service is asked |
| SpotPrice.CacheRoundTrip | utils/spot_price.py:42-59 | a fetched series is written to the cache, and a `get_prices` within six hours reads back that same series; a fetch that returned None writes nothing |
| SpotPrice.CorruptFreshCacheBlocksRefresh | utils/spot_price.py:46-55 | a young but unreadable cache makes `get_prices` raise without asking the service, whatever the service would answer |
| SpotPrice.CurrentPrice | utils/spot_price.py:76-85 | a price is returned only when there are prices |
| SpotPrice.CurrentPriceIsFirstInBucket | utils/spot_price.py:76-85 | a price exists iff some entry lies in the current (day, hour) bucket, and it is the price of the first such entry |
| SpotPrice.FindKey | utils/spot_price.py:65-68 | finds a group key iff it is present, at an index holding that key |
| SpotPrice.DailyPrices | utils/spot_price.py:61-69 | one group per day of month present, in ascending key order, each holding exactly that day's entries |
| SpotPrice.TodaysPrices | utils/spot_price.py:61-68 | today's group exists iff today's day of month occurs, and holds exactly the entries of that day |
| SpotPrice.TodaysPricesAreToday | utils/spot_price.py:61-68 | today's group exists iff some entry falls on today's day of month |
| SpotPrice.TodaysSorted | utils/spot_price.py:87-89 | a result exists iff there are prices and a group for today; the result is sorted by price |
| SpotPrice.RankFrom | utils/spot_price.py:91-96 | the result is the first position of the current hour in the sorted list, or 24 when that hour is absent |
| SpotPrice.Ranking | utils/spot_price.py:91-96 | a rank exists iff `todays_sorted` does not raise, and it is the search result over today's sorted prices |
| SpotPrice.CurrentRanking | utils/spot_price.py:91-96 | the loop returns `Ranking`: an index into today's sorted prices, or 24 |
| SpotPrice.RankSplitsPrices | utils/spot_price.py:91-96 | every entry before the rank costs at most the current hour's price, and every entry after it at least that price |
| SpotPrice.CheaperComeFirst | utils/spot_price.py:89 | in an ascending list, all strictly cheaper entries come before a position |
| SpotPrice.PrefixAtMost | utils/spot_price.py:89 | in an ascending list, more entries than a position's index cost at most its price |
| SpotPrice.UniquePriceExactCount | utils/spot_price.py:89 | a price occurring once has exactly its index in strictly cheaper entries before it |
| SpotPrice.SortedPositionCounts | utils/spot_price.py:89 | a position lies between the count of strictly cheaper and the count of at-most-as-dear entries, and equals the former when its price is unique |
| SpotPrice.RankCountsCheaperHours | utils/spot_price.py:87-96 | the rank counts today's cheaper hours: at least those strictly cheaper, fewer than those at most as dear, exactly the strictly cheaper ones when the price is unique |
| SpotPrice.CountZero | utils/spot_price.py:89 | a zero count means that no element matches |
| SpotPrice.BucketEntryIsToday | utils/spot_price.py:61-80 | an entry in the current bucket is among today's prices |
| SpotPrice.BucketEntryIsSorted | utils/spot_price.py:76-89 | an entry in the current bucket is among today's sorted prices |
| SpotPrice.HourInSortedIsRanked | utils/spot_price.py:91-96 | when today's sorted prices hold the current hour, the rank is a real index whose entry is in the current hour |
| SpotPrice.PricedHourIsRanked | utils/spot_price.py:76-96 | when `current_price` succeeds, the rank is an index of today's sorted prices whose hour is the current hour, never the 24 sentinel |
| PriceClient.ClientStep | utils/spot_price.py:139-153 | one loop pass changes the price list and emits events exactly as the round function says |
| PriceClient.RunClient | utils/spot_price.py:133-157 | the loop emits exactly the trace of the specification: online at connect, then each round's events, up to the round that stops |
| PriceClient.RoundEventsShape | utils/spot_price.py:139-157 | a failed update gives offline and a five-minute sleep; a failed price or rank gives offline (disconnect) and stop; otherwise the message with exactly that price and rank, then online and a thirty-second sleep |
| PriceClient.RoundShape | utils/spot_price.py:137-157 | every round is well formed, and a stopping round emits only offline |
| PriceClient.RoundsStep | utils/spot_price.py:137-157 | the trace of several rounds is the first round's events followed by the rest, unless the first round stops |
| PriceClient.RoundOutcomes | utils/spot_price.py:139-157 | a raising update means offline, a five-minute retry and no stop; a publishing round emits the message, online and a thirty-second sleep |
| PriceClient.PublishedSlotIsRanked | utils/spot_price.py:147-150 | a published slot indexes today's sorted prices at the current hour, and the published price is `current_price` |
| PriceClient.WellFormedConcat | utils/spot_price.py:137-157 | joining well-formed traces keeps them well formed |
| PriceClient.RunShape | utils/spot_price.py:137-157 | every sleep of a run lasts 30 s or 300 s, and every message is followed at once by online |
| TimeSlots.InsideSlotIsOpen | w_pandas.py:29-32 | both bounds are excluded: neither a slot's start nor its end is inside it; the copy at utils/unused.py:13-16 is the same |
| TimeSlots.InsideAnyConcat | w_pandas.py:69-72 | a time is inside a joined slot list iff it is inside one of the parts |
| TimeSlots.AscendingPrefix | w_pandas.py:129-135 | dropping the last start time keeps the times ascending |
| TimeSlots.Build | w_pandas.py:54-67 | the slots built from at least one start time are never empty |
| TimeSlots.BuildStep | w_pandas.py:59-66 | one loop step either extends the last slot to the next time plus an hour, or closes it and opens a new slot |
| TimeSlots.BuildFront | w_pandas.py:59-66 | one more start time keeps every earlier slot but the last, keeps the last slot's start, and adds a slot only after a gap longer than an hour |
| TimeSlots.FewTimesNoSlots | w_pandas.py:57 | fewer than two start times add no slot, not even one |
| TimeSlots.SlotCount | w_pandas.py:54-67 | there is one more slot than there are gaps longer than an hour |
| TimeSlots.BuildEnds | w_pandas.py:54-67 | the first slot starts at the first time, and the last ends an hour after the last time; every slot carries `now` |
| TimeSlots.SlotEnds | w_pandas.py:58-66 | every slot ends an hour after its last start time, which is the last time for the last slot and a time followed by a gap longer than an hour for every other; the slot starts no later than that time |
| TimeSlots.SlotsOrdered | w_pandas.py:54-67 | slots are non-empty and disjoint in order: each ends before the next starts |
| TimeSlots.SlotsCover | w_pandas.py:54-67 | every start time's hour lies within some slot |
| TimeSlots.InsideIsNearStart | w_pandas.py:54-72 | a time inside a slot lies within an hour after some start time |
| TimeSlots.InsideNewSlotsStart | w_pandas.py:54-72 | returns the start time whose hour contains a time inside the new slots |
| TimeSlots.InsideNewSlots | w_pandas.py:54-72 | with two or more start times, every time strictly within a start time's hour is inside the slots, and every time inside lies within such an hour |
| TimeSlots.TimeSlots.constructor | w_pandas.py:45-48 | keeps the start times; the slots are exactly those `find_slots` finds for them; the copy at utils/unused.py:29-32 is the same |
| TimeSlots.TimeSlots.Append | w_pandas.py:50-52 | replaces the start times and appends their slots after the existing ones; the copy at utils/unused.py:34-36 is the same |
| TimeSlots.TimeSlots.FindSlots | w_pandas.py:54-67 | the loop adds exactly `NewSlots(start_times)` after the existing slots; the copy at utils/unused.py:38-51 is the same |
| TimeSlots.FindSlotsStep | w_pandas.py:59-66 | one loop pass turns the slots of the first `i + 1` times into those of the first `i + 2` |
| TimeSlots.AppendKeepsSlots | w_pandas.py:50-52 | appending keeps the earlier slots in front unchanged, and a time is inside the result iff it is inside the old or the new slots; the copy of `inside` at utils/unused.py:53-56 is the same |
| Planner.SliceEnd | w_pandas.py:130 | the Python slice `[0:n]` stops within the sequence, counting a negative `n` from the end |
| Planner.CheapestHours | w_pandas.py:129-135 | the loop returns the start times of the `n` cheapest entries in ascending time order |
| Planner.CheapestAreCheapest | w_pandas.py:130 | the chosen entries and the rest partition the day's prices; `min(n, len)` entries are chosen; no chosen entry costs more than one left out |
| Planner.CheapestTimesAscending | w_pandas.py:132-135 | the returned start times are ascending and are exactly the times of the chosen entries |
| Planner.DailyGroupsAreDates | w_pandas.py:122-127 | the days are the calendar dates in ascending order; each entry lies in its own date's group and in no other |
| Planner.LoadDiffersOnlyInWrite | w_pandas.py:104-120 | the planner's load never changes the files; with a stale cache and a fetched series it raises where the engine's load writes the series and succeeds; in every other case the two loads agree |
| Planner.StaleCacheNeverPlans | w_pandas.py:112-124 | once the cache is stale, a load asks the service and yields no days, and so does every later load, because nothing is written |
| Planner.PriceList.constructor | w_pandas.py:91-95 | keeps the cache path and starts with no prices |
| Planner.PriceList.CacheWrite | w_pandas.py:104-106 | raises exactly when there is a series to write, and writes nothing |
| Planner.PriceList.CacheRead | w_pandas.py:108-110 | raises exactly when the cache file is missing or unparsable; otherwise the prices become the file's series |
| Planner.PriceList.GetPrices | w_pandas.py:112-120 | the new prices, source and raise are those of the planner's load step, and the files are unchanged |
| Planner.GetDailyPrices | w_pandas.py:122-127 | loads the prices with the planner's step, then returns them grouped by date; none when the load raised or gave no series |
| Planner.PlanSlotsSnoc | w_pandas.py:141-142 | planning one more day appends that day's slots |
| Planner.PlanSlotsIsPlanWith | w_pandas.py:141-142 | the planned slots are the per-day slots joined in day order |
| Planner.InsidePlanWithDay | w_pandas.py:141-142 | a time inside one day's slots is inside the joined slots |
| Planner.InsidePlanWithSome | w_pandas.py:141-142 | a time inside the joined slots is inside the slots of a returned day |
| Planner.InsidePlanDay | w_pandas.py:137-143 | a time inside one day's slots is inside the plan |
| Planner.PlanDayOf | w_pandas.py:137-143 | a time inside the plan is inside the slots of the returned day |
| Planner.ChosenHourIsOn | w_pandas.py:129-143 | a time strictly within a chosen hour of a day with at least two chosen hours is inside the plan |
| Planner.DayNearChosen | w_pandas.py:129-143 | a time inside one day's slots lies within one of its chosen hours |
| Planner.OnlyChosenHoursAreOn | w_pandas.py:129-143 | a time inside the plan lies within an hour chosen for some day |
| Planner.ConcatAssoc | w_pandas.py:142 | appending slot lists is associative |
| Planner.AppendDayStep | w_pandas.py:141-142 | the slots so far plus one day's slots are the plan of one more day |
| Planner.AppendDay | w_pandas.py:141-142 | one loop pass appends exactly day `i`'s slots and leaves that day's cheapest hours as the start times |
| Planner.AppendDays | w_pandas.py:141-142 | the loop appends exactly the plan of all days after the existing slots; the start times are the last day's cheapest hours, or unchanged when there is no day |
| Planner.FindSlots | w_pandas.py:137-143 | a result iff loading the prices gave days; the given schedule (or a fresh empty one) then holds its old slots followed by the plan of every day with `required_hours` hours, and the last day's cheapest hours as its start times; when the load fails, the given schedule is left unchanged |
| PriceProviders.Request | utils/price_providers.py:24-44 | data iff the request completed with status 200 and a decodable body, and then it is that body; a transport error or another status gives None |
| PriceProviders.Digit | utils/price_providers.py:77 | a digit character with that value |
| PriceProviders.Decimal | utils/price_providers.py:77 | `%Y` renders a non-empty digit string |
| PriceProviders.Pad2 | utils/price_providers.py:77 | `%m` and `%d` render two digits |
| PriceProviders.DecimalRoundTrip | utils/price_providers.py:77 | reading the rendered year gives back the year |
| PriceProviders.Pad2RoundTrip | utils/price_providers.py:77 | reading a rendered month or day gives it back |
| PriceProviders.DateOfUrlPath | utils/price_providers.py:76-78 | reading a URL strips the base URL and reads the path |
| PriceProviders.DateOfPathFields | utils/price_providers.py:76-78 | reading a path splits the year from the fixed-width rest |
| PriceProviders.DateOfFieldsParts | utils/price_providers.py:76-78 | reading the fields of a well-formed path gives the date they denote |
| PriceProviders.MakeUrlRoundTrip | utils/price_providers.py:66-78 | the URL `make_url` builds decodes back to exactly the date it was built from |
| PriceProviders.MakeUrlInjective | utils/price_providers.py:76-78 | different dates give different URLs |
| PriceProviders.AssignLookup | utils/price_providers.py:99 | after `price_list[time] = v`, looking up `time` gives `v`, and every other time is unchanged |
| PriceProviders.AssignTimes | utils/price_providers.py:99 | assignment adds exactly that time to the index |
| PriceProviders.AssignUnique | utils/price_providers.py:99 | assignment keeps the index free of duplicates |
| PriceProviders.LookupEntries | utils/price_providers.py:99 | in a duplicate-free series, a lookup finds exactly the entry at that time |
| PriceProviders.ParseData | utils/price_providers.py:80-102 | the loop returns the specification's outcome: nothing, a raise, or the series |
| PriceProviders.CollectStep | utils/price_providers.py:85-99 | one more object item updates the series by its record, if it has one |
| PriceProviders.CollectLookup | utils/price_providers.py:83-99 | the parsed series has no duplicate time, and each time's price is the last usable record's price |
| PriceProviders.LastPriceSource | utils/price_providers.py:85-99 | a parsed price comes from a returned record that carries that time and price, and it is non-zero |
| PriceProviders.ParseSpecOutcome | utils/price_providers.py:80-102 | nothing iff the data is absent or falsy; a raise iff it is not a list or holds a non-object; otherwise a duplicate-free series whose every entry is the last non-zero usable record for its time |
| PriceProviders.RecordsAreKept | utils/price_providers.py:85-99 | every usable record's time is in the parsed series |
| PriceProviders.LastPriceFound | utils/price_providers.py:85-99 | every usable record's time has a last price |
| PriceProviders.ZeroPriceSkipped | utils/price_providers.py:98 | a record with price 0 is skipped, since `sek` is then falsy |
| PriceProviders.Elprisetjustnu.constructor | utils/price_providers.py:70-74 | the URL is `make_url` of the given instant's date, and there is no price list yet |
| PriceProviders.Elprisetjustnu.FetchPrices | utils/price_providers.py:104-112 | on a raise the price list is unchanged; otherwise it is the concatenation of today's and tomorrow's parses; the URL is the last one requested |
| PriceProviders.FetchShape | utils/price_providers.py:104-112 | the two URLs decode to today's and tomorrow's dates; a result iff neither parse raised and at least one returned a series (`pd.concat` of two Nones raises); today's entries come first; once today's parse succeeds the URL is left at tomorrow's |
| Currency.CacheContents | utils/currency.py:22-27 | reading raises iff the file is missing; a corrupt file reads as None; otherwise the stored JSON |
| Currency.ReadDataDecision | utils/currency.py:39-50 | the cache is used iff it is younger than twelve hours; otherwise a truthy fetch is written and used, and a falsy fetch falls back to the stale cache; a read raises only on a missing file |
| Currency.XRateKeys | utils/currency.py:33-57 | every result name belongs to a device, and every stored value is truthy |
| Currency.XRateFirstDevice | utils/currency.py:51-54 | the first device: a truthy parse of its data is in the result under its name, unless a later device of the same name replaces it |
| Currency.XRateSplit | utils/currency.py:33-57 | the loop over all devices is the loop over the first `k` and then, unless that raised, the loop over the rest from the files and result it left |
| Currency.XRateDevice | utils/currency.py:33-57 | any device: when no earlier device raised, its parse of its data is truthy and no later device has its name, the result maps its name to that parse |
| Currency.KeepsOtherNames | utils/currency.py:33-57 | a name that no remaining device has keeps its value |
| Currency.FreshCacheNoWrites | utils/currency.py:39-43 | while the cache is fresh nothing is written |
| Currency.WritesAtMostOnce | utils/currency.py:44-47 | one call writes the cache at most once, with a truthy value that one device's fetch returned |
| Currency.CurrencySensor.constructor | utils/currency.py:13-20 | `ok` is true iff the API key is set and not empty; the cache path defaults to `db/exchange_rate.json` |
| Currency.CurrencySensor.CacheRead | utils/currency.py:22-27 | returns the cache contents as `CacheContents` says |
| Currency.CurrencySensor.CacheWrite | utils/currency.py:29-31 | the cache file now holds the data, stamped `now`; nothing else changes |
| Currency.CurrencySensor.GetXRate | utils/currency.py:33-57 | the loop's result, raise and files are exactly those of the `XRateFrom` specification over the devices |
| Sensors.ParseTemperaturePriority | utils/sensors.py:22-25 | on an object: `temperature`, else `temp`, else `temp:`, else None; on a list or string: raises iff a key occurs; other types raise |
| Sensors.ReadingDefaults | utils/sensors.py:27-42 | for the corrected reading of the Findings row: a non-200 status, an undecodable body or a falsy temperature reads −1000; a truthy temperature is the reading; only a transport error or a raising lookup gives no reading |
| Sensors.TemperaturesKeys | utils/sensors.py:27-43 | the result's names are exactly the old names plus every sensor's name |
| Sensors.TemperaturesRaise | utils/sensors.py:27-43 | the call raises iff some URL's reading raises |
| Sensors.TemperatureOfName | utils/sensors.py:42 | a name's value is the reading of the last URL with that name |
| Sensors.KeepsName | utils/sensors.py:28-42 | a name that no remaining sensor has keeps its value |
| Sensors.HttpSensors.constructor | utils/sensors.py:19-20 | keeps the URL-to-name map |
| Sensors.HttpSensors.GetTemperatures | utils/sensors.py:27-43 | the loop returns exactly `TemperaturesFrom` of the map |
| Sensors.AsWrittenAgrees | utils/sensors.py:33-37 | when every 200 body decodes, the loop as written and the corrected loop agree |
| Sensors.ReusedResponse | utils/sensors.py:33-37 | as written, an undecodable body reports the previous URL's temperature; corrected, −1000 |
| Sensors.UnboundResponse | utils/sensors.py:33-37 | as written, an undecodable first body raises on the unbound `json_response`; corrected, −1000 |
| Sensors.MergeOverrides | utils/sensors.py:88-92 | the merge has exactly the one-wire names (when the kernel is ok) plus the HTTP names; HTTP values win |
| Sensors.RoundPublishes | utils/sensors.py:88-101 | over the corrected reading: a round stops iff reading raises; non-empty readings publish online, then exactly them, then a minute's sleep; empty readings publish offline; with an HTTP sensor it never reports offline unless it stops |
| Sensors.RoundAsWritten | utils/sensors.py:83-104 | the round over `get_temperatures` as written equals the corrected round when every 200 answer decodes; with the single configured URL, an undecodable 200 answer ends the loop as written (offline, then stop) where the corrected round publishes −1000 and goes on |
| Sensors.WellFormedConcat | utils/sensors.py:87-104 | joining well-formed traces keeps them well formed |
| Sensors.RoundWellFormed | utils/sensors.py:87-104 | every round's events are well formed and none starts with a message; a stopping round emits only offline, the announcement of `disconnect` |
| Sensors.OnlineDataSleep | utils/sensors.py:93-100 | the publishing round's events are well formed |
| Sensors.RunWellFormed | utils/sensors.py:87-104 | every sleep of a run lasts 60 s, and every data message directly follows an online announcement |
| Sensors.TSensorsStep | utils/sensors.py:88-104 | one loop pass emits exactly the events of the round over the corrected reading |
| Sensors.RunRound | utils/sensors.py:87-104 | one pass extends the trace so that the rest of the specification completes it |
| Sensors.TSensorsRoundsStep | utils/sensors.py:87-104 | the rounds from `i` on are round `i`'s events, then the later rounds unless round `i` stops |
| Sensors.RunTSensors | utils/sensors.py:78-104 | over the corrected reading, the loop emits exactly the trace of the specification: online at connect, then each round's events, up to the round that stops |
| Sensors.TraceWellFormed | utils/sensors.py:78-104 | the whole trace is well formed |
| FileCache.Age | utils/spot_price.py:35-40 | the age is `now` minus the file's mtime, or `now` when the file is missing |
| FileCache.Disk.Write | utils/currency.py:29-31 | the path now holds the value, stamped `now`; no other file changes |
| Series.SortBy | utils/spot_price.py:89 | the result is sorted by the key and is a permutation of the input |
| Series.Groups | w_pandas.py:124-127 | one group per key present, in ascending key order, each holding exactly its key's entries |
| Series.GroupKeys | w_pandas.py:124 | the group keys are strictly ascending and are exactly the keys that occur |
| Series.OnKey | utils/spot_price.py:62 | one group holds exactly the entries with its key |
| Series.GroupsPartition | w_pandas.py:124-127 | every entry lies in exactly its key's group, and no group is empty |
| Series.Filter | utils/spot_price.py:79-80 | keeps exactly the entries that match |
| Series.FilterHead | utils/spot_price.py:80 | the first filtered entry is the first matching entry of the series |
| Series.FilterFilter | utils/spot_price.py:79-80 | filtering by day and then by hour equals filtering once by both |
| Series.CountSortBy | utils/spot_price.py:89 | sorting keeps the number of elements matching any predicate |
| Series.CountInsertBy | utils/spot_price.py:89 | inserting an element adds one to a count exactly when it matches |
| Series.InsertBySorted | utils/spot_price.py:89 | inserting into a sorted sequence keeps it sorted |
| Series.InsertByMultiset | utils/spot_price.py:89 | inserting adds exactly one occurrence of the element |
| Clock.DateOfDayNumber | utils/price_providers.py:72 | a valid date's day number converts back to that date |
| Clock.DayNumberOfDate | utils/price_providers.py:72 | the date of a day has that day number |
| Clock.DayNumberInjective | utils/price_providers.py:72 | different valid dates have different day numbers |
| Clock.HourOf | utils/spot_price.py:92 | the hour of an instant lies in 0..23 |
| Clock.DayOfMonth | utils/spot_price.py:62 | the day of month lies in 1..31 |
| Clock.DateOfDay | utils/price_providers.py:72 | every day number gives a valid calendar date |

## Left out

- I/O, `datetime.now`, `time.sleep`, the network and the MQTT broker are parameters or events. They are: the clock reading of each round, what the service returns, the HTTP outcome of each URL, the one-wire readings, and the sleep and publish events.
- Time zones: every instant is seconds in one fixed local zone without daylight saving time. `tz_localize`/`tz_convert` and `replace(tzinfo=TZ)` are identities. The JSON cache round trip is exact.
- Floating point is modelled as exact reals. NaN is not modelled.
- SpotPrice.CurrentPrice: the `ValueError` fallback to `default_price` is not modelled. The series holds floats, so `float(price)` cannot fail and the branch is dead.
- Series.SortBy: pandas `sort_values` is not a stable sort. The model sorts stably, which is one order pandas may produce. Every property proved about ranks and cheapest hours holds for any tie order.
- `TimeSlot` is a value. The source mutates `end` only on slots that `find_slots` has just created, before it publishes them.
- Planner.FindSlots: every day's slots carry the one `now` of the call. The source reads `datetime.now` again in each `append`, so later days may carry a slightly later `now`.
- PriceProviders.Decimal: Python's `%Y` pads years below 1000 differently on different platforms. The model writes the year without padding, as glibc does, and requires a year of at least 1.
- PriceProviders.Elprisetjustnu.constructor: the default `when=datetime.now()` is evaluated once, at import time. The model takes `when` as a parameter.
- The base class `SpotpriceRequest.parse_data` and `fetch_prices` (`utils/price_providers.py:46-52`) are not modelled. They cannot run as written (`parse_data` takes no `self`), and `Elprisetjustnu` overrides both.
- The `Entsoe` and `Nordpool` providers and their raw-XML parsing, plotting (`plottable`, `utils/plot.py`), `main.py`, the test scripts and `utils/temperature.py` are not part of this model.
- PriceProviders.ParseData: `float()` of a string and `dateutil.parser.parse` are parameters (`Parsers`). The model does not capture which strings they accept.
- `utils/currency.py` imports `file_age`, `general_sensors` and `http_parsers`, which the shown modules do not define. The model takes `file_age` to be the cache age of `utils/spot_price.py:35-40`. The fetch and the parser of each device are parameters, and both the fetch (`fetch_json`) and the parser are assumed not to raise. The `apikey` header is not modelled.
- Sensors: the one-wire sensors (`w1_sensors.get_temperatures`, the `W1ThermSensor` hardware) are a map given to each round. `kernel_ok` is a parameter.
- Logging and `print` are not modelled.
- The `while True` loops run over a finite sequence of rounds. Endless runs are their prefixes.

## Findings

| source | as written | input that shows it | evidently intended | confidence | as-written member | corrected member |
|---|---|---|---|---|---|---|
| utils/sensors.py:33-37 | after `r.json()` fails, the loop still calls `parse_temperature(json_response)`. That runs on the previous URL's document, or raises `UnboundLocalError` for the first URL | two URLs: the first answers `{"temp": 20}`, the second answers 200 with a non-JSON body. The second name reports 20 | a body that does not decode reads −1000, like a failed request; `run_tsensors` (`Sensors.RunTSensors`) is modelled over this corrected reading, and `Sensors.RoundAsWritten` compares its round with the one as written | not executed | Sensors.ReusedResponse | Sensors.HttpSensors.GetTemperatures |
| w_pandas.py:104-106 | `cache_write` passes `typ='series'` to `Series.to_json`, which takes no such keyword, so it raises `TypeError` whenever there is a series to write, and the cache is never written | a cache file that is missing or six hours old, and a service that returns a series: `get_daily_prices` and `find_slots` raise, and keep raising on every later call, since the cache stays stale | write the series to the cache, as `utils/spot_price.py:42-44` does, so that the next six hours read it back | not executed | Planner.StaleCacheNeverPlans | SpotPrice.CacheRoundTrip |
