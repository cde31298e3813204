/**
  `run_client` of `utils/spot_price.py`: connect, then forever update the
  price list and publish the current price and rank, going offline and
  retrying after five minutes when the update raises. Any other exception,
  and an interrupt, ends the loop after disconnecting.

  The endless loop runs here over a finite sequence of rounds; each round
  carries the clock reading and what the price service would return.
*/
module PriceClient {
  import opened Wrappers
  import opened Series
  import opened FileCache
  import opened SpotPrice
  import opened Mqtt

  /** Sleep after a failed update. */
  const RetryDelay: int := 5 * 60
  /** Sleep after a published price. */
  const PublishDelay: int := 30

  /** The message `{'price': price, 'slot': consumer_size}`. */
  datatype Info = Info(price: real, slot: nat)

  /** One round of the loop: the clock and the service's answer, or an interrupt. */
  datatype Round = Round(now: int, fetched: FetchOutcome) | Interrupt

  datatype RoundResult = RoundResult(engine: Engine, files: Files, events: seq<Event<Info>>, stop: bool)

  /** The events of a round after the update: offline and a retry delay
      when it raised; offline and the end of the loop (`disconnect`) when
      the price or the rank raised; otherwise the message, online, and the
      steady delay. */
  function RoundEvents(raised: bool, price: Option<real>, slot: Option<nat>): seq<Event<Info>> {
    if raised then [Available(false), Sleep(RetryDelay)]
    else if price.None? || slot.None? then [Available(false)]
    else [Data(Info(price.value, slot.value)), Available(true), Sleep(PublishDelay)]
  }

  function RoundStops(raised: bool, price: Option<real>, slot: Option<nat>): bool {
    !raised && (price.None? || slot.None?)
  }

  /** One pass of the `while True` body. */
  function ClientRound(e: Engine, files: Files, path: string, round: Round): RoundResult {
    match round
    case Interrupt =>
      RoundResult(e, files, [Available(false)], true)
    case Round(now, fetched) =>
      var u := UpdateStep(e, files, path, now, fetched);
      var price := if u.raised then None else CurrentPrice(u.engine.prices, now);
      var slot := if u.raised then None else Ranking(u.engine.prices, now);
      RoundResult(u.engine, u.files, RoundEvents(u.raised, price, slot), RoundStops(u.raised, price, slot))
  }

  /** Every sleep lasts thirty seconds or five minutes, and every price
      message is followed at once by an online announcement. */
  predicate WellFormed(events: seq<Event<Info>>) {
    && (forall k :: 0 <= k < |events| && events[k].Sleep? ==>
          events[k].seconds == PublishDelay || events[k].seconds == RetryDelay)
    && (forall k :: 0 <= k < |events| && events[k].Data? ==>
          k + 1 < |events| && events[k + 1] == Available(true))
  }

  lemma WellFormedConcat(a: seq<Event<Info>>, b: seq<Event<Info>>)
    requires WellFormed(a) && WellFormed(b)
    ensures WellFormed(a + b)
  {
    var c := a + b;
    forall k | 0 <= k < |c| && c[k].Data? ensures k + 1 < |c| && c[k + 1] == Available(true) {
      if k < |a| {
        assert c[k] == a[k] && c[k + 1] == a[k + 1];
      } else {
        assert c[k] == b[k - |a|] && c[k + 1] == b[k + 1 - |a|];
      }
    }
    forall k | 0 <= k < |c| && c[k].Sleep? ensures c[k].seconds == PublishDelay || c[k].seconds == RetryDelay {
      if k < |a| { assert c[k] == a[k]; } else { assert c[k] == b[k - |a|]; }
    }
  }

  /** What a round publishes: offline and a retry when the update raised,
      offline alone when it stops, otherwise the message with exactly the
      price and the rank, then online and the steady delay. */
  lemma RoundEventsShape(raised: bool, price: Option<real>, slot: Option<nat>)
    ensures var ev := RoundEvents(raised, price, slot);
            && WellFormed(ev)
            && (raised ==> ev == [Available(false), Sleep(RetryDelay)])
            && (RoundStops(raised, price, slot) ==> ev == [Available(false)])
            && (ev[0].Data? <==> !raised && price.Some? && slot.Some?)
            && (ev[0].Data? ==> ev == [Data(Info(price.value, slot.value)), Available(true), Sleep(PublishDelay)])
  {
  }

  /** The shape of one round's events. */
  lemma RoundShape(e: Engine, files: Files, path: string, round: Round)
    ensures var t := ClientRound(e, files, path, round);
            WellFormed(t.events) && (t.stop ==> t.events == [Available(false)])
  {
    match round
    case Interrupt =>
    case Round(now, fetched) =>
      var u := UpdateStep(e, files, path, now, fetched);
      var price := if u.raised then None else CurrentPrice(u.engine.prices, now);
      var slot := if u.raised then None else Ranking(u.engine.prices, now);
      RoundEventsShape(u.raised, price, slot);
  }

  /** The events of the rounds from `e` and `files` on, up to the first that stops. */
  function Rounds(e: Engine, files: Files, path: string, rounds: seq<Round>): seq<Event<Info>>
    decreases |rounds|
  {
    if rounds == [] then []
    else
      var t := ClientRound(e, files, path, rounds[0]);
      t.events + (if t.stop then [] else Rounds(t.engine, t.files, path, rounds[1..]))
  }

  /** The whole run: nothing when connecting fails (the process exits),
      otherwise the online announcement of `connect` and then the rounds. */
  function ClientTrace(e: Engine, files: Files, path: string, connected: bool, rounds: seq<Round>): seq<Event<Info>> {
    if connected then [Available(true)] + Rounds(e, files, path, rounds) else []
  }

  lemma RoundsStep(e: Engine, files: Files, path: string, rounds: seq<Round>)
    requires rounds != []
    ensures var t := ClientRound(e, files, path, rounds[0]);
            Rounds(e, files, path, rounds) == t.events + (if t.stop then [] else Rounds(t.engine, t.files, path, rounds[1..]))
  {
  }

  /** One pass of the loop body on the price list: update it, then read
      the price and the rank unless the update raised. */
  method ClientStep(priceList: PriceList, round: Round) returns (events: seq<Event<Info>>, stop: bool)
    modifies priceList, priceList.disk
    ensures var t := ClientRound(old(priceList.State()), old(priceList.disk.files), priceList.cache, round);
            events == t.events && stop == t.stop
            && priceList.State() == t.engine && priceList.disk.files == t.files
  {
    match round
    case Interrupt =>
      return [Available(false)], true;
    case Round(now, fetched) =>
      var source, raised := priceList.Update(now, fetched);
      var price: Option<real> := None;
      var slot: Option<nat> := None;
      if !raised {
        price := CurrentPrice(priceList.prices, now);
        slot := CurrentRanking(priceList.prices, now);
      }
      events, stop := RoundEvents(raised, price, slot), RoundStops(raised, price, slot);
  }

  /** `run_client` after the price list is created: the events it hands to
      the client are exactly those of `ClientTrace`. */
  method RunClient(priceList: PriceList, connected: bool, rounds: seq<Round>) returns (trace: seq<Event<Info>>)
    modifies priceList, priceList.disk
    ensures trace == ClientTrace(old(priceList.State()), old(priceList.disk.files), priceList.cache, connected, rounds)
  {
    if !connected {
      return [];
    }
    trace := [Available(true)];
    var i := 0;
    while i < |rounds|
      invariant 0 <= i <= |rounds|
      invariant trace + Rounds(priceList.State(), priceList.disk.files, priceList.cache, rounds[i..])
                == ClientTrace(old(priceList.State()), old(priceList.disk.files), priceList.cache, connected, rounds)
    {
      RoundsStep(priceList.State(), priceList.disk.files, priceList.cache, rounds[i..]);
      assert rounds[i..][0] == rounds[i] && rounds[i..][1..] == rounds[i + 1..];
      var events, stop := ClientStep(priceList, rounds[i]);
      if stop {
        return trace + events;
      }
      trace := trace + events;
      i := i + 1;
    }
  }

  // -----------------------------------------------------------------------
  // Properties of the loop

  /** A round whose update raised announces offline, waits five minutes and
      publishes no price; a round that published announces online next and
      waits thirty seconds. */
  lemma RoundOutcomes(e: Engine, files: Files, path: string, now: int, fetched: FetchOutcome)
    ensures var t := ClientRound(e, files, path, Round(now, fetched));
            var u := UpdateStep(e, files, path, now, fetched);
            (u.raised ==> t.events == [Available(false), Sleep(RetryDelay)] && !t.stop)
            && (!t.stop && !u.raised ==>
                  |t.events| == 3 && t.events[0].Data? && t.events[1] == Available(true)
                  && t.events[2] == Sleep(PublishDelay))
            && (t.stop ==> t.events == [Available(false)])
  {
    var u := UpdateStep(e, files, path, now, fetched);
    var price := if u.raised then None else CurrentPrice(u.engine.prices, now);
    var slot := if u.raised then None else Ranking(u.engine.prices, now);
    RoundEventsShape(u.raised, price, slot);
  }

  /** The slot published with a price is the current hour's position among
      today's sorted prices: the 24 sentinel is never published beside a price. */
  lemma PublishedSlotIsRanked(e: Engine, files: Files, path: string, now: int, fetched: FetchOutcome)
    ensures var t := ClientRound(e, files, path, Round(now, fetched));
            var prices := UpdateStep(e, files, path, now, fetched).engine.prices;
            t.events[0].Data? ==>
              var sorted := TodaysSorted(prices, now);
              && sorted.Some?
              && t.events[0].payload.slot < |sorted.value|
              && Clock.HourOf(sorted.value[t.events[0].payload.slot].time) == Clock.HourOf(now)
              && t.events[0].payload.price == CurrentPrice(prices, now).value
  {
    var u := UpdateStep(e, files, path, now, fetched);
    var price := if u.raised then None else CurrentPrice(u.engine.prices, now);
    var slot := if u.raised then None else Ranking(u.engine.prices, now);
    RoundEventsShape(u.raised, price, slot);
    if !u.raised && price.Some? {
      PricedHourIsRanked(u.engine.prices, now);
    }
  }

  /** Every sleep of a run lasts either thirty seconds or five minutes, and
      every price message is followed at once by an online announcement. */
  lemma {:induction false} RunShape(e: Engine, files: Files, path: string, rounds: seq<Round>)
    ensures WellFormed(Rounds(e, files, path, rounds))
    decreases |rounds|
  {
    if rounds != [] {
      var t := ClientRound(e, files, path, rounds[0]);
      RoundShape(e, files, path, rounds[0]);
      RoundsStep(e, files, path, rounds);
      if !t.stop {
        RunShape(t.engine, t.files, path, rounds[1..]);
        WellFormedConcat(t.events, Rounds(t.engine, t.files, path, rounds[1..]));
      } else {
        assert t.events + [] == t.events;
      }
    }
  }
}
