/**
 The ticker engine as the object it is; what its steps mean for the series is said in `TickerSeries` and `TickerRuns`.
 */
module TickerEngines {
  import opened Options
  import opened Tickers
  import opened TickerSeries

  /** The cache, the ids seen and the trades waiting. */
  datatype State = State(cache: CacheMap, received: set<int>, queue: seq<Trade>)

  /** One empty trade per method. */
  function Empties(venues: seq<Venue>, time: int): (r: seq<Trade>)
    ensures |r| == |venues| && forall i :: 0 <= i < |venues| ==> r[i] == Trade(-1, 0.0, 0.0, venues[i], time)
  {
    seq(|venues|, i requires 0 <= i < |venues| => Trade(-1, 0.0, 0.0, venues[i], time))
  }

  /** LAST is still served for every method the trade concerns. */
  ghost predicate AllServed(venues: seq<Venue>, c: CacheMap, x: Trade, now: real) {
    forall v <- venues :: x.venue.Meets(v) ==> Served(c, Last(v), now)
  }

  /** The trade has updated every method it concerns, and no other. */
  ghost predicate AllUpdated(venues: seq<Venue>, c: CacheMap, c': CacheMap, x: Trade, now: real) {
    && (forall v <- venues :: UpdatedIf(c, c', v, x, now))
    && (forall w: Venue | w !in venues :: SameFor(c, c', w))
  }

  predicate Distinct(venues: seq<Venue>) { forall i, j :: 0 <= i < j < |venues| ==> venues[i] != venues[j] }

  function FirstPrice(firstTrades: map<Venue, Trade>, v: Venue): real {
    if v in firstTrades then firstTrades[v].price else 0.0
  }

  /** Ticker data before any trade. */
  function Blank(price: real, v: Venue, time: int): TickerData { TickerData(0.0, 0.0, price, time, false, v, map[]) }

  /** Every LAST shows the price before the series; all other entries are left. */
  ghost predicate Blanked(venues: seq<Venue>, c: CacheMap, c': CacheMap, firstTrades: map<Venue, Trade>, start: int,
                          now: real)
  {
    && (forall v <- venues :: Written(c', Last(v), Blank(FirstPrice(firstTrades, v), v, start - 1), now))
    && (forall k: Key :: !(k.Last? && k.venue in venues) ==> SameAt(c, c', k))
  }

  /** The input callback, a round of empty trades, or a call of `onTick`. */
  datatype Event = Arrive(trade: Trade) | Round(time: int) | Tick(now: real)

  /** The next trade is worked in and leaves the queue. */
  ghost predicate Ticked(venues: seq<Venue>, s: State, s': State, now: real) {
    && s.queue != [] && s'.queue == s.queue[1..] && s'.received == s.received
    && AllServed(venues, s.cache, s.queue[0], now) && AllUpdated(venues, s.cache, s'.cache, s.queue[0], now)
  }

  ghost predicate Step(venues: seq<Venue>, s: State, e: Event, s': State) {
    match e
    case Arrive(x) =>
      if x.id != 0 && x.id in s.received then s' == s
      else s' == State(s.cache, s.received + {x.id}, s.queue + [x])
    case Round(time) => s' == s.(queue := s.queue + Empties(venues, time))
    case Tick(now) => Ticked(venues, s, s', now)
  }

  ghost predicate Trace(venues: seq<Venue>, states: seq<State>, events: seq<Event>) {
    && |states| == |events| + 1
    && forall i :: 0 <= i < |events| ==> Step(venues, states[i], events[i], states[i + 1])
  }

  /** The caches a list of loaded trades goes through. */
  ghost predicate Loading(venues: seq<Venue>, caches: seq<CacheMap>, trades: seq<Trade>, now: real) {
    && |caches| == |trades| + 1
    && forall i :: 0 <= i < |trades| ==> AllUpdated(venues, caches[i], caches[i + 1], trades[i], now)
  }

  /** First the blank LASTs, then the loaded trades. */
  ghost predicate Preloaded(venues: seq<Venue>, c: CacheMap, c': CacheMap, firstTrades: map<Venue, Trade>, start: int,
                            trades: seq<Trade>, now: real)
  {
    exists caches: seq<CacheMap> ::
      && Loading(venues, caches, trades, now)
      && Blanked(venues, c, caches[0], firstTrades, start, now) && caches[|trades|] == c'
  }

  /** Every LAST was written just now. */
  ghost predicate JustWritten(venues: seq<Venue>, c: CacheMap, now: real) {
    forall v <- venues :: Last(v) in c && c[Last(v)].writtenAt == now
  }

  lemma UpdateJustWritten(venues: seq<Venue>, c: CacheMap, c': CacheMap, x: Trade, now: real)
    requires JustWritten(venues, c, now) && AllUpdated(venues, c, c', x, now)
    ensures JustWritten(venues, c', now)
  {
    hide NextData, CurrentData, LateData;
    forall v | v in venues ensures Last(v) in c' && c'[Last(v)].writtenAt == now {
      assert UpdatedIf(c, c', v, x, now);
      LastWritten(c, c', v, x, now);
    }
  }

  /** An update leaves LAST or writes it now. */
  lemma LastWritten(c: CacheMap, c': CacheMap, v: Venue, x: Trade, now: real)
    requires UpdatedIf(c, c', v, x, now) && Last(v) in c
    ensures Last(v) in c' && (c'[Last(v)] == c[Last(v)] || c'[Last(v)].writtenAt == now)
  {
    hide NextData, CurrentData, LateData, WalkEnds;
    assert SameFor(c, c', v) ==> SameAt(c, c', Last(v));
    if x.venue.Meets(v) && x.id >= 0 && x.time < c[Last(v)].data.time {
      var end :| WalkedTo(c, c', v, x, end, now);
    }
  }

  lemma JustWrittenServed(venues: seq<Venue>, c: CacheMap, x: Trade, now: real)
    requires JustWritten(venues, c, now)
    ensures AllServed(venues, c, x, now)
  {
  }

  /** Some second lies behind all entries of a method. */
  lemma SecondsBounded(c: CacheMap, v: Venue) returns (bound: int)
    ensures forall t | At(v, t) in c :: t < bound
  {
    var seconds := set k | k in c.Keys && k.At? && k.venue == v :: k.second;
    bound := BoundOf(seconds);
    forall t | At(v, t) in c ensures t < bound { assert t in seconds; }
  }

  lemma BoundOf(seconds: set<int>) returns (bound: int)
    ensures forall t <- seconds :: t < bound
    decreases |seconds|
  {
    bound := 0;
    if t :| t in seconds {
      var b := BoundOf(seconds - {t});
      bound := if t < b then b else t + 1;
      assert forall u <- seconds :: u == t || u in seconds - {t};
    }
  }

  class TickerEngine {
    const venues: seq<Venue>
    var cache: CacheMap
    var receivedTrades: map<int, int>
    var unprocessedTrades: seq<Trade>

    /** The map of received trades holds each id under itself; no two trades waiting share a positive id. */
    ghost predicate Valid()
      reads this`receivedTrades, this`unprocessedTrades
    {
      && Distinct(venues)
      && (forall id <- receivedTrades :: receivedTrades[id] == id)
      && (forall x <- unprocessedTrades :: x.id > 0 ==> x.id in receivedTrades)
      && forall i, j :: 0 <= i < j < |unprocessedTrades| && unprocessedTrades[i].id > 0 ==>
           unprocessedTrades[i].id != unprocessedTrades[j].id
    }

    ghost function View(): State
      reads this
    {
      State(cache, receivedTrades.Keys, unprocessedTrades)
    }

    /** The cache may hold entries of a process before. */
    constructor (venues: seq<Venue>, cache: CacheMap)
      requires Distinct(venues)
      ensures Valid() && this.venues == venues && View() == State(cache, {}, [])
    {
      this.venues := venues;
      this.cache, receivedTrades, unprocessedTrades := cache, map[], [];
    }

    function GetCache(key: Key, now: real): Option<TickerData>
      reads this`cache
    {
      Lookup(cache, key, now)
    }

    method SetCache(key: Key, data: TickerData, now: real)
      modifies this`cache
      ensures cache == old(cache)[key := Entry(data, now)]
    {
      cache := cache[key := Entry(data, now)];
    }

    method MSet(data: seq<(Key, TickerData)>, now: real)
      modifies this`cache
      ensures forall k :: k in cache <==> k in old(cache) || exists i :: 0 <= i < |data| && data[i].0 == k
      ensures forall k :: k in old(cache) && (forall i :: 0 <= i < |data| ==> data[i].0 != k) ==>
        cache[k] == old(cache)[k]
      ensures (forall i, j :: 0 <= i < j < |data| ==> data[i].0 != data[j].0) ==>
                forall i :: 0 <= i < |data| ==> data[i].0 in cache && cache[data[i].0] == Entry(data[i].1, now)
    {
      for n := 0 to |data|
        invariant forall k :: k in cache <==> k in old(cache) || exists i :: 0 <= i < n && data[i].0 == k
        invariant forall k :: k in old(cache) && (forall i :: 0 <= i < n ==> data[i].0 != k) ==>
          cache[k] == old(cache)[k]
        invariant (forall i, j :: 0 <= i < j < |data| ==> data[i].0 != data[j].0) ==>
                    forall i :: 0 <= i < n ==> data[i].0 in cache && cache[data[i].0] == Entry(data[i].1, now)
      {
        SetCache(data[n].0, data[n].1, now);
      }
    }

    method AddMissingTickerData(v: Venue, lastTickerData: TickerData, time: int, now: real)
      requires lastTickerData.time < time
      modifies this`cache
      ensures forall k: Key ::
        if k.At? && k.venue == v && lastTickerData.time < k.second < time
        then Written(cache, k, lastTickerData.(time := k.second, hasNewTrades := false), now)
        else SameAt(old(cache), cache, k)
    {
      var data: seq<(Key, TickerData)> := [];
      for i := lastTickerData.time + 1 to time
        invariant |data| == i - lastTickerData.time - 1
        invariant forall j :: 0 <= j < |data| ==>
          data[j] == (At(v, lastTickerData.time + 1 + j),
            lastTickerData.(time := lastTickerData.time + 1 + j, hasNewTrades := false))
      {
        data := data + [(At(v, i), lastTickerData.(time := i, hasNewTrades := false))];
      }
      MSet(data, now);
      forall k: Key | k.At? && k.venue == v && lastTickerData.time < k.second < time
        ensures Written(cache, k, lastTickerData.(time := k.second, hasNewTrades := false), now)
      {
        assert data[k.second - lastTickerData.time - 1].0 == k;
      }
    }

    /** The walk has worked the trade into the seconds before `time`. */
    ghost predicate WalkedSoFar(c: CacheMap, c': CacheMap, v: Venue, x: Trade, time: int, now: real) {
      && (forall t | x.time <= t < time :: Served(c, At(v, t), now))
      && forall k: Key ::
           if k.At? && k.venue == v && x.time <= k.second < time
           then k in c && Written(c', k, LateData(c, v, x, k.second), now)
           else SameAt(c, c', k)
    }

    /** The loop of `updateOldTickerData` before it looks at `time`. */
    ghost predicate Walking(c: CacheMap, c': CacheMap, v: Venue, x: Trade, time: int, overtaken: bool,
                            data: Option<TickerData>, now: real)
    {
      && x.time <= time && WalkedSoFar(c, c', v, x, time, now)
      && (overtaken <==> Overtaken(c, v, x.time, time - 1))
      && if time == x.time then data == None
         else At(v, time - 1) in c && data == Some(LateData(c, v, x, time - 1))
    }

    lemma WalkBegins(c: CacheMap, v: Venue, x: Trade, now: real)
      ensures Walking(c, c, v, x, x.time, false, None, now)
    {
    }

    /** One more second served. */
    lemma WalkGoesOn(c: CacheMap, c': CacheMap, v: Venue, x: Trade, time: int, overtaken: bool,
                     data: Option<TickerData>, now: real)
      requires Walking(c, c', v, x, time, overtaken, data, now) && Served(c', At(v, time), now)
      ensures At(v, time) in c
      ensures var d := c'[At(v, time)].data;
              var overtaken' := overtaken || (time != x.time && d.hasNewTrades);
              var data' := WorkedIn(d, x, time, overtaken');
              Walking(c, c'[At(v, time) := Entry(data', now)], v, x, time + 1, overtaken', Some(data'), now)
    {
      hide WorkedIn;
      assert SameAt(c, c', At(v, time));
      if Overtaken(c, v, x.time, time) && !Overtaken(c, v, x.time, time - 1) {
        var u :| x.time < u <= time && At(v, u) in c && c[At(v, u)].data.hasNewTrades;
        assert u == time;
      }
    }

    /** The first second not served. */
    lemma WalkStops(c: CacheMap, c': CacheMap, v: Venue, x: Trade, time: int, overtaken: bool,
                    data: Option<TickerData>, now: real)
      requires Walking(c, c', v, x, time, overtaken, data, now) && !Served(c', At(v, time), now)
      ensures var c'' := if data.None? then c' else c'[Last(v) := Entry(data.value, now)];
              WalkedTo(c, c'', v, x, time, now) && OnlyFor(c, c'', v)
    {
      hide LateData, Overtaken;
      assert SameAt(c, c', At(v, time)) && (x.time < time ==> Served(c, At(v, time - 1), now));
    }

    /** `updateOldTickerData`, on any cache: walks forward from the trade's second to the first one not served. */
    method UpdateOldTickerData(trade: Trade, v: Venue, now: real) returns (ghost end: int)
      modifies this`cache
      ensures OnlyFor(old(cache), cache, v)
      ensures trade.id < 0 ==> cache == old(cache)
      ensures trade.id >= 0 ==> WalkedTo(old(cache), cache, v, trade, end, now)
    {
      end := trade.time;
      if trade.id < 0 {
        return;
      }
      hide WorkedIn, Walking, WalkedTo, OnlyFor;
      ghost var before := cache;
      ghost var bound := SecondsBounded(cache, v);
      var time, hasNewTrades := trade.time, false;
      var tickerData: Option<TickerData> := None;
      WalkBegins(cache, v, trade, now);
      while true
        invariant Walking(before, cache, v, trade, time, hasNewTrades, tickerData, now)
        invariant time > trade.time ==> time <= bound
        decreases bound - time
      {
        var oldTickerData := GetCache(At(v, time), now);
        if oldTickerData.None? {
          end := time;
          WalkStops(before, cache, v, trade, time, hasNewTrades, tickerData, now);
          if tickerData.None? {
            break;
          }
          SetCache(Last(v), tickerData.value, now);
          break;
        }
        WalkGoesOn(before, cache, v, trade, time, hasNewTrades, tickerData, now);
        if time != trade.time && oldTickerData.value.hasNewTrades {
          hasNewTrades := true;
        }
        tickerData := Some(WorkedIn(oldTickerData.value, trade, time, hasNewTrades));
        SetCache(At(v, time), tickerData.value, now);
        time := time + 1;
      }
    }

    /** `updateTickerData`, on any cache; `ok` is false where the source throws because LAST is not served. */
    method UpdateTickerData(trade: Trade, v: Venue, now: real) returns (ok: bool)
      modifies this`cache
      ensures ok == Served(old(cache), Last(v), now) && (!ok ==> cache == old(cache))
      ensures ok ==> Updated(old(cache), cache, v, trade, now) && OnlyFor(old(cache), cache, v)
    {
      hide Trade.QuoteAmount, NewTradeCounts, LateData, WalkEnds;
      var cached := GetCache(Last(v), now);
      if cached.None? {
        return false;
      }
      var lastTickerData := cached.value;
      if trade.time == lastTickerData.time {
        if trade.id >= 0 {
          var tickerData := TickerData(
            lastTickerData.volume + trade.filledAmount, lastTickerData.quoteVolume + trade.QuoteAmount(),
            trade.price, lastTickerData.time, true, trade.venue, NewTradeCounts(lastTickerData.tradeCounts, trade));
          SetCache(Last(v), tickerData, now);
          SetCache(At(v, trade.time), tickerData, now);
        }
      } else if trade.time > lastTickerData.time {
        AddMissingTickerData(v, lastTickerData, trade.time, now);
        var tickerData := TickerData(
          lastTickerData.volume + trade.filledAmount, lastTickerData.quoteVolume + trade.QuoteAmount(),
          if trade.id < 0 then lastTickerData.price else trade.price, trade.time, trade.id >= 0,
          if trade.id < 0 then lastTickerData.lastTradingMethod else trade.venue,
          NewTradeCounts(lastTickerData.tradeCounts, trade));
        SetCache(Last(v), tickerData, now);
        SetCache(At(v, trade.time), tickerData, now);
      } else {
        ghost var end := UpdateOldTickerData(trade, v, now);
      }
      return true;
    }

    /** The loop over the methods in `onTick` and `preloadData`; it breaks off where a LAST is not served. */
    method UpdateAll(trade: Trade, now: real) returns (ok: bool)
      requires Valid()
      modifies this`cache
      ensures ok == AllServed(venues, old(cache), trade, now)
      ensures ok ==> AllUpdated(venues, old(cache), cache, trade, now)
      ensures forall v: Venue :: UpdatedIf(old(cache), cache, v, trade, now) || SameFor(old(cache), cache, v)
    {
      hide Updated;
      ghost var before := cache;
      ok := true;
      for i := 0 to |venues|
        invariant ok && forall j :: 0 <= j < i ==>
          UpdatedIf(before, cache, venues[j], trade, now)
            && (trade.venue.Meets(venues[j]) ==> Served(before, Last(venues[j]), now))
        invariant forall w: Venue | w !in venues[..i] :: SameFor(before, cache, w)
      {
        ghost var mid, v := cache, venues[i];
        assert v !in venues[..i] && SameAt(before, mid, Last(v));
        if trade.venue.Meets(venues[i]) {
          ok := UpdateTickerData(trade, venues[i], now);
          if !ok { return; }
        }
        UpdateFrame(before, mid, cache, v, trade, now);
        assert venues[..i + 1] == venues[..i] + [v];
        forall w: Venue | w != v ensures SameFor(mid, cache, w) {}
        forall w: Venue | w !in venues[..i + 1] ensures SameFor(before, cache, w) {
          assert SameFor(before, mid, w) && SameFor(mid, cache, w);
        }
        forall j | 0 <= j < i ensures UpdatedIf(before, cache, venues[j], trade, now) {
          UpdateFrame(before, mid, cache, venues[j], trade, now);
        }
      }
      assert venues[..|venues|] == venues;
    }

    /** `onNewTrade`: the source's truth test on the map lets an id of 0 through every time. */
    method OnNewTrade(trade: Trade)
      requires Valid()
      modifies this`receivedTrades, this`unprocessedTrades
      ensures Valid()
      ensures trade.id != 0 && trade.id in old(receivedTrades) ==> View() == old(View())
      ensures trade.id == 0 || trade.id !in old(receivedTrades) ==>
        unprocessedTrades == old(unprocessedTrades) + [trade]
          && receivedTrades.Keys == old(receivedTrades.Keys) + {trade.id}
    {
      if trade.id in receivedTrades && receivedTrades[trade.id] != 0 {
        return;
      }
      receivedTrades := receivedTrades[trade.id := trade.id];
      unprocessedTrades := unprocessedTrades + [trade];
    }

    /** `addEmptyTrades`, one round. */
    method AddEmptyTrades(time: int)
      requires Valid()
      modifies this`unprocessedTrades
      ensures Valid() && unprocessedTrades == old(unprocessedTrades) + Empties(venues, time)
    {
      for i := 0 to |venues|
        invariant Valid() && unprocessedTrades == old(unprocessedTrades) + Empties(venues, time)[..i]
      {
        unprocessedTrades := unprocessedTrades + [Trade(-1, 0.0, 0.0, venues[i], time)];
      }
    }

    /** `onTick`, with a trade waiting. */
    method OnTick(now: real) returns (ok: bool)
      requires Valid() && unprocessedTrades != []
      modifies this`cache, this`unprocessedTrades
      ensures Valid() && unprocessedTrades == old(unprocessedTrades)[1..]
      ensures ok == AllServed(venues, old(cache), old(unprocessedTrades)[0], now)
      ensures forall v: Venue ::
        UpdatedIf(old(cache), cache, v, old(unprocessedTrades)[0], now) || SameFor(old(cache), cache, v)
      ensures ok ==> Ticked(venues, old(View()), View(), now)
    {
      hide AllServed, AllUpdated, UpdatedIf;
      var trade := unprocessedTrades[0];
      unprocessedTrades := unprocessedTrades[1..];
      ok := UpdateAll(trade, now);
    }

    /** The first half of `preloadData`: every LAST shows the price before the series start. */
    method PreloadFirst(firstTrades: map<Venue, Trade>, startTime: int, now: real)
      requires Valid()
      modifies this`cache
      ensures Blanked(venues, old(cache), cache, firstTrades, startTime, now)
    {
      hide Blank, FirstPrice;
      for i := 0 to |venues|
        invariant forall j :: 0 <= j < i ==>
          Written(cache, Last(venues[j]), Blank(FirstPrice(firstTrades, venues[j]), venues[j], startTime - 1), now)
        invariant forall k: Key :: !(k.Last? && k.venue in venues) ==> SameAt(old(cache), cache, k)
      {
        SetCache(Last(venues[i]), Blank(FirstPrice(firstTrades, venues[i]), venues[i], startTime - 1), now);
      }
    }

    /** `preloadData`, on whatever the cache holds: no LAST is missed, and the loaded ids are not registered. */
    method PreloadData(firstTrades: map<Venue, Trade>, startTime: int, trades: seq<Trade>, now: real)
      requires Valid()
      modifies this`cache
      ensures Preloaded(venues, old(cache), cache, firstTrades, startTime, trades, now)
        && JustWritten(venues, cache, now)
    {
      PreloadFirst(firstTrades, startTime, now);
      ghost var caches := [cache];
      assert JustWritten(venues, cache, now);
      hide Blanked, AllServed, AllUpdated, UpdatedIf, JustWritten;
      for n := 0 to |trades|
        invariant Loading(venues, caches, trades[..n], now) && caches[n] == cache && JustWritten(venues, cache, now)
        invariant Blanked(venues, old(cache), caches[0], firstTrades, startTime, now)
      {
        ghost var before := cache;
        JustWrittenServed(venues, cache, trades[n], now);
        var _ := UpdateAll(trades[n], now);
        UpdateJustWritten(venues, before, cache, trades[n], now);
        caches := caches + [cache];
      }
      assert trades[..|trades|] == trades;
    }

    /** One interleaving of the loop of `start` with its callbacks; `ok` is false where it throws or would wait. */
    method Start(events: seq<Event>) returns (ok: bool, ghost states: seq<State>)
      requires Valid()
      modifies this
      ensures Valid()
      ensures ok ==> Trace(venues, states, events) && states[0] == old(View()) && states[|events|] == View()
    {
      hide Step;
      states := [View()];
      for n := 0 to |events|
        invariant Valid() && Trace(venues, states, events[..n]) && states[0] == old(View()) && states[n] == View()
      {
        ok := Take(events[n]);
        if !ok {
          return;
        }
        states := states + [View()];
      }
      assert events[..|events|] == events;
      ok := true;
    }

    method Take(e: Event) returns (ok: bool)
      requires Valid()
      modifies this
      ensures Valid() && (ok ==> Step(venues, old(View()), e, View()))
    {
      hide AllServed, AllUpdated, UpdatedIf;
      ok := true;
      match e {
        case Arrive(trade) => OnNewTrade(trade);
        case Round(time) => AddEmptyTrades(time);
        case Tick(now) =>
          ok := unprocessedTrades != [];
          if ok { ok := OnTick(now); }
      }
    }
  }
}
