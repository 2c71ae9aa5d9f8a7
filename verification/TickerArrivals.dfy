/** What the ticker shows of the trades that arrived, from start-up to an empty queue. */
module TickerArrivals {
  import opened Options
  import opened Tickers
  import opened TickerSeries
  import opened TickerEngines
  import opened TickerRuns

  /**
   A process from its start: the cache it finds, the trades it loads, and one interleaving of ticks, rounds of empty
   trades and arrivals. If some of what it finds is still served from `start` on, then no late trade comes before LAST
   has passed that.
   */
  datatype Run = Run(venues: seq<Venue>, found: CacheMap, firstTrades: map<Venue, Trade>, start: int,
                     loaded: seq<Trade>, now: real, bound: int, states: seq<State>, events: seq<Event>)
  {
    /** Engine, preload and loop. */
    ghost predicate Started() {
      && Trace(venues, states, events) && states[0] == State(states[0].cache, {}, [])
      && Preloaded(venues, found, states[0].cache, firstTrades, start, loaded, now)
    }

    ghost predicate Valid() {
      && (forall v <- venues :: v.Meets(v))
      && Started() && Loadable(loaded, start, now) && Survivors(found, bound, now)
      && TimelyRun(states, events, start, now)
      && (start <= bound ==> AllCalm(venues, states, events, start, bound))
    }

    function Final(): State
      requires |states| == |events| + 1
    {
      states[|events|]
    }

    ghost predicate Drained() { Valid() && Final().queue == [] }

    /** The trades loaded and those that arrived. */
    function Trades(): seq<Trade> { loaded + Real(Arrivals(venues, {}, events)) }

    /** The second lies in the method's series. */
    ghost predicate Covers(v: Venue, t: int)
      requires Valid()
    {
      v in venues && ReachedBy(Final().cache, v, t) && start <= t
    }
  }

  /**
   After a restart it is enough to look at the trades that came before the first round of empty trades, in the queue or
   on the stream: with no late one among them, none meets what was left. Nor does it matter when there are none.
   */
  lemma EarlyTradesDecide(r: Run, k: nat)
    requires r.Started() && Loadable(r.loaded, r.start, r.now) && Survivors(r.found, r.bound, r.now)
    requires TimelyRun(r.states, r.events, r.start, r.now) && forall v <- r.venues :: v.Meets(v)
    requires k < |r.events| && r.events[k].Round? && r.bound <= r.events[k].time
    requires EarlyCalm(r.venues, r.states, r.events, r.start, r.bound, |Arrivals(r.venues, {}, r.events[..k])|)
    ensures r.Valid()
  {
    hide Preloaded, Loadable, Survivors, Shows, Step, TimelyRun, CalmAt, Arrivals, EarlyFirst, EarlyCalm, AllCalm;
    PreloadShows(r.venues, r.found, r.states[0].cache, r.firstTrades, r.start, r.loaded, r.bound, r.now);
    var early := [] + Arrivals(r.venues, {}, r.events[..k]);
    forall i | 0 <= i <= |r.events|
      ensures EarlyFirst([] + Arrivals(r.venues, {}, r.events[..i]), early, Empties(r.venues, r.events[k].time))
    {
      RoundComesAt(r.venues, {}, [], r.events, k, i);
    }
    assert early == Arrivals(r.venues, {}, r.events[..k]);
    RestartCalm(r.venues, r.states, r.events, r.start, r.firstTrades, r.loaded, r.bound, r.now, early,
      r.events[k].time);
  }

  /** At every moment of a run each series shows what was loaded and what was handled since. */
  lemma ShowsHandled(r: Run)
    requires r.Valid()
    ensures Shows(r.venues, r.Final().cache, r.start, r.firstTrades, r.loaded + Real(Handled(r.states, r.events)),
                  r.bound, ClockAfter(r.now, r.events))
    ensures Handled(r.states, r.events) + r.Final().queue == Arrivals(r.venues, {}, r.events)
  {
    hide Preloaded, Loadable, Survivors, Shows, Step, TimelyRun, AllCalm;
    PreloadShows(r.venues, r.found, r.states[0].cache, r.firstTrades, r.start, r.loaded, r.bound, r.now);
    RunShows(r.venues, r.states, r.events, r.start, r.firstTrades, r.loaded, r.bound, r.now);
    Fifo(r.venues, r.states, r.events);
    assert [] + Arrivals(r.venues, {}, r.events) == Arrivals(r.venues, {}, r.events);
  }

  /** Once the queue is empty each series shows exactly the trades loaded and arrived. */
  lemma ShowsArrivals(r: Run)
    requires r.Drained()
    ensures Shows(r.venues, r.Final().cache, r.start, r.firstTrades, r.Trades(), r.bound, ClockAfter(r.now, r.events))
  {
    hide Shows, Preloaded, Loadable, Survivors, Step, TimelyRun;
    ShowsHandled(r);
    assert Handled(r.states, r.events) + [] == Handled(r.states, r.events);
  }

  lemma Covered(r: Run, v: Venue, t: int)
    requires r.Drained() && r.Covers(v, t)
    ensures var c := r.Final().cache;
            At(v, t) in c && c[At(v, t)].data == Summary(Matching(r.Trades(), v), FirstOf(r.firstTrades, v), t)
  {
    hide Preloaded, Loadable, Survivors, Step, TimelyRun, Summary, WrittenInOrder, Punctual, QuietBeyond;
    ShowsArrivals(r);
  }

  ghost predicate Arrives(events: seq<Event>, x: Trade) { exists i :: 0 <= i < |events| && events[i] == Arrive(x) }

  /** The stream's trades are rows of one table. */
  ghost predicate Identified(events: seq<Event>) {
    && (forall x | Arrives(events, x) :: x.id > 0)
    && forall x, y | Arrives(events, x) && Arrives(events, y) && x.id == y.id :: x == y
  }

  lemma ArrivesLast(events: seq<Event>, x: Trade)
    requires events != []
    ensures Arrives(events, x) <==> Arrives(events[..|events| - 1], x) || events[|events| - 1] == Arrive(x)
  {
    var n := |events| - 1;
    if Arrives(events, x) && events[n] != Arrive(x) {
      var i :| 0 <= i < |events| && events[i] == Arrive(x);
      assert events[..n][i] == Arrive(x);
    }
    if Arrives(events[..n], x) {
      var i :| 0 <= i < n && events[..n][i] == Arrive(x);
      assert events[i] == Arrive(x);
    }
  }

  lemma {:induction false} ReceivedIff(events: seq<Event>, id: int)
    ensures id in ReceivedAfter({}, events) <==> exists x :: Arrives(events, x) && x.id == id
    decreases |events|
  {
    if events != [] {
      var n := |events| - 1;
      ReceivedIff(events[..n], id);
      forall x ensures Arrives(events, x) <==> Arrives(events[..n], x) || events[n] == Arrive(x) {
        ArrivesLast(events, x);
      }
      hide Arrives;
      if events[n].Arrive? { assert Arrives(events, events[n].trade); }
    }
  }

  lemma {:induction false} RealOfEmpties(a: seq<Trade>, b: seq<Trade>)
    requires forall x <- b :: x.id < 0
    ensures Real(a + b) == Real(a)
    decreases |b|
  {
    if b == [] {
      assert a + b == a;
    } else {
      var n := |b| - 1;
      RealOfEmpties(a, b[..n]);
      assert (a + b)[..|a + b| - 1] == a + b[..n];
      assert (a + b)[|a + b| - 1] == b[n];
      assert b[n] in b;
    }
  }

  /** However often a trade arrives, it counts once. */
  lemma {:induction false} CountsOnce(venues: seq<Venue>, events: seq<Event>, x: Trade)
    requires Identified(events)
    ensures multiset(Real(Arrivals(venues, {}, events)))[x] == if Arrives(events, x) then 1 else 0
    decreases |events|
  {
    if events != [] {
      var n := |events| - 1;
      forall y ensures Arrives(events, y) <==> Arrives(events[..n], y) || events[n] == Arrive(y) {
        ArrivesLast(events, y);
      }
      CountsOnce(venues, events[..n], x);
      var before := Arrivals(venues, {}, events[..n]);
      match events[n] {
        case Arrive(y) =>
          ReceivedIff(events[..n], y.id);
          assert Arrives(events, y);
          assert (before + [y])[..|before|] == before;
        case Round(time) => RealOfEmpties(before, Empties(venues, time));
        case Tick(_) =>
      }
    }
  }

  lemma {:induction false} MatchingMultiset(trades: seq<Trade>, v: Venue, x: Trade)
    ensures multiset(Matching(trades, v))[x] == if x.venue.Meets(v) then multiset(trades)[x] else 0
  {
    if trades != [] {
      var n := |trades| - 1;
      MatchingMultiset(trades[..n], v, x);
      assert trades == trades[..n] + [trades[n]];
    }
  }

  lemma SameTrades(a: Run, b: Run, v: Venue)
    requires multiset(a.loaded) == multiset(b.loaded)
    requires Identified(a.events) && Identified(b.events) && forall x :: Arrives(a.events, x) <==> Arrives(b.events, x)
    ensures multiset(Matching(a.Trades(), v)) == multiset(Matching(b.Trades(), v))
  {
    forall x ensures multiset(Matching(a.Trades(), v))[x] == multiset(Matching(b.Trades(), v))[x] {
      CountsOnce(a.venues, a.events, x);
      CountsOnce(b.venues, b.events, x);
      MatchingMultiset(a.Trades(), v, x);
      MatchingMultiset(b.Trades(), v, x);
    }
  }

  /**
   Two runs with the same trades, in whatever order and however often each arrives, with whatever empty trades and
   clocks between them, show the same sums, counts and flags at every second.
   */
  lemma ArrivalOrderDoesNotMatter(a: Run, b: Run, v: Venue, t: int, counted: Venue)
    requires a.Drained() && b.Drained() && a.Covers(v, t) && b.Covers(v, t)
    requires multiset(a.loaded) == multiset(b.loaded)
    requires Identified(a.events) && Identified(b.events) && forall x :: Arrives(a.events, x) <==> Arrives(b.events, x)
    ensures At(v, t) in a.Final().cache && At(v, t) in b.Final().cache
    ensures var da, db := a.Final().cache[At(v, t)].data, b.Final().cache[At(v, t)].data;
            && da.volume == db.volume && da.quoteVolume == db.quoteVolume && da.hasNewTrades == db.hasNewTrades
            && CountOf(da.tradeCounts, counted) == CountOf(db.tradeCounts, counted)
  {
    hide Volume, QuoteVolume, TradeCounts, Latest, Count, Run.Valid, Identified, Arrives;
    Covered(a, v, t);
    Covered(b, v, t);
    SameTrades(a, b, v);
    var ta, tb := Matching(a.Trades(), v), Matching(b.Trades(), v);
    OrderIndependent(ta, tb, t, counted);
    AllRealTrades(a, v);
    AllRealTrades(b, v);
    CountsCount(ta, t, counted);
    CountsCount(tb, t, counted);
    assert forall x :: x in ta <==> x in multiset(ta);
    assert forall x :: x in tb <==> x in multiset(tb);
  }

  lemma {:induction false} RealAreReal(trades: seq<Trade>)
    ensures AllReal(Real(trades))
  {
    if trades != [] { RealAreReal(trades[..|trades| - 1]); }
  }

  lemma {:induction false} MatchingAmong(trades: seq<Trade>, v: Venue)
    ensures forall x <- Matching(trades, v) :: x in trades && x.venue.Meets(v)
  {
    if trades != [] {
      var n := |trades| - 1;
      MatchingAmong(trades[..n], v);
      assert trades == trades[..n] + [trades[n]];
    }
  }

  lemma AllRealTrades(r: Run, v: Venue)
    requires r.Valid()
    ensures AllReal(r.Trades()) && AllReal(Matching(r.Trades(), v))
  {
    hide Preloaded, Step, TimelyRun, Survivors;
    RealAreReal(Arrivals(r.venues, {}, r.events));
    MatchingAmong(r.Trades(), v);
  }

  /** `load-ticker-data`: a new engine on the cache it finds, the preload, and the loop under one interleaving. */
  method LoadTickerData(venues: seq<Venue>, found: CacheMap, firstTrades: map<Venue, Trade>, start: int,
                        loaded: seq<Trade>, now: real, events: seq<Event>, ghost bound: int)
    returns (engine: TickerEngine, ok: bool)
    requires Distinct(venues)
    ensures engine.Valid() && engine.venues == venues
    ensures ok ==> exists states: seq<State> ::
      && |states| == |events| + 1 && states[|events|] == engine.View()
      && Run(venues, found, firstTrades, start, loaded, now, bound, states, events).Started()
  {
    hide Preloaded, Step;
    engine := new TickerEngine(venues, found);
    engine.PreloadData(firstTrades, start, loaded, now);
    ghost var states;
    ok, states := engine.Start(events);
    assert ok ==> Run(venues, found, firstTrades, start, loaded, now, bound, states, events).Started();
  }

  // ---------- What counts, and how often ----------

  /** A trade that comes a second time changes nothing exactly when its id is not 0. */
  lemma RepeatDroppedIff(venues: seq<Venue>, s: State, x: Trade, once: State, twice: State)
    requires Step(venues, s, Arrive(x), once) && Step(venues, once, Arrive(x), twice)
    ensures twice == once <==> x.id != 0
  {
    assert |once.queue + [x]| != |once.queue|;
  }

  lemma TradeCount(r: Run, x: Trade)
    requires Identified(r.events)
    ensures multiset(r.Trades())[x] == multiset(r.loaded)[x] + if Arrives(r.events, x) then 1 else 0
  {
    CountsOnce(r.venues, r.events, x);
  }

  /** The ids loaded at start-up are not remembered: every trade counts once exactly when no loaded one is streamed. */
  lemma EachCountsOnceIff(r: Run)
    requires Identified(r.events) && forall x :: multiset(r.loaded)[x] <= 1
    ensures (forall x :: multiset(r.Trades())[x] <= 1) <==> (forall x <- r.loaded :: !Arrives(r.events, x))
  {
    forall x ensures multiset(r.Trades())[x] == multiset(r.loaded)[x] + if Arrives(r.events, x) then 1 else 0 {
      TradeCount(r, x);
    }
    forall x | x in r.loaded ensures multiset(r.loaded)[x] == 1 {
      assert x in multiset(r.loaded);
    }
  }

  /** The last second of the series is less than 36 hours old. */
  ghost predicate Recent(r: Run, v: Venue, now: real)
    requires r.Valid()
  {
    r.Covers(v, r.start) && now < r.Final().cache[Last(v)].data.time as real + TIME_TO_LIVE_TRADE as real
  }

  /** As long as no method has gone 36 hours without a new second, no tick throws. */
  lemma NeverThrows(r: Run, x: Trade, now: real)
    requires r.Valid() && forall v <- r.venues :: Recent(r, v, now)
    ensures AllServed(r.venues, r.Final().cache, x, now)
  {
    hide Preloaded, Loadable, Survivors, Step, TimelyRun, Summary, QuietBeyond;
    ShowsHandled(r);
    var c := r.Final().cache;
    forall v | v in r.venues ensures Served(c, Last(v), now) {
      var last := c[Last(v)].data.time;
      assert Recent(r, v, now);
      assert At(v, last) in c && last as real <= c[At(v, last)].writtenAt <= c[Last(v)].writtenAt;
    }
  }

  // ---------- What the entries say ----------

  /** The price at a second is that of the latest trade by then, the last to arrive among simultaneous ones. */
  lemma PriceIsLatest(r: Run, v: Venue, t: int)
    requires r.Drained() && r.Covers(v, t)
    ensures At(v, t) in r.Final().cache
    ensures var d, trades := r.Final().cache[At(v, t)].data, Matching(r.Trades(), v);
            && (d.hasNewTrades <==> exists x <- trades :: x.time == t)
            && if forall x <- trades :: x.time > t then
                 && d.price == (if v in r.firstTrades then r.firstTrades[v].price else 0.0)
                 && d.lastTradingMethod == v
               else exists k :: 0 <= k < |trades| && IsLatest(trades, t, k)
                                && d.price == trades[k].price && d.lastTradingMethod == trades[k].venue
  {
    hide IsLatest, Latest, Run.Valid;
    Covered(r, v, t);
    LatestIsLatest(Matching(r.Trades(), v), t);
  }

  /**
   Volume, quote volume and counts at a second are the sums over the method's trades by then: of their amounts, of their
   prices times amounts, and of their numbers.
   */
  lemma VolumesAreSums(r: Run, v: Venue, t: int, counted: Venue)
    requires r.Drained() && r.Covers(v, t)
    ensures At(v, t) in r.Final().cache
    ensures var d, trades := r.Final().cache[At(v, t)].data, Matching(r.Trades(), v);
            && d.volume == Volume(trades, t) && d.quoteVolume == QuoteVolume(trades, t) && d.time == t
            && CountOf(d.tradeCounts, counted) == Count(trades, t, counted)
  {
    hide Volume, QuoteVolume, TradeCounts, Latest, Count, Matching, Run.Trades, Run.Valid;
    Covered(r, v, t);
    AllRealTrades(r, v);
    CountsCount(Matching(r.Trades(), v), t, counted);
  }

  /** The combined series adds up the Stellar and the BSC series. */
  lemma CombinedSeriesIsSum(r: Run, t: int, counted: Venue)
    requires r.Drained() && forall x <- r.Trades() :: x.venue in {STELLAR, BSC, POOL}
    requires forall v <- {STELLAR, BSC, COMBINED} :: r.Covers(v, t)
    ensures forall v <- {STELLAR, BSC, COMBINED} :: At(v, t) in r.Final().cache
    ensures var cache := r.Final().cache;
            var c, s, b := cache[At(COMBINED, t)].data, cache[At(STELLAR, t)].data, cache[At(BSC, t)].data;
            && c.volume == s.volume + b.volume && c.quoteVolume == s.quoteVolume + b.quoteVolume
            && CountOf(c.tradeCounts, counted) == CountOf(s.tradeCounts, counted) + CountOf(b.tradeCounts, counted)
  {
    CombinedIsSum(r.Trades(), t, counted);
    forall v | v in {STELLAR, BSC, COMBINED}
      ensures At(v, t) in r.Final().cache
      ensures var d := r.Final().cache[At(v, t)].data;
              && d.volume == Volume(Matching(r.Trades(), v), t)
              && d.quoteVolume == QuoteVolume(Matching(r.Trades(), v), t)
              && CountOf(d.tradeCounts, counted) == Count(Matching(r.Trades(), v), t, counted)
    {
      VolumesAreSums(r, v, t, counted);
    }
    hide *;
  }

  // ---------- The 24-hour ticker ----------

  function GetVolume(last: Option<TickerData>, prev: Option<TickerData>): real {
    (if last.Some? then last.value.volume else 0.0) - (if prev.Some? then prev.value.volume else 0.0)
  }

  function TradesSince(last: Option<TickerData>, prev: Option<TickerData>, venue: Venue): int {
    (if last.Some? then CountOf(last.value.tradeCounts, venue) else 0)
    - (if prev.Some? then CountOf(prev.value.tradeCounts, venue) else 0)
  }

  /** `getTradedMethod` of the combined order book. */
  function TradedMethod(last: Option<TickerData>, prev: Option<TickerData>): Venue {
    Venue(TradesSince(last, prev, STELLAR) > 0, TradesSince(last, prev, BSC) > 0, false)
  }

  /** The second 24 hours ago is always still served, and so is LAST. */
  lemma DayAgoIsServed(r: Run, v: Venue, now: real)
    requires r.Valid() && r.Covers(v, now.Floor - TIME_TO_UPDATE_CACHE)
    ensures Served(r.Final().cache, At(v, now.Floor - TIME_TO_UPDATE_CACHE), now)
      && Served(r.Final().cache, Last(v), now)
  {
    hide Preloaded, Loadable, Survivors, Step, TimelyRun, Summary, QuietBeyond;
    ShowsHandled(r);
    var c, ago := r.Final().cache, now.Floor - TIME_TO_UPDATE_CACHE;
    assert At(v, ago) in c && ago as real <= c[At(v, ago)].writtenAt <= c[Last(v)].writtenAt;
  }

  /** The ticker's volume is that of the trades of the last 24 hours; its method bits tell which order books traded. */
  lemma DayTicker(r: Run, v: Venue, now: real)
    requires r.Drained() && r.Covers(v, now.Floor - TIME_TO_UPDATE_CACHE)
    ensures var ago, c, trades := now.Floor - TIME_TO_UPDATE_CACHE, r.Final().cache, Matching(r.Trades(), v);
            var last, prev := Lookup(c, Last(v), now), Lookup(c, At(v, ago), now);
            && GetVolume(last, prev) == VolumeAfter(trades, ago)
            && (TradedMethod(last, prev).stellar <==> exists x <- trades :: ago < x.time && x.venue == STELLAR)
            && (TradedMethod(last, prev).bsc <==> exists x <- trades :: ago < x.time && x.venue == BSC)
  {
    var c, trades := r.Final().cache, Matching(r.Trades(), v);
    var ago, last := now.Floor - TIME_TO_UPDATE_CACHE, c[Last(v)].data.time;
    DayAgoIsServed(r, v, now);
    Covered(r, v, ago);
    LastCovered(r, v);
    hide Run.Valid, Matching;
    VolumeSplits(trades, ago, last);
    CountSplits(trades, ago, last, STELLAR);
    CountSplits(trades, ago, last, BSC);
    AllRealTrades(r, v);
    CountsCount(trades, ago, STELLAR);
    CountsCount(trades, ago, BSC);
    CountsCount(trades, last, STELLAR);
    CountsCount(trades, last, BSC);
  }

  lemma LastCovered(r: Run, v: Venue)
    requires r.Drained() && v in r.venues
    ensures var c, trades := r.Final().cache, Matching(r.Trades(), v);
            && Last(v) in c && AllUpTo(trades, c[Last(v)].data.time)
            && c[Last(v)].data == Summary(trades, FirstOf(r.firstTrades, v), c[Last(v)].data.time)
  {
    hide Preloaded, Loadable, Survivors, Step, TimelyRun, Summary, WrittenInOrder, Punctual, QuietBeyond;
    ShowsArrivals(r);
  }
}
