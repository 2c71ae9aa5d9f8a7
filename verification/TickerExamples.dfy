/** A run of the ticker on a cache that another process has left. */
module TickerExamples {
  import opened Tickers
  import opened TickerSeries
  import opened TickerEngines
  import opened TickerRuns
  import opened TickerArrivals

  // The second 12 is still served; then the series starts at 10, a trade of 11 comes, and a late one of 10.
  const OLD_DATA := TickerData(100.0, 200.0, 2.0, 12, true, STELLAR, map[STELLAR := 7])
  const FOUND: CacheMap := map[At(STELLAR, 12) := Entry(OLD_DATA, 12.0)]
  const AHEAD := Trade(1, 2.0, 3.0, STELLAR, 11)
  const LATE_TRADE := Trade(2, 2.0, 5.0, STELLAR, 10)
  const NOW: real := 13.0

  function BlankLast(): TickerData { Blank(0.0, STELLAR, 9) }

  function AfterPreload(): CacheMap { FOUND[Last(STELLAR) := Entry(BlankLast(), NOW)] }

  function AfterAhead(): CacheMap {
    var data := Entry(NextData(BlankLast(), AHEAD), NOW);
    AfterPreload()[At(STELLAR, 10) := Entry(BlankLast().(time := 10), NOW)][At(STELLAR, 11) := data]
    [Last(STELLAR) := data]
  }

  function LateEntry(t: int, overtaken: bool): Entry
    requires At(STELLAR, t) in AfterAhead()
  {
    Entry(WorkedIn(AfterAhead()[At(STELLAR, t)].data, LATE_TRADE, t, overtaken), NOW)
  }

  function AfterLate(): CacheMap {
    var last := LateEntry(12, true);
    AfterAhead()[At(STELLAR, 10) := LateEntry(10, false)][At(STELLAR, 11) := LateEntry(11, true)]
    [At(STELLAR, 12) := last][Last(STELLAR) := last]
  }

  lemma PreloadGives()
    ensures Preloaded([STELLAR], FOUND, AfterPreload(), map[], 10, [], NOW) && Survivors(FOUND, 12, NOW)
  {
    assert Loading([STELLAR], [AfterPreload()], [], NOW);
    assert Blanked([STELLAR], FOUND, [AfterPreload()][0], map[], 10, NOW);
  }

  lemma AheadGives()
    ensures AllServed([STELLAR], AfterPreload(), AHEAD, NOW)
    ensures AllUpdated([STELLAR], AfterPreload(), AfterAhead(), AHEAD, NOW)
  {
    assert AppendedTo(AfterPreload(), AfterAhead(), STELLAR, AHEAD, NOW);
  }

  lemma LateGives()
    ensures AllServed([STELLAR], AfterAhead(), LATE_TRADE, NOW)
    ensures AllUpdated([STELLAR], AfterAhead(), AfterLate(), LATE_TRADE, NOW)
  {
    var c := AfterAhead();
    assert !Overtaken(c, STELLAR, 10, 10);
    assert Overtaken(c, STELLAR, 10, 11) && Overtaken(c, STELLAR, 10, 12) by { assert At(STELLAR, 11) in c; }
    hide Overtaken, WorkedIn, NextData, Blank;
    assert WalkEnds(c, STELLAR, 10, 13, NOW);
    assert WalkedTo(c, AfterLate(), STELLAR, LATE_TRADE, 13, NOW);
  }

  function Events(): seq<Event> { [Arrive(AHEAD), Arrive(LATE_TRADE), Tick(NOW), Tick(NOW)] }

  function States(): seq<State> {
    [State(AfterPreload(), {}, []), State(AfterPreload(), {1}, [AHEAD]),
     State(AfterPreload(), {1, 2}, [AHEAD, LATE_TRADE]), State(AfterAhead(), {1, 2}, [LATE_TRADE]),
     State(AfterLate(), {1, 2}, [])]
  }

  lemma EventsTrace()
    ensures Trace([STELLAR], States(), Events())
  {
    AheadGives();
    LateGives();
    hide AllServed, AllUpdated, AfterPreload, AfterAhead, AfterLate;
  }

  lemma ArrivalsLast(venues: seq<Venue>, events: seq<Event>, e: Event)
    ensures ReceivedAfter({}, events + [e]) == ReceivedAfter({}, events) + if e.Arrive? then {e.trade.id} else {}
    ensures e.Arrive? && e.trade.id !in ReceivedAfter({}, events) ==>
      Arrivals(venues, {}, events + [e]) == Arrivals(venues, {}, events) + [e.trade]
    ensures e.Tick? ==> Arrivals(venues, {}, events + [e]) == Arrivals(venues, {}, events)
  {
    assert (events + [e])[..|events|] == events;
  }

  lemma EventsArrive()
    ensures Matching(Real(Arrivals([STELLAR], {}, Events())), STELLAR) == [AHEAD, LATE_TRADE]
  {
    assert Arrivals([STELLAR], {}, []) == [] && ReceivedAfter({}, []) == {};
    assert Real([]) == [] && Matching([], STELLAR) == [];
    hide Arrivals, ReceivedAfter, Real, Matching;
    var a := [Arrive(AHEAD)];
    var b := a + [Arrive(LATE_TRADE)];
    var c := b + [Tick(NOW)];
    assert [] + [Arrive(AHEAD)] == a && c + [Tick(NOW)] == Events();
    ArrivalsLast([STELLAR], [], Arrive(AHEAD));
    ArrivalsLast([STELLAR], a, Arrive(LATE_TRADE));
    ArrivalsLast([STELLAR], b, Tick(NOW));
    ArrivalsLast([STELLAR], c, Tick(NOW));
    assert [] + [AHEAD] == [AHEAD] && [AHEAD] + [LATE_TRADE] == [AHEAD, LATE_TRADE];
    RealGrown([], [], AHEAD);
    RealGrown([], [AHEAD], LATE_TRADE);
    MatchingGrown([], AHEAD, STELLAR);
    MatchingGrown([AHEAD], LATE_TRADE, STELLAR);
  }

  lemma {:induction false} OneClock(events: seq<Event>, clock: real)
    requires forall e <- events :: e.Tick? ==> e.now == clock
    ensures ClockAfter(clock, events) == clock
    decreases |events|
  {
    if events != [] {
      assert events[|events| - 1] in events;
      OneClock(events[..|events| - 1], clock);
    }
  }

  lemma EventsTimely()
    ensures TimelyRun(States(), Events(), 10, NOW)
  {
    hide AfterPreload, AfterAhead, AfterLate, ClockAfter;
    forall i | 0 <= i < 4 ensures ClockAfter(NOW, Events()[..i]) == NOW { OneClock(Events()[..i], NOW); }
  }

  /** The late trade runs on into the second 12 and takes LAST there, with the volume another process had counted. */
  lemma OldEntriesTakeLast() returns (r: Run)
    ensures r.Started() && Loadable(r.loaded, r.start, r.now) && Survivors(r.found, r.bound, r.now)
    ensures TimelyRun(r.states, r.events, r.start, r.now) && r.Final().queue == []
    ensures Matching(r.Trades(), STELLAR) == [AHEAD, LATE_TRADE]
    ensures Last(STELLAR) in r.Final().cache
    ensures var last := r.Final().cache[Last(STELLAR)].data; last.time == 12 && last.volume == 105.0
  {
    hide AllServed, AllUpdated, Preloaded, Survivors, Trace, TimelyRun, Arrivals, Matching;
    PreloadGives();
    EventsTrace();
    EventsArrive();
    EventsTimely();
    r := Run([STELLAR], FOUND, map[], 10, [], NOW, 12, States(), Events());
    assert [] + Real(Arrivals([STELLAR], {}, Events())) == Real(Arrivals([STELLAR], {}, Events()));
  }
}
