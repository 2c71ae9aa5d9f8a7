/** Runs of the ticker: what the series show is what arrived, whatever the interleaving. */
module TickerRuns {
  import opened Tickers
  import opened TickerSeries
  import opened TickerEngines

  function FirstOf(firstTrades: map<Venue, Trade>, v: Venue): First { First(FirstPrice(firstTrades, v), v) }

  /** Nothing is served behind both LAST and `bound`. */
  ghost predicate QuietBeyond(c: CacheMap, v: Venue, bound: int, clock: real)
    requires Last(v) in c
  {
    forall t | t > c[Last(v)].data.time && t > bound :: !Served(c, At(v, t), clock)
  }

  /** One method's series shows exactly the given trades; beyond it only seconds up to `bound` may still be served. */
  ghost predicate ShowsFor(c: CacheMap, v: Venue, start: int, first: First, trades: seq<Trade>, bound: int,
                           clock: real)
  {
    && Series(c, v, start, first, trades)
    && Punctual(c, v, start)
    && QuietBeyond(c, v, bound, clock)
    && c[Last(v)].writtenAt <= clock
  }

  /** Every method's series shows the trades of its method. */
  ghost predicate Shows(venues: seq<Venue>, c: CacheMap, start: int, firstTrades: map<Venue, Trade>, trades: seq<Trade>,
                        bound: int, clock: real)
  {
    forall v <- venues :: ShowsFor(c, v, start, FirstOf(firstTrades, v), Matching(trades, v), bound, clock)
  }

  // ---------- One trade ----------

  /** Handled not before its second; a real trade lies in the series and is handled less than 36 hours after. */
  predicate Timely(x: Trade, start: int, now: real) {
    && x.WellFormed()
    && x.time as real <= now
    && (x.id >= 0 ==> start <= x.time && now < x.time as real + TIME_TO_LIVE_TRADE as real)
  }

  /** No late trade before LAST has passed the seconds another process may have left. */
  ghost predicate Calm(c: CacheMap, v: Venue, x: Trade, start: int, bound: int)
    requires Last(v) in c
  {
    start <= bound && x.id >= 0 && x.venue.Meets(v) && x.time < c[Last(v)].data.time ==> bound <= c[Last(v)].data.time
  }

  lemma ShowsForFacts(c: CacheMap, v: Venue, start: int, first: First, trades: seq<Trade>, bound: int, clock: real)
    requires ShowsFor(c, v, start, first, trades, bound, clock)
    ensures Last(v) in c && start - 1 <= c[Last(v)].data.time && c[Last(v)].writtenAt <= clock
  {
  }

  lemma MatchingGrown(trades: seq<Trade>, x: Trade, v: Venue)
    ensures Matching(trades + [x], v) == if x.venue.Meets(v) then Matching(trades, v) + [x] else Matching(trades, v)
  {
    assert (trades + [x])[..|trades|] == trades;
  }

  lemma UndisturbedWhenCalm(c: CacheMap, v: Venue, start: int, first: First, trades: seq<Trade>, x: Trade, bound: int,
                            clock: real, now: real)
    requires ShowsFor(c, v, start, first, trades, bound, clock) && clock <= now
    requires x.venue.Meets(v) && Timely(x, start, now) && Calm(c, v, x, start, bound)
    ensures Undisturbed(c, v, start, x, now) && (x.id >= 0 ==> Takes(c, v, x, now))
  {
    hide Summary, WrittenInOrder;
    ShowsForFacts(c, v, start, first, trades, bound, clock);
    if x.id >= 0 { InTimeIsTaken(c, v, start, first, trades, x, now); }
    var last := c[Last(v)].data.time;
    assert !Served(c, At(v, last + 1), clock) || bound > last;
  }

  lemma QuietKept(c: CacheMap, c': CacheMap, v: Venue, bound: int, clock: real, now: real)
    requires Last(v) in c && Last(v) in c' && QuietBeyond(c, v, bound, clock) && clock <= now
    requires c[Last(v)].data.time <= c'[Last(v)].data.time
    requires forall t | t > c'[Last(v)].data.time :: SameAt(c, c', At(v, t))
    ensures QuietBeyond(c', v, bound, now)
  {
    forall t | t > c'[Last(v)].data.time && t > bound ensures !Served(c', At(v, t), now) {
      assert SameAt(c, c', At(v, t)) && !Served(c, At(v, t), clock);
    }
  }

  /** Whatever trade is handled in time, the series goes on to show what came. */
  lemma MethodShows(c: CacheMap, c': CacheMap, v: Venue, start: int, first: First, trades: seq<Trade>, x: Trade,
                    bound: int, clock: real, now: real)
    requires ShowsFor(c, v, start, first, Matching(trades, v), bound, clock) && clock <= now
    requires UpdatedIf(c, c', v, x, now) && Timely(x, start, now) && Calm(c, v, x, start, bound)
    ensures ShowsFor(c', v, start, first, Matching(Grown(trades, x), v), bound, now)
    ensures Last(v) in c && c[Last(v)].data.time <= c'[Last(v)].data.time
    ensures x.venue.Meets(v) ==> x.time <= c'[Last(v)].data.time
  {
    hide Series, Punctual, QuietBeyond, UpdatedIf, Summary, Trade.WellFormed;
    ShowsForFacts(c, v, start, first, Matching(trades, v), bound, clock);
    if x.venue.Meets(v) {
      UndisturbedWhenCalm(c, v, start, first, Matching(trades, v), x, bound, clock, now);
    }
    hide Undisturbed, Takes, Calm;
    UpdateKeeps(c, c', v, start, first, Matching(trades, v), x, now);
    LastWritten(c, c', v, x, now);
    MatchingGrown(trades, x, v);
    QuietKept(c, c', v, bound, clock, now);
  }

  // ---------- Start-up ----------

  /** As the trades table yields them: in order of time, from `start` on, none in the future. */
  predicate Loadable(trades: seq<Trade>, start: int, now: real) {
    && (forall i, j :: 0 <= i < j < |trades| ==> trades[i].time <= trades[j].time)
    && forall x <- trades :: x.id >= 0 && start <= x.time && x.time as real <= now
  }

  /** What the cache still serves of a process before lies at or before `bound`. */
  ghost predicate Survivors(c: CacheMap, bound: int, now: real) {
    forall v, t | t > bound :: !Served(c, At(v, t), now)
  }

  lemma BlankShows(c: CacheMap, c': CacheMap, venues: seq<Venue>, v: Venue, firstTrades: map<Venue, Trade>, start: int,
                   bound: int, now: real)
    requires Blanked(venues, c, c', firstTrades, start, now) && v in venues && Survivors(c, bound, now)
    ensures ShowsFor(c', v, start, FirstOf(firstTrades, v), [], bound, now)
    ensures c'[Last(v)].data.time == start - 1
  {
    forall t | t > bound ensures !Served(c', At(v, t), now) {
      assert SameAt(c, c', At(v, t)) && !Served(c, At(v, t), now);
    }
  }

  /** The series after some of the loaded trades; LAST is not behind the next one. */
  ghost predicate LoadedSoFar(c: CacheMap, v: Venue, start: int, first: First, trades: seq<Trade>, n: nat, bound: int,
                              now: real)
    requires n <= |trades|
  {
    && ShowsFor(c, v, start, first, Matching(trades[..n], v), bound, now)
    && forall i :: n <= i < |trades| ==> c[Last(v)].data.time <= trades[i].time
  }

  lemma LoadStep(c: CacheMap, c': CacheMap, v: Venue, start: int, first: First, trades: seq<Trade>, n: nat, bound: int,
                 now: real)
    requires Loadable(trades, start, now) && n < |trades| && UpdatedIf(c, c', v, trades[n], now)
    requires LoadedSoFar(c, v, start, first, trades, n, bound, now)
    ensures LoadedSoFar(c', v, start, first, trades, n + 1, bound, now)
  {
    hide Series, Punctual, QuietBeyond, UpdatedIf, Summary;
    var x := trades[n];
    assert x in trades && trades[..n + 1] == trades[..n] + [x];
    ShowsForFacts(c, v, start, first, Matching(trades[..n], v), bound, now);
    UpdateKeeps(c, c', v, start, first, Matching(trades[..n], v), x, now);
    LastWritten(c, c', v, x, now);
    MatchingGrown(trades[..n], x, v);
    QuietKept(c, c', v, bound, now, now);
  }

  /** After `preloadData`, on whatever the cache held, every series shows exactly the loaded trades. */
  lemma PreloadShows(venues: seq<Venue>, c: CacheMap, c': CacheMap, firstTrades: map<Venue, Trade>, start: int,
                     trades: seq<Trade>, bound: int, now: real)
    requires Preloaded(venues, c, c', firstTrades, start, trades, now)
    requires Loadable(trades, start, now) && Survivors(c, bound, now)
    ensures Shows(venues, c', start, firstTrades, trades, bound, now)
  {
    var caches :| Loading(venues, caches, trades, now) && caches[|trades|] == c'
      && Blanked(venues, c, caches[0], firstTrades, start, now);
    forall v | v in venues
      ensures ShowsFor(c', v, start, FirstOf(firstTrades, v), Matching(trades, v), bound, now)
    {
      BlankShows(c, caches[0], venues, v, firstTrades, start, bound, now);
      assert trades[..0] == [] && forall i :: 0 <= i < |trades| ==> trades[i] in trades;
      hide Blanked, ShowsFor;
      for n := 0 to |trades|
        invariant LoadedSoFar(caches[n], v, start, FirstOf(firstTrades, v), trades, n, bound, now)
      {
        assert AllUpdated(venues, caches[n], caches[n + 1], trades[n], now);
        LoadStep(caches[n], caches[n + 1], v, start, FirstOf(firstTrades, v), trades, n, bound, now);
      }
      assert trades[..|trades|] == trades;
    }
  }

  // ---------- Runs ----------

  /** The clock of the last tick. */
  function ClockAfter(clock: real, events: seq<Event>): real {
    if events == [] then clock
    else
      var n := |events| - 1;
      if events[n].Tick? then events[n].now else ClockAfter(clock, events[..n])
  }

  /** The trades handled. */
  function Handled(states: seq<State>, events: seq<Event>): seq<Trade>
    requires |states| == |events| + 1
  {
    if events == [] then []
    else
      var n := |events| - 1;
      Handled(states[..n + 1], events[..n])
      + if events[n].Tick? && states[n].queue != [] then [states[n].queue[0]] else []
  }

  /** Those that are not the engine's own. */
  function Real(trades: seq<Trade>): seq<Trade> {
    if trades == [] then []
    else
      var n := |trades| - 1;
      Real(trades[..n]) + if trades[n].id >= 0 then [trades[n]] else []
  }

  /** Clocks do not go back, and every trade is handled in time. */
  ghost predicate TimelyRun(states: seq<State>, events: seq<Event>, start: int, clock: real)
    requires |states| == |events| + 1
  {
    forall i :: 0 <= i < |events| && events[i].Tick? && states[i].queue != [] ==>
      ClockAfter(clock, events[..i]) <= events[i].now && Timely(states[i].queue[0], start, events[i].now)
  }

  ghost predicate CalmAt(venues: seq<Venue>, s: State, start: int, bound: int) {
    s.queue != [] ==> forall v <- venues :: Last(v) in s.cache && Calm(s.cache, v, s.queue[0], start, bound)
  }

  /** No late trade meets what another process has left. */
  ghost predicate AllCalm(venues: seq<Venue>, states: seq<State>, events: seq<Event>, start: int, bound: int)
    requires |states| == |events| + 1
  {
    forall i :: 0 <= i < |events| && events[i].Tick? ==> CalmAt(venues, states[i], start, bound)
  }

  ghost predicate ReachedBy(c: CacheMap, v: Venue, time: int) { Last(v) in c && time <= c[Last(v)].data.time }

  ghost predicate LastGrows(c: CacheMap, c': CacheMap, v: Venue) {
    Last(v) in c && ReachedBy(c', v, c[Last(v)].data.time)
  }

  /** One event. */
  lemma StepShows(venues: seq<Venue>, s: State, e: Event, s': State, start: int, firstTrades: map<Venue, Trade>,
                  trades: seq<Trade>, bound: int, clock: real)
    requires Shows(venues, s.cache, start, firstTrades, trades, bound, clock) && Step(venues, s, e, s')
    requires e.Tick? && s.queue != [] ==>
               clock <= e.now && Timely(s.queue[0], start, e.now) && CalmAt(venues, s, start, bound)
    ensures !e.Tick? ==> s'.cache == s.cache
    ensures e.Tick? ==> s.queue != []
    ensures e.Tick? ==> Shows(venues, s'.cache, start, firstTrades, Grown(trades, s.queue[0]), bound, e.now)
    ensures forall v <- venues :: LastGrows(s.cache, s'.cache, v)
    ensures e.Tick? ==> forall v <- venues :: s.queue[0].venue.Meets(v) ==> ReachedBy(s'.cache, v, s.queue[0].time)
  {
    hide ShowsFor, Timely, Calm, UpdatedIf, AllServed;
    if e.Tick? {
      forall v | v in venues
        ensures ShowsFor(s'.cache, v, start, FirstOf(firstTrades, v), Matching(Grown(trades, s.queue[0]), v), bound,
          e.now)
        ensures LastGrows(s.cache, s'.cache, v)
        ensures s.queue[0].venue.Meets(v) ==> ReachedBy(s'.cache, v, s.queue[0].time)
      {
        MethodShows(s.cache, s'.cache, v, start, FirstOf(firstTrades, v), trades, s.queue[0], bound, clock, e.now);
        ShowsForFacts(s'.cache, v, start, FirstOf(firstTrades, v), Matching(Grown(trades, s.queue[0]), v), bound,
          e.now);
      }
    } else {
      forall v | v in venues ensures LastGrows(s.cache, s'.cache, v) {
        ShowsForFacts(s.cache, v, start, FirstOf(firstTrades, v), Matching(trades, v), bound, clock);
      }
    }
  }

  lemma RunPrefix(venues: seq<Venue>, states: seq<State>, events: seq<Event>, start: int, clock: real)
    requires events != [] && Trace(venues, states, events) && TimelyRun(states, events, start, clock)
    ensures var n := |events| - 1;
            Trace(venues, states[..n + 1], events[..n]) && TimelyRun(states[..n + 1], events[..n], start, clock)
  {
    var n := |events| - 1;
    hide Step, Timely;
    assert forall i :: 0 <= i <= n ==> events[..n][..i] == events[..i];
  }

  lemma RealGrown(a: seq<Trade>, b: seq<Trade>, x: Trade)
    ensures a + Real(b + [x]) == Grown(a + Real(b), x)
  {
    assert (b + [x])[..|b|] == b;
    assert x.id >= 0 ==> a + (Real(b) + [x]) == a + Real(b) + [x];
  }

  /**
   A run from a state that shows `trades` ends in one that shows also what it handled. A cache with nothing served from
   `start` on has a `bound` before it, and then no order of the trades matters.
   */
  lemma {:induction false} RunShows(venues: seq<Venue>, states: seq<State>, events: seq<Event>, start: int,
                                    firstTrades: map<Venue, Trade>, trades: seq<Trade>, bound: int, clock: real)
    requires Trace(venues, states, events) && TimelyRun(states, events, start, clock)
    requires Shows(venues, states[0].cache, start, firstTrades, trades, bound, clock)
    requires start <= bound ==> AllCalm(venues, states, events, start, bound)
    ensures Shows(venues, states[|events|].cache, start, firstTrades, trades + Real(Handled(states, events)), bound,
                  ClockAfter(clock, events))
    decreases |events|
  {
    hide Shows, Step, Timely, CalmAt;
    if events == [] {
      assert trades + [] == trades;
    } else {
      var n := |events| - 1;
      var before := Handled(states[..n + 1], events[..n]);
      RunPrefix(venues, states, events, start, clock);
      RunShows(venues, states[..n + 1], events[..n], start, firstTrades, trades, bound, clock);
      assert Step(venues, states[n], events[n], states[n + 1]);
      if bound < start {
        AlwaysCalm(venues, states[n], start, firstTrades, trades + Real(before), bound, ClockAfter(clock, events[..n]));
      }
      StepShows(venues, states[n], events[n], states[n + 1], start, firstTrades, trades + Real(before), bound,
                ClockAfter(clock, events[..n]));
      if events[n].Tick? {
        RealGrown(trades, before, states[n].queue[0]);
      } else {
        assert before + [] == before;
      }
    }
  }

  lemma AlwaysCalm(venues: seq<Venue>, s: State, start: int, firstTrades: map<Venue, Trade>, trades: seq<Trade>,
                   bound: int, clock: real)
    requires Shows(venues, s.cache, start, firstTrades, trades, bound, clock)
    requires bound < start || s.queue == [] || s.queue[0].id < 0 || forall v <- venues :: ReachedBy(s.cache, v, bound)
    ensures CalmAt(venues, s, start, bound)
  {
    hide ShowsFor;
    forall v | v in venues ensures Last(v) in s.cache {
      ShowsForFacts(s.cache, v, start, FirstOf(firstTrades, v), Matching(trades, v), bound, clock);
    }
  }

  // ---------- What arrives is what is handled ----------

  function ReceivedAfter(received: set<int>, events: seq<Event>): set<int> {
    if events == [] then received
    else
      var n := |events| - 1;
      ReceivedAfter(received, events[..n]) + if events[n].Arrive? then {events[n].trade.id} else {}
  }

  /** What a run puts into the queue: the empty trades, and what arrives unless its id is seen and not 0. */
  function Arrivals(venues: seq<Venue>, received: set<int>, events: seq<Event>): seq<Trade> {
    if events == [] then []
    else
      var n := |events| - 1;
      var before := Arrivals(venues, received, events[..n]);
      match events[n]
      case Arrive(x) => if x.id != 0 && x.id in ReceivedAfter(received, events[..n]) then before else before + [x]
      case Round(time) => before + Empties(venues, time)
      case Tick(_) => before
  }

  lemma FifoStep(venues: seq<Venue>, s: State, e: Event, s': State, queue: seq<Trade>, arrived: seq<Trade>,
                 handled: seq<Trade>)
    requires Step(venues, s, e, s') && handled + s.queue == queue + arrived
    ensures s'.received == s.received + if e.Arrive? then {e.trade.id} else {}
    ensures match e
            case Arrive(x) =>
              handled + s'.queue == queue + if x.id != 0 && x.id in s.received then arrived else arrived + [x]
            case Round(time) => handled + s'.queue == queue + (arrived + Empties(venues, time))
            case Tick(_) => s.queue != [] && handled + [s.queue[0]] + s'.queue == queue + arrived
  {
    hide AllServed, AllUpdated;
    match e
    case Arrive(x) =>
      assert handled + (s.queue + [x]) == handled + s.queue + [x];
      assert queue + (arrived + [x]) == queue + arrived + [x];
    case Round(time) =>
      assert handled + (s.queue + Empties(venues, time)) == handled + s.queue + Empties(venues, time);
      assert queue + (arrived + Empties(venues, time)) == queue + arrived + Empties(venues, time);
    case Tick(_) =>
      assert s.queue == [s.queue[0]] + s'.queue;
      assert handled + [s.queue[0]] + s'.queue == handled + ([s.queue[0]] + s'.queue);
  }

  /** First in, first out, nothing lost. */
  lemma {:induction false} Fifo(venues: seq<Venue>, states: seq<State>, events: seq<Event>)
    requires Trace(venues, states, events)
    ensures Handled(states, events) + states[|events|].queue
            == states[0].queue + Arrivals(venues, states[0].received, events)
    ensures states[|events|].received == ReceivedAfter(states[0].received, events)
    decreases |events|
  {
    hide Step;
    if events == [] {
      assert [] + states[0].queue == states[0].queue + [];
    } else {
      var n := |events| - 1;
      Fifo(venues, states[..n + 1], events[..n]);
      var before := Handled(states[..n + 1], events[..n]);
      FifoStep(venues, states[n], events[n], states[n + 1], states[0].queue,
               Arrivals(venues, states[0].received, events[..n]), before);
      assert before + [] == before;
    }
  }

  /** What came is still within the early trades, or the round follows right behind them. */
  ghost predicate EarlyFirst(came: seq<Trade>, early: seq<Trade>, round: seq<Trade>) {
    came <= early || early + round <= came
  }

  lemma {:induction false} ArrivalsGrow(venues: seq<Venue>, received: set<int>, events: seq<Event>, k: nat)
    requires k <= |events|
    ensures Arrivals(venues, received, events[..k]) <= Arrivals(venues, received, events)
    decreases |events|
  {
    var n := |events| - 1;
    if k <= n {
      ArrivalsGrow(venues, received, events[..n], k);
      assert events[..n][..k] == events[..k];
    } else {
      assert events[..k] == events;
    }
  }

  /** A round of empty trades stands right behind what came before it. */
  lemma RoundComesAt(venues: seq<Venue>, received: set<int>, queue: seq<Trade>, events: seq<Event>, k: nat, i: nat)
    requires k < |events| && events[k].Round? && i <= |events|
    ensures EarlyFirst(queue + Arrivals(venues, received, events[..i]), queue + Arrivals(venues, received, events[..k]),
                       Empties(venues, events[k].time))
  {
    var early, round := Arrivals(venues, received, events[..k]), Empties(venues, events[k].time);
    if i <= k {
      ArrivalsGrow(venues, received, events[..k], i);
      assert events[..k][..i] == events[..i];
    } else {
      ArrivalsGrow(venues, received, events[..i], k + 1);
      assert events[..i][..k + 1] == events[..k + 1] && events[..k + 1][..k] == events[..k];
      assert queue + early + round == queue + (early + round);
    }
  }

  lemma HeadInRound(handled: seq<Trade>, queue: seq<Trade>, early: seq<Trade>, round: seq<Trade>)
    requires EarlyFirst(handled + queue, early, round) && queue != []
    requires |early| <= |handled| < |early| + |round|
    ensures queue[0] == round[|handled| - |early|]
  {
    assert (handled + queue)[|handled|] == queue[0];
    assert (early + round)[|handled|] == round[|handled| - |early|];
  }

  /** Every method of the first so many empty trades has reached their second. */
  ghost predicate Caught(venues: seq<Venue>, c: CacheMap, handled: int, time: int) {
    forall j :: 0 <= j < |venues| && j < handled ==> ReachedBy(c, venues[j], time)
  }

  /** None of the first so many trades handled is such a late one. */
  ghost predicate EarlyCalm(venues: seq<Venue>, states: seq<State>, events: seq<Event>, start: int, bound: int,
                            early: nat)
    requires |states| == |events| + 1
  {
    forall i :: 0 <= i < |events| && events[i].Tick? && |Handled(states[..i + 1], events[..i])| < early ==>
      CalmAt(venues, states[i], start, bound)
  }

  /** At every moment the round of empty trades comes right behind the early trades. */
  ghost predicate RoundNext(venues: seq<Venue>, s: State, events: seq<Event>, early: seq<Trade>, time: int) {
    forall i :: 0 <= i <= |events| ==>
      EarlyFirst(s.queue + Arrivals(venues, s.received, events[..i]), early, Empties(venues, time))
  }

  lemma CalmPrefix(venues: seq<Venue>, states: seq<State>, events: seq<Event>, start: int, bound: int, early: nat)
    requires |states| == |events| + 1 && events != [] && EarlyCalm(venues, states, events, start, bound, early)
    ensures var n := |events| - 1; EarlyCalm(venues, states[..n + 1], events[..n], start, bound, early)
  {
    var n := |events| - 1;
    hide CalmAt, Handled;
    forall i | 0 <= i < n ensures states[..n + 1][..i + 1] == states[..i + 1] && events[..n][..i] == events[..i] {}
  }

  lemma RoundPrefix(venues: seq<Venue>, s: State, events: seq<Event>, early: seq<Trade>, time: int)
    requires events != [] && RoundNext(venues, s, events, early, time)
    ensures var n := |events| - 1;
            && RoundNext(venues, s, events[..n], early, time)
            && EarlyFirst(s.queue + Arrivals(venues, s.received, events[..n]), early, Empties(venues, time))
  {
    hide EarlyFirst, Arrivals;
    var n := |events| - 1;
    assert forall i :: 0 <= i <= n ==> events[..n][..i] == events[..i];
  }

  lemma CalmLast(venues: seq<Venue>, states: seq<State>, events: seq<Event>, start: int, bound: int)
    requires |states| == |events| + 1 && events != []
    requires var n := |events| - 1;
             AllCalm(venues, states[..n + 1], events[..n], start, bound)
             && (events[n].Tick? ==> CalmAt(venues, states[n], start, bound))
    ensures AllCalm(venues, states, events, start, bound)
  {
    hide CalmAt;
    var n := |events| - 1;
    assert forall i :: 0 <= i < n ==> states[..n + 1][i] == states[i] && events[..n][i] == events[i];
  }

  /** One more event, given the calm of the early trades. */
  lemma RestartStep(venues: seq<Venue>, s: State, e: Event, s': State, start: int, firstTrades: map<Venue, Trade>,
                    trades: seq<Trade>, bound: int, clock: real, early: seq<Trade>, time: int, handled: seq<Trade>)
    requires Shows(venues, s.cache, start, firstTrades, trades, bound, clock) && Step(venues, s, e, s')
    requires e.Tick? && s.queue != [] ==> clock <= e.now && Timely(s.queue[0], start, e.now)
    requires bound <= time && forall v <- venues :: v.Meets(v)
    requires Caught(venues, s.cache, |handled| - |early|, time)
    requires EarlyFirst(handled + s.queue, early, Empties(venues, time))
    requires e.Tick? && |handled| < |early| ==> CalmAt(venues, s, start, bound)
    ensures e.Tick? ==> s.queue != [] && CalmAt(venues, s, start, bound)
    ensures Caught(venues, s'.cache, |handled| - |early| + if e.Tick? then 1 else 0, time)
  {
    hide Shows, Timely, CalmAt, Caught, EarlyFirst, AllServed, AllUpdated;
    if |handled| < |early| {
      CaughtNone(venues, s'.cache, |handled| - |early| + if e.Tick? then 1 else 0, time);
    } else {
      if s.queue != [] && |handled| - |early| < |venues| {
        HeadInRound(handled, s.queue, early, Empties(venues, time));
      }
      CaughtStep(venues, s, e, s', start, firstTrades, trades, bound, clock, time, |handled| - |early|);
    }
  }

  /**
   `start` puts in an empty trade per method before its first tick. Only the trades that came before those can run into
   what a process before has left; then every LAST is behind it.
   */
  lemma {:induction false} RestartCalm(venues: seq<Venue>, states: seq<State>, events: seq<Event>, start: int,
                                       firstTrades: map<Venue, Trade>, trades: seq<Trade>, bound: int, clock: real,
                                       early: seq<Trade>, time: int)
    requires Trace(venues, states, events) && TimelyRun(states, events, start, clock)
    requires Shows(venues, states[0].cache, start, firstTrades, trades, bound, clock)
    requires bound <= time && forall v <- venues :: v.Meets(v)
    requires RoundNext(venues, states[0], events, early, time)
    requires EarlyCalm(venues, states, events, start, bound, |early|)
    ensures AllCalm(venues, states, events, start, bound)
    ensures Caught(venues, states[|events|].cache, |Handled(states, events)| - |early|, time)
    decreases |events|
  {
    hide Shows, Step, Timely, CalmAt, Caught, EarlyFirst, Arrivals, EarlyCalm, RoundNext, AllCalm, TimelyRun;
    if events == [] {
      CaughtNone(venues, states[0].cache, -|early|, time);
      NoneCalm(venues, states, start, bound);
    } else {
      var n := |events| - 1;
      var before, clock' := Handled(states[..n + 1], events[..n]), ClockAfter(clock, events[..n]);
      RunPrefix(venues, states, events, start, clock);
      CalmPrefix(venues, states, events, start, bound, |early|);
      RoundPrefix(venues, states[0], events, early, time);
      RestartCalm(venues, states[..n + 1], events[..n], start, firstTrades, trades, bound, clock, early, time);
      RunShows(venues, states[..n + 1], events[..n], start, firstTrades, trades, bound, clock);
      Fifo(venues, states[..n + 1], events[..n]);
      LastEvent(venues, states, events, start, bound, clock, |early|);
      RestartStep(venues, states[n], events[n], states[n + 1], start, firstTrades, trades + Real(before), bound, clock',
                  early, time, before);
      CalmLast(venues, states, events, start, bound);
      assert |Handled(states, events)| == |before| + if events[n].Tick? then 1 else 0;
    }
  }

  lemma NoneCalm(venues: seq<Venue>, states: seq<State>, start: int, bound: int)
    requires |states| == 1
    ensures AllCalm(venues, states, [], start, bound)
  {
  }

  lemma LastEvent(venues: seq<Venue>, states: seq<State>, events: seq<Event>, start: int, bound: int, clock: real,
                  early: nat)
    requires events != [] && Trace(venues, states, events) && TimelyRun(states, events, start, clock)
    requires EarlyCalm(venues, states, events, start, bound, early)
    ensures var n := |events| - 1;
            && Step(venues, states[n], events[n], states[n + 1])
            && (events[n].Tick? && states[n].queue != [] ==>
                  ClockAfter(clock, events[..n]) <= events[n].now && Timely(states[n].queue[0], start, events[n].now))
            && (events[n].Tick? && |Handled(states[..n + 1], events[..n])| < early ==>
                  CalmAt(venues, states[n], start, bound))
  {
    hide Step, Timely, CalmAt, Handled, ClockAfter;
  }

  lemma CaughtNone(venues: seq<Venue>, c: CacheMap, handled: int, time: int)
    requires handled <= 0
    ensures Caught(venues, c, handled, time)
  {
  }

  lemma CaughtStep(venues: seq<Venue>, s: State, e: Event, s': State, start: int, firstTrades: map<Venue, Trade>,
                   trades: seq<Trade>, bound: int, clock: real, time: int, handled: nat)
    requires Shows(venues, s.cache, start, firstTrades, trades, bound, clock) && Step(venues, s, e, s')
    requires e.Tick? && s.queue != [] ==> clock <= e.now && Timely(s.queue[0], start, e.now)
    requires bound <= time && Caught(venues, s.cache, handled, time) && forall v <- venues :: v.Meets(v)
    requires handled < |venues| && s.queue != [] ==> s.queue[0] == Empties(venues, time)[handled]
    ensures CalmAt(venues, s, start, bound) && (e.Tick? ==> s.queue != [])
    ensures Caught(venues, s'.cache, handled + if e.Tick? then 1 else 0, time)
  {
    hide Shows, Timely, AllServed, AllUpdated, CalmAt;
    if handled >= |venues| {
      forall v | v in venues ensures ReachedBy(s.cache, v, bound) {
        var j :| 0 <= j < |venues| && venues[j] == v;
        assert ReachedBy(s.cache, venues[j], time);
      }
    }
    AlwaysCalm(venues, s, start, firstTrades, trades, bound, clock);
    StepShows(venues, s, e, s', start, firstTrades, trades, bound, clock);
    forall j | 0 <= j < |venues| && j < handled + (if e.Tick? then 1 else 0)
      ensures ReachedBy(s'.cache, venues[j], time)
    {
      assert venues[j] in venues && LastGrows(s.cache, s'.cache, venues[j]);
      if j < handled { assert ReachedBy(s.cache, venues[j], time); }
    }
  }
}
