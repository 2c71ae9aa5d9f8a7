/** The order book the engine's events publish is the book of resting orders. */
module PublishedBook {
  import opened Decimals
  import opened Options
  import opened Orders
  import opened Matching
  import opened Fills
  import opened Queues
  import opened EngineModel
  import opened EngineInvariant
  import opened EngineRuns
  import opened EngineDeltas
  import opened Orderbooks

  ghost predicate AllNonZero(events: seq<Delta>) { forall d <- events :: d.amount != 0.0 }

  /** A dequeued cancel names an order resting at its side and price and carries what it has left. */
  ghost predicate NamesResting(e: Engine, ev: Event)
    requires Enabled(e, ev)
  {
    ev.Dequeue? && e.pending[0].CancelInput? ==>
      var c := e.pending[0];
      HasId(e.Book(c.side), c.cancelId) && CarriesOwnRemaining(e, c.cancelId, c.side, c.price, ev.carried)
  }

  ghost predicate AllNameResting(e: Engine, run: seq<Event>)
    requires Legal(e, run)
    decreases |run|
  {
    run != [] ==> NamesResting(e, run[0]) && AllNameResting(Step(e, run[0]), run[1..])
  }

  lemma {:induction false} SweepNonZero(e: Engine, now: real, ids: seq<int>)
    requires Inv(e, {}) && SweepEnabled(e, now, ids) && AllNonZero(e.deltas)
    ensures AllNonZero(SweepAll(e, now, ids).deltas)
    decreases |ids|
  {
    if ids != [] {
      hide BookInv, PriorityInv, PendingInv, OrderOf;
      ExpireKeeps(e, ids[0]);
      OrderOfFacts(e, ids[0]);
      SweepNonZero(Expire(e, ids[0]), now, ids[1..]);
    }
  }

  lemma SubmitNonZero(e: Engine, o: Order, now: real)
    requires o.WellFormed() && LoopInv(LoopStart(e, o)) && AllNonZero(e.deltas)
    ensures AllNonZero(Submit(e, o, now).deltas)
  {
    if !o.Expired(now) {
      var s := LoopStart(e, o);
      var g := GreedyFill(s);
      FillInPriority(s);
      hide GreedyFill, LoopInv;
      var events := TradeDeltas(o.side.Opposite(), g.trades);
      forall d | d in events ensures d.amount != 0.0 {
        var i :| 0 <= i < |events| && events[i] == d;
        assert TradesDrop(s.taker, s.makers[i], After(g)[i], g.trades[i]);
      }
    }
  }

  /** Every event such a step puts out moves its level. */
  lemma StepNonZero(e: Engine, ev: Event)
    requires Inv(e, {}) && Enabled(e, ev) && NamesResting(e, ev) && AllNonZero(e.deltas)
    ensures AllNonZero(Step(e, ev).deltas)
  {
    match ev
    case Arrive(input) =>
    case Sweep(now, ids) => SweepNonZero(e, now, ids);
    case Dequeue(now, carried) =>
      match e.pending[0] {
        case CreateInput(o) =>
          LoopStartInv(Pop(e), o);
          SubmitNonZero(Pop(e), o, now);
        case CancelInput(id, side, price) =>
          assert e.Book(side)[IndexOf(e.Book(side), id)] in e.Book(side);
          hide Remove, PriorityInv, PendingInv;
      }
  }

  lemma {:induction false} RunNonZero(e: Engine, run: seq<Event>)
    requires Inv(e, {}) && Legal(e, run) && AllNameResting(e, run) && AllNonZero(e.deltas)
    ensures AllNonZero(Run(e, run).deltas) && AllFaithful(e, run)
    decreases |run|
  {
    if run != [] {
      StepNonZero(e, run[0]);
      StepKeeps(e, run[0]);
      hide Inv;
      RunNonZero(Step(e, run[0]), run[1..]);
    }
  }

  /** At every point of the history the level's total is zero or at least EPSILON. */
  ghost predicate NeverNearZero(events: seq<Delta>, side: Side, price: real) {
    forall n :: 0 <= n <= |events| ==> var sum := Level(events[..n], side, price); sum == 0.0 || Abs(sum) >= EPSILON
  }

  lemma MovingEventsAreClean(events: seq<Delta>, side: Side, price: real)
    requires AllNonZero(events) && NeverNearZero(events, side, price)
    ensures AllClean(events, side, price)
  {
    forall n | 0 <= n < |events| && AtLevel(events[n], side, price)
      ensures Clean(Level(events[..n], side, price), events[n].amount)
    {
      assert events[n] in events;
      assert events[..n + 1] == events[..n] + [events[n]];
      LevelAppend(events[..n], events[n], side, price);
      assert Abs(Level(events[..n + 1], side, price)) >= EPSILON || Level(events[..n + 1], side, price) == 0.0;
    }
  }

  /**
   After any run in which dequeued cancels name resting orders and carry their own remainder, the published level
   is the sum of what rests there, and there is none exactly where nothing rests, provided that the level was never
   strictly between zero and EPSILON.
   */
  lemma PublishedBookIsTheBook(run: seq<Event>, side: Side, price: real)
    requires Legal(INITIAL, run) && AllNameResting(INITIAL, run)
    requires NeverNearZero(Run(INITIAL, run).deltas, side, price)
    ensures var e := Run(INITIAL, run);
            && RestingAt(e.Book(side), price) >= 0.0
            && LevelRow(e.deltas, side, price)
               == (if HasPrice(e.Book(side), price) then Some(RestingAt(e.Book(side), price)) else None)
  {
    InitialInv();
    RunNonZero(INITIAL, run);
    RunKeeps(INITIAL, run);
    EventsDescribeBook(run, side, price);
    var e := Run(INITIAL, run);
    MovingEventsAreClean(e.deltas, side, price);
    AlwaysExactIff(e.deltas, side, price);
    assert e.deltas[..|e.deltas|] == e.deltas;
    RestingSum(e.Book(side), side, price);
  }

  /** The same read off the stream's own rows, once it has published all the events. */
  lemma StreamShowsBook(stream: RedisOrderbookStream, run: seq<Event>, side: Side, price: real)
    requires Legal(INITIAL, run) && AllNameResting(INITIAL, run)
    requires NeverNearZero(Run(INITIAL, run).deltas, side, price)
    requires stream.Valid() && stream.published == Run(INITIAL, run).deltas
    ensures var e := Run(INITIAL, run);
            && Sorted(side, stream.Rows(side))
            && RowAt(stream.Rows(side), price)
               == (if HasPrice(e.Book(side), price) then Some(RestingAt(e.Book(side), price)) else None)
  {
    PublishedBookIsTheBook(run, side, price);
  }

  predicate HasPrice(q: seq<Order>, price: real) { exists i :: 0 <= i < |q| && q[i].price == price }

  lemma {:induction false} RestingSum(q: seq<Order>, side: Side, price: real)
    requires AllResting(q, side)
    ensures RestingAt(q, price) >= 0.0 && (RestingAt(q, price) == 0.0 <==> !HasPrice(q, price))
  {
    if q != [] {
      RestingSum(q[1..], side, price);
      assert q[0] in q;
      assert forall i :: 0 < i < |q| ==> q[i] == q[1..][i - 1];
      if HasPrice(q[1..], price) {
        var i :| 0 <= i < |q[1..]| && q[1..][i].price == price;
        assert q[i + 1].price == price;
      }
    }
  }

  /** A cancel of an order that is already gone is published as a row of nothing. */
  lemma SpentCancelLeavesEmptyRow(events: seq<Delta>, side: Side, price: real)
    requires LevelRow(events, side, price).None?
    ensures LevelRow(events + [Delta(side, price, 0.0)], side, price) == Some(0.0)
    ensures Level(events + [Delta(side, price, 0.0)], side, price) == Level(events, side, price)
  {
    LevelAppend(events, Delta(side, price, 0.0), side, price);
    assert (events + [Delta(side, price, 0.0)])[..|events|] == events;
  }

  // ---------- A row rounded away ----------

  const SELLER := Order(1, Sell, Limit, 5.0, 0, 1000.0, 0.0, 1.0, 0.0, 0.0, 0.0, 1.0)
  const BUYER := Order(2, Buy, Limit, 5.0, 0, 1000.0, 0.0, 0.99999995, 0.0, 0.0, 0.0, 0.99999995)

  /** The seller rests. */
  function SellerRests(): Engine {
    Engine([], [SELLER], {1}, map[1 := 0], 1, map[1 := Create], [], [], [Delta(Sell, 5.0, 1.0)])
  }

  lemma SellerComesToRest(t: real)
    requires t <= SELLER.expiry
    ensures Takes(INITIAL, Arrive(CreateInput(SELLER)), Enqueue(INITIAL, SELLER))
    ensures Takes(Enqueue(INITIAL, SELLER), Dequeue(t, 0.0), SellerRests())
  {
    var e1 := Enqueue(INITIAL, SELLER);
    var s := LoopStart(Pop(e1), SELLER);
    assert !Guard(s) && Settles(s);
    assert GreedyFill(s) == Outcome(SELLER, UNLIMITED, [], [], []);
    assert e1.priority - {} == e1.priority && IdSet([]) == {};
    assert TradeDeltas(Buy, []) == [];
    var e2 := AfterMatch(Pop(e1), Sell, GreedyFill(s));
    assert Insert(Asks, e2.priority, [], SELLER) == [SELLER];
  }

  lemma BuyerTakes()
    ensures var s := LoopState(BUYER, UNLIMITED, [SELLER]);
            && LoopInv(s) && Guard(s) && FrontQuantity(s) == 0.99999995
            && FrontAfter(s).remaining == 0.00000005 && FrontAfter(s).price == 5.0
            && Body(s).makers == [FrontAfter(s)] && Body(s).taker.remaining == 0.0 && Body(s).taker.kind.Limit?
  {
    var s := LoopState(BUYER, UNLIMITED, [SELLER]);
    assert s.makers[0] == SELLER && s.makers[1..] == [];
    assert LoopInv(s) && Guard(s) && FrontQuantity(s) == 0.99999995;
  }

  lemma BuyerSettles()
    ensures var s := LoopState(BUYER, UNLIMITED, [SELLER]);
            && LoopInv(s) && Settles(s)
            && var g := GreedyFill(s);
               && g.trades == [Trade(2, 1, 5.0, 0.99999995, true)] && g.done == [] && g.left == [FrontAfter(s)]
               && g.taker.remaining == 0.0 && g.taker.kind.Limit?
  {
    BuyerTakes();
    hide Order.Fill, FrontAfter, FrontQuantity;
    var s := LoopState(BUYER, UNLIMITED, [SELLER]);
    assert s.makers[0] == SELLER;
    AmountTakerSettles(s);
  }

  /** Nearly all of it is bought. */
  lemma BuyerLeavesLittle(t: real)
    requires t <= BUYER.expiry
    ensures var e3 := Enqueue(SellerRests(), BUYER);
            && Takes(SellerRests(), Arrive(CreateInput(BUYER)), e3)
            && Enabled(e3, Dequeue(t, 0.0)) && Takes(e3, Dequeue(t, 0.0), Step(e3, Dequeue(t, 0.0)))
            && var e4 := Step(e3, Dequeue(t, 0.0));
               && e4.deltas == [Delta(Sell, 5.0, 1.0), Delta(Sell, 5.0, -0.99999995)]
               && |e4.asks| == 1 && e4.asks[0].price == 5.0 && e4.asks[0].remaining == 0.00000005
  {
    var e3 := Enqueue(SellerRests(), BUYER);
    var s := LoopState(BUYER, UNLIMITED, [SELLER]);
    assert LoopStart(Pop(e3), BUYER) == s;
    BuyerTakes();
    BuyerSettles();
    hide GreedyFill, Settles, FrontAfter, Body;
    var trades := [Trade(2, 1, 5.0, 0.99999995, true)];
    assert TradeDeltas(Sell, trades) == [Delta(Sell, 5.0, -0.99999995)];
  }

  lemma RowVanishes()
    ensures LevelRow([Delta(Sell, 5.0, 1.0), Delta(Sell, 5.0, -0.99999995)], Sell, 5.0) == None
  {
    var events := [Delta(Sell, 5.0, 1.0), Delta(Sell, 5.0, -0.99999995)];
    assert events[..1] == [events[0]] && events[..1][..0] == [];
  }

  /**
   A run without any cancel: 1 comes to rest, 0.99999995 of it is bought; 5*10^-8 still rests at a price at which
   nothing is published.
   */
  lemma SmallRestIsNotShown(t: real)
    requires t <= SELLER.expiry
    ensures var run := [Arrive(CreateInput(SELLER)), Dequeue(t, 0.0), Arrive(CreateInput(BUYER)), Dequeue(t, 0.0)];
            && Legal(INITIAL, run)
            && var e := Run(INITIAL, run);
               RestingAt(e.asks, 5.0) == 0.00000005 && LevelRow(e.deltas, Sell, 5.0) == None
  {
    var run := [Arrive(CreateInput(SELLER)), Dequeue(t, 0.0), Arrive(CreateInput(BUYER)), Dequeue(t, 0.0)];
    hide Takes, Legal, Run, Step, Enabled, LevelRow, SellerRests, Enqueue;
    SellerComesToRest(t);
    BuyerLeavesLittle(t);
    RowVanishes();
    var e1, e3 := Enqueue(INITIAL, SELLER), Enqueue(SellerRests(), BUYER);
    var e4 := Step(e3, Dequeue(t, 0.0));
    assert e4.asks[1..] == [];
    assert RestingAt(e4.asks, 5.0) == 0.00000005;
    Follow([INITIAL, e1, SellerRests(), e3, e4], run);
  }
}
