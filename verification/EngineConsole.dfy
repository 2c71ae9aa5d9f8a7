/** The command that runs a pair's engine: what it publishes is what its queues hold. */
module EngineConsole {
  import opened Options
  import opened Orders
  import opened Fills
  import opened EngineModel
  import opened EngineRuns
  import opened EnginePriority
  import opened EngineCalls
  import opened Entities
  import opened MatchingEngines
  import opened Orderbooks
  import opened PublishedBook

  /** A new engine. */
  function NewFront(): Front { Front(INITIAL, map[]) }

  /** Messages that come before the orders are loaded, the orders, then one interleaving of all kinds of calls. */
  method RunEngine(early: seq<Call>, loaded: seq<Order>, calls: seq<Call>)
    returns (engine: MatchingEngine, ghost owed: map<int, real>)
    requires NotStreamed(early, loaded) && forall o <- loaded :: o.WellFormed()
    requires AllReturn(NewFront(), early + Loads(loaded) + calls)
    ensures engine.Valid({}) && Plays(NewFront(), early + Loads(loaded) + calls, Front(engine.View(), owed))
  {
    ghost var f := NewFront();
    hide Inv, Plays, AllReturn, FreshOrders, MatchingEngine.Valid, MatchingEngine.View, MatchingEngine.Owes;
    hide NotStreamed;
    engine := new MatchingEngine();
    owed := map[];
    NothingOwed(engine);
    assert early + Loads(loaded) + calls == early + (Loads(loaded) + calls);
    ReturnsFirst(f, early, Loads(loaded) + calls);
    owed := engine.Start(early, owed);
    ghost var g := Front(engine.View(), owed);
    AllReturnAfter(f, early, g, Loads(loaded) + calls);
    NothingReceived(loaded, early);
    NotStreamedIsFresh(f, early, loaded, g);
    engine.Load(loaded, owed);
    ghost var h := Front(engine.View(), owed);
    AllReturnAfter(g, Loads(loaded), h, calls);
    owed := engine.Start(calls, owed);
    PlaysThen(f, early, g, Loads(loaded), h);
    PlaysThen(f, early + Loads(loaded), h, calls, Front(engine.View(), owed));
  }

  /** The output thread: the events queued so far, in order. */
  method PublishAll(engine: MatchingEngine, clock: nat -> real) returns (stream: RedisOrderbookStream)
    requires engine.Valid({})
    ensures engine.Valid({}) && engine.View() == old(engine.View())
    ensures stream.Valid() && stream.published == engine.View().deltas
  {
    hide Inv, RedisOrderbookStream.Valid;
    stream := new RedisOrderbookStream();
    var events := engine.orderbookOutputs;
    stream.Drain(events, seq(|events|, i requires 0 <= i => clock(i)));
    assert engine.View() == old(engine.View()) && engine.Shape();
  }

  /** `startEngine`: the engine at work and what it publishes. */
  method StartEngine(early: seq<Call>, loaded: seq<Order>, calls: seq<Call>, clock: nat -> real)
    returns (engine: MatchingEngine, stream: RedisOrderbookStream, ghost owed: map<int, real>)
    requires NotStreamed(early, loaded) && forall o <- loaded :: o.WellFormed()
    requires AllReturn(NewFront(), early + Loads(loaded) + calls)
    ensures engine.Valid({}) && Plays(NewFront(), early + Loads(loaded) + calls, Front(engine.View(), owed))
    ensures stream.Valid() && stream.published == engine.View().deltas
  {
    hide Plays, AllReturn, MatchingEngine.Valid, MatchingEngine.View, NotStreamed, RedisOrderbookStream.Valid;
    engine, owed := RunEngine(early, loaded, calls);
    stream := PublishAll(engine, clock);
  }

  lemma NothingOwed(engine: MatchingEngine)
    requires engine.View() == INITIAL
    ensures engine.Owes(map[])
  {
    assert |engine.View().pending| == |engine.unprocessedOrders|;
  }

  lemma NothingReceived(loaded: seq<Order>, early: seq<Call>)
    requires NotStreamed(early, loaded)
    ensures FreshOrders(NewFront().engine.received, loaded)
  {
  }

  /** Orders priced at most 10^8 and cancels that show their order's side are all it takes for every call to return. */
  lemma OrdinaryEngineReturns(calls: seq<Call>, sides: int -> Side)
    requires AllOrdinary(calls, sides)
    ensures AllReturn(NewFront(), calls)
  {
    InitialOrdinary(sides);
    OrdinaryCallsReturn(NewFront(), calls, sides);
  }

  // ---------- What the objects hold ----------

  /** However the calls go, the objects' bids stay below the asks, and only open limit orders are in the queues. */
  lemma QueuesNeverCross(engine: MatchingEngine, calls: seq<Call>, owed: map<int, real>)
    requires AllReturn(NewFront(), calls) && Plays(NewFront(), calls, Front(engine.View(), owed))
    ensures forall b <- engine.buyOrders.items, a <- engine.sellOrders.items :: b.price < a.price
    ensures forall o <- engine.buyOrders.items + engine.sellOrders.items :: o.kind.Limit? && o.remainingAmount > 0.0
  {
    InitialInv();
    var run := CallsAreRun(NewFront(), calls, Front(engine.View(), owed));
    BookNeverCrossed(run);
    var e := engine.View();
    forall o | o in engine.buyOrders.items ensures o.State() in e.bids {
      var i :| 0 <= i < |engine.buyOrders.items| && engine.buyOrders.items[i] == o;
      assert e.bids[i] == o.State();
    }
    forall o | o in engine.sellOrders.items ensures o.State() in e.asks {
      var i :| 0 <= i < |engine.sellOrders.items| && engine.sellOrders.items[i] == o;
      assert e.asks[i] == o.State();
    }
  }

  /**
   However the calls go, the objects in a queue stand by price, at one price by update, and at one time of update in the
   order in which their creates came.
   */
  lemma QueuesStandInOrder(engine: MatchingEngine, calls: seq<Call>, owed: map<int, real>, side: Side)
    returns (run: seq<Event>)
    requires AllReturn(NewFront(), calls) && Plays(NewFront(), calls, Front(engine.View(), owed))
    ensures Legal(INITIAL, run) && Run(INITIAL, run) == engine.View()
    ensures var q := engine.GetPendingOrdersQueue(side).items;
            forall i, j :: 0 <= i < j < |q| ==>
              if q[i].price != q[j].price then (if side.Buy? then q[i].price > q[j].price else q[i].price < q[j].price)
              else q[i].updatedAt < q[j].updatedAt
                   || (q[i].updatedAt == q[j].updatedAt && CameFirst(Came(run), q[i].id, q[j].id))
  {
    InitialInv();
    run := CallsAreRun(NewFront(), calls, Front(engine.View(), owed));
    hide AllReturn, Plays, Legal, Run, CameFirst, Came;
    var q := engine.GetPendingOrdersQueue(side).items;
    assert engine.View().Book(side) == States(q);
    forall i, j | 0 <= i < j < |q| ensures StandsBefore(side, Came(run), q[i].State(), q[j].State()) {
      PriceTimePriority(run, side, i, j);
    }
  }

  /**
   Once all events are published, the row at a price is what the queue's objects of that side and price have left
   together, and there is none exactly where there is no such object, if cancels come with what their order has left
   and the level was never strictly between zero and EPSILON.
   */
  lemma RowsShowQueues(engine: MatchingEngine, stream: RedisOrderbookStream, calls: seq<Call>, owed: map<int, real>,
                       side: Side, price: real)
    requires AllReturn(NewFront(), calls) && AllHonest(NewFront(), calls)
    requires Plays(NewFront(), calls, Front(engine.View(), owed))
    requires stream.Valid() && stream.published == engine.View().deltas
    requires NeverNearZero(engine.View().deltas, side, price)
    ensures var orders := States(engine.GetPendingOrdersQueue(side).items);
            RowAt(stream.Rows(side), price) == if HasPrice(orders, price) then Some(RestingAt(orders, price)) else None
  {
    InitialInv();
    var run := CallsAreRun(NewFront(), calls, Front(engine.View(), owed));
    StreamShowsBook(stream, run, side, price);
  }
}
