/** Concrete runs in which the engine falls short. */
module EngineExamples {
  import opened Options
  import opened Orders
  import opened Matching
  import opened Fills
  import opened Queues
  import opened EngineModel
  import opened EngineInvariant
  import opened EngineRuns
  import opened Orderbooks
  import opened PublishedBook

  // ---------- A cancel of an order that is spent ----------

  const WHOLE_BUYER := Order(2, Buy, Limit, 5.0, 0, 1000.0, 0.0, 1.0, 0.0, 0.0, 0.0, 1.0)

  lemma WholeBuyerTakes()
    ensures var s := LoopState(WHOLE_BUYER, UNLIMITED, [SELLER]);
            && LoopInv(s) && Guard(s) && FrontQuantity(s) == 1.0 && FrontAfter(s).remaining == 0.0
            && Body(s).makers == [] && Body(s).taker.remaining == 0.0 && Body(s).taker.kind.Limit?
  {
    var s := LoopState(WHOLE_BUYER, UNLIMITED, [SELLER]);
    assert s.makers[0] == SELLER && s.makers[1..] == [];
    assert LoopInv(s) && Guard(s) && FrontQuantity(s) == 1.0;
  }

  lemma WholeBuyerSettles()
    ensures var s := LoopState(WHOLE_BUYER, UNLIMITED, [SELLER]);
            && LoopInv(s) && Settles(s)
            && var g := GreedyFill(s);
               && g.trades == [Trade(2, 1, 5.0, 1.0, true)] && |g.done| == 1 && g.done[0].id == 1 && g.left == []
               && g.taker.remaining == 0.0 && g.taker.kind.Limit?
  {
    var s := LoopState(WHOLE_BUYER, UNLIMITED, [SELLER]);
    assert s.makers[0] == SELLER;
    WholeBuyerTakes();
    GreedyStep(s);
    AmountTakerSettles(s);
    hide Order.Fill, FrontQuantity, Body;
    assert GreedyFill(Body(s)) == Outcome(Body(s).taker, Body(s).budget, [], [], []);
  }

  /** The seller is bought out. */
  function SoldOut(): Engine {
    Engine([], [], {}, map[], 2, map[1 := Create, 2 := Create], [], [MatchOutput([Trade(2, 1, 5.0, 1.0, true)])],
           [Delta(Sell, 5.0, 1.0), Delta(Sell, 5.0, -1.0)])
  }

  lemma WholeBuyerArrives()
    ensures Takes(SellerRests(), Arrive(CreateInput(WHOLE_BUYER)), Enqueue(SellerRests(), WHOLE_BUYER))
  {
  }

  lemma WholeBuyerBuys(t: real)
    requires t <= WHOLE_BUYER.expiry
    ensures Takes(Enqueue(SellerRests(), WHOLE_BUYER), Dequeue(t, 0.0), SoldOut())
  {
    var e := Enqueue(SellerRests(), WHOLE_BUYER);
    assert LoopStart(Pop(e), WHOLE_BUYER) == LoopState(WHOLE_BUYER, UNLIMITED, [SELLER]);
    WholeBuyerTakes();
    WholeBuyerSettles();
    hide GreedyFill, Settles, FrontAfter, Body;
    var g := GreedyFill(LoopState(WHOLE_BUYER, UNLIMITED, [SELLER]));
    assert IdSet(g.done) == {1} by { assert g.done == [g.done[0]]; }
    assert TradeDeltas(Sell, g.trades) == [Delta(Sell, 5.0, -1.0)];
  }

  /** Its cancel waits, then has been acted on. */
  function LateCancel(): Engine {
    SoldOut().(received := map[1 := Cancel, 2 := Create], pending := [CancelInput(1, Sell, 5.0)])
  }

  function CancelDone(): Engine {
    LateCancel().(pending := [], outputs := SoldOut().outputs + [CancelOutput(1)],
                  deltas := SoldOut().deltas + [Delta(Sell, 5.0, 0.0)])
  }

  lemma LateCancelTaken(t: real)
    ensures Takes(SoldOut(), Arrive(CancelInput(1, Sell, 5.0)), LateCancel())
    ensures Takes(LateCancel(), Dequeue(t, 0.0), CancelDone())
  {
    assert IdSet([]) == {};
    assert Remove([], 1) == [];
  }

  lemma EmptyRow()
    ensures LevelRow(CancelDone().deltas, Sell, 5.0) == Some(0.0)
  {
    var before := [Delta(Sell, 5.0, 1.0), Delta(Sell, 5.0, -1.0)];
    assert before[..1] == [before[0]] && before[..1][..0] == [];
    assert LevelRow(before, Sell, 5.0) == None;
    SpentCancelLeavesEmptyRow(before, Sell, 5.0);
    assert CancelDone().deltas == before + [Delta(Sell, 5.0, 0.0)];
  }

  /** 1 comes to rest and is bought; the cancel that comes then leaves a row of zero where nothing rests. */
  lemma SpentOrderIsCancelled(t: real)
    requires t <= SELLER.expiry
    ensures var run := [Arrive(CreateInput(SELLER)), Dequeue(t, 0.0), Arrive(CreateInput(WHOLE_BUYER)), Dequeue(t, 0.0),
                        Arrive(CancelInput(1, Sell, 5.0)), Dequeue(t, 0.0)];
            && Legal(INITIAL, run)
            && var e := Run(INITIAL, run);
               e.asks == [] && LevelRow(e.deltas, Sell, 5.0) == Some(0.0)
  {
    var run := [Arrive(CreateInput(SELLER)), Dequeue(t, 0.0), Arrive(CreateInput(WHOLE_BUYER)), Dequeue(t, 0.0),
                Arrive(CancelInput(1, Sell, 5.0)), Dequeue(t, 0.0)];
    hide Takes, Legal, Run, LevelRow, SellerRests, Enqueue, SoldOut;
    SellerComesToRest(t);
    WholeBuyerArrives();
    WholeBuyerBuys(t);
    LateCancelTaken(t);
    EmptyRow();
    assert CancelDone().asks == [] by { AsksGone(); }
    var e1, e3 := Enqueue(INITIAL, SELLER), Enqueue(SellerRests(), WHOLE_BUYER);
    hide LateCancel, CancelDone;
    Follow([INITIAL, e1, SellerRests(), e3, SoldOut(), LateCancel(), CancelDone()], run);
  }

  lemma AsksGone()
    ensures CancelDone().asks == []
  {
  }

  // ---------- A cancel that shows the wrong side ----------

  /**
   The order at rest is cancelled as a buy order: it still rests, but neither the priority map nor the expiry queue
   knows it, and it will never expire.
   */
  lemma WrongSideCancelStrands(t: real)
    requires t <= SELLER.expiry
    ensures var run := [Arrive(CreateInput(SELLER)), Dequeue(t, 0.0), Arrive(CancelInput(1, Buy, 5.0))];
            && Legal(INITIAL, run)
            && var e := Run(INITIAL, run);
               && Enabled(e, Dequeue(t, 1.0)) && !Proper(e, Dequeue(t, 1.0))
               && var e' := Step(e, Dequeue(t, 1.0));
                  e'.asks == [SELLER] && e'.priority == map[] && e'.expiry == {} && !Inv(e', {})
  {
    var run := [Arrive(CreateInput(SELLER)), Dequeue(t, 0.0), Arrive(CancelInput(1, Buy, 5.0))];
    hide Takes, Enabled, Step, SellerRests, Enqueue, Proper, Inv;
    var e := SellerRests().(received := map[1 := Cancel], pending := [CancelInput(1, Buy, 5.0)]);
    SellerComesToRest(t);
    WrongSideWaits(e);
    StrandedBy(e, t);
    Follow([INITIAL, Enqueue(INITIAL, SELLER), SellerRests(), e], run);
  }

  lemma WrongSideWaits(e: Engine)
    requires e == SellerRests().(received := map[1 := Cancel], pending := [CancelInput(1, Buy, 5.0)])
    ensures Takes(SellerRests(), Arrive(CancelInput(1, Buy, 5.0)), e)
  {
  }

  lemma StrandedBy(e: Engine, t: real)
    requires e == SellerRests().(received := map[1 := Cancel], pending := [CancelInput(1, Buy, 5.0)])
    ensures Enabled(e, Dequeue(t, 1.0)) && !Proper(e, Dequeue(t, 1.0))
    ensures var e' := Step(e, Dequeue(t, 1.0));
            e'.asks == [SELLER] && e'.priority == map[] && e'.expiry == {} && !Inv(e', {})
  {
    assert Remove([], 1) == [];
    assert SELLER in e.asks && 1 in IdSet(e.asks);
    var e' := Step(e, Dequeue(t, 1.0));
    assert e'.asks == [SELLER] && 1 in e'.BookIds();
  }

  // ---------- An order streamed before it is loaded ----------

  /** The order waits twice, and once both are processed rests twice, with twice its amount. */
  lemma StreamedThenLoaded(t: real)
    requires t <= SELLER.expiry
    ensures var e := Receive(INITIAL, CreateInput(SELLER));
            var loaded := EnqueueAll(e, [SELLER]);
            && !Inv(loaded, {})
            && Enabled(loaded, Dequeue(t, 0.0))
            && var once := Step(loaded, Dequeue(t, 0.0));
               && Enabled(once, Dequeue(t, 0.0))
               && var twice := Step(once, Dequeue(t, 0.0));
                  twice.asks == [SELLER, SELLER] && RestingAt(twice.asks, 5.0) == 2.0
  {
    hide Enabled, Step, Receive, EnqueueAll, Inv, RestingAt;
    WaitsTwice();
    var loaded := EnqueueAll(Receive(INITIAL, CreateInput(SELLER)), [SELLER]);
    RestsAgain(loaded, t);
    var once := Step(loaded, Dequeue(t, 0.0));
    RestsAgain(once, t);
    assert once.asks == [SELLER] && Step(once, Dequeue(t, 0.0)).asks == [SELLER] + [SELLER];
    TwiceTheAmount();
  }

  lemma TwiceTheAmount()
    ensures RestingAt([SELLER, SELLER], 5.0) == 2.0
  {
    assert [SELLER, SELLER][1..] == [SELLER] && [SELLER][1..] == [];
    assert RestingAt([SELLER], 5.0) == 1.0;
  }

  lemma WaitsTwice()
    ensures var loaded := EnqueueAll(Receive(INITIAL, CreateInput(SELLER)), [SELLER]);
            && loaded.bids == [] && loaded.asks == [] && !Inv(loaded, {})
            && loaded.pending == [CreateInput(SELLER), CreateInput(SELLER)]
  {
    hide BookInv, PriorityInv;
    var e := Receive(INITIAL, CreateInput(SELLER));
    var loaded := EnqueueAll(e, [SELLER]);
    assert [SELLER][1..] == [] && EnqueueAll(Enqueue(e, SELLER), []) == Enqueue(e, SELLER);
    assert loaded == Enqueue(e, SELLER);
    assert loaded.pending[0].Id() == loaded.pending[1].Id();
  }

  /** An engine with no bids, and the order pending: it goes to the end of the asks. */
  lemma RestsAgain(e: Engine, t: real)
    requires t <= SELLER.expiry && e.bids == [] && e.pending != [] && e.pending[0] == CreateInput(SELLER)
    requires e.asks == [] || e.asks == [SELLER]
    ensures Enabled(e, Dequeue(t, 0.0))
    ensures var e' := Step(e, Dequeue(t, 0.0));
            e'.bids == [] && e'.asks == e.asks + [SELLER] && e'.pending == e.pending[1..]
  {
    var s := LoopStart(Pop(e), SELLER);
    assert !Guard(s) && Settles(s);
    assert GreedyFill(s) == Outcome(SELLER, UNLIMITED, [], [], []);
    assert e.priority - {} == e.priority && IdSet([]) == {};
    var e2 := AfterMatch(Pop(e), Sell, GreedyFill(s));
    assert Insert(Asks, e2.priority, e2.asks, SELLER) == e2.asks + [SELLER];
  }
}
