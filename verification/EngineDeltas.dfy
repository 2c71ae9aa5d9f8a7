/** The order-book events of a run add up, at every side and price, to the orders resting there. */
module EngineDeltas {
  import opened Orders
  import opened Matching
  import opened Fills
  import opened Queues
  import opened EngineModel
  import opened EngineInvariant
  import opened EngineRuns

  /** Sum of the events at a side and price. */
  function Level(deltas: seq<Delta>, side: Side, price: real): real {
    if deltas == [] then 0.0
    else (if deltas[0].side == side && deltas[0].price == price then deltas[0].amount else 0.0)
         + Level(deltas[1..], side, price)
  }

  lemma {:induction false} LevelConcat(a: seq<Delta>, b: seq<Delta>, side: Side, price: real)
    ensures Level(a + b, side, price) == Level(a, side, price) + Level(b, side, price)
  {
    if a == [] {
      assert a + b == b;
    } else {
      assert (a + b)[1..] == a[1..] + b;
      LevelConcat(a[1..], b, side, price);
    }
  }

  lemma LevelAppend(a: seq<Delta>, d: Delta, side: Side, price: real)
    ensures Level(a + [d], side, price)
            == Level(a, side, price) + (if d.side == side && d.price == price then d.amount else 0.0)
  {
    LevelConcat(a, [d], side, price);
    assert [d][1..] == [];
    assert Level([d], side, price) == if d.side == side && d.price == price then d.amount else 0.0;
  }

  lemma {:induction false} TradeLevels(trades: seq<Trade>, maker: Side, side: Side, price: real)
    ensures Level(TradeDeltas(maker, trades), side, price)
            == if side == maker then -QuantityAt(trades, price) else 0.0
  {
    var d := TradeDeltas(maker, trades);
    if trades != [] {
      TradeLevels(trades[1..], maker, side, price);
      assert d[1..] == TradeDeltas(maker, trades[1..]);
      assert d[0] == Delta(maker, trades[0].price, -trades[0].quantity);
    }
  }

  /** Published events minus resting quantity at a side and price; zero where the two agree. */
  function Excess(e: Engine, side: Side, price: real): real {
    Level(e.deltas, side, price) - RestingAt(e.Book(side), price)
  }

  /** The events describe the books. */
  ghost predicate Agreement(e: Engine) {
    forall side, price :: Excess(e, side, price) == 0.0
  }

  /** The cancel carries what its order still has in the book: its own price and remainder, or nothing. */
  predicate CarriesOwnRemaining(e: Engine, id: int, side: Side, price: real, amount: real) {
    var k := IndexOf(e.Book(side), id);
    if k < |e.Book(side)| then e.Book(side)[k].price == price && e.Book(side)[k].remaining == amount
    else amount == 0.0
  }

  /** What a cancel does to the excess at each level. */
  lemma CancelExcess(e: Engine, id: int, cSide: Side, cPrice: real, amount: real, inBook: bool, side: Side, price: real)
    ensures var e', k := CancelOrder(e, id, cSide, cPrice, amount, inBook), IndexOf(e.Book(cSide), id);
            Excess(e', side, price) == Excess(e, side, price)
            - (if inBook && side == cSide && price == cPrice then amount else 0.0)
            + (if side == cSide && k < |e.Book(cSide)| && e.Book(cSide)[k].price == price
               then e.Book(cSide)[k].remaining else 0.0)
  {
    RemoveLevels(e.Book(cSide), id, price);
    LevelAppend(e.deltas, Delta(cSide, cPrice, -amount), side, price);
  }

  /**
   A dequeued cancel keeps the events in agreement with the book exactly when it carries its order's own remaining.
   */
  lemma CancelAgreesIff(e: Engine, id: int, side: Side, price: real, amount: real)
    requires Agreement(e) && AllResting(e.Book(side), side)
    ensures Agreement(CancelOrder(e, id, side, price, amount, true))
      <==> CarriesOwnRemaining(e, id, side, price, amount)
  {
    hide Level, RestingAt, Remove, IndexOf, Excess, CancelOrder;
    var e', k := CancelOrder(e, id, side, price, amount, true), IndexOf(e.Book(side), id);
    forall s, p ensures Excess(e', s, p) ==
      - (if s == side && p == price then amount else 0.0)
      + (if s == side && k < |e.Book(side)| && e.Book(side)[k].price == p then e.Book(side)[k].remaining else 0.0)
    {
      CancelExcess(e, id, side, price, amount, true, s, p);
      assert Excess(e, s, p) == 0.0;
    }
    if k < |e.Book(side)| {
      assert e.Book(side)[k] in e.Book(side);
      assert Agreement(e') ==> Excess(e', side, e.Book(side)[k].price) == 0.0;
    } else {
      assert Agreement(e') ==> Excess(e', side, price) == 0.0;
    }
  }

  lemma ExpireAgrees(e: Engine, id: int)
    requires BookInv(e) && Agreement(e) && id in e.BookIds()
    ensures Agreement(Expire(e, id))
  {
    OrderOfFacts(e, id);
    var o := OrderOf(e, id);
    UniqueAt(e.Book(o.side), o);
    CancelAgreesIff(e, id, o.side, o.price, o.remaining);
  }

  lemma UniqueAt(q: seq<Order>, o: Order)
    requires o in q && DistinctIds(q)
    ensures IndexOf(q, o.id) < |q| && q[IndexOf(q, o.id)] == o
  {
    var i :| 0 <= i < |q| && q[i] == o;
    assert q[IndexOf(q, o.id)].id == q[i].id;
  }

  lemma {:induction false} SweepAgrees(e: Engine, now: real, ids: seq<int>)
    requires Inv(e, {}) && Agreement(e) && SweepEnabled(e, now, ids)
    ensures Agreement(SweepAll(e, now, ids))
    decreases |ids|
  {
    if ids != [] {
      ExpireKeeps(e, ids[0]);
      ExpireAgrees(e, ids[0]);
      SweepAgrees(Expire(e, ids[0]), now, ids[1..]);
    }
  }

  lemma MatchAgrees(e: Engine, o: Order)
    requires Agreement(e) && LoopInv(LoopStart(e, o))
    ensures Agreement(AfterMatch(e, o.side, GreedyFill(LoopStart(e, o))))
  {
    var s := LoopStart(e, o);
    var g := GreedyFill(s);
    var e' := AfterMatch(e, o.side, g);
    forall side, price ensures Excess(e', side, price) == 0.0 {
      assert Excess(e, side, price) == 0.0;
      LevelsSpent(s, price);
      TradeLevels(g.trades, o.side.Opposite(), side, price);
      LevelConcat(e.deltas, TradeDeltas(o.side.Opposite(), g.trades), side, price);
    }
  }

  lemma FinishAgrees(e: Engine, o: Order, budget: real)
    requires Agreement(e)
    ensures Agreement(Finish(e, o, budget))
  {
    var e' := Finish(e, o, budget);
    forall side, price ensures Excess(e', side, price) == 0.0 {
      assert Excess(e, side, price) == 0.0;
      LevelAppend(e.deltas, Delta(o.side, o.price, o.remaining), side, price);
      InsertLevels(RankingOf(o.side), e.priority, e.Book(o.side), o, price);
    }
  }

  /** Dropping an order that rests nowhere and publishing nothing. */
  lemma SilentCancelAgrees(e: Engine, id: int, side: Side, price: real)
    requires Agreement(e) && id !in e.BookIds()
    ensures Agreement(CancelOrder(e, id, side, price, 0.0, false))
  {
    IdSetIff(e.Book(side), id);
    forall s, p ensures Excess(CancelOrder(e, id, side, price, 0.0, false), s, p) == 0.0 {
      assert Excess(e, s, p) == 0.0;
      CancelExcess(e, id, side, price, 0.0, false, s, p);
    }
  }

  lemma SameLevels(e: Engine, e': Engine)
    requires Agreement(e) && e'.bids == e.bids && e'.asks == e.asks && e'.deltas == e.deltas
    ensures Agreement(e')
  {
    forall side, price ensures Excess(e', side, price) == 0.0 {
      assert Excess(e, side, price) == 0.0;
    }
  }

  /** A dequeued cancel carries its order's own remaining; other events are unconstrained. */
  ghost predicate Faithful(e: Engine, ev: Event)
    requires Enabled(e, ev)
  {
    ev.Dequeue? && e.pending[0].CancelInput? ==>
      CarriesOwnRemaining(e, e.pending[0].cancelId, e.pending[0].side, e.pending[0].price, ev.carried)
  }

  lemma SubmitAgrees(e: Engine, o: Order, now: real)
    requires Inv(e, {o.id}) && Agreement(e) && o.WellFormed()
    requires !o.Expired(now) ==> LoopInv(LoopStart(e, o))
    ensures Agreement(Submit(e, o, now))
  {
    if o.Expired(now) {
      SilentCancelAgrees(e, o.id, o.side, o.price);
    } else {
      var g := GreedyFill(LoopStart(e, o));
      MatchAgrees(e, o);
      FinishAgrees(AfterMatch(e, o.side, g), g.taker, g.budget);
    }
  }

  /** From agreement, a step keeps agreement exactly when it is faithful. */
  lemma StepAgreesIff(e: Engine, ev: Event)
    requires Inv(e, {}) && Agreement(e) && Enabled(e, ev)
    ensures Agreement(Step(e, ev)) <==> Faithful(e, ev)
  {
    match ev
    case Arrive(input) =>
      if input.Id() !in e.received && input.CancelInput? {
        SilentCancelAgrees(e, input.Id(), input.side, input.price);
      } else {
        SameLevels(e, Step(e, ev));
      }
    case Sweep(now, ids) => SweepAgrees(e, now, ids);
    case Dequeue(now, carried) =>
      PopKeeps(e);
      SameLevels(e, Pop(e));
      match e.pending[0] {
        case CreateInput(o) => SubmitAgrees(Pop(e), o, now);
        case CancelInput(id, side, price) => CancelAgreesIff(Pop(e), id, side, price, carried);
      }
  }

  ghost predicate AllFaithful(e: Engine, run: seq<Event>)
    requires Legal(e, run)
    decreases |run|
  {
    run != [] ==> Faithful(e, run[0]) && AllFaithful(Step(e, run[0]), run[1..])
  }

  lemma {:induction false} RunAgrees(e: Engine, run: seq<Event>)
    requires Inv(e, {}) && Agreement(e) && Legal(e, run) && AllFaithful(e, run)
    ensures Agreement(Run(e, run))
    decreases |run|
  {
    if run != [] {
      StepAgreesIff(e, run[0]);
      StepKeeps(e, run[0]);
      RunAgrees(Step(e, run[0]), run[1..]);
    }
  }

  /** After any run of faithful steps the events at each side and price sum to what rests there. */
  lemma EventsDescribeBook(run: seq<Event>, side: Side, price: real)
    requires Legal(INITIAL, run) && AllFaithful(INITIAL, run)
    ensures Level(Run(INITIAL, run).deltas, side, price) == RestingAt(Run(INITIAL, run).Book(side), price)
  {
    InitialInv();
    assert Agreement(INITIAL);
    RunAgrees(INITIAL, run);
    assert Excess(Run(INITIAL, run), side, price) == 0.0;
  }

  const LATE := Order(7, Sell, Limit, 5.0, 0, 10.0, 0.0, 1.0, 0.0, 0.0, 0.0, 1.0)

  /** A cancel that arrives for an order already expired publishes a row with nothing behind it. */
  lemma StaleCancelLeavesPhantomRow()
    ensures var run := [Arrive(CreateInput(LATE)), Arrive(CancelInput(7, Sell, 5.0)), Dequeue(11.0, 0.0),
      Dequeue(11.0, 1.0)];
            && Legal(INITIAL, run)
            && Run(INITIAL, run).asks == []
            && Level(Run(INITIAL, run).deltas, Sell, 5.0) == -1.0
  {
    var create, cancel := CreateInput(LATE), CancelInput(7, Sell, 5.0);
    var run := [Arrive(create), Arrive(cancel), Dequeue(11.0, 0.0), Dequeue(11.0, 1.0)];
    var e1 := Enqueue(INITIAL, LATE);
    var e2 := e1.(received := e1.received[7 := Cancel], pending := [create, cancel]);
    var e3 := CancelOrder(Pop(e2), 7, Sell, 5.0, 0.0, false);
    var e4 := CancelOrder(Pop(e3), 7, Sell, 5.0, 1.0, true);
    assert Takes(INITIAL, run[0], e1) && Takes(e1, run[1], e2) && Takes(e2, run[2], e3);
    assert e3.pending == [cancel];
    assert Takes(e3, run[3], e4);
    assert e4.deltas == [Delta(Sell, 5.0, -1.0)] && e4.deltas[1..] == [];
    hide Takes;
    Follow([INITIAL, e1, e2, e3, e4], run);
  }
}
