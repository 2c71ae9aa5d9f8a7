/** Whether the engine returns: always on prices up to 10^8, and not always above. */
module EngineReturns {
  import opened Decimals
  import opened Orders
  import opened Matching
  import opened Queues
  import opened EngineModel
  import opened EngineInvariant
  import opened EngineRuns

  // ---------- What holds of every order received holds of every order resting or pending ----------

  /** A property of what an order is, not of how far it is filled. */
  ghost predicate Lasting(p: Order -> bool) { forall a: Order, b: Order :: a.SameOrder(b) ==> p(a) == p(b) }

  ghost predicate AllAre(orders: seq<Order>, p: Order -> bool) { forall o <- orders :: p(o) }

  ghost predicate StateOf(e: Engine, p: Order -> bool) {
    AllAre(e.bids, p) && AllAre(e.asks, p) && forall i <- e.pending :: i.CreateInput? ==> p(i.order)
  }

  ghost predicate EventOf(ev: Event, p: Order -> bool) { ev.Arrive? && ev.input.CreateInput? ==> p(ev.input.order) }

  lemma CancelAre(e: Engine, p: Order -> bool, id: int, side: Side, price: real, amount: real, inOrderbook: bool)
    requires BookInv(e) && StateOf(e, p)
    ensures StateOf(CancelOrder(e, id, side, price, amount, inOrderbook), p)
  {
    RemoveFacts(e.Book(side), id);
  }

  lemma {:induction false} SweepAre(e: Engine, p: Order -> bool, now: real, ids: seq<int>)
    requires Inv(e, {}) && StateOf(e, p) && SweepEnabled(e, now, ids)
    ensures StateOf(SweepAll(e, now, ids), p) && SweepAll(e, now, ids).pending == e.pending
    decreases |ids|
  {
    if ids != [] {
      var o := OrderOf(e, ids[0]);
      CancelAre(e, p, ids[0], o.side, o.price, o.remaining, true);
      ExpireKeeps(e, ids[0]);
      SweepAre(Expire(e, ids[0]), p, now, ids[1..]);
    }
  }

  lemma LeftAre(s: LoopState, p: Order -> bool)
    requires LoopInv(s) && AllAre(s.makers, p) && Lasting(p)
    ensures AllAre(GreedyFill(s).left, p)
  {
    LeftAreMakers(s);
    hide GreedyFill, LoopInv, Order.SameOrder;
    forall o | o in GreedyFill(s).left ensures p(o) {
      var m :| m in s.makers && o.SameOrder(m);
    }
  }

  lemma SubmitAre(e: Engine, p: Order -> bool, o: Order, now: real)
    requires Inv(e, {o.id}) && StateOf(e, p) && o.WellFormed() && p(o) && Lasting(p)
    ensures StateOf(Submit(e, o, now), p)
  {
    if o.Expired(now) {
      CancelAre(e, p, o.id, o.side, o.price, 0.0, false);
    } else {
      LoopStartInv(e, o);
      var s := LoopStart(e, o);
      LeftAre(s, p);
      OutcomeKeeps(s);
      var g := GreedyFill(s);
      hide GreedyFill, LoopInv, Inv, Order.SameOrder;
      assert p(g.taker);
      FinishAre(AfterMatch(e, o.side, g), p, g.taker, g.budget);
    }
  }

  lemma FinishAre(e: Engine, p: Order -> bool, o: Order, budget: real)
    requires StateOf(e, p) && p(o)
    ensures StateOf(Finish(e, o, budget), p)
  {
    var q := Insert(RankingOf(o.side), e.priority, e.Book(o.side), o);
    forall x | x in q ensures x in e.Book(o.side) || x == o {}
  }

  lemma StepAre(e: Engine, p: Order -> bool, ev: Event)
    requires Inv(e, {}) && Enabled(e, ev) && StateOf(e, p) && EventOf(ev, p) && Lasting(p)
    ensures StateOf(Step(e, ev), p)
  {
    hide SideInv, Uncrossed, Settles, LoopInv, Submit, Remove, Lasting;
    match ev
    case Arrive(input) =>
      PendingCreatesAppend(e.pending, input);
      if input.Id() !in e.received && input.CancelInput? {
        CancelAre(e, p, input.Id(), input.side, input.price, 0.0, false);
      }
    case Sweep(now, ids) => SweepAre(e, p, now, ids);
    case Dequeue(now, carried) =>
      PopKeeps(e);
      assert e.pending[0] in e.pending && StateOf(Pop(e), p);
      match e.pending[0] {
        case CreateInput(o) => SubmitAre(Pop(e), p, o, now);
        case CancelInput(id, side, price) => CancelAre(Pop(e), p, id, side, price, carried, true);
      }
  }

  lemma {:induction false} RunAre(e: Engine, p: Order -> bool, run: seq<Event>)
    requires Inv(e, {}) && Legal(e, run) && StateOf(e, p) && Lasting(p) && forall ev <- run :: EventOf(ev, p)
    ensures Inv(Run(e, run), {}) && StateOf(Run(e, run), p)
    decreases |run|
  {
    if run != [] {
      hide Inv, StateOf, Lasting, EventOf;
      StepKeeps(e, run[0]);
      StepAre(e, p, run[0]);
      assert forall ev <- run[1..] :: ev in run;
      RunAre(Step(e, run[0]), p, run[1..]);
    }
  }

  // ---------- Safe prices ----------

  predicate SafePrice(o: Order) { o.price <= MAX_SAFE_PRICE }

  /** A property that leaves only safe prices. */
  ghost predicate Safe(p: Order -> bool) { forall o: Order :: p(o) ==> SafePrice(o) }

  lemma NextReturns(e: Engine, p: Order -> bool, now: real, carried: real)
    requires Inv(e, {}) && StateOf(e, p) && Safe(p) && e.pending != []
    ensures Enabled(e, Dequeue(now, carried))
  {
    PopKeeps(e);
    assert e.pending[0] in e.pending;
    if e.pending[0].CreateInput? {
      var o := e.pending[0].order;
      LoopStartInv(Pop(e), o);
      forall m | m in LoopStart(Pop(e), o).makers ensures m.price <= MAX_SAFE_PRICE { assert p(m) && SafePrice(m); }
      SafePricesSettle(LoopStart(Pop(e), o));
    }
  }

  lemma SafeStateReturns(e: Engine, p: Order -> bool, swept: real, now: real)
    requires Inv(e, {}) && StateOf(e, p) && Safe(p)
    ensures TickReturns(e, swept, now)
  {
    hide Inv, StateOf, Enabled, Safe;
    forall ids | SweepEnabled(e, swept, ids)
      ensures var mid := SweepAll(e, swept, ids); mid.pending != [] ==> Enabled(mid, Dequeue(now, 0.0))
    {
      SweepKeeps(e, swept, ids);
      SweepAre(e, p, swept, ids);
      var mid := SweepAll(e, swept, ids);
      if mid.pending != [] { NextReturns(mid, p, now, 0.0); }
    }
  }

  /**
   If no order is received with a price above 10^8, then in every state a run can reach every tick returns, whatever
   the clock.
   */
  lemma TicksReturn(run: seq<Event>, swept: real, now: real)
    requires Legal(INITIAL, run) && forall ev <- run :: EventOf(ev, SafePrice)
    ensures TickReturns(Run(INITIAL, run), swept, now)
  {
    InitialInv();
    RunAre(INITIAL, SafePrice, run);
    SafeStateReturns(Run(INITIAL, run), SafePrice, swept, now);
  }

  // ---------- An unsafe price ----------

  const DEAR_MAKER := Order(2, Sell, Limit, 200000000.0, 0, 1000.0, 0.0, 1.0, 0.0, 0.0, 0.0, 1.0)
  const TINY_TAKER := Order(1, Buy, Market, 200000000.0, 0, 1000.0, 0.0, 0.0, 0.0000001, 0.0, 0.0, 0.0)

  /** The maker rests and the taker waits. */
  function StuckState(): Engine {
    Engine([], [DEAR_MAKER], {2}, map[2 := 0, 1 := 1], 2, map[2 := Create, 1 := Create], [CreateInput(TINY_TAKER)], [],
           [Delta(Sell, 200000000.0, 1.0)])
  }

  /** The maker rests. */
  function RestingState(): Engine {
    Engine([], [DEAR_MAKER], {2}, map[2 := 0], 1, map[2 := Create], [], [], [Delta(Sell, 200000000.0, 1.0)])
  }

  lemma TinyTakerArrives()
    ensures Takes(RestingState(), Arrive(CreateInput(TINY_TAKER)), StuckState())
  {
  }

  lemma DearMakerRests(t: real)
    requires t <= DEAR_MAKER.expiry
    ensures Takes(INITIAL, Arrive(CreateInput(DEAR_MAKER)), Enqueue(INITIAL, DEAR_MAKER))
    ensures Takes(Enqueue(INITIAL, DEAR_MAKER), Dequeue(t, 0.0), RestingState())
  {
    var e1 := Enqueue(INITIAL, DEAR_MAKER);
    var s := LoopStart(Pop(e1), DEAR_MAKER);
    assert !Guard(s) && Settles(s);
    assert GreedyFill(s) == Outcome(DEAR_MAKER, UNLIMITED, [], [], []);
    assert e1.priority - {} == e1.priority && IdSet([]) == {};
    assert TradeDeltas(Buy, []) == [];
    var e2 := AfterMatch(Pop(e1), Sell, GreedyFill(s));
    assert Insert(Asks, e2.priority, [], DEAR_MAKER) == [DEAR_MAKER];
  }

  lemma TinyTakerMeetsDearMaker(s: LoopState)
    requires s == LoopState(TINY_TAKER, EPSILON, [DEAR_MAKER])
    ensures LoopInv(s) && Guard(s) && s.taker.UsesTotal() && s.budget < s.makers[0].price / UNITS_PER_ONE
  {
    assert s.makers[0] == DEAR_MAKER;
    assert s.makers[0].price == 200000000.0;
  }

  lemma TinyTakerStarts()
    ensures LoopStart(Pop(StuckState()), TINY_TAKER) == LoopState(TINY_TAKER, EPSILON, [DEAR_MAKER])
  {
    assert TINY_TAKER.MatchableTotal() == EPSILON;
  }

  lemma TinyTakerStalls()
    ensures var s := LoopStart(Pop(StuckState()), TINY_TAKER);
            LoopInv(s) && !Halts(s) && !Settles(s)
  {
    hide LoopInv, Settles, Halts, Guard, LoopStart, Order.UsesTotal;
    TinyTakerStarts();
    var s := LoopState(TINY_TAKER, EPSILON, [DEAR_MAKER]);
    TinyTakerMeetsDearMaker(s);
    NothingToBuyStalls(s);
    LoopTerminatesIff(s);
  }

  lemma Stuck(now: real, carried: real)
    requires now <= TINY_TAKER.expiry
    ensures StuckState().pending == [CreateInput(TINY_TAKER)] && !Enabled(StuckState(), Dequeue(now, carried))
  {
    TinyTakerStalls();
    hide LoopInv, Settles, LoopStart;
    assert !TINY_TAKER.Expired(now) && StuckState().pending[0] == CreateInput(TINY_TAKER);
  }

  /**
   Above 10^8 a tick need not return: a maker at 2*10^8 comes to rest, a market order with a total of 10^-7 follows, and
   as long as that has not expired the engine can never get past it.
   */
  lemma UnsafePriceStalls(t: real, now: real, carried: real)
    requires t <= DEAR_MAKER.expiry && now <= TINY_TAKER.expiry
    ensures var run := [Arrive(CreateInput(DEAR_MAKER)), Dequeue(t, 0.0), Arrive(CreateInput(TINY_TAKER))];
            && Legal(INITIAL, run)
            && var e := Run(INITIAL, run);
               && e.pending == [CreateInput(TINY_TAKER)] && !Enabled(e, Dequeue(now, carried))
               && LoopInv(LoopStart(Pop(e), TINY_TAKER)) && !Halts(LoopStart(Pop(e), TINY_TAKER))
  {
    var run := [Arrive(CreateInput(DEAR_MAKER)), Dequeue(t, 0.0), Arrive(CreateInput(TINY_TAKER))];
    hide StuckState, RestingState, Enqueue, Settles, LoopInv, Halts, Takes, Enabled, LoopStart, Legal, Run;
    DearMakerRests(t);
    TinyTakerArrives();
    TinyTakerStalls();
    Stuck(now, carried);
    Follow([INITIAL, Enqueue(INITIAL, DEAR_MAKER), RestingState(), StuckState()], run);
  }
}
