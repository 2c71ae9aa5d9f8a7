/** What the engine puts out: the outputs of every step, and how every order that came ends. */
module EngineOutputs {
  import opened Decimals
  import opened Orders
  import opened Matching
  import opened Fills
  import opened Queues
  import opened EngineModel
  import opened EngineInvariant
  import opened EngineRuns
  import opened EngineLedger
  import opened Accounting
  import opened EnginePriority

  // ---------- One processed order ----------

  /** What the trades leave of an order: of its total, less the fee, at least EPSILON, or of its remaining anything. */
  predicate SomethingLeft(o: Order, trades: seq<Trade>) {
    if o.kind.Market? && o.total > 0.0 then o.total * (1.0 - o.feeRate) - ValueOf(trades, o.id) >= EPSILON
    else QuantityOf(trades, o.id) < o.remaining
  }

  /** The taker's books agree with the trades, whoever the makers are. */
  lemma {:induction false} TakerIsAccounted(s: LoopState)
    requires LoopInv(s)
    ensures Accounts(s.taker, GreedyFill(s).taker, GreedyFill(s).trades)
    decreases |s.makers|
  {
    if Guard(s) && FrontQuantity(s) != 0.0 {
      GreedyStep(s);
      BodyKeeps(s);
      QuantityFacts(s);
      AccountsFill(s.taker, s.makers[0].price, FrontQuantity(s), FrontTrade(s));
      hide Order.Fill, FrontTrade, Accounts, GreedyFill;
      if FrontAfter(s).remaining <= 0.0 {
        TakerIsAccounted(Body(s));
        AccountsChain(s.taker, Body(s).taker, GreedyFill(Body(s)).taker, [FrontTrade(s)], GreedyFill(Body(s)).trades);
      }
    } else {
      AccountsNothing(s.taker, []);
    }
  }

  lemma LeftOver(o: Order, taker: Order, budget: real, trades: seq<Trade>)
    requires Accounts(o, taker, trades) && o.WellFormed()
    requires o.UsesTotal() ==> budget == o.MatchableTotal() - ValueOf(trades, o.id) >= 0.0
    ensures taker.CanMatch(budget) <==> SomethingLeft(o, trades)
  {
    hide QuantityOf, ValueOf, Order.NetFilled, Order.NetNotional;
  }

  /** Whether the taker can still match when the loop is over. */
  lemma LeftIff(e: Engine, o: Order)
    requires o.WellFormed() && LoopInv(LoopStart(e, o))
    ensures var g := GreedyFill(LoopStart(e, o));
            && (g.taker.CanMatch(g.budget) <==> SomethingLeft(o, g.trades))
            && Accounts(o, g.taker, g.trades)
  {
    hide GreedyFill, LoopInv, QuantityOf, ValueOf, Accounts, SomethingLeft, Order.CanMatch;
    var g := GreedyFill(LoopStart(e, o));
    TakerIsAccounted(LoopStart(e, o));
    BudgetSpent(LoopStart(e, o));
    LeftOver(o, g.taker, g.budget, g.trades);
  }

  /**
   What processing an order puts out: its trades in one output, if there are any, and then its cancel exactly if it was
   expired, or is a market order of which something is left.
   */
  lemma ProcessedOutputs(e: Engine, o: Order, now: real)
    requires o.WellFormed() && LoopInv(LoopStart(e, o))
    ensures var trades := if o.expiry < now then [] else GreedyFill(LoopStart(e, o)).trades;
            var cancelled := o.expiry < now || (o.kind.Market? && SomethingLeft(o, trades));
            Submit(e, o, now).outputs == e.outputs + (if trades == [] then [] else [MatchOutput(trades)])
                                         + (if cancelled then [CancelOutput(o.id)] else [])
  {
    if o.expiry < now {
      assert e.outputs + [] == e.outputs;
    } else {
      hide GreedyFill, LoopInv, SomethingLeft, Order.CanMatch, QuantityOf, Insert, TradeDeltas, IdSet;
      hide Order.NetFilled, Order.NetNotional;
      LeftIff(e, o);
      assert e.outputs + [] == e.outputs;
    }
  }

  // ---------- Every step ----------

  function Cancels(ids: seq<int>): seq<Output> {
    seq(|ids|, i requires 0 <= i < |ids| => CancelOutput(ids[i]))
  }

  lemma CancelsSplit(ids: seq<int>, outputs: seq<Output>)
    requires ids != []
    ensures outputs + [CancelOutput(ids[0])] + Cancels(ids[1..]) == outputs + Cancels(ids)
  {
    assert Cancels(ids) == [CancelOutput(ids[0])] + Cancels(ids[1..]);
  }

  lemma NoCancels(outputs: seq<Output>)
    ensures outputs + Cancels([]) == outputs
  {
  }

  lemma {:induction false} SweepOutputs(e: Engine, now: real, ids: seq<int>)
    requires SweepEnabled(e, now, ids)
    ensures SweepAll(e, now, ids).outputs == e.outputs + Cancels(ids)
    decreases |ids|
  {
    hide Expire, OrderOf, Cancels;
    if ids != [] {
      ExpireOutputs(e, ids[0]);
      SweepOutputs(Expire(e, ids[0]), now, ids[1..]);
      CancelsSplit(ids, e.outputs);
    } else {
      NoCancels(e.outputs);
    }
  }

  lemma ExpireOutputs(e: Engine, id: int)
    requires id in e.BookIds()
    ensures Expire(e, id).outputs == e.outputs + [CancelOutput(id)]
  {
    hide OrderOf, Remove;
  }

  /**
   A message puts out a cancel exactly if it cancels an order never created; a sweep puts out one cancel for each order
   swept, in order; a dequeued cancel puts out one cancel; and nothing else puts out anything but processing an order.
   */
  lemma StepOutputs(e: Engine, ev: Event)
    requires Enabled(e, ev)
    ensures ev.Arrive? ==>
              Step(e, ev).outputs == e.outputs + if ev.input.CancelInput? && ev.input.cancelId !in e.received
                                                 then [CancelOutput(ev.input.cancelId)] else []
    ensures ev.Sweep? ==> Step(e, ev).outputs == e.outputs + Cancels(ev.ids)
    ensures ev.Dequeue? && e.pending[0].CancelInput? ==>
              Step(e, ev).outputs == e.outputs + [CancelOutput(e.pending[0].cancelId)]
    ensures ev.Dequeue? && e.pending[0].CreateInput? ==>
              && e.pending[0].order.WellFormed() && LoopInv(LoopStart(e, e.pending[0].order))
              && Step(e, ev).outputs == Submit(e, e.pending[0].order, ev.now).outputs
  {
    match ev
    case Arrive(_) =>
      hide Remove;
    case Sweep(now, ids) =>
      SweepOutputs(e, now, ids);
    case Dequeue(now, _) =>
      if e.pending[0].CreateInput? {
        ProcessingOutputs(e, e.pending[0].order, now);
        hide Submit, LoopInv, AllResting, Settles;
      } else {
        hide Remove;
      }
  }

  /** An order's outputs do not depend on what else waits. */
  lemma ProcessingOutputs(e: Engine, o: Order, now: real)
    requires e.pending != [] && o.WellFormed() && AllResting(e.Book(o.side.Opposite()), o.side.Opposite())
    ensures LoopInv(LoopStart(e, o)) && Submit(Pop(e), o, now).outputs == Submit(e, o, now).outputs
  {
    LoopStartInv(e, o);
    assert LoopStart(Pop(e), o) == LoopStart(e, o);
    hide GreedyFill, LoopInv, AllResting, Insert, Remove, TradeDeltas;
  }

  /** The orders swept are exactly those that are expired. */
  lemma {:induction false} SweptAreExpired(e: Engine, now: real, ids: seq<int>, o: Order)
    requires Inv(e, {}) && SweepEnabled(e, now, ids) && InBook(e, o)
    ensures o.id in ids <==> o.expiry < now
    ensures InBook(SweepAll(e, now, ids), o) <==> !(o.expiry < now)
    decreases |ids|
  {
    hide Inv, Expire, OrderOf, InBook, ExpiresFirst;
    if ids != [] {
      var id := ids[0];
      assert ids == [id] + ids[1..];
      FirstIsExpired(e, now, id);
      ExpireKeeps(e, id);
      ExpiredLeaves(e, id, o);
      if o.id == id {
        TheOneExpired(e, id, o);
        SweptStaysOut(Expire(e, id), now, ids[1..], o);
      } else {
        SweptAreExpired(Expire(e, id), now, ids[1..], o);
      }
    }
  }

  lemma FirstIsExpired(e: Engine, now: real, id: int)
    requires ExpiresFirst(e, now, id)
    ensures id in e.BookIds() && OrderOf(e, id).expiry < now
  {
  }

  lemma TheOneExpired(e: Engine, id: int, o: Order)
    requires Inv(e, {}) && id in e.BookIds() && InBook(e, o) && o.id == id
    ensures o == OrderOf(e, id)
  {
    OrderOfFacts(e, id);
    hide OrderOf;
    InvBook(e);
    InBookUnique(e, o, OrderOf(e, id));
  }

  lemma InvBook(e: Engine)
    requires Inv(e, {})
    ensures BookInv(e)
  {
  }

  /** Expiring takes the one order out of the book. */
  lemma ExpiredLeaves(e: Engine, id: int, o: Order)
    requires Inv(e, {}) && id in e.BookIds() && InBook(e, o)
    ensures InBook(Expire(e, id), o) <==> o.id != id
  {
    OrderOfFacts(e, id);
    var side := OrderOf(e, id).side;
    RemoveFacts(e.Book(side), id);
    hide OrderOf, Remove;
    assert o in e.Book(side.Opposite()) ==> o.id in IdSet(e.Book(side.Opposite()));
  }

  lemma {:induction false} SweptStaysOut(e: Engine, now: real, ids: seq<int>, o: Order)
    requires Inv(e, {}) && SweepEnabled(e, now, ids) && !InBook(e, o)
    ensures !InBook(SweepAll(e, now, ids), o)
    decreases |ids|
  {
    if ids != [] {
      ExpireKeeps(e, ids[0]);
      RemovedFewer(e, ids[0], o);
      hide Inv, Expire, InBook;
      SweptStaysOut(Expire(e, ids[0]), now, ids[1..], o);
    }
  }

  lemma RemovedFewer(e: Engine, id: int, o: Order)
    requires Inv(e, {}) && id in e.BookIds() && !InBook(e, o)
    ensures !InBook(Expire(e, id), o)
  {
    RemoveFacts(e.Book(OrderOf(e, id).side), id);
    hide OrderOf, Remove;
  }

  // ---------- How every order ends ----------

  /** There is nothing left to trade: of the total, less the fee, less than EPSILON, or of the remaining nothing. */
  predicate UsedUp(first: Order, last: Order) {
    if first.UsesTotal() then first.ExcludingFee(first.total) - (last.NetNotional() - first.NetNotional()) < EPSILON
    else last.remaining <= 0.0
  }

  /** A processed order rests as it is, or has nothing left, or its cancel has been put out. */
  ghost predicate Told(e: Engine, l: Ledger, id: int) {
    id in l.now && id in l.submitted ==>
      || CancelOutput(id) in e.outputs
      || UsedUp(l.submitted[id], l.now[id])
      || (l.now[id].kind.Limit? && InBook(e, l.now[id]))
  }

  ghost predicate AllTold(e: Engine, l: Ledger) { forall id :: Told(e, l, id) }

  /** Orders leave the book with a cancel only. */
  ghost predicate LeavesWithCancel(e: Engine, e': Engine) {
    && (forall x <- e.outputs :: x in e'.outputs)
    && forall o | InBook(e, o) :: InBook(e', o) || CancelOutput(o.id) in e'.outputs
  }

  lemma ToldFrame(e: Engine, e': Engine, l: Ledger)
    requires AllTold(e, l) && LedgerInv(e, l) && LeavesWithCancel(e, e')
    ensures AllTold(e', l)
  {
    hide UsedUp, AllTrades, WithinLimits, Accounts;
    forall id ensures Told(e', l, id) {
      assert Told(e, l, id) && RowInv(e, l, id);
      if id in l.now && InBook(e, l.now[id]) { SameAccountId(e, l, id); }
    }
  }

  lemma SameAccountId(e: Engine, l: Ledger, id: int)
    requires RowInv(e, l, id) && id in l.now
    ensures id in l.submitted && l.now[id].id == id && l.now[id].SameOrder(l.submitted[id])
  {
  }

  lemma CancelLeaves(e: Engine, id: int, side: Side, price: real, amount: real, inOrderbook: bool)
    requires BookInv(e)
    ensures LeavesWithCancel(e, CancelOrder(e, id, side, price, amount, inOrderbook))
  {
    var e' := CancelOrder(e, id, side, price, amount, inOrderbook);
    RemoveFacts(e.Book(side), id);
    hide Remove, SideInv, Uncrossed;
    assert e'.outputs[|e.outputs|] == CancelOutput(id);
    forall o | InBook(e, o) ensures InBook(e', o) || CancelOutput(o.id) in e'.outputs {
      if o.id == id { assert CancelOutput(o.id) in e'.outputs; }
    }
  }

  lemma {:induction false} SweepLeaves(e: Engine, l: Ledger, now: real, ids: seq<int>)
    requires Inv(e, {}) && SweepEnabled(e, now, ids) && AllTold(e, l) && LedgerInv(e, l)
    ensures AllTold(SweepAll(e, now, ids), l)
    decreases |ids|
  {
    if ids != [] {
      hide AllTold, LedgerInv;
      var o := OrderOf(e, ids[0]);
      CancelLeaves(e, ids[0], o.side, o.price, o.remaining, true);
      CancelFrame(e, l, ids[0], o.side, o.price, o.remaining, true);
      ExpireKeeps(e, ids[0]);
      hide Inv;
      ToldFrame(e, Expire(e, ids[0]), l);
      SweepLeaves(Expire(e, ids[0]), l, now, ids[1..]);
    }
  }

  lemma ArriveLeaves(e: Engine, input: Input)
    requires Inv(e, {})
    ensures LeavesWithCancel(e, Receive(e, input))
  {
    if input.Id() !in e.received && input.CancelInput? {
      CancelLeaves(e, input.Id(), input.side, input.price, 0.0, false);
    }
  }

  /** Where a maker of a processed order is afterwards. */
  lemma MakerTold(e: Engine, l: Ledger, o: Order, now: real, i: nat)
    requires o.WellFormed() && RowsHold(l.now, LoopStart(e, o)) && i < |LoopStart(e, o).makers| && !o.Expired(now)
    ensures var g, m := GreedyFill(LoopStart(e, o)), LoopStart(e, o).makers[i];
            var rows := MatchedRows(l.now, g);
            && m.id in rows && rows[m.id].kind.Limit?
            && (rows[m.id].remaining <= 0.0 || rows[m.id] in Submit(e, o, now).Book(o.side.Opposite()))
  {
    var s := LoopStart(e, o);
    MakersLeft(e, o, now);
    MatchedRowsFacts(l.now, s);
    MakerAfter(s, i);
    hide GreedyFill, MatchedRows, LoopInv, Submit, RowsHold, After;
  }

  lemma MakerAfter(s: LoopState, i: nat)
    requires LoopInv(s) && i < |s.makers|
    ensures var g := GreedyFill(s);
            && i < |After(g)| && After(g)[i].kind.Limit? && (After(g)[i].remaining <= 0.0 || After(g)[i] in g.left)
  {
    FillInPriority(s);
    AfterIsSame(s);
    assert s.makers[i] in s.makers;
    var g := GreedyFill(s);
    hide GreedyFill, LoopInv;
    assert After(g)[i].SameOrder(s.makers[i]) && s.makers[i].kind.Limit?;
    if i >= |g.done| { assert After(g)[i] == g.left[i - |g.done|]; } else { assert After(g)[i] == g.done[i]; }
  }

  /** And where the order itself is. */
  lemma TakerTold(e: Engine, o: Order, now: real)
    requires o.WellFormed() && LoopInv(LoopStart(e, o)) && !o.Expired(now)
    ensures var g, e' := GreedyFill(LoopStart(e, o)), Submit(e, o, now);
            || CancelOutput(o.id) in e'.outputs
            || UsedUp(o, g.taker)
            || (g.taker.kind.Limit? && InBook(e', g.taker))
  {
    hide GreedyFill, LoopInv, Submit, SomethingLeft, UsedUp, Accounts, InBook;
    var g := GreedyFill(LoopStart(e, o));
    LeftIff(e, o);
    if o.kind.Market? && SomethingLeft(o, g.trades) {
      CancelIsOut(e, o, now);
    } else if !SomethingLeft(o, g.trades) {
      NothingLeft(o, g.taker, g.trades);
    } else {
      TakerRests(e, o, now);
    }
  }

  lemma CancelIsOut(e: Engine, o: Order, now: real)
    requires o.WellFormed() && LoopInv(LoopStart(e, o)) && !o.Expired(now)
    requires o.kind.Market? && SomethingLeft(o, GreedyFill(LoopStart(e, o)).trades)
    ensures CancelOutput(o.id) in Submit(e, o, now).outputs
  {
    hide GreedyFill, LoopInv, Submit, SomethingLeft;
    ProcessedOutputs(e, o, now);
    assert CancelOutput(o.id) in [CancelOutput(o.id)];
  }

  lemma NothingLeft(o: Order, taker: Order, trades: seq<Trade>)
    requires Accounts(o, taker, trades) && !SomethingLeft(o, trades)
    ensures UsedUp(o, taker)
  {
    hide QuantityOf, ValueOf, Order.NetFilled, Order.NetNotional;
  }

  lemma TakerRests(e: Engine, o: Order, now: real)
    requires o.WellFormed() && LoopInv(LoopStart(e, o)) && !o.Expired(now)
    requires o.kind.Limit? && SomethingLeft(o, GreedyFill(LoopStart(e, o)).trades)
    ensures var g := GreedyFill(LoopStart(e, o)); g.taker.kind.Limit? && InBook(Submit(e, o, now), g.taker)
  {
    hide GreedyFill, LoopInv, QuantityOf, ValueOf, Insert, TradeDeltas, IdSet, Order.NetFilled, Order.NetNotional;
    var g := GreedyFill(LoopStart(e, o));
    LeftIff(e, o);
    var e1 := AfterMatch(e, o.side, g);
    InsertFacts(RankingOf(o.side), e1.priority, e1.Book(o.side), g.taker);
  }

  lemma SubmitGrows(e: Engine, o: Order, now: real)
    requires o.WellFormed() && LoopInv(LoopStart(e, o)) && !o.Expired(now)
    ensures forall x <- e.outputs :: x in Submit(e, o, now).outputs
    ensures forall b <- e.Book(o.side) :: b in Submit(e, o, now).Book(o.side)
  {
    ProcessedOutputs(e, o, now);
    OutcomeKeeps(LoopStart(e, o));
    var g := GreedyFill(LoopStart(e, o));
    var e1 := AfterMatch(e, o.side, g);
    InsertFacts(RankingOf(o.side), e1.priority, e1.Book(o.side), g.taker);
    hide GreedyFill, LoopInv, SomethingLeft, Insert, TradeDeltas, IdSet;
  }

  lemma RowTold(e: Engine, l: Ledger, o: Order, now: real, id: int)
    requires LedgerInv(e, l) && AllTold(e, l) && RowsHold(l.now, LoopStart(e, o)) && o.WellFormed() && !o.Expired(now)
    ensures Told(Submit(e, o, now), RecordOrder(l, e, o, now), id)
  {
    var s := LoopStart(e, o);
    var e', l' := Submit(e, o, now), RecordOrder(l, e, o, now);
    RowsUnderIds(e, l, id);
    MatchedRowsFacts(l.now, s);
    assert Told(e, l, id) && (id in l.now ==> id in l.submitted);
    assert LoopInv(s);
    hide LedgerInv, AllTold, Submit, GreedyFill, MatchedRows, LoopInv;
    if id == o.id {
      TakerTold(e, o, now);
    } else if HasId(s.makers, id) {
      var i :| 0 <= i < |s.makers| && s.makers[i].id == id;
      MakerTold(e, l, o, now, i);
      assert id in l.now && l.now[id].kind.Limit? by { MakersAreLimit(l, s, i); }
      SameAccountId(e, l, id);
    } else if id in l.now {
      SubmitGrows(e, o, now);
      if InBook(e, l.now[id]) { StrangerStays(e, l, o, id); }
    }
  }

  lemma MakersAreLimit(l: Ledger, s: LoopState, i: nat)
    requires RowsHold(l.now, s) && i < |s.makers|
    ensures s.makers[i].id in l.now && l.now[s.makers[i].id].kind.Limit?
  {
    assert s.makers[i] in s.makers;
  }

  /** An order in the book that is not a maker is on the taker's own side. */
  lemma StrangerStays(e: Engine, l: Ledger, o: Order, id: int)
    requires id in l.now && RowInv(e, l, id) && InBook(e, l.now[id]) && !HasId(e.Book(o.side.Opposite()), id)
    ensures l.now[id] in e.Book(o.side)
  {
    SameAccountId(e, l, id);
    NotThere(e.Book(o.side.Opposite()), l.now[id]);
  }

  lemma NotThere(q: seq<Order>, b: Order)
    requires !HasId(q, b.id)
    ensures b !in q
  {
    forall i | 0 <= i < |q| ensures q[i] != b { assert q[i].id != b.id; }
  }

  lemma SubmitTold(e: Engine, l: Ledger, o: Order, now: real)
    requires Inv(e, {o.id}) && LedgerInv(e, l) && AllTold(e, l) && o.WellFormed() && o.id !in l.now
    requires LoopInv(LoopStart(e, o))
    ensures AllTold(Submit(e, o, now), RecordOrder(l, e, o, now))
  {
    var e', l' := Submit(e, o, now), RecordOrder(l, e, o, now);
    if o.Expired(now) {
      CancelLeaves(e, o.id, o.side, o.price, 0.0, false);
      ToldFrame(e, e', l);
      assert e'.outputs[|e.outputs|] == CancelOutput(o.id);
      hide Inv, LedgerInv, LoopInv, UsedUp, CancelOrder;
      forall id ensures Told(e', l', id) {
        assert Told(e', l, id);
        if id == o.id { assert CancelOutput(id) in e'.outputs; }
      }
    } else {
      ReadyRows(e, l, o);
      hide Inv, LedgerInv, LoopInv, Submit, RecordOrder, Told;
      forall id ensures Told(e', l', id) { RowTold(e, l, o, now, id); }
    }
  }

  lemma StepTold(e: Engine, l: Ledger, ev: Event)
    requires Inv(e, {}) && LedgerInv(e, l) && AllTold(e, l) && Enabled(e, ev)
    ensures AllTold(Step(e, ev), Record(l, e, ev))
  {
    match ev
    case Arrive(input) =>
      ArriveLeaves(e, input);
      ToldFrame(e, Receive(e, input), l);
    case Sweep(now, ids) => SweepLeaves(e, l, now, ids);
    case Dequeue(now, carried) =>
      PopKeeps(e);
      PopFrame(e, l);
      assert LeavesWithCancel(e, Pop(e));
      ToldFrame(e, Pop(e), l);
      match e.pending[0] {
        case CreateInput(o) =>
          LoopStartInv(Pop(e), o);
          hide Inv, LedgerInv, LoopInv, Submit, RecordOrder, AllTold;
          SubmitTold(Pop(e), l, o, now);
        case CancelInput(id, side, price) =>
          CancelLeaves(Pop(e), id, side, price, carried, true);
          ToldFrame(Pop(e), CancelOrder(Pop(e), id, side, price, carried, true), l);
      }
  }

  /** A create that has come waits or has been processed. */
  ghost predicate Taken(e: Engine, l: Ledger) {
    forall id <- e.received :: id in PendingCreates(e.pending) || id in l.now
  }

  lemma ArriveTaken(e: Engine, l: Ledger, input: Input)
    requires Taken(e, l)
    ensures Taken(Receive(e, input), l)
  {
    PendingCreatesAppend(e.pending, input);
  }

  lemma RecordKeys(e: Engine, l: Ledger, o: Order, now: real)
    requires Inv(e, {o.id}) && LedgerInv(e, l) && o.WellFormed() && o.id !in l.now && LoopInv(LoopStart(e, o))
    ensures RecordOrder(l, e, o, now).now.Keys == l.now.Keys + {o.id}
  {
    KeysAfterSubmit(e, l, o, now);
  }

  lemma StepTaken(e: Engine, l: Ledger, ev: Event)
    requires Inv(e, {}) && LedgerInv(e, l) && Taken(e, l) && Enabled(e, ev)
    ensures Taken(Step(e, ev), Record(l, e, ev))
  {
    StepQueues(e, ev);
    match ev
    case Arrive(input) => ArriveTaken(e, l, input);
    case Sweep(now, ids) =>
    case Dequeue(now, carried) =>
      PopKeeps(e);
      PopFrame(e, l);
      PopPending(e.pending);
      if e.pending[0].CreateInput? {
        LoopStartInv(Pop(e), e.pending[0].order);
        RecordKeys(Pop(e), l, e.pending[0].order, now);
      }
      hide Inv, LedgerInv, LoopInv, Step, RecordOrder, PendingCreates;
  }

  lemma {:induction false} RunTold(e: Engine, l: Ledger, run: seq<Event>)
    requires Inv(e, {}) && LedgerInv(e, l) && AllTold(e, l) && Taken(e, l) && Legal(e, run)
    ensures AllTold(Run(e, run), LedgerAfter(e, l, run)) && Taken(Run(e, run), LedgerAfter(e, l, run))
    decreases |run|
  {
    if run != [] {
      hide Inv, LedgerInv, AllTold, Taken, Step, Record, Enabled, Proper;
      StepKeeps(e, run[0]);
      StepLedger(e, l, run[0]);
      StepTold(e, l, run[0]);
      StepTaken(e, l, run[0]);
      RunTold(Step(e, run[0]), Record(l, e, run[0]), run[1..]);
    }
  }

  /** Every order created in a run still waits or has been processed. */
  lemma CreatesAreTaken(run: seq<Event>, id: int)
    requires Legal(INITIAL, run) && id in Came(run)
    ensures id in PendingCreates(Run(INITIAL, run).pending) || id in LedgerAfter(INITIAL, EMPTY_LEDGER, run).now
  {
    InitialInv();
    CameOnce(run);
    RunTold(INITIAL, EMPTY_LEDGER, run);
  }

  /**
   Over any run every processed order for which no cancel has been put out has traded all it asked for, or, a limit
   order, rests with what it has left. Of a total all but EPSILON is traded.
   */
  lemma EveryOrderEnds(run: seq<Event>, id: int, first: Order, last: Order, trades: seq<Trade>)
    requires Processed(run, id, first, last, trades)
    ensures var e := Run(INITIAL, run);
            || CancelOutput(id) in e.outputs
            || (if first.kind.Market? && first.total > 0.0
                then first.total * (1.0 - first.feeRate) - ValueOf(trades, id) < EPSILON
                else QuantityOf(trades, id) >= first.remaining)
            || (first.kind.Limit? && InBook(e, last)
                && last.remaining == first.remaining - QuantityOf(trades, id) > 0.0)
  {
    hide Legal, Run, LedgerAfter, QuantityOf, ValueOf, Accounts, UsedUp, WithinLimits;
    ToldAtEnd(run, id);
    ProcessedRow(run, id, first, last, trades);
    hide Processed;
    UsedUpByTrades(first, last, trades);
  }

  lemma ToldAtEnd(run: seq<Event>, id: int)
    requires Legal(INITIAL, run)
    ensures Told(Run(INITIAL, run), LedgerAfter(INITIAL, EMPTY_LEDGER, run), id)
  {
    InitialInv();
    RunTold(INITIAL, EMPTY_LEDGER, run);
  }

  lemma UsedUpByTrades(first: Order, last: Order, trades: seq<Trade>)
    requires Accounts(first, last, trades)
    ensures UsedUp(first, last) <==>
      if first.kind.Market? && first.total > 0.0
      then first.total * (1.0 - first.feeRate) - ValueOf(trades, first.id) < EPSILON
      else QuantityOf(trades, first.id) >= first.remaining
    ensures last.kind == first.kind
    ensures first.kind.Limit? ==> last.remaining == first.remaining - QuantityOf(trades, first.id)
  {
    hide QuantityOf, ValueOf, Order.NetFilled, Order.NetNotional;
  }
}
