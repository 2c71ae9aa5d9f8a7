/**
 Per-order accounting over whole runs: the ledger holds every order the engine has processed, as it was
 submitted and as it is now, and the two always differ by exactly the trades the engine has put out.
 */
module EngineLedger {
  import opened Decimals
  import opened Orders
  import opened Matching
  import opened Fills
  import opened Queues
  import opened EngineModel
  import opened EngineInvariant
  import opened EngineRuns

  datatype Ledger = Ledger(submitted: map<int, Order>, now: map<int, Order>)

  const EMPTY_LEDGER := Ledger(map[], map[])

  function Store(rows: map<int, Order>, orders: seq<Order>): map<int, Order> {
    if orders == [] then rows else Store(rows, orders[1..])[orders[0].id := orders[0]]
  }

  /** The rows after one order has been matched. */
  function MatchedRows(rows: map<int, Order>, g: Outcome): map<int, Order> {
    Store(rows, After(g))[g.taker.id := g.taker]
  }

  /** The order objects `processOrder` leaves behind. */
  function RecordOrder(l: Ledger, e: Engine, o: Order, now: real): Ledger
    requires LoopInv(LoopStart(e, o))
  {
    Ledger(l.submitted[o.id := o],
           if o.Expired(now) then l.now[o.id := o] else MatchedRows(l.now, GreedyFill(LoopStart(e, o))))
  }

  /** The order objects a step of the engine leaves behind. */
  ghost function Record(l: Ledger, e: Engine, ev: Event): Ledger
    requires Enabled(e, ev)
  {
    if ev.Dequeue? && e.pending[0].CreateInput? then
      LoopStartInv(Pop(e), e.pending[0].order);
      RecordOrder(l, Pop(e), e.pending[0].order, ev.now)
    else l
  }

  function AllTrades(outputs: seq<Output>): seq<Trade> {
    if outputs == [] then []
    else AllTrades(outputs[..|outputs| - 1])
         + match outputs[|outputs| - 1] { case MatchOutput(trades) => trades case CancelOutput(_) => [] }
  }

  lemma AllTradesAppend(outputs: seq<Output>, x: Output)
    ensures AllTrades(outputs + [x])
            == AllTrades(outputs) + match x { case MatchOutput(trades) => trades case CancelOutput(_) => [] }
  {
    assert (outputs + [x])[..|outputs|] == outputs;
  }

  lemma StoreFacts(rows: map<int, Order>, orders: seq<Order>)
    requires DistinctIds(orders)
    ensures Store(rows, orders).Keys == rows.Keys + IdSet(orders)
    ensures forall i :: 0 <= i < |orders| ==>
      orders[i].id in Store(rows, orders) && Store(rows, orders)[orders[i].id] == orders[i]
    ensures forall id :: id in rows && id !in IdSet(orders) ==> Store(rows, orders)[id] == rows[id]
  {
    if orders != [] {
      HasIdInTail(orders, orders[0].id);
      StoreFacts(rows, orders[1..]);
      assert orders == [orders[0]] + orders[1..];
      forall i | 0 <= i < |orders| ensures orders[i].id in Store(rows, orders)
        && Store(rows, orders)[orders[i].id] == orders[i] {
        if i > 0 { assert orders[1..][i - 1] == orders[i]; assert orders[i].id != orders[0].id; }
      }
    }
  }

  /** Quantities and values an order traded over a run's outputs. */
  function Quantity(e: Engine, id: int): real { QuantityOf(AllTrades(e.outputs), id) }

  function Value(e: Engine, id: int): real { ValueOf(AllTrades(e.outputs), id) }

  /** What holds of one id in the ledger. */
  ghost predicate RowInv(e: Engine, l: Ledger, id: int) {
    if id in l.now then
      && id in l.submitted && l.submitted[id].id == id
      && l.submitted[id].WellFormed()
      && Accounts(l.submitted[id], l.now[id], AllTrades(e.outputs))
      && l.now[id].WellFormed()
      && (l.submitted[id].UsesTotal() ==> Value(e, id) <= l.submitted[id].MatchableTotal())
      && (!l.submitted[id].UsesTotal() && l.submitted[id].remaining >= 0.0 ==> l.now[id].remaining >= 0.0)
    else Quantity(e, id) == 0.0 && Value(e, id) == 0.0
  }

  /** A trade is between submitted orders of opposite sides, at a price within both their limits. */
  ghost predicate WithinLimits(l: Ledger, t: Trade) {
    && t.buyId in l.submitted && t.sellId in l.submitted
    && l.submitted[t.buyId].side.Buy? && l.submitted[t.sellId].side.Sell?
    && l.submitted[t.sellId].price <= t.price <= l.submitted[t.buyId].price
    && t.quantity > 0.0 && t.price > 0.0
  }

  ghost predicate LedgerInv(e: Engine, l: Ledger) {
    && l.now.Keys == l.submitted.Keys <= e.received.Keys
    && l.now.Keys !! PendingCreates(e.pending)
    && (forall o | InBook(e, o) :: o.id in l.now && l.now[o.id] == o)
    && (forall id :: RowInv(e, l, id))
    && (forall t <- AllTrades(e.outputs) :: WithinLimits(l, t))
  }

  // ---------- One processed order ----------

  lemma AfterDistinct(s: LoopState)
    requires LoopInv(s) && DistinctIds(s.makers)
    ensures DistinctIds(After(GreedyFill(s))) && IdSet(After(GreedyFill(s))) == IdSet(s.makers)
    ensures |After(GreedyFill(s))| == |s.makers|
  {
    AfterIsSame(s);
    var a := After(GreedyFill(s));
    hide GreedyFill;
    forall id ensures id in IdSet(a) <==> id in IdSet(s.makers) {
      IdSetIff(a, id);
      IdSetIff(s.makers, id);
      if HasId(a, id) {
        var i :| 0 <= i < |a| && a[i].id == id;
        assert s.makers[i].id == id;
      }
      if HasId(s.makers, id) {
        var i :| 0 <= i < |s.makers| && s.makers[i].id == id;
        assert a[i].id == id;
      }
    }
  }

  /** The rows a loop starts from: every maker is in its row, the taker has none yet. */
  ghost predicate RowsHold(rows: map<int, Order>, s: LoopState) {
    && LoopInv(s) && DistinctIds(s.makers)
    && s.taker.id !in rows
    && forall m <- s.makers :: m.id in rows && rows[m.id] == m
  }

  lemma MatchedRowsFacts(rows: map<int, Order>, s: LoopState)
    requires RowsHold(rows, s)
    ensures var g := GreedyFill(s);
            var rows' := MatchedRows(rows, g);
            && rows'.Keys == rows.Keys + {s.taker.id}
            && rows'[s.taker.id] == g.taker
            && |After(g)| == |s.makers|
            && (forall i :: 0 <= i < |s.makers| ==> s.makers[i].id in rows' && rows'[s.makers[i].id] == After(g)[i])
            && (forall id :: id in rows && !HasId(s.makers, id) ==> rows'[id] == rows[id])
  {
    var g := GreedyFill(s);
    AfterDistinct(s);
    AfterIsSame(s);
    OutcomeKeeps(s);
    StoreFacts(rows, After(g));
    hide GreedyFill, Store;
    forall id ensures id in IdSet(s.makers) <==> HasId(s.makers, id) { IdSetIff(s.makers, id); }
    forall i | 0 <= i < |s.makers| ensures s.makers[i].id in rows && s.makers[i].id == After(g)[i].id {
      assert s.makers[i] in s.makers;
    }
  }

  /** A row moved by trades that left it sound. */
  ghost predicate Moves(before: Order, after: Order, trades: seq<Trade>) {
    && Accounts(before, after, trades)
    && (before.WellFormed() ==> after.WellFormed())
    && (!before.UsesTotal() && before.remaining >= 0.0 ==> after.remaining >= 0.0)
  }

  lemma TakerNotMaker(rows: map<int, Order>, s: LoopState)
    requires RowsHold(rows, s)
    ensures !HasId(s.makers, s.taker.id)
  {
    assert forall m <- s.makers :: m.id != s.taker.id;
  }

  lemma StrangerMoves(o: Order, trades: seq<Trade>)
    requires QuantityOf(trades, o.id) == ValueOf(trades, o.id) == 0.0
    ensures Moves(o, o, trades)
  {
  }

  lemma MakerMoves(rows: map<int, Order>, s: LoopState, i: nat)
    requires RowsHold(rows, s) && i < |s.makers|
    ensures var g := GreedyFill(s);
            && s.makers[i].id in rows && s.makers[i].id in MatchedRows(rows, g)
            && Moves(rows[s.makers[i].id], MatchedRows(rows, g)[s.makers[i].id], g.trades)
  {
    var g := GreedyFill(s);
    MatchedRowsFacts(rows, s);
    TakerNotMaker(rows, s);
    FillIsAccounted(s);
    MakerStaysWellFormed(s, i);
    hide GreedyFill, MatchedRows, Accounts;
    assert s.makers[i] in s.makers;
    assert Accounts(s.makers[i], After(g)[i], g.trades);
  }

  lemma TakerMoves(rows: map<int, Order>, s: LoopState)
    requires RowsHold(rows, s)
    ensures var g := GreedyFill(s);
            && s.taker.id in MatchedRows(rows, g) && MatchedRows(rows, g)[s.taker.id] == g.taker
            && Moves(s.taker, g.taker, g.trades)
  {
    MatchedRowsFacts(rows, s);
    TakerNotMaker(rows, s);
    FillIsAccounted(s);
    OutcomeKeeps(s);
    TakerNotOverfilled(s);
    hide GreedyFill, MatchedRows, Accounts;
  }

  lemma {:induction false} TakerNotOverfilled(s: LoopState)
    requires LoopInv(s)
    ensures !s.taker.UsesTotal() && s.taker.remaining >= 0.0 ==> GreedyFill(s).taker.remaining >= 0.0
    decreases |s.makers|
  {
    if Guard(s) && FrontQuantity(s) != 0.0 {
      GreedyStep(s);
      BodyKeeps(s);
      QuantityFacts(s);
      FillKeeps(s.taker, s.makers[0].price, FrontQuantity(s));
      if FrontAfter(s).remaining <= 0.0 { TakerNotOverfilled(Body(s)); }
    }
  }

  /** Matching one order moves every row by exactly the trades it made, and adds the taker's row. */
  lemma MatchBooksRow(rows: map<int, Order>, s: LoopState, id: int)
    requires RowsHold(rows, s)
    requires forall key <- rows :: rows[key].id == key
    ensures var g := GreedyFill(s);
            var rows' := MatchedRows(rows, g);
            && rows'.Keys == rows.Keys + {s.taker.id}
            && (id in rows ==> Moves(rows[id], rows'[id], g.trades))
            && (id == s.taker.id ==> rows'[id] == g.taker && Moves(s.taker, g.taker, g.trades))
            && (id !in rows' ==> QuantityOf(g.trades, id) == ValueOf(g.trades, id) == 0.0)
  {
    var g := GreedyFill(s);
    MatchedRowsFacts(rows, s);
    hide GreedyFill, MatchedRows, Moves, LoopInv, QuantityOf, ValueOf;
    if HasId(s.makers, id) {
      var i :| 0 <= i < |s.makers| && s.makers[i].id == id;
      assert s.makers[i] in s.makers;
      MakerMoves(rows, s, i);
    } else if id == s.taker.id {
      TakerMoves(rows, s);
    } else {
      StrangersUntouched(s, id);
      if id in rows { StrangerMoves(rows[id], g.trades); }
    }
  }

  lemma {:induction false} MakerStaysWellFormed(s: LoopState, i: nat)
    requires LoopInv(s) && i < |s.makers|
    ensures i < |After(GreedyFill(s))| && After(GreedyFill(s))[i].WellFormed()
      && After(GreedyFill(s))[i].remaining >= 0.0
    decreases |s.makers|
  {
    assert s.makers[i] in s.makers;
    if Guard(s) && FrontQuantity(s) != 0.0 {
      GreedyStep(s);
      BodyKeeps(s);
      FillKeeps(s.makers[0], s.makers[0].price, FrontQuantity(s));
      if FrontAfter(s).remaining <= 0.0 {
        if i > 0 { MakerStaysWellFormed(Body(s), i - 1); }
      } else {
        assert Body(s).makers[i] in Body(s).makers;
      }
    }
  }

  // ---------- The ledger over a step ----------

  /** The trades `processOrder` puts out. */
  function NewTrades(e: Engine, o: Order, now: real): seq<Trade>
    requires LoopInv(LoopStart(e, o))
  {
    if o.Expired(now) then [] else GreedyFill(LoopStart(e, o)).trades
  }

  lemma FinishTrades(e: Engine, o: Order, budget: real)
    ensures AllTrades(Finish(e, o, budget).outputs) == AllTrades(e.outputs)
  {
    hide AllTrades, Insert, IdSet;
    AllTradesAppend(e.outputs, CancelOutput(o.id));
    assert AllTrades(e.outputs) + [] == AllTrades(e.outputs);
  }

  lemma SubmitTrades(e: Engine, o: Order, now: real)
    requires o.WellFormed() && LoopInv(LoopStart(e, o))
    ensures AllTrades(Submit(e, o, now).outputs) == AllTrades(e.outputs) + NewTrades(e, o, now)
  {
    if o.Expired(now) {
      AllTradesAppend(e.outputs, CancelOutput(o.id));
    } else {
      var g := GreedyFill(LoopStart(e, o));
      FinishTrades(AfterMatch(e, o.side, g), g.taker, g.budget);
      AllTradesAppend(e.outputs, MatchOutput(g.trades));
    }
  }

  /** A row known before moves on by the new trades. */
  lemma KnownRowAfter(first: Order, now: Order, now': Order, before: seq<Trade>, trades: seq<Trade>)
    requires first.WellFormed() && Accounts(first, now, before) && now.WellFormed() && Moves(now, now', trades)
    requires first.UsesTotal() ==> ValueOf(before, first.id) <= first.MatchableTotal()
    requires first.UsesTotal() ==> ValueOf(trades, first.id) == 0.0
    requires !first.UsesTotal() && first.remaining >= 0.0 ==> now.remaining >= 0.0
    ensures Accounts(first, now', before + trades) && now'.WellFormed()
    ensures first.UsesTotal() ==> ValueOf(before + trades, first.id) <= first.MatchableTotal()
    ensures !first.UsesTotal() && first.remaining >= 0.0 ==> now'.remaining >= 0.0
  {
    AccountsChain(first, now, now', before, trades);
    QuantityOfConcat(before, trades, first.id);
    hide QuantityOf, ValueOf, Order.NetFilled, Order.NetNotional, Order.ExcludingFee;
  }

  /** The taker gets its first row. */
  lemma TakerRowAfter(s: LoopState, before: seq<Trade>)
    requires LoopInv(s) && (s.taker.UsesTotal() ==> s.budget == s.taker.MatchableTotal())
    requires QuantityOf(before, s.taker.id) == ValueOf(before, s.taker.id) == 0.0
    requires Moves(s.taker, GreedyFill(s).taker, GreedyFill(s).trades)
    ensures var o, o', trades := s.taker, GreedyFill(s).taker, GreedyFill(s).trades;
            && Accounts(o, o', before + trades) && o'.WellFormed()
            && (o.UsesTotal() ==> ValueOf(before + trades, o.id) <= o.MatchableTotal())
            && (!o.UsesTotal() && o.remaining >= 0.0 ==> o'.remaining >= 0.0)
  {
    hide GreedyFill, QuantityOf, ValueOf, Order.NetFilled, Order.NetNotional, Order.ExcludingFee;
    BudgetSpent(s);
    var o, o', trades := s.taker, GreedyFill(s).taker, GreedyFill(s).trades;
    AccountsNothing(o, before);
    AccountsChain(o, o, o', before, trades);
    QuantityOfConcat(before, trades, o.id);
  }

  lemma RowsUnderIds(e: Engine, l: Ledger, id: int)
    requires LedgerInv(e, l)
    ensures RowInv(e, l, id) && forall key <- l.now :: l.now[key].id == key
  {
    forall key | key in l.now ensures l.now[key].id == key { assert RowInv(e, l, key); }
  }

  /** One id's row after the trades of a processed order. */
  lemma RowAfterMatch(e: Engine, l: Ledger, o: Order, id: int)
    requires LedgerInv(e, l) && RowsHold(l.now, LoopStart(e, o)) && o.WellFormed()
    ensures var g := GreedyFill(LoopStart(e, o));
            var l' := Ledger(l.submitted[o.id := o], MatchedRows(l.now, g));
            forall e': Engine :: AllTrades(e'.outputs) == AllTrades(e.outputs) + g.trades ==> RowInv(e', l', id)
  {
    hide LedgerInv, GreedyFill, AllTrades, Accounts, MatchedRows, QuantityOf, ValueOf, Order.MatchableTotal, LoopInv;
    var s := LoopStart(e, o);
    var g := GreedyFill(s);
    var l' := Ledger(l.submitted[o.id := o], MatchedRows(l.now, g));
    var before := AllTrades(e.outputs);
    RowsUnderIds(e, l, id);
    MatchBooksRow(l.now, s, id);
    hide RowsHold, Moves;
    if id in l.now {
      if l.submitted[id].UsesTotal() { TotalRowUntouched(e, l, o, id); }
      KnownRowAfter(l.submitted[id], l.now[id], l'.now[id], before, g.trades);
    } else if id == o.id {
      TakerRowAfter(s, before);
    } else {
      QuantityOfConcat(before, g.trades, id);
    }
  }

  /** A processed total-type order never trades again: only limit orders rest. */
  lemma TotalRowUntouched(e: Engine, l: Ledger, o: Order, id: int)
    requires LedgerInv(e, l) && RowsHold(l.now, LoopStart(e, o))
    requires id in l.now && l.submitted[id].UsesTotal()
    ensures ValueOf(GreedyFill(LoopStart(e, o)).trades, id) == 0.0
  {
    var s := LoopStart(e, o);
    assert RowInv(e, l, id);
    forall m | m in s.makers ensures m.id != id { assert RowInv(e, l, m.id); }
    StrangersUntouched(s, id);
  }

  /** New trades are within the limits of the orders as submitted. */
  lemma NewTradesWithinLimits(e: Engine, l: Ledger, o: Order, t: Trade)
    requires LedgerInv(e, l) && RowsHold(l.now, LoopStart(e, o)) && o.WellFormed()
    requires t in GreedyFill(LoopStart(e, o)).trades
    ensures WithinLimits(l.(submitted := l.submitted[o.id := o]), t)
  {
    hide GreedyFill, After, LoopInv, AllTrades;
    var s := LoopStart(e, o);
    var g := GreedyFill(s);
    FillInPriority(s);
    var i :| 0 <= i < |g.trades| && g.trades[i] == t;
    assert TradesDrop(o, s.makers[i], After(g)[i], t);
    assert s.makers[i] in s.makers;
    assert RowInv(e, l, s.makers[i].id);
    assert s.makers[i].SameOrder(l.submitted[s.makers[i].id]);
  }

  lemma OldTradesWithinLimits(l: Ledger, o: Order, t: Trade)
    requires WithinLimits(l, t) && o.id !in l.submitted
    ensures WithinLimits(l.(submitted := l.submitted[o.id := o]), t)
  {
  }

  lemma ReadyRows(e: Engine, l: Ledger, o: Order)
    requires Inv(e, {o.id}) && LedgerInv(e, l) && o.WellFormed() && o.id !in l.now
    ensures RowsHold(l.now, LoopStart(e, o))
  {
    LoopStartInv(e, o);
    assert forall m <- e.Book(o.side.Opposite()) :: InBook(e, m);
  }

  /** Who can be in the book after a processed order. */
  lemma FinishedBook(e: Engine, o: Order, g: Outcome, b: Order)
    requires g.taker.side == o.side && InBook(Finish(AfterMatch(e, o.side, g), g.taker, g.budget), b)
    ensures b == g.taker || b in g.left || b in e.Book(o.side)
  {
    var e1 := AfterMatch(e, o.side, g);
    InsertFacts(RankingOf(o.side), e1.priority, e1.Book(o.side), g.taker);
    hide Insert;
  }

  lemma LeftSameId(s: LoopState, i: nat)
    requires LoopInv(s) && i < |GreedyFill(s).left|
    ensures var g := GreedyFill(s);
            var k := |g.done| + i;
            k < |s.makers| && k < |After(g)| && After(g)[k] == g.left[i] && g.left[i].id == s.makers[k].id
  {
    hide GreedyFill, LoopInv;
    LeftIsSame(s);
    assert GreedyFill(s).left[i].SameOrder(s.makers[|GreedyFill(s).done| + i]);
  }

  lemma LeftRow(rows: map<int, Order>, s: LoopState, b: Order)
    requires RowsHold(rows, s) && b in GreedyFill(s).left
    ensures b.id in MatchedRows(rows, GreedyFill(s)) && MatchedRows(rows, GreedyFill(s))[b.id] == b
  {
    assert LoopInv(s);
    hide GreedyFill, MatchedRows, RowsHold, LoopInv, After;
    var i :| 0 <= i < |GreedyFill(s).left| && GreedyFill(s).left[i] == b;
    LeftSameId(s, i);
    MatchedRowsFacts(rows, s);
  }

  /** The books after a processed order hold the ledger's rows. */
  lemma BooksHoldRows(e: Engine, l: Ledger, o: Order, b: Order)
    requires Inv(e, {o.id}) && LedgerInv(e, l) && RowsHold(l.now, LoopStart(e, o)) && o.WellFormed()
    requires var g := GreedyFill(LoopStart(e, o)); InBook(Finish(AfterMatch(e, o.side, g), g.taker, g.budget), b)
    ensures var rows := MatchedRows(l.now, GreedyFill(LoopStart(e, o))); b.id in rows && rows[b.id] == b
  {
    var s := LoopStart(e, o);
    var g := GreedyFill(s);
    OutcomeKeeps(s);
    FinishedBook(e, o, g, b);
    MatchedRowsFacts(l.now, s);
    if b in g.left {
      LeftRow(l.now, s, b);
    } else if b != g.taker {
      assert InBook(e, b);
      NotAcross(e, o.side, b);
    }
  }

  lemma NotAcross(e: Engine, side: Side, b: Order)
    requires BookInv(e) && b in e.Book(side)
    ensures !HasId(e.Book(side.Opposite()), b.id)
  {
    assert b.id in IdSet(e.Book(side));
    IdSetIff(e.Book(side.Opposite()), b.id);
  }

  /** Everything the ledger invariant says but for the ids' bookkeeping. */
  ghost predicate RowsSound(e: Engine, l: Ledger) {
    && (forall o | InBook(e, o) :: o.id in l.now && l.now[o.id] == o)
    && (forall id :: RowInv(e, l, id))
    && (forall t <- AllTrades(e.outputs) :: WithinLimits(l, t))
  }

  lemma RowsAfterSubmit(e: Engine, l: Ledger, o: Order, now: real)
    requires Inv(e, {o.id}) && LedgerInv(e, l) && o.WellFormed() && o.id !in l.now && !o.Expired(now)
    requires LoopInv(LoopStart(e, o))
    ensures RowsSound(Submit(e, o, now), RecordOrder(l, e, o, now))
  {
    ReadyRows(e, l, o);
    var g := GreedyFill(LoopStart(e, o));
    var l' := RecordOrder(l, e, o, now);
    var e' := Submit(e, o, now);
    SubmitTrades(e, o, now);
    forall id ensures RowInv(e', l', id) { RowAfterMatch(e, l, o, id); }
    forall t | t in AllTrades(e'.outputs) ensures WithinLimits(l', t) {
      if t in g.trades {
        NewTradesWithinLimits(e, l, o, t);
      } else {
        assert t in AllTrades(e.outputs);
        OldTradesWithinLimits(l, o, t);
      }
    }
    forall b | InBook(e', b) ensures b.id in l'.now && l'.now[b.id] == b { BooksHoldRows(e, l, o, b); }
    hide RowInv, WithinLimits, InBook, MatchedRows, GreedyFill, AllTrades, Inv;
  }

  lemma KeysAfterSubmit(e: Engine, l: Ledger, o: Order, now: real)
    requires Inv(e, {o.id}) && LedgerInv(e, l) && o.WellFormed() && o.id !in l.now
    requires LoopInv(LoopStart(e, o))
    ensures RecordOrder(l, e, o, now).now.Keys == l.now.Keys + {o.id}
    ensures RecordOrder(l, e, o, now).submitted.Keys == l.submitted.Keys + {o.id}
    ensures o.id in e.received && o.id !in PendingCreates(e.pending)
  {
    ReadyRows(e, l, o);
    MatchedRowsFacts(l.now, LoopStart(e, o));
    hide MatchedRows, GreedyFill, LedgerInv;
  }

  lemma SubmitFrame(e: Engine, o: Order, now: real)
    requires o.WellFormed() && LoopInv(LoopStart(e, o))
    ensures Submit(e, o, now).received == e.received && Submit(e, o, now).pending == e.pending
  {
    hide GreedyFill, LoopInv, Remove, Insert, TradeDeltas, IdSet;
  }

  lemma CombineLedger(e: Engine, l: Ledger)
    requires RowsSound(e, l)
    requires l.now.Keys == l.submitted.Keys <= e.received.Keys && l.now.Keys !! PendingCreates(e.pending)
    ensures LedgerInv(e, l)
  {
  }

  lemma LedgerKeys(e: Engine, l: Ledger)
    requires LedgerInv(e, l)
    ensures l.now.Keys == l.submitted.Keys <= e.received.Keys && l.now.Keys !! PendingCreates(e.pending)
  {
  }

  lemma LedgerSubmit(e: Engine, l: Ledger, o: Order, now: real)
    requires Inv(e, {o.id}) && LedgerInv(e, l) && o.WellFormed() && o.id !in l.now
    requires LoopInv(LoopStart(e, o))
    ensures LedgerInv(Submit(e, o, now), RecordOrder(l, e, o, now))
  {
    if o.Expired(now) {
      RowsAfterExpiry(e, l, o, now);
    } else {
      RowsAfterSubmit(e, l, o, now);
    }
    KeysAfterSubmit(e, l, o, now);
    LedgerKeys(e, l);
    SubmitFrame(e, o, now);
    hide Inv, LedgerInv, RowsSound, Submit, RecordOrder, PendingCreates, LoopStart, LoopInv, Order.WellFormed;
    CombineLedger(Submit(e, o, now), RecordOrder(l, e, o, now));
  }

  /** Steps that trade nothing, add nothing to the book and process no create. */
  lemma LedgerFrame(e: Engine, e': Engine, l: Ledger)
    requires LedgerInv(e, l)
    requires AllTrades(e'.outputs) == AllTrades(e.outputs)
    requires forall o | InBook(e', o) :: InBook(e, o)
    requires e.received.Keys <= e'.received.Keys
    requires l.now.Keys !! PendingCreates(e'.pending)
    ensures LedgerInv(e', l)
  {
    forall id ensures RowInv(e', l, id) { assert RowInv(e, l, id); }
  }

  lemma CancelFrame(e: Engine, l: Ledger, id: int, side: Side, price: real, amount: real, inOrderbook: bool)
    requires LedgerInv(e, l) && BookInv(e)
    ensures LedgerInv(CancelOrder(e, id, side, price, amount, inOrderbook), l)
  {
    AllTradesAppend(e.outputs, CancelOutput(id));
    RemoveFacts(e.Book(side), id);
    LedgerFrame(e, CancelOrder(e, id, side, price, amount, inOrderbook), l);
  }

  lemma {:induction false} SweepFrame(e: Engine, l: Ledger, now: real, ids: seq<int>)
    requires Inv(e, {}) && LedgerInv(e, l) && SweepEnabled(e, now, ids)
    ensures LedgerInv(SweepAll(e, now, ids), l)
    decreases |ids|
  {
    if ids != [] {
      var o := OrderOf(e, ids[0]);
      CancelFrame(e, l, ids[0], o.side, o.price, o.remaining, true);
      ExpireKeeps(e, ids[0]);
      SweepFrame(Expire(e, ids[0]), l, now, ids[1..]);
    }
  }

  lemma ArriveFrame(e: Engine, l: Ledger, input: Input)
    requires Inv(e, {}) && LedgerInv(e, l)
    ensures LedgerInv(Receive(e, input), l)
  {
    var e' := Receive(e, input);
    if input.Id() !in e.received && input.CancelInput? {
      CancelFrame(e, l, input.Id(), input.side, input.price, 0.0, false);
    } else {
      PendingCreatesAppend(e.pending, input);
      LedgerFrame(e, e', l);
    }
  }

  lemma UntradedRow(e: Engine, l: Ledger, o: Order)
    requires RowInv(e, l, o.id) && o.id !in l.now && o.WellFormed()
    ensures RowInv(e, Ledger(l.submitted[o.id := o], l.now[o.id := o]), o.id)
  {
    AccountsNothing(o, AllTrades(e.outputs));
    if o.UsesTotal() { ProductNonNegative(o.total, 1.0 - o.feeRate); }
  }

  /** An order that expires before it is processed gets its row as submitted. */
  lemma RowsAfterExpiry(e: Engine, l: Ledger, o: Order, now: real)
    requires Inv(e, {o.id}) && LedgerInv(e, l) && o.WellFormed() && o.id !in l.now && o.Expired(now)
    requires LoopInv(LoopStart(e, o))
    ensures RowsSound(Submit(e, o, now), RecordOrder(l, e, o, now))
  {
    hide AllTrades, PriorityInv, PendingInv, Accounts, LoopInv;
    var e' := CancelOrder(e, o.id, o.side, o.price, 0.0, false);
    CancelFrame(e, l, o.id, o.side, o.price, 0.0, false);
    var l' := Ledger(l.submitted[o.id := o], l.now[o.id := o]);
    assert e' == Submit(e, o, now) && l' == RecordOrder(l, e, o, now);
    hide CancelOrder, Inv, Submit, RecordOrder;
    forall id ensures RowInv(e', l', id) {
      assert RowInv(e', l, id);
      if id == o.id { UntradedRow(e', l, o); }
    }
    forall t | t in AllTrades(e'.outputs) ensures WithinLimits(l', t) {
      OldTradesWithinLimits(l, o, t);
    }
  }

  lemma PopFrame(e: Engine, l: Ledger)
    requires Inv(e, {}) && LedgerInv(e, l) && e.pending != []
    ensures LedgerInv(Pop(e), l)
    ensures e.pending[0].CreateInput? ==> e.pending[0].order.id !in l.now
  {
    PopPending(e.pending);
    assert e.pending[0].CreateInput? ==> e.pending[0].Id() in PendingCreates(e.pending);
    LedgerFrame(e, Pop(e), l);
  }

  /** Every step keeps the ledger. */
  lemma StepLedger(e: Engine, l: Ledger, ev: Event)
    requires Inv(e, {}) && LedgerInv(e, l) && Enabled(e, ev)
    ensures LedgerInv(Step(e, ev), Record(l, e, ev))
  {
    match ev
    case Arrive(input) => ArriveFrame(e, l, input);
    case Sweep(now, ids) => SweepFrame(e, l, now, ids);
    case Dequeue(now, carried) =>
      PopKeeps(e);
      PopFrame(e, l);
      match e.pending[0] {
        case CreateInput(o) =>
          LoopStartInv(Pop(e), o);
          hide Inv, LedgerInv, LoopInv, Submit, RecordOrder;
          LedgerSubmit(Pop(e), l, o, now);
        case CancelInput(id, side, price) =>
          CancelFrame(Pop(e), l, id, side, price, carried, true);
      }
  }
}
