/** What the ledger of a run means for one order: fills, averages, budgets, fees and statuses. */
module Accounting {
  import opened Decimals
  import opened Orders
  import opened Matching
  import opened Fills
  import opened EngineModel
  import opened EngineInvariant
  import opened EngineRuns
  import opened EngineLedger

  ghost function LedgerAfter(e: Engine, l: Ledger, run: seq<Event>): Ledger
    requires Legal(e, run)
    decreases |run|
  {
    if run == [] then l else LedgerAfter(Step(e, run[0]), Record(l, e, run[0]), run[1..])
  }

  lemma {:induction false} RunKeepsLedger(e: Engine, l: Ledger, run: seq<Event>)
    requires Inv(e, {}) && LedgerInv(e, l) && Legal(e, run)
    ensures LedgerInv(Run(e, run), LedgerAfter(e, l, run))
    decreases |run|
  {
    if run != [] {
      StepKeeps(e, run[0]);
      StepLedger(e, l, run[0]);
      RunKeepsLedger(Step(e, run[0]), Record(l, e, run[0]), run[1..]);
    }
  }

  /** An order submitted in a run, as submitted and as it is at the end, with the run's trades. */
  ghost predicate Processed(run: seq<Event>, id: int, first: Order, last: Order, trades: seq<Trade>) {
    && Legal(INITIAL, run)
    && var l := LedgerAfter(INITIAL, EMPTY_LEDGER, run);
       && id in l.now && id in l.submitted
       && first == l.submitted[id] && last == l.now[id] && trades == AllTrades(Run(INITIAL, run).outputs)
  }

  lemma ProcessedRow(run: seq<Event>, id: int, first: Order, last: Order, trades: seq<Trade>)
    requires Processed(run, id, first, last, trades)
    ensures first.id == id && first.WellFormed() && last.WellFormed() && Accounts(first, last, trades)
    ensures first.UsesTotal() ==> ValueOf(trades, id) <= first.MatchableTotal()
    ensures !first.UsesTotal() && first.remaining >= 0.0 ==> last.remaining >= 0.0
    ensures var l := LedgerAfter(INITIAL, EMPTY_LEDGER, run);
            forall t <- trades :: WithinLimits(l, t)
  {
    InitialInv();
    assert LedgerInv(INITIAL, EMPTY_LEDGER);
    RunKeepsLedger(INITIAL, EMPTY_LEDGER, run);
    assert RowInv(Run(INITIAL, run), LedgerAfter(INITIAL, EMPTY_LEDGER, run), id);
  }

  /** What an amount-type order has filled, less its fee, and what it has left make up the amount, less the fee. */
  predicate Conserved(o: Order) { o.ExcludingFee(o.filled) + o.remaining == o.ExcludingFee(o.amount) }

  /** Nothing filled yet. */
  predicate Unfilled(o: Order) { o.WellFormed() && o.filled == 0.0 }

  /** As `createBscOrder` stores an order. */
  predicate Created(o: Order) {
    o.WellFormed() && o.filled == 0.0 && o.amount >= 0.0 && o.remaining == (1.0 - o.feeRate) * o.amount
  }

  lemma CreatedIsConserved(o: Order)
    requires Created(o)
    ensures Conserved(o) && o.remaining >= 0.0 && Unfilled(o)
  {
    ProductNonNegative(o.amount, 1.0 - o.feeRate);
  }

  /**
   Over any run an amount-type order, new or part-filled before, is conserved if and only if it was when it came; its
   trades sum to what it filled since, and it never trades more than it still asked for.
   */
  lemma AmountIsConserved(run: seq<Event>, id: int, first: Order, last: Order, trades: seq<Trade>)
    requires Processed(run, id, first, last, trades) && !first.UsesTotal()
    ensures Conserved(first) <==> Conserved(last)
    ensures last.NetFilled() - first.NetFilled() == QuantityOf(trades, id) == first.remaining - last.remaining
    ensures first.remaining >= 0.0 ==> last.remaining >= 0.0 && QuantityOf(trades, id) <= first.remaining
  {
    ProcessedRow(run, id, first, last, trades);
    hide Processed, QuantityOf, ValueOf, Order.ExcludingFee, Order.NetNotional;
  }

  /** Over any run average times filled grows by the value of the order's trades, grossed up by its fee. */
  lemma AverageIsWeightedPrice(run: seq<Event>, id: int, first: Order, last: Order, trades: seq<Trade>)
    requires Processed(run, id, first, last, trades)
    ensures last.ExcludingFee(last.average * last.filled)
            == first.ExcludingFee(first.average * first.filled) + ValueOf(trades, id)
    ensures last.ExcludingFee(last.filled) == first.ExcludingFee(first.filled) + QuantityOf(trades, id)
  {
    ProcessedRow(run, id, first, last, trades);
    hide Processed, QuantityOf, ValueOf;
  }

  /** Within the order's own limit. */
  predicate NotWorse(side: Side, limit: real, price: real) {
    if side.Buy? then price <= limit else price >= limit
  }

  /** A traded value that is on average within the limit. */
  predicate ValueWithin(side: Side, limit: real, value: real, quantity: real) {
    if side.Buy? then value <= limit * quantity else value >= limit * quantity
  }

  lemma WeighOne(side: Side, limit: real, price: real, q: real, value: real, quantity: real)
    requires q >= 0.0 && NotWorse(side, limit, price) && ValueWithin(side, limit, value, quantity)
    ensures ValueWithin(side, limit, price * q + value, q + quantity)
  {
    Distribute(q, quantity, limit);
    if side.Buy? { ProductMonotone(price, limit, q); } else { ProductMonotone(limit, price, q); }
  }

  lemma {:induction false} ValueWithinLimit(l: Ledger, trades: seq<Trade>, id: int)
    requires id in l.submitted && forall t <- trades :: WithinLimits(l, t)
    ensures ValueWithin(l.submitted[id].side, l.submitted[id].price, ValueOf(trades, id), QuantityOf(trades, id))
  {
    if trades != [] {
      assert trades[0] in trades && forall u <- trades[1..] :: u in trades;
      ValueWithinLimit(l, trades[1..], id);
      hide ValueWithin, ValueOf, QuantityOf;
      FirstWithinLimit(l, trades, id);
    }
  }

  lemma FirstWithinLimit(l: Ledger, trades: seq<Trade>, id: int)
    requires id in l.submitted && trades != [] && WithinLimits(l, trades[0])
    requires ValueWithin(l.submitted[id].side, l.submitted[id].price, ValueOf(trades[1..], id),
      QuantityOf(trades[1..], id))
    ensures ValueWithin(l.submitted[id].side, l.submitted[id].price, ValueOf(trades, id), QuantityOf(trades, id))
  {
    hide ValueWithin;
    var t, o := trades[0], l.submitted[id];
    if Involves(t, id) {
      WeighOne(o.side, o.price, t.price, t.quantity, ValueOf(trades[1..], id), QuantityOf(trades[1..], id));
    }
  }

  /** What was filled was filled on average within the limit. */
  predicate FilledWithinLimit(o: Order) { o.filled > 0.0 ==> NotWorse(o.side, o.price, o.average) }

  /** The same without division: the value filled, fees excluded, against the limit on the quantity. */
  lemma FilledWithinLimitIff(o: Order)
    requires o.WellFormed()
    ensures FilledWithinLimit(o) <==> ValueWithin(o.side, o.price, o.NetNotional(), o.NetFilled())
  {
    var net := 1.0 - o.feeRate;
    var value, quantity := o.NetNotional(), o.NetFilled();
    assert value == (o.average * o.filled) * net && quantity == o.filled * net;
    hide Order.NetNotional, Order.NetFilled;
    if o.filled > 0.0 {
      CompareAverages(o.average, o.price, o.filled, net);
      assert o.average <= o.price <==> value <= o.price * quantity;
      assert o.average >= o.price <==> value >= o.price * quantity;
    } else {
      NothingTimes(o.average, net);
      NothingTimes(o.price, net);
    }
  }

  lemma CompareAverages(average: real, limit: real, filled: real, net: real)
    requires filled > 0.0 && net > 0.0
    ensures average <= limit <==> (average * filled) * net <= limit * (filled * net)
    ensures average >= limit <==> (average * filled) * net >= limit * (filled * net)
  {
    ProductPositive(filled, net);
    Associate(average, filled, net);
    ThresholdOn(average, limit, filled * net);
  }

  lemma NothingTimes(x: real, y: real)
    ensures (x * 0.0) * y == x * (0.0 * y) == 0.0
  {
  }

  lemma ThresholdOn(x: real, y: real, z: real)
    requires z > 0.0
    ensures (x <= y <==> x * z <= y * z) && (x >= y <==> x * z >= y * z)
  {
    if x < y { ProductStrict(x, y, z); }
    if y < x { ProductStrict(y, x, z); }
  }

  lemma ValueWithinAdds(side: Side, limit: real, v: real, q: real, v': real, q': real)
    requires ValueWithin(side, limit, v, q) && ValueWithin(side, limit, v', q')
    ensures ValueWithin(side, limit, v + v', q + q')
  {
    Distribute(q, q', limit);
  }

  /** Over any run no order comes to be filled on average at a worse price than its limit. */
  lemma AverageRespectsLimit(run: seq<Event>, id: int, first: Order, last: Order, trades: seq<Trade>)
    requires Processed(run, id, first, last, trades) && FilledWithinLimit(first)
    ensures FilledWithinLimit(last)
  {
    ProcessedRow(run, id, first, last, trades);
    ValueWithinLimit(LedgerAfter(INITIAL, EMPTY_LEDGER, run), trades, id);
    hide Processed, WithinLimits, FilledWithinLimit, ValueWithin, QuantityOf, ValueOf, Order.NetFilled,
      Order.NetNotional;
    FilledWithinLimitIff(first);
    ValueWithinAdds(first.side, first.price, first.NetNotional(), first.NetFilled(), ValueOf(trades, id),
                    QuantityOf(trades, id));
    FilledWithinLimitIff(last);
  }

  /** Over any run a total-type order spends at most its total, fees included. */
  lemma TotalNeverOverspent(run: seq<Event>, id: int, first: Order, last: Order, trades: seq<Trade>)
    requires Processed(run, id, first, last, trades) && first.UsesTotal()
    ensures ValueOf(trades, id) <= first.ExcludingFee(first.total)
    ensures last.Notional() - first.Notional() <= first.total
    ensures Unfilled(first) ==> last.Notional() <= first.total
  {
    ProcessedRow(run, id, first, last, trades);
    hide Processed, QuantityOf, ValueOf, WithinLimits;
    SpentWithin(first.Notional(), last.Notional(), first.total, 1.0 - first.feeRate, ValueOf(trades, id));
  }

  lemma SpentWithin(before: real, after: real, total: real, net: real, value: real)
    requires net > 0.0 && after * net == before * net + value && value <= total * net
    ensures after - before <= total
  {
    Distribute(after - before, before, net);
    if after - before > total { ProductStrict(total, after - before, net); }
  }

  // ---------- Across restarts ----------

  function Flat(parts: seq<seq<Trade>>): seq<Trade> {
    if parts == [] then [] else Flat(parts[..|parts| - 1]) + parts[|parts| - 1]
  }

  /** Each run starts with the order as the run before left it. */
  ghost predicate Restarts(runs: seq<seq<Event>>, id: int, orders: seq<Order>, parts: seq<seq<Trade>>) {
    && |orders| == |runs| + 1 && |parts| == |runs|
    && forall i :: 0 <= i < |runs| ==> Processed(runs[i], id, orders[i], orders[i + 1], parts[i])
  }

  /** Any number of engine runs later an order still is its first submission plus all its trades, within its limit. */
  lemma {:induction false} AcrossRestarts(runs: seq<seq<Event>>, id: int, orders: seq<Order>, parts: seq<seq<Trade>>)
    requires Restarts(runs, id, orders, parts) && orders[0].id == id
    ensures Accounts(orders[0], orders[|runs|], Flat(parts))
    ensures FilledWithinLimit(orders[0]) ==> FilledWithinLimit(orders[|runs|])
    ensures !orders[0].UsesTotal() ==> (Conserved(orders[0]) <==> Conserved(orders[|runs|]))
    decreases |runs|
  {
    hide Processed, Accounts, FilledWithinLimit, Conserved, Order.UsesTotal;
    if runs == [] {
      NothingAccounts(orders[0]);
    } else {
      var n := |runs| - 1;
      AcrossRestarts(runs[..n], id, orders[..n + 1], parts[..n]);
      var first, last := orders[n], orders[n + 1];
      assert Processed(runs[n], id, first, last, parts[n]);
      ProcessedRow(runs[n], id, first, last, parts[n]);
      SameAccounts(orders[0], first, Flat(parts[..n]));
      AccountsChain(orders[0], first, last, Flat(parts[..n]), parts[n]);
      if FilledWithinLimit(first) { AverageRespectsLimit(runs[n], id, first, last, parts[n]); }
      if !first.UsesTotal() { AmountIsConserved(runs[n], id, first, last, parts[n]); }
    }
  }

  lemma NothingAccounts(o: Order)
    ensures Accounts(o, o, [])
  {
  }

  lemma SameAccounts(a: Order, b: Order, trades: seq<Trade>)
    requires Accounts(a, b, trades)
    ensures a.UsesTotal() == b.UsesTotal() && a.id == b.id
  {
  }

  // ---------- Fees ----------

  /** The sell fee `prepareTrade` books on an order for a trade of its. */
  function SellFee(t: Trade, o: Order): real
    requires o.feeRate < 1.0
  {
    if Involves(t, o.id) then o.IncludingFee(t.quantity) * o.feeRate else 0.0
  }

  /** The buy fee. */
  function BuyFee(t: Trade, o: Order): real
    requires o.feeRate < 1.0
  {
    if Involves(t, o.id) then o.IncludingFee(t.quantity) * t.price * o.feeRate else 0.0
  }

  function SellFees(trades: seq<Trade>, o: Order): real
    requires o.feeRate < 1.0
  {
    if trades == [] then 0.0 else SellFee(trades[0], o) + SellFees(trades[1..], o)
  }

  function BuyFees(trades: seq<Trade>, o: Order): real
    requires o.feeRate < 1.0
  {
    if trades == [] then 0.0 else BuyFee(trades[0], o) + BuyFees(trades[1..], o)
  }

  lemma FeeOfQuantity(q: real, p: real, fee: real)
    requires fee < 1.0
    ensures (q / (1.0 - fee)) * fee * (1.0 - fee) == fee * q
    ensures (q / (1.0 - fee)) * p * fee * (1.0 - fee) == fee * (p * q)
  {
    QuotientTimes(q, 1.0 - fee);
    var x := q / (1.0 - fee);
    assert x * fee * (1.0 - fee) == (x * (1.0 - fee)) * fee;
    assert x * p * fee * (1.0 - fee) == (x * (1.0 - fee)) * p * fee;
  }

  /** The fees `all` on the trades `traded` are what the order's rate makes of them, the fee itself taken out again. */
  predicate Proportional(o: Order, all: real, traded: real) { o.ExcludingFee(all) == o.feeRate * traded }

  /** One more fee on top of fees proportional to what was traded before. */
  lemma FeeAdds(o: Order, fee: real, fees: real, traded: real, before: real)
    requires Proportional(o, fee, traded) && Proportional(o, fees, before)
    ensures Proportional(o, fee + fees, traded + before)
  {
    Distribute(fee, fees, 1.0 - o.feeRate);
    Distribute(traded, before, o.feeRate);
  }

  lemma FeeOfTrade(t: Trade, o: Order)
    requires o.feeRate < 1.0
    ensures Proportional(o, SellFee(t, o), if Involves(t, o.id) then t.quantity else 0.0)
    ensures Proportional(o, BuyFee(t, o), if Involves(t, o.id) then t.price * t.quantity else 0.0)
  {
    FeeOfQuantity(t.quantity, t.price, o.feeRate);
  }

  lemma FeesUnfold(trades: seq<Trade>, o: Order)
    requires o.feeRate < 1.0 && trades != []
    ensures SellFees(trades, o) == SellFee(trades[0], o) + SellFees(trades[1..], o)
    ensures BuyFees(trades, o) == BuyFee(trades[0], o) + BuyFees(trades[1..], o)
    ensures QuantityOf(trades, o.id) == (if Involves(trades[0], o.id) then trades[0].quantity else 0.0)
      + QuantityOf(trades[1..], o.id)
    ensures ValueOf(trades, o.id)
            == (if Involves(trades[0], o.id) then trades[0].price * trades[0].quantity else 0.0)
              + ValueOf(trades[1..], o.id)
  {
    hide SellFee, BuyFee;
  }

  lemma {:induction false} FeesAreProportional(trades: seq<Trade>, o: Order)
    requires o.feeRate < 1.0
    ensures Proportional(o, SellFees(trades, o), QuantityOf(trades, o.id))
    ensures Proportional(o, BuyFees(trades, o), ValueOf(trades, o.id))
  {
    if trades != [] {
      hide SellFee, BuyFee, SellFees, BuyFees, QuantityOf, ValueOf, Proportional, Involves;
      var t, rest := trades[0], trades[1..];
      FeesAreProportional(rest, o);
      FeeOfTrade(t, o);
      FeesUnfold(trades, o);
      FeeAdds(o, SellFee(t, o), SellFees(rest, o), if Involves(t, o.id) then t.quantity else 0.0,
        QuantityOf(rest, o.id));
      FeeAdds(o, BuyFee(t, o), BuyFees(rest, o), if Involves(t, o.id) then t.price * t.quantity else 0.0,
        ValueOf(rest, o.id));
    }
  }

  /** Undoing the fee on both sides of an equation. */
  lemma GrossUp(fees: real, rate: real, gross: real, net: real, traded: real)
    requires net > 0.0 && fees * net == rate * traded && gross * net == traded
    ensures fees == rate * gross
  {
    Associate(rate, gross, net);
    SameProduct(fees, rate * gross, net);
  }

  lemma FeesOfRow(first: Order, last: Order, trades: seq<Trade>)
    requires first.WellFormed() && Accounts(first, last, trades)
    ensures SellFees(trades, first) == first.feeRate * (last.filled - first.filled)
    ensures BuyFees(trades, first) == first.feeRate * (last.Notional() - first.Notional())
  {
    hide SellFees, BuyFees, QuantityOf, ValueOf, Proportional, Order.NetFilled, Order.NetNotional, Order.Notional;
    FeesAreProportional(trades, first);
    FeesFromNets(first, last, SellFees(trades, first), BuyFees(trades, first), QuantityOf(trades, first.id),
      ValueOf(trades, first.id));
  }

  lemma FeesFromNets(first: Order, last: Order, sell: real, buy: real, quantity: real, value: real)
    requires first.WellFormed() && last.feeRate == first.feeRate
    requires Proportional(first, sell, quantity) && Proportional(first, buy, value)
    requires last.NetFilled() == first.NetFilled() + quantity && last.NetNotional() == first.NetNotional() + value
    ensures sell == first.feeRate * (last.filled - first.filled)
    ensures buy == first.feeRate * (last.Notional() - first.Notional())
  {
    var net, filled, worth := 1.0 - first.feeRate, last.filled - first.filled, last.Notional() - first.Notional();
    Distribute(filled, first.filled, net);
    Distribute(worth, first.Notional(), net);
    assert filled * net == quantity && worth * net == value;
    hide Order.Notional;
    GrossUp(sell, first.feeRate, filled, net, quantity);
    GrossUp(buy, first.feeRate, worth, net, value);
  }

  lemma UnfilledNets(o: Order)
    requires Unfilled(o)
    ensures o.NetFilled() == 0.0 && o.NetNotional() == 0.0
  {
  }

  /**
   Over any run an order's sell fees are its fee rate on what it filled in it, its buy fees on what that was worth.
   */
  lemma FeesMatchFills(run: seq<Event>, id: int, first: Order, last: Order, trades: seq<Trade>)
    requires Processed(run, id, first, last, trades)
    ensures first.WellFormed()
    ensures SellFees(trades, first) == first.feeRate * (last.filled - first.filled)
    ensures BuyFees(trades, first) == first.feeRate * (last.Notional() - first.Notional())
  {
    ProcessedRow(run, id, first, last, trades);
    hide Processed, Accounts, SellFees, BuyFees;
    FeesOfRow(first, last, trades);
  }

  // ---------- How an amount-type order stands ----------

  /**
   Over any run, with what was traded before counted in: fillable while it has traded nothing, fulfilled once it has
   traded all it asked for, filling in between.
   */
  lemma AmountStatus(run: seq<Event>, id: int, first: Order, last: Order, trades: seq<Trade>)
    requires Processed(run, id, first, last, trades) && Conserved(first) && !first.UsesTotal()
    ensures var traded := first.NetFilled() + QuantityOf(trades, id);
            last.GetStatus() == (if traded == 0.0 then Fillable
                                 else if traded == first.ExcludingFee(first.amount) then Fulfill
                                 else Filling)
  {
    ProcessedRow(run, id, first, last, trades);
    FilledIff(last);
    hide Processed, QuantityOf, ValueOf, Order.NetNotional, Order.ExcludingFee;
  }

  // ---------- How a total-type order ends ----------

  /** The status of a total-type order by what its fills, net of the fee, leave of its budget. */
  lemma StatusByLeftover(o: Order, budget: real)
    requires o.UsesTotal() && o.WellFormed() && budget >= 0.0
    requires o.NetNotional() == o.ExcludingFee(o.total) - budget
    ensures o.GetStatus() == (if o.filled == 0.0 then Fillable
                              else if budget < o.ExcludingFee(EPSILON) then Fulfill
                              else PartiallyFilled)
  {
    LeftoverScaled(o.total, o.Notional(), budget, 1.0 - o.feeRate);
    assert o.filled * o.average == o.Notional();
    hide Order.Notional, Order.NetNotional;
  }

  lemma LeftoverScaled(total: real, spent: real, budget: real, net: real)
    requires net > 0.0 && budget >= 0.0 && spent * net == total * net - budget
    ensures IsEqual(spent, total) <==> budget < EPSILON * net
  {
    var left := total - spent;
    Distribute(left, spent, net);
    assert left * net == budget;
    ScaledThreshold(left, EPSILON, net);
    assert left >= 0.0 && (left < EPSILON <==> budget < EPSILON * net);
  }

  /**
   Once the loop has ended on a new total-type order, the budget left over decides: nothing filled leaves it
   fillable; below EPSILON, fees excluded, it counts as fulfilled; from there on as partially filled; and only from
   EPSILON on does the engine also cancel it.
   */
  lemma LeftoverDecides(e: Engine, o: Order)
    requires Unfilled(o) && o.UsesTotal() && LoopInv(LoopStart(e, o))
    ensures var g := GreedyFill(LoopStart(e, o));
            && g.taker.GetStatus() == (if g.trades == [] then Fillable
                                       else if g.budget < o.ExcludingFee(EPSILON) then Fulfill
                                       else PartiallyFilled)
            && (g.taker.CanMatch(g.budget) <==> g.budget >= EPSILON)
            && 0.0 <= g.budget == o.ExcludingFee(o.total) - ValueOf(g.trades, o.id)
  {
    hide GreedyFill, QuantityOf, ValueOf, Order.NetFilled, Order.NetNotional, Order.GetStatus;
    var s := LoopStart(e, o);
    var g := GreedyFill(s);
    BudgetSpent(s);
    OutcomeKeeps(s);
    FreshTakerAccounts(s);
    TradedSomething(s);
    UnfilledNets(o);
    NothingTraded(g.trades, o.id);
    assert g.taker.ExcludingFee(g.taker.total) == o.ExcludingFee(o.total);
    hide LoopInv;
    StatusByLeftover(g.taker, g.budget);
    FilledIff(g.taker);
  }

  /**
   A new total-type order that has not expired never rests, and is cancelled exactly with EPSILON or more left over.
   */
  lemma LeftoverIsCancelled(e: Engine, o: Order, now: real)
    requires Unfilled(o) && o.UsesTotal() && LoopInv(LoopStart(e, o)) && !o.Expired(now)
    ensures var g, e' := GreedyFill(LoopStart(e, o)), Submit(e, o, now);
            && e'.Book(o.side) == e.Book(o.side)
            && e'.outputs == e.outputs + (if g.trades == [] then [] else [MatchOutput(g.trades)])
                             + (if g.budget >= EPSILON then [CancelOutput(o.id)] else [])
  {
    hide GreedyFill, LoopInv, Unfilled, Order.GetStatus, Order.ExcludingFee, Order.CanMatch, ValueOf, TradeDeltas;
    LeftoverDecides(e, o);
    OutcomeKeeps(LoopStart(e, o));
  }

  lemma NothingTraded(trades: seq<Trade>, id: int)
    ensures trades == [] ==> QuantityOf(trades, id) == 0.0
  {
  }

  lemma FilledIff(o: Order)
    requires o.WellFormed()
    ensures o.filled == 0.0 <==> o.NetFilled() == 0.0
  {
    if o.filled > 0.0 { ProductPositive(o.filled, 1.0 - o.feeRate); }
  }

  /** What a taker that had nothing filled has filled afterwards. */
  lemma {:induction false} FreshTakerAccounts(s: LoopState)
    requires LoopInv(s)
    ensures var g := GreedyFill(s);
            && g.taker.NetFilled() == s.taker.NetFilled() + QuantityOf(g.trades, s.taker.id)
            && g.taker.NetNotional() == s.taker.NetNotional() + ValueOf(g.trades, s.taker.id)
    decreases |s.makers|
  {
    if Guard(s) && FrontQuantity(s) != 0.0 {
      GreedyStep(s);
      BodyKeeps(s);
      QuantityFacts(s);
      AccountsFill(s.taker, s.makers[0].price, FrontQuantity(s), FrontTrade(s));
      hide Order.Fill, FrontTrade, Order.NetFilled, Order.NetNotional;
      if FrontAfter(s).remaining <= 0.0 {
        FreshTakerAccounts(Body(s));
        QuantityOfConcat([FrontTrade(s)], GreedyFill(Body(s)).trades, s.taker.id);
      }
    }
  }

  /** A taker that traded at all traded a positive quantity. */
  lemma {:induction false} TradedSomething(s: LoopState)
    requires LoopInv(s)
    ensures QuantityOf(GreedyFill(s).trades, s.taker.id) >= 0.0
    ensures GreedyFill(s).trades != [] ==> QuantityOf(GreedyFill(s).trades, s.taker.id) > 0.0
    decreases |s.makers|
  {
    if Guard(s) && FrontQuantity(s) != 0.0 {
      GreedyStep(s);
      BodyKeeps(s);
      assert [FrontTrade(s)][1..] == [] && Involves(FrontTrade(s), s.taker.id);
      if FrontAfter(s).remaining <= 0.0 {
        TradedSomething(Body(s));
        QuantityOfConcat([FrontTrade(s)], GreedyFill(Body(s)).trades, s.taker.id);
      }
    }
  }
}
