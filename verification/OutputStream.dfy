/** The engine's match outputs as they are stored: trade rows with fees, and the orders' new statuses. */
module OutputStreams {
  import opened Orders
  import opened Matching
  import opened Fills
  import opened EngineModel
  import opened EngineLedger
  import opened Entities
  import opened EngineRuns
  import opened Accounting
  import opened MatchingEngines

  /** The columns of a stored trade that the engine decides. */
  datatype TradeRecord = TradeRecord(
    buyOrderId: int, sellOrderId: int, price: real, filledAmount: real, sellFee: real, buyFee: real, buyerIsTaker: bool)

  predicate FeesBelowOne(trades: seq<OrderTrade>) {
    forall t <- trades :: t.buyOrder.feeRate < 1.0 && t.sellOrder.feeRate < 1.0
  }

  /** `prepareTrade`: each side's fee on the quantity grossed up by its own rate. */
  function PrepareTrade(t: OrderTrade): TradeRecord
    requires t.buyOrder.feeRate < 1.0 && t.sellOrder.feeRate < 1.0
  {
    TradeRecord(
      t.buyOrder.id, t.sellOrder.id, t.price, t.quantity,
      t.quantity / (1.0 - t.sellOrder.feeRate) * t.sellOrder.feeRate,
      t.quantity / (1.0 - t.buyOrder.feeRate) * t.price * t.buyOrder.feeRate,
      t.buyerIsTaker)
  }

  /** A row per trade, in order, each with its trade's orders, price, quantity and taker. */
  ghost predicate Stored(records: seq<TradeRecord>, trades: seq<OrderTrade>) {
    && |records| == |trades|
    && forall i :: 0 <= i < |trades| ==>
      && records[i].buyOrderId == trades[i].buyOrder.id && records[i].sellOrderId == trades[i].sellOrder.id
      && records[i].price == trades[i].price && records[i].filledAmount == trades[i].quantity
      && records[i].buyerIsTaker == trades[i].buyerIsTaker
  }

  /** A pending settlement: of a stored trade, by its position, or of a cancelled order. */
  datatype Settlement = OfTrade(position: nat) | OfCancel(orderId: int)

  /** The trades that are settled, in order. */
  function TradesSettled(transactions: seq<Settlement>): seq<nat> {
    if transactions == [] then []
    else
      var last := transactions[|transactions| - 1];
      TradesSettled(transactions[..|transactions| - 1]) + if last.OfTrade? then [last.position] else []
  }

  /** The settlements of trades stored one after the other. */
  function Settlements(from: nat, n: nat): seq<Settlement> {
    seq(n, i requires 0 <= i => OfTrade(from + i))
  }

  lemma OneMoreSettled(before: seq<Settlement>, from: nat, n: nat)
    ensures before + Settlements(from, n) + [OfTrade(from + n)] == before + Settlements(from, n + 1)
  {
  }

  lemma SettleOne(transactions: seq<Settlement>, x: Settlement)
    ensures TradesSettled(transactions + [x]) == TradesSettled(transactions) + if x.OfTrade? then [x.position] else []
  {
    assert (transactions + [x])[..|transactions|] == transactions;
  }

  function OrdersTraded(trades: seq<OrderTrade>): set<OrderEntity> {
    (set t <- trades :: t.buyOrder) + (set t <- trades :: t.sellOrder)
  }

  class OrderOutputStream {
    var savedTrades: seq<TradeRecord>
    var transactions: seq<Settlement>

    /** Every stored trade has its one settlement, in order. */
    ghost predicate Valid()
      reads this
    {
      var settled := TradesSettled(transactions);
      |settled| == |savedTrades| && forall i :: 0 <= i < |settled| ==> settled[i] == i
    }

    constructor ()
      ensures Valid() && savedTrades == [] && transactions == []
    {
      savedTrades, transactions := [], [];
    }

    method StoreTrade(trade: OrderTrade)
      requires Valid() && trade.buyOrder.feeRate < 1.0 && trade.sellOrder.feeRate < 1.0
      modifies this, {trade.buyOrder, trade.sellOrder}`status
      ensures Valid() && savedTrades == old(savedTrades) + [PrepareTrade(trade)]
      ensures transactions == old(transactions) + [OfTrade(|old(savedTrades)|)]
      ensures forall o <- {trade.buyOrder, trade.sellOrder} ::
        o.State() == old(o.State()) && o.status == o.State().GetStatus()
    {
      hide PrepareTrade, Order.GetStatus;
      var _ := trade.buyOrder.UpdateStatus();
      var _ := trade.sellOrder.UpdateStatus();
      SettleOne(transactions, OfTrade(|savedTrades|));
      transactions := transactions + [OfTrade(|savedTrades|)];
      savedTrades := savedTrades + [PrepareTrade(trade)];
    }

    /** `publicTrades`: one row and one pending settlement per trade; all orders show the status of their state. */
    method PublicTrades(trades: seq<OrderTrade>)
      requires Valid() && FeesBelowOne(trades)
      modifies this, OrdersTraded(trades)`status
      ensures Valid() && savedTrades == old(savedTrades) + Records(trades)
      ensures Stored(savedTrades[|old(savedTrades)|..], trades)
      ensures transactions == old(transactions) + Settlements(|old(savedTrades)|, |trades|)
      ensures forall o <- OrdersTraded(trades) :: o.status == o.State().GetStatus()
    {
      hide PrepareTrade, Order.GetStatus, OrderEntity.State, Valid, FeesBelowOne, OrdersTraded, Stored;
      assert Settlements(|savedTrades|, 0) == [];
      hide Settlements;
      AllFeesBelowOne(trades);
      NothingStored(trades);
      RecordsAreStored(trades);
      hide Records;
      for i := 0 to |trades|
        invariant Valid() && savedTrades == old(savedTrades) + Records(trades[..i])
        invariant transactions == old(transactions) + Settlements(|old(savedTrades)|, i)
        invariant forall o <- OrdersTraded(trades[..i]) :: o.status == o.State().GetStatus()
      {
        StoreNext(trades, i, old(savedTrades));
        OneMoreSettled(old(transactions), |old(savedTrades)|, i);
      }
      assert trades[..|trades|] == trades;
      assert savedTrades[|old(savedTrades)|..] == Records(trades);
    }

    /** `OrdersService.cancelOrder`: an order is canceled, or partially filled if it has filled anything. */
    method CancelOrder(order: OrderEntity)
      requires Valid()
      modifies this`transactions, order`status
      ensures Valid() && savedTrades == old(savedTrades) && transactions == old(transactions) + [OfCancel(order.id)]
      ensures order.status == if order.filledAmount == 0.0 then Canceled else PartiallyFilled
    {
      SettleOne(transactions, OfCancel(order.id));
      order.status := if order.filledAmount == 0.0 then Canceled else PartiallyFilled;
      transactions := transactions + [OfCancel(order.id)];
    }

    /** `publish`. */
    method Publish(output: OrderOutput)
      requires Valid() && (output.Matched? ==> FeesBelowOne(output.trades))
      modifies this, OrdersOfOutput(output)`status
      ensures Valid() && old(savedTrades) <= savedTrades
      ensures Stored(savedTrades[|old(savedTrades)|..], if output.Matched? then output.trades else [])
      ensures output.Matched? ==>
                && transactions == old(transactions) + Settlements(|old(savedTrades)|, |output.trades|)
                && forall o <- OrdersTraded(output.trades) :: o.status == o.State().GetStatus()
      ensures output.Withdrawn? ==>
                && transactions == old(transactions) + [OfCancel(output.order.id)] && savedTrades == old(savedTrades)
                && output.order.status == if output.order.filledAmount == 0.0 then Canceled else PartiallyFilled
    {
      if output.Matched? {
        PublicTrades(output.trades);
      } else {
        CancelOrder(output.order);
      }
    }

    /** One round of the loop. */
    method StoreNext(trades: seq<OrderTrade>, i: nat, ghost before: seq<TradeRecord>)
      requires Valid() && i < |trades| && FeesBelowOne(trades) && FeesBelowOne(trades[..i])
      requires savedTrades == before + Records(trades[..i])
      requires forall o <- OrdersTraded(trades[..i]) :: o.status == o.State().GetStatus()
      modifies this, OrdersTraded(trades)`status
      ensures Valid() && FeesBelowOne(trades[..i + 1]) && savedTrades == before + Records(trades[..i + 1])
      ensures transactions == old(transactions) + [OfTrade(|before| + i)]
      ensures forall o <- OrdersTraded(trades[..i + 1]) :: o.status == o.State().GetStatus()
    {
      hide PrepareTrade, Order.GetStatus, Records, OrderEntity.State, Valid, FeesBelowOne;
      TradedOrders(trades, i);
      OneMoreStored(trades, i);
      ghost var shown, two := OrdersTraded(trades[..i]), {trades[i].buyOrder, trades[i].sellOrder};
      StoreTrade(trades[i]);
      forall o: OrderEntity | o in shown + two ensures o.status == o.State().GetStatus() {
        if o !in two { assert o in shown; }
      }
      assert before + (Records(trades[..i]) + [PrepareTrade(trades[i])]) == savedTrades;
    }
  }

  function OrdersOfOutput(output: OrderOutput): set<OrderEntity> {
    if output.Matched? then OrdersTraded(output.trades) else {output.order}
  }

  lemma TradedOrders(trades: seq<OrderTrade>, i: nat)
    requires i < |trades|
    ensures OrdersTraded(trades[..i + 1]) == OrdersTraded(trades[..i]) + {trades[i].buyOrder, trades[i].sellOrder}
    ensures OrdersTraded(trades[..i + 1]) <= OrdersTraded(trades) && OrdersTraded([]) == {}
  {
    assert trades[..i + 1] == trades[..i] + [trades[i]];
    assert forall t :: t in trades[..i + 1] <==> t in trades[..i] || t == trades[i];
    assert forall t <- trades[..i + 1] :: t in trades;
  }

  function Records(trades: seq<OrderTrade>): (r: seq<TradeRecord>)
    requires FeesBelowOne(trades)
    ensures |r| == |trades|
  {
    if trades == [] then []
    else
      assert trades[|trades| - 1] in trades;
      Records(trades[..|trades| - 1]) + [PrepareTrade(trades[|trades| - 1])]
  }

  lemma NothingStored(trades: seq<OrderTrade>)
    requires FeesBelowOne(trades)
    ensures FeesBelowOne(trades[..0]) && Records(trades[..0]) == [] && OrdersTraded(trades[..0]) == {}
  {
  }

  lemma AllFeesBelowOne(trades: seq<OrderTrade>)
    requires FeesBelowOne(trades)
    ensures forall i :: 0 <= i <= |trades| ==> FeesBelowOne(trades[..i])
  {
    forall i | 0 <= i <= |trades| ensures FeesBelowOne(trades[..i]) {
      forall t | t in trades[..i] ensures t in trades {}
    }
  }

  lemma OneMoreStored(trades: seq<OrderTrade>, i: nat)
    requires i < |trades| && FeesBelowOne(trades)
    ensures trades[i].buyOrder.feeRate < 1.0 && trades[i].sellOrder.feeRate < 1.0
    ensures FeesBelowOne(trades[..i + 1]) && FeesBelowOne(trades[..i])
    ensures Records(trades[..i + 1]) == Records(trades[..i]) + [PrepareTrade(trades[i])]
  {
    assert trades[i] in trades && trades[..i + 1][..i] == trades[..i];
  }

  lemma {:induction false} RecordsAreStored(trades: seq<OrderTrade>)
    requires FeesBelowOne(trades)
    ensures Stored(Records(trades), trades)
  {
    if trades != [] {
      var before := trades[..|trades| - 1];
      assert trades[|trades| - 1] in trades && FeesBelowOne(before);
      RecordsAreStored(before);
    }
  }

  // ---------- Stored amounts ----------

  predicate Names(r: TradeRecord, id: int) { r.buyOrderId == id || r.sellOrderId == id }

  function AmountStored(records: seq<TradeRecord>, id: int): real {
    if records == [] then 0.0
    else AmountStored(records[1..], id) + if Names(records[0], id) then records[0].filledAmount else 0.0
  }

  function ValueStored(records: seq<TradeRecord>, id: int): real {
    if records == [] then 0.0
    else
      var r := records[0];
      ValueStored(records[1..], id) + if Names(r, id) then r.price * r.filledAmount else 0.0
  }

  /** The stored amounts and values of an order are those of its trades. */
  lemma {:induction false} StoredAmounts(records: seq<TradeRecord>, trades: seq<OrderTrade>, id: int)
    requires Stored(records, trades)
    ensures AmountStored(records, id) == QuantityOf(TradeViews(trades), id)
    ensures ValueStored(records, id) == ValueOf(TradeViews(trades), id)
  {
    if trades != [] {
      StoredAmounts(records[1..], trades[1..], id);
      assert TradeViews(trades)[1..] == TradeViews(trades[1..]);
    }
  }

  lemma StoredSums(filled: real, filled': real, worth: real, worth': real, net: real, quantity: real, value: real)
    requires filled' * net == filled * net + quantity && worth' * net == worth * net + value
    ensures quantity == (filled' - filled) * net && value == (worth' - worth) * net
  {
  }

  /**
   Over any run the stored rows of an order add up to what it filled in the run, and price times amount to what that was
   worth, both less the fee.
   */
  lemma StoredForRun(run: seq<Event>, id: int, first: Order, last: Order, records: seq<TradeRecord>,
                     stored: seq<OrderTrade>)
    requires Processed(run, id, first, last, TradeViews(stored)) && Stored(records, stored)
    ensures AmountStored(records, id) == (last.filled - first.filled) * (1.0 - first.feeRate)
    ensures ValueStored(records, id)
            == (last.average * last.filled - first.average * first.filled) * (1.0 - first.feeRate)
  {
    hide Processed, QuantityOf, ValueOf, AmountStored, ValueStored, LedgerAfter, TradeViews, Stored, WithinLimits;
    ProcessedRow(run, id, first, last, TradeViews(stored));
    StoredAmounts(records, stored, id);
    StoredSums(first.filled, last.filled, first.Notional(), last.Notional(), 1.0 - first.feeRate,
      AmountStored(records, id), ValueStored(records, id));
  }

  /** Over any run every stored row is between a buy and a sell order, at a price within the limits of both. */
  lemma StoredWithinLimits(run: seq<Event>, id: int, first: Order, last: Order, records: seq<TradeRecord>,
                           stored: seq<OrderTrade>, i: nat)
    requires Processed(run, id, first, last, TradeViews(stored)) && Stored(records, stored) && i < |records|
    ensures var l, r := LedgerAfter(INITIAL, EMPTY_LEDGER, run), records[i];
            && r.buyOrderId in l.submitted && l.submitted[r.buyOrderId].side.Buy?
            && r.sellOrderId in l.submitted && l.submitted[r.sellOrderId].side.Sell?
            && l.submitted[r.sellOrderId].price <= r.price <= l.submitted[r.buyOrderId].price
            && r.filledAmount > 0.0
  {
    hide Processed, LedgerAfter, Accounts, QuantityOf, ValueOf;
    ProcessedRow(run, id, first, last, TradeViews(stored));
    assert TradeViews(stored)[i] in TradeViews(stored);
  }

  // ---------- Stored fees ----------

  function SellFeesStored(records: seq<TradeRecord>, id: int): real {
    if records == [] then 0.0
    else SellFeesStored(records[..|records| - 1], id)
         + (if records[|records| - 1].sellOrderId == id then records[|records| - 1].sellFee else 0.0)
  }

  function BuyFeesStored(records: seq<TradeRecord>, id: int): real {
    if records == [] then 0.0
    else BuyFeesStored(records[..|records| - 1], id)
         + (if records[|records| - 1].buyOrderId == id then records[|records| - 1].buyFee else 0.0)
  }

  /** The order is on the given side of every trade that names it. */
  predicate OnlyOn(trades: seq<OrderTrade>, o: Order, side: Side) {
    forall t <- trades ::
      && (t.sellOrder.id == o.id ==> side.Sell? && t.sellOrder.feeRate == o.feeRate)
      && (t.buyOrder.id == o.id ==> side.Buy? && t.buyOrder.feeRate == o.feeRate)
  }

  lemma {:induction false} FeesConcat(a: seq<Trade>, b: seq<Trade>, o: Order)
    requires o.feeRate < 1.0
    ensures SellFees(a + b, o) == SellFees(a, o) + SellFees(b, o) && BuyFees(a + b, o) == BuyFees(a, o) + BuyFees(b, o)
  {
    if a == [] {
      assert a + b == b;
    } else {
      assert (a + b)[1..] == a[1..] + b;
      FeesConcat(a[1..], b, o);
    }
  }

  lemma FeesOfOne(t: OrderTrade, o: Order)
    requires t.buyOrder.feeRate < 1.0 && t.sellOrder.feeRate < 1.0 && o.feeRate < 1.0
    ensures OnlyOn([t], o, Sell) ==> SellFees([t.View()], o) == if t.sellOrder.id == o.id then PrepareTrade(t).sellFee
      else 0.0
    ensures OnlyOn([t], o, Buy) ==> BuyFees([t.View()], o) == if t.buyOrder.id == o.id then PrepareTrade(t).buyFee
      else 0.0
  {
    assert [t.View()][1..] == [] && t in [t];
    assert SellFees([], o) == 0.0 && BuyFees([], o) == 0.0;
  }

  /** The fees stored for an order are those its trades amount to. */
  lemma {:induction false} StoredFees(trades: seq<OrderTrade>, o: Order)
    requires FeesBelowOne(trades) && o.feeRate < 1.0
    ensures OnlyOn(trades, o, Sell) ==> SellFeesStored(Records(trades), o.id) == SellFees(TradeViews(trades), o)
    ensures OnlyOn(trades, o, Buy) ==> BuyFeesStored(Records(trades), o.id) == BuyFees(TradeViews(trades), o)
  {
    if trades != [] {
      var before, t := trades[..|trades| - 1], trades[|trades| - 1];
      assert t in trades && FeesBelowOne(before);
      StoredFees(before, o);
      assert TradeViews(trades) == TradeViews(before) + [t.View()];
      FeesConcat(TradeViews(before), [t.View()], o);
      FeesOfOne(t, o);
      hide PrepareTrade, SellFees, BuyFees, OrderTrade.View;
      assert PrepareTrade(t).sellOrderId == t.sellOrder.id
        && PrepareTrade(t).buyOrderId == t.buyOrder.id by { RecordNames(t); }
      assert Records(trades)[..|Records(before)|] == Records(before);
    }
  }

  lemma RecordNames(t: OrderTrade)
    requires t.buyOrder.feeRate < 1.0 && t.sellOrder.feeRate < 1.0
    ensures PrepareTrade(t).sellOrderId == t.sellOrder.id && PrepareTrade(t).buyOrderId == t.buyOrder.id
  {
  }

  /** Orders named `id` carry the fee rate. */
  predicate CarryRate(trades: seq<OrderTrade>, id: int, feeRate: real) {
    forall t <- trades ::
      && (t.sellOrder.id == id ==> t.sellOrder.feeRate == feeRate)
      && (t.buyOrder.id == id ==> t.buyOrder.feeRate == feeRate)
  }

  /** Every trade that names the order names it on its own side. */
  ghost predicate OnItsSide(views: seq<Trade>, o: Order) {
    forall t <- views :: (t.sellId == o.id ==> o.side.Sell?) && (t.buyId == o.id ==> o.side.Buy?)
  }

  /** Buys and sells are never confused: a run trades an order on the side it was submitted on. */
  lemma ProcessedOnItsSide(run: seq<Event>, id: int, first: Order, last: Order, trades: seq<Trade>)
    requires Processed(run, id, first, last, trades)
    ensures first.id == id && OnItsSide(trades, first)
  {
    ProcessedRow(run, id, first, last, trades);
    hide LedgerAfter, Legal;
  }

  lemma OnOneSide(trades: seq<OrderTrade>, o: Order)
    requires OnItsSide(TradeViews(trades), o) && CarryRate(trades, o.id, o.feeRate)
    ensures OnlyOn(trades, o, o.side)
  {
    forall t <- trades
      ensures t.sellOrder.id == o.id ==> o.side.Sell?
      ensures t.buyOrder.id == o.id ==> o.side.Buy?
    {
      var i :| 0 <= i < |trades| && trades[i] == t;
      assert TradeViews(trades)[i] == t.View() && TradeViews(trades)[i] in TradeViews(trades);
    }
  }

  lemma {:induction false} NothingOnOtherSide(trades: seq<OrderTrade>, o: Order)
    requires FeesBelowOne(trades) && OnlyOn(trades, o, o.side)
    ensures o.side.Buy? ==> SellFeesStored(Records(trades), o.id) == 0.0
    ensures o.side.Sell? ==> BuyFeesStored(Records(trades), o.id) == 0.0
  {
    if trades != [] {
      var before, t := trades[..|trades| - 1], trades[|trades| - 1];
      assert t in trades && FeesBelowOne(before);
      NothingOnOtherSide(before, o);
      RecordNames(t);
      hide PrepareTrade;
      assert Records(trades)[..|Records(before)|] == Records(before);
    }
  }

  /**
   Over any run, what is stored of its trades as fees of an order is the order's fee rate on what it filled, or on what
   that was worth where it buys; the fees of the other side hold nothing of it.
   */
  lemma FeesStoredForRun(run: seq<Event>, id: int, first: Order, last: Order, stored: seq<OrderTrade>)
    requires Processed(run, id, first, last, TradeViews(stored))
    requires FeesBelowOne(stored) && CarryRate(stored, id, first.feeRate)
    ensures SellFeesStored(Records(stored), id)
            == if first.side.Sell? then first.feeRate * (last.filled - first.filled) else 0.0
    ensures BuyFeesStored(Records(stored), id)
            == if first.side.Buy? then first.feeRate * (last.Notional() - first.Notional()) else 0.0
  {
    hide Processed, TradeViews, FeesBelowOne, CarryRate, OnItsSide, OnlyOn, SellFeesStored, BuyFeesStored, Records;
    hide Order.Notional, SellFees, BuyFees;
    ProcessedOnItsSide(run, id, first, last, TradeViews(stored));
    FeesMatchFills(run, id, first, last, TradeViews(stored));
    OnOneSide(stored, first);
    StoredFees(stored, first);
    NothingOnOtherSide(stored, first);
  }
}
