/** The Stellar trading fee: what is charged trade by trade, and what a cancelled order gets back. */
module StellarFees {
  import opened Options
  import opened Decimals
  import opened Orders

  // STELLAR_ACCEPT_NUMBER_OF_DECIMAL is 7.
  const UNITS: real := 10000000.0
  const HALF_UNIT: real := 0.00000005

  /** A trade as the Stellar network reports it; `sameAssets` where its base asset is the pair's base. */
  datatype StellarTrade = StellarTrade(baseAmount: real, counterAmount: real, n: real, d: real, sameAssets: bool) {
    predicate WellFormed() {
      baseAmount > 0.0 && counterAmount > 0.0 && n > 0.0 && d > 0.0 && counterAmount * d == baseAmount * n
    }

    /** `convertToFcxTrade`: price and amount in the pair's own orientation. */
    function Price(): real
      requires WellFormed()
    {
      if sameAssets then n / d else d / n
    }

    function Amount(): real { if sameAssets then baseAmount else counterAmount }

    function Quote(): real { if sameAssets then counterAmount else baseAmount }
  }

  /** The order columns the fee depends on. */
  datatype FeeOrder = FeeOrder(kind: OrderType, amount: real, total: real, feeRate: real, takerFee: real) {
    predicate WellFormed() { amount > 0.0 && total >= 0.0 && 0.0 <= feeRate < 1.0 }

    predicate UsesTotal() { kind.Market? && total > 0.0 }
  }

  predicate Consistent(trades: seq<StellarTrade>, sameAssets: bool) {
    forall t <- trades :: t.WellFormed() && t.sameAssets == sameAssets
  }

  function SumBase(trades: seq<StellarTrade>): real {
    if trades == [] then 0.0 else SumBase(trades[..|trades| - 1]) + trades[|trades| - 1].baseAmount
  }

  function SumCounter(trades: seq<StellarTrade>): real {
    if trades == [] then 0.0 else SumCounter(trades[..|trades| - 1]) + trades[|trades| - 1].counterAmount
  }

  /** `getFilledAmounts`: the first trade decides which side is summed. */
  function FilledAmounts(trades: seq<StellarTrade>): real {
    if trades == [] then 0.0 else if trades[0].sameAssets then SumBase(trades) else SumCounter(trades)
  }

  /** `getFilledTotal`. */
  function FilledTotal(trades: seq<StellarTrade>): real {
    if trades == [] then 0.0 else if trades[0].sameAssets then SumCounter(trades) else SumBase(trades)
  }

  lemma {:induction false} SumsPositive(trades: seq<StellarTrade>)
    requires forall t <- trades :: t.WellFormed()
    ensures SumBase(trades) >= 0.0 && SumCounter(trades) >= 0.0
    ensures trades != [] ==> SumBase(trades) > 0.0 && SumCounter(trades) > 0.0
  {
    if trades != [] {
      assert trades[|trades| - 1] in trades;
      SumsPositive(trades[..|trades| - 1]);
    }
  }

  /** `getAverage`: here the last trade decides. */
  method GetAverage(trades: seq<StellarTrade>) returns (average: Option<real>)
    requires forall t <- trades :: t.WellFormed()
    ensures (forall t <- trades :: t.sameAssets == trades[0].sameAssets) ==> IsAverage(trades, average)
    ensures average.None? <==> trades == []
    ensures average.Some? ==>
              var up := trades[|trades| - 1].sameAssets;
              average.value * (if up then SumBase(trades) else SumCounter(trades))
                == (if up then SumCounter(trades) else SumBase(trades))
  {
    if |trades| == 0 {
      return None;
    }
    var baseAmount, counterAmount, isSameAssetOrder := 0.0, 0.0, false;
    for i := 0 to |trades|
      invariant baseAmount == SumBase(trades[..i]) && counterAmount == SumCounter(trades[..i])
      invariant isSameAssetOrder == (i > 0 && trades[i - 1].sameAssets)
    {
      assert trades[..i + 1][..i] == trades[..i];
      baseAmount, counterAmount := baseAmount + trades[i].baseAmount, counterAmount + trades[i].counterAmount;
      isSameAssetOrder := trades[i].sameAssets;
    }
    assert trades[..|trades|] == trades;
    SumsPositive(trades);
    if isSameAssetOrder {
      QuotientTimes(counterAmount, baseAmount);
      average := Some(counterAmount / baseAmount);
    } else {
      QuotientTimes(baseAmount, counterAmount);
      average := Some(baseAmount / counterAmount);
    }
  }

  /** `getOriginAmount`. */
  function OriginAmount(x: real, feeRate: real): real
    requires feeRate < 1.0
  {
    x / (1.0 - feeRate)
  }

  /** `calculateFeeAmount`. */
  function FeeAmount(amount: real, price: real, o: FeeOrder): real
    requires o.WellFormed()
  {
    var included := OriginAmount(amount, o.feeRate);
    (if o.UsesTotal() then included * price / o.total else included / o.amount) * o.takerFee
  }

  function FeesCharged(trades: seq<StellarTrade>, o: FeeOrder): real
    requires o.WellFormed() && forall t <- trades :: t.WellFormed()
  {
    if trades == [] then 0.0
    else
      var t := trades[|trades| - 1];
      assert t in trades;
      FeesCharged(trades[..|trades| - 1], o) + FeeAmount(t.Amount(), t.Price(), o)
  }

  /** `toFixed(7)`: half away from zero. */
  function Fixed7(x: real): (r: real)
    ensures -HALF_UNIT <= r - x <= HALF_UNIT
  {
    if x >= 0.0 then (x * UNITS + 0.5).Floor as real / UNITS else -((-x * UNITS + 0.5).Floor as real / UNITS)
  }

  /** The nearest multiple of the unit, and of two equally near the one farther from zero. */
  lemma Fixed7Rounds(x: real)
    ensures var units := Fixed7(x) * UNITS; units == units.Floor as real
    ensures -HALF_UNIT <= Fixed7(x) - x <= HALF_UNIT
    ensures Fixed7(x) - x == HALF_UNIT ==> x > 0.0
    ensures Fixed7(x) - x == -HALF_UNIT ==> x < 0.0
  {
    var n := if x >= 0.0 then (x * UNITS + 0.5).Floor else (-x * UNITS + 0.5).Floor;
    var r := n as real / UNITS;
    assert Fixed7(x) == if x >= 0.0 then r else -r;
    NearestUnit(if x >= 0.0 then x else -x, n);
    hide Fixed7;
    assert r * UNITS == n as real && -r * UNITS == (-n) as real;
    assert Fixed7(x) * UNITS == (if x >= 0.0 then n else -n) as real;
  }

  lemma NearestUnit(x: real, n: int)
    requires n == (x * UNITS + 0.5).Floor
    ensures var r := n as real / UNITS; r * UNITS == n as real && -HALF_UNIT < r - x <= HALF_UNIT
  {
    var r := n as real / UNITS;
    assert r * UNITS == n as real;
    assert (r - x) * UNITS == n as real - x * UNITS;
  }

  /** The part of the order the picker takes for matched; an unset average counts as 0. */
  function MatchedPercent(o: FeeOrder, filled: real, average: Option<real>): real
    requires o.WellFormed()
  {
    if o.total > 0.0 then filled * (if average.Some? then average.value else 0.0) / o.total else filled / o.amount
  }

  /** The refund of `pickCancelStellarOperations`. */
  function ReturnFee(o: FeeOrder, filled: real, average: Option<real>): real
    requires o.WellFormed()
  {
    Fixed7((1.0 - MatchedPercent(o, filled, average)) * o.takerFee)
  }

  /** What `createOrUpdateStellarOffer` stores as the order's average. */
  ghost predicate IsAverage(trades: seq<StellarTrade>, average: Option<real>) {
    && (average.None? <==> trades == [])
    && (average.Some? ==> average.value * FilledAmounts(trades) == FilledTotal(trades))
  }

  // ---------- The fees as a share of the order ----------

  /** The fee on a net quantity `x` of an order worth `v`. */
  function Share(x: real, net: real, v: real, fee: real): real
    requires net > 0.0 && v > 0.0
  {
    ((x / net) / v) * fee
  }

  lemma ShareAdds(x: real, y: real, net: real, v: real, fee: real)
    requires net > 0.0 && v > 0.0
    ensures Share(x + y, net, v, fee) == Share(x, net, v, fee) + Share(y, net, v, fee)
  {
    QuotientAdds(x, y, net);
    QuotientAdds(x / net, y / net, v);
    Distribute((x / net) / v, (y / net) / v, fee);
  }

  lemma QuotientAdds(x: real, y: real, d: real)
    requires d > 0.0
    ensures (x + y) / d == x / d + y / d
  {
    QuotientTimes(x + y, d);
    QuotientTimes(x, d);
    QuotientTimes(y, d);
    Distribute(x / d, y / d, d);
    SameProduct((x + y) / d, x / d + y / d, d);
  }

  lemma ShareOfNothing(net: real, v: real, fee: real)
    requires net > 0.0 && v > 0.0
    ensures Share(0.0, net, v, fee) == 0.0
  {
    QuotientTimes(0.0, net);
    SameProduct(0.0 / net, 0.0, net);
    QuotientTimes(0.0, v);
    SameProduct(0.0 / v, 0.0, v);
  }

  /** Grossing up before or after pricing makes no difference. */
  lemma GrossTimesPrice(amount: real, price: real, quote: real, net: real)
    requires net > 0.0 && amount * price == quote
    ensures (amount / net) * price == quote / net
  {
    QuotientTimes(amount, net);
    QuotientTimes(quote, net);
    assert ((amount / net) * price) * net == ((amount / net) * net) * price;
    SameProduct((amount / net) * price, quote / net, net);
  }

  /** Price times amount is the quote amount, in either orientation. */
  lemma QuoteIsWorth(t: StellarTrade)
    requires t.WellFormed()
    ensures t.Amount() * t.Price() == t.Quote()
  {
    if t.sameAssets {
      QuotientTimes(t.n, t.d);
      assert (t.baseAmount * (t.n / t.d)) * t.d == t.baseAmount * ((t.n / t.d) * t.d);
      SameProduct(t.baseAmount * (t.n / t.d), t.counterAmount, t.d);
    } else {
      QuotientTimes(t.d, t.n);
      assert (t.counterAmount * (t.d / t.n)) * t.n == t.counterAmount * ((t.d / t.n) * t.n);
      SameProduct(t.counterAmount * (t.d / t.n), t.baseAmount, t.n);
    }
  }

  lemma FeeIsShare(t: StellarTrade, o: FeeOrder)
    requires t.WellFormed() && o.WellFormed()
    ensures FeeAmount(t.Amount(), t.Price(), o)
            == if o.UsesTotal() then Share(t.Quote(), 1.0 - o.feeRate, o.total, o.takerFee)
               else Share(t.Amount(), 1.0 - o.feeRate, o.amount, o.takerFee)
  {
    QuoteIsWorth(t);
    GrossTimesPrice(t.Amount(), t.Price(), t.Quote(), 1.0 - o.feeRate);
  }

  function SumAmount(trades: seq<StellarTrade>, sameAssets: bool): real {
    if sameAssets then SumBase(trades) else SumCounter(trades)
  }

  /** The fees charged add up to the share of everything filled. */
  lemma {:induction false} FeesAreShare(trades: seq<StellarTrade>, sameAssets: bool, o: FeeOrder)
    requires Consistent(trades, sameAssets) && o.WellFormed()
    ensures FeesCharged(trades, o)
            == if o.UsesTotal() then Share(SumAmount(trades, !sameAssets), 1.0 - o.feeRate, o.total, o.takerFee)
               else Share(SumAmount(trades, sameAssets), 1.0 - o.feeRate, o.amount, o.takerFee)
  {
    var net := 1.0 - o.feeRate;
    if trades == [] {
      ShareOfNothing(net, o.amount, o.takerFee);
      if o.UsesTotal() { ShareOfNothing(net, o.total, o.takerFee); }
    } else {
      var before, t := trades[..|trades| - 1], trades[|trades| - 1];
      assert t in trades;
      FeesAreShare(before, sameAssets, o);
      FeeIsShare(t, o);
      hide Share, FeeAmount;
      ShareAdds(SumAmount(before, sameAssets), t.Amount(), net, o.amount, o.takerFee);
      if o.UsesTotal() { ShareAdds(SumAmount(before, !sameAssets), t.Quote(), net, o.total, o.takerFee); }
    }
  }

  /** What the picker takes for matched, times the fee, is a share too. */
  lemma MatchedIsShare(trades: seq<StellarTrade>, sameAssets: bool, o: FeeOrder, average: Option<real>)
    requires Consistent(trades, sameAssets) && o.WellFormed() && IsAverage(trades, average)
    ensures MatchedPercent(o, OriginAmount(FilledAmounts(trades), o.feeRate), average) * o.takerFee
            == if o.total > 0.0 then Share(SumAmount(trades, !sameAssets), 1.0 - o.feeRate, o.total, o.takerFee)
               else Share(SumAmount(trades, sameAssets), 1.0 - o.feeRate, o.amount, o.takerFee)
  {
    var net := 1.0 - o.feeRate;
    if trades == [] {
      ShareOfNothing(net, o.amount, o.takerFee);
      if o.total > 0.0 { ShareOfNothing(net, o.total, o.takerFee); }
    } else {
      assert trades[0] in trades;
      GrossTimesPrice(FilledAmounts(trades), average.value, FilledTotal(trades), net);
    }
  }

  /** The refund is computed on the same basis as the fees: a total counts on market orders only. */
  predicate SameBasis(o: FeeOrder) { o.total > 0.0 ==> o.kind.Market? }

  lemma ChargedIsMatched(trades: seq<StellarTrade>, sameAssets: bool, o: FeeOrder, average: Option<real>)
    requires Consistent(trades, sameAssets) && o.WellFormed() && SameBasis(o) && IsAverage(trades, average)
    ensures FeesCharged(trades, o)
      == MatchedPercent(o, OriginAmount(FilledAmounts(trades), o.feeRate), average) * o.takerFee
  {
    FeesAreShare(trades, sameAssets, o);
    MatchedIsShare(trades, sameAssets, o, average);
    hide Share, MatchedPercent, FeesCharged, OriginAmount;
  }

  lemma RefundRounds(charged: real, matched: real, fee: real)
    requires charged == matched * fee
    ensures -HALF_UNIT <= charged + Fixed7((1.0 - matched) * fee) - fee <= HALF_UNIT
  {
    Complement(matched, fee);
    hide Fixed7;
  }

  // ---------- The amount can be raised between a fee and the refund ----------

  /** The amount the order had when each trade's fee was charged; `updateStellarAmountIfNeeded` only raises it. */
  predicate RaisedTo(amounts: seq<real>, amount: real) {
    AllPositive(amounts) && forall i :: 0 <= i < |amounts| ==> amounts[i] <= amount
  }

  predicate AllPositive(amounts: seq<real>) { forall i :: 0 <= i < |amounts| ==> amounts[i] > 0.0 }

  predicate NeverRaised(amounts: seq<real>, amount: real) { forall i :: 0 <= i < |amounts| ==> amounts[i] == amount }

  /** Trades and the amounts their fees were charged on. */
  predicate Charged(trades: seq<StellarTrade>, amounts: seq<real>, o: FeeOrder) {
    && o.WellFormed() && |amounts| == |trades| && RaisedTo(amounts, o.amount)
    && forall i :: 0 <= i < |trades| ==> trades[i].WellFormed()
  }

  /** Each fee on the amount of its time. */
  function FeesChargedAt(trades: seq<StellarTrade>, amounts: seq<real>, o: FeeOrder): real
    requires Charged(trades, amounts, o)
  {
    if trades == [] then 0.0
    else
      var n := |trades| - 1;
      FeesChargedAt(trades[..n], amounts[..n], o)
      + FeeAmount(trades[n].Amount(), trades[n].Price(), o.(amount := amounts[n]))
  }

  function Ratio(x: real, a: real): real
    requires a > 0.0
  {
    x / a
  }

  /** The share of the order the trades are, each on the amount of its time. */
  function Portion(trades: seq<StellarTrade>, amounts: seq<real>): real
    requires |amounts| == |trades| && AllPositive(amounts)
  {
    if trades == [] then 0.0
    else
      var n := |trades| - 1;
      Portion(trades[..n], amounts[..n]) + Ratio(trades[n].Amount(), amounts[n])
  }

  /** Grossing up before or after taking the share makes no difference. */
  lemma GrossThenShare(x: real, net: real, v: real)
    requires net > 0.0 && v > 0.0
    ensures (x / net) / v == (x / v) / net
  {
    QuotientTimes(x, net);
    QuotientTimes(x, v);
    QuotientTimes(x / net, v);
    QuotientTimes(x / v, net);
    var a, b := (x / net) / v, (x / v) / net;
    assert (a * v) * net == x && (b * net) * v == x;
    assert a * (v * net) == b * (v * net);
    ProductPositive(v, net);
    SameProduct(a, b, v * net);
  }

  lemma {:induction false} ChargedIsPortion(trades: seq<StellarTrade>, amounts: seq<real>, o: FeeOrder)
    requires Charged(trades, amounts, o) && !o.UsesTotal()
    ensures FeesChargedAt(trades, amounts, o) == (Portion(trades, amounts) / (1.0 - o.feeRate)) * o.takerFee
  {
    var net := 1.0 - o.feeRate;
    if trades == [] {
      ShareOfNothing(net, 1.0, o.takerFee);
      QuotientTimes(0.0, net);
      SameProduct(0.0 / net, 0.0, net);
    } else {
      var n := |trades| - 1;
      assert trades[n] in trades;
      ChargedIsPortion(trades[..n], amounts[..n], o);
      var x, v := trades[n].Amount(), amounts[n];
      GrossThenShare(x, net, v);
      hide StellarTrade.Amount;
      QuotientAdds(Portion(trades[..n], amounts[..n]), x / v, net);
      Distribute(Portion(trades[..n], amounts[..n]) / net, (x / v) / net, o.takerFee);
    }
  }

  lemma ChargedStep(trades: seq<StellarTrade>, amounts: seq<real>, o: FeeOrder)
    requires trades != [] && Charged(trades, amounts, o) && o.UsesTotal()
    ensures var n := |trades| - 1;
            && |amounts| == |trades| && Charged(trades[..n], amounts[..n], o) && trades[n].WellFormed()
            && FeesChargedAt(trades, amounts, o)
               == FeesChargedAt(trades[..n], amounts[..n], o) + FeeAmount(trades[n].Amount(), trades[n].Price(), o)
  {
    hide FeeAmount, StellarTrade.WellFormed, StellarTrade.Amount, StellarTrade.Price;
    var n := |trades| - 1;
    assert Charged(trades[..n], amounts[..n], o);
    FeeIgnoresAmount(trades[n].Amount(), trades[n].Price(), o, amounts[n]);
  }

  lemma FeeIgnoresAmount(x: real, price: real, o: FeeOrder, amount: real)
    requires o.WellFormed() && o.UsesTotal() && amount > 0.0
    ensures o.(amount := amount).WellFormed() && FeeAmount(x, price, o.(amount := amount)) == FeeAmount(x, price, o)
  {
    hide OriginAmount;
  }

  /** With a total the amount does not matter. */
  lemma {:induction false} TotalIgnoresAmounts(trades: seq<StellarTrade>, amounts: seq<real>, o: FeeOrder)
    requires Charged(trades, amounts, o) && o.UsesTotal() && forall t <- trades :: t.WellFormed()
    ensures FeesChargedAt(trades, amounts, o) == FeesCharged(trades, o)
  {
    hide FeeAmount, Charged, StellarTrade.WellFormed, StellarTrade.Amount, StellarTrade.Price;
    if trades != [] {
      hide FeesChargedAt;
      var n := |trades| - 1;
      ChargedStep(trades, amounts, o);
      assert trades[n] in trades;
      TotalIgnoresAmounts(trades[..n], amounts[..n], o);
    }
  }

  /** By how much a portion of the amount exceeds a sum. */
  function Excess(portion: real, amount: real, sum: real): real { portion * amount - sum }

  /** One more trade on an amount no larger than the final one. */
  lemma ExcessStep(before: real, sum: real, x: real, a: real, amount: real)
    requires x > 0.0 && 0.0 < a <= amount
    ensures var more := Excess(before + Ratio(x, a), amount, sum + x) - Excess(before, amount, sum);
            more >= 0.0 && (more == 0.0 <==> a == amount)
  {
    var q := x / a;
    QuotientTimes(x, a);
    QuotientNonNegative(x, a);
    Distribute(before, q, amount);
    assert q * a == a * q == x && q * amount == amount * q;
    if a < amount { ProductStrict(a, amount, q); }
  }

  lemma {:induction false} PortionAtLeast(trades: seq<StellarTrade>, sameAssets: bool, amounts: seq<real>, amount: real)
    requires Consistent(trades, sameAssets) && |amounts| == |trades| && RaisedTo(amounts, amount)
    ensures var excess := Excess(Portion(trades, amounts), amount, SumAmount(trades, sameAssets));
            excess >= 0.0 && (excess == 0.0 <==> NeverRaised(amounts, amount))
  {
    hide Ratio, NeverRaised, Consistent, RaisedTo, SumAmount;
    if trades != [] {
      hide Excess, Portion;
      var n := |trades| - 1;
      TradeFacts(trades, sameAssets);
      AmountFacts(amounts, amount);
      PortionUnfolds(trades, amounts);
      PortionAtLeast(trades[..n], sameAssets, amounts[..n], amount);
      ExcessStep(Portion(trades[..n], amounts[..n]), SumAmount(trades[..n], sameAssets), trades[n].Amount(), amounts[n],
        amount);
    } else {
      NothingTraded(sameAssets, amounts, amount);
    }
  }

  lemma NothingTraded(sameAssets: bool, amounts: seq<real>, amount: real)
    requires amounts == []
    ensures SumAmount([], sameAssets) == 0.0 && NeverRaised(amounts, amount)
  {
  }

  lemma TradeFacts(trades: seq<StellarTrade>, sameAssets: bool)
    requires trades != [] && Consistent(trades, sameAssets)
    ensures var n := |trades| - 1;
            && Consistent(trades[..n], sameAssets) && trades[n].Amount() > 0.0
            && SumAmount(trades, sameAssets) == SumAmount(trades[..n], sameAssets) + trades[n].Amount()
  {
    assert trades[|trades| - 1] in trades;
  }

  lemma AmountFacts(amounts: seq<real>, amount: real)
    requires amounts != [] && RaisedTo(amounts, amount)
    ensures var n := |amounts| - 1;
            && AllPositive(amounts) && RaisedTo(amounts[..n], amount) && 0.0 < amounts[n] <= amount
            && (NeverRaised(amounts, amount) <==> NeverRaised(amounts[..n], amount) && amounts[n] == amount)
  {
  }

  lemma PortionUnfolds(trades: seq<StellarTrade>, amounts: seq<real>)
    requires trades != [] && |amounts| == |trades| && AllPositive(amounts)
    ensures var n := |trades| - 1;
            && AllPositive(amounts[..n])
            && Portion(trades, amounts) == Portion(trades[..n], amounts[..n]) + Ratio(trades[n].Amount(), amounts[n])
  {
    hide Ratio, StellarTrade.Amount;
  }

  lemma ChargedFacts(trades: seq<StellarTrade>, amounts: seq<real>, o: FeeOrder)
    requires Charged(trades, amounts, o)
    ensures o.WellFormed() && |amounts| == |trades| && RaisedTo(amounts, o.amount)
    ensures forall t <- trades :: t.WellFormed()
    ensures o.amount > 0.0 && 0.0 < 1.0 - o.feeRate
  {
  }

  lemma ExcessFromPortion(portion: real, x: real, net: real, amount: real, fee: real)
    requires net > 0.0 && amount > 0.0 && portion * amount >= x
    ensures var excess := (portion / net) * fee - Share(x, net, amount, fee);
            && (fee >= 0.0 ==> excess >= 0.0) && (excess == 0.0 <==> fee == 0.0 || portion * amount == x)
  {
    var p, q := portion / net, (x / net) / amount;
    QuotientTimes(portion, net);
    GrossThenShare(x, net, amount);
    QuotientTimes(x, amount);
    QuotientTimes(x / amount, net);
    ProductPositive(net, amount);
    assert (p * net) * amount == portion * amount && (q * net) * amount == x;
    assert p * (net * amount) == portion * amount && q * (net * amount) == x;
    ScaledThreshold(p, q, net * amount);
    FeeDecides(p, q, fee);
    if portion * amount == x { SameProduct(p, q, net * amount); }
    if fee >= 0.0 { ProductMonotone(q, p, fee); }
  }

  /** What is charged beyond what the final amount would ask for: nothing exactly if the amount was never raised. */
  lemma RaisedAmountCharges(trades: seq<StellarTrade>, sameAssets: bool, amounts: seq<real>, o: FeeOrder)
    requires Consistent(trades, sameAssets) && Charged(trades, amounts, o)
    ensures var excess := FeesChargedAt(trades, amounts, o) - FeesCharged(trades, o);
            && (o.takerFee >= 0.0 ==> excess >= 0.0)
            && (excess == 0.0 <==> o.UsesTotal() || o.takerFee == 0.0 || NeverRaised(amounts, o.amount))
  {
    hide FeesCharged, FeesChargedAt, Portion, SumAmount, Share, Charged, NeverRaised, Consistent, FeeOrder.WellFormed;
    hide RaisedTo;
    ChargedFacts(trades, amounts, o);
    if o.UsesTotal() {
      TotalIgnoresAmounts(trades, amounts, o);
    } else {
      FeesAreShare(trades, sameAssets, o);
      ChargedIsPortion(trades, amounts, o);
      PortionAtLeast(trades, sameAssets, amounts, o.amount);
      ExcessFromPortion(Portion(trades, amounts), SumAmount(trades, sameAssets), 1.0 - o.feeRate, o.amount, o.takerFee);
    }
  }

  /**
   Fees and refund together give back the fee paid in, to within half a unit of the seventh decimal, and what the fees
   charged before the amount was raised were too high; that is nothing exactly if they were not.
   */
  lemma FeesAreConserved(trades: seq<StellarTrade>, sameAssets: bool, amounts: seq<real>, o: FeeOrder,
                         average: Option<real>)
    requires Consistent(trades, sameAssets) && Charged(trades, amounts, o) && SameBasis(o) && IsAverage(trades, average)
    ensures var refund := ReturnFee(o, OriginAmount(FilledAmounts(trades), o.feeRate), average);
            var excess := FeesChargedAt(trades, amounts, o) - FeesCharged(trades, o);
            && -HALF_UNIT <= FeesChargedAt(trades, amounts, o) + refund - o.takerFee - excess <= HALF_UNIT
            && (o.takerFee >= 0.0 ==> excess >= 0.0)
            && (excess == 0.0 <==> o.UsesTotal() || o.takerFee == 0.0 || NeverRaised(amounts, o.amount))
  {
    hide FeesCharged, FeesChargedAt, MatchedPercent, OriginAmount, Fixed7, FilledAmounts, IsAverage;
    RaisedAmountCharges(trades, sameAssets, amounts, o);
    ChargedIsMatched(trades, sameAssets, o, average);
    RefundRounds(FeesCharged(trades, o), MatchedPercent(o, OriginAmount(FilledAmounts(trades), o.feeRate), average),
      o.takerFee);
  }

  lemma Complement(part: real, fee: real)
    ensures (1.0 - part) * fee == fee - part * fee
  {
  }

  /**
   Before rounding, with an amount never raised, nothing is lost exactly when the two bases agree, or nothing was
   filled, or no fee was paid, or the total happens to be the amount at the average price.
   */
  lemma ConservedIff(trades: seq<StellarTrade>, sameAssets: bool, o: FeeOrder, average: Option<real>)
    requires Consistent(trades, sameAssets) && o.WellFormed() && IsAverage(trades, average)
    ensures var matched := MatchedPercent(o, OriginAmount(FilledAmounts(trades), o.feeRate), average);
            FeesCharged(trades, o) + (1.0 - matched) * o.takerFee == o.takerFee
            <==> SameBasis(o) || trades == [] || o.takerFee == 0.0 || o.total == o.amount * average.value
  {
    FeesAreShare(trades, sameAssets, o);
    MatchedIsShare(trades, sameAssets, o, average);
    hide FeesCharged, MatchedPercent, OriginAmount;
    var matched := MatchedPercent(o, OriginAmount(FilledAmounts(trades), o.feeRate), average);
    Complement(matched, o.takerFee);
    if !SameBasis(o) {
      var net, x, y := 1.0 - o.feeRate, SumAmount(trades, sameAssets), SumAmount(trades, !sameAssets);
      if trades == [] {
        ShareOfNothing(net, o.amount, o.takerFee);
        ShareOfNothing(net, o.total, o.takerFee);
      } else {
        assert trades[0] in trades;
        SumsPositive(trades);
        SharesEqualIff(x, y, average.value, net, o.amount, o.total, o.takerFee);
      }
    }
  }

  /**
   Before rounding, with each fee on the amount of its time: on a market order's total nothing is ever lost; without a
   total exactly if the amount was never raised or no fee was paid; and on a limit order with a total exactly if the
   shares of the amounts, taken of the total, come to what was filled of it, or no fee was paid.
   */
  lemma RaisedConservedIff(trades: seq<StellarTrade>, sameAssets: bool, amounts: seq<real>, o: FeeOrder,
                           average: Option<real>)
    requires Consistent(trades, sameAssets) && Charged(trades, amounts, o) && IsAverage(trades, average)
    ensures var matched := MatchedPercent(o, OriginAmount(FilledAmounts(trades), o.feeRate), average);
            FeesChargedAt(trades, amounts, o) + (1.0 - matched) * o.takerFee == o.takerFee
            <==> o.UsesTotal() || o.takerFee == 0.0
                 || if o.total > 0.0 then Portion(trades, amounts) * o.total == SumAmount(trades, !sameAssets)
                    else NeverRaised(amounts, o.amount)
  {
    hide FeesCharged, FeesChargedAt, MatchedPercent, OriginAmount, FilledAmounts, IsAverage, Share, Portion, SumAmount;
    var matched := MatchedPercent(o, OriginAmount(FilledAmounts(trades), o.feeRate), average);
    Complement(matched, o.takerFee);
    if SameBasis(o) {
      ChargedIsMatched(trades, sameAssets, o, average);
      RaisedAmountCharges(trades, sameAssets, amounts, o);
    } else {
      MatchedIsShare(trades, sameAssets, o, average);
      ChargedIsPortion(trades, amounts, o);
      PortionDecides(Portion(trades, amounts), SumAmount(trades, !sameAssets), 1.0 - o.feeRate, o.total, o.takerFee);
    }
  }

  lemma PortionDecides(portion: real, y: real, net: real, total: real, fee: real)
    requires net > 0.0 && total > 0.0
    ensures (portion / net) * fee == Share(y, net, total, fee) <==> fee == 0.0 || portion * total == y
  {
    if portion * total >= y {
      ExcessFromPortion(portion, y, net, total, fee);
    } else {
      ExcessFromPortion(-portion, -y, net, total, fee);
      Negated(portion, y, net, total, fee);
    }
  }

  lemma Negated(portion: real, y: real, net: real, total: real, fee: real)
    requires net > 0.0 && total > 0.0
    ensures (-portion / net) * fee == -((portion / net) * fee)
    ensures Share(-y, net, total, fee) == -Share(y, net, total, fee)
    ensures -portion * total == -(portion * total)
  {
    assert (-portion) / net == -(portion / net);
    assert (-y) / net == -(y / net);
    assert (-(y / net)) / total == -((y / net) / total);
  }

  const LIMIT_WITH_TOTAL := FeeOrder(Limit, 2.0, 1.0, 0.0, 1.0)
  const ONE_FOR_ONE := StellarTrade(1.0, 1.0, 1.0, 1.0, true)

  /**
   Half of this limit order's amount is filled, but all of its total: half the fee is charged and nothing returned.
   */
  lemma LimitWithTotalLosesHalf()
    ensures IsAverage([ONE_FOR_ONE], Some(1.0))
    ensures FeesCharged([ONE_FOR_ONE], LIMIT_WITH_TOTAL) == 0.5
    ensures ReturnFee(LIMIT_WITH_TOTAL, OriginAmount(FilledAmounts([ONE_FOR_ONE]), 0.0), Some(1.0)) == 0.0
  {
    SingleTrade(ONE_FOR_ONE, LIMIT_WITH_TOTAL);
    assert FeeAmount(1.0, 1.0, LIMIT_WITH_TOTAL) == 0.5;
    WhollyMatched(LIMIT_WITH_TOTAL);
    hide MatchedPercent, FeesCharged, SumBase, SumCounter;
  }

  const RAISED_TO_TWO := FeeOrder(Limit, 2.0, 0.0, 0.0, 1.0)

  /** All of this order was filled when its amount was 1; raised to 2 and cancelled, it gets half its fee back too. */
  lemma RaisedAmountIsRefunded()
    ensures Charged([ONE_FOR_ONE], [1.0], RAISED_TO_TWO) && IsAverage([ONE_FOR_ONE], Some(1.0))
    ensures FeesChargedAt([ONE_FOR_ONE], [1.0], RAISED_TO_TWO) == 1.0
    ensures ReturnFee(RAISED_TO_TWO, OriginAmount(FilledAmounts([ONE_FOR_ONE]), 0.0), Some(1.0)) == 0.5
  {
    var asItWas := RAISED_TO_TWO.(amount := 1.0);
    assert [ONE_FOR_ONE][..0] == [];
    assert FeesChargedAt([], [], RAISED_TO_TWO) == 0.0;
    assert FeeAmount(1.0, 1.0, asItWas) == 1.0;
    SingleTrade(ONE_FOR_ONE, asItWas);
    hide FeesChargedAt, FeesCharged, SumBase, SumCounter;
  }

  lemma SingleTrade(t: StellarTrade, o: FeeOrder)
    requires t.WellFormed() && o.WellFormed()
    ensures SumBase([t]) == t.baseAmount && SumCounter([t]) == t.counterAmount
    ensures FeesCharged([t], o) == FeeAmount(t.Amount(), t.Price(), o)
  {
    hide FeeAmount;
    assert [t][..|[t]| - 1] == [];
    assert SumBase([]) == SumCounter([]) == 0.0;
  }

  lemma WhollyMatched(o: FeeOrder)
    requires o.WellFormed() && o.total == 1.0
    ensures MatchedPercent(o, 1.0, Some(1.0)) == 1.0
  {
    var total := o.total;
    assert 1.0 * 1.0 / total == 1.0;
  }

  lemma SharesEqualIff(x: real, y: real, average: real, net: real, amount: real, total: real, fee: real)
    requires x > 0.0 && average * x == y && net > 0.0 && amount > 0.0 && total > 0.0
    ensures Share(x, net, amount, fee) == Share(y, net, total, fee) <==> fee == 0.0 || total == amount * average
  {
    var a, b := (x / net) / amount, (y / net) / total;
    GrossTimesPrice(x, average, y, net);
    var g := x / net;
    QuotientNonNegative(x, net);
    QuotientTimes(g, amount);
    QuotientTimes(g * average, total);
    assert a * amount == g && b * total == g * average;
    if a == b {
      assert a * total == a * (amount * average);
      SameFactor(a, total, amount * average, g, amount);
    }
    if total == amount * average {
      assert a * total == b * total;
      SameProduct(a, b, total);
    }
    FeeDecides(a, b, fee);
  }

  lemma SameFactor(a: real, x: real, y: real, g: real, amount: real)
    requires g > 0.0 && a * amount == g && amount > 0.0 && a * x == a * y
    ensures x == y
  {
    if a <= 0.0 { ProductMonotone(a, 0.0, amount); }
    SameProduct(x, y, a);
  }

  lemma FeeDecides(a: real, b: real, fee: real)
    ensures a * fee == b * fee <==> fee == 0.0 || a == b
  {
    if fee > 0.0 && a * fee == b * fee { SameProduct(a, b, fee); }
    if fee < 0.0 && a * fee == b * fee {
      assert a * -fee == b * -fee;
      SameProduct(a, b, -fee);
    }
  }
}
