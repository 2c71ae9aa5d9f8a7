/** The order entity: its value, its predicates and how a fill changes it. */
module Orders {
  import opened Decimals

  datatype Side = Buy | Sell {
    function Opposite(): Side { if Buy? then Sell else Buy }
  }

  datatype OrderType = Limit | Market

  datatype Status = Fillable | Filling | Fulfill | PartiallyFilled | Canceled

  /** The columns the engine reads or writes. `total` and `average` are 0 when unset. */
  datatype Order = Order(
    id: int, side: Side, kind: OrderType, price: real, updatedAt: int, expiry: real,
    feeRate: real, amount: real, total: real,
    average: real, filled: real, remaining: real)
  {
    /** What every order handed to the engine satisfies. */
    predicate WellFormed() {
      price > 0.0 && 0.0 <= feeRate < 1.0 && filled >= 0.0 && average >= 0.0
    }

    predicate UsesTotal() { kind.Market? && total > 0.0 }

    function IncludingFee(quantity: real): real
      requires feeRate < 1.0
    {
      quantity / (1.0 - feeRate)
    }

    function ExcludingFee(quantity: real): real { quantity * (1.0 - feeRate) }

    /** The budget the matching loop starts from; unused unless the order uses a total. */
    function MatchableTotal(): real { ExcludingFee(total) }

    predicate CanMatch(budget: real) {
      if UsesTotal() then !IsEqual(budget, 0.0) else remaining > 0.0
    }

    /** The market price is the slippage limit, so both kinds compare prices. */
    predicate CanBeMatchedWith(o: Order) {
      side != o.side && if side.Buy? then price >= o.price else price <= o.price
    }

    predicate Expired(now: real) { expiry < now }

    /** An order that may stand in the book. */
    predicate Resting() { WellFormed() && kind.Limit? && remaining > 0.0 }

    /** The quote value filled so far, fees included. */
    function Notional(): real { average * filled }

    /** Filled quantity and quote value with the fee taken out again. */
    function NetFilled(): real { ExcludingFee(filled) }

    function NetNotional(): real { ExcludingFee(Notional()) }

    /** `calculateNewAverage`; the source gets NaN where nothing was ever filled. */
    function NewAverage(p: real, included: real): real {
      if filled + included == 0.0 then 0.0
      else (average * filled + p * included) / (filled + included)
    }

    /** `updateAverageAndFilledAmount`. */
    function Fill(p: real, quantity: real): Order
      requires feeRate < 1.0
    {
      this.(average := NewAverage(p, IncludingFee(quantity)),
            filled := filled + IncludingFee(quantity),
            remaining := if UsesTotal() then remaining else remaining - quantity)
    }

    function GetStatus(): Status {
      if filled == 0.0 then Fillable
      else if UsesTotal() then if IsEqual(filled * average, total) then Fulfill else PartiallyFilled
      else if remaining == 0.0 then Fulfill
      else Filling
    }

    /** Two states of one order: everything but the fill progress agrees. */
    predicate SameOrder(o: Order) {
      this == o.(average := average, filled := filled, remaining := remaining)
    }
  }

  /** A fill adds the quantity and the quote value, each grossed up by the order's own fee. */
  lemma FillAccounts(o: Order, p: real, q: real)
    requires o.WellFormed() && p >= 0.0 && q >= 0.0
    ensures o.Fill(p, q).SameOrder(o) && o.Fill(p, q).WellFormed()
    ensures o.Fill(p, q).NetFilled() == o.NetFilled() + q
    ensures o.Fill(p, q).NetNotional() == o.NetNotional() + p * q
    ensures o.Fill(p, q).remaining == if o.UsesTotal() then o.remaining else o.remaining - q
  {
    var g := 1.0 - o.feeRate;
    var inc := o.IncludingFee(q);
    QuotientNonNegative(q, g);
    QuotientTimes(q, g);
    var o' := o.Fill(p, q);
    if o.filled + inc == 0.0 {
      assert inc == 0.0 && q == 0.0 && o.filled == 0.0;
    } else {
      var value := o.average * o.filled + p * inc;
      ProductNonNegative(o.average, o.filled);
      ProductNonNegative(p, inc);
      QuotientNonNegative(value, o.filled + inc);
      QuotientTimes(value, o.filled + inc);
      assert o'.Notional() == value;
      assert p * inc * g == p * (inc * g);
    }
  }

  lemma FillKeeps(o: Order, p: real, q: real)
    requires o.WellFormed() && p >= 0.0 && q >= 0.0
    ensures o.Fill(p, q).SameOrder(o) && o.Fill(p, q).WellFormed()
    ensures o.Fill(p, q).remaining == if o.UsesTotal() then o.remaining else o.remaining - q
  {
    FillAccounts(o, p, q);
  }

  /** The quantity a budget buys at a price is not floored to nothing. */
  predicate BuysSomething(budget: real, price: real)
    requires price > 0.0
  {
    Floor15(budget / price) > 0.0
  }

  /** Every budget the loop guard lets through buys something exactly up to a price of 10^8. */
  lemma {:induction false} SafePriceIff(price: real)
    requires price > 0.0
    ensures price <= MAX_SAFE_PRICE <==>
            forall budget: real :: budget >= EPSILON ==> BuysSomething(budget, price)
  {
    if price <= MAX_SAFE_PRICE {
      forall budget: real | budget >= EPSILON ensures BuysSomething(budget, price) {
        EpsilonBuysAUnit(budget, price);
      }
    } else {
      QuotientNonNegative(EPSILON, price);
      QuotientTimes(EPSILON, price);
      assert (EPSILON / price) * UNITS_PER_ONE < 1.0;
      Floor15Positive(EPSILON / price);
      assert !BuysSomething(EPSILON, price);
    }
  }

  lemma EpsilonBuysAUnit(budget: real, price: real)
    requires 0.0 < price <= MAX_SAFE_PRICE && budget >= EPSILON
    ensures BuysSomething(budget, price)
  {
    QuotientNonNegative(budget, price);
    QuotientTimes(budget, price);
    var x := budget / price;
    if x * UNITS_PER_ONE < 1.0 {
      ProductMonotone(price, MAX_SAFE_PRICE, x);
      assert false;
    }
    Floor15Positive(x);
  }
}
