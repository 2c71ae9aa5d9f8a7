/**
 The matching of one incoming order against the sorted opposite side of the book:
 the engine's loop as a small-step system, and the greedy fold it must compute.
 */
module Matching {
  import opened Decimals
  import opened Orders

  /** `Trade`, naming its orders by id. */
  datatype Trade = Trade(buyId: int, sellId: int, price: real, quantity: real, buyerIsTaker: bool)

  /** A taker, what is left of its budget, and the makers in queue order. */
  datatype LoopState = LoopState(taker: Order, budget: real, makers: seq<Order>)

  /**
   Outcome of matching: `trades` in order, the makers they used up (`done`) and the
   makers still queued (`left`), of which only the first can differ from before.
   */
  datatype Outcome = Outcome(taker: Order, budget: real, trades: seq<Trade>, done: seq<Order>, left: seq<Order>)

  predicate AllResting(makers: seq<Order>, side: Side) {
    forall m <- makers :: m.Resting() && m.side == side
  }

  /** `getMatchingQuantity`. */
  function MatchQuantity(taker: Order, maker: Order, budget: real): real
    requires maker.price > 0.0
  {
    Min(if taker.UsesTotal() then Floor15(budget / maker.price) else taker.remaining, maker.remaining)
  }

  /** `subtractMaxTotalIfNeeded`. */
  function Spend(taker: Order, budget: real, price: real, quantity: real): real {
    if taker.UsesTotal() then budget - price * quantity else budget
  }

  /** `matchOrders`: every trade is made at the maker's price. */
  function MakeTrade(taker: Order, maker: Order, quantity: real): Trade {
    if taker.side.Buy? then Trade(taker.id, maker.id, maker.price, quantity, true)
    else Trade(maker.id, taker.id, maker.price, quantity, false)
  }

  // ---------- The loop of `processOrder` ----------

  predicate LoopInv(s: LoopState) {
    && s.taker.WellFormed()
    && s.budget >= 0.0
    && AllResting(s.makers, s.taker.side.Opposite())
  }

  /** The loop condition together with the test on the front maker. */
  predicate Guard(s: LoopState) {
    s.taker.CanMatch(s.budget) && s.makers != [] && s.taker.CanBeMatchedWith(s.makers[0])
  }

  function FrontQuantity(s: LoopState): real
    requires s.makers != [] && s.makers[0].price > 0.0
  {
    MatchQuantity(s.taker, s.makers[0], s.budget)
  }

  /** The front maker after its trade. */
  function FrontAfter(s: LoopState): Order
    requires LoopInv(s) && s.makers != []
  {
    s.makers[0].Fill(s.makers[0].price, FrontQuantity(s))
  }

  /** One iteration: poll the front maker, trade, and re-add it in front if it can still match. */
  function Body(s: LoopState): LoopState
    requires LoopInv(s) && Guard(s)
  {
    var p, q := s.makers[0].price, FrontQuantity(s);
    LoopState(
      s.taker.Fill(p, q),
      Spend(s.taker, s.budget, p, q),
      if FrontAfter(s).remaining > 0.0 then [FrontAfter(s)] + s.makers[1..] else s.makers[1..])
  }

  lemma QuantityFacts(s: LoopState)
    requires LoopInv(s) && Guard(s)
    ensures var m, q := s.makers[0], FrontQuantity(s);
            && 0.0 <= q <= m.remaining
            && (s.taker.UsesTotal() ==>
                  && 0.0 <= s.budget - m.price * q
                  && (q < m.remaining ==>
                        q == Floor15(s.budget / m.price) && s.budget - m.price * q < m.price / UNITS_PER_ONE))
            && (!s.taker.UsesTotal() ==> 0.0 < q <= s.taker.remaining && (q == s.taker.remaining || q == m.remaining))
  {
    if s.taker.UsesTotal() {
      FlooredPurchase(s.budget, s.makers[0].price, s.makers[0].remaining);
    }
  }

  /** What a budget buys, floored and capped: never overspent, and short of one unit's price left. */
  lemma FlooredPurchase(budget: real, price: real, cap: real)
    requires budget >= 0.0 && price > 0.0 && cap > 0.0
    ensures var f := Floor15(budget / price);
            && 0.0 <= f
            && price * Min(f, cap) <= budget
            && budget - price * f < price / UNITS_PER_ONE
  {
    var x, f := budget / price, Floor15(budget / price);
    QuotientNonNegative(budget, price);
    QuotientTimes(budget, price);
    ProductMonotone(Min(f, cap), x, price);
    var unit := 1.0 / UNITS_PER_ONE;
    Shortfall(budget, price, x, f, unit);
    QuotientAsProduct(price, UNITS_PER_ONE);
    assert unit * price == price / UNITS_PER_ONE;
  }

  lemma Shortfall(budget: real, price: real, x: real, f: real, unit: real)
    requires x * price == budget && x < f + unit && price > 0.0
    ensures budget - price * f < unit * price
  {
    ProductStrict(x, f + unit, price);
  }

  /** An iteration keeps the loop invariant, the orders' identities and the direction of the match. */
  lemma BodyKeeps(s: LoopState)
    requires LoopInv(s) && Guard(s)
    ensures LoopInv(Body(s))
    ensures Body(s).taker.SameOrder(s.taker)
    ensures forall o: Order :: Body(s).taker.CanBeMatchedWith(o) == s.taker.CanBeMatchedWith(o)
  {
    var m, q := s.makers[0], FrontQuantity(s);
    QuantityFacts(s);
    FillKeeps(s.taker, m.price, q);
    FillKeeps(m, m.price, q);
    hide Order.Fill, FrontQuantity;
  }

  function Iterate(s: LoopState, n: nat): (r: LoopState)
    requires LoopInv(s)
    ensures LoopInv(r)
    decreases n
  {
    if n == 0 || !Guard(s) then s else BodyKeeps(s); Iterate(Body(s), n - 1)
  }

  /** The loop of `processOrder` ends. */
  ghost predicate Halts(s: LoopState)
    requires LoopInv(s)
  {
    exists n: nat :: !Guard(Iterate(s, n))
  }

  // ---------- The greedy fold over the sorted makers ----------

  /** A used-up maker and its trade come first. */
  function Prepend(t: Trade, m: Order, o: Outcome): Outcome {
    o.(trades := [t] + o.trades, done := [m] + o.done)
  }

  function FrontTrade(s: LoopState): Trade
    requires s.makers != [] && s.makers[0].price > 0.0
  {
    MakeTrade(s.taker, s.makers[0], FrontQuantity(s))
  }

  /** Use up maker after maker; the first one that outlasts the taker stays in front, reduced. */
  function GreedyFill(s: LoopState): Outcome
    requires LoopInv(s)
    decreases |s.makers|
  {
    if !Guard(s) || FrontQuantity(s) == 0.0 then Outcome(s.taker, s.budget, [], [], s.makers)
    else
      BodyKeeps(s);
      var next := Body(s);
      if FrontAfter(s).remaining > 0.0 then Outcome(next.taker, next.budget, [FrontTrade(s)], [], next.makers)
      else Prepend(FrontTrade(s), FrontAfter(s), GreedyFill(next))
  }

  /** Every visited maker is either used up or leaves the taker unable to match. */
  predicate Settles(s: LoopState)
    requires LoopInv(s)
    decreases |s.makers|
  {
    Guard(s) ==>
      && FrontQuantity(s) > 0.0
      && (BodyKeeps(s);
          var next := Body(s);
          if |next.makers| == |s.makers| then !next.taker.CanMatch(next.budget) else Settles(next))
  }

  /** Where the fold settles, the loop ends within one iteration per maker, with the fold's outcome. */
  lemma {:induction false} LoopComputesGreedyFill(s: LoopState, n: nat)
    requires LoopInv(s) && Settles(s) && n >= |s.makers|
    ensures !Guard(Iterate(s, n))
    ensures var g := GreedyFill(s); Iterate(s, n) == LoopState(g.taker, g.budget, g.left)
    decreases |s.makers|
  {
    if Guard(s) {
      BodyKeeps(s);
      var next := Body(s);
      if |next.makers| < |s.makers| {
        LoopComputesGreedyFill(next, n - 1);
      } else {
        assert Iterate(next, n - 1) == next;
      }
    }
  }

  lemma BelowOneUnit(budget: real, price: real)
    requires budget >= 0.0 && price > 0.0 && budget < price / UNITS_PER_ONE
    ensures Floor15(budget / price) == 0.0
  {
    var x := budget / price;
    QuotientNonNegative(budget, price);
    QuotientTimes(budget, price);
    if x * UNITS_PER_ONE >= 1.0 {
      ProductMonotone(1.0 / UNITS_PER_ONE, x, price);
      assert false;
    }
    Floor15Positive(x);
  }

  // ---------- When the loop ends, in terms of the book before the call ----------

  /** What the first `k` makers cost when bought out. */
  function Cost(makers: seq<Order>, k: nat): real
    requires k <= |makers|
  {
    if k == 0 then 0.0 else makers[0].price * makers[0].remaining + Cost(makers[1..], k - 1)
  }

  /**
   The total-type taker reaches maker `k` with at least EPSILON left, cannot buy it out,
   and flooring the purchase to 15 decimals leaves at least EPSILON unspent.
   */
  predicate StallsAt(s: LoopState, k: nat)
    requires LoopInv(s) && k < |s.makers|
  {
    && s.taker.UsesTotal()
    && (forall i :: 0 <= i <= k ==> s.taker.CanBeMatchedWith(s.makers[i]))
    && LeavesTooMuch(s.budget - Cost(s.makers, k), s.makers[k])
  }

  predicate LeavesTooMuch(budget: real, maker: Order)
    requires maker.price > 0.0
  {
    && budget >= EPSILON
    && Floor15(budget / maker.price) < maker.remaining
    && budget - maker.price * Floor15(budget / maker.price) >= EPSILON
  }

  lemma {:induction false} CostPositive(makers: seq<Order>, side: Side, k: nat)
    requires k <= |makers| && AllResting(makers, side)
    ensures Cost(makers, k) >= 0.0
  {
    if k > 0 {
      assert makers[0] in makers;
      ProductNonNegative(makers[0].price, makers[0].remaining);
      CostPositive(makers[1..], side, k - 1);
    }
  }

  /** The loop condition on a total-type taker. */
  lemma TotalGuard(s: LoopState)
    requires LoopInv(s) && s.taker.UsesTotal()
    ensures Guard(s) <==> s.budget >= EPSILON && s.makers != [] && s.taker.CanBeMatchedWith(s.makers[0])
  {
  }

  /** After buying out the front maker, the stalling positions are those of the rest, shifted by one. */
  lemma StallShifts(s: LoopState, k: nat)
    requires LoopInv(s) && Guard(s) && s.taker.UsesTotal() && |Body(s).makers| < |s.makers| && k < |s.makers| - 1
    ensures LoopInv(Body(s)) && (StallsAt(s, k + 1) <==> StallsAt(Body(s), k))
  {
    BodyKeeps(s);
    QuantityFacts(s);
    var next := Body(s);
    assert next.makers == s.makers[1..];
    assert FrontQuantity(s) == s.makers[0].remaining;
    assert s.budget - Cost(s.makers, k + 1) == next.budget - Cost(next.makers, k);
    hide Body, FrontQuantity, Cost, LeavesTooMuch;
    assert next.makers[k] == s.makers[k + 1];
    if StallsAt(next, k) {
      forall i | 0 <= i <= k + 1 ensures s.taker.CanBeMatchedWith(s.makers[i]) {
        if i > 0 { assert next.taker.CanBeMatchedWith(next.makers[i - 1]); }
      }
    }
    if StallsAt(s, k + 1) {
      forall i | 0 <= i <= k ensures next.taker.CanBeMatchedWith(next.makers[i]) {
        assert s.taker.CanBeMatchedWith(s.makers[i + 1]);
      }
    }
  }

  /**
   The loop ends exactly when no maker stalls it: a condition on the taker's budget and the
   prices and remainders standing in the book before the call.
   */
  lemma {:induction false} SettlesIff(s: LoopState)
    requires LoopInv(s)
    ensures Settles(s) <==> forall k :: 0 <= k < |s.makers| ==> !StallsAt(s, k)
    decreases |s.makers|
  {
    if !s.taker.UsesTotal() {
      AmountTakerSettles(s);
    } else if !Guard(s) {
      TotalGuard(s);
      forall k | 0 <= k < |s.makers| ensures !StallsAt(s, k) {
        CostPositive(s.makers, s.taker.side.Opposite(), k);
      }
    } else {
      BodyKeeps(s);
      QuantityFacts(s);
      var next := Body(s);
      assert Cost(s.makers, 0) == 0.0;
      FlooredPurchase(s.budget, s.makers[0].price, s.makers[0].remaining);
      if |next.makers| == |s.makers| {
        FrontDecides(s);
      } else {
        assert !StallsAt(s, 0);
        SettlesIff(next);
        forall k | 0 <= k < |next.makers| ensures StallsAt(s, k + 1) <==> StallsAt(next, k) {
          StallShifts(s, k);
        }
        if Settles(next) {
          forall k | 0 <= k < |s.makers| ensures !StallsAt(s, k) {
            if k > 0 { assert !StallsAt(next, k - 1); StallShifts(s, k - 1); }
          }
        } else {
          var k :| 0 <= k < |next.makers| && StallsAt(next, k);
          StallShifts(s, k);
        }
      }
    }
  }

  /** A front maker that outlasts the taker is the only one that can stall the loop. */
  lemma FrontDecides(s: LoopState)
    requires LoopInv(s) && Guard(s) && s.taker.UsesTotal() && |Body(s).makers| == |s.makers|
    ensures Settles(s) <==> !StallsAt(s, 0)
    ensures Settles(s) ==> forall k :: 0 <= k < |s.makers| ==> !StallsAt(s, k)
  {
    PartialFillOutcome(s);
    if Settles(s) {
      forall k | 0 < k < |s.makers| ensures !StallsAt(s, k) {
        BehindPartialFill(s, k);
      }
    }
  }

  lemma BehindPartialFill(s: LoopState, k: nat)
    requires LoopInv(s) && Guard(s) && 0 < k < |s.makers| && FrontQuantity(s) < s.makers[0].remaining
    requires s.budget - s.makers[0].price * FrontQuantity(s) < EPSILON
    ensures !StallsAt(s, k)
  {
    hide FrontQuantity, Cost, Floor15, Guard;
    CostPositive(s.makers[1..], s.taker.side.Opposite(), k - 1);
    CostsAtLeastFront(s.makers, k, FrontQuantity(s));
  }

  lemma CostsAtLeastFront(makers: seq<Order>, k: nat, q: real)
    requires 0 < k < |makers| && q < makers[0].remaining && makers[0].price > 0.0 && Cost(makers[1..], k - 1) >= 0.0
    ensures Cost(makers, k) >= makers[0].price * q
  {
    ProductMonotone(q, makers[0].remaining, makers[0].price);
  }

  /** When the front maker outlasts the taker, its quantity is the floored purchase. */
  lemma PartialFillQuantity(s: LoopState)
    requires LoopInv(s) && Guard(s) && s.taker.UsesTotal() && |Body(s).makers| == |s.makers|
    ensures var m, q := s.makers[0], FrontQuantity(s);
            q == Floor15(s.budget / m.price) < m.remaining && Body(s).budget == s.budget - m.price * q
  {
    assert s.makers[1..] != s.makers;
    QuantityFacts(s);
  }

  lemma PartialFillOutcome(s: LoopState)
    requires LoopInv(s) && Guard(s) && s.taker.UsesTotal() && |Body(s).makers| == |s.makers|
    ensures FrontQuantity(s) < s.makers[0].remaining
    ensures Body(s).budget == s.budget - s.makers[0].price * FrontQuantity(s)
    ensures Settles(s) <==> Body(s).budget < EPSILON
    ensures StallsAt(s, 0) <==> Body(s).budget >= EPSILON
  {
    PartialFillQuantity(s);
    PartialFillSettles(s);
    TotalGuard(s);
    FrontStalls(s);
    var q, p := FrontQuantity(s), s.makers[0].price;
    hide Body, Floor15;
    assert q == 0.0 ==> p * q == 0.0;
    assert q >= 0.0;
  }

  lemma PartialFillSettles(s: LoopState)
    requires LoopInv(s) && Guard(s) && s.taker.UsesTotal() && |Body(s).makers| == |s.makers|
    ensures FrontQuantity(s) >= 0.0
    ensures Settles(s) <==> FrontQuantity(s) > 0.0 && Body(s).budget < EPSILON
  {
    BodyKeeps(s);
    QuantityFacts(s);
    var next := Body(s);
    hide Body, FrontQuantity;
    assert next.taker.CanMatch(next.budget) <==> next.budget >= EPSILON;
  }

  lemma FrontStalls(s: LoopState)
    requires LoopInv(s) && s.taker.UsesTotal() && s.makers != [] && s.taker.CanBeMatchedWith(s.makers[0])
    ensures StallsAt(s, 0) <==> LeavesTooMuch(s.budget, s.makers[0])
  {
    assert Cost(s.makers, 0) == 0.0;
    hide LeavesTooMuch;
  }

  /** An amount-type taker always settles: each trade uses up one of the two orders. */
  lemma {:induction false} AmountTakerSettles(s: LoopState)
    requires LoopInv(s) && !s.taker.UsesTotal()
    ensures Settles(s)
    decreases |s.makers|
  {
    if Guard(s) {
      BodyKeeps(s);
      QuantityFacts(s);
      if |Body(s).makers| < |s.makers| { AmountTakerSettles(Body(s)); }
    }
  }

  // ---------- The loop ends exactly where the fold settles ----------

  /** A front maker that outlasts the taker is met again. */
  lemma FrontStays(s: LoopState)
    requires LoopInv(s) && Guard(s) && s.taker.UsesTotal() && |Body(s).makers| == |s.makers|
    ensures var next := Body(s);
            && next.makers != [] && next.makers[0].price == s.makers[0].price && next.taker.UsesTotal()
            && next.taker.CanBeMatchedWith(next.makers[0])
  {
    assert s.makers[1..] != s.makers;
  }

  lemma UsedUpTrades(s: LoopState)
    requires LoopInv(s) && Guard(s) && |Body(s).makers| != |s.makers|
    ensures FrontQuantity(s) > 0.0
  {
    QuantityFacts(s);
    FillKeeps(s.makers[0], s.makers[0].price, FrontQuantity(s));
    hide Order.Fill, FrontQuantity;
  }

  /** A budget let through by the guard that does not buy a unit. */
  lemma NothingToTrade(s: LoopState)
    requires LoopInv(s) && Guard(s) && s.taker.UsesTotal() && s.budget < s.makers[0].price / UNITS_PER_ONE
    ensures !Settles(s)
  {
    BelowOneUnit(s.budget, s.makers[0].price);
    hide Body;
  }

  lemma StallsInFront(s: LoopState)
    requires LoopInv(s) && Guard(s) && s.taker.UsesTotal() && |Body(s).makers| == |s.makers| && !Settles(s)
    ensures LoopInv(Body(s)) && !Settles(Body(s))
  {
    hide Order.Fill, Settles, Floor15, Order.CanMatch;
    BodyKeeps(s);
    QuantityFacts(s);
    PartialFillQuantity(s);
    PartialFillSettles(s);
    FrontStays(s);
    TotalGuard(s);
    TotalGuard(Body(s));
    var p, q := s.makers[0].price, FrontQuantity(s);
    hide Body, FrontQuantity, Guard;
    assert q == 0.0 ==> p * q == 0.0;
    NothingToTrade(Body(s));
  }

  /** A loop state from which the fold does not settle reaches only such states. */
  lemma StallPersists(s: LoopState)
    requires LoopInv(s) && !Settles(s)
    ensures Guard(s) && LoopInv(Body(s)) && !Settles(Body(s))
  {
    BodyKeeps(s);
    if |Body(s).makers| != |s.makers| {
      UsedUpTrades(s);
      hide Body, FrontQuantity;
    } else if s.taker.UsesTotal() {
      StallsInFront(s);
    } else {
      AmountTakerSettles(s);
      assert false;
    }
  }

  lemma {:induction false} StallNeverEnds(s: LoopState, n: nat)
    requires LoopInv(s) && !Settles(s)
    ensures Guard(Iterate(s, n))
    decreases n
  {
    StallPersists(s);
    if n > 0 {
      StallNeverEnds(Body(s), n - 1);
    }
  }

  /** The matching loop terminates exactly when the greedy fold settles. */
  lemma LoopTerminatesIff(s: LoopState)
    requires LoopInv(s)
    ensures Halts(s) <==> Settles(s)
  {
    if Settles(s) {
      LoopComputesGreedyFill(s, |s.makers|);
    } else {
      forall n: nat ensures Guard(Iterate(s, n)) {
        StallNeverEnds(s, n);
      }
    }
  }

  /** No maker priced at or below 10^8 can stall the loop, whatever the taker. */
  lemma SafePricesSettle(s: LoopState)
    requires LoopInv(s) && forall m <- s.makers :: m.price <= MAX_SAFE_PRICE
    ensures Settles(s)
  {
    forall k | 0 <= k < |s.makers| ensures !StallsAt(s, k) {
      var budget, m := s.budget - Cost(s.makers, k), s.makers[k];
      assert m in s.makers;
      assert m.price / UNITS_PER_ONE <= EPSILON;
      if budget >= EPSILON {
        FlooredPurchase(budget, m.price, m.remaining);
      }
    }
    SettlesIff(s);
  }

  /** A budget let through by the guard that buys not one unit is traded with for ever. */
  lemma NothingToBuyStalls(s: LoopState)
    requires LoopInv(s) && Guard(s) && s.taker.UsesTotal() && s.budget < s.makers[0].price / UNITS_PER_ONE
    ensures !Halts(s)
  {
    BelowOneUnit(s.budget, s.makers[0].price);
    LoopTerminatesIff(s);
  }
}
