/** What matching one order does to every order it touches, to the budget and to the price levels. */
module Fills {
  import opened Decimals
  import opened Orders
  import opened Matching

  predicate Involves(t: Trade, id: int) { t.buyId == id || t.sellId == id }

  /** Quantity an order traded. */
  function QuantityOf(trades: seq<Trade>, id: int): real {
    if trades == [] then 0.0
    else (if Involves(trades[0], id) then trades[0].quantity else 0.0) + QuantityOf(trades[1..], id)
  }

  /** Quote value an order traded. */
  function ValueOf(trades: seq<Trade>, id: int): real {
    if trades == [] then 0.0
    else (if Involves(trades[0], id) then trades[0].price * trades[0].quantity else 0.0) + ValueOf(trades[1..], id)
  }

  /** Quantity traded at a price. */
  function QuantityAt(trades: seq<Trade>, price: real): real {
    if trades == [] then 0.0
    else (if trades[0].price == price then trades[0].quantity else 0.0) + QuantityAt(trades[1..], price)
  }

  function RestingAt(orders: seq<Order>, price: real): real {
    if orders == [] then 0.0
    else (if orders[0].price == price then orders[0].remaining else 0.0) + RestingAt(orders[1..], price)
  }

  lemma {:induction false} QuantityOfConcat(a: seq<Trade>, b: seq<Trade>, id: int)
    ensures QuantityOf(a + b, id) == QuantityOf(a, id) + QuantityOf(b, id)
    ensures ValueOf(a + b, id) == ValueOf(a, id) + ValueOf(b, id)
  {
    if a == [] {
      assert a + b == b;
    } else {
      assert (a + b)[1..] == a[1..] + b;
      QuantityOfConcat(a[1..], b, id);
    }
  }

  lemma {:induction false} RestingAtConcat(a: seq<Order>, b: seq<Order>, price: real)
    ensures RestingAt(a + b, price) == RestingAt(a, price) + RestingAt(b, price)
  {
    if a == [] {
      assert a + b == b;
    } else {
      assert (a + b)[1..] == a[1..] + b;
      RestingAtConcat(a[1..], b, price);
    }
  }

  /**
   `after` is `before` with `trades` booked on it: what it filled and its quote value grew by the
   traded amounts grossed up by its fee, and an amount-type order's remainder shrank by the quantity.
   */
  ghost predicate Accounts(before: Order, after: Order, trades: seq<Trade>) {
    && after.SameOrder(before)
    && after.NetFilled() == before.NetFilled() + QuantityOf(trades, before.id)
    && after.NetNotional() == before.NetNotional() + ValueOf(trades, before.id)
    && after.remaining == before.remaining - (if before.UsesTotal() then 0.0 else QuantityOf(trades, before.id))
  }

  lemma AccountsChain(a: Order, b: Order, c: Order, t: seq<Trade>, u: seq<Trade>)
    requires Accounts(a, b, t) && Accounts(b, c, u)
    ensures Accounts(a, c, t + u)
  {
    QuantityOfConcat(t, u, a.id);
  }

  lemma AccountsNothing(a: Order, trades: seq<Trade>)
    requires QuantityOf(trades, a.id) == ValueOf(trades, a.id) == 0.0
    ensures Accounts(a, a, trades)
  {
  }

  /** Booking one fill. */
  lemma AccountsFill(o: Order, p: real, q: real, t: Trade)
    requires o.WellFormed() && p >= 0.0 && q >= 0.0
    requires Involves(t, o.id) && t.price == p && t.quantity == q
    ensures Accounts(o, o.Fill(p, q), [t])
  {
    FillAccounts(o, p, q);
    assert [t][1..] == [];
    assert QuantityOf([t], o.id) == q && ValueOf([t], o.id) == p * q;
  }

  predicate DistinctIds(orders: seq<Order>) {
    forall i, j :: 0 <= i < j < |orders| ==> orders[i].id != orders[j].id
  }

  predicate HasId(orders: seq<Order>, id: int) { exists i :: 0 <= i < |orders| && orders[i].id == id }

  /** The makers after the call, in their order before it. */
  function After(o: Outcome): seq<Order> { o.done + o.left }

  /** One step of the fold: the front maker either outlasts the taker or is used up. */
  lemma GreedyStep(s: LoopState)
    requires LoopInv(s) && Guard(s) && FrontQuantity(s) != 0.0
    ensures LoopInv(Body(s)) && FrontQuantity(s) > 0.0 && FrontAfter(s).SameOrder(s.makers[0])
    ensures FrontAfter(s).remaining == s.makers[0].remaining - FrontQuantity(s) >= 0.0
    ensures if FrontAfter(s).remaining > 0.0
            then && Body(s).makers == [FrontAfter(s)] + s.makers[1..]
                 && GreedyFill(s) == Outcome(Body(s).taker, Body(s).budget, [FrontTrade(s)], [], Body(s).makers)
            else && Body(s).makers == s.makers[1..]
                 && GreedyFill(s) == Prepend(FrontTrade(s), FrontAfter(s), GreedyFill(Body(s)))
  {
    BodyKeeps(s);
    QuantityFacts(s);
    FillKeeps(s.makers[0], s.makers[0].price, FrontQuantity(s));
    hide Order.Fill, FrontQuantity, FrontTrade;
  }

  /** Only the taker and the makers trade. */
  lemma {:induction false} StrangersUntouched(s: LoopState, id: int)
    requires LoopInv(s) && id != s.taker.id && !HasId(s.makers, id)
    ensures QuantityOf(GreedyFill(s).trades, id) == ValueOf(GreedyFill(s).trades, id) == 0.0
    decreases |s.makers|
  {
    if Guard(s) && FrontQuantity(s) != 0.0 {
      GreedyStep(s);
      BodyKeeps(s);
      NotInvolved(s, id);
      if FrontAfter(s).remaining <= 0.0 {
        HasIdInTail(s.makers, id);
        StrangersUntouched(Body(s), id);
        QuantityOfConcat([FrontTrade(s)], GreedyFill(Body(s)).trades, id);
      }
    }
  }

  lemma HasIdInTail(orders: seq<Order>, id: int)
    requires orders != []
    ensures HasId(orders[1..], id) ==> HasId(orders, id)
    ensures DistinctIds(orders) ==> DistinctIds(orders[1..]) && !HasId(orders[1..], orders[0].id)
  {
    if HasId(orders[1..], id) {
      var i :| 0 <= i < |orders[1..]| && orders[1..][i].id == id;
      assert orders[i + 1].id == id;
    }
  }

  lemma NotInvolved(s: LoopState, id: int)
    requires LoopInv(s) && s.makers != [] && id != s.taker.id && id != s.makers[0].id
    ensures QuantityOf([FrontTrade(s)], id) == ValueOf([FrontTrade(s)], id) == 0.0
  {
    assert [FrontTrade(s)][1..] == [];
    assert !Involves(FrontTrade(s), id);
  }

  /** The first trade is booked on the taker and on the front maker, and on nobody behind it. */
  lemma FrontIsAccounted(s: LoopState)
    requires LoopInv(s) && Guard(s) && FrontQuantity(s) != 0.0
    requires DistinctIds(s.makers) && !HasId(s.makers, s.taker.id)
    ensures Accounts(s.taker, Body(s).taker, [FrontTrade(s)])
    ensures Accounts(s.makers[0], FrontAfter(s), [FrontTrade(s)])
    ensures forall m <- s.makers[1..] :: Accounts(m, m, [FrontTrade(s)])
  {
    QuantityFacts(s);
    AccountsFill(s.taker, s.makers[0].price, FrontQuantity(s), FrontTrade(s));
    AccountsFill(s.makers[0], s.makers[0].price, FrontQuantity(s), FrontTrade(s));
    hide Order.Fill, FrontQuantity, FrontTrade;
    forall m | m in s.makers[1..] ensures Accounts(m, m, [FrontTrade(s)]) {
      NotInvolved(s, m.id);
      AccountsNothing(m, [FrontTrade(s)]);
    }
  }

  ghost predicate AllAccounted(before: seq<Order>, after: seq<Order>, trades: seq<Trade>) {
    |after| == |before| && forall i :: 0 <= i < |before| ==> Accounts(before[i], after[i], trades)
  }

  /** The taker's and every maker's books agree with the trades. */
  lemma {:induction false} FillIsAccounted(s: LoopState)
    requires LoopInv(s) && DistinctIds(s.makers) && !HasId(s.makers, s.taker.id)
    ensures Accounts(s.taker, GreedyFill(s).taker, GreedyFill(s).trades)
    ensures AllAccounted(s.makers, After(GreedyFill(s)), GreedyFill(s).trades)
    decreases |s.makers|
  {
    hide Accounts, Order.Fill, FrontTrade, FrontAfter, Body, FrontQuantity, Order.SameOrder, AllAccounted;
    if Guard(s) && FrontQuantity(s) != 0.0 {
      hide GreedyFill;
      GreedyStep(s);
      BodyKeeps(s);
      FrontIsAccounted(s);
      SameId(Body(s).taker, s.taker);
      SameId(FrontAfter(s), s.makers[0]);
      if FrontAfter(s).remaining <= 0.0 {
        HasIdInTail(s.makers, s.taker.id);
        FillIsAccounted(Body(s));
        StrangersUntouched(Body(s), s.makers[0].id);
        TailIsAccounted(s, GreedyFill(Body(s)));
      } else {
        OnlyFrontAccounted(s.makers, FrontAfter(s), [FrontTrade(s)]);
        assert After(GreedyFill(s)) == [FrontAfter(s)] + s.makers[1..];
      }
    } else {
      AccountsNothing(s.taker, []);
      NothingAccounted(s.makers);
      assert After(GreedyFill(s)) == s.makers;
    }
  }

  lemma SameId(a: Order, b: Order)
    requires a.SameOrder(b)
    ensures a.id == b.id
  {
  }

  lemma NothingAccounted(makers: seq<Order>)
    ensures AllAccounted(makers, makers, [])
  {
    forall i | 0 <= i < |makers| ensures Accounts(makers[i], makers[i], []) { AccountsNothing(makers[i], []); }
  }

  lemma OnlyFrontAccounted(makers: seq<Order>, front: Order, trades: seq<Trade>)
    requires makers != [] && Accounts(makers[0], front, trades)
    requires forall m <- makers[1..] :: Accounts(m, m, trades)
    ensures AllAccounted(makers, [front] + makers[1..], trades)
  {
    hide Accounts;
    assert forall i :: 0 < i < |makers| ==> makers[i] == makers[1..][i - 1];
  }

  lemma TailIsAccounted(s: LoopState, rest: Outcome)
    requires LoopInv(s) && Guard(s)
    requires Accounts(s.taker, Body(s).taker, [FrontTrade(s)])
    requires Accounts(s.makers[0], FrontAfter(s), [FrontTrade(s)])
    requires forall m <- s.makers[1..] :: Accounts(m, m, [FrontTrade(s)])
    requires Accounts(Body(s).taker, rest.taker, rest.trades)
    requires AllAccounted(s.makers[1..], After(rest), rest.trades)
    requires FrontAfter(s).id == s.makers[0].id
    requires QuantityOf(rest.trades, s.makers[0].id) == ValueOf(rest.trades, s.makers[0].id) == 0.0
    ensures var g := Prepend(FrontTrade(s), FrontAfter(s), rest);
            Accounts(s.taker, g.taker, g.trades) && AllAccounted(s.makers, After(g), g.trades)
  {
    var t, m := [FrontTrade(s)], FrontAfter(s);
    var g := Prepend(FrontTrade(s), m, rest);
    AccountsChain(s.taker, Body(s).taker, rest.taker, t, rest.trades);
    AccountsNothing(m, rest.trades);
    AccountsChain(s.makers[0], m, m, t, rest.trades);
    hide Accounts, FrontTrade, FrontAfter;
    assert After(g) == [m] + After(rest);
    forall i | 0 < i < |s.makers| ensures Accounts(s.makers[i], After(g)[i], g.trades) {
      assert s.makers[i] == s.makers[1..][i - 1];
      AccountsChain(s.makers[i], s.makers[i], After(rest)[i - 1], t, rest.trades);
    }
  }

  // ---------- Price-time priority ----------

  /**
   The first makers in queue order trade, each for exactly what its remainder dropped by; all of them
   except possibly the last are used up; the makers behind are untouched.
   */
  ghost predicate InPriority(s: LoopState, g: Outcome) {
    && |After(g)| == |s.makers|
    && |g.done| <= |g.trades| <= |g.done| + 1
    && |g.trades| <= |s.makers|
    && (forall i :: 0 <= i < |g.trades| ==> TradesDrop(s.taker, s.makers[i], After(g)[i], g.trades[i]))
    && (forall i :: 0 <= i < |g.done| ==> g.done[i].remaining == 0.0)
    && (forall m <- g.left :: m.remaining > 0.0)
    && (forall i :: |g.trades| <= i < |s.makers| ==> After(g)[i] == s.makers[i])
  }

  ghost predicate TradesDrop(taker: Order, before: Order, after: Order, t: Trade) {
    && (if taker.side.Buy? then t.buyId == taker.id && t.sellId == before.id
        else t.buyId == before.id && t.sellId == taker.id)
    && t.price == before.price && t.quantity == before.remaining - after.remaining > 0.0
    && t.buyerIsTaker == taker.side.Buy?
    && taker.CanBeMatchedWith(before)
    && after.SameOrder(before)
  }

  lemma {:induction false} FillInPriority(s: LoopState)
    requires LoopInv(s)
    ensures InPriority(s, GreedyFill(s))
    decreases |s.makers|
  {
    if Guard(s) && FrontQuantity(s) != 0.0 {
      GreedyStep(s);
      BodyKeeps(s);
      assert TradesDrop(s.taker, s.makers[0], FrontAfter(s), FrontTrade(s));
      if FrontAfter(s).remaining <= 0.0 {
        FillInPriority(Body(s));
        PriorityPrepends(s, GreedyFill(Body(s)));
      }
    }
  }

  lemma PriorityPrepends(s: LoopState, rest: Outcome)
    requires LoopInv(s) && Guard(s) && FrontAfter(s).remaining == 0.0 && Body(s).makers == s.makers[1..]
    requires TradesDrop(s.taker, s.makers[0], FrontAfter(s), FrontTrade(s))
    requires InPriority(Body(s), rest) && Body(s).taker.SameOrder(s.taker)
    ensures InPriority(s, Prepend(FrontTrade(s), FrontAfter(s), rest))
  {
    hide FrontTrade, FrontAfter, Body, TradesDrop, FrontQuantity, Order.SameOrder;
    var g := Prepend(FrontTrade(s), FrontAfter(s), rest);
    var taker := Body(s).taker;
    hide Guard, LoopInv;
    assert After(g) == [FrontAfter(s)] + After(rest);
    forall i | 0 < i < |g.trades| ensures TradesDrop(s.taker, s.makers[i], After(g)[i], g.trades[i]) {
      assert s.makers[i] == s.makers[1..][i - 1];
      SameTakerTrades(taker, s.taker, s.makers[i], After(rest)[i - 1], rest.trades[i - 1]);
    }
    forall i | |g.trades| <= i < |s.makers| ensures After(g)[i] == s.makers[i] {
      assert s.makers[i] == s.makers[1..][i - 1] == After(rest)[i - 1];
    }
    forall i | 0 <= i < |g.done| ensures g.done[i].remaining == 0.0 {
      assert i > 0 ==> g.done[i] == rest.done[i - 1];
    }
  }

  lemma SameTakerTrades(a: Order, b: Order, before: Order, after: Order, t: Trade)
    requires TradesDrop(a, before, after, t) && a.SameOrder(b)
    ensures TradesDrop(b, before, after, t)
  {
  }

  /** What the book offers within the taker's limit, up to the first maker that does not match. */
  function Available(taker: Order, makers: seq<Order>): real {
    if makers == [] || !taker.CanBeMatchedWith(makers[0]) then 0.0
    else makers[0].remaining + Available(taker, makers[1..])
  }

  lemma {:induction false} AvailableNonNegative(taker: Order, makers: seq<Order>, side: Side)
    requires AllResting(makers, side)
    ensures Available(taker, makers) >= 0.0
  {
    if makers != [] {
      assert makers[0] in makers;
      AvailableNonNegative(taker, makers[1..], side);
    }
  }

  lemma {:induction false} AvailableSameOrder(a: Order, b: Order, makers: seq<Order>)
    requires a.SameOrder(b)
    ensures Available(a, makers) == Available(b, makers)
  {
    if makers != [] {
      AvailableSameOrder(a, b, makers[1..]);
    }
  }

  /** An amount-type taker gets exactly the smaller of what it wants and what is available. */
  lemma {:induction false} AmountTakerTakesMinimum(s: LoopState)
    requires LoopInv(s) && !s.taker.UsesTotal() && s.taker.remaining >= 0.0
    ensures s.taker.remaining - GreedyFill(s).taker.remaining
            == Min(s.taker.remaining, Available(s.taker, s.makers))
    decreases |s.makers|
  {
    AvailableNonNegative(s.taker, s.makers, s.taker.side.Opposite());
    if Guard(s) && FrontQuantity(s) != 0.0 {
      QuantityFacts(s);
      GreedyStep(s);
      BodyKeeps(s);
      AvailableNonNegative(s.taker, s.makers[1..], s.taker.side.Opposite());
      FillKeeps(s.taker, s.makers[0].price, FrontQuantity(s));
      if FrontAfter(s).remaining <= 0.0 {
        AmountTakerTakesMinimum(Body(s));
        AvailableSameOrder(s.taker, Body(s).taker, s.makers[1..]);
      }
    } else if Guard(s) {
      QuantityFacts(s);
    }
  }

  /** The part of its budget a taker's trades have used. */
  function Spent(taker: Order, trades: seq<Trade>): real {
    if taker.UsesTotal() then ValueOf(trades, taker.id) else 0.0
  }

  /** A total-type taker's budget shrinks by exactly the value it traded and is never overspent. */
  lemma {:induction false} BudgetSpent(s: LoopState)
    requires LoopInv(s)
    ensures GreedyFill(s).budget == s.budget - Spent(s.taker, GreedyFill(s).trades) >= 0.0
    decreases |s.makers|
  {
    if Guard(s) && FrontQuantity(s) != 0.0 {
      GreedyStep(s);
      BodyKeeps(s);
      FrontSpends(s);
      hide Body, FrontTrade, FrontAfter;
      if FrontAfter(s).remaining <= 0.0 {
        BudgetSpent(Body(s));
        QuantityOfConcat([FrontTrade(s)], GreedyFill(Body(s)).trades, s.taker.id);
      }
    }
  }

  lemma FrontSpends(s: LoopState)
    requires LoopInv(s) && Guard(s)
    ensures Body(s).budget == s.budget - Spent(s.taker, [FrontTrade(s)])
  {
    var t := FrontTrade(s);
    assert [t][1..] == [] && Involves(t, s.taker.id);
    assert ValueOf([t], s.taker.id) == s.makers[0].price * FrontQuantity(s);
  }

  /** At every price, what stood in the book is what was traded there plus what is left. */
  lemma {:induction false} LevelsSpent(s: LoopState, price: real)
    requires LoopInv(s)
    ensures RestingAt(s.makers, price)
            == RestingAt(GreedyFill(s).left, price) + QuantityAt(GreedyFill(s).trades, price)
    decreases |s.makers|
  {
    if Guard(s) && FrontQuantity(s) != 0.0 {
      GreedyStep(s);
      BodyKeeps(s);
      var t := FrontTrade(s);
      assert [t][1..] == [];
      if FrontAfter(s).remaining <= 0.0 {
        LevelsSpent(Body(s), price);
        assert ([t] + GreedyFill(Body(s)).trades)[1..] == GreedyFill(Body(s)).trades;
      } else {
        assert ([FrontAfter(s)] + s.makers[1..])[1..] == s.makers[1..];
      }
    }
  }
}
