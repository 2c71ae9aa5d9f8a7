/** Every step of the engine keeps its invariant: books ranked and uncrossed, maps and queues in agreement. */
module EngineInvariant {
  import opened Orders
  import opened Matching
  import opened Fills
  import opened Queues
  import opened EngineModel

  // ---------- Cancelling ----------

  lemma RemoveKeepsSide(q: seq<Order>, side: Side, p: Priorities, p': Priorities, id: int)
    requires SideInv(q, side, p) && IdSet(q) <= p.Keys && p' == p - {id}
    ensures SideInv(Remove(q, id), side, p')
    ensures forall o <- Remove(q, id) :: o in q && o.id != id
    ensures IdSet(Remove(q, id)) == IdSet(q) - {id}
  {
    RemoveFacts(q, id);
    RemoveKeepsRanking(RankingOf(side), p, q, id);
    var q' := Remove(q, id);
    hide Remove;
    forall o | o in q' ensures o.id in p && o.id in p' && p[o.id] == p'[o.id] {
      assert o.id in IdSet(q);
    }
    RankedUnder(RankingOf(side), p, p', q');
  }

  lemma CancelKeepsBook(e: Engine, id: int, side: Side, price: real, amount: real, inOrderbook: bool)
    requires BookInv(e) && e.BookIds() <= e.priority.Keys && id !in IdSet(e.Book(side.Opposite()))
    ensures var e' := CancelOrder(e, id, side, price, amount, inOrderbook);
            BookInv(e') && e'.BookIds() == e.BookIds() - {id}
  {
    var p' := e.priority - {id};
    var other := e.Book(side.Opposite());
    RemoveKeepsSide(e.Book(side), side, e.priority, p', id);
    RemoveFacts(other, id);
    RemoveKeepsSide(other, side.Opposite(), e.priority, p', id);
    hide Remove, SideInv;
  }

  /** Orders that leave the book give up their priority. */
  lemma DropPriorities(e: Engine, e': Engine, active: set<int>, ids: set<int>)
    requires PriorityInv(e, active) && ids !! PendingCreates(e.pending)
    requires e'.priority == e.priority - ids && e'.nextPriority == e.nextPriority
    requires e'.pending == e.pending && e'.BookIds() == e.BookIds() - ids
    ensures PriorityInv(e', active - ids)
  {
    hide Engine.BookIds, PendingCreates;
  }

  lemma PendingFrame(e: Engine, e': Engine, active: set<int>, active': set<int>)
    requires PendingInv(e, active) && e'.pending == e.pending && e'.received == e.received
    requires e'.BookIds() + active' <= e.BookIds() + active
    ensures PendingInv(e', active')
  {
    hide Engine.BookIds;
  }

  /** Removing an order from the book, the expiry queue and the priority map together. */
  lemma CancelKeeps(e: Engine, active: set<int>, id: int, side: Side, price: real, amount: real, inOrderbook: bool)
    requires Inv(e, active)
    requires id !in IdSet(e.Book(side.Opposite())) && id !in PendingCreates(e.pending)
    ensures var e' := CancelOrder(e, id, side, price, amount, inOrderbook);
            Inv(e', active - {id}) && e'.BookIds() == e.BookIds() - {id}
  {
    var e' := CancelOrder(e, id, side, price, amount, inOrderbook);
    CancelKeepsBook(e, id, side, price, amount, inOrderbook);
    hide BookInv, Remove, Engine.BookIds, PendingCreates, PendingInv;
    DropPriorities(e, e', active, {id});
    PendingFrame(e, e', active, active - {id});
  }

  /** That takes the cancel to name the order's own side: otherwise the order stays, unknown to map and expiry queue. */
  lemma CancelKeepsIff(e: Engine, active: set<int>, id: int, side: Side, price: real, amount: real, inOrderbook: bool)
    requires Inv(e, active) && id !in PendingCreates(e.pending)
    ensures Inv(CancelOrder(e, id, side, price, amount, inOrderbook), active - {id})
            <==> id !in IdSet(e.Book(side.Opposite()))
  {
    if id !in IdSet(e.Book(side.Opposite())) {
      CancelKeeps(e, active, id, side, price, amount, inOrderbook);
    } else {
      var e' := CancelOrder(e, id, side, price, amount, inOrderbook);
      hide SideInv, Uncrossed, PriorityInv, PendingInv, Remove;
      assert e'.Book(side.Opposite()) == e.Book(side.Opposite());
      assert id in e'.BookIds() && id !in e'.expiry;
    }
  }

  // ---------- Receiving ----------

  lemma PendingCreatesAppend(p: seq<Input>, x: Input)
    ensures PendingCreates(p + [x]) == PendingCreates(p) + (if x.CreateInput? then {x.Id()} else {})
    ensures forall y :: y in p + [x] <==> y in p || y == x
  {
    forall id ensures id in PendingCreates(p + [x]) <==> id in PendingCreates(p) || (x.CreateInput? && id == x.Id()) {
      assert x in p + [x];
      if id in PendingCreates(p) {
        var y :| y in p && y.CreateInput? && y.order.id == id;
        assert y in p + [x];
      }
    }
  }

  lemma EnqueueKeepsBook(e: Engine, o: Order)
    requires BookInv(e) && e.BookIds() <= e.priority.Keys && o.id !in e.priority
    ensures BookInv(Enqueue(e, o))
  {
    var e' := Enqueue(e, o);
    assert forall b <- e.bids :: b.id in IdSet(e.bids);
    assert forall a <- e.asks :: a.id in IdSet(e.asks);
    RankedUnder(Bids, e.priority, e'.priority, e.bids);
    RankedUnder(Asks, e.priority, e'.priority, e.asks);
  }

  /** No pending input names the id. */
  ghost predicate Unnamed(e: Engine, id: int) { forall p <- e.pending :: p.Id() != id }

  lemma EnqueueKeepsPending(e: Engine, o: Order)
    requires PendingInv(e, {}) && Unnamed(e, o.id) && o.WellFormed()
    ensures PendingInv(Enqueue(e, o), {})
  {
    PendingCreatesAppend(e.pending, CreateInput(o));
    var e' := Enqueue(e, o);
    assert forall i :: 0 <= i < |e.pending| ==> e.pending[i] in e.pending;
    hide Engine.BookIds;
  }

  /** An order that is not live and that nothing pending names. */
  lemma EnqueueKeeps(e: Engine, o: Order)
    requires Inv(e, {}) && o.id !in e.priority && Unnamed(e, o.id) && o.WellFormed()
    ensures Inv(Enqueue(e, o), {})
  {
    PendingCreatesAppend(e.pending, CreateInput(o));
    EnqueueKeepsBook(e, o);
    EnqueueKeepsPending(e, o);
    hide BookInv, PendingInv, Engine.BookIds, PendingCreates;
  }

  lemma UnseenIsFree(e: Engine, id: int)
    requires PriorityInv(e, {}) && PendingInv(e, {}) && id !in e.received
    ensures id !in e.priority && Unnamed(e, id) && id !in PendingCreates(e.pending)
  {
    hide Engine.BookIds;
    assert forall p <- e.pending :: p.Id() in e.received;
  }

  lemma ReceiveCancelKeepsPending(e: Engine, input: Input)
    requires PendingInv(e, {}) && input.CancelInput? && input.Id() in e.received && e.received[input.Id()].Create?
    ensures PendingInv(Receive(e, input), {})
  {
    var e' := Receive(e, input);
    PendingCreatesAppend(e.pending, input);
    assert forall i :: 0 <= i < |e.pending| ==> e.pending[i] in e.pending;
    assert forall p <- e.pending :: p.CancelInput? ==> p.Id() != input.Id();
    hide Engine.BookIds;
  }

  /** Whatever arrives, new, repeated or unknown. */
  lemma ReceiveKeeps(e: Engine, input: Input)
    requires Inv(e, {}) && (input.CreateInput? ==> input.order.WellFormed())
    ensures Inv(Receive(e, input), {})
  {
    hide BookInv;
    var id := input.Id();
    if id !in e.received {
      if input.CreateInput? {
        UnseenIsFree(e, id);
        EnqueueKeeps(e, input.order);
      } else {
        assert id !in IdSet(e.Book(input.side.Opposite()));
        assert id !in PendingCreates(e.pending) by {
          assert forall p <- e.pending :: p.Id() in e.received;
        }
        CancelKeeps(e, {}, id, input.side, input.price, 0.0, false);
      }
    } else if e.received[id].Create? && input.CancelInput? {
      ReceiveCancelKeepsPending(e, input);
      ReceiveCancelKeepsRest(e, input);
    }
  }

  lemma ReceiveCancelKeepsRest(e: Engine, input: Input)
    requires BookInv(e) && PriorityInv(e, {}) && input.CancelInput? && input.Id() in e.received
      && e.received[input.Id()].Create?
    ensures BookInv(Receive(e, input)) && PriorityInv(Receive(e, input), {})
  {
    hide SideInv, Uncrossed, PendingCreates;
    PendingCreatesAppend(e.pending, input);
  }

  // ---------- Dequeuing ----------

  function Pop(e: Engine): Engine
    requires e.pending != []
  {
    e.(pending := e.pending[1..])
  }

  lemma PopPending(p: seq<Input>)
    requires p != []
    requires forall i, j :: 0 <= i < j < |p| && p[j].CreateInput? ==> p[i].Id() != p[j].Id()
    ensures p[0].Id() !in PendingCreates(p[1..])
    ensures PendingCreates(p) == PendingCreates(p[1..]) + (if p[0].CreateInput? then {p[0].Id()} else {})
  {
    assert p == [p[0]] + p[1..];
    forall y | y in p[1..] && y.CreateInput? ensures y.Id() != p[0].Id() {
      var i :| 0 <= i < |p[1..]| && p[1..][i] == y;
      assert p[i + 1] == y;
    }
    forall id ensures id in PendingCreates(p)
      <==> id in PendingCreates(p[1..]) || (p[0].CreateInput? && id == p[0].Id()) {
      if id in PendingCreates(p[1..]) {
        var y :| y in p[1..] && y.CreateInput? && y.order.id == id;
        assert y in p;
      }
    }
  }

  lemma PendingTail(e: Engine)
    requires PendingInv(e, {}) && e.pending != []
    ensures PendingInv(Pop(e), if e.pending[0].CreateInput? then {e.pending[0].Id()} else {})
  {
    var p, rest := e.pending, e.pending[1..];
    assert p[0] in p;
    assert forall x <- rest :: x in p;
    forall i, j | 0 <= i < j < |rest|
      ensures rest[j].CreateInput? ==> rest[i].Id() != rest[j].Id()
      ensures rest[i].CancelInput? ==> rest[i].Id() != rest[j].Id()
    {
      assert rest[i] == p[i + 1] && rest[j] == p[j + 1];
    }
  }

  /** The order of a dequeued create is live although it is neither pending nor resting. */
  lemma PopKeeps(e: Engine)
    requires Inv(e, {}) && e.pending != []
    ensures e.pending[0].CreateInput? ==> Inv(Pop(e), {e.pending[0].Id()}) && e.pending[0].order.WellFormed()
    ensures e.pending[0].CancelInput? ==> Inv(Pop(e), {}) && e.pending[0].Id() !in PendingCreates(Pop(e).pending)
  {
    assert e.pending[0] in e.pending;
    PopPending(e.pending);
    PendingTail(e);
    hide PendingInv, SideInv, Uncrossed, PendingCreates;
  }

  // ---------- Matching ----------

  lemma {:induction false} OutcomeKeeps(s: LoopState)
    requires LoopInv(s)
    ensures var g := GreedyFill(s);
            LoopInv(LoopState(g.taker, g.budget, g.left)) && g.taker.SameOrder(s.taker)
    decreases |s.makers|
  {
    if Guard(s) && FrontQuantity(s) != 0.0 {
      GreedyStep(s);
      BodyKeeps(s);
      if FrontAfter(s).remaining <= 0.0 { OutcomeKeeps(Body(s)); }
    }
  }

  predicate SameOrders(a: seq<Order>, b: seq<Order>) {
    |a| == |b| && forall i :: 0 <= i < |a| ==> a[i].SameOrder(b[i])
  }

  lemma SameAsThemselves(q: seq<Order>)
    ensures SameOrders(q, q)
  {
  }

  lemma SameWithFront(a: Order, b: Order, p: seq<Order>, q: seq<Order>)
    requires a.SameOrder(b) && SameOrders(p, q)
    ensures SameOrders([a] + p, [b] + q)
  {
    hide Order.SameOrder;
  }

  /** The makers after matching are the makers before, position by position. */
  lemma {:induction false} AfterIsSame(s: LoopState)
    requires LoopInv(s)
    ensures SameOrders(After(GreedyFill(s)), s.makers)
    decreases |s.makers|
  {
    hide SameOrders, Order.SameOrder, Body, FrontTrade, FrontQuantity;
    SameAsThemselves(s.makers);
    if Guard(s) && FrontQuantity(s) != 0.0 {
      GreedyStep(s);
      BodyKeeps(s);
      var rest := s.makers[1..];
      assert s.makers == [s.makers[0]] + rest;
      if FrontAfter(s).remaining <= 0.0 {
        AfterIsSame(Body(s));
        SameWithFront(FrontAfter(s), s.makers[0], After(GreedyFill(Body(s))), rest);
        assert After(GreedyFill(s)) == [FrontAfter(s)] + After(GreedyFill(Body(s)));
      } else {
        SameAsThemselves(rest);
        SameWithFront(FrontAfter(s), s.makers[0], rest, rest);
        assert After(GreedyFill(s)) == [FrontAfter(s)] + rest;
      }
    } else {
      assert After(GreedyFill(s)) == s.makers;
    }
  }

  lemma SplitIds(before: seq<Order>, done: seq<Order>, left: seq<Order>)
    requires DistinctIds(before) && |done| + |left| == |before|
    requires forall i :: 0 <= i < |done| ==> done[i].SameOrder(before[i])
    requires forall i :: 0 <= i < |left| ==> left[i].SameOrder(before[|done| + i])
    ensures IdSet(left) == IdSet(before) - IdSet(done) && IdSet(done) <= IdSet(before)
    ensures DistinctIds(left)
  {
    forall id
      ensures id in IdSet(before) <==> id in IdSet(done) || id in IdSet(left)
      ensures !(id in IdSet(done) && id in IdSet(left))
    {
      IdSetIff(before, id);
      IdSetIff(done, id);
      IdSetIff(left, id);
      if HasId(before, id) {
        var i :| 0 <= i < |before| && before[i].id == id;
        if i < |done| { assert done[i].id == id; } else { assert left[i - |done|].id == id; }
      }
      if HasId(done, id) {
        var i :| 0 <= i < |done| && done[i].id == id;
        assert before[i].id == id;
      }
      if HasId(left, id) {
        var i :| 0 <= i < |left| && left[i].id == id;
        assert before[|done| + i].id == id;
      }
    }
  }

  lemma LeftIsSame(s: LoopState)
    requires LoopInv(s)
    ensures var g := GreedyFill(s);
            && |g.done| + |g.left| == |s.makers|
            && (forall i :: 0 <= i < |g.done| ==> g.done[i].SameOrder(s.makers[i]))
            && (forall i :: 0 <= i < |g.left| ==> g.left[i].SameOrder(s.makers[|g.done| + i]))
  {
    hide GreedyFill, LoopInv, Order.SameOrder;
    AfterIsSame(s);
    var g := GreedyFill(s);
    var a := After(g);
    forall i | 0 <= i < |g.left| ensures g.left[i].SameOrder(s.makers[|g.done| + i]) {
      assert a[|g.done| + i] == g.left[i];
    }
    forall i | 0 <= i < |g.done| ensures g.done[i].SameOrder(s.makers[i]) {
      assert a[i] == g.done[i];
    }
  }

  lemma LeftAreMakers(s: LoopState)
    requires LoopInv(s)
    ensures forall o <- GreedyFill(s).left :: exists m <- s.makers :: o.SameOrder(m)
  {
    hide GreedyFill, LoopInv, Order.SameOrder;
    LeftIsSame(s);
    var g := GreedyFill(s);
    forall o | o in g.left ensures exists m <- s.makers :: o.SameOrder(m) {
      var i :| 0 <= i < |g.left| && g.left[i] == o;
      assert s.makers[|g.done| + i] in s.makers;
    }
  }

  lemma LeftRanked(s: LoopState, p: Priorities)
    requires LoopInv(s) && Ranked(RankingOf(s.taker.side.Opposite()), p, s.makers)
    ensures Ranked(RankingOf(s.taker.side.Opposite()), p, GreedyFill(s).left)
  {
    LeftIsSame(s);
    var g := GreedyFill(s);
    hide GreedyFill;
    RankedSameOrders(RankingOf(s.taker.side.Opposite()), p, s.makers[|g.done|..], g.left);
  }

  /** The makers left are still ranked and distinct; the ids split into used up and left. */
  lemma LeftKeepsSide(s: LoopState, p: Priorities)
    requires LoopInv(s) && SideInv(s.makers, s.taker.side.Opposite(), p) && IdSet(s.makers) <= p.Keys
    ensures var g := GreedyFill(s);
            && SideInv(g.left, s.taker.side.Opposite(), p - IdSet(g.done))
            && IdSet(g.left) == IdSet(s.makers) - IdSet(g.done)
            && IdSet(g.done) <= IdSet(s.makers)
  {
    hide GreedyFill, Ranked, IdSet, DistinctIds, Order.SameOrder, Order.Resting;
    var g, side := GreedyFill(s), s.taker.side.Opposite();
    OutcomeKeeps(s);
    SameSide(g.taker, s.taker);
    LeftIsSame(s);
    LeftRanked(s, p);
    SplitIds(s.makers, g.done, g.left);
    KeepsRanking(RankingOf(side), p, g.left, IdSet(g.done));
  }

  lemma SameSide(a: Order, b: Order)
    requires a.SameOrder(b)
    ensures a.side == b.side
  {
  }

  /** Dropping the priorities of others does not matter. */
  lemma KeepsRanking(r: Ranking, p: Priorities, q: seq<Order>, ids: set<int>)
    requires Ranked(r, p, q) && IdSet(q) <= p.Keys && IdSet(q) !! ids
    ensures Ranked(r, p - ids, q)
  {
    forall o | o in q ensures o.id in p && o.id in p - ids && p[o.id] == (p - ids)[o.id] {
      assert o.id in IdSet(q);
    }
    RankedUnder(r, p, p - ids, q);
  }

  lemma UncrossedLeft(bids: seq<Order>, asks: seq<Order>, side: Side, left: seq<Order>)
    requires Uncrossed(bids, asks)
    requires forall o <- left :: exists m <- (if side.Buy? then bids else asks) :: o.SameOrder(m)
    ensures Uncrossed(if side.Buy? then left else bids, if side.Buy? then asks else left)
  {
    forall b, a | b in (if side.Buy? then left else bids) && a in (if side.Buy? then asks else left)
      ensures b.price < a.price
    {
      if side.Buy? {
        var m :| m in bids && b.SameOrder(m);
        assert m.price == b.price;
      } else {
        var m :| m in asks && a.SameOrder(m);
        assert m.price == a.price;
      }
    }
  }

  lemma MatchKeepsBook(e: Engine, o: Order)
    requires BookInv(e) && e.BookIds() <= e.priority.Keys && o.WellFormed()
    ensures LoopInv(LoopStart(e, o))
    ensures var g := GreedyFill(LoopStart(e, o));
            && BookInv(AfterMatch(e, o.side, g))
            && AfterMatch(e, o.side, g).BookIds() == e.BookIds() - IdSet(g.done)
            && IdSet(g.done) <= e.BookIds()
  {
    LoopStartInv(e, o);
    var s := LoopStart(e, o);
    var g := GreedyFill(s);
    LeftKeepsSide(s, e.priority);
    LeftAreMakers(s);
    ReplaceKeepsBook(e, AfterMatch(e, o.side, g), o.side, g.left, IdSet(g.done));
  }

  /** Replacing one side by what is left of it. */
  lemma ReplaceKeepsBook(e: Engine, e': Engine, side: Side, left: seq<Order>, gone: set<int>)
    requires BookInv(e) && e.BookIds() <= e.priority.Keys
    requires SideInv(left, side.Opposite(), e.priority - gone)
    requires IdSet(left) == IdSet(e.Book(side.Opposite())) - gone && gone <= IdSet(e.Book(side.Opposite()))
    requires forall o <- left :: exists m <- e.Book(side.Opposite()) :: o.SameOrder(m)
    requires e'.bids == e.WithBook(side.Opposite(), left).bids && e'.asks == e.WithBook(side.Opposite(), left).asks
    requires e'.priority == e.priority - gone && e'.expiry == e.expiry - gone
    ensures BookInv(e') && e'.BookIds() == e.BookIds() - gone && gone <= e.BookIds()
  {
    UncrossedLeft(e.bids, e.asks, side.Opposite(), left);
    KeepsRanking(RankingOf(side), e.priority, e.Book(side), gone);
    hide Ranked, AllResting, DistinctIds, IdSet, Uncrossed;
  }

  lemma MatchKeeps(e: Engine, active: set<int>, o: Order)
    requires Inv(e, active) && o.WellFormed()
    ensures LoopInv(LoopStart(e, o))
    ensures Inv(AfterMatch(e, o.side, GreedyFill(LoopStart(e, o))), active)
  {
    MatchKeepsBook(e, o);
    var g := GreedyFill(LoopStart(e, o));
    var e' := AfterMatch(e, o.side, g);
    hide BookInv, Engine.BookIds, PendingCreates, PendingInv, GreedyFill;
    DropPriorities(e, e', active, IdSet(g.done));
    assert active - IdSet(g.done) == active;
    PendingFrame(e, e', active, active);
  }

  // ---------- Resting ----------

  /** Where the loop ends with a limit taker still open, no maker left reaches its price. */
  lemma OpenTakerDoesNotCross(e: Engine, o: Order)
    requires BookInv(e) && o.WellFormed() && o.kind.Limit?
    requires LoopInv(LoopStart(e, o)) && Settles(LoopStart(e, o))
    ensures var g := GreedyFill(LoopStart(e, o));
            g.taker.remaining > 0.0 ==> forall m <- g.left :: !g.taker.CanBeMatchedWith(m)
  {
    var s := LoopStart(e, o);
    var g := GreedyFill(s);
    LoopComputesGreedyFill(s, |s.makers|);
    OutcomeKeeps(s);
    LeftRanked(s, e.priority);
    hide GreedyFill;
    if g.taker.remaining > 0.0 && g.left != [] {
      assert !g.taker.CanBeMatchedWith(g.left[0]);
      forall i | 0 <= i < |g.left| ensures !g.taker.CanBeMatchedWith(g.left[i]) {
        if i > 0 { assert Precedes(RankingOf(o.side.Opposite()), e.priority, g.left[0], g.left[i]); }
        assert g.left[i] in g.left && g.left[0] in g.left;
      }
    }
  }

  ghost predicate ClearOf(e: Engine, o: Order) {
    forall m <- e.Book(o.side.Opposite()) :: !o.CanBeMatchedWith(m)
  }

  lemma RestKeepsBook(e: Engine, o: Order, budget: real)
    requires BookInv(e) && e.BookIds() <= e.priority.Keys && Injective(e.priority)
    requires o.Resting() && o.id in e.priority && o.id !in e.BookIds() && ClearOf(e, o)
    ensures BookInv(Finish(e, o, budget)) && Finish(e, o, budget).BookIds() == e.BookIds() + {o.id}
  {
    var q, r := e.Book(o.side), RankingOf(o.side);
    InsertFacts(r, e.priority, q, o);
    InsertKeepsRanking(r, e.priority, q, o);
    var q' := Insert(r, e.priority, q, o);
    assert SideInv(q', o.side, e.priority);
    RestUncrossed(e, o, q');
    hide Insert, IdSet, SideInv, Uncrossed;
  }

  lemma RestUncrossed(e: Engine, o: Order, q: seq<Order>)
    requires BookInv(e) && ClearOf(e, o)
    requires forall x <- q :: x in e.Book(o.side) || x == o
    ensures Uncrossed(if o.side.Buy? then q else e.bids, if o.side.Buy? then e.asks else q)
  {
    forall m | m in e.Book(o.side.Opposite()) ensures if o.side.Buy? then o.price < m.price else m.price < o.price {
      assert !o.CanBeMatchedWith(m) && m.side == o.side.Opposite();
    }
  }

  lemma FinishKeeps(e: Engine, o: Order, budget: real)
    requires Inv(e, {o.id}) && o.WellFormed()
    requires o.kind.Limit? && o.remaining > 0.0 ==> ClearOf(e, o)
    ensures Inv(Finish(e, o, budget), {})
  {
    var e' := Finish(e, o, budget);
    if o.kind.Limit? && o.remaining > 0.0 {
      RestKeepsBook(e, o, budget);
      PendingFrame(e, e', {o.id}, {});
      hide BookInv, Insert, Engine.BookIds, PendingCreates, PendingInv, ClearOf;
    } else {
      DropKeepsBook(e, e', o.id);
      hide BookInv, Engine.BookIds, PendingCreates, PendingInv;
      DropPriorities(e, e', {o.id}, {o.id});
      PendingFrame(e, e', {o.id}, {});
    }
  }

  lemma DropKeepsBook(e: Engine, e': Engine, id: int)
    requires BookInv(e) && e.BookIds() <= e.priority.Keys && id !in e.BookIds()
    requires e'.priority == e.priority - {id} && e'.bids == e.bids && e'.asks == e.asks && e'.expiry == e.expiry
    ensures BookInv(e')
  {
    RemoveFacts(e.bids, id);
    RemoveFacts(e.asks, id);
    RemoveKeepsSide(e.bids, Buy, e.priority, e'.priority, id);
    RemoveKeepsSide(e.asks, Sell, e.priority, e'.priority, id);
  }

  /** `processOrder` on a live order, whenever its loop ends. */
  lemma SubmitKeeps(e: Engine, o: Order, now: real)
    requires Inv(e, {o.id}) && o.WellFormed()
    requires !o.Expired(now) ==> LoopInv(LoopStart(e, o)) && Settles(LoopStart(e, o))
    ensures Inv(Submit(e, o, now), {})
  {
    if o.Expired(now) {
      CancelKeeps(e, {o.id}, o.id, o.side, o.price, 0.0, false);
    } else {
      var s := LoopStart(e, o);
      var g := GreedyFill(s);
      MatchKeeps(e, {o.id}, o);
      OutcomeKeeps(s);
      if o.kind.Limit? { OpenTakerDoesNotCross(e, o); }
      var e' := AfterMatch(e, o.side, g);
      assert e'.Book(o.side.Opposite()) == g.left;
      hide Inv, GreedyFill, AfterMatch, LoopInv, Settles, Finish;
      FinishKeeps(e', g.taker, g.budget);
    }
  }
}
