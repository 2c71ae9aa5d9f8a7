/** The matching loop as it runs inside the engine: what is done after some iterations, and at the end. */
module EngineLoop {
  import opened Orders
  import opened Matching
  import opened Fills
  import opened Queues
  import opened EngineModel
  import opened EngineInvariant

  /** The engine after some trades: makers used up are gone from every map, each trade has its book event. */
  function MidMatch(e: Engine, maker: Side, trades: seq<Trade>, done: seq<Order>, left: seq<Order>): (r: Engine)
    ensures r.Book(maker) == left && r.priority == e.priority - IdSet(done)
  {
    e.WithBook(maker, left).(
    priority := e.priority - IdSet(done),
    expiry := e.expiry - IdSet(done),
    deltas := e.deltas + TradeDeltas(maker, trades))
  }

  /** The makers an iteration uses up: the front one or none. */
  function StepDone(s: LoopState): seq<Order>
    requires LoopInv(s) && s.makers != []
  {
    if FrontAfter(s).remaining > 0.0 then [] else [FrontAfter(s)]
  }

  lemma MidMatchStarts(e: Engine, maker: Side)
    ensures MidMatch(e, maker, [], [], e.Book(maker)) == e
  {
    assert IdSet([]) == {};
    assert e.priority - {} == e.priority;
  }

  lemma MidMatchChain(e: Engine, maker: Side, t: seq<Trade>, d: seq<Order>, m: seq<Order>, t': seq<Trade>,
    d': seq<Order>, m': seq<Order>)
    ensures MidMatch(MidMatch(e, maker, t, d, m), maker, t', d', m') == MidMatch(e, maker, t + t', d + d', m')
  {
    assert IdSet(d + d') == IdSet(d) + IdSet(d') by {
      forall id ensures id in IdSet(d + d') <==> id in IdSet(d) || id in IdSet(d') {
        assert forall o :: o in d + d' <==> o in d || o in d';
      }
    }
    assert TradeDeltas(maker, t + t') == TradeDeltas(maker, t) + TradeDeltas(maker, t');
    assert e.priority - IdSet(d) - IdSet(d') == e.priority - (IdSet(d) + IdSet(d'));
  }

  lemma BodyMakers(s: LoopState)
    requires LoopInv(s) && Guard(s) && FrontQuantity(s) != 0.0
    ensures var done, rest := StepDone(s), Body(s).makers;
            && |done| + |rest| == |s.makers|
            && (forall i :: 0 <= i < |done| ==> done[i].SameOrder(s.makers[i]))
            && forall i :: 0 <= i < |rest| ==> rest[i].SameOrder(s.makers[|done| + i])
  {
    hide GreedyFill, Body, FrontAfter, FrontQuantity, FrontTrade, Order.SameOrder;
    GreedyStep(s);
    SameAsThemselves(s.makers);
  }

  lemma BodyIds(s: LoopState)
    requires LoopInv(s) && Guard(s) && FrontQuantity(s) != 0.0 && DistinctIds(s.makers)
    ensures var rest, gone := Body(s).makers, IdSet(StepDone(s));
            DistinctIds(rest) && IdSet(rest) == IdSet(s.makers) - gone && IdSet(rest) !! gone
  {
    hide Order.SameOrder, Body, StepDone, LoopInv, IdSet, DistinctIds, FrontQuantity;
    BodyMakers(s);
    SplitIds(s.makers, StepDone(s), Body(s).makers);
  }

  lemma BodyRanked(s: LoopState, r: Ranking, p: Priorities)
    requires LoopInv(s) && Guard(s) && FrontQuantity(s) != 0.0 && Ranked(r, p, s.makers)
    ensures Ranked(r, p, Body(s).makers)
  {
    BodyMakers(s);
    var k, rest := |StepDone(s)|, Body(s).makers;
    RankedTail(r, p, s.makers, k);
    hide Ranked, Order.SameOrder, Body, StepDone, LoopInv, Guard;
    RankedSameOrders(r, p, s.makers[k..], rest);
  }

  lemma RankedTail(r: Ranking, p: Priorities, q: seq<Order>, k: nat)
    requires Ranked(r, p, q) && k <= |q|
    ensures Ranked(r, p, q[k..])
  {
  }

  /** One iteration keeps the makers ranked, distinct and known to the priority map. */
  lemma BodyKeepsSide(s: LoopState, p: Priorities)
    requires LoopInv(s) && Guard(s) && FrontQuantity(s) != 0.0
    requires SideInv(s.makers, s.taker.side.Opposite(), p) && IdSet(s.makers) <= p.Keys
    ensures var gone := IdSet(StepDone(s));
            && SideInv(Body(s).makers, s.taker.side.Opposite(), p - gone)
            && IdSet(Body(s).makers) == IdSet(s.makers) - gone
  {
    var r := RankingOf(s.taker.side.Opposite());
    BodyKeeps(s);
    assert AllResting(Body(s).makers, s.taker.side.Opposite());
    hide Body, StepDone, Guard, AllResting, Ranked, DistinctIds, IdSet;
    BodyIds(s);
    BodyRanked(s, r, p);
    KeepsRanking(r, p, Body(s).makers, IdSet(StepDone(s)));
  }

  /** What the whole loop will have done, given what it has done so far. */
  function Join(trades: seq<Trade>, done: seq<Order>, o: Outcome): Outcome {
    o.(trades := trades + o.trades, done := done + o.done)
  }

  /** The loop started in `s0` with priorities `p` and has reached `cur`. */
  ghost predicate Progress(s0: LoopState, p: Priorities, trades: seq<Trade>, done: seq<Order>, cur: LoopState) {
    && LoopInv(s0) && LoopInv(cur) && Settles(cur)
    && GreedyFill(s0) == Join(trades, done, GreedyFill(cur))
    && cur.taker.SameOrder(s0.taker)
    && SideInv(cur.makers, s0.taker.side.Opposite(), p - IdSet(done))
    && IdSet(cur.makers) <= (p - IdSet(done)).Keys
  }

  lemma ProgressStarts(s: LoopState, p: Priorities)
    requires LoopInv(s) && Settles(s) && SideInv(s.makers, s.taker.side.Opposite(), p) && IdSet(s.makers) <= p.Keys
    ensures Progress(s, p, [], [], s)
  {
    assert IdSet([]) == {};
    assert p - {} == p;
  }

  /** An iteration in which a quantity trades leaves the rest of the fold to do. */
  lemma FoldUnrolls(s: LoopState)
    requires LoopInv(s) && Guard(s) && Settles(s)
    ensures LoopInv(Body(s)) && Settles(Body(s)) && FrontQuantity(s) != 0.0
    ensures GreedyFill(s) == Join([FrontTrade(s)], StepDone(s), GreedyFill(Body(s)))
  {
    GreedyStep(s);
    BodyKeeps(s);
  }

  lemma ProgressStep(s0: LoopState, p: Priorities, trades: seq<Trade>, done: seq<Order>, cur: LoopState)
    requires Progress(s0, p, trades, done, cur) && Guard(cur)
    ensures FrontQuantity(cur) != 0.0
    ensures Progress(s0, p, trades + [FrontTrade(cur)], done + StepDone(cur), Body(cur))
  {
    hide SideInv, Settles, GreedyFill, Body, StepDone, FrontTrade;
    FoldUnrolls(cur);
    BodyKeeps(cur);
    BodyKeepsSide(cur, p - IdSet(done));
    var d, t := StepDone(cur), FrontTrade(cur);
    hide GreedyFill, StepDone, FrontTrade, Body, SideInv, Settles, LoopInv, Guard;
    IdSetConcat(done, d);
    assert (p - IdSet(done)) - IdSet(d) == p - IdSet(done + d);
    var rest := GreedyFill(Body(cur));
    assert trades + ([t] + rest.trades) == (trades + [t]) + rest.trades;
    assert done + (d + rest.done) == (done + d) + rest.done;
  }

  lemma IdSetConcat(a: seq<Order>, b: seq<Order>)
    ensures IdSet(a + b) == IdSet(a) + IdSet(b)
  {
    forall id ensures id in IdSet(a + b) <==> id in IdSet(a) || id in IdSet(b) {
      assert forall o :: o in a + b <==> o in a || o in b;
    }
  }

  lemma ProgressEnds(s0: LoopState, p: Priorities, trades: seq<Trade>, done: seq<Order>, cur: LoopState)
    requires Progress(s0, p, trades, done, cur) && !Guard(cur)
    ensures GreedyFill(s0) == Outcome(cur.taker, cur.budget, trades, done, cur.makers)
  {
    assert trades + [] == trades && done + [] == done;
  }

  /** The match output is what `MidMatch` leaves to do. */
  lemma MidMatchToAfterMatch(e: Engine, side: Side, g: Outcome)
    ensures var mid := MidMatch(e, side.Opposite(), g.trades, g.done, g.left);
            AfterMatch(e, side, g)
            == mid.(outputs := if g.trades == [] then e.outputs else e.outputs + [MatchOutput(g.trades)])
  {
  }

  /** Each iteration uses up a maker or is the last. */
  lemma ProgressIsMade(s: LoopState)
    requires LoopInv(s) && Guard(s) && Settles(s)
    ensures LoopInv(Body(s)) && (|Body(s).makers| < |s.makers| || (|Body(s).makers| == |s.makers| && !Guard(Body(s))))
  {
    BodyKeeps(s);
  }
}
