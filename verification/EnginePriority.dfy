/** Price-time priority and arrival order over whole runs: who stands first, who trades first, what is taken first. */
module EnginePriority {
  import opened Orders
  import opened Matching
  import opened Fills
  import opened Queues
  import opened EngineModel
  import opened EngineInvariant
  import opened EngineRuns
  import opened EngineLedger

  // ---------- The order of arrival ----------

  /** The ids of the creates that have come, each where it came first. */
  function CameAfter(came: seq<int>, run: seq<Event>): seq<int>
    decreases |run|
  {
    if run == [] then came else CameAfter(WithArrival(came, run[0]), run[1..])
  }

  function WithArrival(came: seq<int>, ev: Event): seq<int> {
    if ev.Arrive? && ev.input.CreateInput? && ev.input.order.id !in came then came + [ev.input.order.id] else came
  }

  function Came(run: seq<Event>): seq<int> { CameAfter([], run) }

  ghost predicate CameFirst(came: seq<int>, a: int, b: int) {
    exists i, j :: 0 <= i < j < |came| && came[i] == a && came[j] == b
  }

  /** The better price first, then the earlier update, then the earlier arrival. */
  ghost predicate StandsBefore(side: Side, came: seq<int>, a: Order, b: Order) {
    if a.price != b.price then (if side.Buy? then a.price > b.price else a.price < b.price)
    else a.updatedAt < b.updatedAt || (a.updatedAt == b.updatedAt && CameFirst(came, a.id, b.id))
  }

  /** Priorities are positions in the order of arrival. */
  ghost predicate Numbered(e: Engine, came: seq<int>) {
    && e.nextPriority == |came|
    && (forall i, j :: 0 <= i < j < |came| ==> came[i] != came[j])
    && (forall id :: id in came <==> id in e.received)
    && (forall id <- e.priority :: 0 <= e.priority[id] < |came| && came[e.priority[id]] == id)
  }

  lemma NumberedFewer(e: Engine, e': Engine, came: seq<int>, gone: set<int>)
    requires Numbered(e, came) && e'.priority == e.priority - gone
    requires e'.nextPriority == e.nextPriority && e'.received.Keys == e.received.Keys
    ensures Numbered(e', came)
  {
    assert forall id :: id in e'.received <==> id in e'.received.Keys;
    assert forall id :: id in e.received <==> id in e.received.Keys;
  }

  lemma ArrivalIsNumbered(e: Engine, input: Input, came: seq<int>)
    requires Numbered(e, came)
    ensures Numbered(Receive(e, input), WithArrival(came, Arrive(input)))
  {
    var e', id := Receive(e, input), input.Id();
    if id !in e.received {
      if input.CancelInput? { NumberedFewer(e, e', came, {id}); }
    } else if e.received[id].Create? && input.CancelInput? {
      assert e'.received.Keys == e.received.Keys;
      NumberedFewer(e, e', came, {});
    }
  }

  lemma {:induction false} SweepIsNumbered(e: Engine, now: real, ids: seq<int>, came: seq<int>)
    requires Numbered(e, came) && SweepEnabled(e, now, ids)
    ensures Numbered(SweepAll(e, now, ids), came)
    decreases |ids|
  {
    if ids != [] {
      hide Numbered;
      NumberedFewer(e, Expire(e, ids[0]), came, {ids[0]});
      SweepIsNumbered(Expire(e, ids[0]), now, ids[1..], came);
    }
  }

  lemma SubmitIsNumbered(e: Engine, o: Order, now: real, came: seq<int>)
    requires o.WellFormed() && LoopInv(LoopStart(e, o)) && Numbered(e, came)
    ensures Numbered(Submit(e, o, now), came)
  {
    assert AllResting(e.Book(o.side.Opposite()), o.side.Opposite());
    hide Numbered, GreedyFill, LoopInv, AllResting, Remove, Insert, TradeDeltas;
    if o.Expired(now) {
      NumberedFewer(e, Submit(e, o, now), came, {o.id});
    } else {
      var g := GreedyFill(LoopStart(e, o));
      var mid := AfterMatch(e, o.side, g);
      NumberedFewer(e, mid, came, IdSet(g.done));
      var e' := Finish(mid, g.taker, g.budget);
      NumberedFewer(mid, e', came, if g.taker.kind.Limit? && g.taker.remaining > 0.0 then {} else {g.taker.id});
    }
  }

  lemma StepIsNumbered(e: Engine, ev: Event, came: seq<int>)
    requires Enabled(e, ev) && Numbered(e, came)
    ensures Numbered(Step(e, ev), WithArrival(came, ev))
  {
    match ev
    case Arrive(input) => ArrivalIsNumbered(e, input, came);
    case Sweep(now, ids) => SweepIsNumbered(e, now, ids, came);
    case Dequeue(now, carried) =>
      NumberedFewer(e, Pop(e), came, {});
      match e.pending[0] {
        case CreateInput(o) =>
          LoopStartInv(Pop(e), o);
          SubmitIsNumbered(Pop(e), o, now, came);
        case CancelInput(id, side, price) =>
          NumberedFewer(Pop(e), CancelOrder(Pop(e), id, side, price, carried, true), came, {id});
      }
  }

  lemma {:induction false} RunIsNumbered(e: Engine, run: seq<Event>, came: seq<int>)
    requires Legal(e, run) && Numbered(e, came)
    ensures Numbered(Run(e, run), CameAfter(came, run))
    decreases |run|
  {
    if run != [] {
      hide Numbered, Step, Enabled, Proper, WithArrival;
      StepIsNumbered(e, run[0], came);
      RunIsNumbered(Step(e, run[0]), run[1..], WithArrival(came, run[0]));
    }
  }

  /** Each id came once; they are the ids the engine has received. */
  lemma CameOnce(run: seq<Event>)
    requires Legal(INITIAL, run)
    ensures Numbered(Run(INITIAL, run), Came(run))
    ensures forall i, j :: 0 <= i < j < |Came(run)| ==> Came(run)[i] != Came(run)[j]
    ensures forall id :: id in Came(run) <==> id in Run(INITIAL, run).received
  {
    RunIsNumbered(INITIAL, run, []);
  }

  // ---------- Who stands first ----------

  lemma RankedStands(e: Engine, came: seq<int>, side: Side, i: nat, j: nat)
    requires Numbered(e, came) && Ranked(RankingOf(side), e.priority, e.Book(side)) && i < j < |e.Book(side)|
    ensures StandsBefore(side, came, e.Book(side)[i], e.Book(side)[j])
  {
    var a, b := e.Book(side)[i], e.Book(side)[j];
    assert Precedes(RankingOf(side), e.priority, a, b);
  }

  /**
   In every reachable state the orders of a side stand in order of price, at one price in order of their update, and
   of those updated at one time the one that came first stands first.
   */
  lemma PriceTimePriority(run: seq<Event>, side: Side, i: nat, j: nat)
    requires Legal(INITIAL, run) && i < j < |Run(INITIAL, run).Book(side)|
    ensures var q := Run(INITIAL, run).Book(side); StandsBefore(side, Came(run), q[i], q[j])
  {
    InitialInv();
    RunKeeps(INITIAL, run);
    CameOnce(run);
    RankedStands(Run(INITIAL, run), Came(run), side, i, j);
  }

  /** Standing before is never mutual. */
  lemma NotBothBefore(side: Side, came: seq<int>, a: Order, b: Order)
    requires forall i, j :: 0 <= i < j < |came| ==> came[i] != came[j]
    requires StandsBefore(side, came, a, b)
    ensures !StandsBefore(side, came, b, a)
  {
  }

  // ---------- Who trades first ----------

  /** The trades a step has put out. */
  function TradesBetween(e: Engine, e': Engine): seq<Trade> {
    var before, after := AllTrades(e.outputs), AllTrades(e'.outputs);
    if |before| <= |after| then after[|before|..] else []
  }

  lemma MakerAtTrade(s: LoopState, j: nat, t: Trade)
    requires LoopInv(s) && DistinctIds(s.makers) && !HasId(s.makers, s.taker.id) && j < |s.makers|
    requires t in GreedyFill(s).trades && Involves(t, s.makers[j].id)
    ensures j < |GreedyFill(s).trades|
  {
    FillInPriority(s);
    var g := GreedyFill(s);
    hide GreedyFill, LoopInv, After;
    var k :| 0 <= k < |g.trades| && g.trades[k] == t;
    assert TradesDrop(s.taker, s.makers[k], After(g)[k], t);
    assert s.makers[j].id != s.taker.id;
    SamePlace(s.makers, k, j);
  }

  lemma SamePlace(q: seq<Order>, k: nat, j: nat)
    requires DistinctIds(q) && k < |q| && j < |q| && q[k].id == q[j].id
    ensures k == j
  {
  }

  /** A maker used up has traded all it had left and is not among those left. */
  lemma UsedUpMaker(s: LoopState, i: nat)
    requires LoopInv(s) && DistinctIds(s.makers) && !HasId(s.makers, s.taker.id) && i < |GreedyFill(s).done|
    ensures i < |s.makers|
    ensures QuantityOf(GreedyFill(s).trades, s.makers[i].id) == s.makers[i].remaining
    ensures s.makers[i].id !in IdSet(GreedyFill(s).left)
  {
    hide GreedyFill, QuantityOf, IdSet, LoopInv, DistinctIds, HasId;
    UsedUpFully(s, i);
    UsedUpGone(s, i);
  }

  lemma UsedUpFully(s: LoopState, i: nat)
    requires LoopInv(s) && DistinctIds(s.makers) && !HasId(s.makers, s.taker.id) && i < |GreedyFill(s).done|
    ensures i < |s.makers|
    ensures QuantityOf(GreedyFill(s).trades, s.makers[i].id) == s.makers[i].remaining
  {
    hide GreedyFill, QuantityOf, ValueOf, TradesDrop, DistinctIds, HasId, Order.NetFilled, Order.NetNotional;
    FillInPriority(s);
    FillIsAccounted(s);
    var g := GreedyFill(s);
    assert s.makers[i] in s.makers;
    hide LoopInv;
    assert After(g)[i] == g.done[i] && Accounts(s.makers[i], After(g)[i], g.trades);
  }

  lemma UsedUpGone(s: LoopState, i: nat)
    requires LoopInv(s) && DistinctIds(s.makers) && i < |GreedyFill(s).done|
    ensures i < |s.makers| && s.makers[i].id !in IdSet(GreedyFill(s).left)
  {
    hide GreedyFill, LoopInv, DistinctIds;
    LeftIsSame(s);
    var g := GreedyFill(s);
    SplitIds(s.makers, g.done, g.left);
    assert g.done[i] in g.done && g.done[i].id in IdSet(g.done);
  }

  /** With a maker all makers in front of it trade, for all they have left. */
  lemma FrontIsUsedUp(s: LoopState, i: nat, j: nat, t: Trade)
    requires LoopInv(s) && DistinctIds(s.makers) && !HasId(s.makers, s.taker.id) && i < j < |s.makers|
    requires t in GreedyFill(s).trades && Involves(t, s.makers[j].id)
    ensures QuantityOf(GreedyFill(s).trades, s.makers[i].id) == s.makers[i].remaining
    ensures s.makers[i].id !in IdSet(GreedyFill(s).left)
  {
    hide GreedyFill, LoopInv, After, TradesDrop, QuantityOf, IdSet, Involves, HasId;
    MakerAtTrade(s, j, t);
    FillInPriority(s);
    UsedUpMaker(s, i);
  }

  /** An order processed goes to the makers in the order in which they stand. */
  lemma ProcessedInOrder(e: Engine, o: Order, now: real, i: nat, j: nat, t: Trade)
    requires Inv(e, {o.id}) && o.WellFormed() && LoopInv(LoopStart(e, o)) && i < j < |e.Book(o.side.Opposite())|
    requires var makers, e' := e.Book(o.side.Opposite()), Submit(e, o, now);
             t in TradesBetween(e, e') && Involves(t, makers[j].id)
    ensures var makers, e' := e.Book(o.side.Opposite()), Submit(e, o, now);
            && QuantityOf(TradesBetween(e, e'), makers[i].id) == makers[i].remaining
            && makers[i].id !in IdSet(e'.Book(o.side.Opposite()))
  {
    var s := LoopStart(e, o);
    NotAmongMakers(e, o);
    hide Inv, LoopInv, QuantityOf, GreedyFill, Submit, AllTrades, IdSet, Involves, HasId, DistinctIds;
    SubmitTrades(e, o, now);
    FrontIsUsedUp(s, i, j, t);
    MakersLeft(e, o, now);
  }

  lemma NotAmongMakers(e: Engine, o: Order)
    requires Inv(e, {o.id})
    ensures DistinctIds(LoopStart(e, o).makers) && !HasId(LoopStart(e, o).makers, o.id)
  {
    IdSetIff(LoopStart(e, o).makers, o.id);
  }

  lemma MakersLeft(e: Engine, o: Order, now: real)
    requires o.WellFormed() && LoopInv(LoopStart(e, o)) && !o.Expired(now)
    ensures Submit(e, o, now).Book(o.side.Opposite()) == GreedyFill(LoopStart(e, o)).left
  {
    OutcomeKeeps(LoopStart(e, o));
    hide GreedyFill, Insert, TradeDeltas, IdSet;
  }

  /**
   If an order trades with the create processed next, then every order that should come before it, by price, update and
   arrival, is used up by the same call: it trades all it had left, and leaves the book.
   */
  lemma EarlierIsUsedUp(run: seq<Event>, now: real, carried: real, a: Order, b: Order, t: Trade)
    requires Legal(INITIAL, run) && Enabled(Run(INITIAL, run), Dequeue(now, carried))
    requires Run(INITIAL, run).pending[0].CreateInput?
    requires var e := Run(INITIAL, run);
             var side := e.pending[0].order.side.Opposite();
             && a in e.Book(side) && b in e.Book(side) && StandsBefore(side, Came(run), a, b)
             && t in TradesBetween(e, Step(e, Dequeue(now, carried))) && Involves(t, b.id)
    ensures var e := Run(INITIAL, run);
            var e' := Step(e, Dequeue(now, carried));
            && QuantityOf(TradesBetween(e, e'), a.id) == a.remaining
            && a.id !in IdSet(e'.Book(e.pending[0].order.side.Opposite()))
  {
    hide Inv, LoopInv, Submit, QuantityOf, AllTrades, Run, Legal, StandsBefore, Came, IdSet, Involves, TradesBetween;
    InitialInv();
    RunKeeps(INITIAL, run);
    var e := Run(INITIAL, run);
    var o := e.pending[0].order;
    var side := o.side.Opposite();
    PopKeeps(e);
    LoopStartInv(Pop(e), o);
    var i :| 0 <= i < |e.Book(side)| && e.Book(side)[i] == a;
    var j :| 0 <= j < |e.Book(side)| && e.Book(side)[j] == b;
    BeforeIsInFront(run, side, i, j);
    SameTrades(e, o, now);
    ProcessedInOrder(Pop(e), o, now, i, j, t);
  }

  lemma SameTrades(e: Engine, o: Order, now: real)
    requires e.pending != [] && e.pending[0] == CreateInput(o) && o.WellFormed()
    requires AllResting(e.Book(o.side.Opposite()), o.side.Opposite())
    ensures TradesBetween(Pop(e), Submit(Pop(e), o, now)) == TradesBetween(e, Submit(Pop(e), o, now))
  {
    hide Submit, AllTrades;
  }

  lemma BeforeIsInFront(run: seq<Event>, side: Side, i: nat, j: nat)
    requires Legal(INITIAL, run) && i < |Run(INITIAL, run).Book(side)| && j < |Run(INITIAL, run).Book(side)|
    requires var q := Run(INITIAL, run).Book(side); StandsBefore(side, Came(run), q[i], q[j])
    ensures i < j
  {
    hide StandsBefore, Came, Run, Legal;
    CameOnce(run);
    var q := Run(INITIAL, run).Book(side);
    NotBothBefore(side, Came(run), q[i], q[j]);
    if j < i { PriceTimePriority(run, side, j, i); }
  }

  // ---------- First in, first out ----------

  /** The inputs that join the queue: an id's first create, then its first cancel after that. */
  function Accepted(received: map<int, Action>, run: seq<Event>): seq<Input>
    decreases |run|
  {
    if run == [] then []
    else if run[0].Arrive? && Joins(received, run[0].input) then
      var input := run[0].input;
      [input] + Accepted(received[input.Id() := input.TheAction()], run[1..])
    else Accepted(received, run[1..])
  }

  predicate Joins(received: map<int, Action>, input: Input) {
    if input.CreateInput? then input.Id() !in received
    else input.Id() in received && received[input.Id()].Create?
  }

  function Dequeues(run: seq<Event>): nat {
    if run == [] then 0 else (if run[0].Dequeue? then 1 else 0) + Dequeues(run[1..])
  }

  lemma {:induction false} SweepKeepsQueue(e: Engine, now: real, ids: seq<int>)
    requires SweepEnabled(e, now, ids)
    ensures SweepAll(e, now, ids).pending == e.pending && SweepAll(e, now, ids).received == e.received
    decreases |ids|
  {
    if ids != [] { SweepKeepsQueue(Expire(e, ids[0]), now, ids[1..]); }
  }

  lemma StepQueues(e: Engine, ev: Event)
    requires Enabled(e, ev)
    ensures var e' := Step(e, ev);
            if ev.Dequeue? then e'.pending == e.pending[1..] && e'.received == e.received
            else if ev.Arrive? && Joins(e.received, ev.input) then
              && e'.pending == e.pending + [ev.input]
              && e'.received == e.received[ev.input.Id() := ev.input.TheAction()]
            else e'.pending == e.pending && e'.received == e.received
  {
    match ev
    case Arrive(input) =>
      hide Remove;
    case Sweep(now, ids) =>
      SweepKeepsQueue(e, now, ids);
    case Dequeue(now, carried) =>
      match e.pending[0] {
        case CreateInput(o) =>
          LoopStartInv(Pop(e), o);
          hide LoopInv, AllResting, Settles, Submit;
          SubmitFrame(Pop(e), o, now);
        case CancelInput(_, _, _) =>
          hide Remove;
      }
  }

  /** What is waiting, and what will be accepted. */
  function Coming(p: seq<Input>, received: map<int, Action>, run: seq<Event>): seq<Input> {
    p + Accepted(received, run)
  }

  lemma AcceptedMoves(p: seq<Input>, received: map<int, Action>, run: seq<Event>, p': seq<Input>,
                      received': map<int, Action>)
    requires run != []
    requires if run[0].Dequeue? then p != [] && p' == p[1..] && received' == received
             else if run[0].Arrive? && Joins(received, run[0].input) then
               && p' == p + [run[0].input]
               && received' == received[run[0].input.Id() := run[0].input.TheAction()]
             else p' == p && received' == received
    ensures var all, all' := Coming(p, received, run), Coming(p', received', run[1..]);
            if run[0].Dequeue? then all != [] && all' == all[1..] else all' == all
  {
    hide Joins;
    var rest := Accepted(received', run[1..]);
    if run[0].Arrive? && Joins(received, run[0].input) {
      assert Accepted(received, run) == [run[0].input] + rest;
      assert p + ([run[0].input] + rest) == p + [run[0].input] + rest;
    } else {
      assert Accepted(received, run) == rest;
    }
  }

  lemma QueueMoves(e: Engine, run: seq<Event>)
    requires run != [] && Enabled(e, run[0])
    ensures var e' := Step(e, run[0]);
            var all, all' := Coming(e.pending, e.received, run), Coming(e'.pending, e'.received, run[1..]);
            if run[0].Dequeue? then all != [] && all' == all[1..] else all' == all
  {
    hide Step, Enabled, Joins, Coming;
    StepQueues(e, run[0]);
    if run[0].Dequeue? { DequeueNeedsPending(e, run[0]); }
    AcceptedMoves(e.pending, e.received, run, Step(e, run[0]).pending, Step(e, run[0]).received);
  }

  lemma {:induction false} RunQueues(e: Engine, run: seq<Event>)
    requires Legal(e, run)
    ensures var all := Coming(e.pending, e.received, run);
            Dequeues(run) <= |all| && Run(e, run).pending == all[Dequeues(run)..]
    decreases |run|
  {
    hide Step, Enabled, Proper, Coming;
    if run != [] {
      QueueMoves(e, run);
      RunQueues(Step(e, run[0]), run[1..]);
    } else {
      NothingComing(e.pending, e.received);
    }
  }

  lemma NothingComing(p: seq<Input>, received: map<int, Action>)
    ensures Coming(p, received, []) == p
  {
  }

  lemma DequeueNeedsPending(e: Engine, ev: Event)
    requires Enabled(e, ev) && ev.Dequeue?
    ensures e.pending != []
  {
  }

  /** What is pending is what was accepted, in order, less as many from the front as were dequeued. */
  lemma FirstInFirstOut(run: seq<Event>)
    requires Legal(INITIAL, run)
    ensures var all := Accepted(map[], run);
            Dequeues(run) <= |all| && Run(INITIAL, run).pending == all[Dequeues(run)..]
  {
    RunQueues(INITIAL, run);
    assert [] + Accepted(map[], run) == Accepted(map[], run);
  }
}
