/** What the engine accepts over a run, and who can trade in a tick. */
module EngineHistory {
  import opened Orders
  import opened Matching
  import opened Fills
  import opened Queues
  import opened EngineModel
  import opened EngineRuns

  /** The actions a step enqueues for an id. */
  ghost function EnqueuedBy(e: Engine, ev: Event, id: int): seq<Action> {
    if ev.Arrive? && ev.input.Id() == id && Receive(e, ev.input).pending != e.pending
    then [ev.input.TheAction()] else []
  }

  /** The actions a run enqueues for an id, in order. */
  ghost function History(e: Engine, run: seq<Event>, id: int): seq<Action>
    requires Legal(e, run)
    decreases |run|
  {
    if run == [] then [] else EnqueuedBy(e, run[0], id) + History(Step(e, run[0]), run[1..], id)
  }

  /** The history the received-actions map stands for. */
  function Recorded(received: map<int, Action>, id: int): seq<Action> {
    if id !in received then [] else if received[id].Create? then [Create] else [Create, Cancel]
  }

  lemma {:induction false} SweepKeepsReceived(e: Engine, now: real, ids: seq<int>)
    requires SweepEnabled(e, now, ids)
    ensures SweepAll(e, now, ids).received == e.received
    decreases |ids|
  {
    if ids != [] { SweepKeepsReceived(Expire(e, ids[0]), now, ids[1..]); }
  }

  lemma StepRecords(e: Engine, ev: Event, id: int)
    requires Enabled(e, ev)
    ensures Recorded(Step(e, ev).received, id) == Recorded(e.received, id) + EnqueuedBy(e, ev, id)
  {
    hide GreedyFill, SweepAll, SweepEnabled, Settles, LoopInv, Remove, Insert;
    match ev
    case Arrive(input) =>
      assert |(e.pending + [input])| != |e.pending|;
    case Sweep(now, ids) => SweepKeepsReceived(e, now, ids);
    case Dequeue(_, _) =>
  }

  lemma {:induction false} RunRecords(e: Engine, run: seq<Event>, id: int)
    requires Legal(e, run)
    ensures Recorded(Run(e, run).received, id) == Recorded(e.received, id) + History(e, run, id)
    decreases |run|
  {
    if run != [] {
      hide Step, Enabled, Recorded, EnqueuedBy;
      StepRecords(e, run[0], id);
      RunRecords(Step(e, run[0]), run[1..], id);
    }
  }

  /** For every id a run enqueues nothing, one create, or one create and then one cancel. */
  lemma AcceptedHistories(run: seq<Event>, id: int)
    requires Legal(INITIAL, run)
    ensures var h := History(INITIAL, run, id); h == [] || h == [Create] || h == [Create, Cancel]
    ensures History(INITIAL, run, id) == Recorded(Run(INITIAL, run).received, id)
  {
    RunRecords(INITIAL, run, id);
    assert Recorded(INITIAL.received, id) == [];
    assert [] + History(INITIAL, run, id) == History(INITIAL, run, id);
  }

  // ---------- One tick ----------

  ghost predicate Unexpired(e: Engine, now: real) {
    forall o | InBook(e, o) :: !o.Expired(now)
  }

  ghost predicate AllArrivals(run: seq<Event>) { forall ev <- run :: ev.Arrive? }

  /** Arrivals add nothing to the books. */
  lemma {:induction false} ArrivalsKeepUnexpired(e: Engine, run: seq<Event>, now: real)
    requires Inv(e, {}) && Legal(e, run) && AllArrivals(run) && Unexpired(e, now)
    ensures Unexpired(Run(e, run), now) && Inv(Run(e, run), {})
    decreases |run|
  {
    if run != [] {
      var input := run[0].input;
      StepKeeps(e, run[0]);
      if input.Id() !in e.received && input.CancelInput? {
        RemoveFacts(e.Book(input.side), input.Id());
      }
      assert forall ev <- run[1..] :: ev in run;
      ArrivalsKeepUnexpired(Step(e, run[0]), run[1..], now);
    }
  }

  /** The makers of the trades of one `processOrder`. */
  ghost predicate MakerOf(e: Engine, taker: Order, t: Trade, m: Order) {
    && m in e.Book(taker.side.Opposite())
    && (if taker.side.Buy? then t.buyId == taker.id && t.sellId == m.id else t.buyId == m.id && t.sellId == taker.id)
    && t.price == m.price && 0.0 < t.quantity <= m.remaining && t.buyerIsTaker == taker.side.Buy?
  }

  /** Every trade of an order is with an order that was resting when it was processed. */
  lemma TradesHaveMakers(e: Engine, o: Order, t: Trade)
    requires LoopInv(LoopStart(e, o)) && t in GreedyFill(LoopStart(e, o)).trades
    ensures exists m :: MakerOf(e, o, t, m)
  {
    var s := LoopStart(e, o);
    var g := GreedyFill(s);
    FillInPriority(s);
    var i :| 0 <= i < |g.trades| && g.trades[i] == t;
    assert TradesDrop(o, s.makers[i], After(g)[i], t);
    assert MakerOf(e, o, t, s.makers[i]);
  }

  /**
   In a tick no maker trades that was expired when the tick swept: the sweep, whatever arrives
   before the next input is dequeued, then the order processed.
   */
  lemma TickTradesOnlyUnexpired(e: Engine, swept: real, ids: seq<int>, arrivals: seq<Event>, o: Order, t: Trade)
    requires Inv(e, {}) && SweepEnabled(e, swept, ids)
    requires AllArrivals(arrivals) && Legal(SweepAll(e, swept, ids), arrivals)
    requires var before := Run(SweepAll(e, swept, ids), arrivals);
             LoopInv(LoopStart(before, o)) && t in GreedyFill(LoopStart(before, o)).trades
    ensures exists m :: MakerOf(Run(SweepAll(e, swept, ids), arrivals), o, t, m) && !m.Expired(swept)
  {
    SweepKeeps(e, swept, ids);
    var after := SweepAll(e, swept, ids);
    ArrivalsKeepUnexpired(after, arrivals, swept);
    var before := Run(after, arrivals);
    TradesHaveMakers(before, o, t);
    var m :| MakerOf(before, o, t, m);
    assert InBook(before, m);
  }
}
