/** The engine from outside: messages that come in and the two halves of its ticks, in any order, as runs. */
module EngineCalls {
  import opened Orders
  import opened Matching
  import opened Fills
  import opened Queues
  import opened EngineModel
  import opened EngineInvariant
  import opened EngineRuns
  import opened EngineReturns
  import opened EngineDeltas
  import opened PublishedBook

  /**
   A message, carrying an order as it was sent, or one half of a tick with its clock reading: the sweep, or the input
   dequeued after it, which a tick awaits, so that messages may come in between.
   */
  datatype Call = Message(action: Action, order: Order) | Sweeping(now: real) | Processing(now: real) {
    /** The input a message becomes. */
    function Input(): Input
      requires Message?
    {
      if action.Create? then CreateInput(order) else CancelInput(order.id, order.side, order.price)
    }
  }

  /** The engine, and what the object of each cancel accepted shows as remaining: no one writes to it any more. */
  datatype Front = Front(engine: Engine, owed: map<int, real>)

  /** The input joins the queue. */
  predicate Accepts(e: Engine, input: Input) {
    if input.CreateInput? then input.Id() !in e.received
    else input.Id() in e.received && e.received[input.Id()].Create?
  }

  function OwedAfter(f: Front, call: Call): map<int, real>
    requires call.Message?
  {
    if call.action.Cancel? && Accepts(f.engine, call.Input())
    then f.owed[call.order.id := call.order.remaining]
    else f.owed
  }

  /** No cancel of the same id is waiting when one is accepted. */
  lemma AcceptedIsOnly(e: Engine, input: Input)
    requires Inv(e, {}) && Accepts(e, input) && input.CancelInput?
    ensures forall i :: 0 <= i < |e.pending| && e.pending[i].CancelInput? ==> e.pending[i].cancelId != input.cancelId
  {
    hide BookInv, PriorityInv;
    forall i | 0 <= i < |e.pending| && e.pending[i].CancelInput? ensures e.pending[i].cancelId != input.cancelId {
      assert e.pending[i] in e.pending;
    }
  }

  /** A cancel first in the queue carries what its message showed. */
  predicate Carries(f: Front, carried: real) {
    f.engine.pending != [] && f.engine.pending[0].CancelInput? ==>
      var id := f.engine.pending[0].cancelId;
      id in f.owed && f.owed[id] == carried
  }

  ghost predicate Performs(f: Front, call: Call, f': Front) {
    match call
    case Message(_, _) => f' == Front(Receive(f.engine, call.Input()), OwedAfter(f, call))
    case Sweeping(now) => f'.owed == f.owed && exists ids: seq<int> :: Swept(f.engine, now, ids, f'.engine)
    case Processing(now) =>
      f'.owed == f.owed && exists carried: real :: Carries(f, carried) && Advanced(f.engine, now, carried, f'.engine)
  }

  ghost predicate Swept(e: Engine, now: real, ids: seq<int>, e': Engine) {
    SweepEnabled(e, now, ids) && e' == SweepAll(e, now, ids)
  }

  /** The next input is dequeued and acted on, if there is one. */
  ghost predicate Advanced(e: Engine, now: real, carried: real, e': Engine) {
    if e.pending == [] then e' == e else Enabled(e, Dequeue(now, carried)) && e' == Step(e, Dequeue(now, carried))
  }

  ghost predicate Plays(f: Front, calls: seq<Call>, f': Front)
    decreases |calls|
  {
    if calls == [] then f == f'
    else exists g: Front :: Performs(f, calls[0], g) && Plays(g, calls[1..], f')
  }

  lemma {:induction false} PlaysThen(f: Front, calls: seq<Call>, g: Front, more: seq<Call>, f': Front)
    requires Plays(f, calls, g) && Plays(g, more, f')
    ensures Plays(f, calls + more, f')
    decreases |calls|
  {
    hide Performs;
    if calls == [] {
      assert calls + more == more;
    } else {
      var h: Front :| Performs(f, calls[0], h) && Plays(h, calls[1..], g);
      PlaysThen(h, calls[1..], g, more, f');
      assert (calls + more)[1..] == calls[1..] + more;
    }
  }

  lemma PlaysOne(f: Front, call: Call, f': Front)
    requires Performs(f, call, f')
    ensures Plays(f, [call], f')
  {
    hide Performs;
    assert [call][1..] == [] && Plays(f', [], f');
  }

  lemma {:induction false} SweepKeepsPending(e: Engine, now: real, ids: seq<int>)
    requires SweepEnabled(e, now, ids)
    ensures SweepAll(e, now, ids).pending == e.pending
    decreases |ids|
  {
    if ids != [] { SweepKeepsPending(Expire(e, ids[0]), now, ids[1..]); }
  }

  /** A tick no message comes into is its two halves. */
  lemma TickPlays(f: Front, swept: real, ids: seq<int>, now: real, carried: real, e': Engine)
    requires Ticked(f.engine, swept, ids, now, carried, e') && Carries(f, carried)
    ensures Plays(f, [Sweeping(swept), Processing(now)], Front(e', f.owed))
  {
    hide SweepAll, SweepEnabled, Enabled, Step, Plays;
    var mid := Front(SweepAll(f.engine, swept, ids), f.owed);
    SweepKeepsPending(f.engine, swept, ids);
    assert Swept(f.engine, swept, ids, mid.engine) && Performs(f, Sweeping(swept), mid);
    assert Carries(mid, carried) && Advanced(mid.engine, now, carried, e');
    assert Performs(mid, Processing(now), Front(e', f.owed));
    hide Performs;
    PlaysOne(f, Sweeping(swept), mid);
    PlaysOne(mid, Processing(now), Front(e', f.owed));
    PlaysThen(f, [Sweeping(swept)], mid, [Processing(now)], Front(e', f.owed));
    assert [Sweeping(swept)] + [Processing(now)] == [Sweeping(swept), Processing(now)];
  }

  // ---------- When every call returns ----------

  /** The call returns, and a cancel dequeued in it shows the side of the order it names. */
  ghost predicate Returns(e: Engine, call: Call) {
    match call
    case Message(_, o) => call.action.Create? ==> o.WellFormed()
    case Sweeping(_) => true
    case Processing(now) =>
      e.pending != [] ==> Enabled(e, Dequeue(now, 0.0)) && Proper(e, Dequeue(now, 0.0))
  }

  /** It does not matter what a cancel carries. */
  lemma ReturnsProper(e: Engine, now: real, carried: real)
    requires Returns(e, Processing(now)) && e.pending != []
    ensures Enabled(e, Dequeue(now, carried)) && Proper(e, Dequeue(now, carried))
  {
    hide Settles, LoopInv;
  }

  /** So does every call, however the calls before it go. */
  ghost predicate AllReturn(f: Front, calls: seq<Call>)
    decreases |calls|
  {
    calls != [] ==> Returns(f.engine, calls[0]) && forall g | Performs(f, calls[0], g) :: AllReturn(g, calls[1..])
  }

  lemma {:induction false} AllReturnAfter(f: Front, calls: seq<Call>, g: Front, more: seq<Call>)
    requires AllReturn(f, calls + more) && Plays(f, calls, g)
    ensures AllReturn(g, more)
    decreases |calls|
  {
    hide Performs, Returns;
    if calls == [] {
      assert calls + more == more;
    } else {
      var h: Front :| Performs(f, calls[0], h) && Plays(h, calls[1..], g);
      assert (calls + more)[1..] == calls[1..] + more && (calls + more)[0] == calls[0];
      AllReturnAfter(h, calls[1..], g, more);
    }
  }

  /** A cancel dequeued in the call names a resting order and shows what that has left. */
  ghost predicate Honest(f: Front, call: Call) {
    call.Processing? ==> NamesOwn(f.engine, f.owed)
  }

  ghost predicate NamesOwn(e: Engine, owed: map<int, real>) {
    e.pending != [] && e.pending[0].CancelInput? ==>
      var c := e.pending[0];
      && c.cancelId in owed && HasId(e.Book(c.side), c.cancelId)
      && CarriesOwnRemaining(e, c.cancelId, c.side, c.price, owed[c.cancelId])
  }

  ghost predicate AllHonest(f: Front, calls: seq<Call>)
    decreases |calls|
  {
    calls != [] ==> Honest(f, calls[0]) && forall g | Performs(f, calls[0], g) :: AllHonest(g, calls[1..])
  }

  lemma {:induction false} ReturnsFirst(f: Front, calls: seq<Call>, more: seq<Call>)
    requires AllReturn(f, calls + more)
    ensures AllReturn(f, calls)
    decreases |calls|
  {
    hide Performs, Returns;
    if calls != [] {
      assert (calls + more)[1..] == calls[1..] + more && (calls + more)[0] == calls[0];
      forall g | Performs(f, calls[0], g) ensures AllReturn(g, calls[1..]) { ReturnsFirst(g, calls[1..], more); }
    }
  }

  // ---------- Calls make a run ----------

  lemma {:induction false} RunThen(e: Engine, run: seq<Event>, more: seq<Event>)
    requires Legal(e, run) && Legal(Run(e, run), more)
    ensures Legal(e, run + more) && Run(e, run + more) == Run(Run(e, run), more)
    decreases |run|
  {
    hide Enabled, Proper, Step;
    if run == [] {
      assert run + more == more;
    } else {
      assert (run + more)[1..] == run[1..] + more && (run + more)[0] == run[0];
      RunThen(Step(e, run[0]), run[1..], more);
    }
  }

  lemma {:induction false} NamesThen(e: Engine, run: seq<Event>, more: seq<Event>)
    requires Legal(e, run) && Legal(Run(e, run), more)
    requires AllNameResting(e, run) && AllNameResting(Run(e, run), more)
    ensures Legal(e, run + more) && AllNameResting(e, run + more)
    decreases |run|
  {
    hide Enabled, Proper, Step, NamesResting;
    RunThen(e, run, more);
    if run == [] {
      assert run + more == more;
    } else {
      assert (run + more)[1..] == run[1..] + more && (run + more)[0] == run[0];
      NamesThen(Step(e, run[0]), run[1..], more);
    }
  }

  lemma NamesOne(e: Engine, ev: Event, e': Engine)
    requires Takes(e, ev, e') && NamesResting(e, ev)
    ensures Legal(e, [ev]) && Run(e, [ev]) == e' && AllNameResting(e, [ev])
  {
    hide Enabled, Proper, Step, NamesResting;
    assert [ev][1..] == [] && Legal(e', []) && AllNameResting(e', []);
  }

  /** The tick's dequeue as a step. */
  lemma DequeueTakes(e: Engine, now: real, carried: real, e': Engine)
    requires Inv(e, {}) && Enabled(e, Dequeue(now, carried)) && Proper(e, Dequeue(now, 0.0))
    requires e' == Step(e, Dequeue(now, carried))
    ensures Takes(e, Dequeue(now, carried), e') && Inv(e', {})
  {
    assert Proper(e, Dequeue(now, carried));
    StepKeeps(e, Dequeue(now, carried));
  }

  lemma SweepTakes(e: Engine, swept: real, ids: seq<int>)
    requires Inv(e, {}) && SweepEnabled(e, swept, ids)
    ensures Takes(e, Sweep(swept, ids), SweepAll(e, swept, ids)) && Inv(SweepAll(e, swept, ids), {})
    ensures NamesResting(e, Sweep(swept, ids))
  {
    SweepKeeps(e, swept, ids);
  }

  lemma DequeueNames(e: Engine, owed: map<int, real>, now: real, carried: real)
    requires Enabled(e, Dequeue(now, carried)) && NamesOwn(e, owed)
    requires e.pending[0].CancelInput? ==> e.pending[0].cancelId in owed && owed[e.pending[0].cancelId] == carried
    ensures NamesResting(e, Dequeue(now, carried))
  {
    hide CarriesOwnRemaining;
  }

  lemma SweepIsRun(e: Engine, now: real, e': Engine) returns (run: seq<Event>)
    requires Inv(e, {}) && exists ids: seq<int> :: Swept(e, now, ids, e')
    ensures Legal(e, run) && Run(e, run) == e' && Inv(e', {}) && AllNameResting(e, run)
  {
    hide Inv, SweepAll, SweepEnabled, Takes, Legal, Run, AllNameResting, NamesResting;
    var ids :| Swept(e, now, ids, e');
    SweepTakes(e, now, ids);
    NamesOne(e, Sweep(now, ids), e');
    run := [Sweep(now, ids)];
  }

  lemma NextIsRun(f: Front, now: real, carried: real, e': Engine) returns (run: seq<Event>)
    requires Inv(f.engine, {}) && Returns(f.engine, Processing(now))
    requires Carries(f, carried) && Advanced(f.engine, now, carried, e')
    ensures Legal(f.engine, run) && Run(f.engine, run) == e' && Inv(e', {})
    ensures NamesOwn(f.engine, f.owed) ==> AllNameResting(f.engine, run)
  {
    hide Inv, Takes, NamesResting, NamesOwn, Enabled, Step, Proper;
    run := [];
    if f.engine.pending != [] {
      hide Legal, Run, AllNameResting;
      DequeueTakes(f.engine, now, carried, e');
      OneStep(f.engine, Dequeue(now, carried), e');
      run := [Dequeue(now, carried)];
      if NamesOwn(f.engine, f.owed) {
        DequeueNames(f.engine, f.owed, now, carried);
        NamesOne(f.engine, Dequeue(now, carried), e');
      }
    }
  }

  lemma OneStep(e: Engine, ev: Event, e': Engine)
    requires Takes(e, ev, e')
    ensures Legal(e, [ev]) && Run(e, [ev]) == e'
  {
    hide Takes;
    Follow([e, e'], [ev]);
  }

  lemma MessageIsRun(e: Engine, call: Call) returns (run: seq<Event>)
    requires Inv(e, {}) && call.Message? && Returns(e, call)
    ensures Legal(e, run) && Run(e, run) == Receive(e, call.Input()) && Inv(Receive(e, call.Input()), {})
    ensures AllNameResting(e, run)
  {
    var ev := Arrive(call.Input());
    run := [ev];
    assert Takes(e, ev, Receive(e, call.Input())) && NamesResting(e, ev);
    StepKeeps(e, ev);
    hide Inv, Receive, Takes, NamesResting;
    NamesOne(e, ev, Receive(e, call.Input()));
  }

  lemma CallIsRun(f: Front, call: Call, f': Front) returns (run: seq<Event>)
    requires Inv(f.engine, {}) && Returns(f.engine, call) && Performs(f, call, f')
    ensures Legal(f.engine, run) && Run(f.engine, run) == f'.engine && Inv(f'.engine, {})
    ensures Honest(f, call) ==> AllNameResting(f.engine, run)
  {
    hide Inv, Returns, Swept, Advanced, Carries, Receive, Legal, Run, AllNameResting, NamesOwn;
    match call
    case Message(_, _) => run := MessageIsRun(f.engine, call);
    case Sweeping(now) => run := SweepIsRun(f.engine, now, f'.engine);
    case Processing(now) =>
      var carried :| Carries(f, carried) && Advanced(f.engine, now, carried, f'.engine);
      run := NextIsRun(f, now, carried, f'.engine);
  }

  /**
   Whatever calls the engine goes through in whatever order, it goes through a run of the model; one in which cancels
   name resting orders and carry their own remainder, if the messages do.
   */
  lemma {:induction false} CallsAreRun(f: Front, calls: seq<Call>, f': Front) returns (run: seq<Event>)
    requires Inv(f.engine, {}) && AllReturn(f, calls) && Plays(f, calls, f')
    ensures Legal(f.engine, run) && Run(f.engine, run) == f'.engine && Inv(f'.engine, {})
    ensures AllHonest(f, calls) ==> AllNameResting(f.engine, run)
    decreases |calls|
  {
    hide Inv, Returns, Performs, Honest, NamesResting, Enabled, Proper, Step;
    run := [];
    if calls != [] {
      var g: Front :| Performs(f, calls[0], g) && Plays(g, calls[1..], f');
      var first := CallIsRun(f, calls[0], g);
      var rest := CallsAreRun(g, calls[1..], f');
      RunThen(f.engine, first, rest);
      if AllHonest(f, calls) { NamesThen(f.engine, first, rest); }
      run := first + rest;
    }
  }

  // ---------- Loading ----------

  /** Loaded orders as messages. */
  function Loads(orders: seq<Order>): seq<Call> {
    seq(|orders|, i requires 0 <= i < |orders| => Message(Create, orders[i]))
  }

  /** On ids not received before, loading without the duplicate check is receiving. */
  lemma {:induction false} LoadsPlay(f: Front, orders: seq<Order>)
    requires FreshOrders(f.engine.received, orders)
    ensures Plays(f, Loads(orders), Front(EnqueueAll(f.engine, orders), f.owed))
    decreases |orders|
  {
    if orders != [] {
      FreshExtends(f.engine.received, orders);
      var g := Front(Enqueue(f.engine, orders[0]), f.owed);
      assert Performs(f, Loads(orders)[0], g);
      assert Loads(orders)[1..] == Loads(orders[1..]);
      LoadsPlay(g, orders[1..]);
    }
  }

  lemma FreshIsFree(e: Engine, orders: seq<Order>)
    requires Inv(e, {}) && FreshOrders(e.received, orders)
    ensures Free(e, orders)
  {
    hide BookInv;
    forall o | o in orders ensures o.id !in e.priority && Unnamed(e, o.id) { UnseenIsFree(e, o.id); }
  }

  /** No message creates an order that is loaded, and no order is loaded twice. */
  predicate NotStreamed(early: seq<Call>, loaded: seq<Order>) {
    && DistinctIds(loaded)
    && forall m <- early :: m.Message? && (m.action.Create? ==> forall o <- loaded :: o.id != m.order.id)
  }

  lemma {:induction false} NotStreamedIsFresh(f: Front, early: seq<Call>, loaded: seq<Order>, g: Front)
    requires NotStreamed(early, loaded) && Plays(f, early, g) && FreshOrders(f.engine.received, loaded)
    ensures FreshOrders(g.engine.received, loaded)
    decreases |early|
  {
    if early != [] {
      var h: Front :| Performs(f, early[0], h) && Plays(h, early[1..], g);
      assert early[0] in early && forall m <- early[1..] :: m in early;
      NotStreamedIsFresh(h, early[1..], loaded, g);
    }
  }

  // ---------- Safe prices and sides ----------

  /** Pending cancels show the side their id has. */
  ghost predicate CancelsShow(e: Engine, sides: int -> Side) {
    forall i <- e.pending :: i.CancelInput? ==> i.side == sides(i.cancelId)
  }

  /** An order as one that may be received: well formed, with a safe price and the side its id has. */
  predicate Ordinary(sides: int -> Side, o: Order) { o.WellFormed() && SafePrice(o) && o.side == sides(o.id) }

  /** Its price and side, which filling does not change. */
  function Terms(sides: int -> Side): Order -> bool { o => SafePrice(o) && o.side == sides(o.id) }

  predicate AllOrdinary(calls: seq<Call>, sides: int -> Side) {
    forall c <- calls :: c.Message? ==>
      if c.action.Create? then Ordinary(sides, c.order) else c.order.side == sides(c.order.id)
  }

  lemma SidesAreProper(e: Engine, sides: int -> Side, now: real, carried: real)
    requires Inv(e, {}) && StateOf(e, Terms(sides)) && CancelsShow(e, sides)
    ensures Proper(e, Dequeue(now, carried))
  {
    if e.pending != [] && e.pending[0].CancelInput? {
      var c := e.pending[0];
      assert c in e.pending;
      forall o | o in e.Book(c.side.Opposite()) ensures o.id != c.cancelId { assert Terms(sides)(o); }
      IdSetIff(e.Book(c.side.Opposite()), c.cancelId);
    }
  }

  /** What ordinary calls keep of the engine. */
  ghost predicate OrdinaryState(e: Engine, sides: int -> Side) {
    Inv(e, {}) && StateOf(e, Terms(sides)) && CancelsShow(e, sides)
  }

  lemma TermsLast(sides: int -> Side)
    ensures Lasting(Terms(sides)) && Safe(Terms(sides))
  {
    forall a: Order, b: Order | a.SameOrder(b) ensures Terms(sides)(a) == Terms(sides)(b) {
      assert a.side == b.side && a.id == b.id && a.price == b.price;
    }
  }

  lemma SweepOrdinary(e: Engine, sides: int -> Side, swept: real, ids: seq<int>)
    requires OrdinaryState(e, sides) && SweepEnabled(e, swept, ids)
    ensures OrdinaryState(SweepAll(e, swept, ids), sides)
  {
    SweepKeeps(e, swept, ids);
    SweepAre(e, Terms(sides), swept, ids);
  }

  lemma DequeuePending(e: Engine, now: real, carried: real)
    requires Enabled(e, Dequeue(now, carried))
    ensures Step(e, Dequeue(now, carried)).pending == e.pending[1..]
  {
    hide GreedyFill, Remove, Insert, Settles, LoopInv;
  }

  lemma DequeueOrdinary(e: Engine, sides: int -> Side, now: real, carried: real)
    requires OrdinaryState(e, sides) && Enabled(e, Dequeue(now, carried))
    ensures OrdinaryState(Step(e, Dequeue(now, carried)), sides)
  {
    hide Inv, Enabled, Step, Terms;
    TermsLast(sides);
    SidesAreProper(e, sides, now, carried);
    StepKeeps(e, Dequeue(now, carried));
    StepAre(e, Terms(sides), Dequeue(now, carried));
    DequeuePending(e, now, carried);
  }

  lemma MessageOrdinary(e: Engine, sides: int -> Side, call: Call)
    requires OrdinaryState(e, sides) && call.Message? && AllOrdinary([call], sides)
    ensures OrdinaryState(Receive(e, call.Input()), sides)
  {
    assert call in [call];
    TermsLast(sides);
    ReceiveKeeps(e, call.Input());
    StepAre(e, Terms(sides), Arrive(call.Input()));
    PendingCreatesAppend(e.pending, call.Input());
  }

  lemma CallOrdinary(f: Front, call: Call, g: Front, sides: int -> Side)
    requires OrdinaryState(f.engine, sides) && AllOrdinary([call], sides) && Performs(f, call, g)
    ensures OrdinaryState(g.engine, sides)
  {
    hide OrdinaryState, SweepAll, SweepEnabled, Enabled, Step, Receive;
    match call
    case Message(_, _) => MessageOrdinary(f.engine, sides, call);
    case Sweeping(now) =>
      var ids :| Swept(f.engine, now, ids, g.engine);
      SweepOrdinary(f.engine, sides, now, ids);
    case Processing(now) =>
      var carried :| Carries(f, carried) && Advanced(f.engine, now, carried, g.engine);
      if f.engine.pending != [] { DequeueOrdinary(f.engine, sides, now, carried); }
  }

  lemma OrdinaryReturns(f: Front, call: Call, sides: int -> Side)
    requires OrdinaryState(f.engine, sides) && AllOrdinary([call], sides)
    ensures Returns(f.engine, call)
  {
    assert call in [call];
    if call.Processing? && f.engine.pending != [] {
      hide Inv, StateOf, Enabled, Proper, Safe, Lasting, Terms;
      TermsLast(sides);
      NextReturns(f.engine, Terms(sides), call.now, 0.0);
      SidesAreProper(f.engine, sides, call.now, 0.0);
    }
  }

  /** With ordinary orders only, and cancels that show their order's side, every call returns. */
  lemma {:induction false} OrdinaryCallsReturn(f: Front, calls: seq<Call>, sides: int -> Side)
    requires OrdinaryState(f.engine, sides) && AllOrdinary(calls, sides)
    ensures AllReturn(f, calls)
    decreases |calls|
  {
    hide OrdinaryState, Performs, Returns;
    if calls != [] {
      assert AllOrdinary([calls[0]], sides) && AllOrdinary(calls[1..], sides) by {
        assert calls[0] in calls && forall c <- calls[1..] :: c in calls;
      }
      OrdinaryReturns(f, calls[0], sides);
      forall g | Performs(f, calls[0], g) ensures AllReturn(g, calls[1..]) {
        CallOrdinary(f, calls[0], g, sides);
        OrdinaryCallsReturn(g, calls[1..], sides);
      }
    }
  }

  lemma InitialOrdinary(sides: int -> Side)
    ensures OrdinaryState(INITIAL, sides)
  {
    InitialInv();
  }
}
