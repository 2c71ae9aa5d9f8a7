/** Runs of the engine, and the order book its events publish. */
module EngineRuns {
  import opened Orders
  import opened Matching
  import opened Fills
  import opened Queues
  import opened EngineModel
  import opened EngineInvariant

  /**
   `Arrive` is the input callback. `Sweep` is `cancelExpiredOrders`: `ids` is the order in which the expiry
   queue yields, which among equal expiries the queue leaves open. `Dequeue` is the rest of `onTick`; `carried`
   is the remaining amount a dequeued cancel's object shows by then.
   */
  datatype Event = Arrive(input: Input) | Sweep(now: real, ids: seq<int>) | Dequeue(now: real, carried: real)

  function OrderOf(e: Engine, id: int): Order
    requires id in e.BookIds()
  {
    IdSetIff(e.bids, id);
    IdSetIff(e.asks, id);
    if HasId(e.bids, id) then e.bids[IndexOf(e.bids, id)] else e.asks[IndexOf(e.asks, id)]
  }

  /** Cancelling a resting order on the engine's own account. */
  function Expire(e: Engine, id: int): Engine
    requires id in e.BookIds()
  {
    var o := OrderOf(e, id);
    CancelOrder(e, id, o.side, o.price, o.remaining, true)
  }

  predicate InBook(e: Engine, o: Order) { o in e.bids || o in e.asks }

  /** A resting order that is expired, and no other expires earlier. */
  ghost predicate ExpiresFirst(e: Engine, now: real, id: int) {
    && id in e.BookIds()
    && OrderOf(e, id).Expired(now)
    && forall o | InBook(e, o) :: OrderOf(e, id).expiry <= o.expiry
  }

  /** Each id is the one with the least expiry, and expired; when no more follow, nothing expired is left. */
  ghost predicate SweepEnabled(e: Engine, now: real, ids: seq<int>)
    decreases |ids|
  {
    if ids == [] then forall o | InBook(e, o) :: !o.Expired(now)
    else
      && ExpiresFirst(e, now, ids[0])
      && SweepEnabled(Expire(e, ids[0]), now, ids[1..])
  }

  ghost function SweepAll(e: Engine, now: real, ids: seq<int>): Engine
    requires SweepEnabled(e, now, ids)
    decreases |ids|
  {
    if ids == [] then e else SweepAll(Expire(e, ids[0]), now, ids[1..])
  }

  /** Part of a sweep: the expired orders cancelled so far, in order. */
  ghost predicate SweepPath(e: Engine, now: real, ids: seq<int>, e': Engine)
    decreases |ids|
  {
    if ids == [] then e == e'
    else
      && ExpiresFirst(e, now, ids[0])
      && SweepPath(Expire(e, ids[0]), now, ids[1..], e')
  }

  lemma SweepPathStarts(e: Engine, now: real)
    ensures SweepPath(e, now, [], e)
  {
  }

  lemma {:induction false} SweepPathExtends(e: Engine, now: real, ids: seq<int>, e': Engine, id: int)
    requires SweepPath(e, now, ids, e') && ExpiresFirst(e', now, id)
    ensures SweepPath(e, now, ids + [id], Expire(e', id))
    decreases |ids|
  {
    hide OrderOf, Expire;
    if ids == [] {
      assert ([] + [id])[1..] == [];
    } else {
      SweepPathExtends(Expire(e, ids[0]), now, ids[1..], e', id);
      assert (ids + [id])[1..] == ids[1..] + [id];
    }
  }

  lemma {:induction false} SweepPathCompletes(e: Engine, now: real, ids: seq<int>, e': Engine)
    requires SweepPath(e, now, ids, e') && forall o | InBook(e', o) :: !o.Expired(now)
    ensures SweepEnabled(e, now, ids) && SweepAll(e, now, ids) == e'
    decreases |ids|
  {
    if ids != [] { SweepPathCompletes(Expire(e, ids[0]), now, ids[1..], e'); }
  }

  lemma InBookUnique(e: Engine, a: Order, b: Order)
    requires BookInv(e) && InBook(e, a) && InBook(e, b) && a.id == b.id
    ensures a == b
  {
    assert a in e.bids ==> a.id in IdSet(e.bids);
    assert a in e.asks ==> a.id in IdSet(e.asks);
    assert b in e.bids ==> b.id in IdSet(e.bids);
    assert b in e.asks ==> b.id in IdSet(e.asks);
  }

  /** A step the engine can take and returns from. */
  ghost predicate Enabled(e: Engine, ev: Event) {
    match ev
    case Arrive(input) => input.CreateInput? ==> input.order.WellFormed()
    case Sweep(now, ids) => SweepEnabled(e, now, ids)
    case Dequeue(now, _) =>
      && e.pending != []
      && match e.pending[0] {
           case CreateInput(o) =>
             && o.WellFormed()
             && AllResting(e.Book(o.side.Opposite()), o.side.Opposite())
             && (!o.Expired(now) ==> LoopInv(LoopStart(Pop(e), o)) && Settles(LoopStart(Pop(e), o)))
           case CancelInput(_, _, _) => true
         }
  }

  /** A dequeued cancel does not show the other side of a resting order. */
  ghost predicate Proper(e: Engine, ev: Event) {
    ev.Dequeue? && e.pending != [] && e.pending[0].CancelInput? ==>
      e.pending[0].cancelId !in IdSet(e.Book(e.pending[0].side.Opposite()))
  }

  ghost function Step(e: Engine, ev: Event): Engine
    requires Enabled(e, ev)
  {
    match ev
    case Arrive(input) => Receive(e, input)
    case Sweep(now, ids) => SweepAll(e, now, ids)
    case Dequeue(now, carried) =>
      match e.pending[0] {
        case CreateInput(o) => Submit(Pop(e), o, now)
        case CancelInput(id, side, price) => CancelOrder(Pop(e), id, side, price, carried, true)
      }
  }

  lemma OrderOfFacts(e: Engine, id: int)
    requires BookInv(e) && id in e.BookIds()
    ensures var o := OrderOf(e, id);
            && o.id == id && o in e.Book(o.side) && id in IdSet(e.Book(o.side))
              && id !in IdSet(e.Book(o.side.Opposite()))
            && o.Resting()
  {
    IdSetIff(e.bids, id);
    IdSetIff(e.asks, id);
    var o := OrderOf(e, id);
    assert o in e.bids || o in e.asks;
  }

  lemma ExpireKeeps(e: Engine, id: int)
    requires Inv(e, {}) && id in e.BookIds()
    ensures Inv(Expire(e, id), {}) && Expire(e, id).BookIds() == e.BookIds() - {id}
  {
    OrderOfFacts(e, id);
    var o := OrderOf(e, id);
    hide OrderOf;
    CancelKeeps(e, {}, id, o.side, o.price, o.remaining, true);
    assert {} - {id} == {};
  }

  lemma {:induction false} SweepKeeps(e: Engine, now: real, ids: seq<int>)
    requires Inv(e, {}) && SweepEnabled(e, now, ids)
    ensures Inv(SweepAll(e, now, ids), {})
    ensures forall o | InBook(SweepAll(e, now, ids), o) :: !o.Expired(now)
    decreases |ids|
  {
    if ids != [] {
      ExpireKeeps(e, ids[0]);
      SweepKeeps(Expire(e, ids[0]), now, ids[1..]);
    }
  }

  /** Every step the engine returns from keeps the invariant, but for a cancel that shows the wrong side. */
  lemma StepKeeps(e: Engine, ev: Event)
    requires Inv(e, {}) && Enabled(e, ev)
    ensures Inv(Step(e, ev), {}) <==> Proper(e, ev)
  {
    match ev
    case Arrive(input) => ReceiveKeeps(e, input);
    case Sweep(now, ids) => SweepKeeps(e, now, ids);
    case Dequeue(now, carried) =>
      PopKeeps(e);
      match e.pending[0] {
        case CreateInput(o) => SubmitKeeps(Pop(e), o, now);
        case CancelInput(id, side, price) =>
          CancelKeepsIff(Pop(e), {}, id, side, price, carried, true);
          assert {} - {id} == {};
      }
  }

  // ---------- One tick ----------

  /** `onTick`: a sweep, then the next input if there is one. */
  ghost predicate Ticked(e: Engine, swept: real, ids: seq<int>, now: real, carried: real, e': Engine) {
    && SweepEnabled(e, swept, ids)
    && var mid := SweepAll(e, swept, ids);
       if mid.pending == [] then e' == mid
       else Enabled(mid, Dequeue(now, carried)) && e' == Step(mid, Dequeue(now, carried))
  }

  /** Whatever the order of the sweep, the tick returns. */
  ghost predicate TickReturns(e: Engine, swept: real, now: real) {
    forall ids | SweepEnabled(e, swept, ids) ::
      var mid := SweepAll(e, swept, ids); mid.pending != [] ==> Enabled(mid, Dequeue(now, 0.0))
  }

  // ---------- Start-up ----------

  /** `preProcess`: every order is enqueued unseen. */
  function EnqueueAll(e: Engine, orders: seq<Order>): Engine
    decreases |orders|
  {
    if orders == [] then e else EnqueueAll(Enqueue(e, orders[0]), orders[1..])
  }

  function ReceiveAll(e: Engine, orders: seq<Order>): Engine
    decreases |orders|
  {
    if orders == [] then e else ReceiveAll(Receive(e, CreateInput(orders[0])), orders[1..])
  }

  predicate FreshOrders(received: map<int, Action>, orders: seq<Order>) {
    DistinctIds(orders) && forall o <- orders :: o.id !in received
  }

  lemma {:induction false} EnqueuedAll(e: Engine, orders: seq<Order>)
    ensures EnqueueAll(e, orders).nextPriority == e.nextPriority + |orders|
    decreases |orders|
  {
    if orders != [] { EnqueuedAll(Enqueue(e, orders[0]), orders[1..]); }
  }

  lemma {:induction false} ReceivedAtMost(e: Engine, orders: seq<Order>)
    ensures ReceiveAll(e, orders).nextPriority <= e.nextPriority + |orders|
    ensures !FreshOrders(e.received, orders) ==> ReceiveAll(e, orders).nextPriority < e.nextPriority + |orders|
    decreases |orders|
  {
    if orders != [] {
      var e', rest := Receive(e, CreateInput(orders[0])), orders[1..];
      ReceivedAtMost(e', rest);
      if orders[0].id !in e.received && FreshOrders(e'.received, rest) {
        FreshExtends(e.received, orders);
      }
    }
  }

  lemma FreshExtends(received: map<int, Action>, orders: seq<Order>)
    requires orders != []
    ensures FreshOrders(received, orders)
            <==> orders[0].id !in received && FreshOrders(received[orders[0].id := Create], orders[1..])
  {
    if orders[0].id !in received && FreshOrders(received[orders[0].id := Create], orders[1..]) {
      FreshWithFirst(received, orders);
    }
    if FreshOrders(received, orders) {
      FreshWithoutFirst(received, orders);
    }
  }

  lemma FreshWithoutFirst(received: map<int, Action>, orders: seq<Order>)
    requires orders != [] && FreshOrders(received, orders)
    ensures orders[0].id !in received && FreshOrders(received[orders[0].id := Create], orders[1..])
  {
    var rest := orders[1..];
    assert orders[0] in orders;
    forall o | o in rest ensures o.id !in received[orders[0].id := Create] {
      var i :| 0 <= i < |rest| && rest[i] == o;
      assert orders[i + 1] == o && o in orders;
    }
    forall i, j | 0 <= i < j < |rest| ensures rest[i].id != rest[j].id {
      assert rest[i] == orders[i + 1] && rest[j] == orders[j + 1];
    }
  }

  lemma FreshWithFirst(received: map<int, Action>, orders: seq<Order>)
    requires orders != [] && orders[0].id !in received && FreshOrders(received[orders[0].id := Create], orders[1..])
    ensures FreshOrders(received, orders)
  {
    var rest := orders[1..];
    forall o | o in orders ensures o.id !in received {
      if o != orders[0] { assert o in rest; }
    }
    forall i, j | 0 <= i < j < |orders| ensures orders[i].id != orders[j].id {
      assert orders[j] == rest[j - 1] && rest[j - 1] in rest;
      if i > 0 { assert orders[i] == rest[i - 1]; }
    }
  }

  lemma {:induction false} FreshAreReceived(e: Engine, orders: seq<Order>)
    requires FreshOrders(e.received, orders)
    ensures EnqueueAll(e, orders) == ReceiveAll(e, orders)
    decreases |orders|
  {
    if orders != [] {
      FreshExtends(e.received, orders);
      assert orders[0] in orders;
      FreshAreReceived(Enqueue(e, orders[0]), orders[1..]);
    }
  }

  /** Skipping the duplicate check at start-up makes no difference exactly when no id repeats or was seen before. */
  lemma PreProcessReceivesIff(e: Engine, orders: seq<Order>)
    ensures EnqueueAll(e, orders) == ReceiveAll(e, orders) <==> FreshOrders(e.received, orders)
  {
    if FreshOrders(e.received, orders) {
      FreshAreReceived(e, orders);
    } else {
      EnqueuedAll(e, orders);
      ReceivedAtMost(e, orders);
    }
  }

  /** No two share an id, none is live, and none is named by an input still pending. */
  ghost predicate Free(e: Engine, orders: seq<Order>) {
    DistinctIds(orders) && forall o <- orders :: o.id !in e.priority && Unnamed(e, o.id)
  }

  lemma FreeExtends(e: Engine, orders: seq<Order>)
    requires orders != [] && Free(e, orders)
    ensures Free(Enqueue(e, orders[0]), orders[1..])
  {
    var rest := orders[1..];
    PendingCreatesAppend(e.pending, CreateInput(orders[0]));
    assert forall i :: 0 <= i < |rest| ==> rest[i] == orders[i + 1] && rest[i] in orders;
    forall o | o in rest ensures o.id != orders[0].id {
      var i :| 0 <= i < |rest| && rest[i] == o;
      assert orders[i + 1] == o;
    }
  }

  lemma {:induction false} FreeKeeps(e: Engine, orders: seq<Order>)
    requires Inv(e, {}) && Free(e, orders) && forall o <- orders :: o.WellFormed()
    ensures Inv(EnqueueAll(e, orders), {})
    decreases |orders|
  {
    if orders != [] {
      FreeExtends(e, orders);
      assert orders[0] in orders;
      EnqueueKeeps(e, orders[0]);
      hide Inv, Free;
      FreeKeeps(Enqueue(e, orders[0]), orders[1..]);
    }
  }

  function Creates(orders: seq<Order>): seq<Input> {
    seq(|orders|, i requires 0 <= i < |orders| => CreateInput(orders[i]))
  }

  lemma {:induction false} EnqueuedBehind(e: Engine, orders: seq<Order>)
    ensures var e' := EnqueueAll(e, orders);
            e'.pending == e.pending + Creates(orders) && e'.bids == e.bids && e'.asks == e.asks
    decreases |orders|
  {
    if orders != [] {
      EnqueuedBehind(Enqueue(e, orders[0]), orders[1..]);
      assert Creates(orders) == [CreateInput(orders[0])] + Creates(orders[1..]);
    }
  }

  lemma KeptIsFree(e: Engine, e': Engine, orders: seq<Order>, i: nat)
    requires PriorityInv(e, {}) && PriorityInv(e', {}) && PendingInv(e', {}) && i < |orders|
    requires e'.pending == e.pending + Creates(orders) && e'.BookIds() == e.BookIds()
    ensures orders[i].id !in e.priority && Unnamed(e, orders[i].id)
    ensures forall j :: i < j < |orders| ==> orders[i].id != orders[j].id
  {
    hide Engine.BookIds;
    var n, o := |e.pending|, orders[i];
    assert e'.pending[n + i] == CreateInput(o) && o.id in PendingCreates(e'.pending);
    forall k | 0 <= k < n ensures e.pending[k].Id() != o.id { assert e'.pending[k] == e.pending[k]; }
    forall j | i < j < |orders| ensures o.id != orders[j].id {
      assert e'.pending[n + j] == CreateInput(orders[j]);
    }
  }

  lemma KeptAreFree(e: Engine, orders: seq<Order>)
    requires Inv(e, {}) && Inv(EnqueueAll(e, orders), {})
    ensures Free(e, orders)
  {
    hide BookInv, PriorityInv, PendingInv, EnqueueAll, Unnamed;
    EnqueuedBehind(e, orders);
    forall i | 0 <= i < |orders|
      ensures orders[i].id !in e.priority && Unnamed(e, orders[i].id)
      ensures forall j :: i < j < |orders| ==> orders[i].id != orders[j].id
    {
      KeptIsFree(e, EnqueueAll(e, orders), orders, i);
    }
  }

  /** Loading keeps the invariant exactly for orders without a repeated, live or still pending id. */
  lemma PreProcessKeepsIff(e: Engine, orders: seq<Order>)
    requires Inv(e, {}) && forall o <- orders :: o.WellFormed()
    ensures Inv(EnqueueAll(e, orders), {}) <==> Free(e, orders)
  {
    if Free(e, orders) {
      FreeKeeps(e, orders);
    } else if Inv(EnqueueAll(e, orders), {}) {
      KeptAreFree(e, orders);
    }
  }

  // ---------- Whole runs ----------

  ghost predicate Legal(e: Engine, run: seq<Event>)
    decreases |run|
  {
    run != [] ==> Enabled(e, run[0]) && Proper(e, run[0]) && Legal(Step(e, run[0]), run[1..])
  }

  ghost function Run(e: Engine, run: seq<Event>): Engine
    requires Legal(e, run)
    decreases |run|
  {
    if run == [] then e else Run(Step(e, run[0]), run[1..])
  }

  lemma {:induction false} RunKeeps(e: Engine, run: seq<Event>)
    requires Inv(e, {}) && Legal(e, run)
    ensures Inv(Run(e, run), {})
    decreases |run|
  {
    if run != [] {
      StepKeeps(e, run[0]);
      RunKeeps(Step(e, run[0]), run[1..]);
    }
  }

  ghost predicate Takes(e: Engine, ev: Event, e': Engine) { Enabled(e, ev) && Proper(e, ev) && Step(e, ev) == e' }

  /** A run given by its states. */
  lemma {:induction false} Follow(states: seq<Engine>, run: seq<Event>)
    requires |states| == |run| + 1 && forall i :: 0 <= i < |run| ==> Takes(states[i], run[i], states[i + 1])
    ensures Legal(states[0], run) && Run(states[0], run) == states[|run|]
    decreases |run|
  {
    hide Enabled, Proper, Step;
    if run != [] {
      assert Takes(states[0], run[0], states[1]);
      forall i | 0 <= i < |run| - 1 ensures Takes(states[1..][i], run[1..][i], states[1..][i + 1]) {
        assert states[1..][i] == states[i + 1] && run[1..][i] == run[i + 1];
      }
      Follow(states[1..], run[1..]);
    }
  }

  /** In every reachable state no bid meets an ask and only open limit orders rest. */
  lemma BookNeverCrossed(run: seq<Event>)
    requires Legal(INITIAL, run)
    ensures var e := Run(INITIAL, run);
            && (forall b <- e.bids, a <- e.asks :: b.price < a.price)
            && (forall o | InBook(e, o) :: o.kind.Limit? && o.remaining > 0.0)
  {
    InitialInv();
    RunKeeps(INITIAL, run);
  }

  /**
   In every reachable state the ids in the two books are those in the expiry queue, and the priority
   map holds exactly those and the ids with a pending create.
   */
  lemma BookkeepingAgrees(run: seq<Event>)
    requires Legal(INITIAL, run)
    ensures var e := Run(INITIAL, run);
            && IdSet(e.bids) !! IdSet(e.asks)
            && e.expiry == IdSet(e.bids) + IdSet(e.asks)
            && e.priority.Keys == IdSet(e.bids) + IdSet(e.asks) + PendingCreates(e.pending)
            && (e.pending == [] ==> |e.bids| + |e.asks| == |e.priority| == |e.expiry|)
  {
    InitialInv();
    RunKeeps(INITIAL, run);
    var e := Run(INITIAL, run);
    IdSetSize(e.bids);
    IdSetSize(e.asks);
    assert |e.priority.Keys| == |e.priority|;
    if e.pending == [] {
      assert PendingCreates(e.pending) == {};
      assert |IdSet(e.bids) + IdSet(e.asks)| == |IdSet(e.bids)| + |IdSet(e.asks)|;
    }
  }

  lemma {:induction false} IdSetSize(q: seq<Order>)
    requires DistinctIds(q)
    ensures |IdSet(q)| == |q|
  {
    if q != [] {
      HasIdInTail(q, q[0].id);
      IdSetIff(q[1..], q[0].id);
      IdSetSize(q[1..]);
      assert q == [q[0]] + q[1..];
      assert IdSet(q) == IdSet(q[1..]) + {q[0].id};
    }
  }
}
