/** The matching engine as the object it is: every method is proved to take the step of the model. */
module MatchingEngines {
  import opened Orders
  import opened Matching
  import opened Fills
  import opened Queues
  import opened EngineModel
  import opened EngineInvariant
  import opened EngineRuns
  import opened EngineCalls
  import opened EngineLoop
  import opened Entities

  datatype OrderInput = OrderInput(action: Action, order: OrderEntity)

  datatype OrderTrade = OrderTrade(
    buyOrder: OrderEntity, sellOrder: OrderEntity, price: real, quantity: real, buyerIsTaker: bool)
  {
    function View(): Trade { Trade(buyOrder.id, sellOrder.id, price, quantity, buyerIsTaker) }
  }

  datatype OrderOutput = Matched(trades: seq<OrderTrade>) | Withdrawn(order: OrderEntity) {
    function View(): Output { if Matched? then MatchOutput(TradeViews(trades)) else CancelOutput(order.id) }
  }

  function TradeViews(trades: seq<OrderTrade>): seq<Trade> {
    seq(|trades|, i requires 0 <= i < |trades| => trades[i].View())
  }

  function OutputViews(outputs: seq<OrderOutput>): seq<Output> {
    seq(|outputs|, i requires 0 <= i < |outputs| => outputs[i].View())
  }

  function InputView(input: OrderInput): Input
    reads input.order
  {
    if input.action.Create? then CreateInput(input.order.State())
    else CancelInput(input.order.id, input.order.side, input.order.price)
  }

  function OrdersOf(inputs: seq<OrderInput>): seq<OrderEntity> {
    seq(|inputs|, i requires 0 <= i < |inputs| => inputs[i].order)
  }

  /** The orders to be created; the object of a cancel is only read. */
  function CreateObjects(inputs: seq<OrderInput>): set<OrderEntity> { set x <- inputs | x.action.Create? :: x.order }

  function InputViews(inputs: seq<OrderInput>): (r: seq<Input>)
    reads OrdersOf(inputs)
    ensures |r| == |inputs| && forall i :: 0 <= i < |inputs| ==> r[i] == InputView(inputs[i])
  {
    seq(|inputs|, i requires 0 <= i < |inputs| reads OrdersOf(inputs) =>
      assert OrdersOf(inputs)[i] == inputs[i].order; InputView(inputs[i]))
  }

  /** A queue after a polled maker was re-added to it, if it can still match. */
  function Returned(r: Ranking, p: Priorities, q: seq<Order>, o: Order): seq<Order> {
    if o.remaining > 0.0 then Insert(r, p, q, o) else q
  }

  /** The id of a maker that was used up. */
  function Gone(o: Order): set<int> { if o.remaining > 0.0 then {} else {o.id} }

  /** The engine with the front maker polled and its trade's event put out. */
  function Traded(e: Engine, side: Side, t: Trade): Engine
    requires e.Book(side) != []
  {
    e.WithBook(side, e.Book(side)[1..]).(deltas := e.deltas + [Delta(side, t.price, -t.quantity)])
  }

  /** The engine with a polled maker put back or gone for good. */
  function PutBackView(e: Engine, side: Side, maker: Order): Engine {
    e.WithBook(side, Returned(RankingOf(side), e.priority, e.Book(side), maker)).(
    priority := e.priority - Gone(maker), expiry := e.expiry - Gone(maker))
  }

  lemma PutBackGone(e: Engine, side: Side, maker: Order)
    requires !maker.CanMatch(0.0) && maker.kind.Limit?
    ensures PutBackView(e, side, maker)
            == e.(priority := e.priority - {maker.id}, expiry := e.expiry - {maker.id})
  {
  }

  class MatchingEngine {
    const buyOrders: FastPriorityQueue
    const sellOrders: FastPriorityQueue
    const orderExpiryQueue: FastPriorityQueue
    var ordersPriority: Priorities
    var currentOrderPriority: int
    var receivedOrders: map<int, Action>
    // The three asynchronous queues, as the FIFO sequences they are (module AsyncQueues).
    var unprocessedOrders: seq<OrderInput>
    var orderOutputs: seq<OrderOutput>
    var orderbookOutputs: seq<Delta>

    function GetPendingOrdersQueue(side: Side): FastPriorityQueue {
      if side.Buy? then buyOrders else sellOrders
    }

    function View(): Engine
      reads this, buyOrders, sellOrders, orderExpiryQueue, buyOrders.items, sellOrders.items
      reads OrdersOf(unprocessedOrders)
    {
      Engine(States(buyOrders.items), States(sellOrders.items), ObjectIds(orderExpiryQueue.items),
             ordersPriority, currentOrderPriority, receivedOrders,
             InputViews(unprocessedOrders), OutputViews(orderOutputs), orderbookOutputs)
    }

    /** The queues are three objects, the expiry queue in order of expiry. */
    ghost predicate Setup()
      reads orderExpiryQueue
    {
      && buyOrders != sellOrders && buyOrders != orderExpiryQueue && sellOrders != orderExpiryQueue
      && buyOrders.ranking == Bids && sellOrders.ranking == Asks && orderExpiryQueue.ranking == Expiries
      && DistinctEntities(orderExpiryQueue.items)
      && EarliestFirst(orderExpiryQueue.items)
    }

    /** And it holds the very orders that rest. */
    ghost predicate Shape()
      reads buyOrders, sellOrders, orderExpiryQueue
    {
      && Setup()
      && Objects(orderExpiryQueue.items) <= Objects(buyOrders.items) + Objects(sellOrders.items)
    }

    ghost predicate Valid(active: set<int>)
      reads this, buyOrders, sellOrders, orderExpiryQueue, buyOrders.items, sellOrders.items
      reads OrdersOf(unprocessedOrders)
    {
      Shape() && Inv(View(), active)
    }

    /** The order objects the engine can still write to. */
    ghost function Held(): set<OrderEntity>
      reads this`unprocessedOrders, buyOrders, sellOrders
    {
      Objects(buyOrders.items) + Objects(sellOrders.items) + CreateObjects(unprocessedOrders)
    }

    constructor ()
      ensures Valid({}) && View() == INITIAL && Held() == {}
      ensures fresh(buyOrders) && fresh(sellOrders) && fresh(orderExpiryQueue)
    {
      buyOrders := new FastPriorityQueue(Bids);
      sellOrders := new FastPriorityQueue(Asks);
      orderExpiryQueue := new FastPriorityQueue(Expiries);
      ordersPriority, currentOrderPriority, receivedOrders := map[], 0, map[];
      unprocessedOrders, orderOutputs, orderbookOutputs := [], [], [];
      new;
      assert View() == INITIAL;
      InitialInv();
    }

    // ---------- Input ----------

    method ProcessCreateAction(input: OrderInput)
      requires input.action.Create?
      modifies this`ordersPriority, this`currentOrderPriority, this`receivedOrders, this`unprocessedOrders
      ensures View() == Enqueue(old(View()), input.order.State())
      ensures unprocessedOrders == old(unprocessedOrders) + [input]
    {
      ordersPriority := ordersPriority[input.order.id := currentOrderPriority];
      currentOrderPriority := currentOrderPriority + 1;
      receivedOrders := receivedOrders[input.order.id := input.action];
      unprocessedOrders := unprocessedOrders + [input];
      assert InputViews(unprocessedOrders) == old(InputViews(unprocessedOrders)) + [InputView(input)];
    }

    method OnNewOrderAction(input: OrderInput)
      requires Valid({}) && (input.action.Create? ==> input.order.State().WellFormed())
      modifies this, buyOrders`items, sellOrders`items, orderExpiryQueue`items
      ensures View() == Receive(old(View()), InputView(input)) && Valid({})
      ensures Held() <= old(Held()) + if input.action.Create? then {input.order} else {}
      ensures unprocessedOrders
              == old(unprocessedOrders) + if Accepts(old(View()), old(InputView(input))) then [input] else []
    {
      hide BookInv, PriorityInv, PendingInv, Setup, States, ObjectIds, Objects, CreateObjects;
      ReceiveKeeps(View(), InputView(input));
      CreateObjectsWith(unprocessedOrders, input);
      if input.order.id !in receivedOrders {
        if input.action.Create? {
          ProcessCreateAction(input);
        } else {
          CancelOrder(input.order, false);
        }
        return;
      }
      if receivedOrders[input.order.id].Cancel? {
        return;
      }
      if input.action.Cancel? {
        receivedOrders := receivedOrders[input.order.id := input.action];
        unprocessedOrders := unprocessedOrders + [input];
        assert InputViews(unprocessedOrders) == old(InputViews(unprocessedOrders)) + [InputView(input)];
      }
    }

    // ---------- Cancelling ----------

    /** The order leaves its side's queue, the priority map and the expiry queue. */
    method Withdraw(order: OrderEntity)
      requires Shape()
      modifies this`ordersPriority, buyOrders`items, sellOrders`items, orderExpiryQueue`items
      ensures Objects(buyOrders.items) <= old(Objects(buyOrders.items))
        && Objects(sellOrders.items) <= old(Objects(sellOrders.items))
      ensures Shape()
      ensures View() == old(View()).WithBook(order.side, Remove(old(View()).Book(order.side), order.id)).(
                          priority := old(ordersPriority) - {order.id},
                          expiry := old(View()).expiry - {order.id})
    {
      hide DistinctEntities, EarliestFirst, States, ObjectIds, Objects, InputViews, OutputViews, Remove, IndexOf;
      var orderQueue := GetPendingOrdersQueue(order.side);
      orderQueue.RemoveOne(order.id);
      ordersPriority := ordersPriority - {order.id};
      orderExpiryQueue.RemoveOne(order.id);
      assert InputViews(unprocessedOrders) == old(InputViews(unprocessedOrders));
    }

    method CancelOrder(order: OrderEntity, addedToOrderbook: bool)
      requires Shape()
      modifies this`ordersPriority, this`orderOutputs, this`orderbookOutputs
      modifies buyOrders`items, sellOrders`items, orderExpiryQueue`items
      ensures Objects(buyOrders.items) <= old(Objects(buyOrders.items))
        && Objects(sellOrders.items) <= old(Objects(sellOrders.items))
      ensures Shape()
      ensures View() == EngineModel.CancelOrder(
                          old(View()), order.id, order.side, order.price,
                          if addedToOrderbook then order.remainingAmount else 0.0, addedToOrderbook)
      ensures orderOutputs == old(orderOutputs) + [Withdrawn(order)]
    {
      hide Shape, States, ObjectIds, InputViews, Remove, IndexOf;
      Withdraw(order);
      orderOutputs := orderOutputs + [Withdrawn(order)];
      if addedToOrderbook {
        orderbookOutputs := orderbookOutputs + [Delta(order.side, order.price, -order.remainingAmount)];
      }
      assert OutputViews(orderOutputs) == old(OutputViews(orderOutputs)) + [CancelOutput(order.id)];
      assert InputViews(unprocessedOrders) == old(InputViews(unprocessedOrders));
    }

    /** The front of the expiry queue is a resting order, with the least expiry of all. */
    lemma FrontExpiresFirst()
      requires Valid({}) && orderExpiryQueue.items != []
      ensures var o := orderExpiryQueue.items[0];
              && o.id in View().BookIds()
              && OrderOf(View(), o.id) == o.State()
              && forall x | InBook(View(), x) :: o.expiry <= x.expiry
    {
      var o, q, e := orderExpiryQueue.items[0], orderExpiryQueue.items, View();
      assert o in Objects(q);
      RestingEntity(o);
      OrderOfFacts(e, o.id);
      InBookUnique(e, OrderOf(e, o.id), o.State());
      forall x | InBook(e, x) ensures o.expiry <= x.expiry {
        assert x.id in IdSet(e.bids) || x.id in IdSet(e.asks);
        assert x.id in ObjectIds(q);
        var y :| y in q && y.id == x.id;
        assert y in Objects(q);
        RestingEntity(y);
        InBookUnique(e, x, y.State());
        var i :| 0 <= i < |q| && q[i] == y;
      }
    }

    lemma RestingEntity(o: OrderEntity)
      requires o in Objects(buyOrders.items) || o in Objects(sellOrders.items)
      ensures InBook(View(), o.State()) && o.id in View().BookIds()
    {
      if o in Objects(buyOrders.items) {
        var i :| 0 <= i < |buyOrders.items| && buyOrders.items[i] == o;
        assert States(buyOrders.items)[i] == o.State();
      } else {
        var i :| 0 <= i < |sellOrders.items| && sellOrders.items[i] == o;
        assert States(sellOrders.items)[i] == o.State();
      }
    }

    /** Cancelling the front of the expiry queue is the next step of a sweep. */
    lemma FrontIsSwept(now: real)
      requires Valid({}) && orderExpiryQueue.items != [] && orderExpiryQueue.items[0].expiry < now
      ensures var o := orderExpiryQueue.items[0];
              && ExpiresFirst(View(), now, o.id)
              && Expire(View(), o.id).expiry < View().expiry
              && Expire(View(), o.id) == EngineModel.CancelOrder(View(), o.id, o.side, o.price, o.remainingAmount, true)
              && Inv(Expire(View(), o.id), {})
    {
      FrontExpiresFirst();
      ExpireKeeps(View(), orderExpiryQueue.items[0].id);
    }

    lemma NoneExpired(now: real)
      requires Valid({}) && (orderExpiryQueue.items == [] || orderExpiryQueue.items[0].expiry >= now)
      ensures forall o | InBook(View(), o) :: !o.Expired(now)
    {
      if orderExpiryQueue.items == [] {
        assert ObjectIds(orderExpiryQueue.items) == {};
        NothingRests();
      } else {
        FrontExpiresFirst();
      }
    }

    method CancelExpiredOrders(now: real) returns (ghost ids: seq<int>)
      requires Valid({})
      modifies this`ordersPriority, this`orderOutputs, this`orderbookOutputs
      modifies buyOrders`items, sellOrders`items, orderExpiryQueue`items
      ensures Objects(buyOrders.items) <= old(Objects(buyOrders.items))
        && Objects(sellOrders.items) <= old(Objects(sellOrders.items))
      ensures SweepEnabled(old(View()), now, ids)
      ensures View() == SweepAll(old(View()), now, ids) && Valid({})
    {
      hide BookInv, PriorityInv, PendingInv, SweepPath, SweepEnabled, ExpiresFirst, Expire, EngineModel.CancelOrder;
      hide DistinctEntities, EarliestFirst, View, Objects, InBook;
      ids := [];
      ghost var before := View();
      SweepPathStarts(before, now);
      while !orderExpiryQueue.IsEmpty()
        invariant Objects(buyOrders.items) <= old(Objects(buyOrders.items))
          && Objects(sellOrders.items) <= old(Objects(sellOrders.items))
        invariant Valid({}) && SweepPath(before, now, ids, View())
        decreases View().expiry
      {
        var order := orderExpiryQueue.Peek();
        if order.expiry < now {
          FrontIsSwept(now);
          SweepPathExtends(before, now, ids, View(), order.id);
          CancelOrder(order, true);
          ids := ids + [order.id];
        } else {
          break;
        }
      }
      NoneExpired(now);
      SweepPathCompletes(before, now, ids, View());
    }

    lemma NothingRests()
      requires Valid({}) && View().expiry == {}
      ensures forall o :: !InBook(View(), o)
    {
      forall o ensures !InBook(View(), o) {
        assert o in View().bids ==> o.id in IdSet(View().bids);
        assert o in View().asks ==> o.id in IdSet(View().asks);
      }
    }

    // ---------- Matching ----------

    /** An order object the engine's queues do not hold. */
    ghost predicate Unqueued(o: OrderEntity)
      reads buyOrders, sellOrders, this`unprocessedOrders
    {
      && o !in Objects(buyOrders.items) && o !in Objects(sellOrders.items)
      && forall x <- unprocessedOrders :: x.action.Create? ==> x.order != o
    }

    /** Nothing the loop writes is shared with what it must leave alone. */
    ghost predicate Separate(order: OrderEntity)
      reads buyOrders, sellOrders, this`unprocessedOrders
    {
      && Unqueued(order)
      && Objects(buyOrders.items) !! Objects(sellOrders.items)
      && forall x <- unprocessedOrders :: x.action.Create? ==>
        x.order !in Objects(GetPendingOrdersQueue(order.side.Opposite()).items)
    }

    method MatchOrders(taker: OrderEntity, maker: OrderEntity, maxTotal: real) returns (trade: OrderTrade)
      requires taker != maker && maker.price > 0.0 && taker.feeRate < 1.0 && maker.feeRate < 1.0
      requires Unqueued(taker) && Unqueued(maker)
      modifies taker`average, taker`filledAmount, taker`remainingAmount
      modifies maker`average, maker`filledAmount, maker`remainingAmount
      ensures var q := MatchQuantity(old(taker.State()), old(maker.State()), maxTotal);
              && trade.View() == MakeTrade(old(taker.State()), old(maker.State()), q)
              && trade.price == maker.price && trade.quantity == q
              && taker.State() == old(taker.State()).Fill(maker.price, q)
              && maker.State() == old(maker.State()).Fill(maker.price, q)
      ensures View() == old(View())
    {
      var buyOrder, sellOrder, buyerIsTaker := maker, taker, false;
      if taker.side.Buy? {
        buyOrder, sellOrder, buyerIsTaker := taker, maker, true;
      }
      var price := maker.price;
      var quantity := MatchQuantity(taker.State(), maker.State(), maxTotal);
      trade := OrderTrade(buyOrder, sellOrder, price, quantity, buyerIsTaker);
      buyOrder.UpdateAverageAndFilledAmount(price, quantity);
      sellOrder.UpdateAverageAndFilledAmount(price, quantity);
      hide Order.Fill, MakeTrade, MatchQuantity, OutputViews, ObjectIds;
      assert States(buyOrders.items) == old(States(buyOrders.items));
      assert States(sellOrders.items) == old(States(sellOrders.items));
      assert InputViews(unprocessedOrders) == old(InputViews(unprocessedOrders));
    }

    method AddOrderbookEvent(side: Side, price: real, quantity: real)
      modifies this`orderbookOutputs
      ensures View() == old(View()).(deltas := old(View()).deltas + [Delta(side, price, quantity)])
    {
      orderbookOutputs := orderbookOutputs + [Delta(side, price, quantity)];
    }

    /** The front maker leaves its queue. */
    method PollMaker(side: Side) returns (candidate: OrderEntity)
      requires Setup() && GetPendingOrdersQueue(side).items != [] && DistinctIds(View().Book(side))
      modifies GetPendingOrdersQueue(side)`items
      ensures Setup()
      ensures var queue := GetPendingOrdersQueue(side);
              && old(Objects(queue.items)) == {candidate} + Objects(queue.items)
              && candidate == old(queue.items)[0] && candidate !in Objects(queue.items)
      ensures candidate.State() == old(View()).Book(side)[0]
      ensures View() == old(View()).WithBook(side, old(View()).Book(side)[1..])
    {
      hide DistinctIds, DistinctEntities, EarliestFirst, ObjectIds, InputViews, OutputViews;
      var queue := GetPendingOrdersQueue(side);
      FrontOfMakers(queue.items);
      candidate := queue.Poll();
    }

    /** The loop's state, read off the objects. */
    function Looping(order: OrderEntity, maxTotal: real): LoopState
      reads order, this, buyOrders, sellOrders, orderExpiryQueue, buyOrders.items, sellOrders.items
      reads OrdersOf(unprocessedOrders)
    {
      LoopState(order.State(), maxTotal, View().Book(order.side.Opposite()))
    }

    /** A maker that can still match goes back into its queue. */
    method Requeue(ghost taker: OrderEntity, candidate: OrderEntity)
      requires Setup() && Separate(taker) && Unqueued(candidate) && candidate.State().CanMatch(0.0)
      requires candidate != taker && candidate.side == taker.side.Opposite() && candidate.kind.Limit?
      requires Objects(orderExpiryQueue.items) <= Objects(buyOrders.items) + Objects(sellOrders.items) + {candidate}
      modifies GetPendingOrdersQueue(candidate.side)`items
      ensures View() == PutBackView(old(View()), candidate.side, candidate.State())
      ensures Objects(GetPendingOrdersQueue(candidate.side).items)
              <= old(Objects(GetPendingOrdersQueue(candidate.side).items)) + {candidate}
      ensures Shape() && Separate(taker)
    {
      hide Objects, ObjectIds, States, Insert, InputViews, OutputViews, DistinctEntities, EarliestFirst;
      GetPendingOrdersQueue(candidate.side).Add(ordersPriority, candidate);
      assert InputViews(unprocessedOrders) == old(InputViews(unprocessedOrders));
    }

    /** One used up leaves the engine. */
    method Retire(ghost taker: OrderEntity, candidate: OrderEntity)
      requires Setup() && Separate(taker) && Unqueued(candidate) && !candidate.State().CanMatch(0.0)
      requires candidate != taker && candidate.side == taker.side.Opposite() && candidate.kind.Limit?
      requires Objects(orderExpiryQueue.items) <= Objects(buyOrders.items) + Objects(sellOrders.items) + {candidate}
      modifies this`ordersPriority, orderExpiryQueue`items
      ensures View() == PutBackView(old(View()), candidate.side, candidate.State())
      ensures Shape() && Separate(taker)
    {
      hide PutBackView, Objects, ObjectIds, States, Insert, InputViews, OutputViews, DistinctEntities, EarliestFirst;
      PutBackGone(View(), candidate.side, candidate.State());
      hide Engine.WithBook, Returned, Gone, RankingOf, OrderEntity.State, Order.CanMatch;
      ordersPriority := ordersPriority - {candidate.id};
      orderExpiryQueue.RemoveOne(candidate.id);
      assert InputViews(unprocessedOrders) == old(InputViews(unprocessedOrders));
    }

    /** After its trade a maker goes back or leaves. */
    method PutBack(ghost taker: OrderEntity, candidate: OrderEntity)
      requires Setup() && Separate(taker) && Unqueued(candidate)
      requires candidate != taker && candidate.side == taker.side.Opposite() && candidate.kind.Limit?
      requires Objects(orderExpiryQueue.items) <= Objects(buyOrders.items) + Objects(sellOrders.items) + {candidate}
      modifies this`ordersPriority, GetPendingOrdersQueue(candidate.side)`items, orderExpiryQueue`items
      ensures View() == PutBackView(old(View()), candidate.side, candidate.State())
      ensures Objects(GetPendingOrdersQueue(candidate.side).items)
              <= old(Objects(GetPendingOrdersQueue(candidate.side).items)) + {candidate}
      ensures Shape() && Separate(taker)
    {
      hide View, PutBackView, Objects, Shape, Separate, Unqueued;
      if candidate.State().CanMatch(0.0) {
        Requeue(taker, candidate);
      } else {
        Retire(taker, candidate);
      }
    }

    /** The first half of an iteration: the front maker is polled, trades, and the event goes out. */
    method TradeFront(order: OrderEntity, maxTotal: real)
      returns (candidate: OrderEntity, trade: OrderTrade, maxTotal': real)
      requires Setup() && Separate(order)
      requires LoopInv(Looping(order, maxTotal)) && Guard(Looping(order, maxTotal))
      requires DistinctIds(Looping(order, maxTotal).makers)
      modifies this`orderbookOutputs, GetPendingOrdersQueue(order.side.Opposite())`items
      modifies order`average, order`filledAmount, order`remainingAmount
      modifies Objects(GetPendingOrdersQueue(order.side.Opposite()).items)
      ensures Setup() && Separate(order) && Unqueued(candidate) && candidate != order
      ensures var queue := GetPendingOrdersQueue(order.side.Opposite());
              && old(Objects(queue.items)) == {candidate} + Objects(queue.items)
      ensures candidate.side == order.side.Opposite() && candidate.kind.Limit?
      ensures var s := old(Looping(order, maxTotal));
              && candidate.State() == FrontAfter(s) && trade.View() == FrontTrade(s)
              && order.State() == Body(s).taker && maxTotal' == Body(s).budget
      ensures View() == Traded(old(View()), order.side.Opposite(), trade.View())
    {
      var side := order.side.Opposite();
      ghost var cur := Looping(order, maxTotal);
      FrontFacts(cur, maxTotal);
      assert GetPendingOrdersQueue(side).items != [];
      hide Order.Fill, MakeTrade, MatchQuantity, Spend, DistinctIds, DistinctEntities, EarliestFirst, Guard,
        FrontQuantity;
      hide LoopInv, AllResting, States, ObjectIds, InputViews, View, Objects, Body, FrontAfter, FrontTrade,
        Engine.WithBook, Engine.Book;
      candidate := PollMaker(side);
      trade := MatchOrders(order, candidate, maxTotal);
      maxTotal' := Spend(order.State(), maxTotal, trade.price, trade.quantity);
      AddOrderbookEvent(candidate.side, trade.price, -trade.quantity);
    }

    /** One iteration of the matching loop, on a front maker that can be matched. */
    method TakeFront(order: OrderEntity, maxTotal: real) returns (trade: OrderTrade, maxTotal': real)
      requires Shape() && Separate(order)
      requires LoopInv(Looping(order, maxTotal)) && Guard(Looping(order, maxTotal))
      requires FrontQuantity(Looping(order, maxTotal)) != 0.0
      requires SideInv(Looping(order, maxTotal).makers, order.side.Opposite(), View().priority)
      modifies this`ordersPriority, this`orderbookOutputs
      modifies GetPendingOrdersQueue(order.side.Opposite())`items, orderExpiryQueue`items
      modifies order`average, order`filledAmount, order`remainingAmount
      modifies Objects(GetPendingOrdersQueue(order.side.Opposite()).items)
      ensures Shape() && Separate(order)
      ensures Objects(GetPendingOrdersQueue(order.side.Opposite()).items)
              <= old(Objects(GetPendingOrdersQueue(order.side.Opposite()).items))
      ensures trade.View() == old(FrontTrade(Looping(order, maxTotal)))
      ensures var s := old(Looping(order, maxTotal));
              && order.State() == Body(s).taker && maxTotal' == Body(s).budget
              && View() == MidMatch(old(View()), order.side.Opposite(), [trade.View()], StepDone(s), Body(s).makers)
    {
      FrontGoes(View(), Looping(order, maxTotal));
      hide Ranked, DistinctIds, DistinctEntities, EarliestFirst, FrontTrade, Guard, FrontQuantity, Traded, PutBackView;
      hide LoopInv, AllResting, States, ObjectIds, InputViews, View, Objects, MidMatch, StepDone, Body, FrontAfter;
      hide Engine.WithBook, Engine.Book, Looping, OrderEntity.State, OrderTrade.View, Order.WellFormed, SideInv;
      var candidate: OrderEntity;
      candidate, trade, maxTotal' := TradeFront(order, maxTotal);
      PutBack(order, candidate);
    }

    /** The matching loop of `processOrder`, on a taker for which it ends. */
    method MatchMakers(order: OrderEntity, budget: real) returns (trades: seq<OrderTrade>, maxTotal: real)
      requires Shape() && Separate(order)
      requires LoopInv(Looping(order, budget)) && Settles(Looping(order, budget))
      requires SideInv(Looping(order, budget).makers, order.side.Opposite(), View().priority)
      requires IdSet(Looping(order, budget).makers) <= View().priority.Keys
      modifies this`ordersPriority, this`orderbookOutputs
      modifies GetPendingOrdersQueue(order.side.Opposite())`items, orderExpiryQueue`items
      modifies order`average, order`filledAmount, order`remainingAmount
      modifies Objects(GetPendingOrdersQueue(order.side.Opposite()).items)
      ensures Shape() && Separate(order)
      ensures Objects(GetPendingOrdersQueue(order.side.Opposite()).items)
              <= old(Objects(GetPendingOrdersQueue(order.side.Opposite()).items))
      ensures var g := old(GreedyFill(Looping(order, budget)));
              && order.State() == g.taker && maxTotal == g.budget && TradeViews(trades) == g.trades
              && View() == MidMatch(old(View()), order.side.Opposite(), g.trades, g.done, g.left)
    {
      hide Setup, Separate, LoopInv, Settles, SideInv, MidMatch, Body, FrontTrade, StepDone, GreedyFill,
        FrontQuantity, View, Progress;
      ghost var before, start, done := View(), Looping(order, budget), [];
      var side := order.side.Opposite();
      trades, maxTotal := [], budget;
      ProgressStarts(start, before.priority);
      MidMatchStarts(before, side);
      assert TradeViews([]) == [];
      while order.State().CanMatch(maxTotal) && !GetPendingOrdersQueue(side).IsEmpty()
        invariant Shape() && Separate(order)
        invariant Objects(GetPendingOrdersQueue(side).items)
                  <= old(Objects(GetPendingOrdersQueue(order.side.Opposite()).items))
        invariant Progress(start, before.priority, TradeViews(trades), done, Looping(order, maxTotal))
        invariant View() == MidMatch(before, side, TradeViews(trades), done, Looping(order, maxTotal).makers)
        decreases |Looping(order, maxTotal).makers|, if Guard(Looping(order, maxTotal)) then 1 else 0
      {
        ghost var cur, mid := Looping(order, maxTotal), View();
        var candidate := GetPendingOrdersQueue(side).Peek();
        FrontIsPeeked(side);
        if order.State().CanBeMatchedWith(candidate.State()) {
          ProgressFacts(before, side, start, TradeViews(trades), done, cur);
          var trade;
          trade, maxTotal := TakeFront(order, maxTotal);
          assert Looping(order, maxTotal) == Body(cur);
          MidMatchChain(before, side, TradeViews(trades), done, cur.makers, [trade.View()], StepDone(cur),
            Body(cur).makers);
          assert TradeViews(trades + [trade]) == TradeViews(trades) + [trade.View()];
          trades, done := trades + [trade], done + StepDone(cur);
        } else {
          break;
        }
      }
      FrontIsPeeked(side);
      ProgressEnds(start, before.priority, TradeViews(trades), done, Looping(order, maxTotal));
    }

    lemma FrontIsPeeked(side: Side)
      ensures GetPendingOrdersQueue(side).IsEmpty() <==> View().Book(side) == []
      ensures !GetPendingOrdersQueue(side).IsEmpty() ==>
        GetPendingOrdersQueue(side).Peek().State() == View().Book(side)[0]
    {
    }

    /** The order goes into its side's queue and into the expiry queue. */
    method Rest(order: OrderEntity)
      requires Shape() && order.id !in View().expiry
      modifies GetPendingOrdersQueue(order.side)`items, orderExpiryQueue`items
      ensures Shape()
      ensures Objects(GetPendingOrdersQueue(order.side).items)
              == old(Objects(GetPendingOrdersQueue(order.side).items)) + {order}
      ensures var e, o := old(View()), order.State();
              View() == e.WithBook(o.side, Insert(RankingOf(o.side), e.priority, e.Book(o.side), o)).(
                          expiry := e.expiry + {o.id})
    {
      hide States, ObjectIds, Objects, InputViews, OutputViews, Insert, DistinctEntities, EarliestFirst;
      ghost var q := orderExpiryQueue.items;
      GetPendingOrdersQueue(order.side).Add(ordersPriority, order);
      orderExpiryQueue.Add(ordersPriority, order);
      ExpiryAdded(q, orderExpiryQueue.items, ordersPriority, order);
      assert InputViews(unprocessedOrders) == old(InputViews(unprocessedOrders));
    }

    /** A market taker never rests; a limit taker rests with what it has left. */
    method FinishOrder(order: OrderEntity, maxTotal: real)
      requires Shape() && order.id !in View().expiry
      modifies this`ordersPriority, this`orderOutputs, this`orderbookOutputs
      modifies GetPendingOrdersQueue(order.side)`items, orderExpiryQueue`items
      ensures Shape() && View() == Finish(old(View()), order.State(), maxTotal)
      ensures Objects(GetPendingOrdersQueue(order.side).items)
              <= old(Objects(GetPendingOrdersQueue(order.side).items)) + {order}
    {
      hide States, ObjectIds, InputViews, Insert, Shape;
      if order.kind.Market? {
        if order.State().CanMatch(maxTotal) {
          orderOutputs := orderOutputs + [Withdrawn(order)];
          assert OutputViews(orderOutputs) == old(OutputViews(orderOutputs)) + [CancelOutput(order.id)];
        }
        ordersPriority := ordersPriority - {order.id};
      } else if order.State().CanMatch(0.0) {
        hide View;
        Rest(order);
        AddOrderbookEvent(order.side, order.price, order.remainingAmount);
      } else {
        ordersPriority := ordersPriority - {order.id};
      }
    }

    /** A live order's object is in none of the queues, which share nothing with each other. */
    lemma LiveOrderIsSeparate(order: OrderEntity)
      requires Setup() && Inv(View(), {order.id})
      ensures Separate(order)
    {
      ObjectIdsAreIds(buyOrders.items);
      ObjectIdsAreIds(sellOrders.items);
      forall o | o in Objects(buyOrders.items) ensures o.id in IdSet(View().bids) {}
      forall o | o in Objects(sellOrders.items) ensures o.id in IdSet(View().asks) {}
      forall x | x in unprocessedOrders && x.action.Create? ensures x.order.id in PendingCreates(View().pending) {
        var i :| 0 <= i < |unprocessedOrders| && unprocessedOrders[i] == x;
        assert View().pending[i] == InputView(x);
      }
    }

    /** `processOrder`, on an order for which the matching loop ends. */
    method ProcessOrder(order: OrderEntity, now: real)
      requires Valid({order.id}) && order.State().WellFormed()
      requires !order.State().Expired(now) ==>
                 LoopInv(LoopStart(View(), order.State())) && Settles(LoopStart(View(), order.State()))
      modifies this, buyOrders`items, sellOrders`items, orderExpiryQueue`items, order
      modifies Objects(GetPendingOrdersQueue(order.side.Opposite()).items)
      ensures View() == Submit(old(View()), old(order.State()), now) && Valid({})
      ensures unprocessedOrders == old(unprocessedOrders) && Held() <= old(Held()) + {order}
    {
      hide BookInv, PriorityInv, PendingInv, Settles, LoopInv, SideInv, GreedyFill, AfterMatch, Finish, MidMatch, View;
      ghost var before, o := View(), order.State();
      SubmitKeeps(before, o, now);
      if order.expiry < now {
        CancelOrder(order, false);
        return;
      }
      LiveOrderIsSeparate(order);
      LiveOrderStarts(before, o, now);
      hide Shape, Separate, Submit;
      var trades, maxTotal := [], if order.State().UsesTotal() then order.State().MatchableTotal() else UNLIMITED;
      trades, maxTotal := MatchMakers(order, maxTotal);
      if |trades| > 0 {
        PublishMatch(trades);
      }
      FinishOrder(order, maxTotal);
    }

    method PublishMatch(trades: seq<OrderTrade>)
      modifies this`orderOutputs
      ensures View() == old(View()).(outputs := old(View()).outputs + [MatchOutput(TradeViews(trades))])
    {
      orderOutputs := orderOutputs + [Matched(trades)];
      assert OutputViews(orderOutputs) == old(OutputViews(orderOutputs)) + [MatchOutput(TradeViews(trades))];
    }

    // ---------- The loop of the engine ----------

    /** The part of `onTick` behind the sweep: the next input is dequeued and acted on. */
    method ProcessNext(now: real)
      requires Valid({}) && unprocessedOrders != []
      requires Enabled(View(), Dequeue(now, unprocessedOrders[0].order.remainingAmount))
      modifies this, buyOrders`items, sellOrders`items, orderExpiryQueue`items, Held()
      ensures Shape() && View() == Step(old(View()), Dequeue(now, old(unprocessedOrders[0].order.remainingAmount)))
      ensures Valid({}) <==> Proper(old(View()), Dequeue(now, old(unprocessedOrders[0].order.remainingAmount)))
      ensures Held() <= old(Held()) && unprocessedOrders == old(unprocessedOrders)[1..]
    {
      hide BookInv, PriorityInv, PendingInv, Settles, LoopInv, Submit, EngineModel.CancelOrder, Setup, CreateObjects;
      CreateObjectsFirst(unprocessedOrders);
      ghost var before := View();
      var input := unprocessedOrders[0];
      assert InputView(input) == before.pending[0];
      StepKeeps(before, Dequeue(now, input.order.remainingAmount));
      PopKeeps(before);
      unprocessedOrders := unprocessedOrders[1..];
      assert InputViews(unprocessedOrders) == old(InputViews(unprocessedOrders))[1..];
      assert View() == Pop(before);
      if input.action.Create? {
        ProcessOrder(input.order, now);
      } else {
        CancelOrder(input.order, true);
      }
    }

    /** `onTick`, on inputs it can return from. */
    method OnTick(swept: real, now: real) returns (ghost ids: seq<int>, ghost carried: real)
      requires Valid({}) && TickReturns(View(), swept, now)
      modifies this, buyOrders`items, sellOrders`items, orderExpiryQueue`items, Held()
      ensures Shape() && Ticked(old(View()), swept, ids, now, carried, View())
      ensures Valid({}) <==> Proper(SweepAll(old(View()), swept, ids), Dequeue(now, carried))
      ensures Held() <= old(Held())
      ensures unprocessedOrders == if old(unprocessedOrders) == [] then [] else old(unprocessedOrders)[1..]
      ensures old(unprocessedOrders) != [] ==> carried == old(unprocessedOrders[0].order.remainingAmount)
    {
      hide BookInv, PriorityInv, PendingInv, SweepEnabled, SweepAll, Step, Setup, Shape;
      ids := CancelExpiredOrders(swept);
      carried := 0.0;
      if unprocessedOrders != [] {
        assert unprocessedOrders[0] in unprocessedOrders;
        carried := unprocessedOrders[0].order.remainingAmount;
        ProcessNext(now);
      }
    }

    /** `preProcess`, on any creates. */
    method PreProcess(inputs: seq<OrderInput>)
      requires Valid({}) && forall x <- inputs :: x.action.Create? && x.order.State().WellFormed()
      modifies this`ordersPriority, this`currentOrderPriority, this`receivedOrders, this`unprocessedOrders
      ensures Shape() && View() == EnqueueAll(old(View()), States(OrdersOf(inputs)))
      ensures Valid({}) <==> Free(old(View()), States(OrdersOf(inputs)))
      ensures Held() == old(Held()) + CreateObjects(inputs)
      ensures unprocessedOrders == old(unprocessedOrders) + inputs
    {
      ghost var orders := States(OrdersOf(inputs));
      hide BookInv, PriorityInv, PendingInv, View, Enqueue, Free;
      assert orders[0..] == orders;
      for i := 0 to |inputs|
        invariant Shape() && EnqueueAll(View(), orders[i..]) == EnqueueAll(old(View()), orders)
        invariant unprocessedOrders == old(unprocessedOrders) + inputs[..i]
      {
        assert orders[i..][1..] == orders[i + 1..];
        ProcessCreateAction(inputs[i]);
      }
      PreProcessKeepsIff(old(View()), orders);
    }

    // ---------- The engine at work ----------

    /** No one writes to the object of a cancel accepted; it still shows what its message showed. */
    ghost predicate Owes(owed: map<int, real>)
      reads this`unprocessedOrders, buyOrders, sellOrders, OrdersOf(unprocessedOrders)
    {
      Shown(unprocessedOrders, Held(), owed)
    }

    /** An object the engine has nothing to do with yet. */
    ghost predicate Foreign(o: OrderEntity)
      reads this`unprocessedOrders, buyOrders, sellOrders
    {
      o !in Held() && o !in OrdersOf(unprocessedOrders)
    }

    /** A message is read into a new object. */
    method Read(action: Action, order: Order, ghost owed: map<int, real>) returns (input: OrderInput)
      requires Valid({}) && Owes(owed)
      ensures Valid({}) && Owes(owed) && View() == old(View()) && Held() == old(Held())
      ensures fresh(input.order) && Foreign(input.order) && input.action == action && input.order.State() == order
    {
      ghost var held, orders := Held(), OrdersOf(unprocessedOrders);
      var entity := new OrderEntity(order);
      input := OrderInput(action, entity);
      assert input.order !in held && input.order !in orders;
    }

    /** What was owed before a message is owed after it, and what it adds. */
    lemma OwedWith(input: OrderInput, owed: map<int, real>)
      requires Valid({}) && Owes(owed) && Foreign(input.order)
      ensures var call := Message(input.action, input.order.State());
              var accepted := Accepts(View(), call.Input());
              && call.Input() == InputView(input)
              && Shown(unprocessedOrders + if accepted then [input] else [],
                       Held() + if input.action.Create? then {input.order} else {},
                       OwedAfter(Front(View(), owed), call))
    {
      hide Inv, Held;
      var call := Message(input.action, input.order.State());
      assert forall i :: 0 <= i < |unprocessedOrders| ==> View().pending[i] == InputView(unprocessedOrders[i]);
      var orders := OrdersOf(unprocessedOrders);
      assert forall i :: 0 <= i < |unprocessedOrders| ==>
        orders[i] == unprocessedOrders[i].order && orders[i] in orders;
      if input.action.Cancel? && Accepts(View(), call.Input()) { AcceptedIsOnly(View(), call.Input()); }
    }

    method Deliver(input: OrderInput, ghost owed: map<int, real>) returns (ghost owed': map<int, real>)
      requires Valid({}) && Owes(owed) && Foreign(input.order)
      requires input.action.Create? ==> input.order.State().WellFormed()
      modifies this, buyOrders`items, sellOrders`items, orderExpiryQueue`items
      ensures Valid({}) && Owes(owed') && Held() <= old(Held()) + {input.order}
      ensures View() == Receive(old(View()), old(InputView(input)))
      ensures owed' == old(OwedAfter(Front(View(), owed), Message(input.action, input.order.State())))
    {
      hide Valid, View, Held, Owes, Receive, OwedAfter, Accepts, Foreign, OrderEntity.State, InputView;
      OwedWith(input, owed);
      ghost var call := Message(input.action, input.order.State());
      owed' := OwedAfter(Front(View(), owed), call);
      ghost var waiting := unprocessedOrders + if Accepts(View(), call.Input()) then [input] else [];
      ghost var held := Held() + if input.action.Create? then {input.order} else {};
      OnNewOrderAction(input);
      ShownUnder(unprocessedOrders, held, Held(), owed') by { assert Shown(waiting, held, owed'); }
      ShownIsOwed(owed');
    }

    lemma ViewInv()
      requires Valid({})
      ensures Inv(View(), {})
    {
    }

    /** A message comes in. */
    method OnMessage(action: Action, order: Order, ghost owed: map<int, real>) returns (ghost owed': map<int, real>)
      requires Valid({}) && Owes(owed) && Returns(View(), Message(action, order))
      modifies this, buyOrders`items, sellOrders`items, orderExpiryQueue`items
      ensures Valid({}) && Owes(owed') && fresh(Held() - old(Held()))
      ensures Performs(Front(old(View()), owed), Message(action, order), Front(View(), owed'))
    {
      hide Inv, Setup, Shape, Owes, OwedAfter, Receive, Held, View;
      var input := Read(action, order, owed);
      owed' := Deliver(input, owed);
    }

    method OneSweep(now: real, ghost owed: map<int, real>)
      requires Valid({}) && Owes(owed)
      modifies this, buyOrders`items, sellOrders`items, orderExpiryQueue`items
      ensures Valid({}) && Owes(owed) && Held() <= old(Held())
      ensures Performs(Front(old(View()), owed), Sweeping(now), Front(View(), owed))
    {
      hide BookInv, PriorityInv, PendingInv, Setup, Shape, SweepAll, SweepEnabled;
      ghost var held := Held();
      assert Shown(unprocessedOrders, held, owed);
      hide Shown;
      ghost var ids := CancelExpiredOrders(now);
      ShownUnder(unprocessedOrders, held, Held(), owed);
      assert Swept(old(View()), now, ids, View());
    }

    /** An input from which the engine returns, if one waits. */
    method OneInput(now: real, ghost owed: map<int, real>)
      requires Valid({}) && Owes(owed) && Returns(View(), Processing(now))
      modifies this, buyOrders`items, sellOrders`items, orderExpiryQueue`items, Held()
      ensures Valid({}) && Owes(owed) && Held() <= old(Held())
      ensures Performs(Front(old(View()), owed), Processing(now), Front(View(), owed))
    {
      hide BookInv, PriorityInv, PendingInv, Setup, Shape, Enabled, Step, Proper, Held;
      ghost var inputs, held := unprocessedOrders, Held();
      assert Shown(inputs, held, owed);
      if unprocessedOrders != [] {
        FirstCarries(owed);
        ghost var carried := unprocessedOrders[0].order.remainingAmount;
        ReturnsProper(View(), now, carried);
        ProcessNext(now);
        assert Advanced(old(View()), now, carried, View());
        hide Shown;
        ShownUnder(inputs, held, Held(), owed);
        ShownTail(inputs, Held(), owed);
      } else {
        assert Carries(Front(View(), owed), 0.0) && Advanced(View(), now, 0.0, View());
      }
    }

    lemma FirstCarries(owed: map<int, real>)
      requires Owes(owed)
      ensures unprocessedOrders != [] ==> Carries(Front(View(), owed), unprocessedOrders[0].order.remainingAmount)
    {
      assert unprocessedOrders != [] ==> OrdersOf(unprocessedOrders)[0] == unprocessedOrders[0].order;
    }

    /** The rows loaded at start-up, as objects of their own. */
    method ReadRows(rows: seq<Order>, ghost owed: map<int, real>) returns (inputs: seq<OrderInput>)
      requires Valid({}) && Owes(owed)
      ensures Valid({}) && Owes(owed) && View() == old(View()) && Held() == old(Held())
      ensures States(OrdersOf(inputs)) == rows && fresh(CreateObjects(inputs))
      ensures forall x <- inputs :: x.action.Create? && Foreign(x.order)
    {
      hide Valid, Owes, View, Held;
      inputs := [];
      for i := 0 to |rows|
        invariant Valid({}) && Owes(owed) && View() == old(View()) && Held() == old(Held())
        invariant States(OrdersOf(inputs)) == rows[..i] && fresh(CreateObjects(inputs))
        invariant forall x <- inputs :: x.action.Create? && Foreign(x.order)
      {
        var input := Read(Create, rows[i], owed);
        CreateObjectsWith(inputs, input);
        inputs := inputs + [input];
      }
    }

    method LoadInputs(inputs: seq<OrderInput>, ghost owed: map<int, real>)
      requires Valid({}) && Owes(owed) && forall x <- inputs :: x.action.Create? && Foreign(x.order)
      requires Free(View(), States(OrdersOf(inputs))) && forall x <- inputs :: x.order.State().WellFormed()
      modifies this`ordersPriority, this`currentOrderPriority, this`receivedOrders, this`unprocessedOrders
      ensures Valid({}) && Owes(owed) && Held() == old(Held()) + CreateObjects(inputs)
      ensures View() == EnqueueAll(old(View()), States(OrdersOf(inputs)))
    {
      hide Valid, View, Held, Owes, Foreign, Free, EnqueueAll, States, CreateObjects, OrderEntity.State;
      OwedShown(inputs, owed);
      ghost var waiting, held := unprocessedOrders + inputs, Held() + CreateObjects(inputs);
      PreProcess(inputs);
      ShownIsOwed(owed) by { assert Shown(waiting, held, owed); }
    }

    lemma ShownIsOwed(owed: map<int, real>)
      requires Shown(unprocessedOrders, Held(), owed)
      ensures Owes(owed)
    {
    }

    lemma OwedShown(inputs: seq<OrderInput>, owed: map<int, real>)
      requires Owes(owed) && forall x <- inputs :: x.action.Create? && Foreign(x.order)
      ensures Shown(unprocessedOrders + inputs, Held() + CreateObjects(inputs), owed)
    {
      hide Held;
      forall i | 0 <= i < |unprocessedOrders| ensures OrdersOf(unprocessedOrders)[i] !in CreateObjects(inputs) {
        assert OrdersOf(unprocessedOrders)[i] in OrdersOf(unprocessedOrders);
      }
      assert forall i :: 0 <= i < |unprocessedOrders| ==>
        OrdersOf(unprocessedOrders + inputs)[i] == OrdersOf(unprocessedOrders)[i];
    }

    /** Start-up: the rows are loaded without the duplicate check. */
    method Load(rows: seq<Order>, ghost owed: map<int, real>)
      requires Valid({}) && Owes(owed) && FreshOrders(View().received, rows) && forall o <- rows :: o.WellFormed()
      modifies this`ordersPriority, this`currentOrderPriority, this`receivedOrders, this`unprocessedOrders
      ensures Valid({}) && Owes(owed) && fresh(Held() - old(Held()))
      ensures Plays(Front(old(View()), owed), Loads(rows), Front(View(), owed))
    {
      hide Valid, Inv, FreshOrders, Free, Plays, EnqueueAll, Foreign, Owes, View, Held, CreateObjects;
      hide OrderEntity.State;
      ViewInv();
      LoadsPlay(Front(View(), owed), rows);
      FreshIsFree(View(), rows);
      var inputs := ReadRows(rows, owed);
      AllWellFormed(inputs);
      LoadInputs(inputs, owed);
    }

    /** `start`, under one interleaving of its sweeps and inputs with the input callback. */
    method Start(calls: seq<Call>, ghost owed: map<int, real>) returns (ghost owed': map<int, real>)
      requires Valid({}) && Owes(owed) && AllReturn(Front(View(), owed), calls)
      modifies this, buyOrders`items, sellOrders`items, orderExpiryQueue`items, Held()
      ensures Valid({}) && Owes(owed') && fresh(Held() - old(Held()))
      ensures Plays(Front(old(View()), owed), calls, Front(View(), owed'))
    {
      hide Owes, Performs, Returns, Inv, Setup, Shape, View;
      owed' := owed;
      ghost var first := Front(View(), owed);
      assert Plays(first, [], first);
      for i := 0 to |calls|
        invariant Valid({}) && Owes(owed') && fresh(Held() - old(Held()))
        invariant Plays(first, calls[..i], Front(View(), owed')) && AllReturn(Front(View(), owed'), calls[i..])
      {
        ghost var f, held := Front(View(), owed'), Held();
        assert calls[i..][0] == calls[i] && calls[i..][1..] == calls[i + 1..];
        match calls[i] {
          case Message(action, order) =>
            owed' := OnMessage(action, order, owed');
            assert fresh(Held() - held);
          case Sweeping(now) =>
            OneSweep(now, owed');
          case Processing(now) =>
            OneInput(now, owed');
        }
        PlaysOne(f, calls[i], Front(View(), owed'));
        PlaysThen(first, calls[..i], f, [calls[i]], Front(View(), owed'));
        assert calls[..i + 1] == calls[..i] + [calls[i]];
      }
      assert calls[..|calls|] == calls;
    }

    lemma FrontOfMakers(q: seq<OrderEntity>)
      requires q != [] && DistinctIds(States(q))
      ensures q[0] !in Objects(q[1..]) && Objects(q) == Objects(q[1..]) + {q[0]}
      ensures States(q[1..]) == States(q)[1..]
    {
      assert forall i :: 0 < i < |q| ==> States(q)[0].id != States(q)[i].id;
      assert q == [q[0]] + q[1..];
    }
  }

  /** The objects of the cancels are not held, and show what is owed. */
  ghost predicate Shown(inputs: seq<OrderInput>, held: set<OrderEntity>, owed: map<int, real>)
    reads OrdersOf(inputs)
  {
    forall i :: 0 <= i < |inputs| && inputs[i].action.Cancel? ==>
      var o := OrdersOf(inputs)[i];
      o !in held && o.id in owed && owed[o.id] == o.remainingAmount
  }

  lemma ShownUnder(inputs: seq<OrderInput>, held: set<OrderEntity>, held': set<OrderEntity>, owed: map<int, real>)
    requires Shown(inputs, held, owed) && held' <= held
    ensures Shown(inputs, held', owed)
  {
  }

  lemma ShownTail(inputs: seq<OrderInput>, held: set<OrderEntity>, owed: map<int, real>)
    requires Shown(inputs, held, owed) && inputs != []
    ensures Shown(inputs[1..], held, owed)
  {
    assert forall i :: 0 <= i < |inputs| - 1 ==> OrdersOf(inputs[1..])[i] == OrdersOf(inputs)[i + 1];
  }

  lemma AllWellFormed(inputs: seq<OrderInput>)
    requires forall o <- States(OrdersOf(inputs)) :: o.WellFormed()
    ensures forall x <- inputs :: x.order.State().WellFormed()
  {
    forall i | 0 <= i < |inputs| ensures inputs[i].order.State().WellFormed() {
      assert States(OrdersOf(inputs))[i] == inputs[i].order.State();
    }
  }

  lemma CreateObjectsWith(inputs: seq<OrderInput>, x: OrderInput)
    ensures CreateObjects(inputs + [x]) == CreateObjects(inputs) + if x.action.Create? then {x.order} else {}
  {
    assert forall y :: y in inputs + [x] <==> y in inputs || y == x;
  }

  lemma CreateObjectsFirst(inputs: seq<OrderInput>)
    requires inputs != []
    ensures CreateObjects(inputs)
            == CreateObjects(inputs[1..]) + if inputs[0].action.Create? then {inputs[0].order} else {}
  {
    assert inputs == [inputs[0]] + inputs[1..];
    assert forall y :: y in inputs <==> y in inputs[1..] || y == inputs[0];
  }

  /** The expiry queue stays sorted and without repetition when an order is added. */
  lemma ExpiryAdded(q: seq<OrderEntity>, q': seq<OrderEntity>, p: Priorities, o: OrderEntity)
    requires DistinctEntities(q) && EarliestFirst(q) && o.id !in ObjectIds(q)
    requires States(q') == Insert(Expiries, p, States(q), o.State())
    ensures DistinctEntities(q') && EarliestFirst(q') && ObjectIds(q') == ObjectIds(q) + {o.id}
  {
    ObjectIdsAreIds(q);
    ObjectIdsAreIds(q');
    InsertFacts(Expiries, p, States(q), o.State());
  }

  /** Where the loop starts on a live order, and what is left to do where it ends. */
  lemma LiveOrderStarts(e: Engine, o: Order, now: real)
    requires Inv(e, {o.id}) && o.WellFormed() && !o.Expired(now)
    ensures var s := LoopStart(e, o);
            && LoopInv(s) && SideInv(s.makers, o.side.Opposite(), e.priority) && IdSet(s.makers) <= e.priority.Keys
            && var g := GreedyFill(s);
               var mid := MidMatch(e, o.side.Opposite(), g.trades, g.done, g.left);
               var after := if g.trades == [] then mid else mid.(outputs := mid.outputs + [MatchOutput(g.trades)]);
               && after == AfterMatch(e, o.side, g)
               && Submit(e, o, now) == Finish(after, g.taker, g.budget)
               && o.id !in after.expiry && g.taker.id == o.id
  {
    LoopStartInv(e, o);
    OutcomeKeeps(LoopStart(e, o));
    MidMatchToAfterMatch(e, o.side, GreedyFill(LoopStart(e, o)));
  }

  /** What an iteration may rely on, and what it brings about. */
  lemma ProgressFacts(e: Engine, side: Side, s0: LoopState, trades: seq<Trade>, done: seq<Order>, cur: LoopState)
    requires Progress(s0, e.priority, trades, done, cur) && Guard(cur) && side == s0.taker.side.Opposite()
    ensures LoopInv(cur) && FrontQuantity(cur) != 0.0
    ensures SideInv(cur.makers, side, MidMatch(e, side, trades, done, cur.makers).priority)
    ensures Progress(s0, e.priority, trades + [FrontTrade(cur)], done + StepDone(cur), Body(cur))
    ensures LoopInv(Body(cur))
    ensures |Body(cur).makers| < |cur.makers| || (|Body(cur).makers| == |cur.makers| && !Guard(Body(cur)))
  {
    ProgressStep(s0, e.priority, trades, done, cur);
    ProgressIsMade(cur);
    hide SideInv, LoopInv, GreedyFill, FrontTrade, StepDone, Body, Settles, Guard;
  }

  /** A partly filled maker keeps its rank: re-adding it puts it back in front. */
  lemma FrontStaysInFront(s: LoopState, p: Priorities)
    requires LoopInv(s) && s.makers != [] && FrontAfter(s).SameOrder(s.makers[0])
    requires Ranked(RankingOf(s.taker.side.Opposite()), p, s.makers)
    ensures var r := RankingOf(s.taker.side.Opposite());
            Insert(r, p, s.makers[1..], FrontAfter(s)) == [FrontAfter(s)] + s.makers[1..]
  {
    var r := RankingOf(s.taker.side.Opposite());
    forall x | x in s.makers[1..] ensures Precedes(r, p, FrontAfter(s), x) {
      var i :| 0 <= i < |s.makers[1..]| && s.makers[1..][i] == x;
      assert Precedes(r, p, s.makers[0], s.makers[i + 1]);
    }
    InsertInFront(r, p, s.makers[1..], FrontAfter(s));
  }

  /** The front maker's part in an iteration. */
  lemma FrontFacts(s: LoopState, budget: real)
    requires LoopInv(s) && Guard(s) && s.budget == budget
    ensures var m, q := s.makers[0], MatchQuantity(s.taker, s.makers[0], budget);
            && m.price > 0.0 && m.feeRate < 1.0 && s.taker.feeRate < 1.0
            && m.side == s.taker.side.Opposite() && m.kind.Limit?
            && Body(s).taker == s.taker.Fill(m.price, q)
            && Body(s).budget == Spend(Body(s).taker, budget, m.price, q)
            && FrontAfter(s) == m.Fill(m.price, q) && FrontTrade(s) == MakeTrade(s.taker, m, q)
            && FrontTrade(s).price == m.price && FrontTrade(s).quantity == q
  {
    BodyKeeps(s);
    assert s.makers[0] in s.makers;
  }

  /** The front maker as it is afterwards, and what the makers and the used-up ids then are. */
  lemma FrontReturns(s: LoopState, p: Priorities)
    requires LoopInv(s) && Guard(s) && FrontQuantity(s) != 0.0
    requires Ranked(RankingOf(s.taker.side.Opposite()), p, s.makers)
    ensures Body(s).makers == Returned(RankingOf(s.taker.side.Opposite()), p, s.makers[1..], FrontAfter(s))
    ensures IdSet(StepDone(s)) == Gone(FrontAfter(s))
  {
    hide GreedyFill, Insert, Ranked, LoopInv, Order.SameOrder, FrontTrade;
    GreedyStep(s);
    FrontStaysInFront(s, p);
  }

  /** The two halves of an iteration, put together. */
  lemma FrontGoes(e: Engine, s: LoopState)
    requires LoopInv(s) && Guard(s) && FrontQuantity(s) != 0.0
    requires s.makers == e.Book(s.taker.side.Opposite())
    requires SideInv(s.makers, s.taker.side.Opposite(), e.priority)
    ensures DistinctIds(s.makers)
    ensures var side := s.taker.side.Opposite();
            PutBackView(Traded(e, side, FrontTrade(s)), side, FrontAfter(s))
            == MidMatch(e, side, [FrontTrade(s)], StepDone(s), Body(s).makers)
  {
    var side, t := s.taker.side.Opposite(), FrontTrade(s);
    FrontReturns(s, e.priority);
    assert TradeDeltas(side, [t]) == [Delta(side, t.price, -t.quantity)];
    hide Returned, Gone, IdSet, StepDone, FrontAfter, FrontTrade, LoopInv, Body, TradeDeltas, Ranked;
  }
}
