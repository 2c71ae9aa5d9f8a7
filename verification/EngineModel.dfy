/**
 The matching engine as a transition system over values: what each public step does to the two
 books, the expiry queue, the priority map, the received-actions map and the three output queues.
 */
module EngineModel {
  import opened Decimals
  import opened Orders
  import opened Matching
  import opened Fills
  import opened Queues

  datatype Action = Create | Cancel

  /** A cancel input names its order; what its object shows as remaining is read when it is dequeued. */
  datatype Input = CreateInput(order: Order) | CancelInput(cancelId: int, side: Side, price: real) {
    function Id(): int { if CreateInput? then order.id else cancelId }
    function TheAction(): Action { if CreateInput? then Create else Cancel }
  }

  datatype Output = MatchOutput(trades: seq<Trade>) | CancelOutput(id: int)

  /** An order-book event. */
  datatype Delta = Delta(side: Side, price: real, amount: real)

  datatype Engine = Engine(
    bids: seq<Order>, asks: seq<Order>, expiry: set<int>,
    priority: Priorities, nextPriority: int, received: map<int, Action>,
    pending: seq<Input>, outputs: seq<Output>, deltas: seq<Delta>)
  {
    function Book(side: Side): seq<Order> { if side.Buy? then bids else asks }

    function WithBook(side: Side, q: seq<Order>): Engine {
      if side.Buy? then this.(bids := q) else this.(asks := q)
    }

    function BookIds(): set<int> { IdSet(bids) + IdSet(asks) }
  }

  const INITIAL := Engine([], [], {}, map[], 0, map[], [], [], [])

  // ---------- Steps ----------

  /** `cancelOrder`: `amount` is the remaining the cancelled object carries. */
  function CancelOrder(e: Engine, id: int, side: Side, price: real, amount: real, inOrderbook: bool): Engine {
    e.WithBook(side, Remove(e.Book(side), id)).(
    priority := e.priority - {id},
    expiry := e.expiry - {id},
    outputs := e.outputs + [CancelOutput(id)],
    deltas := if inOrderbook then e.deltas + [Delta(side, price, -amount)] else e.deltas)
  }

  /** `processCreateAction`. */
  function Enqueue(e: Engine, o: Order): Engine {
    e.(priority := e.priority[o.id := e.nextPriority], nextPriority := e.nextPriority + 1,
       received := e.received[o.id := Create], pending := e.pending + [CreateInput(o)])
  }

  /** `onNewOrderAction`. */
  function Receive(e: Engine, input: Input): Engine {
    if input.Id() !in e.received then
      match input
      case CreateInput(o) => Enqueue(e, o)
      case CancelInput(id, side, price) => CancelOrder(e, id, side, price, 0.0, false)
    else if e.received[input.Id()].Create? && input.CancelInput? then
      e.(received := e.received[input.Id() := Cancel], pending := e.pending + [input])
    else e
  }

  // The budget of a taker that does not use a total: Number.MAX_SAFE_INTEGER, never consulted.
  const UNLIMITED: real := 9007199254740991.0

  /** The state in which the matching loop starts. */
  function LoopStart(e: Engine, o: Order): LoopState {
    LoopState(o, if o.UsesTotal() then o.MatchableTotal() else UNLIMITED, e.Book(o.side.Opposite()))
  }

  lemma LoopStartInv(e: Engine, o: Order)
    requires o.WellFormed() && AllResting(e.Book(o.side.Opposite()), o.side.Opposite())
    ensures LoopInv(LoopStart(e, o))
  {
    if o.UsesTotal() { ProductNonNegative(o.total, 1.0 - o.feeRate); }
  }

  function TradeDeltas(side: Side, trades: seq<Trade>): seq<Delta> {
    seq(|trades|, i requires 0 <= i < |trades| => Delta(side, trades[i].price, -trades[i].quantity))
  }

  /** The part of `processOrder` up to and including the match output. */
  function AfterMatch(e: Engine, side: Side, g: Outcome): Engine {
    e.WithBook(side.Opposite(), g.left).(
    priority := e.priority - IdSet(g.done),
    expiry := e.expiry - IdSet(g.done),
    outputs := if g.trades == [] then e.outputs else e.outputs + [MatchOutput(g.trades)],
    deltas := e.deltas + TradeDeltas(side.Opposite(), g.trades))
  }

  /** The rest of `processOrder`: a market order never rests, a limit order rests with what it has left. */
  function Finish(e: Engine, o: Order, budget: real): Engine {
    if o.kind.Market? then
      e.(outputs := if o.CanMatch(budget) then e.outputs + [CancelOutput(o.id)] else e.outputs,
         priority := e.priority - {o.id})
    else if o.remaining > 0.0 then
      e.WithBook(o.side, Insert(RankingOf(o.side), e.priority, e.Book(o.side), o)).(
      expiry := e.expiry + {o.id},
      deltas := e.deltas + [Delta(o.side, o.price, o.remaining)])
    else e.(priority := e.priority - {o.id})
  }

  /** `processOrder`. */
  function Submit(e: Engine, o: Order, now: real): Engine
    requires o.WellFormed() && AllResting(e.Book(o.side.Opposite()), o.side.Opposite())
  {
    if o.Expired(now) then CancelOrder(e, o.id, o.side, o.price, 0.0, false)
    else
      LoopStartInv(e, o);
      var g := GreedyFill(LoopStart(e, o));
      Finish(AfterMatch(e, o.side, g), g.taker, g.budget)
  }

  // ---------- The invariant ----------

  function PendingCreates(p: seq<Input>): set<int> { set i <- p | i.CreateInput? :: i.order.id }

  ghost predicate SideInv(q: seq<Order>, side: Side, priority: Priorities) {
    && AllResting(q, side)
    && Ranked(RankingOf(side), priority, q)
    && DistinctIds(q)
  }

  /** No resting bid reaches a resting ask. */
  ghost predicate Uncrossed(bids: seq<Order>, asks: seq<Order>) {
    forall b <- bids, a <- asks :: b.price < a.price
  }

  ghost predicate BookInv(e: Engine) {
    && SideInv(e.bids, Buy, e.priority)
    && SideInv(e.asks, Sell, e.priority)
    && IdSet(e.bids) !! IdSet(e.asks)
    && Uncrossed(e.bids, e.asks)
    && e.expiry == e.BookIds()
  }

  /** Exactly the live orders have a priority: those in the book, those pending and those `active` in a step. */
  ghost predicate PriorityInv(e: Engine, active: set<int>) {
    && Injective(e.priority)
    && (forall id <- e.priority :: e.priority[id] < e.nextPriority)
    && e.priority.Keys == e.BookIds() + PendingCreates(e.pending) + active
    && e.BookIds() !! PendingCreates(e.pending)
    && active !! (e.BookIds() + PendingCreates(e.pending))
  }

  /** Each id's create is pending at most once and before its cancel. */
  ghost predicate PendingInv(e: Engine, active: set<int>) {
    && (forall p <- e.pending :: p.Id() in e.received)
    && (forall p <- e.pending :: p.CreateInput? ==> p.order.WellFormed())
    && (forall i, j :: 0 <= i < j < |e.pending| && e.pending[j].CreateInput? ==> e.pending[i].Id() != e.pending[j].Id())
    && (forall p <- e.pending :: p.CancelInput? ==> e.received[p.Id()].Cancel?)
    && (forall i, j :: 0 <= i < j < |e.pending| && e.pending[i].CancelInput? ==> e.pending[i].Id() != e.pending[j].Id())
    && e.BookIds() + active <= e.received.Keys
  }

  ghost predicate Inv(e: Engine, active: set<int>) {
    BookInv(e) && PriorityInv(e, active) && PendingInv(e, active)
  }

  lemma InitialInv()
    ensures Inv(INITIAL, {})
  {
  }
}
