/** The mutable order entity and the priority queue the engine keeps its orders in. */
module Entities {
  import opened Orders
  import opened Fills
  import opened Queues

  class OrderEntity {
    const id: int
    const side: Side
    const kind: OrderType
    const price: real
    const updatedAt: int
    const expiry: real
    const feeRate: real
    const amount: real
    const total: real
    var average: real
    var filledAmount: real
    var remainingAmount: real
    var status: Status

    constructor (o: Order)
      ensures State() == o
    {
      id, side, kind, price, updatedAt, expiry := o.id, o.side, o.kind, o.price, o.updatedAt, o.expiry;
      feeRate, amount, total := o.feeRate, o.amount, o.total;
      average, filledAmount, remainingAmount := o.average, o.filled, o.remaining;
      status := Fillable;
    }

    function State(): Order
      reads this
    {
      Order(id, side, kind, price, updatedAt, expiry, feeRate, amount, total, average, filledAmount, remainingAmount)
    }

    /** `updateStatusIfNeed`. */
    method UpdateStatus() returns (s: Status)
      modifies this`status
      ensures s == status == old(State()).GetStatus() && State() == old(State())
    {
      status := State().GetStatus();
      s := status;
    }

    /** The engine's `updateAverageAndFilledAmount` on this order. */
    method UpdateAverageAndFilledAmount(p: real, quantity: real)
      requires feeRate < 1.0
      modifies this`average, this`filledAmount, this`remainingAmount
      ensures State() == old(State()).Fill(p, quantity)
    {
      var included := quantity / (1.0 - feeRate);
      average := State().NewAverage(p, included);
      filledAmount := filledAmount + included;
      if !State().UsesTotal() {
        remainingAmount := remainingAmount - quantity;
      }
    }
  }

  ghost predicate DistinctEntities(q: seq<OrderEntity>) {
    forall i, j :: 0 <= i < j < |q| ==> q[i].id != q[j].id
  }

  ghost predicate EarliestFirst(q: seq<OrderEntity>) {
    forall i, j :: 0 <= i < j < |q| ==> q[i].expiry <= q[j].expiry
  }

  function States(q: seq<OrderEntity>): (r: seq<Order>)
    reads q
    ensures |r| == |q| && forall i :: 0 <= i < |q| ==> r[i] == q[i].State()
  {
    seq(|q|, i requires 0 <= i < |q| reads q => q[i].State())
  }

  /** A queue polled in the order of its ranking; `priority` is the map the engine's comparators consult. */
  class FastPriorityQueue {
    const ranking: Ranking
    var items: seq<OrderEntity>

    constructor (ranking: Ranking)
      ensures this.ranking == ranking && items == []
    {
      this.ranking := ranking;
      items := [];
    }

    predicate IsEmpty()
      reads this
    {
      items == []
    }

    method Add(priority: Priorities, o: OrderEntity)
      modifies this`items
      ensures States(items) == Insert(ranking, priority, old(States(items)), o.State())
      ensures Objects(items) == old(Objects(items)) + {o}
    {
      var i, q := 0, items;
      ghost var k := InsertIndex(ranking, priority, States(q), o.State());
      while i < |q| && !Precedes(ranking, priority, o.State(), q[i].State())
        invariant 0 <= i <= k <= |q|
      {
        i := i + 1;
      }
      items := q[..i] + [o] + q[i..];
      WithOne(q, i, o);
    }

    function Peek(): OrderEntity
      requires items != []
      reads this
    {
      items[0]
    }

    method Poll() returns (o: OrderEntity)
      requires items != []
      modifies this`items
      ensures o == old(items)[0] && items == old(items)[1..]
    {
      o := items[0];
      items := items[1..];
    }

    method RemoveOne(id: int)
      modifies this`items
      ensures Objects(items) <= old(Objects(items))
      ensures forall o <- old(Objects(items)) :: o.id != id ==> o in Objects(items)
      ensures old(DistinctEntities(items)) ==>
                && DistinctEntities(items)
                && ObjectIds(items) == old(ObjectIds(items)) - {id}
                && forall o <- Objects(items) :: o.id != id
      ensures old(EarliestFirst(items)) ==> EarliestFirst(items)
      ensures States(items) == Remove(old(States(items)), id)
    {
      hide DistinctEntities, EarliestFirst, ObjectIds, Objects;
      var i, q := 0, items;
      ghost var k := IndexOf(States(q), id);
      while i < |q| && q[i].id != id
        invariant 0 <= i <= |q| && i <= k <= |q|
        invariant forall j :: 0 <= j < i ==> q[j].id != id
      {
        i := i + 1;
      }
      if i < |q| {
        assert States(q)[i].id == id;
        items := q[..i] + q[i + 1..];
        WithoutOne(q, i);
      } else {
        WithoutNone(q, id);
      }
    }
  }

  function Objects(q: seq<OrderEntity>): set<OrderEntity> { set o <- q }

  function ObjectIds(q: seq<OrderEntity>): set<int> { set o <- q :: o.id }

  lemma WithOne(q: seq<OrderEntity>, k: nat, o: OrderEntity)
    requires k <= |q|
    ensures Objects(q[..k] + [o] + q[k..]) == Objects(q) + {o}
    ensures States(q[..k] + [o] + q[k..]) == States(q)[..k] + [o.State()] + States(q)[k..]
  {
    assert q == q[..k] + q[k..];
  }

  lemma WithoutNone(q: seq<OrderEntity>, id: int)
    requires forall i :: 0 <= i < |q| ==> q[i].id != id
    ensures id !in ObjectIds(q) && forall o <- Objects(q) :: o.id != id
  {
  }

  lemma WithoutOne(q: seq<OrderEntity>, k: nat)
    requires k < |q|
    ensures var r := q[..k] + q[k + 1..];
            && States(r) == States(q)[..k] + States(q)[k + 1..]
            && Objects(r) <= Objects(q)
            && (forall o <- Objects(q) :: o.id != q[k].id ==> o in Objects(r))
            && (DistinctEntities(q) ==>
                  && DistinctEntities(r)
                  && ObjectIds(r) == ObjectIds(q) - {q[k].id}
                  && forall o <- Objects(r) :: o.id != q[k].id)
            && (EarliestFirst(q) ==> EarliestFirst(r))
  {
    var r := q[..k] + q[k + 1..];
    assert q == q[..k] + [q[k]] + q[k + 1..];
    forall i | 0 <= i < |r| ensures r[i] == q[if i < k then i else i + 1] {}
  }

  /** The ids of the entities are the ids of their states. */
  lemma ObjectIdsAreIds(q: seq<OrderEntity>)
    ensures ObjectIds(q) == IdSet(States(q))
  {
    forall id ensures id in ObjectIds(q) <==> id in IdSet(States(q)) {
      IdSetIff(States(q), id);
      if HasId(States(q), id) {
        var i :| 0 <= i < |q| && States(q)[i].id == id;
        assert q[i] in q && q[i].id == id;
      }
      if id in ObjectIds(q) {
        var o :| o in q && o.id == id;
        var i :| 0 <= i < |q| && q[i] == o;
        assert States(q)[i].id == id;
      }
    }
  }
}
