/** Queues of orders kept in the engine's ranking: where an order is inserted and how one is removed. */
module Queues {
  import opened Orders
  import opened Fills

  /** The engine's three comparators; the source's maps answer `undefined < x` with false. */
  datatype Ranking = Bids | Asks | Expiries

  function RankingOf(side: Side): Ranking { if side.Buy? then Bids else Asks }

  type Priorities = map<int, int>

  predicate EarlierPriority(priority: Priorities, a: int, b: int) {
    a in priority && b in priority && priority[a] < priority[b]
  }

  predicate Precedes(r: Ranking, priority: Priorities, a: Order, b: Order) {
    match r
    case Expiries => a.expiry < b.expiry
    case _ =>
      if a.price != b.price then (if r.Bids? then a.price > b.price else a.price < b.price)
      else if a.updatedAt != b.updatedAt then a.updatedAt < b.updatedAt
      else EarlierPriority(priority, a.id, b.id)
  }

  ghost predicate Injective(priority: Priorities) {
    forall a, b :: a in priority && b in priority && a != b ==> priority[a] != priority[b]
  }

  ghost predicate Ranked(r: Ranking, priority: Priorities, q: seq<Order>) {
    forall i, j :: 0 <= i < j < |q| ==> Precedes(r, priority, q[i], q[j])
  }

  function IdSet(q: seq<Order>): set<int> { set o <- q :: o.id }

  lemma IdSetIff(q: seq<Order>, id: int)
    ensures id in IdSet(q) <==> HasId(q, id)
  {
    if HasId(q, id) {
      var i :| 0 <= i < |q| && q[i].id == id;
      assert q[i] in q;
    }
  }

  /** Among live orders, which have distinct priorities, the ranking is a strict total order. */
  lemma RankingIsStrictAndTotal(r: Ranking, priority: Priorities, a: Order, b: Order, c: Order)
    requires r != Expiries && Injective(priority)
    requires a.id in priority && b.id in priority && c.id in priority
    ensures !Precedes(r, priority, a, a)
    ensures Precedes(r, priority, a, b) ==> !Precedes(r, priority, b, a)
    ensures a.id != b.id ==> Precedes(r, priority, a, b) || Precedes(r, priority, b, a)
    ensures Precedes(r, priority, a, b) && Precedes(r, priority, b, c) ==> Precedes(r, priority, a, c)
  {
  }

  /** The position behind every order that the new one does not precede. */
  function InsertIndex(r: Ranking, priority: Priorities, q: seq<Order>, o: Order): (k: nat)
    ensures k <= |q|
    ensures forall i :: 0 <= i < k ==> !Precedes(r, priority, o, q[i])
    ensures k < |q| ==> Precedes(r, priority, o, q[k])
  {
    if q == [] || Precedes(r, priority, o, q[0]) then 0 else 1 + InsertIndex(r, priority, q[1..], o)
  }

  function Insert(r: Ranking, priority: Priorities, q: seq<Order>, o: Order): seq<Order> {
    var k := InsertIndex(r, priority, q, o);
    q[..k] + [o] + q[k..]
  }

  /** Nothing in front of the new order has a worse price or, at its price, a later update; the next has no better. */
  lemma InsertedInPlace(side: Side, priority: Priorities, q: seq<Order>, o: Order)
    ensures var k := InsertIndex(RankingOf(side), priority, q, o);
            && (forall i :: 0 <= i < k ==> NoWorse(side, q[i], o))
            && (k < |q| ==> NoWorse(side, o, q[k]))
            && Insert(RankingOf(side), priority, q, o) == q[..k] + [o] + q[k..]
  {
  }

  /** By price, and at one price by update. */
  predicate NoWorse(side: Side, a: Order, b: Order) {
    && (if side.Buy? then a.price >= b.price else a.price <= b.price)
    && (a.price == b.price ==> a.updatedAt <= b.updatedAt)
  }

  function IndexOf(q: seq<Order>, id: int): (k: nat)
    ensures k <= |q|
    ensures forall i :: 0 <= i < k ==> q[i].id != id
    ensures k < |q| <==> HasId(q, id)
    ensures k < |q| ==> q[k].id == id
  {
    if q == [] then 0
    else if q[0].id == id then 0
    else
      assert forall i :: 0 <= i < |q[1..]| ==> q[1..][i] == q[i + 1];
      1 + IndexOf(q[1..], id)
  }

  /** `removeOne` on the order's id. */
  function Remove(q: seq<Order>, id: int): seq<Order> {
    var k := IndexOf(q, id);
    if k < |q| then q[..k] + q[k + 1..] else q
  }

  lemma InsertFacts(r: Ranking, priority: Priorities, q: seq<Order>, o: Order)
    ensures var q' := Insert(r, priority, q, o);
            && (forall x :: x in q' <==> x in q || x == o)
            && IdSet(q') == IdSet(q) + {o.id}
            && (DistinctIds(q) && o.id !in IdSet(q) ==> DistinctIds(q'))
  {
    var k := InsertIndex(r, priority, q, o);
    InsertMembers(q, k, o);
    if DistinctIds(q) && o.id !in IdSet(q) {
      InsertDistinct(q, k, o);
    }
  }

  lemma InsertMembers(q: seq<Order>, k: nat, o: Order)
    requires k <= |q|
    ensures var q' := q[..k] + [o] + q[k..];
            (forall x :: x in q' <==> x in q || x == o) && IdSet(q') == IdSet(q) + {o.id}
  {
    var q' := q[..k] + [o] + q[k..];
    assert q == q[..k] + q[k..];
    assert forall x :: x in q' <==> x in q || x == o;
  }

  lemma InsertDistinct(q: seq<Order>, k: nat, o: Order)
    requires k <= |q| && DistinctIds(q) && o.id !in IdSet(q)
    ensures DistinctIds(q[..k] + [o] + q[k..])
  {
    IdSetIff(q, o.id);
    var q' := q[..k] + [o] + q[k..];
    forall i, j | 0 <= i < j < |q'| ensures q'[i].id != q'[j].id {
      assert q'[i] == if i < k then q[i] else if i == k then o else q[i - 1];
      assert q'[j] == if j < k then q[j] else if j == k then o else q[j - 1];
    }
  }

  lemma InsertKeepsRanking(r: Ranking, priority: Priorities, q: seq<Order>, o: Order)
    requires r != Expiries && Injective(priority) && Ranked(r, priority, q)
    requires o.id in priority && o.id !in IdSet(q) && IdSet(q) <= priority.Keys
    ensures Ranked(r, priority, Insert(r, priority, q, o))
  {
    var k := InsertIndex(r, priority, q, o);
    var q' := Insert(r, priority, q, o);
    forall i | 0 <= i < |q| ensures i < k ==> Precedes(r, priority, q[i], o)
      ensures i >= k ==> Precedes(r, priority, o, q[i]) {
      assert q[i].id in IdSet(q);
      RankingIsStrictAndTotal(r, priority, o, q[i], q[i]);
      if i > k { RankingIsStrictAndTotal(r, priority, o, q[k], q[i]); }
    }
    forall i, j | 0 <= i < j < |q'| ensures Precedes(r, priority, q'[i], q'[j]) {
      assert q'[i] == if i < k then q[i] else if i == k then o else q[i - 1];
      assert q'[j] == if j < k then q[j] else if j == k then o else q[j - 1];
    }
  }

  /** An order that keeps its rank goes back to the front it was taken from. */
  lemma InsertInFront(r: Ranking, priority: Priorities, q: seq<Order>, o: Order)
    requires forall x <- q :: Precedes(r, priority, o, x)
    ensures Insert(r, priority, q, o) == [o] + q
  {
  }

  lemma InsertLevels(r: Ranking, priority: Priorities, q: seq<Order>, o: Order, price: real)
    ensures RestingAt(Insert(r, priority, q, o), price)
            == RestingAt(q, price) + (if o.price == price then o.remaining else 0.0)
  {
    var k := InsertIndex(r, priority, q, o);
    assert q == q[..k] + q[k..];
    RestingAtConcat(q[..k], q[k..], price);
    RestingAtConcat(q[..k] + [o], q[k..], price);
    RestingAtConcat(q[..k], [o], price);
    assert [o][1..] == [];
    assert RestingAt([o], price) == if o.price == price then o.remaining else 0.0;
  }

  lemma RemoveFacts(q: seq<Order>, id: int)
    requires DistinctIds(q)
    ensures var q' := Remove(q, id);
            && (forall x :: x in q' <==> x in q && x.id != id)
            && IdSet(q') == IdSet(q) - {id}
            && DistinctIds(q')
            && (id !in IdSet(q) ==> q' == q)
  {
    RemoveMembers(q, id);
    IdSetIff(q, id);
    var q' := Remove(q, id);
    hide Remove;
    assert forall x :: x in q' <==> x in q && x.id != id;
  }

  lemma RemoveMembers(q: seq<Order>, id: int)
    requires DistinctIds(q)
    ensures forall x :: x in Remove(q, id) <==> x in q && x.id != id
    ensures DistinctIds(Remove(q, id))
    ensures !HasId(q, id) ==> Remove(q, id) == q
  {
    var k := IndexOf(q, id);
    var q' := Remove(q, id);
    if k < |q| {
      assert q == q[..k] + [q[k]] + q[k + 1..];
      assert forall x :: x in q <==> x in q' || x == q[k];
      forall i | 0 <= i < |q'| ensures q'[i].id != id {
        assert q'[i] == if i < k then q[i] else q[i + 1];
      }
    }
  }

  lemma RemoveKeepsRanking(r: Ranking, priority: Priorities, q: seq<Order>, id: int)
    requires Ranked(r, priority, q)
    ensures Ranked(r, priority, Remove(q, id))
  {
    var k := IndexOf(q, id);
    var q' := Remove(q, id);
    forall i, j | 0 <= i < j < |q'| ensures Precedes(r, priority, q'[i], q'[j]) {
      assert q'[i] == if k < |q| && i >= k then q[i + 1] else q[i];
      assert q'[j] == if k < |q| && j >= k then q[j + 1] else q[j];
    }
  }

  lemma RemoveLevels(q: seq<Order>, id: int, price: real)
    ensures var k := IndexOf(q, id);
            RestingAt(Remove(q, id), price)
            == RestingAt(q, price) - (if k < |q| && q[k].price == price then q[k].remaining else 0.0)
  {
    var k := IndexOf(q, id);
    if k < |q| {
      assert q == q[..k] + q[k..] && q[k..][1..] == q[k + 1..];
      RestingAtConcat(q[..k], q[k..], price);
      RestingAtConcat(q[..k], q[k + 1..], price);
    }
  }

  /** Priorities of other orders do not matter. */
  lemma RankedUnder(r: Ranking, p: Priorities, p': Priorities, q: seq<Order>)
    requires Ranked(r, p, q)
    requires forall o <- q :: o.id in p && o.id in p' && p[o.id] == p'[o.id]
    ensures Ranked(r, p', q)
  {
  }

  /** The ranking does not look at fill progress. */
  lemma RankedSameOrders(r: Ranking, p: Priorities, q: seq<Order>, q': seq<Order>)
    requires Ranked(r, p, q) && |q'| == |q| && forall i :: 0 <= i < |q| ==> q'[i].SameOrder(q[i])
    ensures Ranked(r, p, q')
  {
    forall i, j | 0 <= i < j < |q'| ensures Precedes(r, p, q'[i], q'[j]) {
      assert Precedes(r, p, q[i], q[j]);
    }
  }
}
