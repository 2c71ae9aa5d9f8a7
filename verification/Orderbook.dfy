/** The published order book: sorted price levels kept up to date event by event. */
module Orderbooks {
  import opened Decimals
  import opened Options
  import opened Orders
  import opened EngineModel
  import opened EngineDeltas

  /** Bids stand with the highest price first, asks with the lowest. */
  predicate Ahead(side: Side, p: real, q: real) { if side.Buy? then p > q else p < q }

  ghost predicate Sorted(side: Side, rows: seq<Delta>) {
    && (forall r <- rows :: r.side == side)
    && forall i, j :: 0 <= i < j < |rows| ==> Ahead(side, rows[i].price, rows[j].price)
  }

  lemma BestFirst(bids: seq<Delta>, asks: seq<Delta>)
    requires Sorted(Buy, bids) && Sorted(Sell, asks)
    ensures forall i, j :: 0 <= i < j < |bids| ==> bids[i].price > bids[j].price
    ensures forall i, j :: 0 <= i < j < |asks| ==> asks[i].price < asks[j].price
  {
  }

  /** The amount of the first row at a price. */
  function RowAt(rows: seq<Delta>, price: real): (r: Option<real>)
    ensures r.None? <==> forall i :: 0 <= i < |rows| ==> rows[i].price != price
    ensures r.Some? ==> exists i :: 0 <= i < |rows| && rows[i].price == price && rows[i].amount == r.value
  {
    if rows == [] then None
    else if rows[0].price == price then Some(rows[0].amount)
    else
      assert rows == [rows[0]] + rows[1..];
      RowAt(rows[1..], price)
  }

  lemma RowFound(side: Side, rows: seq<Delta>, i: nat)
    requires Sorted(side, rows) && i < |rows|
    ensures RowAt(rows, rows[i].price) == Some(rows[i].amount)
  {
    var j :| 0 <= j < |rows| && rows[j].price == rows[i].price && rows[j].amount == RowAt(rows, rows[i].price).value;
  }

  /** What an event does to its own level. */
  function Combined(row: Option<real>, amount: real): Option<real> {
    if row.None? then Some(amount)
    else if IsEqual(row.value + amount, 0.0) then None
    else Some(row.value + amount)
  }

  /** The whole effect of an event: its own level and no other. */
  ghost predicate Applied(rows: seq<Delta>, rows': seq<Delta>, d: Delta) {
    forall p :: RowAt(rows', p) == if p == d.price then Combined(RowAt(rows, p), d.amount) else RowAt(rows, p)
  }

  /** JavaScript's `splice(index, 0, x)`. */
  function SpliceIn(rows: seq<Delta>, index: int, x: Delta): seq<Delta> {
    var k := if index < 0 then (if |rows| + index < 0 then 0 else |rows| + index) else if index > |rows| then |rows|
      else index;
    rows[..k] + [x] + rows[k..]
  }

  /** Rows shifted about keep their levels. */
  lemma RowsMoved(side: Side, rows: seq<Delta>, rows': seq<Delta>, price: real)
    requires Sorted(side, rows) && Sorted(side, rows')
    requires forall r <- rows :: r.price == price ==> r in rows'
    requires forall r <- rows' :: r.price == price ==> r in rows
    ensures RowAt(rows', price) == RowAt(rows, price)
  {
    if RowAt(rows, price).Some? {
      var i :| 0 <= i < |rows| && rows[i].price == price && rows[i].amount == RowAt(rows, price).value;
      assert rows[i] in rows';
      var j :| 0 <= j < |rows'| && rows'[j] == rows[i];
      RowFound(side, rows', j);
    }
  }

  lemma SortedWithRow(rows: seq<Delta>, k: nat, d: Delta)
    requires Sorted(d.side, rows) && k <= |rows|
    requires forall i :: 0 <= i < k ==> Ahead(d.side, rows[i].price, d.price)
    requires k < |rows| ==> Ahead(d.side, d.price, rows[k].price)
    ensures Sorted(d.side, rows[..k] + [d] + rows[k..])
    ensures forall i :: 0 <= i < |rows| ==> rows[i].price != d.price
  {
    assert forall i :: k < i < |rows| ==> Ahead(d.side, rows[k].price, rows[i].price);
  }

  lemma RowInserted(rows: seq<Delta>, k: nat, d: Delta)
    requires Sorted(d.side, rows) && k <= |rows|
    requires forall i :: 0 <= i < k ==> Ahead(d.side, rows[i].price, d.price)
    requires k < |rows| ==> Ahead(d.side, d.price, rows[k].price)
    ensures var rows' := rows[..k] + [d] + rows[k..]; Sorted(d.side, rows') && Applied(rows, rows', d)
  {
    var rows' := rows[..k] + [d] + rows[k..];
    SortedWithRow(rows, k, d);
    RowFound(d.side, rows', k);
    assert RowAt(rows, d.price).None?;
    hide Sorted, RowAt;
    assert rows == rows[..k] + rows[k..];
    forall p | p != d.price ensures RowAt(rows', p) == RowAt(rows, p) {
      RowsMoved(d.side, rows, rows', p);
    }
  }

  lemma SortedWithoutRow(side: Side, rows: seq<Delta>, k: nat)
    requires Sorted(side, rows) && k < |rows|
    ensures var rows' := rows[..k] + rows[k + 1..];
            Sorted(side, rows') && RowAt(rows', rows[k].price).None?
  {
    var rows' := rows[..k] + rows[k + 1..];
    assert forall i :: 0 <= i < |rows'| ==> rows'[i] == if i < k then rows[i] else rows[i + 1];
  }

  lemma RowRemoved(rows: seq<Delta>, k: nat, d: Delta)
    requires Sorted(d.side, rows) && k < |rows| && rows[k].price == d.price && IsEqual(rows[k].amount + d.amount, 0.0)
    ensures var rows' := rows[..k] + rows[k + 1..]; Sorted(d.side, rows') && Applied(rows, rows', d)
  {
    var rows' := rows[..k] + rows[k + 1..];
    SortedWithoutRow(d.side, rows, k);
    RowFound(d.side, rows, k);
    hide Sorted, RowAt;
    assert rows == rows[..k] + [rows[k]] + rows[k + 1..];
    forall p | p != d.price ensures RowAt(rows', p) == RowAt(rows, p) {
      RowsMoved(d.side, rows, rows', p);
    }
  }

  lemma RowReplaced(rows: seq<Delta>, k: nat, d: Delta)
    requires Sorted(d.side, rows) && k < |rows| && rows[k].price == d.price && !IsEqual(rows[k].amount + d.amount, 0.0)
    ensures var rows' := rows[k := Delta(rows[k].side, rows[k].price, rows[k].amount + d.amount)];
            Sorted(d.side, rows') && Applied(rows, rows', d)
  {
    var row := Delta(rows[k].side, rows[k].price, rows[k].amount + d.amount);
    var rows' := rows[k := row];
    assert rows == rows[..k] + [rows[k]] + rows[k + 1..];
    assert rows' == rows[..k] + [row] + rows[k + 1..];
    assert Sorted(d.side, rows');
    RowFound(d.side, rows, k);
    RowFound(d.side, rows', k);
    hide Sorted, RowAt;
    forall p | p != d.price ensures RowAt(rows', p) == RowAt(rows, p) {
      RowsMoved(d.side, rows, rows', p);
    }
  }

  datatype OrderbookUpdate = OrderbookUpdate(data: seq<Delta>, lastUpdatedAt: Option<real>, updatedAt: real)

  class RedisOrderbookStream {
    var bids: seq<Delta>
    var asks: seq<Delta>
    var updatedAt: Option<real>
    // Every event published so far.
    ghost var published: seq<Delta>

    ghost predicate Valid()
      reads this
    {
      Sorted(Buy, bids) && Sorted(Sell, asks)
      && forall side, price :: RowAt(Rows(side), price) == LevelRow(published, side, price)
    }

    function Rows(side: Side): seq<Delta>
      reads this
    {
      if side.Buy? then bids else asks
    }

    constructor ()
      ensures Valid() && published == [] && updatedAt == None
    {
      bids, asks, updatedAt, published := [], [], None, [];
    }

    /** The index of the row at this price, or else where one belongs; -1 in an empty book. */
    method FindCurrentRow(rows: seq<Delta>, price: real, isBidRow: bool) returns (index: int, current: Option<Delta>)
      ensures rows == [] ==> index == -1
      ensures rows != [] ==> 0 <= index <= |rows|
      ensures current.Some? ==>
                index < |rows| && rows != [] && current.value == rows[index] && rows[index].price == price
      ensures var side := if isBidRow then Buy else Sell;
              current.None? ==>
                && (forall i :: 0 <= i < index ==> Ahead(side, rows[i].price, price))
                && (0 <= index < |rows| ==> Ahead(side, price, rows[index].price))
    {
      if |rows| == 0 {
        return -1, None;
      }
      for i := 0 to |rows|
        invariant forall j :: 0 <= j < i ==> Ahead(if isBidRow then Buy else Sell, rows[j].price, price)
      {
        if price == rows[i].price {
          return i, Some(rows[i]);
        }
        var isNewBidRow, isNewAskRow := isBidRow && price > rows[i].price, !isBidRow && price < rows[i].price;
        if isNewBidRow || isNewAskRow {
          return i, None;
        }
      }
      return |rows|, None;
    }

    /** The rows of one side with an event worked in. */
    method UpdateRows(rows: seq<Delta>, newRow: Delta) returns (rows': seq<Delta>)
      requires Sorted(newRow.side, rows)
      ensures Sorted(newRow.side, rows') && Applied(rows, rows', newRow)
    {
      hide Combined, RowAt, Applied, Sorted, LevelRow;
      var index, current := FindCurrentRow(rows, newRow.price, newRow.side.Buy?);
      if current.None? {
        RowInserted(rows, if index < 0 then 0 else index, newRow);
        rows' := SpliceIn(rows, index, newRow);
      } else {
        var updatedRow := Delta(current.value.side, current.value.price, current.value.amount + newRow.amount);
        if IsEqual(updatedRow.amount, 0.0) {
          RowRemoved(rows, index, newRow);
          rows' := rows[..index] + rows[index + 1..];
        } else {
          RowReplaced(rows, index, newRow);
          rows' := rows[index := updatedRow];
        }
      }
    }

    /** `publish`: rows stay sorted, the event's own level changes as `Combined` says, nothing else changes. */
    method Publish(newRow: Delta, now: real) returns (update: OrderbookUpdate)
      requires Valid()
      modifies this
      ensures Valid() && published == old(published) + [newRow]
      ensures Rows(newRow.side.Opposite()) == old(Rows(newRow.side.Opposite()))
      ensures Applied(old(Rows(newRow.side)), Rows(newRow.side), newRow)
      ensures update == OrderbookUpdate([newRow], old(updatedAt), now) && updatedAt == Some(now)
      ensures forall i, j :: 0 <= i < j < |bids| ==> bids[i].price > bids[j].price
      ensures forall i, j :: 0 <= i < j < |asks| ==> asks[i].price < asks[j].price
    {
      hide Combined, LevelRow, RowAt, Applied, Sorted;
      var rows := UpdateRows(if newRow.side.Buy? then bids else asks, newRow);
      LevelsApplied(published, Rows(newRow.side), rows, Rows(newRow.side.Opposite()), newRow);
      if newRow.side.Buy? { bids := rows; } else { asks := rows; }
      published := published + [newRow];
      update := OrderbookUpdate([newRow], updatedAt, now);
      updatedAt := Some(now);
      BestFirst(bids, asks);
    }

    /** The output thread: every queued event is published in order. */
    method Drain(queue: seq<Delta>, clock: seq<real>)
      requires Valid() && |clock| == |queue|
      modifies this
      ensures Valid() && published == old(published) + queue
    {
      hide Valid;
      for i := 0 to |queue|
        invariant Valid() && published == old(published) + queue[..i]
      {
        var _ := Publish(queue[i], clock[i]);
        assert queue[..i + 1] == queue[..i] + [queue[i]];
      }
      assert queue[..|queue|] == queue;
    }
  }

  // ---------- One level over its history ----------

  function AtLevel(d: Delta, side: Side, price: real): bool { d.side == side && d.price == price }

  /** The row a sequence of events leaves at a level. */
  function LevelRow(events: seq<Delta>, side: Side, price: real): Option<real> {
    if events == [] then None
    else
      var d, before := events[|events| - 1], LevelRow(events[..|events| - 1], side, price);
      if AtLevel(d, side, price) then Combined(before, d.amount) else before
  }

  lemma LevelsApplied(events: seq<Delta>, rows: seq<Delta>, rows': seq<Delta>, others: seq<Delta>, d: Delta)
    requires forall p :: RowAt(rows, p) == LevelRow(events, d.side, p)
    requires forall p :: RowAt(others, p) == LevelRow(events, d.side.Opposite(), p)
    requires Applied(rows, rows', d)
    ensures forall p :: RowAt(rows', p) == LevelRow(events + [d], d.side, p)
    ensures forall p :: RowAt(others, p) == LevelRow(events + [d], d.side.Opposite(), p)
  {
    assert (events + [d])[..|events|] == events;
  }

  /** How often the row at a level was removed because it was nearly zero. */
  function Removals(events: seq<Delta>, side: Side, price: real): nat {
    if events == [] then 0
    else
      var d, before := events[|events| - 1], events[..|events| - 1];
      Removals(before, side, price)
      + if AtLevel(d, side, price) && LevelRow(before, side, price).Some?
        && LevelRow(events, side, price).None? then 1 else 0
  }

  function Amount(row: Option<real>): real { if row.None? then 0.0 else row.value }

  /** A level differs from the true sum of its events by at most EPSILON for every time its row was removed. */
  lemma {:induction false} DriftIsBounded(events: seq<Delta>, side: Side, price: real)
    ensures Abs(Amount(LevelRow(events, side, price)) - Level(events, side, price))
            <= EPSILON * Removals(events, side, price) as real
  {
    if events != [] {
      var before, d := events[..|events| - 1], events[|events| - 1];
      DriftIsBounded(before, side, price);
      assert events == before + [d];
      LevelAppend(before, d, side, price);
    }
  }

  // ---------- When the level is exact ----------

  /** The row shows the sum, and there is no row exactly where the sum is zero. */
  predicate Exact(events: seq<Delta>, side: Side, price: real) {
    LevelRow(events, side, price) == var sum := Level(events, side, price); if sum == 0.0 then None else Some(sum)
  }

  /** An event starts an empty level with something, or leaves a level at zero or at least EPSILON away from it. */
  predicate Clean(sum: real, amount: real) {
    if sum == 0.0 then amount != 0.0 else sum + amount == 0.0 || Abs(sum + amount) >= EPSILON
  }

  ghost predicate AllClean(events: seq<Delta>, side: Side, price: real) {
    forall n :: 0 <= n < |events| && AtLevel(events[n], side, price) ==>
      Clean(Level(events[..n], side, price), events[n].amount)
  }

  /** From an exact level, an event leads to an exact level exactly when it is clean. */
  lemma ExactStepIff(events: seq<Delta>, d: Delta, side: Side, price: real)
    requires Exact(events, side, price)
    ensures Exact(events + [d], side, price)
      <==> (AtLevel(d, side, price) ==> Clean(Level(events, side, price), d.amount))
  {
    LevelAppend(events, d, side, price);
    assert (events + [d])[..|events|] == events;
  }

  /** The published level is exact after every prefix of the events exactly when each event at it is clean. */
  lemma {:induction false} AlwaysExactIff(events: seq<Delta>, side: Side, price: real)
    ensures (forall n :: 0 <= n <= |events| ==> Exact(events[..n], side, price)) <==> AllClean(events, side, price)
  {
    if events == [] {
      assert events[..0] == [];
    } else {
      var last := |events| - 1;
      var before := events[..last];
      AlwaysExactIff(before, side, price);
      assert events == before + [events[last]];
      assert events[..|events|] == events;
      assert forall n :: 0 <= n <= last ==> events[..n] == before[..n];
      if Exact(before, side, price) {
        ExactStepIff(before, events[last], side, price);
      }
      assert before[..last] == before;
      CleanPrefix(events, side, price);
    }
  }

  lemma CleanPrefix(events: seq<Delta>, side: Side, price: real)
    requires events != []
    ensures var last := |events| - 1;
            AllClean(events, side, price) <==>
            && AllClean(events[..last], side, price)
            && (AtLevel(events[last], side, price) ==> Clean(Level(events[..last], side, price), events[last].amount))
  {
    var last := |events| - 1;
    assert forall n :: 0 <= n < last ==> events[..last][..n] == events[..n] && events[..last][n] == events[n];
  }
}
