/** The price chart: time windows without a trade are filled from the bar before. */
module Chart {
  import opened Options

  datatype Bar = Bar(time: int, open: real, close: real, high: real, low: real, volume: real)

  function Flat(price: real, time: int): Bar { Bar(time, price, price, price, price, 0.0) }

  predicate InWindow(b: Bar, i: int, step: int) { i - step < b.time <= i }

  /** The first row in the window ending at `i`. */
  function RowIn(rows: seq<Bar>, i: int, step: int): (r: Option<Bar>)
    ensures r.None? <==> forall b <- rows :: !InWindow(b, i, step)
    ensures r.Some? ==> r.value in rows && InWindow(r.value, i, step)
  {
    if rows == [] then None
    else if InWindow(rows[0], i, step) then Some(rows[0])
    else
      assert rows == [rows[0]] + rows[1..];
      RowIn(rows[1..], i, step)
  }

  /** The row of a window, or else a bar without volume at the last known close. */
  predicate Fills(b: Bar, row: Option<Bar>, known: real, i: int) {
    if row.Some? then b == row.value else b == Flat(known, i)
  }

  /**
   The close before a window: that of the bar before, in front of the first that of the nearest earlier trade, or 0.
   */
  function Known(bars: seq<Bar>, k: nat, nearest: Option<real>): real
    requires k <= |bars|
  {
    if k > 0 then bars[k - 1].close else if nearest.Some? then nearest.value else 0.0
  }

  /** The end of the `k`-th window. */
  function Window(start: int, step: int, k: nat): int { start + k * step }

  lemma NextWindow(start: int, step: int, k: nat)
    ensures Window(start, step, 0) == start && Window(start, step, k + 1) == Window(start, step, k) + step
  {
  }

  /** The bars as collected: one per window, in order. */
  predicate Collected(bars: seq<Bar>, rows: seq<Bar>, start: int, step: int, nearest: Option<real>) {
    forall k: nat :: k < |bars| ==> Fills(bars[k], RowIn(rows, Window(start, step, k), step), Known(bars, k, nearest),
      Window(start, step, k))
  }

  /** No row in front of it lies in the window. */
  lemma {:induction false} RowIsFirst(rows: seq<Bar>, i: int, step: int) returns (k: nat)
    requires RowIn(rows, i, step).Some?
    ensures k < |rows| && RowIn(rows, i, step) == Some(rows[k]) && InWindow(rows[k], i, step)
    ensures forall j :: 0 <= j < k ==> !InWindow(rows[j], i, step)
  {
    k := 0;
    if !InWindow(rows[0], i, step) {
      var n := RowIsFirst(rows[1..], i, step);
      k := n + 1;
      assert forall j :: 0 < j < k ==> rows[j] == rows[1..][j - 1];
    }
  }

  /** A bar with its open moved to the close before. */
  function Moved(raw: seq<Bar>, k: nat): Bar
    requires k < |raw|
  {
    if k == 0 then raw[0] else raw[k].(open := raw[k - 1].close)
  }

  /** The bars as returned. */
  predicate Joined(bars: seq<Bar>, raw: seq<Bar>) {
    |bars| == |raw| && forall k: nat :: k < |bars| ==> bars[k] == Moved(raw, k)
  }

  /** `addLostTime`: as many bars as windows of `step` begin in [start, end). */
  method AddLostTime(rows: seq<Bar>, start: int, end: int, step: int, nearest: Option<real>)
    returns (bars: seq<Bar>, ghost raw: seq<Bar>)
    requires step > 0
    ensures Window(start, step, |bars|) >= end && (bars == [] || Window(start, step, |bars| - 1) < end)
    ensures bars == [] <==> end <= start
    ensures Collected(raw, rows, start, step, nearest) && Joined(bars, raw)
  {
    hide Window, RowIn, Collected, Fills;
    NextWindow(start, step, 0);
    NoneCollected(rows, start, step, nearest);
    bars := [];
    var i := start;
    while i < end
      invariant i == Window(start, step, |bars|) && (bars == [] || Window(start, step, |bars| - 1) < end)
      invariant bars != [] ==> start < end
      invariant Collected(bars, rows, start, step, nearest)
      decreases end - i
    {
      var row := RowIn(rows, i, step);
      var bar := if row.Some? then row.value else Flat(Known(bars, |bars|, nearest), i);
      RowFills(rows, i, step, Known(bars, |bars|, nearest));
      NextWindow(start, step, |bars|);
      CollectOne(bars, bar, rows, start, step, nearest);
      bars := bars + [bar];
      i := i + step;
    }
    raw := bars;
    hide Known;
    var k := 0;
    while k < |bars| - 1
      invariant |bars| == |raw| && 0 <= k && (|bars| > 0 ==> k < |bars|)
      invariant forall j: nat :: j < |bars| ==> bars[j] == if j <= k then Moved(raw, j) else raw[j]
    {
      bars := bars[k + 1 := bars[k + 1].(open := bars[k].close)];
      k := k + 1;
    }
  }

  lemma CollectOne(bars: seq<Bar>, bar: Bar, rows: seq<Bar>, start: int, step: int, nearest: Option<real>)
    requires Collected(bars, rows, start, step, nearest)
    requires Fills(bar, RowIn(rows, Window(start, step, |bars|), step), Known(bars, |bars|, nearest),
      Window(start, step, |bars|))
    ensures Collected(bars + [bar], rows, start, step, nearest)
  {
  }

  lemma NoneCollected(rows: seq<Bar>, start: int, step: int, nearest: Option<real>)
    ensures Collected([], rows, start, step, nearest)
  {
  }

  lemma RowFills(rows: seq<Bar>, i: int, step: int, known: real)
    ensures Fills(if RowIn(rows, i, step).Some? then RowIn(rows, i, step).value else Flat(known, i),
      RowIn(rows, i, step), known, i)
  {
  }

  // ---------- What the chart shows ----------

  /** Each bar lies in its window and opens at the close before; where nothing was traded it is flat, with no volume. */
  lemma ChartIsSeamless(bars: seq<Bar>, raw: seq<Bar>, rows: seq<Bar>, start: int, step: int, nearest: Option<real>,
    k: nat)
    requires Collected(raw, rows, start, step, nearest) && Joined(bars, raw) && k < |bars| && step > 0
    ensures start + k * step - step < bars[k].time <= start + k * step
    ensures k > 0 ==> bars[k].open == bars[k - 1].close
    ensures k > 0 ==> bars[k - 1].time < bars[k].time
    ensures var row := RowIn(rows, start + k * step, step);
            if row.Some? then bars[k] == row.value.(open := bars[k].open) && (k == 0 ==> bars[k] == row.value)
            else
              && bars[k].time == start + k * step && bars[k].volume == 0.0
              && bars[k].open == bars[k].close == bars[k].high == bars[k].low
                 == (if k > 0 then bars[k - 1].close else if nearest.Some? then nearest.value else 0.0)
  {
    assert Window(start, step, k) == start + k * step;
    hide Window, RowIn;
    assert bars[k] == Moved(raw, k);
    assert Fills(raw[k], RowIn(rows, Window(start, step, k), step), Known(raw, k, nearest), Window(start, step, k));
    if k > 0 {
      assert bars[k - 1] == Moved(raw, k - 1);
      NextWindow(start, step, k - 1);
      assert Fills(raw[k - 1], RowIn(rows, Window(start, step, k - 1), step), Known(raw, k - 1, nearest),
        Window(start, step, k - 1));
    }
  }

  function TotalVolume(bars: seq<Bar>): real {
    if bars == [] then 0.0 else TotalVolume(bars[..|bars| - 1]) + bars[|bars| - 1].volume
  }

  /** Volume of the rows with a time in (low, high]. */
  function VolumeIn(rows: seq<Bar>, low: int, high: int): real {
    if rows == [] then 0.0
    else (if low < rows[0].time <= high then rows[0].volume else 0.0) + VolumeIn(rows[1..], low, high)
  }

  /** Row times are distinct multiples of the step, as the query that groups them makes them. */
  predicate Aligned(rows: seq<Bar>, step: int)
    requires step > 0
  {
    && (forall b <- rows :: b.time % step == 0)
    && forall i, j :: 0 <= i < j < |rows| ==> rows[i].time != rows[j].time
  }

  lemma OneMultiple(a: int, b: int, i: int, step: int)
    requires step > 0 && a % step == 0 && b % step == 0 && i - step < a <= i && i - step < b <= i
    ensures a == b
  {
    var x, y := a / step, b / step;
    assert a == x * step && b == y * step;
    if x < y { Apart(x, y, step); }
    if y < x { Apart(y, x, step); }
  }

  lemma {:induction false} Apart(x: int, y: int, step: int)
    requires x < y && step > 0
    ensures y * step - x * step >= step
    decreases y - x
  {
    assert y * step == (y - 1) * step + step;
    if x < y - 1 { Apart(x, y - 1, step); }
  }

  lemma {:induction false} WindowVolume(rows: seq<Bar>, i: int, step: int)
    requires step > 0 && Aligned(rows, step)
    ensures VolumeIn(rows, i - step, i) == var r := RowIn(rows, i, step); if r.Some? then r.value.volume else 0.0
    decreases |rows|
  {
    if rows != [] {
      assert forall b <- rows[1..] :: b in rows;
      assert forall j :: 0 < j < |rows| ==> rows[1..][j - 1] == rows[j];
      WindowVolume(rows[1..], i, step);
      if InWindow(rows[0], i, step) && RowIn(rows[1..], i, step).Some? {
        var b := RowIn(rows[1..], i, step).value;
        OneMultiple(rows[0].time, b.time, i, step);
        assert false;
      }
    }
  }

  lemma {:induction false} VolumeAdjoins(rows: seq<Bar>, low: int, mid: int, high: int)
    requires low <= mid <= high
    ensures VolumeIn(rows, low, high) == VolumeIn(rows, low, mid) + VolumeIn(rows, mid, high)
  {
    if rows != [] { VolumeAdjoins(rows[1..], low, mid, high); }
  }

  lemma {:induction false} NoVolume(rows: seq<Bar>, at: int)
    ensures VolumeIn(rows, at, at) == 0.0
  {
    if rows != [] { NoVolume(rows[1..], at); }
  }

  lemma {:induction false} RawVolume(raw: seq<Bar>, rows: seq<Bar>, start: int, step: int, nearest: Option<real>)
    requires step > 0 && Aligned(rows, step) && Collected(raw, rows, start, step, nearest)
    ensures TotalVolume(raw) == VolumeIn(rows, start - step, Window(start, step, |raw|) - step)
    ensures Window(start, step, |raw|) >= start
    decreases |raw|
  {
    hide Window, RowIn, VolumeIn, Aligned, Collected, InWindow;
    NextWindow(start, step, 0);
    if raw == [] {
      NoVolume(rows, start - step);
    } else {
      var last := |raw| - 1;
      CollectedPrefix(raw, rows, start, step, nearest);
      RawVolume(raw[..last], rows, start, step, nearest);
      NextWindow(start, step, last);
      WindowVolume(rows, Window(start, step, last), step);
      CollectedAt(raw, rows, start, step, nearest, last);
      VolumeAdjoins(rows, start - step, Window(start, step, last) - step, Window(start, step, last));
    }
  }

  lemma CollectedAt(raw: seq<Bar>, rows: seq<Bar>, start: int, step: int, nearest: Option<real>, k: nat)
    requires Collected(raw, rows, start, step, nearest) && k < |raw|
    ensures Fills(raw[k], RowIn(rows, Window(start, step, k), step), Known(raw, k, nearest), Window(start, step, k))
  {
  }

  lemma CollectedPrefix(raw: seq<Bar>, rows: seq<Bar>, start: int, step: int, nearest: Option<real>)
    requires Collected(raw, rows, start, step, nearest) && raw != []
    ensures Collected(raw[..|raw| - 1], rows, start, step, nearest)
  {
    hide Window, RowIn;
    var before := raw[..|raw| - 1];
    forall k: nat | k < |before|
      ensures Fills(before[k], RowIn(rows, Window(start, step, k), step), Known(before, k, nearest),
        Window(start, step, k))
    {
      assert Fills(raw[k], RowIn(rows, Window(start, step, k), step), Known(raw, k, nearest), Window(start, step, k));
    }
  }

  lemma {:induction false} JoiningKeepsVolume(bars: seq<Bar>, raw: seq<Bar>)
    requires Joined(bars, raw)
    ensures TotalVolume(bars) == TotalVolume(raw)
    decreases |raw|
  {
    if raw != [] {
      var last := |raw| - 1;
      forall k: nat | k < last ensures bars[..last][k] == Moved(raw[..last], k) {
        assert bars[k] == Moved(raw, k);
      }
      JoiningKeepsVolume(bars[..last], raw[..last]);
      assert bars[last] == Moved(raw, last);
    }
  }

  /** The chart shows the volume of all rows in the windows it covers, each once. */
  lemma ChartVolume(bars: seq<Bar>, raw: seq<Bar>, rows: seq<Bar>, start: int, step: int, nearest: Option<real>)
    requires step > 0 && Aligned(rows, step) && Collected(raw, rows, start, step, nearest) && Joined(bars, raw)
    ensures TotalVolume(bars) == VolumeIn(rows, start - step, Window(start, step, |bars|) - step)
  {
    hide Window, Collected, Joined, Aligned, TotalVolume, VolumeIn;
    RawVolume(raw, rows, start, step, nearest);
    JoiningKeepsVolume(bars, raw);
    assert |bars| == |raw| by { JoinedLength(bars, raw); }
  }

  lemma JoinedLength(bars: seq<Bar>, raw: seq<Bar>)
    requires Joined(bars, raw)
    ensures |bars| == |raw|
  {
  }
}
