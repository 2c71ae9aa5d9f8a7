/** The fees collected per time bar, by one pass over the trades with a moving index. */
module FeeBars {
  import opened Options

  /** A trade's fee value and its time in milliseconds. */
  datatype FeeTrade = FeeTrade(timestamp: int, value: real)

  datatype FeeBar = FeeBar(value: real, timestamp: int)

  predicate SortedByTime(trades: seq<FeeTrade>) {
    forall i, j :: 0 <= i < j < |trades| ==> trades[i].timestamp <= trades[j].timestamp
  }

  predicate NonDecreasing(times: seq<int>) {
    forall i, j :: 0 <= i < j < |times| ==> times[i] <= times[j]
  }

  /** The plain sum of the fees with a time in [start, end). */
  function FeesIn(trades: seq<FeeTrade>, start: int, end: int): real {
    if trades == [] then 0.0
    else
      var last := trades[|trades| - 1];
      FeesIn(trades[..|trades| - 1], start, end) + if start <= last.timestamp < end then last.value else 0.0
  }

  lemma {:induction false} FeesConcat(a: seq<FeeTrade>, b: seq<FeeTrade>, start: int, end: int)
    ensures FeesIn(a + b, start, end) == FeesIn(a, start, end) + FeesIn(b, start, end)
  {
    if b == [] {
      assert a + b == a;
    } else {
      var last := |b| - 1;
      assert (a + b)[..|a + b| - 1] == a + b[..last];
      FeesConcat(a, b[..last], start, end);
    }
  }

  lemma {:induction false} NoneIn(trades: seq<FeeTrade>, start: int, end: int)
    requires forall t <- trades :: !(start <= t.timestamp < end)
    ensures FeesIn(trades, start, end) == 0.0
  {
    if trades != [] {
      assert trades[|trades| - 1] in trades;
      NoneIn(trades[..|trades| - 1], start, end);
    }
  }

  /** Adjoining ranges add up. */
  lemma {:induction false} RangesAdjoin(trades: seq<FeeTrade>, start: int, mid: int, end: int)
    requires start <= mid <= end
    ensures FeesIn(trades, start, end) == FeesIn(trades, start, mid) + FeesIn(trades, mid, end)
  {
    if trades != [] { RangesAdjoin(trades[..|trades| - 1], start, mid, end); }
  }

  lemma OneMore(trades: seq<FeeTrade>, from: nat, index: nat, start: int, end: int)
    requires from <= index < |trades|
    ensures FeesIn(trades[from..index + 1], start, end)
            == FeesIn(trades[from..index], start, end)
               + (if start <= trades[index].timestamp < end then trades[index].value else 0.0)
  {
    assert trades[from..index + 1][..index - from] == trades[from..index];
  }

  lemma LaterOnes(trades: seq<FeeTrade>, index: nat, end: int)
    requires SortedByTime(trades) && index <= |trades| && (index < |trades| ==> trades[index].timestamp >= end)
    ensures forall i :: index <= i < |trades| ==> trades[i].timestamp >= end
  {
    assert forall i :: index < i < |trades| ==> trades[index].timestamp <= trades[i].timestamp;
  }

  /** `getCollectedFeeInRange`: everything up to the index lies before `end`, everything behind it does not. */
  method GetCollectedFeeInRange(startTime: int, endTime: int, trades: seq<FeeTrade>, startIndex: nat)
    returns (value: real, index: nat)
    requires startTime <= endTime && SortedByTime(trades) && startIndex <= |trades|
    ensures startIndex <= index <= |trades|
    ensures value == FeesIn(trades[startIndex..], startTime, endTime)
    ensures forall i :: startIndex <= i < index ==> trades[i].timestamp < endTime
    ensures forall i :: index <= i < |trades| ==> trades[i].timestamp >= endTime
  {
    hide FeesIn, SortedByTime;
    NoneIn([], startTime, endTime);
    value, index := 0.0, startIndex;
    assert trades[startIndex..startIndex] == [];
    while index < |trades|
      invariant startIndex <= index <= |trades|
      invariant value == FeesIn(trades[startIndex..index], startTime, endTime)
      invariant forall i :: startIndex <= i < index ==> trades[i].timestamp < endTime
    {
      var trade := trades[index];
      OneMore(trades, startIndex, index, startTime, endTime);
      if trade.timestamp < startTime {
        index := index + 1;
      } else if trade.timestamp < endTime {
        value := value + trade.value;
        index := index + 1;
      } else {
        break;
      }
    }
    LaterOnes(trades, index, endTime);
    NoneIn(trades[index..], startTime, endTime);
    assert trades[startIndex..] == trades[startIndex..index] + trades[index..];
    FeesConcat(trades[startIndex..index], trades[index..], startTime, endTime);
  }

  /** The boundaries from start to end, `interval` apart. */
  function Boundaries(startTime: int, endTime: int, interval: int): seq<int>
    requires interval > 0
    decreases endTime - startTime
  {
    if startTime > endTime then [] else [startTime] + Boundaries(startTime + interval, endTime, interval)
  }

  /** They begin at the start, stay within the span, and leave less than an interval of it uncovered. */
  lemma {:induction false} BoundariesFacts(startTime: int, endTime: int, interval: int)
    requires interval > 0
    ensures var times := Boundaries(startTime, endTime, interval);
            && (forall t <- times :: startTime <= t <= endTime)
            && (times == [] <==> endTime < startTime)
            && (times != [] ==> times[0] == startTime && times[|times| - 1] + interval > endTime)
    decreases endTime - startTime
  {
    if startTime <= endTime {
      var rest := Boundaries(startTime + interval, endTime, interval);
      BoundariesFacts(startTime + interval, endTime, interval);
      assert rest != [] ==> ([startTime] + rest)[|rest|] == rest[|rest| - 1];
    }
  }

  /** And each is an interval after the one before. */
  lemma {:induction false} BoundariesSpaced(startTime: int, endTime: int, interval: int)
    requires interval > 0
    ensures var times := Boundaries(startTime, endTime, interval);
            forall i :: 0 < i < |times| ==> times[i] == times[i - 1] + interval
    ensures NonDecreasing(Boundaries(startTime, endTime, interval))
    decreases endTime - startTime
  {
    BoundariesFacts(startTime, endTime, interval);
    if startTime <= endTime {
      var rest := Boundaries(startTime + interval, endTime, interval);
      BoundariesFacts(startTime + interval, endTime, interval);
      BoundariesSpaced(startTime + interval, endTime, interval);
      hide Boundaries;
      var times := [startTime] + rest;
      forall i | 0 < i < |times| ensures times[i] == times[i - 1] + interval {
        assert times[i] == rest[i - 1] && (i > 1 ==> times[i - 1] == rest[i - 2]);
      }
    }
  }

  /** The default boundaries of `getCollectedFees`. */
  method Timestamps(startTime: int, endTime: int, interval: int) returns (times: seq<int>)
    requires interval > 0
    ensures times == Boundaries(startTime, endTime, interval)
  {
    times := [];
    var i := startTime;
    while i <= endTime
      invariant times + Boundaries(i, endTime, interval) == Boundaries(startTime, endTime, interval)
      decreases endTime - i
    {
      assert times + ([i] + Boundaries(i + interval, endTime, interval))
          == times + [i] + Boundaries(i + interval, endTime, interval);
      times := times + [i];
      i := i + interval;
    }
  }

  /** The boundaries asked for, or else the default ones. */
  function BoundariesOf(given: Option<seq<int>>, startTime: int, endTime: int, interval: int): seq<int>
    requires given.None? ==> interval > 0
  {
    if given.Some? then given.value else Boundaries(startTime, endTime, interval)
  }

  /** The bars of `getCollectedFees`: each is the plain sum over its own range. */
  method GetCollectedFees(trades: seq<FeeTrade>, given: Option<seq<int>>, startTime: int, endTime: int, interval: int)
    returns (bars: seq<FeeBar>)
    requires SortedByTime(trades)
    requires if given.Some? then NonDecreasing(given.value) else interval > 0
    ensures var times := BoundariesOf(given, startTime, endTime, interval);
            && |bars| == (if times == [] then 0 else |times| - 1)
            && forall i :: 0 <= i < |bars| ==> bars[i] == FeeBar(FeesIn(trades, times[i], times[i + 1]), times[i])
  {
    var timestamps;
    if given.Some? {
      timestamps := given.value;
    } else {
      BoundariesSpaced(startTime, endTime, interval);
      timestamps := Timestamps(startTime, endTime, interval);
    }
    hide FeesIn, SortedByTime, Boundaries, NonDecreasing;
    bars := Bars(trades, timestamps);
  }

  /** The loop over the boundaries. */
  method Bars(trades: seq<FeeTrade>, timestamps: seq<int>) returns (bars: seq<FeeBar>)
    requires SortedByTime(trades) && NonDecreasing(timestamps)
    ensures |bars| == if timestamps == [] then 0 else |timestamps| - 1
    ensures forall i :: 0 <= i < |bars| ==>
      bars[i] == FeeBar(FeesIn(trades, timestamps[i], timestamps[i + 1]), timestamps[i])
  {
    hide FeesIn, SortedByTime;
    bars := [];
    var tradeIndex, i := 0, 0;
    while i < |timestamps| - 1
      invariant 0 <= i && (timestamps == [] ==> i == 0) && (timestamps != [] ==> i <= |timestamps| - 1)
      invariant 0 <= tradeIndex <= |trades| && |bars| == i
      invariant i > 0 ==> forall k :: 0 <= k < tradeIndex ==> trades[k].timestamp < timestamps[i]
      invariant i == 0 ==> tradeIndex == 0
      invariant forall k :: 0 <= k < i ==>
        bars[k] == FeeBar(FeesIn(trades, timestamps[k], timestamps[k + 1]), timestamps[k])
    {
      var start, end := timestamps[i], timestamps[i + 1];
      var value, index := GetCollectedFeeInRange(start, end, trades, tradeIndex);
      NoneIn(trades[..tradeIndex], start, end);
      assert trades == trades[..tradeIndex] + trades[tradeIndex..];
      FeesConcat(trades[..tradeIndex], trades[tradeIndex..], start, end);
      bars := bars + [FeeBar(value, start)];
      tradeIndex, i := index, i + 1;
    }
  }

  function BarTotal(bars: seq<FeeBar>): real {
    if bars == [] then 0.0 else BarTotal(bars[..|bars| - 1]) + bars[|bars| - 1].value
  }

  /** Together the bars hold the fees of the whole time span, each trade once. */
  lemma {:induction false} BarsTotal(trades: seq<FeeTrade>, timestamps: seq<int>, bars: seq<FeeBar>)
    requires NonDecreasing(timestamps) && timestamps != [] && |bars| == |timestamps| - 1
    requires forall i :: 0 <= i < |bars| ==> bars[i].value == FeesIn(trades, timestamps[i], timestamps[i + 1])
    ensures BarTotal(bars) == FeesIn(trades, timestamps[0], timestamps[|timestamps| - 1])
    decreases |bars|
  {
    var n := |bars|;
    if n == 0 {
      NoneIn(trades, timestamps[0], timestamps[0]);
    } else {
      BarsTotal(trades, timestamps[..n], bars[..n - 1]);
      RangesAdjoin(trades, timestamps[0], timestamps[n - 1], timestamps[n]);
    }
  }
}
