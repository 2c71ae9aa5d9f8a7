/** Ticker data and what it has to say about the trades so far. */
module Tickers {
  import opened Options

  /** A trading method: the bit mask of the venues it covers. */
  datatype Venue = Venue(stellar: bool, bsc: bool, pool: bool) {
    /** `(this & other) > 0`. */
    predicate Meets(other: Venue) { (stellar && other.stellar) || (bsc && other.bsc) || (pool && other.pool) }
  }

  const STELLAR := Venue(true, false, false)
  const BSC := Venue(false, true, false)
  const POOL := Venue(false, false, true)
  const COMBINED := Venue(true, true, false)

  // Seconds.
  const TIME_TO_UPDATE_CACHE: int := 86400
  const TIME_TO_LIVE_TRADE: int := 129600

  /** `time` is `updated_at` in whole seconds; a negative id marks an empty trade of the engine's own. */
  datatype Trade = Trade(id: int, price: real, filledAmount: real, venue: Venue, time: int) {
    predicate WellFormed() { id < 0 ==> price == filledAmount == 0.0 }

    function QuoteAmount(): real { price * filledAmount }
  }

  type Counts = map<Venue, nat>

  datatype TickerData = TickerData(
    volume: real, quoteVolume: real, price: real, time: int,
    hasNewTrades: bool, lastTradingMethod: Venue, tradeCounts: Counts)

  /** The price and method shown before the first trade. */
  datatype First = First(price: real, venue: Venue)

  function CountOf(counts: Counts, venue: Venue): nat { if venue in counts then counts[venue] else 0 }

  /** `getNewTradeCounts`. */
  function NewTradeCounts(counts: Counts, trade: Trade): Counts {
    if trade.id < 0 then counts else counts[trade.venue := CountOf(counts, trade.venue) + 1]
  }

  // ---------- The reference: sums and latest trade over a list in order of arrival ----------

  function Volume(trades: seq<Trade>, t: int): real {
    if trades == [] then 0.0
    else
      var x := trades[|trades| - 1];
      Volume(trades[..|trades| - 1], t) + if x.time <= t then x.filledAmount else 0.0
  }

  function QuoteVolume(trades: seq<Trade>, t: int): real {
    if trades == [] then 0.0
    else
      var x := trades[|trades| - 1];
      QuoteVolume(trades[..|trades| - 1], t) + if x.time <= t then x.price * x.filledAmount else 0.0
  }

  function TradeCounts(trades: seq<Trade>, t: int): Counts {
    if trades == [] then map[]
    else
      var x, before := trades[|trades| - 1], TradeCounts(trades[..|trades| - 1], t);
      if x.time <= t then NewTradeCounts(before, x) else before
  }

  ghost predicate TradedAt(trades: seq<Trade>, t: int) { exists x <- trades :: x.time == t }

  /** The latest-timed trade at or before `t`; among equals the last to arrive. */
  function Latest(trades: seq<Trade>, t: int): Option<Trade> {
    if trades == [] then None
    else
      var x, before := trades[|trades| - 1], Latest(trades[..|trades| - 1], t);
      if x.time <= t && (before.None? || before.value.time <= x.time) then Some(x) else before
  }

  ghost function Summary(trades: seq<Trade>, first: First, t: int): TickerData {
    var latest := Latest(trades, t);
    TickerData(
      Volume(trades, t), QuoteVolume(trades, t),
      if latest.None? then first.price else latest.value.price, t,
      TradedAt(trades, t),
      if latest.None? then first.venue else latest.value.venue,
      TradeCounts(trades, t))
  }

  lemma Appended(trades: seq<Trade>, x: Trade, t: int)
    ensures Volume(trades + [x], t) == Volume(trades, t) + (if x.time <= t then x.filledAmount else 0.0)
    ensures QuoteVolume(trades + [x], t)
            == QuoteVolume(trades, t) + (if x.time <= t then x.price * x.filledAmount else 0.0)
    ensures TradeCounts(trades + [x], t)
            == if x.time <= t then NewTradeCounts(TradeCounts(trades, t), x) else TradeCounts(trades, t)
    ensures Latest(trades + [x], t)
            == if x.time <= t && (Latest(trades, t).None? || Latest(trades, t).value.time <= x.time) then Some(x)
               else Latest(trades, t)
    ensures TradedAt(trades + [x], t) <==> TradedAt(trades, t) || x.time == t
  {
    assert (trades + [x])[..|trades|] == trades;
    assert forall y :: y in trades + [x] <==> y in trades || y == x;
  }

  /** Position `k` holds the trade that is later than all before it and not overtaken by any behind it. */
  ghost predicate IsLatest(trades: seq<Trade>, t: int, k: nat)
    requires k < |trades|
  {
    && trades[k].time <= t
    && (forall i :: 0 <= i < |trades| && trades[i].time <= t ==> trades[i].time <= trades[k].time)
    && (forall i :: k < i < |trades| ==> trades[i].time != trades[k].time)
  }

  lemma {:induction false} NoneLatest(trades: seq<Trade>, t: int)
    ensures Latest(trades, t).None? <==> forall x <- trades :: x.time > t
  {
    if trades != [] {
      var before, x := trades[..|trades| - 1], trades[|trades| - 1];
      NoneLatest(before, t);
      assert forall y :: y in trades <==> y in before || y == x by { assert trades == before + [x]; }
    }
  }

  lemma {:induction false} LatestPosition(trades: seq<Trade>, t: int) returns (k: nat)
    requires Latest(trades, t).Some?
    ensures k < |trades| && IsLatest(trades, t, k) && trades[k] == Latest(trades, t).value
  {
    var last := |trades| - 1;
    var before, x := trades[..last], trades[last];
    var latest := Latest(before, t);
    if latest.Some? { k := LatestPosition(before, t); } else { NoneLatest(before, t); }
    assert forall i :: 0 <= i < last ==> trades[i] == before[i] && before[i] in before;
    if x.time <= t && (latest.None? || latest.value.time <= x.time) {
      k := last;
    }
  }

  /** The fold finds the latest trade by position, whenever there is one. */
  lemma LatestIsLatest(trades: seq<Trade>, t: int)
    ensures Latest(trades, t).None? <==> forall x <- trades :: x.time > t
    ensures Latest(trades, t).Some? ==>
      exists k :: 0 <= k < |trades| && IsLatest(trades, t, k) && trades[k] == Latest(trades, t).value
  {
    NoneLatest(trades, t);
    if Latest(trades, t).Some? { var _ := LatestPosition(trades, t); }
  }

  /** How many trades of a method there are at or before `t`. */
  function Count(trades: seq<Trade>, t: int, venue: Venue): nat {
    if trades == [] then 0
    else
      var x := trades[|trades| - 1];
      Count(trades[..|trades| - 1], t, venue) + if x.time <= t && x.venue == venue then 1 else 0
  }

  predicate AllReal(trades: seq<Trade>) { forall x <- trades :: x.id >= 0 }

  lemma {:induction false} CountsCount(trades: seq<Trade>, t: int, venue: Venue)
    requires AllReal(trades)
    ensures CountOf(TradeCounts(trades, t), venue) == Count(trades, t, venue)
  {
    if trades != [] {
      var before, x := trades[..|trades| - 1], trades[|trades| - 1];
      assert x in trades;
      CountsCount(before, t, venue);
      assert trades == before + [x];
      Appended(before, x, t);
    }
  }

  // ---------- Beyond the last trade ----------

  predicate AllUpTo(trades: seq<Trade>, t: int) { forall x <- trades :: x.time <= t }

  /** After the last trade nothing changes any more. */
  lemma {:induction false} Beyond(trades: seq<Trade>, t: int, u: int)
    requires AllUpTo(trades, t) && t <= u
    ensures Volume(trades, u) == Volume(trades, t) && QuoteVolume(trades, u) == QuoteVolume(trades, t)
    ensures TradeCounts(trades, u) == TradeCounts(trades, t) && Latest(trades, u) == Latest(trades, t)
    ensures u > t ==> !TradedAt(trades, u)
  {
    if trades != [] {
      assert trades[|trades| - 1] in trades;
      Beyond(trades[..|trades| - 1], t, u);
    }
  }

  /** `addMissingTickerData`'s filler. */
  lemma FillerSummary(trades: seq<Trade>, first: First, t: int, u: int)
    requires AllUpTo(trades, t) && t < u
    ensures Summary(trades, first, u) == Summary(trades, first, t).(time := u, hasNewTrades := false)
  {
    Beyond(trades, t, u);
  }

  /** A trade at or behind every other one's time, added at its own second. */
  lemma NewestSummary(trades: seq<Trade>, first: First, x: Trade)
    requires AllUpTo(trades, x.time) && x.id >= 0
    ensures var before := Summary(trades, first, x.time);
            Summary(trades + [x], first, x.time)
            == TickerData(before.volume + x.filledAmount, before.quoteVolume + x.QuoteAmount(), x.price, x.time,
                          true, x.venue, NewTradeCounts(before.tradeCounts, x))
  {
    Appended(trades, x, x.time);
    LatestIsLatest(trades, x.time);
  }

  /** A late trade's effect on a second from its own onwards. */
  lemma LateSummary(trades: seq<Trade>, first: First, x: Trade, t: int)
    requires x.time <= t
    ensures var before, overtaken := Summary(trades, first, t), TradedBetween(trades, x.time, t);
            Summary(trades + [x], first, t)
            == TickerData(before.volume + x.filledAmount, before.quoteVolume + x.QuoteAmount(),
                          if overtaken then before.price else x.price, t,
                          before.hasNewTrades || t == x.time,
                          if overtaken then before.lastTradingMethod else x.venue,
                          if x.id < 0 then before.tradeCounts else NewTradeCounts(before.tradeCounts, x))
  {
    Appended(trades, x, t);
    OvertakenIff(trades, x.time, t);
  }

  /** A trade later than `s` and no later than `t`. */
  ghost predicate TradedBetween(trades: seq<Trade>, s: int, t: int) { exists x <- trades :: s < x.time <= t }

  lemma OvertakenIff(trades: seq<Trade>, s: int, t: int)
    ensures TradedBetween(trades, s, t) <==> Latest(trades, t).Some? && Latest(trades, t).value.time > s
  {
    NoneLatest(trades, t);
    if Latest(trades, t).Some? {
      var k := LatestPosition(trades, t);
      assert trades[k] in trades;
    }
  }

  lemma EarlierUnchanged(trades: seq<Trade>, first: First, x: Trade, t: int)
    requires t < x.time
    ensures Summary(trades + [x], first, t) == Summary(trades, first, t)
  {
    Appended(trades, x, t);
  }

  // ---------- Order of arrival ----------

  function Without(trades: seq<Trade>, i: nat): seq<Trade>
    requires i < |trades|
  {
    trades[..i] + trades[i + 1..]
  }

  /** What a trade adds to the quote volume. */
  function Worth(x: Trade, t: int): real { if x.time <= t then x.price * x.filledAmount else 0.0 }

  lemma QuoteLast(trades: seq<Trade>, t: int)
    requires trades != []
    ensures var last := |trades| - 1; QuoteVolume(trades, t) == QuoteVolume(trades[..last], t) + Worth(trades[last], t)
  {
  }

  lemma {:induction false} QuoteTakenOut(trades: seq<Trade>, i: nat, t: int)
    requires i < |trades|
    ensures QuoteVolume(trades, t) == QuoteVolume(Without(trades, i), t) + Worth(trades[i], t)
    decreases |trades|
  {
    hide QuoteVolume, Worth;
    var last := |trades| - 1;
    var before, x := trades[..last], trades[last];
    QuoteLast(trades, t);
    if i == last {
      assert Without(trades, i) == before;
    } else {
      QuoteTakenOut(before, i, t);
      var rest := Without(before, i);
      assert Without(trades, i) == rest + [x] && (rest + [x])[..last - 1] == rest;
      QuoteLast(rest + [x], t);
    }
  }

  lemma {:induction false} TakenOut(trades: seq<Trade>, i: nat, t: int, venue: Venue)
    requires i < |trades|
    ensures Volume(trades, t) == Volume(Without(trades, i), t)
      + (if trades[i].time <= t then trades[i].filledAmount else 0.0)
    ensures QuoteVolume(trades, t) == QuoteVolume(Without(trades, i), t) + Worth(trades[i], t)
    ensures Count(trades, t, venue)
            == Count(Without(trades, i), t, venue) + (if trades[i].time <= t && trades[i].venue == venue then 1 else 0)
    decreases |trades|
  {
    hide QuoteVolume, Worth;
    QuoteTakenOut(trades, i, t);
    var last := |trades| - 1;
    var before, x := trades[..last], trades[last];
    if i == last {
      assert Without(trades, i) == before;
    } else {
      TakenOut(before, i, t, venue);
      var rest := Without(before, i);
      assert Without(trades, i) == rest + [x];
      assert (rest + [x])[..last - 1] == rest;
    }
  }

  lemma WithoutMultiset(trades: seq<Trade>, i: nat)
    requires i < |trades|
    ensures multiset(Without(trades, i)) == multiset(trades) - multiset{trades[i]}
  {
    assert trades == trades[..i] + [trades[i]] + trades[i + 1..];
  }

  /** Sums and counts do not depend on the order of arrival. */
  lemma {:induction false} OrderIndependent(a: seq<Trade>, b: seq<Trade>, t: int, venue: Venue)
    requires multiset(a) == multiset(b)
    ensures Volume(a, t) == Volume(b, t) && QuoteVolume(a, t) == QuoteVolume(b, t)
      && Count(a, t, venue) == Count(b, t, venue)
    decreases |a|
  {
    if a == [] {
      assert |multiset(b)| == 0;
    } else {
      var last := |a| - 1;
      var x := a[last];
      assert Without(a, last) == a[..last];
      WithoutMultiset(a, last);
      assert x in multiset(b);
      var i :| 0 <= i < |b| && b[i] == x;
      WithoutMultiset(b, i);
      hide Volume, QuoteVolume, Count, Worth;
      OrderIndependent(Without(a, last), Without(b, i), t, venue);
      TakenOut(a, last, t, venue);
      TakenOut(b, i, t, venue);
    }
  }

  // ---------- One method or several ----------

  /** The trades the series of a method takes. */
  function Matching(trades: seq<Trade>, venue: Venue): seq<Trade> {
    if trades == [] then []
    else
      var x, before := trades[|trades| - 1], Matching(trades[..|trades| - 1], venue);
      if x.venue.Meets(venue) then before + [x] else before
  }

  /** A venue's own series takes that venue's trades only; the combined one takes those of Stellar and BSC. */
  lemma {:induction false} VenueTakes(trades: seq<Trade>, venue: Venue)
    requires venue in {STELLAR, BSC, POOL, COMBINED} && forall x <- trades :: x.venue in {STELLAR, BSC, POOL}
    ensures forall x :: x in Matching(trades, venue) <==>
              x in trades && (x.venue == venue || (venue == COMBINED && x.venue in {STELLAR, BSC}))
    ensures multiset(Matching(trades, venue)) <= multiset(trades)
  {
    if trades != [] {
      var n := |trades| - 1;
      assert trades == trades[..n] + [trades[n]] && trades[n] in trades;
      VenueTakes(trades[..n], venue);
      assert trades[n].venue.Meets(venue)
        <==> trades[n].venue == venue || (venue == COMBINED && trades[n].venue in {STELLAR, BSC});
    }
  }

  /** The combined series is the sum of the Stellar and the BSC series. */
  lemma {:induction false} CombinedIsSum(trades: seq<Trade>, t: int, venue: Venue)
    requires forall x <- trades :: x.venue in {STELLAR, BSC, POOL}
    ensures Volume(Matching(trades, COMBINED), t) == Volume(Matching(trades, STELLAR), t)
      + Volume(Matching(trades, BSC), t)
    ensures QuoteVolume(Matching(trades, COMBINED), t)
            == QuoteVolume(Matching(trades, STELLAR), t) + QuoteVolume(Matching(trades, BSC), t)
    ensures Count(Matching(trades, COMBINED), t, venue)
            == Count(Matching(trades, STELLAR), t, venue) + Count(Matching(trades, BSC), t, venue)
  {
    if trades != [] {
      var before, x := trades[..|trades| - 1], trades[|trades| - 1];
      assert x in trades;
      CombinedIsSum(before, t, venue);
      MatchingLast(before, x, COMBINED, t, venue);
      MatchingLast(before, x, STELLAR, t, venue);
      MatchingLast(before, x, BSC, t, venue);
      assert trades == before + [x];
    }
  }

  lemma MatchingLast(trades: seq<Trade>, x: Trade, venue: Venue, t: int, counted: Venue)
    ensures var takes, m, m' := x.venue.Meets(venue), Matching(trades, venue), Matching(trades + [x], venue);
            && Volume(m', t) == Volume(m, t) + (if takes && x.time <= t then x.filledAmount else 0.0)
            && QuoteVolume(m', t) == QuoteVolume(m, t)
              + (if takes && x.time <= t then x.price * x.filledAmount else 0.0)
            && Count(m', t, counted) == Count(m, t, counted)
              + (if takes && x.time <= t && x.venue == counted then 1 else 0)
  {
    assert (trades + [x])[..|trades|] == trades;
    var m := Matching(trades, venue);
    assert (m + [x])[..|m|] == m;
  }

  // ---------- The last 24 hours ----------

  /** Volume of the trades later than `s`. */
  function VolumeAfter(trades: seq<Trade>, s: int): real {
    if trades == [] then 0.0
    else
      var x := trades[|trades| - 1];
      VolumeAfter(trades[..|trades| - 1], s) + if s < x.time then x.filledAmount else 0.0
  }

  lemma {:induction false} VolumeSplits(trades: seq<Trade>, s: int, t: int)
    requires AllUpTo(trades, t) && s <= t
    ensures Volume(trades, t) == Volume(trades, s) + VolumeAfter(trades, s)
  {
    if trades != [] {
      assert trades[|trades| - 1] in trades;
      VolumeSplits(trades[..|trades| - 1], s, t);
    }
  }

  lemma {:induction false} CountSplits(trades: seq<Trade>, s: int, t: int, venue: Venue)
    requires AllUpTo(trades, t) && s <= t
    ensures Count(trades, t, venue) >= Count(trades, s, venue)
    ensures Count(trades, t, venue) > Count(trades, s, venue) <==> exists x <- trades :: s < x.time && x.venue == venue
  {
    if trades != [] {
      var last := |trades| - 1;
      assert trades == trades[..last] + [trades[last]];
      assert forall x <- trades :: x in trades[..last] || x == trades[last];
      CountSplits(trades[..last], s, t, venue);
    }
  }
}
