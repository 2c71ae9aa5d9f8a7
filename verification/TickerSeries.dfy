/** The ticker cache, what one update does to it, and the series of summaries that updates keep in it. */
module TickerSeries {
  import opened Options
  import opened Tickers

  datatype Key = Last(venue: Venue) | At(venue: Venue, second: int)

  datatype Entry = Entry(data: TickerData, writtenAt: real)

  type CacheMap = map<Key, Entry>

  /** An entry is served until its time to live is over. */
  predicate Fresh(e: Entry, now: real) { now < e.writtenAt + TIME_TO_LIVE_TRADE as real }

  function Lookup(cache: CacheMap, key: Key, now: real): Option<TickerData> {
    if key in cache && Fresh(cache[key], now) then Some(cache[key].data) else None
  }

  predicate Served(cache: CacheMap, key: Key, now: real) { Lookup(cache, key, now).Some? }

  // ---------- What `updateTickerData` does to one method's entries, whatever the cache holds ----------

  ghost predicate SameAt(c: CacheMap, c': CacheMap, k: Key) { (k in c <==> k in c') && (k in c ==> c'[k] == c[k]) }

  ghost predicate SameFor(c: CacheMap, c': CacheMap, v: Venue) { forall k: Key | k.venue == v :: SameAt(c, c', k) }

  /** Only the given method's entries differ. */
  ghost predicate OnlyFor(c: CacheMap, c': CacheMap, v: Venue) { forall k: Key | k.venue != v :: SameAt(c, c', k) }

  ghost predicate Written(c: CacheMap, k: Key, data: TickerData, now: real) { k in c && c[k] == Entry(data, now) }

  /** The data of a second behind the last one. */
  function NextData(last: TickerData, x: Trade): TickerData {
    TickerData(
      last.volume + x.filledAmount, last.quoteVolume + x.QuoteAmount(),
      if x.id < 0 then last.price else x.price, x.time, x.id >= 0,
      if x.id < 0 then last.lastTradingMethod else x.venue,
      NewTradeCounts(last.tradeCounts, x))
  }

  /** The data of the last second with one more trade. */
  function CurrentData(last: TickerData, x: Trade): TickerData {
    TickerData(
      last.volume + x.filledAmount, last.quoteVolume + x.QuoteAmount(), x.price, last.time, true, x.venue,
      NewTradeCounts(last.tradeCounts, x))
  }

  /** A second later than `s` and no later than `t` saw a trade of its own. */
  ghost predicate Overtaken(c: CacheMap, v: Venue, s: int, t: int) {
    exists u | s < u <= t :: At(v, u) in c && c[At(v, u)].data.hasNewTrades
  }

  /** The data of a second with a late trade worked in. */
  function WorkedIn(d: TickerData, x: Trade, t: int, overtaken: bool): TickerData {
    TickerData(
      d.volume + x.filledAmount, d.quoteVolume + x.QuoteAmount(),
      if overtaken then d.price else x.price, t, d.hasNewTrades || t == x.time,
      if overtaken then d.lastTradingMethod else x.venue,
      NewTradeCounts(d.tradeCounts, x))
  }

  ghost function LateData(c: CacheMap, v: Venue, x: Trade, t: int): TickerData
    requires At(v, t) in c
  {
    WorkedIn(c[At(v, t)].data, x, t, Overtaken(c, v, x.time, t))
  }

  /** The seconds strictly between repeat the last data; the trade's own second and LAST show the next. */
  ghost predicate AppendedTo(c: CacheMap, c': CacheMap, v: Venue, x: Trade, now: real)
    requires Last(v) in c
  {
    var last := c[Last(v)].data;
    forall k: Key | k.venue == v ::
      if k == Last(v) || k == At(v, x.time) then Written(c', k, NextData(last, x), now)
      else if k.At? && last.time < k.second < x.time then
        Written(c', k, last.(time := k.second, hasNewTrades := false), now)
      else SameAt(c, c', k)
  }

  ghost predicate ReplacedIn(c: CacheMap, c': CacheMap, v: Venue, x: Trade, now: real)
    requires Last(v) in c
  {
    forall k: Key | k.venue == v ::
      if k == Last(v) || k == At(v, x.time) then Written(c', k, CurrentData(c[Last(v)].data, x), now)
      else SameAt(c, c', k)
  }

  /** The walk forward from a second stops at the first one not served. */
  ghost predicate WalkEnds(c: CacheMap, v: Venue, from: int, end: int, now: real) {
    && from <= end && !Served(c, At(v, end), now)
    && forall t | from <= t < end :: Served(c, At(v, t), now)
  }

  /** Every second walked has the trade worked in, and LAST shows the last of them. */
  ghost predicate WalkedTo(c: CacheMap, c': CacheMap, v: Venue, x: Trade, end: int, now: real) {
    && WalkEnds(c, v, x.time, end, now)
    && forall k: Key | k.venue == v ::
      if k.At? && x.time <= k.second < end then k in c && Written(c', k, LateData(c, v, x, k.second), now)
      else if k == Last(v) && x.time < end then
        At(v, end - 1) in c && Written(c', k, LateData(c, v, x, end - 1), now)
      else SameAt(c, c', k)
  }

  ghost predicate Updated(c: CacheMap, c': CacheMap, v: Venue, x: Trade, now: real)
    requires Last(v) in c
  {
    var last := c[Last(v)].data.time;
    if x.time > last then AppendedTo(c, c', v, x, now)
    else if x.id < 0 then SameFor(c, c', v)
    else if x.time == last then ReplacedIn(c, c', v, x, now)
    else exists end :: WalkedTo(c, c', v, x, end, now)
  }

  /** One round of the loop over the methods: the method's own trades update it, others leave it alone. */
  ghost predicate UpdatedIf(c: CacheMap, c': CacheMap, v: Venue, x: Trade, now: real) {
    if x.venue.Meets(v) then Last(v) in c && Updated(c, c', v, x, now) else SameFor(c, c', v)
  }

  lemma LateDataFrame(c: CacheMap, d: CacheMap, v: Venue, x: Trade, t: int)
    requires SameFor(c, d, v) && At(v, t) in c
    ensures At(v, t) in d && LateData(d, v, x, t) == LateData(c, v, x, t)
  {
    assert forall u :: SameAt(c, d, At(v, u));
  }

  lemma WalkFrame(a: CacheMap, b: CacheMap, c: CacheMap, v: Venue, x: Trade, end: int, now: real)
    requires (SameFor(a, b, v) && WalkedTo(b, c, v, x, end, now))
      || (WalkedTo(a, b, v, x, end, now) && SameFor(b, c, v))
    ensures WalkedTo(a, c, v, x, end, now)
  {
    hide LateData;
    if SameFor(a, b, v) && WalkedTo(b, c, v, x, end, now) {
      assert forall t :: SameAt(a, b, At(v, t));
      forall t | At(v, t) in b ensures At(v, t) in a && LateData(a, v, x, t) == LateData(b, v, x, t) {
        LateDataFrame(a, b, v, x, t);
      }
    }
  }

  /** The rounds of the other methods do not matter. */
  lemma UpdateFrame(a: CacheMap, b: CacheMap, c: CacheMap, v: Venue, x: Trade, now: real)
    requires (SameFor(a, b, v) && UpdatedIf(b, c, v, x, now)) || (UpdatedIf(a, b, v, x, now) && SameFor(b, c, v))
    ensures UpdatedIf(a, c, v, x, now)
  {
    hide WalkedTo, NextData, CurrentData;
    assert SameFor(a, b, v) ==> SameAt(a, b, Last(v));
    if x.venue.Meets(v) && x.id >= 0 && x.time < a[Last(v)].data.time {
      if SameFor(a, b, v) && UpdatedIf(b, c, v, x, now) {
        var end :| WalkedTo(b, c, v, x, end, now);
        WalkFrame(a, b, c, v, x, end, now);
      } else {
        var end :| WalkedTo(a, b, v, x, end, now);
        WalkFrame(a, b, c, v, x, end, now);
      }
    }
  }

  // ---------- The series ----------

  /** Write times never fall from one second to the next. */
  ghost predicate WrittenInOrder(c: CacheMap, v: Venue, start: int, last: int)
    requires Last(v) in c && forall t | start <= t <= last :: At(v, t) in c
  {
    && (forall t, u :: start <= t <= u <= last ==> c[At(v, t)].writtenAt <= c[At(v, u)].writtenAt)
    && (forall t :: start <= t <= last ==> c[At(v, t)].writtenAt <= c[Last(v)].writtenAt)
  }

  /**
   The seconds from `start` to the last one each have an entry, which is the summary of the trades by then, and LAST is
   the summary of the last second. What other seconds hold is left open: a cache can outlive the process before.
   */
  ghost predicate Series(c: CacheMap, v: Venue, start: int, first: First, trades: seq<Trade>) {
    && Last(v) in c
    && var last := c[Last(v)].data.time;
       && start - 1 <= last
       && (forall t | start <= t <= last :: At(v, t) in c && c[At(v, t)].data == Summary(trades, first, t))
       && c[Last(v)].data == Summary(trades, first, last)
       && (forall x <- trades :: start <= x.time <= last && x.id >= 0)
       && WrittenInOrder(c, v, start, last)
  }

  /** No entry of the series was written before its own second had begun. */
  ghost predicate Punctual(c: CacheMap, v: Venue, start: int)
    requires Last(v) in c
  {
    forall t | start <= t <= c[Last(v)].data.time && At(v, t) in c :: t as real <= c[At(v, t)].writtenAt
  }

  lemma SeriesFrame(c: CacheMap, c': CacheMap, v: Venue, start: int, first: First, trades: seq<Trade>)
    requires Series(c, v, start, first, trades) && SameFor(c, c', v)
    ensures Series(c', v, start, first, trades)
  {
    hide Summary;
    assert SameAt(c, c', Last(v)) && forall t :: SameAt(c, c', At(v, t));
  }

  /** An entry is served for 36 hours after it was written; so expiry removes a prefix of the series. */
  lemma ExpiryRemovesPrefix(c: CacheMap, v: Venue, start: int, first: First, trades: seq<Trade>, now: real, t: int,
                            u: int)
    requires Series(c, v, start, first, trades) && start <= t <= u <= c[Last(v)].data.time
    ensures Served(c, At(v, t), now) ==> Served(c, At(v, u), now) && Served(c, Last(v), now)
    ensures Served(c, At(v, t), now) <==> now - c[At(v, t)].writtenAt < 129600.0
  {
    hide Summary;
  }

  lemma SummaryTime(trades: seq<Trade>, first: First, t: int)
    ensures Summary(trades, first, t).time == t
  {
  }

  /** What the list of trades becomes. */
  function Grown(trades: seq<Trade>, x: Trade): seq<Trade> { if x.id < 0 then trades else trades + [x] }

  lemma FillerIsSummary(trades: seq<Trade>, first: First, x: Trade, last: int)
    requires forall y <- trades :: y.time <= last
    ensures forall t | last < t < x.time ::
      Summary(trades, first, last).(time := t, hasNewTrades := false) == Summary(Grown(trades, x), first, t)
    ensures x.id >= 0 ==> forall t | t < x.time :: Summary(trades, first, t) == Summary(Grown(trades, x), first, t)
  {
    forall t | last < t < x.time
      ensures Summary(trades, first, last).(time := t, hasNewTrades := false) == Summary(Grown(trades, x), first, t)
    {
      FillerSummary(trades, first, last, t);
      if x.id >= 0 { EarlierUnchanged(trades, first, x, t); }
    }
    if x.id >= 0 {
      forall t | t < x.time ensures Summary(trades, first, t) == Summary(Grown(trades, x), first, t) {
        EarlierUnchanged(trades, first, x, t);
      }
    }
  }

  /** The new entry is the summary of its second. */
  lemma NewestIsSummary(trades: seq<Trade>, first: First, x: Trade, last: int)
    requires AllUpTo(trades, last) && last < x.time && x.WellFormed()
    ensures var before := Summary(trades, first, last);
            Summary(Grown(trades, x), first, x.time)
            == TickerData(before.volume + x.filledAmount, before.quoteVolume + x.QuoteAmount(),
                          if x.id < 0 then before.price else x.price, x.time, x.id >= 0,
                          if x.id < 0 then before.lastTradingMethod else x.venue,
                          NewTradeCounts(before.tradeCounts, x))
  {
    FillerSummary(trades, first, last, x.time);
    assert AllUpTo(trades, x.time);
    assert x.id < 0 ==> x.QuoteAmount() == 0.0;
    hide Trade.QuoteAmount;
    if x.id >= 0 { NewestSummary(trades, first, x); }
  }

  /** Replacing the entries from some second on, up to a new last second. */
  ghost predicate Rewritten(c: CacheMap, c': CacheMap, v: Venue, start: int, first: First, trades: seq<Trade>,
                            from: int, last: int, now: real)
  {
    && Written(c', Last(v), Summary(trades, first, last), now)
    && (forall t | from <= t <= last :: Written(c', At(v, t), Summary(trades, first, t), now))
    && (forall t | start <= t < from :: At(v, t) in c && SameAt(c, c', At(v, t)))
  }

  lemma RewrittenKeeps(c: CacheMap, c': CacheMap, v: Venue, start: int, first: First,
                       trades: seq<Trade>, trades': seq<Trade>, from: int, last: int, now: real)
    requires Series(c, v, start, first, trades) && c[Last(v)].writtenAt <= now
    requires start <= from <= c[Last(v)].data.time + 1 && from <= last + 1 && start <= last
    requires Rewritten(c, c', v, start, first, trades', from, last, now)
    requires forall t | t < from :: Summary(trades, first, t) == Summary(trades', first, t)
    requires forall x <- trades' :: start <= x.time <= last && x.id >= 0
    ensures Series(c', v, start, first, trades')
    ensures c'[Last(v)].data.time == last
    ensures Punctual(c, v, start) && last as real <= now ==> Punctual(c', v, start)
  {
    SummaryTime(trades', first, last);
    hide Summary;
    forall t | start <= t <= last
      ensures At(v, t) in c'
      ensures t < from ==> At(v, t) in c && c'[At(v, t)] == c[At(v, t)]
      ensures t >= from ==> Written(c', At(v, t), Summary(trades', first, t), now)
    {
    }
  }
  /** A trade behind every entry. */
  lemma NewerKeeps(c: CacheMap, c': CacheMap, v: Venue, start: int, first: First, trades: seq<Trade>, x: Trade,
                   now: real)
    requires Series(c, v, start, first, trades) && c[Last(v)].writtenAt <= now
    requires c[Last(v)].data.time < x.time && x.WellFormed() && AppendedTo(c, c', v, x, now)
    ensures Series(c', v, start, first, Grown(trades, x)) && c'[Last(v)].data.time == x.time
    ensures Punctual(c, v, start) && x.time as real <= now ==> Punctual(c', v, start)
    ensures forall t | t > x.time :: SameAt(c, c', At(v, t))
  {
    hide WrittenInOrder;
    var last := c[Last(v)].data.time;
    FillerIsSummary(trades, first, x, last);
    NewestIsSummary(trades, first, x, last);
    assert NextData(c[Last(v)].data, x) == Summary(Grown(trades, x), first, x.time);
    hide Summary, NextData, Punctual;
    assert Rewritten(c, c', v, start, first, Grown(trades, x), last + 1, x.time, now);
    hide Rewritten;
    RewrittenKeeps(c, c', v, start, first, trades, Grown(trades, x), last + 1, x.time, now);
  }

  /** A trade in the last second. */
  lemma CurrentKeeps(c: CacheMap, c': CacheMap, v: Venue, start: int, first: First, trades: seq<Trade>, x: Trade,
                     now: real)
    requires Series(c, v, start, first, trades) && c[Last(v)].writtenAt <= now
    requires start <= c[Last(v)].data.time == x.time && x.id >= 0 && ReplacedIn(c, c', v, x, now)
    ensures Series(c', v, start, first, trades + [x]) && c'[Last(v)].data.time == x.time
    ensures Punctual(c, v, start) && x.time as real <= now ==> Punctual(c', v, start)
    ensures forall t | t > x.time :: SameAt(c, c', At(v, t))
  {
    hide WrittenInOrder;
    FillerIsSummary(trades, first, x, x.time);
    NewestSummary(trades, first, x);
    assert CurrentData(c[Last(v)].data, x) == Summary(trades + [x], first, x.time);
    hide Summary, CurrentData, Punctual;
    assert Rewritten(c, c', v, start, first, trades + [x], x.time, x.time, now);
    hide Rewritten;
    RewrittenKeeps(c, c', v, start, first, trades, trades + [x], x.time, x.time, now);
  }

  /** A trade of the second before a series that has not begun: the series begins one second earlier. */
  lemma CurrentBegins(c: CacheMap, c': CacheMap, v: Venue, start: int, first: First, trades: seq<Trade>, x: Trade,
                      now: real)
    requires Series(c, v, start, first, trades) && c[Last(v)].writtenAt <= now
    requires start - 1 == c[Last(v)].data.time == x.time && x.id >= 0 && ReplacedIn(c, c', v, x, now)
    ensures trades == [] && Series(c', v, start - 1, first, [x])
  {
    assert forall y <- trades :: false;
    NewestSummary([], first, x);
    assert [] + [x] == [x];
    SummaryTime([x], first, x.time);
    assert CurrentData(c[Last(v)].data, x) == Summary([x], first, x.time);
    hide Summary, CurrentData;
  }

  /**
   The walk from a served second of the series goes at least to its end, and stops there exactly if nothing is served
   behind it.
   */
  lemma WalkReachesEnd(c: CacheMap, v: Venue, start: int, first: First, trades: seq<Trade>, from: int, end: int,
                       now: real)
    requires Series(c, v, start, first, trades) && start <= from <= c[Last(v)].data.time
    requires Served(c, At(v, from), now) && WalkEnds(c, v, from, end, now)
    ensures end > c[Last(v)].data.time
    ensures end == c[Last(v)].data.time + 1 <==> !Served(c, At(v, c[Last(v)].data.time + 1), now)
  {
    var last := c[Last(v)].data.time;
    if end <= last {
      ExpiryRemovesPrefix(c, v, start, first, trades, now, from, end);
      assert false;
    }
    hide Summary, WrittenInOrder;
  }

  /** What the walk writes into a series is the new summary. */
  lemma LateDataIsSummary(c: CacheMap, v: Venue, start: int, first: First, trades: seq<Trade>, x: Trade, t: int)
    requires Series(c, v, start, first, trades) && start <= x.time <= t <= c[Last(v)].data.time && x.id >= 0
    ensures At(v, t) in c && LateData(c, v, x, t) == Summary(trades + [x], first, t)
  {
    LateSummary(trades, first, x, t);
    if Overtaken(c, v, x.time, t) {
      var u :| x.time < u <= t && At(v, u) in c && c[At(v, u)].data.hasNewTrades;
      assert TradedAt(trades, u);
    }
    if TradedBetween(trades, x.time, t) {
      var y :| y in trades && x.time < y.time <= t;
      assert TradedAt(trades, y.time) && c[At(v, y.time)].data.hasNewTrades;
    }
    hide WrittenInOrder;
  }

  /** A late trade. */
  lemma LateKeeps(c: CacheMap, c': CacheMap, v: Venue, start: int, first: First, trades: seq<Trade>, x: Trade,
                  end: int, now: real)
    requires Series(c, v, start, first, trades) && c[Last(v)].writtenAt <= now && x.id >= 0
    requires start <= x.time < c[Last(v)].data.time && end == c[Last(v)].data.time + 1
      && WalkedTo(c, c', v, x, end, now)
    ensures Series(c', v, start, first, trades + [x]) && c'[Last(v)].data.time == c[Last(v)].data.time
    ensures Punctual(c, v, start) ==> Punctual(c', v, start)
    ensures forall t | t >= end :: SameAt(c, c', At(v, t))
  {
    hide WrittenInOrder, LateData, Punctual;
    var last := c[Last(v)].data.time;
    FillerIsSummary(trades, first, x, last);
    forall t | x.time <= t <= last ensures LateData(c, v, x, t) == Summary(trades + [x], first, t) {
      LateDataIsSummary(c, v, start, first, trades, x, t);
    }
    hide Summary;
    assert Rewritten(c, c', v, start, first, trades + [x], x.time, last, now);
    PunctualEnd(c, v, start, first, trades, now);
    hide Rewritten;
    RewrittenKeeps(c, c', v, start, first, trades, trades + [x], x.time, last, now);
  }

  lemma PunctualEnd(c: CacheMap, v: Venue, start: int, first: First, trades: seq<Trade>, now: real)
    requires Series(c, v, start, first, trades) && c[Last(v)].writtenAt <= now
    ensures Punctual(c, v, start) && start <= c[Last(v)].data.time ==> c[Last(v)].data.time as real <= now
  {
    hide Summary;
  }

  // ---------- Which trades a series takes ----------

  /** The trade's second is the last one or later, or still served. */
  predicate Takes(c: CacheMap, v: Venue, x: Trade, now: real)
    requires Last(v) in c
  {
    x.time >= c[Last(v)].data.time || Served(c, At(v, x.time), now)
  }

  /**
   A real trade finds nothing served outside the series where its walk would leave it, nor falls into the second before
   a series that has not begun.
   */
  predicate Undisturbed(c: CacheMap, v: Venue, start: int, x: Trade, now: real)
    requires Last(v) in c
  {
    var last := c[Last(v)].data.time;
    x.id >= 0 && x.time <= last ==>
      if x.time < start then x.time < last && !Served(c, At(v, x.time), now)
      else x.time < last ==> !Served(c, At(v, last + 1), now)
  }

  /** The trades of a series after one more has come by. */
  function TakenBy(trades: seq<Trade>, c: CacheMap, v: Venue, x: Trade, now: real): seq<Trade>
    requires Last(v) in c
  {
    if x.venue.Meets(v) && x.id >= 0 && Takes(c, v, x, now) then trades + [x] else trades
  }

  lemma UpdateKeeps(c: CacheMap, c': CacheMap, v: Venue, start: int, first: First, trades: seq<Trade>, x: Trade,
                    now: real)
    requires Series(c, v, start, first, trades) && c[Last(v)].writtenAt <= now && x.WellFormed()
    requires UpdatedIf(c, c', v, x, now) && (x.venue.Meets(v) ==> Undisturbed(c, v, start, x, now))
    ensures Series(c', v, start, first, TakenBy(trades, c, v, x, now))
    ensures c[Last(v)].data.time <= c'[Last(v)].data.time
    ensures x.venue.Meets(v) && x.time >= c[Last(v)].data.time ==> c'[Last(v)].data.time == x.time
    ensures c'[Last(v)].data.time == c[Last(v)].data.time || c'[Last(v)].data.time == x.time
    ensures Punctual(c, v, start) && x.time as real <= now ==> Punctual(c', v, start)
    ensures forall t | t > c'[Last(v)].data.time :: SameAt(c, c', At(v, t))
  {
    hide Series, Punctual, WalkedTo, AppendedTo, ReplacedIn, Summary;
    SeriesLast(c, v, start, first, trades);
    var last := c[Last(v)].data.time;
    if !x.venue.Meets(v) || (x.id < 0 && x.time <= last) {
      UnchangedKeeps(c, c', v, start, first, trades);
    } else if x.time > last {
      NewerKeeps(c, c', v, start, first, trades, x, now);
    } else if x.time == last {
      CurrentKeeps(c, c', v, start, first, trades, x, now);
    } else {
      var end :| WalkedTo(c, c', v, x, end, now);
      if Served(c, At(v, x.time), now) {
        WalkedEnds(c, c', v, x, end, now);
        WalkReachesEnd(c, v, start, first, trades, x.time, end, now);
        LateKeeps(c, c', v, start, first, trades, x, end, now);
      } else {
        WalkedNowhere(c, c', v, x, end, now);
        UnchangedKeeps(c, c', v, start, first, trades);
      }
    }
  }

  lemma SeriesLast(c: CacheMap, v: Venue, start: int, first: First, trades: seq<Trade>)
    requires Series(c, v, start, first, trades)
    ensures Last(v) in c && start - 1 <= c[Last(v)].data.time
  {
  }

  lemma UnchangedKeeps(c: CacheMap, c': CacheMap, v: Venue, start: int, first: First, trades: seq<Trade>)
    requires Series(c, v, start, first, trades) && SameFor(c, c', v)
    ensures Series(c', v, start, first, trades) && c'[Last(v)] == c[Last(v)]
    ensures Punctual(c, v, start) ==> Punctual(c', v, start)
    ensures forall t :: SameAt(c, c', At(v, t))
  {
    hide Summary;
    SeriesFrame(c, c', v, start, first, trades);
    assert SameAt(c, c', Last(v)) && forall t :: SameAt(c, c', At(v, t));
  }

  lemma WalkedEnds(c: CacheMap, c': CacheMap, v: Venue, x: Trade, end: int, now: real)
    requires WalkedTo(c, c', v, x, end, now)
    ensures WalkEnds(c, v, x.time, end, now)
  {
  }

  lemma WalkedNowhere(c: CacheMap, c': CacheMap, v: Venue, x: Trade, end: int, now: real)
    requires WalkedTo(c, c', v, x, end, now)
    ensures end == x.time <==> !Served(c, At(v, x.time), now)
    ensures !Served(c, At(v, x.time), now) ==> SameFor(c, c', v)
  {
  }

  /** A punctual series takes every trade that comes less than 36 hours after its second. */
  lemma InTimeIsTaken(c: CacheMap, v: Venue, start: int, first: First, trades: seq<Trade>, x: Trade, now: real)
    requires Series(c, v, start, first, trades) && Punctual(c, v, start)
    requires start <= x.time && now < x.time as real + TIME_TO_LIVE_TRADE as real
    ensures Takes(c, v, x, now)
  {
    hide Summary;
  }

  /**
   Entries left by a process before: a late trade leaves LAST at the end of the series exactly when nothing is served
   right behind it, and only then is the series kept; one from before the series changes nothing exactly when its
   second is not served.
   */
  lemma LateTradeKeepsIff(c: CacheMap, c': CacheMap, v: Venue, start: int, first: First, trades: seq<Trade>, x: Trade,
                          now: real)
    requires Series(c, v, start, first, trades) && c[Last(v)].writtenAt <= now && x.WellFormed() && x.id >= 0
    requires x.venue.Meets(v) && x.time < c[Last(v)].data.time && Updated(c, c', v, x, now)
    ensures start <= x.time && Served(c, At(v, x.time), now) ==>
              && (c'[Last(v)].data.time == c[Last(v)].data.time <==> !Served(c, At(v, c[Last(v)].data.time + 1), now))
              && (!Served(c, At(v, c[Last(v)].data.time + 1), now) ==> Series(c', v, start, first, trades + [x]))
    ensures x.time < start ==>
              ((Last(v) in c' && c'[Last(v)] == c[Last(v)] && SameAt(c, c', At(v, x.time)))
                <==> !Served(c, At(v, x.time), now))
  {
    hide Series, Summary;
    SeriesLast(c, v, start, first, trades);
    var end :| WalkedTo(c, c', v, x, end, now);
    WalkedEnds(c, c', v, x, end, now);
    WalkedNowhere(c, c', v, x, end, now);
    if Served(c, At(v, x.time), now) {
      assert Written(c', Last(v), LateData(c, v, x, end - 1), now);
      assert c'[Last(v)].data.time == end - 1;
      if start <= x.time {
        WalkReachesEnd(c, v, start, first, trades, x.time, end, now);
        if end == c[Last(v)].data.time + 1 { LateKeeps(c, c', v, start, first, trades, x, end, now); }
      }
    }
  }
}
