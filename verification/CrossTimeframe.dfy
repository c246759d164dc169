/** Timeframes of one resampler agree with each other: a coarse bar is its fine bars, combined. */
module CrossTimeframe {
  import opened Prelude
  import opened Timeframes
  import opened MarketData
  import opened ResamplerModel
  import opened ResamplerRuns
  import opened ResamplerLanes

  function TotalVolume(bars: seq<Candle>): real {
    if bars == [] then 0.0 else TotalVolume(Front(bars)) + Last(bars).volume
  }

  function TotalTicks(bars: seq<Candle>): nat {
    if bars == [] then 0 else TotalTicks(Front(bars)) + Last(bars).tickCount
  }

  /** First open, highest high, lowest low, last close, total volume, total ticks. */
  ghost predicate Aggregates(c: Candle, bars: seq<Candle>) {
    && bars != []
    && c.open == bars[0].open && c.close == Last(bars).close
    && (forall i :: 0 <= i < |bars| ==> bars[i].high <= c.high && c.low <= bars[i].low)
    && (exists i :: 0 <= i < |bars| && bars[i].high == c.high)
    && (exists i :: 0 <= i < |bars| && bars[i].low == c.low)
    && c.volume == TotalVolume(bars) && c.tickCount == TotalTicks(bars)
  }

  /** The bars that opened inside one coarse bucket. */
  function Inside(bars: seq<Candle>, open: nat, close: nat): seq<Candle> {
    if bars == [] then []
    else Inside(Front(bars), open, close) + if open <= Last(bars).openTime < close then [Last(bars)] else []
  }

  // ------------------------------------------------- combining the summaries of consecutive stretches

  function Join(a: Candle, b: Candle): Candle {
    a.(high := Max(a.high, b.high), low := Min(a.low, b.low), close := b.close,
       volume := a.volume + b.volume, tickCount := a.tickCount + b.tickCount)
  }

  function Combined(bars: seq<Candle>): Candle
    requires bars != []
  {
    if |bars| == 1 then bars[0] else Join(Combined(Front(bars)), Last(bars))
  }

  lemma {:induction false} CombinedAggregates(bars: seq<Candle>)
    requires bars != []
    ensures Aggregates(Combined(bars), bars)
  {
    if |bars| == 1 {
      assert Front(bars) == [];
    } else {
      var (init, last) := (Front(bars), Last(bars));
      CombinedAggregates(init);
      var h :| 0 <= h < |init| && init[h].high == Combined(init).high;
      var l :| 0 <= l < |init| && init[l].low == Combined(init).low;
      assert bars[h] == init[h] && bars[l] == init[l] && bars[|init|] == last;
      assert forall i :: 0 <= i < |init| ==> bars[i] == init[i];
    }
  }

  lemma {:induction false} SumVolumeAppends(a: seq<Quote>, b: seq<Quote>)
    ensures SumVolume(a + b) == SumVolume(a) + SumVolume(b)
  {
    if b == [] {
      assert a + b == a;
    } else {
      assert Front(a + b) == a + Front(b);
      SumVolumeAppends(a, Front(b));
    }
  }

  lemma JoinSummarizes(a: Candle, b: Candle, qa: seq<Quote>, qb: seq<Quote>)
    requires Summarizes(a, qa) && Summarizes(b, qb)
    ensures Summarizes(Join(a, b), qa + qb)
  {
    var (c, qs) := (Join(a, b), qa + qb);
    SumVolumeAppends(qa, qb);
    var ha :| 0 <= ha < |qa| && qa[ha].price == a.high;
    var hb :| 0 <= hb < |qb| && qb[hb].price == b.high;
    var la :| 0 <= la < |qa| && qa[la].price == a.low;
    var lb :| 0 <= lb < |qb| && qb[lb].price == b.low;
    assert qs[ha].price == a.high && qs[|qa| + hb].price == b.high;
    assert qs[la].price == a.low && qs[|qa| + lb].price == b.low;
    forall i | 0 <= i < |qs| ensures c.low <= qs[i].price <= c.high {
      if i >= |qa| {
        assert qs[i] == qb[i - |qa|];
      }
    }
  }

  predicate BucketsInOrder(quotes: seq<Quote>, tf: Timeframe) {
    forall i, j :: 0 <= i < j < |quotes| ==> FloorToBucket(quotes[i].ts, tf) <= FloorToBucket(quotes[j].ts, tf)
  }

  lemma {:induction false} OneBucketOnly(quotes: seq<Quote>, tf: Timeframe, t: nat)
    requires forall i :: 0 <= i < |quotes| ==> FloorToBucket(quotes[i].ts, tf) == t
    ensures InBucket(quotes, tf, t) == quotes
  {
    hide FloorToBucket;
    if quotes != [] {
      OneBucketOnly(Front(quotes), tf, t);
    }
  }

  lemma {:induction false} InBucketAppends(a: seq<Quote>, b: seq<Quote>, tf: Timeframe, t: nat)
    ensures InBucket(a + b, tf, t) == InBucket(a, tf, t) + InBucket(b, tf, t)
  {
    hide FloorToBucket;
    if b == [] {
      assert a + b == a;
    } else {
      assert Front(a + b) == a + Front(b) && Last(a + b) == Last(b);
      InBucketAppends(a, Front(b), tf, t);
    }
  }

  /** In-order quotes split at the newest bucket: everything older, then that bucket. */
  lemma {:induction false} SplitNewestBucket(quotes: seq<Quote>, tf: Timeframe, t: nat) returns (k: nat)
    requires BucketsInOrder(quotes, tf) && forall i :: 0 <= i < |quotes| ==> FloorToBucket(quotes[i].ts, tf) <= t
    ensures k <= |quotes|
    ensures forall i :: 0 <= i < k ==> FloorToBucket(quotes[i].ts, tf) < t
    ensures forall i :: k <= i < |quotes| ==> FloorToBucket(quotes[i].ts, tf) == t
  {
    hide FloorToBucket;
    if quotes == [] || FloorToBucket(Last(quotes).ts, tf) < t {
      k := |quotes|;
    } else {
      k := SplitNewestBucket(Front(quotes), tf, t);
    }
  }

  lemma SummariesWithoutNewest(bars: seq<Candle>, older: seq<Quote>, newest: seq<Quote>, tf: Timeframe)
    requires bars != [] && Groups(bars, older + newest, tf)
    requires forall i :: 0 <= i < |newest| ==> FloorToBucket(newest[i].ts, tf) == Last(bars).openTime
    ensures forall i :: 0 <= i < |Front(bars)| ==>
              Summarizes(Front(bars)[i], InBucket(older, tf, Front(bars)[i].openTime))
  {
    hide FloorToBucket, Summarizes;
    forall i | 0 <= i < |Front(bars)|
      ensures Summarizes(Front(bars)[i], InBucket(older, tf, Front(bars)[i].openTime))
    {
      assert bars[i].openTime < Last(bars).openTime;
      InBucketAppends(older, newest, tf, bars[i].openTime);
      EmptyBucket(newest, tf, bars[i].openTime);
      assert InBucket(older + newest, tf, bars[i].openTime) == InBucket(older, tf, bars[i].openTime);
    }
  }

  lemma TimesWithoutNewest(bars: seq<Candle>, older: seq<Quote>, newest: seq<Quote>, tf: Timeframe)
    requires bars != [] && Groups(bars, older + newest, tf)
    requires forall i :: 0 <= i < |older| ==> FloorToBucket(older[i].ts, tf) < Last(bars).openTime
    ensures forall i :: 0 <= i < |older| ==> FloorToBucket(older[i].ts, tf) in OpenTimes(Front(bars))
  {
    hide FloorToBucket, Summarizes;
    assert bars == Front(bars) + [Last(bars)];
    OpenTimesOfOneMore(Front(bars), Last(bars));
    forall i | 0 <= i < |older| ensures FloorToBucket(older[i].ts, tf) in OpenTimes(Front(bars)) {
      assert older[i] == (older + newest)[i];
    }
  }

  lemma GroupsWithoutNewest(bars: seq<Candle>, older: seq<Quote>, newest: seq<Quote>, tf: Timeframe)
    requires bars != [] && Groups(bars, older + newest, tf)
    requires forall i :: 0 <= i < |older| ==> FloorToBucket(older[i].ts, tf) < Last(bars).openTime
    requires forall i :: 0 <= i < |newest| ==> FloorToBucket(newest[i].ts, tf) == Last(bars).openTime
    ensures Groups(Front(bars), older, tf)
    ensures InBucket(older + newest, tf, Last(bars).openTime) == newest
  {
    hide FloorToBucket, Summarizes, InBucket, OpenTimes;
    SummariesWithoutNewest(bars, older, newest, tf);
    TimesWithoutNewest(bars, older, newest, tf);
    NewestFillTheLastBucket(older, newest, tf, Last(bars).openTime);
  }

  lemma NewestFillTheLastBucket(older: seq<Quote>, newest: seq<Quote>, tf: Timeframe, open: nat)
    requires forall i :: 0 <= i < |older| ==> FloorToBucket(older[i].ts, tf) < open
    requires forall i :: 0 <= i < |newest| ==> FloorToBucket(newest[i].ts, tf) == open
    ensures InBucket(older + newest, tf, open) == newest
  {
    hide FloorToBucket, InBucket;
    InBucketAppends(older, newest, tf, open);
    EmptyBucket(older, tf, open);
    OneBucketOnly(newest, tf, open);
  }

  lemma NewestBarIsNewest(bars: seq<Candle>, quotes: seq<Quote>, tf: Timeframe)
    requires bars != [] && Groups(bars, quotes, tf)
    ensures forall i :: 0 <= i < |quotes| ==> FloorToBucket(quotes[i].ts, tf) <= Last(bars).openTime
    ensures |bars| == 1 ==> forall i :: 0 <= i < |quotes| ==> FloorToBucket(quotes[i].ts, tf) == Last(bars).openTime
  {
    hide FloorToBucket, Summarizes;
    forall i | 0 <= i < |quotes|
      ensures FloorToBucket(quotes[i].ts, tf) <= Last(bars).openTime
      ensures |bars| == 1 ==> FloorToBucket(quotes[i].ts, tf) == Last(bars).openTime
    {
      assert FloorToBucket(quotes[i].ts, tf) in OpenTimes(bars);
    }
  }

  lemma BucketsInOrderPrefix(quotes: seq<Quote>, tf: Timeframe, k: nat)
    requires BucketsInOrder(quotes, tf) && k <= |quotes|
    ensures BucketsInOrder(quotes[..k], tf)
  {
    hide FloorToBucket;
  }

  /** If the bars group the quotes, their combination summarizes all of them. */
  lemma {:induction false} CombinedSummarizes(bars: seq<Candle>, quotes: seq<Quote>, tf: Timeframe)
    requires bars != [] && Groups(bars, quotes, tf) && BucketsInOrder(quotes, tf)
    ensures Summarizes(Combined(bars), quotes)
    decreases |bars|
  {
    hide FloorToBucket, Summarizes, Groups, BucketsInOrder, InBucket, Join;
    NewestBarIsNewest(bars, quotes, tf);
    var last := Last(bars);
    NewestSummary(bars, quotes, tf);
    if |bars| == 1 {
      OneBucketOnly(quotes, tf, last.openTime);
    } else {
      var k := SplitNewestBucket(quotes, tf, last.openTime);
      var (older, newest) := (quotes[..k], quotes[k..]);
      assert quotes == older + newest;
      BucketsInOrderPrefix(quotes, tf, k);
      GroupsWithoutNewest(bars, older, newest, tf);
      CombinedSummarizes(Front(bars), older, tf);
      JoinSummarizes(Combined(Front(bars)), last, older, newest);
    }
  }

  lemma NewestSummary(bars: seq<Candle>, quotes: seq<Quote>, tf: Timeframe)
    requires bars != [] && Groups(bars, quotes, tf)
    ensures Summarizes(Last(bars), InBucket(quotes, tf, Last(bars).openTime))
  {
    hide FloorToBucket, Summarizes;
  }

  // ------------------------------------------------- the two lanes of one run

  lemma {:induction false} QuotesInOrder(ops: seq<LaneOp>)
    requires InOrder(ops)
    ensures forall i, j :: 0 <= i < j < |Quotes(ops)| ==> Quotes(ops)[i].ts <= Quotes(ops)[j].ts
    ensures forall q :: q in Quotes(ops) ==> OnTick(q) in ops
  {
    if ops != [] {
      QuotesInOrder(Front(ops));
      forall q | q in Quotes(Front(ops)) && Last(ops).OnTick? ensures q.ts <= Last(ops).q.ts {
        assert OnTick(q) in Front(ops);
      }
    }
  }

  lemma {:induction false} BucketMembers(quotes: seq<Quote>, tf: Timeframe, open: nat)
    ensures forall q :: q in InBucket(quotes, tf, open) <==> q in quotes && FloorToBucket(q.ts, tf) == open
  {
    hide FloorToBucket;
    if quotes != [] {
      BucketMembers(Front(quotes), tf, open);
      assert quotes == Front(quotes) + [Last(quotes)];
    }
  }

  lemma BucketsInOrderExtends(quotes: seq<Quote>, more: seq<Quote>, tf: Timeframe)
    requires BucketsInOrder(quotes, tf) && |more| <= 1
    requires forall q, r :: q in quotes && r in more ==> FloorToBucket(q.ts, tf) <= FloorToBucket(r.ts, tf)
    ensures BucketsInOrder(quotes + more, tf)
  {
    hide FloorToBucket;
    var all := quotes + more;
    forall i, j | 0 <= i < j < |all| ensures FloorToBucket(all[i].ts, tf) <= FloorToBucket(all[j].ts, tf) {
      assert all[i] in quotes;
      if j == |quotes| {
        assert all[j] in more;
      }
    }
  }

  lemma {:induction false} InBucketKeepsOrder(quotes: seq<Quote>, coarse: Timeframe, open: nat, fine: Timeframe)
    requires BucketsInOrder(quotes, fine)
    ensures BucketsInOrder(InBucket(quotes, coarse, open), fine)
  {
    if quotes != [] {
      var (init, last) := (Front(quotes), Last(quotes));
      BucketsInOrderPrefix(quotes, fine, |init|);
      InBucketKeepsOrder(init, coarse, open, fine);
      BucketMembers(init, coarse, open);
      hide FloorToBucket;
      forall q | q in InBucket(init, coarse, open) ensures FloorToBucket(q.ts, fine) <= FloorToBucket(last.ts, fine) {
        var i :| 0 <= i < |init| && quotes[i] == q;
      }
      BucketsInOrderExtends(InBucket(init, coarse, open), if FloorToBucket(last.ts, coarse) == open then [last] else [], fine);
    }
  }

  /** The fine bucket's quotes are all in the coarse bucket around it. */
  lemma {:induction false} FineBucketInsideCoarse(quotes: seq<Quote>, fine: Timeframe, coarse: Timeframe, t: nat, open: nat)
    requires FinerOrEqual(fine, coarse) && FloorToBucket(t, coarse) == open
    ensures InBucket(InBucket(quotes, coarse, open), fine, t) == InBucket(quotes, fine, t)
  {
    if quotes != [] {
      var q := Last(quotes);
      FineBucketInsideCoarse(Front(quotes), fine, coarse, t, open);
      BucketsNest(q.ts, fine, coarse);
      hide FloorToBucket;
      var inner := InBucket(Front(quotes), coarse, open);
      InBucketAppends(inner, if FloorToBucket(q.ts, coarse) == open then [q] else [], fine, t);
      assert InBucket([q], fine, t) == if FloorToBucket(q.ts, fine) == t then [q] else [] by {
        assert Front([q]) == [];
      }
    }
  }

  ghost predicate Nested(f: Lane, c: Lane, coarse: Timeframe) {
    f.open.Some? ==>
      c.open.Some? && c.open.value.candle.openTime == FloorToBucket(f.open.value.candle.openTime, coarse)
  }

  lemma FlushNests(f: Lane, c: Lane, fine: Timeframe, coarse: Timeframe, now: nat)
    requires FinerOrEqual(fine, coarse) && Nested(f, c, coarse)
    requires f.open.Some? ==> Aligned(f.open.value.candle.openTime, fine)
    ensures Nested(FlushLane(f, fine, now).lane, FlushLane(c, coarse, now).lane, coarse)
  {
    if f.open.Some? {
      var t := f.open.value.candle.openTime;
      BucketIsUnique(t, t, fine);
      BucketsNest(t, fine, coarse);
      hide FloorToBucket;
    }
  }

  /** While a fine bar is open, so is the coarse bar around it. */
  lemma {:induction false} OpenBarsNest(symbol: string, fine: Timeframe, coarse: Timeframe, ops: seq<LaneOp>)
    requires FinerOrEqual(fine, coarse) && NoRestore(ops) && InOrder(ops)
    ensures Nested(Run(symbol, fine, ops).lane, Run(symbol, coarse, ops).lane, coarse)
  {
    if ops != [] {
      var init := Front(ops);
      assert Last(ops) in ops && forall op :: op in init ==> op in ops;
      OpenBarsNest(symbol, fine, coarse, init);
      match Last(ops)
      case OnTick(q) =>
        BucketsNest(q.ts, fine, coarse);
        NewestTickIsOpen(symbol, fine, ops);
        NewestTickIsOpen(symbol, coarse, ops);
        hide FloorToBucket, Run;
      case OnFlush(now) =>
        BarsAreTicksByBucket(symbol, fine, init);
        FlushNests(Run(symbol, fine, init).lane, Run(symbol, coarse, init).lane, fine, coarse, now);
        hide FloorToBucket, Groups, Sound, FlushLane;
      case OnJoin(m) =>
      case OnTake(t) =>
    }
  }

  lemma NewestTickIsOpen(symbol: string, tf: Timeframe, ops: seq<LaneOp>)
    requires NoRestore(ops) && InOrder(ops) && ops != [] && Last(ops).OnTick?
    ensures var l := Run(symbol, tf, ops).lane;
            l.open.Some? && l.open.value.candle.openTime == FloorToBucket(Last(ops).q.ts, tf)
  {
    assert Last(ops) in ops && forall op :: op in Front(ops) ==> op in ops;
    LaneIsNotAhead(symbol, tf, Front(ops), Last(ops).q.ts);
    hide FloorToBucket;
  }

  lemma {:induction false} InsideMembers(bars: seq<Candle>, open: nat, close: nat)
    ensures forall c :: c in Inside(bars, open, close) <==> c in bars && open <= c.openTime < close
  {
    if bars != [] {
      InsideMembers(Front(bars), open, close);
      assert bars == Front(bars) + [Last(bars)];
    }
  }

  lemma {:induction false} InsideKeepsOrder(bars: seq<Candle>, open: nat, close: nat)
    requires StrictlyNewer(bars)
    ensures StrictlyNewer(Inside(bars, open, close))
  {
    if bars != [] {
      InsideKeepsOrder(Front(bars), open, close);
      InsideMembers(Front(bars), open, close);
      var inner := Inside(Front(bars), open, close);
      forall i | 0 <= i < |inner| ensures inner[i].openTime < Last(bars).openTime {
        assert inner[i] in Front(bars);
      }
    }
  }

  /** Each fine bar inside the coarse bucket summarizes its share of the coarse bucket's ticks. */
  lemma InsideBarsSummarize(bars: seq<Candle>, quotes: seq<Quote>, fine: Timeframe, coarse: Timeframe, open: nat, c: Candle)
    requires FinerOrEqual(fine, coarse) && Aligned(open, coarse)
    requires c in bars && open <= c.openTime < BucketClose(open, coarse)
    requires Groups(bars, quotes, fine)
    ensures Summarizes(c, InBucket(InBucket(quotes, coarse, open), fine, c.openTime))
  {
    BucketIsUnique(c.openTime, open, coarse);
    FineBucketInsideCoarse(quotes, fine, coarse, c.openTime, open);
    hide FloorToBucket, Summarizes;
  }

  /** Each of the coarse bucket's ticks is in a fine bar inside it that has already closed. */
  lemma InsideBarsCover(f: Feed, quotes: seq<Quote>, fine: Timeframe, coarse: Timeframe, open: nat, q: Quote)
    requires FinerOrEqual(fine, coarse) && Groups(Bars(f), quotes, fine)
    requires f.lane.open.Some? ==> FloorToBucket(f.lane.open.value.candle.openTime, coarse) != open
    requires q in quotes && FloorToBucket(q.ts, coarse) == open
    ensures FloorToBucket(q.ts, fine) in OpenTimes(Inside(f.closed, open, BucketClose(open, coarse)))
  {
    hide FloorToBucket, Summarizes, Aligned, Inside;
    var t := FloorToBucket(q.ts, fine);
    BucketsNest(q.ts, fine, coarse);
    BucketHoldsMoment(t, coarse);
    InsideMembers(f.closed, open, BucketClose(open, coarse));
    var n :| 0 <= n < |quotes| && quotes[n] == q;
    var m :| 0 <= m < |Bars(f)| && Bars(f)[m].openTime == t;
    assert m < |f.closed|;
    assert f.closed[m] in Inside(f.closed, open, BucketClose(open, coarse));
  }

  lemma ClosedBarFacts(symbol: string, tf: Timeframe, ops: seq<LaneOp>, i: nat)
    requires NoRestore(ops) && InOrder(ops) && i < |Run(symbol, tf, ops).closed|
    ensures var f := Run(symbol, tf, ops);
            && Groups(Bars(f), Quotes(ops), tf) && StrictlyNewer(f.closed)
            && Summarizes(f.closed[i], InBucket(Quotes(ops), tf, f.closed[i].openTime))
            && Aligned(f.closed[i].openTime, tf)
            && (f.lane.open.Some? ==> f.closed[i].openTime < f.lane.open.value.candle.openTime)
  {
    var f := Run(symbol, tf, ops);
    BarsAreTicksByBucket(symbol, tf, ops);
    InOrderDropsNothing(symbol, tf, ops);
    BarsEnd(f);
    assert Bars(f)[i] == f.closed[i];
    var open := f.closed[i].openTime;
    var mine := InBucket(Quotes(ops), tf, open);
    BucketMembers(Quotes(ops), tf, open);
    assert mine[0] in mine;
    BucketHoldsMoment(mine[0].ts, tf);
    hide FloorToBucket, Groups;
  }

  lemma AllInsideSummarize(bars: seq<Candle>, closed: seq<Candle>, quotes: seq<Quote>, fine: Timeframe, coarse: Timeframe, open: nat)
    requires FinerOrEqual(fine, coarse) && Aligned(open, coarse) && Groups(bars, quotes, fine)
    requires forall c :: c in closed ==> c in bars
    ensures var inside := Inside(closed, open, BucketClose(open, coarse));
            forall j :: 0 <= j < |inside| ==>
              Summarizes(inside[j], InBucket(InBucket(quotes, coarse, open), fine, inside[j].openTime))
  {
    var inside := Inside(closed, open, BucketClose(open, coarse));
    InsideMembers(closed, open, BucketClose(open, coarse));
    hide FloorToBucket, Summarizes, BucketClose, Inside, InBucket, Groups;
    forall j | 0 <= j < |inside|
      ensures Summarizes(inside[j], InBucket(InBucket(quotes, coarse, open), fine, inside[j].openTime))
    {
      assert inside[j] in inside;
      InsideBarsSummarize(bars, quotes, fine, coarse, open, inside[j]);
    }
  }

  lemma AllInsideCover(f: Feed, quotes: seq<Quote>, fine: Timeframe, coarse: Timeframe, open: nat)
    requires FinerOrEqual(fine, coarse) && Groups(Bars(f), quotes, fine)
    requires f.lane.open.Some? ==> FloorToBucket(f.lane.open.value.candle.openTime, coarse) != open
    ensures var mine := InBucket(quotes, coarse, open);
            forall j :: 0 <= j < |mine| ==>
              FloorToBucket(mine[j].ts, fine) in OpenTimes(Inside(f.closed, open, BucketClose(open, coarse)))
  {
    var mine := InBucket(quotes, coarse, open);
    BucketMembers(quotes, coarse, open);
    hide FloorToBucket, Summarizes, BucketClose, Inside, InBucket, Groups;
    forall j | 0 <= j < |mine|
      ensures FloorToBucket(mine[j].ts, fine) in OpenTimes(Inside(f.closed, open, BucketClose(open, coarse)))
    {
      assert mine[j] in mine;
      InsideBarsCover(f, quotes, fine, coarse, open, mine[j]);
    }
  }

  lemma InsideBarsGroupQuotes(f: Feed, quotes: seq<Quote>, fine: Timeframe, coarse: Timeframe, open: nat)
    requires FinerOrEqual(fine, coarse) && Aligned(open, coarse)
    requires Groups(Bars(f), quotes, fine) && StrictlyNewer(f.closed)
    requires f.lane.open.Some? ==> FloorToBucket(f.lane.open.value.candle.openTime, coarse) != open
    ensures Groups(Inside(f.closed, open, BucketClose(open, coarse)), InBucket(quotes, coarse, open), fine)
  {
    InsideKeepsOrder(f.closed, open, BucketClose(open, coarse));
    AllInsideSummarize(Bars(f), f.closed, quotes, fine, coarse, open);
    AllInsideCover(f, quotes, fine, coarse, open);
    hide FloorToBucket, Summarizes, BucketClose, Inside, InBucket, OpenTimes;
  }

  /** The fine bars inside a closed coarse bar group exactly that bar's ticks. */
  lemma InsideBarsGroup(symbol: string, fine: Timeframe, coarse: Timeframe, ops: seq<LaneOp>, i: nat)
    requires FinerOrEqual(fine, coarse) && NoRestore(ops) && InOrder(ops)
    requires i < |Run(symbol, coarse, ops).closed|
    ensures var open := Run(symbol, coarse, ops).closed[i].openTime;
            Groups(Inside(Run(symbol, fine, ops).closed, open, BucketClose(open, coarse)),
                   InBucket(Quotes(ops), coarse, open), fine)
  {
    ClosedBarFacts(symbol, coarse, ops, i);
    OpenBarsNest(symbol, fine, coarse, ops);
    BarsAreTicksByBucket(symbol, fine, ops);
    InOrderDropsNothing(symbol, fine, ops);
    hide FloorToBucket, Groups, BucketClose, Run, Inside, InBucket, Summarizes;
    InsideBarsGroupQuotes(Run(symbol, fine, ops), Quotes(ops), fine, coarse, Run(symbol, coarse, ops).closed[i].openTime);
  }

  lemma QuoteBucketsInOrder(ops: seq<LaneOp>, tf: Timeframe)
    requires InOrder(ops)
    ensures BucketsInOrder(Quotes(ops), tf)
  {
    QuotesInOrder(ops);
    forall a, b | 0 <= a < b < |Quotes(ops)|
      ensures FloorToBucket(Quotes(ops)[a].ts, tf) <= FloorToBucket(Quotes(ops)[b].ts, tf)
    {
      FloorIsMonotone(Quotes(ops)[a].ts, Quotes(ops)[b].ts, tf);
    }
  }

  lemma GroupsOfSomething(bars: seq<Candle>, quotes: seq<Quote>, tf: Timeframe)
    requires Groups(bars, quotes, tf) && quotes != []
    ensures bars != []
  {
    hide FloorToBucket;
    assert FloorToBucket(quotes[0].ts, tf) in OpenTimes(bars);
  }

  /** Two lanes that hear one in-order stream, flushed anywhere: every coarse bar that has closed is
      exactly the aggregation of the fine bars closed inside it. */
  lemma LanesAggregate(symbol: string, fine: Timeframe, coarse: Timeframe, ops: seq<LaneOp>, i: nat)
    requires FinerOrEqual(fine, coarse) && NoRestore(ops) && InOrder(ops)
    requires i < |Run(symbol, coarse, ops).closed|
    ensures var bar := Run(symbol, coarse, ops).closed[i];
            Aggregates(bar, Inside(Run(symbol, fine, ops).closed, bar.openTime, BucketClose(bar.openTime, coarse)))
  {
    var bar := Run(symbol, coarse, ops).closed[i];
    var inside := Inside(Run(symbol, fine, ops).closed, bar.openTime, BucketClose(bar.openTime, coarse));
    var mine := InBucket(Quotes(ops), coarse, bar.openTime);
    ClosedBarFacts(symbol, coarse, ops, i);
    InsideBarsGroup(symbol, fine, coarse, ops, i);
    QuoteBucketsInOrder(ops, fine);
    InBucketKeepsOrder(Quotes(ops), coarse, bar.openTime, fine);
    GroupsOfSomething(inside, mine, fine);
    CombinedSummarizes(inside, mine, fine);
    CombinedAggregates(inside);
    SummaryIsUnique(bar, Combined(inside), mine);
    hide Groups, Summarizes, Run, Inside, InBucket, FloorToBucket;
  }

  // ------------------------------------------------------------ on the class, with questions anywhere

  /** What every timeframe of the class notices alike: everything but questions and resumed bars. */
  function Shared(calls: seq<Call>): seq<LaneOp> {
    if calls == [] then []
    else
      Shared(Front(calls)) +
      match Last(calls)
      case AddTick(q) => [OnTick(q)]
      case Flush(now) => [OnFlush(now)]
      case MarkJoined(moment) => [OnJoin(moment)]
      case _ => []
  }

  predicate NothingResumed(calls: seq<Call>) {
    forall c :: c in calls ==> !c.Restore?
  }

  /** Of two runs, all but what has been asked. */
  predicate SameBars(f: Feed, g: Feed) {
    && f.lane.open == g.lane.open && f.lane.lastClosed == g.lane.lastClosed && f.closed == g.closed
    && f.joinedAt == g.joinedAt && f.accepted == g.accepted && f.late == g.late && f.partials == g.partials
  }

  lemma SameStepSameBars(f: Feed, g: Feed, symbol: string, tf: Timeframe, op: LaneOp)
    requires SameBars(f, g)
    ensures SameBars(Advance(f, symbol, tf, op), Advance(g, symbol, tf, op))
  {
    hide FloorToBucket, BucketClose, WithTick, StartBar, TickLane, FlushLane;
    match op
    case OnTick(q) => SameTickSameStep(f.lane, g.lane, symbol, tf, f.joinedAt, FloorToBucket(q.ts, tf), q);
    case OnFlush(now) => SameFlushSameStep(f.lane, g.lane, tf, now);
    case OnRestore(c) =>
    case OnJoin(m) =>
    case OnTake(t) =>
  }

  /** What a lane does next does not depend on its markers. */
  lemma SameTickSameStep(l: Lane, m: Lane, symbol: string, tf: Timeframe, joinedAt: Option<nat>, b: nat, q: Quote)
    requires l.open == m.open && l.lastClosed == m.lastClosed
    ensures var (s, t) := (TickLane(l, symbol, tf, joinedAt, b, q), TickLane(m, symbol, tf, joinedAt, b, q));
            s.lane.open == t.lane.open && s.lane.lastClosed == t.lane.lastClosed && s.closed == t.closed && s.late == t.late
  {
    hide WithTick, StartBar;
  }

  lemma SameFlushSameStep(l: Lane, m: Lane, tf: Timeframe, now: nat)
    requires l.open == m.open && l.lastClosed == m.lastClosed
    ensures var (s, t) := (FlushLane(l, tf, now), FlushLane(m, tf, now));
            s.lane.open == t.lane.open && s.lane.lastClosed == t.lane.lastClosed && s.closed == t.closed
  {
    hide BucketClose;
  }

  lemma AQuestionChangesNoBar(f: Feed, symbol: string, tf: Timeframe, t: nat)
    ensures SameBars(Advance(f, symbol, tf, OnTake(t)), f)
  {
  }

  /** Questions about partial bars change nothing of the bars: a lane that is asked closes what it would
      have closed unasked. */
  lemma {:induction false} QuestionsChangeNoBar(symbol: string, calls: seq<Call>, tf: Timeframe)
    requires NothingResumed(calls)
    ensures SameBars(Run(symbol, tf, Seen(calls, tf)), Run(symbol, tf, Shared(calls)))
  {
    hide Advance, SameBars;
    if calls == [] {
      NothingSeen(symbol, tf);
    } else {
      assert Last(calls) in calls && forall c :: c in Front(calls) ==> c in calls;
      QuestionsChangeNoBar(symbol, Front(calls), tf);
      var (f, g) := (Run(symbol, tf, Seen(Front(calls), tf)), Run(symbol, tf, Shared(Front(calls))));
      match Last(calls) {
        case AddTick(q) => OneMoreEach(symbol, tf, Seen(Front(calls), tf), Shared(Front(calls)), OnTick(q));
        case Flush(now) => OneMoreEach(symbol, tf, Seen(Front(calls), tf), Shared(Front(calls)), OnFlush(now));
        case MarkJoined(moment) => OneMoreEach(symbol, tf, Seen(Front(calls), tf), Shared(Front(calls)), OnJoin(moment));
        case TakePartial(other, t) =>
          assert Shared(calls) == Shared(Front(calls));
          if other == tf {
            RunOfOneMore(symbol, tf, Seen(Front(calls), tf), OnTake(t));
            AQuestionChangesNoBar(f, symbol, tf, t);
            SameBarsTwice(Advance(f, symbol, tf, OnTake(t)), f, g);
          } else {
            assert Seen(calls, tf) == Seen(Front(calls), tf);
          }
        case Restore(c) =>
      }
    }
  }

  lemma NothingSeen(symbol: string, tf: Timeframe)
    ensures SameBars(Run(symbol, tf, Seen([], tf)), Run(symbol, tf, Shared([])))
  {
  }

  lemma SameBarsTwice(f: Feed, g: Feed, h: Feed)
    requires SameBars(f, g) && SameBars(g, h)
    ensures SameBars(f, h)
  {
  }

  lemma RunOfOneMore(symbol: string, tf: Timeframe, ops: seq<LaneOp>, op: LaneOp)
    ensures Run(symbol, tf, ops + [op]) == Advance(Run(symbol, tf, ops), symbol, tf, op)
  {
    hide Advance;
    assert Front(ops + [op]) == ops;
  }

  lemma OneMoreEach(symbol: string, tf: Timeframe, a: seq<LaneOp>, b: seq<LaneOp>, op: LaneOp)
    requires SameBars(Run(symbol, tf, a), Run(symbol, tf, b))
    ensures SameBars(Run(symbol, tf, a + [op]), Run(symbol, tf, b + [op]))
  {
    hide Run;
    RunOfOneMore(symbol, tf, a, op);
    RunOfOneMore(symbol, tf, b, op);
    SameStepSameBars(Run(symbol, tf, a), Run(symbol, tf, b), symbol, tf, op);
  }

  lemma {:induction false} NothingResumedIsShared(calls: seq<Call>)
    ensures NoRestore(Shared(calls))
  {
    if calls != [] {
      NothingResumedIsShared(Front(calls));
    }
  }

  /** What one timeframe of the class has closed is what its lane closes of what all of them notice. */
  lemma ClosedOnTheClass(symbol: string, tfs: seq<Timeframe>, calls: seq<Call>, tf: Timeframe)
    requires Distinct(tfs) && tf in tfs && NothingResumed(calls)
    ensures OfTimeframe(RunCalls(symbol, tfs, calls).closed, tf) == Run(symbol, tf, Shared(calls)).closed
  {
    hide Run, Shared, Seen, NothingResumed, Distinct, OfTimeframe, RunCalls;
    EveryTimeframeIsItsOwnRun(symbol, tfs, calls, tf);
    QuestionsChangeNoBar(symbol, calls, tf);
  }

  /** For any calls on one resampler whose ticks come in order, flushed, joined and asked about partial bars
      anywhere: every coarse bar it has closed is exactly the aggregation of the fine bars it closed
      inside it. */
  lemma CoarseBarsAggregateFineBars(symbol: string, tfs: seq<Timeframe>, calls: seq<Call>, fine: Timeframe, coarse: Timeframe, i: nat)
    requires Distinct(tfs) && fine in tfs && coarse in tfs && FinerOrEqual(fine, coarse)
    requires NothingResumed(calls) && InOrder(Shared(calls))
    requires i < |OfTimeframe(RunCalls(symbol, tfs, calls).closed, coarse)|
    ensures var closed := RunCalls(symbol, tfs, calls).closed;
            var bar := OfTimeframe(closed, coarse)[i];
            Aggregates(bar, Inside(OfTimeframe(closed, fine), bar.openTime, BucketClose(bar.openTime, coarse)))
  {
    hide Run, Shared, NothingResumed, Distinct, OfTimeframe, RunCalls, Aggregates, Inside, InOrder, BucketClose;
    ClosedOnTheClass(symbol, tfs, calls, fine);
    ClosedOnTheClass(symbol, tfs, calls, coarse);
    NothingResumedIsShared(calls);
    LanesAggregate(symbol, fine, coarse, Shared(calls), i);
  }
}
