/** What a resampler promises over whole runs, one timeframe at a time.

    A run is any sequence of ticks, flushes, restores, joins and partial-bar questions. A Feed
    is the lane after the run together with what went in and what came out. */
module ResamplerRuns {
  import opened Prelude
  import opened Timeframes
  import opened MarketData
  import opened ResamplerModel

  datatype LaneOp =
    | OnTick(q: Quote)
    | OnFlush(now: nat)
    | OnRestore(c: Candle)
    | OnJoin(moment: nat)
    | OnTake(openTime: nat)

  datatype Feed = Feed(
    lane: Lane,
    joinedAt: Option<nat>,
    closed: seq<Candle>,     // every bar closed, oldest first
    accepted: seq<Quote>,    // every tick that was folded into a bar
    late: nat,               // how many ticks were dropped
    partials: set<nat>,      // open times of the bars that closed partial
    answered: seq<nat>)      // open times for which take_partial said yes, in order

  const FRESH := Feed(EMPTY_LANE, None, [], [], 0, {}, [])

  function Closing(f: Feed, step: Step): Feed {
    f.(lane := step.lane,
       closed := f.closed + Listed(step.closed),
       partials := f.partials + if step.closed.Some? && f.lane.open.Some? && f.lane.open.value.partial
                                then {f.lane.open.value.candle.openTime} else {})
  }

  function Advance(f: Feed, symbol: string, tf: Timeframe, op: LaneOp): Feed {
    match op
    case OnTick(q) =>
      var step := TickLane(f.lane, symbol, tf, f.joinedAt, FloorToBucket(q.ts, tf), q);
      if step.late then f.(late := f.late + 1)
      else Closing(f, step).(accepted := f.accepted + [q])
    case OnFlush(now) => Closing(f, FlushLane(f.lane, tf, now))
    case OnRestore(c) => f.(lane := RestoreLane(f.lane, symbol, c))
    case OnJoin(moment) => f.(joinedAt := Some(moment))
    case OnTake(t) =>
      if t in f.lane.partialCloses
      then f.(lane := WithoutMarker(f.lane, t), answered := f.answered + [t])
      else f
  }

  function Run(symbol: string, tf: Timeframe, ops: seq<LaneOp>): Feed {
    if ops == [] then FRESH
    else Advance(Run(symbol, tf, Front(ops)), symbol, tf, Last(ops))
  }

  function Quotes(ops: seq<LaneOp>): seq<Quote> {
    if ops == [] then []
    else Quotes(Front(ops)) + if Last(ops).OnTick? then [Last(ops).q] else []
  }

  // ---------------------------------------------------------------- no bucket twice

  ghost predicate Sound(f: Feed) {
    && StrictlyNewer(f.closed)
    && f.lane.lastClosed == (if f.closed == [] then None else Some(Last(f.closed).openTime))
    && (f.lane.open.Some? && f.closed != [] ==> f.lane.open.value.candle.openTime > Last(f.closed).openTime)
    && f.partials <= OpenTimes(f.closed)
    && Distinct(f.answered)
    && (forall t :: t in f.partials <==> t in f.lane.partialCloses || t in f.answered)
    && (forall t :: t in f.lane.partialCloses ==> t !in f.answered)
  }

  lemma ClosingIsSound(f: Feed, step: Step)
    requires Sound(f)
    requires step.closed == None ==> step.lane.lastClosed == f.lane.lastClosed && step.lane.partialCloses == f.lane.partialCloses
    requires step.closed.Some? ==>
               && f.lane.open.Some? && step.closed == Some(Snapshot(f.lane))
               && step.lane.lastClosed == Retired(f.lane).lastClosed
               && step.lane.partialCloses == Retired(f.lane).partialCloses
    requires step.lane.open.Some? ==>
               && (step.lane.lastClosed.Some? ==> step.lane.open.value.candle.openTime > step.lane.lastClosed.value)
    ensures Sound(Closing(f, step))
  {
    var g := Closing(f, step);
    if step.closed.Some? {
      var t := step.closed.value.openTime;
      assert g.closed[|f.closed|].openTime == t;
      assert forall i :: 0 <= i < |f.closed| ==> g.closed[i] == f.closed[i] && f.closed[i].openTime <= Last(f.closed).openTime;
      assert t !in OpenTimes(f.closed);
      assert forall u :: u in OpenTimes(f.closed) ==> u in OpenTimes(g.closed);
    } else {
      assert g.closed == f.closed;
    }
  }

  lemma AdvanceIsSound(f: Feed, symbol: string, tf: Timeframe, op: LaneOp)
    requires Sound(f)
    ensures Sound(Advance(f, symbol, tf, op))
  {
    hide FloorToBucket, BucketClose;
    match op
    case OnTick(q) =>
      var step := TickLane(f.lane, symbol, tf, f.joinedAt, FloorToBucket(q.ts, tf), q);
      if !step.late {
        ClosingIsSound(f, step);
      }
    case OnFlush(now) => ClosingIsSound(f, FlushLane(f.lane, tf, now));
    case OnRestore(c) =>
    case OnJoin(moment) =>
    case OnTake(t) =>
  }

  /** Over every run, out-of-order ticks, stale restores and re-joins included: no bucket goes out
      twice or behind another, an open bar is newer than the last closed one, and take_partial says
      yes at most once for each bar that closed partial, with the rest still waiting to be asked. */
  lemma {:induction false} NoBucketGoesOutTwice(symbol: string, tf: Timeframe, ops: seq<LaneOp>)
    ensures Sound(Run(symbol, tf, ops))
  {
    if ops != [] {
      NoBucketGoesOutTwice(symbol, tf, Front(ops));
      AdvanceIsSound(Run(symbol, tf, Front(ops)), symbol, tf, Last(ops));
    }
  }

  /** So asking about a bar answers yes exactly when it closed partial and was not asked before. */
  lemma TakePartialAnswersOnce(symbol: string, tf: Timeframe, ops: seq<LaneOp>, t: nat)
    ensures var (f, g) := (Run(symbol, tf, ops), Run(symbol, tf, ops + [OnTake(t)]));
            && (|g.answered| == |f.answered| + 1 <==> t in f.partials && t !in f.answered)
            && (t in f.partials ==> t in g.answered)
  {
    NoBucketGoesOutTwice(symbol, tf, ops);
    assert Front(ops + [OnTake(t)]) == ops;
  }

  predicate NoRestore(ops: seq<LaneOp>) {
    forall op :: op in ops ==> !op.OnRestore?
  }

  lemma OpenTimesOfOneMore(candles: seq<Candle>, c: Candle)
    ensures OpenTimes(candles + [c]) == OpenTimes(candles) + {c.openTime}
  {
    var all := candles + [c];
    assert all[|candles|] == c;
    assert forall i :: 0 <= i < |candles| ==> all[i] == candles[i];
  }

  // ---------------------------------------------------------------- which bars close partial

  /** The bucket is spent, or older than the open bar. */
  predicate IsBehind(l: Lane, b: nat) {
    || (l.lastClosed.Some? && b <= l.lastClosed.value)
    || (l.open.Some? && b < l.open.value.candle.openTime)
  }

  /** The call puts a new bar in hand: a tick in a newer bucket, or a resumed bar that is not stale. */
  predicate Opens(f: Feed, tf: Timeframe, op: LaneOp) {
    match op
    case OnTick(q) =>
      var b := FloorToBucket(q.ts, tf);
      !IsBehind(f.lane, b) && (f.lane.open.None? || f.lane.open.value.candle.openTime < b)
    case OnRestore(c) => f.lane.lastClosed.None? || c.openTime > f.lane.lastClosed.value
    case _ => false
  }

  /** The bucket of the bar a call puts in hand. */
  function OpensAt(tf: Timeframe, op: LaneOp): nat {
    match op
    case OnTick(q) => FloorToBucket(q.ts, tf)
    case OnRestore(c) => c.openTime
    case _ => 0
  }

  /** Not heard from its open: resumed, or begun by a tick whose bucket opened before the join in force. */
  predicate OpensPartial(f: Feed, tf: Timeframe, op: LaneOp) {
    op.OnRestore? || (op.OnTick? && f.joinedAt.Some? && FloorToBucket(op.q.ts, tf) < f.joinedAt.value)
  }

  /** The bar in hand after these calls was put there by the k-th, for this bucket. */
  ghost predicate OpenedBy(symbol: string, tf: Timeframe, ops: seq<LaneOp>, k: nat, open: nat) {
    && k < |ops| && Opens(Run(symbol, tf, ops[..k]), tf, ops[k]) && OpensAt(tf, ops[k]) == open
    && forall m :: k < m < |ops| ==> !Opens(Run(symbol, tf, ops[..m]), tf, ops[m])
  }

  lemma AdvanceInHand(f: Feed, symbol: string, tf: Timeframe, op: LaneOp)
    ensures var g := Advance(f, symbol, tf, op);
            if Opens(f, tf, op) then
              && g.lane.open.Some? && g.lane.open.value.candle.openTime == OpensAt(tf, op)
              && g.lane.open.value.partial == OpensPartial(f, tf, op)
            else
              g.lane.open.None? ||
                (&& f.lane.open.Some? && g.lane.open.value.partial == f.lane.open.value.partial
                 && g.lane.open.value.candle.openTime == f.lane.open.value.candle.openTime)
  {
    hide FloorToBucket, BucketClose;
  }

  /** Whatever is in hand, some call put it there, and it is partial as that call left it. */
  ghost predicate InHandBy(symbol: string, tf: Timeframe, ops: seq<LaneOp>, k: nat) {
    var f := Run(symbol, tf, ops);
    && f.lane.open.Some? && OpenedBy(symbol, tf, ops, k, f.lane.open.value.candle.openTime)
    && f.lane.open.value.partial == OpensPartial(Run(symbol, tf, ops[..k]), tf, ops[k])
  }

  lemma Prefixes(ops: seq<LaneOp>)
    requires ops != []
    ensures forall m :: 0 <= m < |ops| ==> Front(ops)[..m] == ops[..m]
    ensures ops[..|ops| - 1] == Front(ops) && Front(ops)[..|ops| - 1] == Front(ops)
  {
  }

  lemma {:induction false} EveryBarInHandWasOpened(symbol: string, tf: Timeframe, ops: seq<LaneOp>)
    ensures Run(symbol, tf, ops).lane.open.Some? ==> exists k :: InHandBy(symbol, tf, ops, k)
  {
    hide Advance, Opens, OpensAt, OpensPartial;
    if ops != [] {
      var (f, n) := (Run(symbol, tf, Front(ops)), |ops| - 1);
      EveryBarInHandWasOpened(symbol, tf, Front(ops));
      AdvanceInHand(f, symbol, tf, Last(ops));
      Prefixes(ops);
      if Run(symbol, tf, ops).lane.open.Some? {
        if Opens(f, tf, Last(ops)) {
          assert InHandBy(symbol, tf, ops, n);
        } else {
          var k :| InHandBy(symbol, tf, Front(ops), k);
          StillInHand(symbol, tf, ops, k);
        }
      }
    }
  }

  lemma StillInHand(symbol: string, tf: Timeframe, ops: seq<LaneOp>, k: nat)
    requires ops != [] && InHandBy(symbol, tf, Front(ops), k) && !Opens(Run(symbol, tf, Front(ops)), tf, Last(ops))
    requires Run(symbol, tf, ops).lane.open.Some?
    ensures InHandBy(symbol, tf, ops, k)
  {
    hide Advance, Opens, OpensAt, OpensPartial, OpenedBy;
    AdvanceInHand(Run(symbol, tf, Front(ops)), symbol, tf, Last(ops));
    StillOpenedBy(symbol, tf, ops, k, Run(symbol, tf, ops).lane.open.value.candle.openTime);
  }

  lemma StillOpenedBy(symbol: string, tf: Timeframe, ops: seq<LaneOp>, k: nat, open: nat)
    requires ops != [] && OpenedBy(symbol, tf, Front(ops), k, open) && !Opens(Run(symbol, tf, Front(ops)), tf, Last(ops))
    ensures OpenedBy(symbol, tf, ops, k, open) && Front(ops)[..k] == ops[..k] && Front(ops)[k] == ops[k]
  {
    hide Run, Opens, OpensAt;
    Prefixes(ops);
    assert forall m :: k < m < |Front(ops)| ==> Front(ops)[m] == ops[m];
  }

  /** The i-th bar went out with the j-th call, having been put in hand by the k-th. */
  ghost predicate Story(symbol: string, tf: Timeframe, ops: seq<LaneOp>, i: nat, j: nat, k: nat) {
    && j < |ops| && i < |Run(symbol, tf, ops).closed|
    && |Run(symbol, tf, ops[..j]).closed| == i && |Run(symbol, tf, ops[..j + 1]).closed| == i + 1
    && OpenedBy(symbol, tf, ops[..j], k, Run(symbol, tf, ops).closed[i].openTime)
  }

  /** The bar is in the set of partial ones exactly if the call that put it in hand left it partial. */
  ghost predicate ToldPartial(symbol: string, tf: Timeframe, ops: seq<LaneOp>, i: nat, j: nat, k: nat) {
    && Story(symbol, tf, ops, i, j, k)
    && (Run(symbol, tf, ops).closed[i].openTime in Run(symbol, tf, ops).partials
        <==> OpensPartial(Run(symbol, tf, ops[..k]), tf, ops[k]))
  }

  /** A call closes nothing, or the bar in hand. */
  lemma AdvanceCloses(f: Feed, symbol: string, tf: Timeframe, op: LaneOp)
    ensures var g := Advance(f, symbol, tf, op);
            || (g.closed == f.closed && g.partials == f.partials)
            || (&& f.lane.open.Some? && g.closed == f.closed + [Snapshot(f.lane)]
                && g.partials == f.partials + if f.lane.open.value.partial then {f.lane.open.value.candle.openTime} else {})
  {
    hide FloorToBucket, BucketClose;
    assert f.partials + {} == f.partials;
    assert f.closed + [] == f.closed;
  }

  lemma OldStory(symbol: string, tf: Timeframe, ops: seq<LaneOp>, i: nat, j: nat, k: nat)
    requires ops != [] && ToldPartial(symbol, tf, Front(ops), i, j, k) && Sound(Run(symbol, tf, ops))
    ensures ToldPartial(symbol, tf, ops, i, j, k)
  {
    hide Advance, OpensPartial, OpenedBy;
    var (f, g) := (Run(symbol, tf, Front(ops)), Run(symbol, tf, ops));
    AdvanceCloses(f, symbol, tf, Last(ops));
    Prefixes(ops);
    assert Front(ops)[..j + 1] == ops[..j + 1];
    assert g.closed[i] == f.closed[i];
    OpenedEarlier(symbol, tf, ops[..j], k, f.closed[i].openTime);
    if |g.closed| > |f.closed| {
      assert g.closed[|f.closed|].openTime == f.lane.open.value.candle.openTime;
      assert g.closed[i].openTime < g.closed[|f.closed|].openTime;
    }
  }

  lemma OpenedEarlier(symbol: string, tf: Timeframe, ops: seq<LaneOp>, k: nat, open: nat)
    requires OpenedBy(symbol, tf, ops, k, open)
    ensures k < |ops|
  {
  }

  lemma NewStory(symbol: string, tf: Timeframe, ops: seq<LaneOp>, k: nat)
    requires ops != [] && InHandBy(symbol, tf, Front(ops), k) && Sound(Run(symbol, tf, ops))
    requires |Run(symbol, tf, ops).closed| > |Run(symbol, tf, Front(ops)).closed|
    requires Run(symbol, tf, Front(ops)).partials <= OpenTimes(Run(symbol, tf, Front(ops)).closed)
    ensures ToldPartial(symbol, tf, ops, |Run(symbol, tf, Front(ops)).closed|, |ops| - 1, k)
  {
    hide Advance, OpensPartial, OpenedBy;
    var (f, g) := (Run(symbol, tf, Front(ops)), Run(symbol, tf, ops));
    AdvanceCloses(f, symbol, tf, Last(ops));
    Prefixes(ops);
    assert ops[..|ops|] == ops;
    OpenedEarlier(symbol, tf, Front(ops), k, f.lane.open.value.candle.openTime);
    var t := f.lane.open.value.candle.openTime;
    assert g.closed[|f.closed|].openTime == t;
    assert forall i :: 0 <= i < |f.closed| ==> f.closed[i] == g.closed[i];
    assert t !in OpenTimes(f.closed);
  }

  /** Over every run, joins and resumed bars anywhere: a bar closes partial if and only if the call that
      put it in hand was a resumption, or a tick whose bucket had opened before the join then in force. */
  lemma {:induction false} WhichBarsClosePartial(symbol: string, tf: Timeframe, ops: seq<LaneOp>, i: nat)
    requires i < |Run(symbol, tf, ops).closed|
    ensures exists j, k :: ToldPartial(symbol, tf, ops, i, j, k)
  {
    hide Advance, ToldPartial, InHandBy, OpensPartial;
    var (f, g) := (Run(symbol, tf, Front(ops)), Run(symbol, tf, ops));
    NoBucketGoesOutTwice(symbol, tf, Front(ops));
    NoBucketGoesOutTwice(symbol, tf, ops);
    AdvanceCloses(f, symbol, tf, Last(ops));
    if i < |f.closed| {
      WhichBarsClosePartial(symbol, tf, Front(ops), i);
      var j, k :| ToldPartial(symbol, tf, Front(ops), i, j, k);
      OldStory(symbol, tf, ops, i, j, k);
    } else {
      EveryBarInHandWasOpened(symbol, tf, Front(ops));
      var k :| InHandBy(symbol, tf, Front(ops), k);
      NewStory(symbol, tf, ops, k);
    }
  }

  /** So take_partial answers yes, once, for exactly the bars resumed or begun before joining. */
  lemma TakePartialAnswersForEarlyAndResumedBars(symbol: string, tf: Timeframe, ops: seq<LaneOp>, i: nat)
    requires i < |Run(symbol, tf, ops).closed|
    ensures var (f, t) := (Run(symbol, tf, ops), Run(symbol, tf, ops).closed[i].openTime);
            exists j: nat, k: nat ::
              && Story(symbol, tf, ops, i, j, k)
              && (|Run(symbol, tf, ops + [OnTake(t)]).answered| == |f.answered| + 1
                  <==> OpensPartial(Run(symbol, tf, ops[..k]), tf, ops[k]) && t !in f.answered)
  {
    hide Run, Story, OpensPartial;
    WhichBarsClosePartial(symbol, tf, ops, i);
    var j, k :| ToldPartial(symbol, tf, ops, i, j, k);
    TakePartialAnswersOnce(symbol, tf, ops, Run(symbol, tf, ops).closed[i].openTime);
    StoryEnds(symbol, tf, ops, i, j, k);
    assert Story(symbol, tf, ops, i, j, k);
  }

  lemma StoryEnds(symbol: string, tf: Timeframe, ops: seq<LaneOp>, i: nat, j: nat, k: nat)
    requires Story(symbol, tf, ops, i, j, k)
    ensures k < |ops|
  {
    hide Run, Opens, OpensAt;
  }

  // ---------------------------------------------------------------- group ticks by bucket

  /** The ticks that fall into one bucket, in order of arrival. */
  function InBucket(quotes: seq<Quote>, tf: Timeframe, open: nat): seq<Quote> {
    if quotes == [] then []
    else InBucket(Front(quotes), tf, open)
         + if FloorToBucket(Last(quotes).ts, tf) == open then [Last(quotes)] else []
  }

  function SumVolume(quotes: seq<Quote>): real {
    if quotes == [] then 0.0 else SumVolume(Front(quotes)) + Last(quotes).volume
  }

  /** The candle is the first, highest, lowest, last, total and count of the quotes. */
  ghost predicate Summarizes(c: Candle, quotes: seq<Quote>) {
    && quotes != []
    && c.open == quotes[0].price && c.close == Last(quotes).price
    && (forall i :: 0 <= i < |quotes| ==> c.low <= quotes[i].price <= c.high)
    && (exists i :: 0 <= i < |quotes| && quotes[i].price == c.high)
    && (exists i :: 0 <= i < |quotes| && quotes[i].price == c.low)
    && c.volume == SumVolume(quotes) && c.tickCount == |quotes|
  }

  /** The bars are the quotes, grouped by bucket: one bar per bucket that traded and no other, in
      order, each summarizing exactly the quotes of its bucket. */
  ghost predicate Groups(bars: seq<Candle>, quotes: seq<Quote>, tf: Timeframe) {
    && StrictlyNewer(bars)
    && (forall i :: 0 <= i < |quotes| ==> FloorToBucket(quotes[i].ts, tf) in OpenTimes(bars))
    && (forall i :: 0 <= i < |bars| ==> Summarizes(bars[i], InBucket(quotes, tf, bars[i].openTime)))
  }

  /** Every bar a feed has built so far, the open one last. */
  function Bars(f: Feed): seq<Candle> {
    f.closed + if f.lane.open.Some? then [f.lane.open.value.candle] else []
  }

  lemma {:induction false} EmptyBucket(quotes: seq<Quote>, tf: Timeframe, open: nat)
    requires forall i :: 0 <= i < |quotes| ==> FloorToBucket(quotes[i].ts, tf) != open
    ensures InBucket(quotes, tf, open) == []
  {
    hide FloorToBucket;
    if quotes != [] {
      EmptyBucket(Front(quotes), tf, open);
    }
  }

  lemma FirstTick(symbol: string, tf: Timeframe, bucket: nat, q: Quote)
    ensures Summarizes(WithTick(StartBar(symbol, tf, bucket, q.price), q.price, q.volume), [q])
  {
    var qs := [q];
    assert Front(qs) == [] && qs[0] == q;
  }

  lemma NextTick(c: Candle, quotes: seq<Quote>, q: Quote)
    requires Summarizes(c, quotes)
    ensures Summarizes(WithTick(c, q.price, q.volume), quotes + [q])
  {
    var qs, d := quotes + [q], WithTick(c, q.price, q.volume);
    assert Front(qs) == quotes && Last(qs) == q;
    var h :| 0 <= h < |quotes| && quotes[h].price == c.high;
    var l :| 0 <= l < |quotes| && quotes[l].price == c.low;
    assert qs[h].price == c.high && qs[l].price == c.low && qs[|quotes|].price == q.price;
  }

  predicate SameUpToClosing(a: seq<Candle>, b: seq<Candle>) {
    |a| == |b| && forall i :: 0 <= i < |a| ==> b[i] == a[i].(isClosed := b[i].isClosed)
  }

  lemma SameTimes(a: seq<Candle>, b: seq<Candle>)
    requires |a| == |b| && forall i :: 0 <= i < |a| ==> a[i].openTime == b[i].openTime
    ensures OpenTimes(a) == OpenTimes(b)
  {
  }

  lemma OtherBuckets(bars: seq<Candle>, quotes: seq<Quote>, q: Quote, tf: Timeframe)
    requires Groups(bars, quotes, tf)
    ensures forall i :: 0 <= i < |bars| && bars[i].openTime != FloorToBucket(q.ts, tf) ==>
              Summarizes(bars[i], InBucket(quotes + [q], tf, bars[i].openTime))
  {
    hide FloorToBucket, Summarizes;
    assert Front(quotes + [q]) == quotes;
    forall i | 0 <= i < |bars| && bars[i].openTime != FloorToBucket(q.ts, tf)
      ensures Summarizes(bars[i], InBucket(quotes + [q], tf, bars[i].openTime))
    {
      assert InBucket(quotes + [q], tf, bars[i].openTime) == InBucket(quotes, tf, bars[i].openTime);
    }
  }

  /** The newest bar takes one more quote of its own bucket. */
  lemma GrowNewestBar(bars: seq<Candle>, quotes: seq<Quote>, q: Quote, tf: Timeframe)
    requires Groups(bars, quotes, tf) && bars != [] && Last(bars).openTime == FloorToBucket(q.ts, tf)
    ensures Groups(Front(bars) + [WithTick(Last(bars), q.price, q.volume)], quotes + [q], tf)
  {
    hide FloorToBucket, Summarizes;
    var grown := Front(bars) + [WithTick(Last(bars), q.price, q.volume)];
    assert Front(quotes + [q]) == quotes;
    OtherBuckets(bars, quotes, q, tf);
    SameTimes(bars, grown);
    NextTick(Last(bars), InBucket(quotes, tf, Last(bars).openTime), q);
  }

  /** A bar starts in a bucket newer than every other. */
  lemma StartNewestBar(bars: seq<Candle>, quotes: seq<Quote>, q: Quote, symbol: string, tf: Timeframe)
    requires Groups(bars, quotes, tf)
    requires forall i :: 0 <= i < |bars| ==> bars[i].openTime < FloorToBucket(q.ts, tf)
    ensures Groups(bars + [WithTick(StartBar(symbol, tf, FloorToBucket(q.ts, tf), q.price), q.price, q.volume)],
                   quotes + [q], tf)
  {
    hide FloorToBucket, Summarizes;
    var b := FloorToBucket(q.ts, tf);
    var c := WithTick(StartBar(symbol, tf, b, q.price), q.price, q.volume);
    assert Front(quotes + [q]) == quotes;
    OtherBuckets(bars, quotes, q, tf);
    OpenTimesOfOneMore(bars, c);
    EmptyBucket(quotes, tf, b);
    assert InBucket(quotes + [q], tf, b) == [q];
    FirstTick(symbol, tf, b, q);
  }

  lemma ClosingFlagIsFree(bars: seq<Candle>, same: seq<Candle>, quotes: seq<Quote>, tf: Timeframe)
    requires Groups(bars, quotes, tf) && SameUpToClosing(bars, same)
    ensures Groups(same, quotes, tf)
  {
    hide FloorToBucket;
    SameTimes(bars, same);
  }

  ghost predicate Grouped(f: Feed, tf: Timeframe) {
    && Sound(f) && Groups(Bars(f), f.accepted, tf)
    && (f.lane.open.Some? ==> Aligned(f.lane.open.value.candle.openTime, tf))
  }

  lemma BarsEnd(f: Feed)
    requires Sound(f)
    ensures forall i :: 0 <= i < |f.closed| ==>
              && f.lane.lastClosed.Some? && f.closed[i].openTime <= f.lane.lastClosed.value
              && (f.lane.open.Some? ==> f.closed[i].openTime < f.lane.open.value.candle.openTime)
  {
    assert forall i :: 0 <= i < |f.closed| ==> f.closed[i].openTime <= Last(f.closed).openTime;
  }

  /** What a tick can do to the list of bars: nothing, one more quote, or one more bar. */
  ghost predicate IsDropped(f: Feed, g: Feed) {
    g.accepted == f.accepted && Bars(g) == Bars(f)
  }

  ghost predicate IsGrowth(f: Feed, g: Feed, b: nat, q: Quote) {
    && g.accepted == f.accepted + [q]
    && Bars(f) != [] && Last(Bars(f)).openTime == b
    && Bars(g) == Front(Bars(f)) + [WithTick(Last(Bars(f)), q.price, q.volume)]
  }

  ghost predicate IsNewBar(f: Feed, g: Feed, symbol: string, tf: Timeframe, b: nat, q: Quote) {
    && g.accepted == f.accepted + [q]
    && Bars(g) != [] && SameUpToClosing(Bars(f), Front(Bars(g)))
    && Last(Bars(g)) == WithTick(StartBar(symbol, tf, b, q.price), q.price, q.volume)
    && (forall i :: 0 <= i < |Bars(f)| ==> Bars(f)[i].openTime < b)
  }

  lemma TickShape(f: Feed, symbol: string, tf: Timeframe, q: Quote)
    requires Sound(f)
    ensures var (b, g) := (FloorToBucket(q.ts, tf), Advance(f, symbol, tf, OnTick(q)));
            IsDropped(f, g) || IsGrowth(f, g, b, q) || IsNewBar(f, g, symbol, tf, b, q)
  {
    hide Advance, IsDropped, IsGrowth, IsNewBar, Sound, FloorToBucket;
    var b := FloorToBucket(q.ts, tf);
    if IsBehind(f.lane, b) {
      LateTickIsDropped(f, symbol, tf, q);
    } else if f.lane.open.Some? && f.lane.open.value.candle.openTime == b {
      TickOfTheOpenBar(f, symbol, tf, q);
    } else {
      TickOfANewBar(f, symbol, tf, q);
    }
  }

  lemma LateTickIsDropped(f: Feed, symbol: string, tf: Timeframe, q: Quote)
    requires IsBehind(f.lane, FloorToBucket(q.ts, tf))
    ensures IsDropped(f, Advance(f, symbol, tf, OnTick(q)))
  {
    hide FloorToBucket, WithTick;
  }

  lemma TickOfTheOpenBar(f: Feed, symbol: string, tf: Timeframe, q: Quote)
    requires !IsBehind(f.lane, FloorToBucket(q.ts, tf))
    requires f.lane.open.Some? && f.lane.open.value.candle.openTime == FloorToBucket(q.ts, tf)
    ensures IsGrowth(f, Advance(f, symbol, tf, OnTick(q)), FloorToBucket(q.ts, tf), q)
  {
    hide FloorToBucket, WithTick;
    var g := Advance(f, symbol, tf, OnTick(q));
    assert g.closed == f.closed;
  }

  lemma TickOfANewBar(f: Feed, symbol: string, tf: Timeframe, q: Quote)
    requires !IsBehind(f.lane, FloorToBucket(q.ts, tf))
    requires f.lane.open.Some? ==> f.lane.open.value.candle.openTime != FloorToBucket(q.ts, tf)
    requires Sound(f)
    ensures IsNewBar(f, Advance(f, symbol, tf, OnTick(q)), symbol, tf, FloorToBucket(q.ts, tf), q)
  {
    hide FloorToBucket, WithTick, Sound;
    BarsEnd(f);
    var g := Advance(f, symbol, tf, OnTick(q));
    assert Front(Bars(g)) == g.closed;
  }

  lemma GrowthKeepsGroups(f: Feed, g: Feed, tf: Timeframe, q: Quote)
    requires Groups(Bars(f), f.accepted, tf) && IsGrowth(f, g, FloorToBucket(q.ts, tf), q)
    ensures Groups(Bars(g), g.accepted, tf)
  {
    hide FloorToBucket, Groups, WithTick, Bars;
    GrowNewestBar(Bars(f), f.accepted, q, tf);
  }

  lemma NewBarKeepsGroups(f: Feed, g: Feed, symbol: string, tf: Timeframe, q: Quote)
    requires Groups(Bars(f), f.accepted, tf) && IsNewBar(f, g, symbol, tf, FloorToBucket(q.ts, tf), q)
    ensures Groups(Bars(g), g.accepted, tf)
  {
    hide FloorToBucket, Groups, WithTick, Bars;
    ClosingFlagIsFree(Bars(f), Front(Bars(g)), f.accepted, tf);
    StartNewestBar(Front(Bars(g)), f.accepted, q, symbol, tf);
    assert Bars(g) == Front(Bars(g)) + [Last(Bars(g))];
  }

  lemma TickOpensItsBucket(l: Lane, symbol: string, tf: Timeframe, joinedAt: Option<nat>, b: nat, q: Quote)
    ensures var m := TickLane(l, symbol, tf, joinedAt, b, q).lane;
            m.open.Some? ==> m.open.value.candle.openTime == b || m == l
  {
  }

  /** One tick: dropped, taken by the open bar, or the first of a new bar. */
  lemma TickKeepsBars(f: Feed, g: Feed, symbol: string, tf: Timeframe, q: Quote)
    requires Sound(f) && Groups(Bars(f), f.accepted, tf) && g == Advance(f, symbol, tf, OnTick(q))
    ensures Groups(Bars(g), g.accepted, tf)
  {
    TickShape(f, symbol, tf, q);
    hide *;
    if IsGrowth(f, g, FloorToBucket(q.ts, tf), q) {
      GrowthKeepsGroups(f, g, tf, q);
    } else if IsNewBar(f, g, symbol, tf, FloorToBucket(q.ts, tf), q) {
      NewBarKeepsGroups(f, g, symbol, tf, q);
    } else {
      DropKeepsGroups(f, g, tf);
    }
  }

  lemma TickKeepsGroups(f: Feed, symbol: string, tf: Timeframe, q: Quote)
    requires Grouped(f, tf)
    ensures Grouped(Advance(f, symbol, tf, OnTick(q)), tf)
  {
    BucketHoldsMoment(q.ts, tf);
    AdvanceIsSound(f, symbol, tf, OnTick(q));
    TickKeepsBars(f, Advance(f, symbol, tf, OnTick(q)), symbol, tf, q);
    TickOpensItsBucket(f.lane, symbol, tf, f.joinedAt, FloorToBucket(q.ts, tf), q);
    hide FloorToBucket, Groups, Aligned, Sound, Bars, TickLane;
  }

  lemma DropKeepsGroups(f: Feed, g: Feed, tf: Timeframe)
    requires Groups(Bars(f), f.accepted, tf) && IsDropped(f, g)
    ensures Groups(Bars(g), g.accepted, tf)
  {
  }

  lemma FlushShape(f: Feed, symbol: string, tf: Timeframe, now: nat)
    ensures var g := Advance(f, symbol, tf, OnFlush(now));
            && SameUpToClosing(Bars(f), Bars(g)) && g.accepted == f.accepted && g.late == f.late
            && (g.lane.open == f.lane.open || g.lane.open == None)
  {
    hide BucketClose;
  }

  lemma FlushKeepsGroups(f: Feed, symbol: string, tf: Timeframe, now: nat)
    requires Grouped(f, tf)
    ensures Grouped(Advance(f, symbol, tf, OnFlush(now)), tf)
  {
    var g := Advance(f, symbol, tf, OnFlush(now));
    AdvanceIsSound(f, symbol, tf, OnFlush(now));
    FlushShape(f, symbol, tf, now);
    hide Groups, Aligned, Sound, Advance, SameUpToClosing, Bars;
    ClosingFlagIsFree(Bars(f), Bars(g), f.accepted, tf);
  }

  lemma QuietOpKeepsGroups(f: Feed, symbol: string, tf: Timeframe, op: LaneOp)
    requires Grouped(f, tf) && (op.OnJoin? || op.OnTake?)
    ensures Grouped(Advance(f, symbol, tf, op), tf)
  {
    AdvanceIsSound(f, symbol, tf, op);
    hide Groups, Aligned, Sound;
    assert Bars(Advance(f, symbol, tf, op)) == Bars(f);
  }

  lemma CountsEveryTick(f: Feed, symbol: string, tf: Timeframe, op: LaneOp)
    ensures var g := Advance(f, symbol, tf, op);
            |g.accepted| + g.late == |f.accepted| + f.late + if op.OnTick? then 1 else 0
  {
    hide FloorToBucket, BucketClose;
  }

  /** Any stream of ticks, in order or not, with flushes and joins anywhere: the bars are the
      accepted ticks grouped by bucket, and every tick was either accepted or dropped. */
  lemma {:induction false} BarsAreTicksByBucket(symbol: string, tf: Timeframe, ops: seq<LaneOp>)
    requires NoRestore(ops)
    ensures var f := Run(symbol, tf, ops);
            Grouped(f, tf) && |f.accepted| + f.late == |Quotes(ops)|
  {
    if ops == [] {
      EmptyGroups(tf);
    } else {
      assert Last(ops) in ops && forall op :: op in Front(ops) ==> op in ops;
      BarsAreTicksByBucket(symbol, tf, Front(ops));
      var f := Run(symbol, tf, Front(ops));
      CountsEveryTick(f, symbol, tf, Last(ops));
      hide Advance, Grouped;
      match Last(ops)
      case OnTick(q) => TickKeepsGroups(f, symbol, tf, q);
      case OnFlush(now) => FlushKeepsGroups(f, symbol, tf, now);
      case OnJoin(moment) => QuietOpKeepsGroups(f, symbol, tf, Last(ops));
      case OnTake(t) => QuietOpKeepsGroups(f, symbol, tf, Last(ops));
    }
  }

  lemma EmptyGroups(tf: Timeframe)
    ensures Groups([], [], tf)
  {
  }

  // ---------------------------------------------------------------- in-order streams

  predicate Timed(op: LaneOp) {
    op.OnTick? || op.OnFlush?
  }

  function TimeOf(op: LaneOp): nat
    requires Timed(op)
  {
    if op.OnTick? then op.q.ts else op.now
  }

  /** No tick is older than a tick or a flush before it. */
  predicate InOrder(ops: seq<LaneOp>) {
    forall i, j :: 0 <= i < j < |ops| && Timed(ops[i]) && ops[j].OnTick? ==> TimeOf(ops[i]) <= ops[j].q.ts
  }

  predicate ReachedBy(ops: seq<LaneOp>, moment: nat) {
    forall op :: op in ops && Timed(op) ==> TimeOf(op) <= moment
  }

  ghost predicate NotAhead(l: Lane, bucket: nat) {
    && (l.open.Some? ==> l.open.value.candle.openTime <= bucket)
    && (l.lastClosed.Some? ==> l.lastClosed.value < bucket)
  }

  lemma TickNotAhead(l: Lane, symbol: string, tf: Timeframe, joinedAt: Option<nat>, b: nat, q: Quote, bucket: nat)
    requires NotAhead(l, bucket) && b <= bucket
    ensures NotAhead(TickLane(l, symbol, tf, joinedAt, b, q).lane, bucket)
  {
  }

  lemma FlushNotAhead(l: Lane, tf: Timeframe, now: nat, moment: nat)
    requires NotAhead(l, FloorToBucket(moment, tf)) && now <= moment
    requires l.open.Some? ==> Aligned(l.open.value.candle.openTime, tf)
    ensures NotAhead(FlushLane(l, tf, now).lane, FloorToBucket(moment, tf))
  {
    if l.open.Some? {
      AlignedReached(l.open.value.candle.openTime, moment, tf);
    }
    hide FloorToBucket;
  }

  /** Where the lane stands relative to a moment no op is later than. */
  lemma {:induction false} LaneIsNotAhead(symbol: string, tf: Timeframe, ops: seq<LaneOp>, moment: nat)
    requires NoRestore(ops) && ReachedBy(ops, moment)
    ensures NotAhead(Run(symbol, tf, ops).lane, FloorToBucket(moment, tf))
  {
    if ops != [] {
      assert Last(ops) in ops && forall op :: op in Front(ops) ==> op in ops;
      LaneIsNotAhead(symbol, tf, Front(ops), moment);
      BarsAreTicksByBucket(symbol, tf, Front(ops));
      var f := Run(symbol, tf, Front(ops));
      match Last(ops)
      case OnTick(q) =>
        FloorIsMonotone(q.ts, moment, tf);
        TickNotAhead(f.lane, symbol, tf, f.joinedAt, FloorToBucket(q.ts, tf), q, FloorToBucket(moment, tf));
        hide *;
      case OnFlush(now) =>
        FlushNotAhead(f.lane, tf, now, moment);
        hide FloorToBucket, BucketClose, Groups, Sound;
      case OnJoin(m) =>
      case OnTake(t) =>
    }
  }

  /** When nothing arrives late nothing is dropped, wherever the flushes fall. */
  lemma {:induction false} InOrderDropsNothing(symbol: string, tf: Timeframe, ops: seq<LaneOp>)
    requires NoRestore(ops) && InOrder(ops)
    ensures var f := Run(symbol, tf, ops);
            f.late == 0 && f.accepted == Quotes(ops)
  {
    hide FloorToBucket, BucketClose;
    if ops != [] {
      InOrderDropsNothing(symbol, tf, Front(ops));
      if Last(ops).OnTick? {
        LaneIsNotAhead(symbol, tf, Front(ops), Last(ops).q.ts);
      }
    }
  }

  lemma SummaryIsUnique(a: Candle, b: Candle, quotes: seq<Quote>)
    requires Summarizes(a, quotes) && Summarizes(b, quotes)
    ensures a.open == b.open && a.high == b.high && a.low == b.low && a.close == b.close
    ensures a.volume == b.volume && a.tickCount == b.tickCount
  {
  }

  lemma NoTimesNoCandles(a: seq<Candle>)
    ensures OpenTimes(a) == {} <==> a == []
  {
    if a != [] {
      assert a[0].openTime in OpenTimes(a);
    }
  }

  /** A strictly increasing list is determined by what is in it. */
  lemma {:induction false} SameSetSameOrder(a: seq<Candle>, b: seq<Candle>)
    requires StrictlyNewer(a) && StrictlyNewer(b) && OpenTimes(a) == OpenTimes(b)
    ensures |a| == |b| && forall i :: 0 <= i < |a| ==> a[i].openTime == b[i].openTime
    decreases |a|
  {
    if a == [] {
      NoTimesNoCandles(b);
    } else {
      assert Last(a).openTime in OpenTimes(b);
      assert Last(b).openTime in OpenTimes(a);
      assert Last(a).openTime == Last(b).openTime;
      assert a == Front(a) + [Last(a)] && b == Front(b) + [Last(b)];
      OpenTimesOfOneMore(Front(a), Last(a));
      OpenTimesOfOneMore(Front(b), Last(b));
      assert OpenTimes(Front(a)) == OpenTimes(a) - {Last(a).openTime};
      assert OpenTimes(Front(b)) == OpenTimes(b) - {Last(b).openTime};
      SameSetSameOrder(Front(a), Front(b));
    }
  }

  predicate BuiltBy(bars: seq<Candle>, symbol: string, tf: Timeframe) {
    forall c :: c in bars ==> c.symbol == symbol && c.timeframe == tf && c.isClosed
  }

  lemma {:induction false} QuotesMakeTheBuckets(bars: seq<Candle>, quotes: seq<Quote>, tf: Timeframe, t: nat)
    requires Groups(bars, quotes, tf) && t in OpenTimes(bars)
    ensures exists i :: 0 <= i < |quotes| && FloorToBucket(quotes[i].ts, tf) == t
  {
    hide FloorToBucket;
    if forall i :: 0 <= i < |quotes| ==> FloorToBucket(quotes[i].ts, tf) != t {
      EmptyBucket(quotes, tf, t);
    }
  }

  /** The grouping leaves no freedom: there is one list of bars for a list of quotes. */
  lemma GroupingIsUnique(a: seq<Candle>, b: seq<Candle>, quotes: seq<Quote>, symbol: string, tf: Timeframe)
    requires Groups(a, quotes, tf) && Groups(b, quotes, tf) && BuiltBy(a, symbol, tf) && BuiltBy(b, symbol, tf)
    ensures a == b
  {
    hide FloorToBucket, Summarizes;
    forall t ensures t in OpenTimes(a) <==> t in OpenTimes(b) {
      if t in OpenTimes(a) { QuotesMakeTheBuckets(a, quotes, tf, t); }
      if t in OpenTimes(b) { QuotesMakeTheBuckets(b, quotes, tf, t); }
    }
    SameSetSameOrder(a, b);
    forall i | 0 <= i < |a| ensures a[i] == b[i] {
      SummaryIsUnique(a[i], b[i], InBucket(quotes, tf, a[i].openTime));
      assert a[i] in a && b[i] in b;
    }
  }

  ghost predicate Labelled(f: Feed, symbol: string, tf: Timeframe) {
    && BuiltBy(f.closed, symbol, tf)
    && (f.lane.open.Some? ==> f.lane.open.value.candle.symbol == symbol && f.lane.open.value.candle.timeframe == tf)
  }

  lemma {:induction false} BarsAreLabelled(symbol: string, tf: Timeframe, ops: seq<LaneOp>)
    requires NoRestore(ops)
    ensures Labelled(Run(symbol, tf, ops), symbol, tf)
  {
    hide FloorToBucket, BucketClose;
    if ops != [] {
      BarsAreLabelled(symbol, tf, Front(ops));
    }
  }

  /** A flush late enough for every tick leaves nothing open. */
  lemma FlushedBars(symbol: string, tf: Timeframe, ops: seq<LaneOp>, now: nat)
    requires NoRestore(ops) && InOrder(ops)
    requires forall q :: q in Quotes(ops) ==> BucketClose(FloorToBucket(q.ts, tf), tf) <= now
    ensures var f := Run(symbol, tf, ops + [OnFlush(now)]);
            Groups(f.closed, Quotes(ops), tf) && BuiltBy(f.closed, symbol, tf)
  {
    hide FloorToBucket, BucketClose, Groups, Sound, Aligned, InOrder, Run, Advance;
    var all := ops + [OnFlush(now)];
    assert Front(all) == ops;
    BarsAreTicksByBucket(symbol, tf, ops);
    BarsAreTicksByBucket(symbol, tf, all);
    BarsAreLabelled(symbol, tf, all);
    InOrderDropsNothing(symbol, tf, ops);
    OneMoreOp(symbol, tf, ops, OnFlush(now));
    FlushEmpties(Run(symbol, tf, ops), symbol, tf, now);
    assert Bars(Run(symbol, tf, all)) == Run(symbol, tf, all).closed;
  }

  lemma OneMoreOp(symbol: string, tf: Timeframe, ops: seq<LaneOp>, op: LaneOp)
    ensures Run(symbol, tf, ops + [op]) == Advance(Run(symbol, tf, ops), symbol, tf, op)
  {
    assert Front(ops + [op]) == ops;
  }

  lemma FlushEmpties(f: Feed, symbol: string, tf: Timeframe, now: nat)
    requires Groups(Bars(f), f.accepted, tf)
    requires forall q :: q in f.accepted ==> BucketClose(FloorToBucket(q.ts, tf), tf) <= now
    ensures var g := Advance(f, symbol, tf, OnFlush(now));
            g.lane.open.None? && g.accepted == f.accepted
  {
    hide FloorToBucket, BucketClose, Groups, OpenTimes;
    if f.lane.open.Some? {
      var t := f.lane.open.value.candle.openTime;
      LastOpensIn(f.closed, f.lane.open.value.candle);
      QuotesMakeTheBuckets(Bars(f), f.accepted, tf, t);
      var i :| 0 <= i < |f.accepted| && FloorToBucket(f.accepted[i].ts, tf) == t;
      assert f.accepted[i] in f.accepted;
    }
  }

  lemma LastOpensIn(candles: seq<Candle>, c: Candle)
    ensures c.openTime in OpenTimes(candles + [c])
  {
    OpenTimesOfOneMore(candles, c);
  }

  /** Two runs over the same ticks, flushed at different moments, close the same bars: nothing is
      dropped and the timer only decides when a bar goes out, never what is in it. */
  lemma FlushTimingIsIrrelevant(symbol: string, tf: Timeframe, ops: seq<LaneOp>, others: seq<LaneOp>, now: nat, later: nat)
    requires NoRestore(ops) && NoRestore(others) && InOrder(ops) && InOrder(others)
    requires Quotes(ops) == Quotes(others)
    requires forall q :: q in Quotes(ops) ==> BucketClose(FloorToBucket(q.ts, tf), tf) <= now && BucketClose(FloorToBucket(q.ts, tf), tf) <= later
    ensures Run(symbol, tf, ops + [OnFlush(now)]).closed == Run(symbol, tf, others + [OnFlush(later)]).closed
    ensures Groups(Run(symbol, tf, ops + [OnFlush(now)]).closed, Quotes(ops), tf)
  {
    FlushedBars(symbol, tf, ops, now);
    FlushedBars(symbol, tf, others, later);
    GroupingIsUnique(Run(symbol, tf, ops + [OnFlush(now)]).closed, Run(symbol, tf, others + [OnFlush(later)]).closed,
                     Quotes(ops), symbol, tf);
  }

  // ---------------------------------------------------------------- a resumed bar

  function Ticked(f: Feed, symbol: string, tf: Timeframe, quotes: seq<Quote>): Feed {
    if quotes == [] then f else Advance(Ticked(f, symbol, tf, Front(quotes)), symbol, tf, OnTick(Last(quotes)))
  }

  /** The saved bar with the ticks since on top of it. */
  ghost predicate GoesOn(c: Candle, saved: Candle, quotes: seq<Quote>, symbol: string) {
    && c.symbol == symbol && c.timeframe == saved.timeframe && c.openTime == saved.openTime && !c.isClosed
    && c.open == saved.open && c.close == (if quotes == [] then saved.close else Last(quotes).price)
    && c.low <= saved.low && saved.high <= c.high
    && (forall i :: 0 <= i < |quotes| ==> c.low <= quotes[i].price <= c.high)
    && (c.high == saved.high || exists i :: 0 <= i < |quotes| && quotes[i].price == c.high)
    && (c.low == saved.low || exists i :: 0 <= i < |quotes| && quotes[i].price == c.low)
    && c.volume == saved.volume + SumVolume(quotes) && c.tickCount == saved.tickCount + |quotes|
  }

  lemma GoesOnWithOneMore(c: Candle, saved: Candle, quotes: seq<Quote>, symbol: string, q: Quote)
    requires GoesOn(c, saved, quotes, symbol)
    ensures GoesOn(WithTick(c, q.price, q.volume), saved, quotes + [q], symbol)
  {
    var more := quotes + [q];
    assert Front(more) == quotes && more[|quotes|] == q;
    assert forall i :: 0 <= i < |quotes| ==> more[i] == quotes[i];
  }

  /** A bar resumed after a restart, unless its bucket has gone out, replaces whatever was open and holds
      what was saved of it; the ticks of its bucket go on top of that, and none of them is dropped. */
  lemma {:induction false} AResumedBarGoesOn(f: Feed, symbol: string, tf: Timeframe, saved: Candle, quotes: seq<Quote>)
    requires f.lane.lastClosed.None? || f.lane.lastClosed.value < saved.openTime
    requires forall i :: 0 <= i < |quotes| ==> FloorToBucket(quotes[i].ts, tf) == saved.openTime
    ensures var g := Ticked(Advance(f, symbol, tf, OnRestore(saved)), symbol, tf, quotes);
            && g.lane.open.Some? && g.lane.open.value.partial && GoesOn(g.lane.open.value.candle, saved, quotes, symbol)
            && g.closed == f.closed && g.lane.lastClosed == f.lane.lastClosed && g.accepted == f.accepted + quotes && g.late == f.late
  {
    hide FloorToBucket, WithTick, GoesOn;
    if quotes == [] {
      NothingOnTop(saved, symbol);
    } else {
      AResumedBarGoesOn(f, symbol, tf, saved, Front(quotes));
      var g := Ticked(Advance(f, symbol, tf, OnRestore(saved)), symbol, tf, Front(quotes));
      GoesOnMeans(g.lane.open.value.candle, saved, Front(quotes), symbol);
      GoesOnWithOneMore(g.lane.open.value.candle, saved, Front(quotes), symbol, Last(quotes));
      assert Front(quotes) + [Last(quotes)] == quotes;
    }
  }

  lemma NothingOnTop(saved: Candle, symbol: string)
    ensures GoesOn(saved.(symbol := symbol, isClosed := false), saved, [], symbol)
  {
  }

  lemma GoesOnMeans(c: Candle, saved: Candle, quotes: seq<Quote>, symbol: string)
    requires GoesOn(c, saved, quotes, symbol)
    ensures c.openTime == saved.openTime
  {
  }

  /** It goes out with the first flush after its bucket has ended, once and partial. */
  lemma AResumedBarGoesOut(f: Feed, symbol: string, tf: Timeframe, saved: Candle, quotes: seq<Quote>, now: nat)
    requires f.lane.lastClosed.None? || f.lane.lastClosed.value < saved.openTime
    requires forall i :: 0 <= i < |quotes| ==> FloorToBucket(quotes[i].ts, tf) == saved.openTime
    requires saved.openTime + Duration(tf) <= now
    ensures var g := Ticked(Advance(f, symbol, tf, OnRestore(saved)), symbol, tf, quotes);
            var h := Advance(g, symbol, tf, OnFlush(now));
            && g.lane.open.Some? && h.lane.open.None? && saved.openTime in h.partials
            && h.closed == f.closed + [g.lane.open.value.candle.(isClosed := true)]
  {
    AResumedBarGoesOn(f, symbol, tf, saved, quotes);
    hide FloorToBucket, Ticked;
    var g := Ticked(Advance(f, symbol, tf, OnRestore(saved)), symbol, tf, quotes);
    GoesOnMeans(g.lane.open.value.candle, saved, quotes, symbol);
    hide GoesOn;
  }

  // ---------------------------------------------------------------- one tick, one flush

  /** What a flush does to a timeframe: the open bar goes out closed if its bucket has ended, and only then. */
  lemma AFlushClosesWhatHasEnded(f: Feed, symbol: string, tf: Timeframe, now: nat)
    ensures var g := Advance(f, symbol, tf, OnFlush(now));
            && g.accepted == f.accepted && g.late == f.late && g.joinedAt == f.joinedAt
            && if f.lane.open.Some? && f.lane.open.value.candle.openTime + Duration(tf) <= now
               then g.lane.open.None? && g.closed == f.closed + [f.lane.open.value.candle.(isClosed := true)]
                    && g.lane.lastClosed == Some(f.lane.open.value.candle.openTime)
               else g == f
  {
    assert f.closed + [] == f.closed && f.partials + {} == f.partials;
  }

  /** A tick is dropped if and only if its bucket is spent or older than the open bar; one in a newer bucket
      than the open bar sends that out first, and nothing else does. */
  lemma ATickIsTakenOrDropped(f: Feed, symbol: string, tf: Timeframe, q: Quote)
    ensures var (g, b) := (Advance(f, symbol, tf, OnTick(q)), FloorToBucket(q.ts, tf));
            if IsBehind(f.lane, b) then g == f.(late := f.late + 1)
            else
              && g.late == f.late && g.accepted == f.accepted + [q] && g.joinedAt == f.joinedAt
              && g.closed == f.closed + (if f.lane.open.Some? && f.lane.open.value.candle.openTime < b
                                         then [f.lane.open.value.candle.(isClosed := true)] else [])
              && g.lane.open.Some? && g.lane.open.value.candle.openTime == b
  {
    hide FloorToBucket;
  }
}
