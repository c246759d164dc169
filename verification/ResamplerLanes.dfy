/** The whole resampler, every timeframe at once, is its lanes side by side: this carries what is
    proved about one timeframe over to the class. */
module ResamplerLanes {
  import opened Prelude
  import opened Timeframes
  import opened MarketData
  import opened ResamplerModel
  import opened ResamplerRuns

  /** A call on the class. A tick whose price could not be resolved never gets this far. */
  datatype Call =
    | AddTick(q: Quote)
    | Flush(now: nat)
    | Restore(c: Candle)
    | MarkJoined(moment: nat)
    | TakePartial(tf: Timeframe, openTime: nat)

  datatype State = State(lanes: map<Timeframe, Lane>, joinedAt: Option<nat>, closed: seq<Candle>)

  /** The class's method contracts, composed over a list of calls. */
  function RunCalls(symbol: string, tfs: seq<Timeframe>, calls: seq<Call>): (s: State)
    ensures forall tf :: tf in s.lanes <==> tf in tfs
  {
    if calls == [] then State(map tf | tf in tfs :: EMPTY_LANE, None, [])
    else Called(RunCalls(symbol, tfs, Front(calls)), symbol, tfs, Last(calls))
  }

  function Called(s: State, symbol: string, tfs: seq<Timeframe>, call: Call): (t: State)
    requires forall tf :: tf in tfs ==> tf in s.lanes
    ensures t.lanes.Keys == s.lanes.Keys
  {
    match call
    case AddTick(q) =>
      var b := TickAll(s.lanes, tfs, symbol, s.joinedAt, q);
      s.(lanes := b.lanes, closed := s.closed + b.closed)
    case Flush(now) =>
      var b := FlushAll(s.lanes, tfs, now);
      s.(lanes := b.lanes, closed := s.closed + b.closed)
    case Restore(c) =>
      if c.timeframe in tfs then s.(lanes := s.lanes[c.timeframe := RestoreLane(s.lanes[c.timeframe], symbol, c)]) else s
    case MarkJoined(moment) => s.(joinedAt := Some(moment))
    case TakePartial(tf, t) =>
      if tf in tfs then s.(lanes := s.lanes[tf := WithoutMarker(s.lanes[tf], t)]) else s
  }

  /** The calls one timeframe notices. */
  function Seen(calls: seq<Call>, tf: Timeframe): seq<LaneOp> {
    if calls == [] then [] else Seen(Front(calls), tf) + Noticed(Last(calls), tf)
  }

  function Noticed(call: Call, tf: Timeframe): seq<LaneOp> {
    match call
    case AddTick(q) => [OnTick(q)]
    case Flush(now) => [OnFlush(now)]
    case Restore(c) => if c.timeframe == tf then [OnRestore(c)] else []
    case MarkJoined(moment) => [OnJoin(moment)]
    case TakePartial(other, t) => if other == tf then [OnTake(t)] else []
  }

  function OfTimeframe(candles: seq<Candle>, tf: Timeframe): seq<Candle> {
    if candles == [] then []
    else OfTimeframe(Front(candles), tf) + if Last(candles).timeframe == tf then [Last(candles)] else []
  }

  lemma {:induction false} OfTimeframeAppends(a: seq<Candle>, b: seq<Candle>, tf: Timeframe)
    ensures OfTimeframe(a + b, tf) == OfTimeframe(a, tf) + OfTimeframe(b, tf)
  {
    if b == [] {
      assert a + b == a;
    } else {
      assert Front(a + b) == a + Front(b) && Last(a + b) == Last(b);
      OfTimeframeAppends(a, Front(b), tf);
    }
  }

  predicate OpenBarsLabelled(lanes: map<Timeframe, Lane>) {
    forall tf :: tf in lanes && lanes[tf].open.Some? ==> lanes[tf].open.value.candle.timeframe == tf
  }

  lemma TickClosesItsOwn(l: Lane, symbol: string, tf: Timeframe, joinedAt: Option<nat>, b: nat, q: Quote)
    requires l.open.Some? ==> l.open.value.candle.timeframe == tf
    ensures var c := TickLane(l, symbol, tf, joinedAt, b, q).closed;
            c.Some? ==> c.value.timeframe == tf
  {
  }

  lemma LabelledAt(lanes: map<Timeframe, Lane>, t: Timeframe)
    requires OpenBarsLabelled(lanes) && t in lanes
    ensures lanes[t].open.Some? ==> lanes[t].open.value.candle.timeframe == t
  {
  }

  lemma OfNoTimeframe(tf: Timeframe)
    ensures OfTimeframe([], tf) == []
  {
  }

  lemma LastIsNew(tfs: seq<Timeframe>)
    requires tfs != [] && Distinct(tfs)
    ensures |Front(tfs)| < |tfs| && Distinct(Front(tfs)) && Last(tfs) in tfs && Last(tfs) !in Front(tfs)
    ensures forall t :: t in tfs <==> t in Front(tfs) || t == Last(tfs)
  {
    assert tfs == Front(tfs) + [Last(tfs)];
  }

  /** A batch holds at most one bar of a timeframe: the one that timeframe's lane closed. */
  lemma {:induction false} TickBatchPerLane(lanes: map<Timeframe, Lane>, tfs: seq<Timeframe>, symbol: string,
                                            joinedAt: Option<nat>, q: Quote, tf: Timeframe)
    requires Distinct(tfs) && OpenBarsLabelled(lanes) && forall t :: t in tfs ==> t in lanes
    ensures OfTimeframe(TickAll(lanes, tfs, symbol, joinedAt, q).closed, tf)
         == if tf in tfs then Listed(TickLane(lanes[tf], symbol, tf, joinedAt, FloorToBucket(q.ts, tf), q).closed) else []
    decreases |tfs|
  {
    hide FloorToBucket, TickLane, OpenBarsLabelled, Listed, OfTimeframe, Distinct, Front, Last;
    if tfs == [] {
      OfNoTimeframe(tf);
    } else {
      var t := Last(tfs);
      LastIsNew(tfs);
      TickAllPerLane(lanes, Front(tfs), symbol, joinedAt, q);
      LabelledAt(lanes, t);
      TickClosesItsOwn(lanes[t], symbol, t, joinedAt, FloorToBucket(q.ts, t), q);
      TickBatchPerLane(lanes, Front(tfs), symbol, joinedAt, q, tf);
      var one := TickLane(lanes[t], symbol, t, joinedAt, FloorToBucket(q.ts, t), q).closed;
      OfTimeframeAppends(TickAll(lanes, Front(tfs), symbol, joinedAt, q).closed, Listed(one), tf);
      OneOfTimeframe(one, t, tf);
    }
  }

  lemma OneOfTimeframe(one: Option<Candle>, t: Timeframe, tf: Timeframe)
    requires one.Some? ==> one.value.timeframe == t
    ensures OfTimeframe(Listed(one), tf) == if t == tf then Listed(one) else []
  {
    if one.Some? {
      assert Front([one.value]) == [] && Last([one.value]) == one.value;
    }
  }

  lemma FlushClosesItsOwn(l: Lane, tf: Timeframe, now: nat)
    requires l.open.Some? ==> l.open.value.candle.timeframe == tf
    ensures var c := FlushLane(l, tf, now).closed;
            c.Some? ==> c.value.timeframe == tf
  {
  }

  lemma {:induction false} FlushBatchPerLane(lanes: map<Timeframe, Lane>, tfs: seq<Timeframe>, now: nat, tf: Timeframe)
    requires Distinct(tfs) && OpenBarsLabelled(lanes) && forall t :: t in tfs ==> t in lanes
    ensures OfTimeframe(FlushAll(lanes, tfs, now).closed, tf)
         == if tf in tfs then Listed(FlushLane(lanes[tf], tf, now).closed) else []
    decreases |tfs|
  {
    hide FlushLane, OpenBarsLabelled, Listed, OfTimeframe, Distinct, Front, Last;
    if tfs == [] {
      OfNoTimeframe(tf);
    } else {
      var t := Last(tfs);
      LastIsNew(tfs);
      FlushAllPerLane(lanes, Front(tfs), now);
      LabelledAt(lanes, t);
      FlushClosesItsOwn(lanes[t], t, now);
      FlushBatchPerLane(lanes, Front(tfs), now, tf);
      var one := FlushLane(lanes[t], t, now).closed;
      OfTimeframeAppends(FlushAll(lanes, Front(tfs), now).closed, Listed(one), tf);
      OneOfTimeframe(one, t, tf);
    }
  }

  ghost predicate LaneAgrees(s: State, f: Feed, tf: Timeframe)
    requires tf in s.lanes
  {
    s.lanes[tf].open == f.lane.open && s.lanes[tf].lastClosed == f.lane.lastClosed
    && s.lanes[tf].partialCloses == f.lane.partialCloses
    && s.joinedAt == f.joinedAt && OfTimeframe(s.closed, tf) == f.closed
  }

  lemma {:induction false} OpenBarsStayLabelled(symbol: string, tfs: seq<Timeframe>, calls: seq<Call>)
    requires Distinct(tfs)
    ensures OpenBarsLabelled(RunCalls(symbol, tfs, calls).lanes)
  {
    hide Called, Distinct;
    if calls != [] {
      OpenBarsStayLabelled(symbol, tfs, Front(calls));
      CallKeepsLabels(RunCalls(symbol, tfs, Front(calls)), symbol, tfs, Last(calls));
    }
  }

  lemma TickKeepsLabel(l: Lane, symbol: string, tf: Timeframe, joinedAt: Option<nat>, b: nat, q: Quote)
    requires l.open.Some? ==> l.open.value.candle.timeframe == tf
    ensures var m := TickLane(l, symbol, tf, joinedAt, b, q).lane;
            m.open.Some? ==> m.open.value.candle.timeframe == tf
  {
  }

  lemma TickingKeepsLabels(s: State, symbol: string, tfs: seq<Timeframe>, q: Quote)
    requires Distinct(tfs) && OpenBarsLabelled(s.lanes) && forall tf :: tf in tfs <==> tf in s.lanes
    ensures OpenBarsLabelled(TickAll(s.lanes, tfs, symbol, s.joinedAt, q).lanes)
  {
    hide TickLane, TickAll, FloorToBucket, Distinct;
    TickAllPerLane(s.lanes, tfs, symbol, s.joinedAt, q);
    var after := TickAll(s.lanes, tfs, symbol, s.joinedAt, q).lanes;
    forall tf | tf in after && after[tf].open.Some? ensures after[tf].open.value.candle.timeframe == tf {
      TickKeepsLabel(s.lanes[tf], symbol, tf, s.joinedAt, FloorToBucket(q.ts, tf), q);
    }
  }

  lemma FlushingKeepsLabels(lanes: map<Timeframe, Lane>, tfs: seq<Timeframe>, now: nat)
    requires Distinct(tfs) && OpenBarsLabelled(lanes) && forall tf :: tf in tfs <==> tf in lanes
    ensures OpenBarsLabelled(FlushAll(lanes, tfs, now).lanes)
  {
    hide FlushAll, BucketClose, Distinct;
    FlushAllPerLane(lanes, tfs, now);
  }

  lemma CallKeepsLabels(s: State, symbol: string, tfs: seq<Timeframe>, call: Call)
    requires Distinct(tfs) && OpenBarsLabelled(s.lanes) && forall tf :: tf in tfs <==> tf in s.lanes
    ensures OpenBarsLabelled(Called(s, symbol, tfs, call).lanes)
  {
    hide TickAll, FlushAll, Distinct;
    match call
    case AddTick(q) => TickingKeepsLabels(s, symbol, tfs, q);
    case Flush(now) => FlushingKeepsLabels(s.lanes, tfs, now);
    case Restore(c) =>
    case MarkJoined(m) =>
    case TakePartial(t, o) =>
  }

  lemma TickCallAgrees(s: State, f: Feed, symbol: string, tfs: seq<Timeframe>, q: Quote, tf: Timeframe)
    requires Distinct(tfs) && tf in tfs && OpenBarsLabelled(s.lanes) && forall t :: t in tfs ==> t in s.lanes
    requires LaneAgrees(s, f, tf)
    ensures var b := TickAll(s.lanes, tfs, symbol, s.joinedAt, q);
            LaneAgrees(s.(lanes := b.lanes, closed := s.closed + b.closed), Advance(f, symbol, tf, OnTick(q)), tf)
  {
    TickAllPerLane(s.lanes, tfs, symbol, s.joinedAt, q);
    TickBatchPerLane(s.lanes, tfs, symbol, s.joinedAt, q, tf);
    OfTimeframeAppends(s.closed, TickAll(s.lanes, tfs, symbol, s.joinedAt, q).closed, tf);
    LateTickChangesNothing(s.lanes[tf], symbol, tf, s.joinedAt, FloorToBucket(q.ts, tf), q);
    hide FloorToBucket, TickLane, TickAll, OfTimeframe;
  }

  lemma FlushCallAgrees(s: State, f: Feed, symbol: string, tfs: seq<Timeframe>, now: nat, tf: Timeframe)
    requires Distinct(tfs) && tf in tfs && OpenBarsLabelled(s.lanes) && forall t :: t in tfs ==> t in s.lanes
    requires LaneAgrees(s, f, tf)
    ensures var b := FlushAll(s.lanes, tfs, now);
            LaneAgrees(s.(lanes := b.lanes, closed := s.closed + b.closed), Advance(f, symbol, tf, OnFlush(now)), tf)
  {
    FlushAllPerLane(s.lanes, tfs, now);
    FlushBatchPerLane(s.lanes, tfs, now, tf);
    OfTimeframeAppends(s.closed, FlushAll(s.lanes, tfs, now).closed, tf);
    hide FlushLane, FlushAll, OfTimeframe;
  }

  /** Whatever is called on the class, each timeframe behaves as if it were alone. */
  lemma {:induction false} EveryTimeframeIsItsOwnRun(symbol: string, tfs: seq<Timeframe>, calls: seq<Call>, tf: Timeframe)
    requires Distinct(tfs) && tf in tfs
    ensures LaneAgrees(RunCalls(symbol, tfs, calls), Run(symbol, tf, Seen(calls, tf)), tf)
  {
    hide Called, Advance, Noticed, LaneAgrees, OpenBarsLabelled, Distinct;
    if calls == [] {
      StartAgrees(symbol, tfs, tf);
    } else {
      EveryTimeframeIsItsOwnRun(symbol, tfs, Front(calls), tf);
      OpenBarsStayLabelled(symbol, tfs, Front(calls));
      var (before, more) := (Seen(Front(calls), tf), Noticed(Last(calls), tf));
      CallAgrees(RunCalls(symbol, tfs, Front(calls)), Run(symbol, tf, before), symbol, tfs, Last(calls), tf);
      if more == [] {
        assert Seen(calls, tf) == before;
      } else {
        assert Seen(calls, tf) == before + [more[0]];
        assert Front(before + [more[0]]) == before;
      }
    }
  }

  lemma StartAgrees(symbol: string, tfs: seq<Timeframe>, tf: Timeframe)
    requires tf in tfs
    ensures LaneAgrees(RunCalls(symbol, tfs, []), Run(symbol, tf, []), tf)
  {
  }

  /** One call: the timeframe notices it as one step of its own, or not at all. */
  lemma CallAgrees(s: State, f: Feed, symbol: string, tfs: seq<Timeframe>, call: Call, tf: Timeframe)
    requires Distinct(tfs) && tf in tfs && OpenBarsLabelled(s.lanes) && forall t :: t in tfs ==> t in s.lanes
    requires LaneAgrees(s, f, tf)
    ensures var (t, more) := (Called(s, symbol, tfs, call), Noticed(call, tf));
            && |more| <= 1 && tf in t.lanes
            && LaneAgrees(t, if more == [] then f else Advance(f, symbol, tf, more[0]), tf)
  {
    hide TickLane, FlushLane, TickAll, FlushAll, OfTimeframe, FloorToBucket, Distinct, OpenBarsLabelled;
    match call
    case AddTick(q) => TickCallAgrees(s, f, symbol, tfs, q, tf);
    case Flush(now) => FlushCallAgrees(s, f, symbol, tfs, now, tf);
    case Restore(c) =>
    case MarkJoined(m) =>
    case TakePartial(t, o) =>
  }

  lemma LateTickChangesNothing(l: Lane, symbol: string, tf: Timeframe, joinedAt: Option<nat>, b: nat, q: Quote)
    ensures var step := TickLane(l, symbol, tf, joinedAt, b, q);
            step.late ==> step.lane == l && step.closed == None
  {
  }
}
