/** Ticks in, completed candles out (src/qte_ingestion/resampler.py).

    A lane is what the resampler knows about one timeframe, as a value. The classes below are
    proved to move every lane as the lane functions say; what the resampler promises is then
    proved about lanes, over whole runs, in ResamplerRuns and CrossTimeframe. */
module ResamplerModel {
  import opened Prelude
  import opened Timeframes
  import opened MarketData

  /** A bar under construction. */
  datatype Building = Building(candle: Candle, partial: bool)

  datatype Lane = Lane(open: Option<Building>, lastClosed: Option<nat>, partialCloses: set<nat>)

  datatype Step = Step(lane: Lane, closed: Option<Candle>, late: bool)

  const EMPTY_LANE := Lane(None, None, {})

  function StartBar(symbol: string, tf: Timeframe, bucket: nat, price: real): Candle {
    Candle(symbol, tf, bucket, price, price, price, price, 0.0, 0, false)
  }

  function WithTick(c: Candle, price: real, volume: real): Candle {
    c.(high := Max(c.high, price), low := Min(c.low, price), close := price,
       volume := c.volume + volume, tickCount := c.tickCount + 1)
  }

  function OpenBuilder(symbol: string, tf: Timeframe, joinedAt: Option<nat>, bucket: nat, price: real): Building {
    Building(StartBar(symbol, tf, bucket, price), joinedAt.Some? && bucket < joinedAt.value)
  }

  /** The lane once its open bar has been retired. */
  function Retired(l: Lane): Lane
    requires l.open.Some?
  {
    var b := l.open.value;
    Lane(None, Some(b.candle.openTime),
         if b.partial then l.partialCloses + {b.candle.openTime} else l.partialCloses)
  }

  function Snapshot(l: Lane): Candle
    requires l.open.Some?
  {
    l.open.value.candle.(isClosed := true)
  }

  function Folded(l: Lane, b: Building, q: Quote): Lane {
    l.(open := Some(b.(candle := WithTick(b.candle, q.price, q.volume))))
  }

  /** One tick, seen by one timeframe; `bucket` is the bucket it falls into there. */
  function TickLane(l: Lane, symbol: string, tf: Timeframe, joinedAt: Option<nat>, bucket: nat, q: Quote): Step {
    if l.lastClosed.Some? && bucket <= l.lastClosed.value then
      Step(l, None, true)
    else if l.open.None? then
      Step(Folded(l, OpenBuilder(symbol, tf, joinedAt, bucket, q.price), q), None, false)
    else if bucket > l.open.value.candle.openTime then
      Step(Folded(Retired(l), OpenBuilder(symbol, tf, joinedAt, bucket, q.price), q), Some(Snapshot(l)), false)
    else if bucket < l.open.value.candle.openTime then
      Step(l, None, true)
    else
      Step(Folded(l, l.open.value, q), None, false)
  }

  /** The flush timer, seen by one timeframe. */
  function FlushLane(l: Lane, tf: Timeframe, now: nat): Step {
    if l.open.Some? && now >= BucketClose(l.open.value.candle.openTime, tf) then
      Step(Retired(l), Some(Snapshot(l)), false)
    else
      Step(l, None, false)
  }

  /** A bar resumed after a restart; it replaces whatever was open and is always partial. */
  function RestoreLane(l: Lane, symbol: string, c: Candle): Lane {
    if l.lastClosed.Some? && c.openTime <= l.lastClosed.value then l
    else l.(open := Some(Building(c.(symbol := symbol, isClosed := false), true)))
  }

  function WithoutMarker(l: Lane, openTime: nat): Lane {
    l.(partialCloses := l.partialCloses - {openTime})
  }

  /** Every lane after a call, with the bars the call closed. */
  datatype Batch = Batch(lanes: map<Timeframe, Lane>, closed: seq<Candle>)

  function Listed<T>(one: Option<T>): seq<T> {
    if one.Some? then [one.value] else []
  }

  /** A tick, folded into the listed timeframes one after another. */
  function TickAll(lanes: map<Timeframe, Lane>, tfs: seq<Timeframe>, symbol: string,
                   joinedAt: Option<nat>, q: Quote): (b: Batch)
    requires forall tf :: tf in tfs ==> tf in lanes
    ensures b.lanes.Keys == lanes.Keys
  {
    if tfs == [] then Batch(lanes, [])
    else
      var (before, tf) := (TickAll(lanes, Front(tfs), symbol, joinedAt, q), Last(tfs));
      var step := TickLane(before.lanes[tf], symbol, tf, joinedAt, FloorToBucket(q.ts, tf), q);
      Batch(before.lanes[tf := step.lane], before.closed + Listed(step.closed))
  }

  /** The flush timer, over the listed timeframes. */
  function FlushAll(lanes: map<Timeframe, Lane>, tfs: seq<Timeframe>, now: nat): (b: Batch)
    requires forall tf :: tf in tfs ==> tf in lanes
    ensures b.lanes.Keys == lanes.Keys
  {
    if tfs == [] then Batch(lanes, [])
    else
      var (before, tf) := (FlushAll(lanes, Front(tfs), now), Last(tfs));
      var step := FlushLane(before.lanes[tf], tf, now);
      Batch(before.lanes[tf := step.lane], before.closed + Listed(step.closed))
  }

  predicate Distinct<T(==)>(s: seq<T>) {
    forall i, j :: 0 <= i < j < |s| ==> s[i] != s[j]
  }

  /** With distinct timeframes each lane takes the tick exactly once, whatever the others do. */
  lemma {:induction false} TickAllPerLane(lanes: map<Timeframe, Lane>, tfs: seq<Timeframe>, symbol: string,
                                          joinedAt: Option<nat>, q: Quote)
    requires Distinct(tfs) && forall tf :: tf in tfs ==> tf in lanes
    ensures forall tf :: tf in tfs ==>
              TickAll(lanes, tfs, symbol, joinedAt, q).lanes[tf]
              == TickLane(lanes[tf], symbol, tf, joinedAt, FloorToBucket(q.ts, tf), q).lane
    ensures forall tf :: tf in lanes && tf !in tfs ==> TickAll(lanes, tfs, symbol, joinedAt, q).lanes[tf] == lanes[tf]
    decreases |tfs|
  {
    hide TickLane, FloorToBucket;
    if tfs != [] {
      TickAllPerLane(lanes, Front(tfs), symbol, joinedAt, q);
    }
  }

  lemma {:induction false} FlushAllPerLane(lanes: map<Timeframe, Lane>, tfs: seq<Timeframe>, now: nat)
    requires Distinct(tfs) && forall tf :: tf in tfs ==> tf in lanes
    ensures forall tf :: tf in tfs ==> FlushAll(lanes, tfs, now).lanes[tf] == FlushLane(lanes[tf], tf, now).lane
    ensures forall tf :: tf in lanes && tf !in tfs ==> FlushAll(lanes, tfs, now).lanes[tf] == lanes[tf]
    decreases |tfs|
  {
    hide FlushLane;
    if tfs != [] {
      FlushAllPerLane(lanes, Front(tfs), now);
    }
  }

  /** Accumulates ticks into the one bar currently open for a timeframe. */
  class BarBuilder {
    const symbol: string
    const timeframe: Timeframe
    const openTime: nat
    var open: real
    var high: real
    var low: real
    var close: real
    var volume: real
    var tickCount: nat
    var partial: bool

    constructor (symbol: string, timeframe: Timeframe, openTime: nat, price: real, partial: bool)
      ensures View() == Building(StartBar(symbol, timeframe, openTime, price), partial)
    {
      this.symbol, this.timeframe, this.openTime := symbol, timeframe, openTime;
      open, high, low, close := price, price, price, price;
      volume, tickCount := 0.0, 0;
      this.partial := partial;
    }

    function View(): Building
      reads this
    {
      Building(Candle(symbol, timeframe, openTime, open, high, low, close, volume, tickCount, false), partial)
    }

    method Update(price: real, tickVolume: real)
      modifies this
      ensures View() == old(View()).(candle := WithTick(old(View()).candle, price, tickVolume))
    {
      high := Max(high, price);
      low := Min(low, price);
      close := price;
      volume := volume + tickVolume;
      tickCount := tickCount + 1;
    }

    method TakeSnapshot(isClosed: bool) returns (c: Candle)
      ensures c == View().candle.(isClosed := isClosed)
    {
      c := Candle(symbol, timeframe, openTime, open, high, low, close, volume, tickCount, isClosed);
    }
  }

  /** Builds candles for one symbol across several timeframes at once. */
  class Resampler {
    const symbol: string
    const timeframes: seq<Timeframe>
    var builders: map<Timeframe, BarBuilder>
    var lastClosed: map<Timeframe, nat>
    var joinedAt: Option<nat>
    var partialCloses: set<(Timeframe, nat)>
    /** What the fields above hold, one lane per timeframe. */
    ghost var lanes: map<Timeframe, Lane>
    ghost var repr: set<BarBuilder>

    ghost predicate Shows(tf: Timeframe, l: Lane)
      reads this, repr
    {
      && (tf in builders ==> builders[tf] in repr)
      && l.open == (if tf in builders then Some(builders[tf].View()) else None)
      && l.lastClosed == (if tf in lastClosed then Some(lastClosed[tf]) else None)
      && (forall t :: t in l.partialCloses <==> (tf, t) in partialCloses)
    }

    ghost predicate Valid()
      reads this, repr
    {
      && (forall tf :: tf in lanes <==> tf in timeframes)
      && (forall tf :: tf in builders ==>
            tf in lanes && builders[tf] in repr && builders[tf].timeframe == tf && builders[tf].symbol == symbol)
      && (forall tf :: tf in lanes ==> Shows(tf, lanes[tf]))
    }

    constructor (symbol: string, timeframes: seq<Timeframe>)
      ensures Valid() && this.symbol == symbol && this.timeframes == timeframes && joinedAt == None
      ensures lanes == map tf | tf in timeframes :: EMPTY_LANE
    {
      this.symbol, this.timeframes := symbol, timeframes;
      builders, lastClosed, partialCloses := map[], map[], {};
      joinedAt := None;
      lanes := map tf | tf in timeframes :: EMPTY_LANE;
      repr := {};
    }

    method MarkJoined(moment: nat)
      requires Valid()
      modifies this`joinedAt
      ensures Valid() && joinedAt == Some(moment)
    {
      joinedAt := Some(moment);
    }

    /** Close a timeframe's bar, remembering the bucket as spent. */
    method Retire(tf: Timeframe) returns (c: Candle)
      requires Valid() && tf in builders
      modifies this`builders, this`lastClosed, this`partialCloses, this`lanes
      ensures Valid() && builders == old(builders) - {tf}
      ensures lanes == old(lanes)[tf := Retired(old(lanes)[tf])] && c == Snapshot(old(lanes)[tf])
    {
      var b := builders[tf];
      assert Shows(tf, lanes[tf]);
      lastClosed := lastClosed[tf := b.openTime];
      if b.partial {
        partialCloses := partialCloses + {(tf, b.openTime)};
      }
      c := b.TakeSnapshot(true);
      builders := builders - {tf};
      lanes := lanes[tf := Retired(lanes[tf])];
      assert Shows(tf, lanes[tf]);
      assert forall k :: k in lanes && k != tf ==> Shows(k, lanes[k]) by {
        forall k | k in lanes && k != tf ensures Shows(k, lanes[k]) {
          assert old(Shows(k, lanes[k]));
        }
      }
    }

    /** Put a builder in a timeframe's slot. */
    method Install(tf: Timeframe, b: BarBuilder)
      requires Valid() && tf in lanes && b !in repr
      requires b.timeframe == tf && b.symbol == symbol
      modifies this`builders, this`lanes, this`repr
      ensures Valid() && builders == old(builders)[tf := b] && repr == old(repr) + {b}
      ensures lanes == old(lanes)[tf := old(lanes)[tf].(open := Some(b.View()))]
    {
      builders := builders[tf := b];
      repr := repr + {b};
      lanes := lanes[tf := lanes[tf].(open := Some(b.View()))];
      assert Shows(tf, lanes[tf]);
      assert forall k :: k in lanes && k != tf ==> old(Shows(k, lanes[k])) && lanes[k] == old(lanes[k]);
    }

    /** Fold a quote into the builder that is open. */
    method UpdateOpen(tf: Timeframe, q: Quote)
      requires Valid() && tf in builders
      modifies builders[tf], this`lanes
      ensures Valid()
      ensures lanes == old(lanes)[tf := Folded(old(lanes)[tf], old(lanes)[tf].open.value, q)]
    {
      builders[tf].Update(q.price, q.volume);
      lanes := lanes[tf := Folded(lanes[tf], lanes[tf].open.value, q)];
    }

    /** Open a fresh bar in an empty slot and put the tick in it. */
    method OpenBar(tf: Timeframe, bucket: nat, q: Quote)
      requires Valid() && tf in lanes && tf !in builders
      modifies this`builders, this`lanes, this`repr
      ensures Valid() && fresh(repr - old(repr))
      ensures lanes == old(lanes)[tf := Folded(old(lanes)[tf], OpenBuilder(symbol, tf, joinedAt, bucket, q.price), q)]
    {
      hide Valid, Shows, WithTick;
      var b := new BarBuilder(symbol, tf, bucket, q.price, joinedAt.Some? && bucket < joinedAt.value);
      Install(tf, b);
      UpdateOpen(tf, q);
    }

    /** Retire the open bar and start the tick's own. */
    method Replace(tf: Timeframe, bucket: nat, q: Quote) returns (c: Candle)
      requires Valid() && tf in builders
      modifies this`builders, this`lastClosed, this`partialCloses, this`lanes, this`repr
      ensures Valid() && fresh(repr - old(repr)) && c == Snapshot(old(lanes)[tf])
      ensures lanes == old(lanes)[tf := Folded(Retired(old(lanes)[tf]), OpenBuilder(symbol, tf, joinedAt, bucket, q.price), q)]
    {
      hide *;
      c := Retire(tf);
      OpenBar(tf, bucket, q);
    }

    /** One pass of the loop in add_tick: this timeframe's share of a tick. */
    method FoldTick(tf: Timeframe, bucket: nat, q: Quote) returns (closed: Option<Candle>)
      requires Valid() && tf in lanes
      modifies this`builders, this`lastClosed, this`partialCloses, this`lanes, this`repr, repr
      ensures Valid() && fresh(repr - old(repr))
      ensures lanes == old(lanes)[tf := TickLane(old(lanes)[tf], symbol, tf, joinedAt, bucket, q).lane]
      ensures closed == TickLane(old(lanes)[tf], symbol, tf, joinedAt, bucket, q).closed
    {
      closed := None;
      assert Shows(tf, lanes[tf]);
      if tf in lastClosed && bucket <= lastClosed[tf] {
        return;
      }
      if tf !in builders {
        OpenBar(tf, bucket, q);
      } else if bucket > builders[tf].openTime {
        var c := Replace(tf, bucket, q);
        closed := Some(c);
      } else if bucket == builders[tf].openTime {
        UpdateOpen(tf, q);
      }
    }

    /** The loop of add_tick, over a price that has been resolved. */
    method FoldTicks(q: Quote) returns (closed: seq<Candle>)
      requires Valid() && forall tf :: tf in timeframes ==> tf in lanes
      modifies this`builders, this`lastClosed, this`partialCloses, this`lanes, this`repr, repr
      ensures Valid() && fresh(repr - old(repr))
      ensures Batch(lanes, closed) == TickAll(old(lanes), timeframes, symbol, joinedAt, q)
    {
      closed := [];
      hide Valid, Shows, TickLane, FloorToBucket;
      for i := 0 to |timeframes|
        invariant Valid() && fresh(repr - old(repr))
        invariant Batch(lanes, closed) == TickAll(old(lanes), timeframes[..i], symbol, joinedAt, q)
      {
        assert Front(timeframes[..i + 1]) == timeframes[..i];
        var one := FoldTick(timeframes[i], FloorToBucket(q.ts, timeframes[i]), q);
        closed := closed + Listed(one);
      }
      assert timeframes[..|timeframes|] == timeframes;
    }

    method AddTick(tick: Tick) returns (result: Result<seq<Candle>, PriceError>)
      requires Valid()
      modifies this`builders, this`lastClosed, this`partialCloses, this`lanes, this`repr, repr
      ensures Valid() && fresh(repr - old(repr))
      ensures tick.Price().Failure? ==> result == Failure(NoPrice) && lanes == old(lanes)
      ensures tick.Price().Success? ==>
                && result.Success?
                && Batch(lanes, result.value) == TickAll(old(lanes), timeframes, symbol, joinedAt,
                                                         Quote(tick.ts, tick.Price().value, tick.volume))
    {
      var price := tick.Price();
      if price.Failure? {
        return Failure(price.error);
      }
      var closed := FoldTicks(Quote(tick.ts, price.value, tick.volume));
      result := Success(closed);
    }

    /** One pass of the loop in flush. */
    method FlushOne(tf: Timeframe, now: nat) returns (closed: Option<Candle>)
      requires Valid() && tf in lanes
      modifies this`builders, this`lastClosed, this`partialCloses, this`lanes
      ensures Valid()
      ensures lanes == old(lanes)[tf := FlushLane(old(lanes)[tf], tf, now).lane]
      ensures closed == FlushLane(old(lanes)[tf], tf, now).closed
    {
      closed := None;
      assert Shows(tf, lanes[tf]);
      if tf in builders && now >= BucketClose(builders[tf].openTime, tf) {
        var c := Retire(tf);
        closed := Some(c);
      }
    }

    /** Close every bar whose bucket has ended. */
    method Flush(now: nat) returns (closed: seq<Candle>)
      requires Valid() && forall tf :: tf in timeframes ==> tf in lanes
      modifies this`builders, this`lastClosed, this`partialCloses, this`lanes
      ensures Valid()
      ensures Batch(lanes, closed) == FlushAll(old(lanes), timeframes, now)
    {
      closed := [];
      hide Valid, Shows, FlushLane;
      for i := 0 to |timeframes|
        invariant Valid()
        invariant Batch(lanes, closed) == FlushAll(old(lanes), timeframes[..i], now)
      {
        assert Front(timeframes[..i + 1]) == timeframes[..i];
        var one := FlushOne(timeframes[i], now);
        closed := closed + Listed(one);
      }
      assert timeframes[..|timeframes|] == timeframes;
    }

    /** Whether a candle closed partial. Answers true once per bar. */
    method TakePartial(c: Candle) returns (was: bool)
      requires Valid()
      modifies this`partialCloses, this`lanes
      ensures Valid()
      ensures c.timeframe in old(lanes) ==>
                && was == (c.openTime in old(lanes)[c.timeframe].partialCloses)
                && lanes == old(lanes)[c.timeframe := WithoutMarker(old(lanes)[c.timeframe], c.openTime)]
      ensures c.timeframe !in old(lanes) ==> lanes == old(lanes)
    {
      var marker := (c.timeframe, c.openTime);
      was := marker in partialCloses;
      if was {
        partialCloses := partialCloses - {marker};
      }
      if c.timeframe in lanes {
        lanes := lanes[c.timeframe := WithoutMarker(lanes[c.timeframe], c.openTime)];
      }
    }

    method Restore(c: Candle)
      requires Valid()
      modifies this`builders, this`lanes, this`repr
      ensures Valid() && fresh(repr - old(repr))
      ensures c.timeframe !in old(lanes) ==> lanes == old(lanes)
      ensures c.timeframe in old(lanes) ==>
                lanes == old(lanes)[c.timeframe := RestoreLane(old(lanes)[c.timeframe], symbol, c)]
    {
      if c.timeframe !in timeframes {
        return;
      }
      assert Shows(c.timeframe, lanes[c.timeframe]);
      if c.timeframe in lastClosed && c.openTime <= lastClosed[c.timeframe] {
        return;
      }
      var b := new BarBuilder(symbol, c.timeframe, c.openTime, c.open, true);
      b.high := c.high;
      b.low := c.low;
      b.close := c.close;
      b.volume := c.volume;
      b.tickCount := c.tickCount;
      Install(c.timeframe, b);
    }
  }
}
