/** Bars in, ticks out (src/qte_simulator/bars.py): the printer whose parser is the resampler.

    A bar becomes four ticks inside its bucket. The resampler, hearing those ticks, must rebuild the
    bar field for field. */
module SimulatorBars {
  import opened Prelude
  import opened Timeframes
  import opened MarketData
  import opened ResamplerModel
  import opened ResamplerRuns

  datatype BarError = HighBelowLow | BodyOutsideRange | NegativeVolume | UnknownAnchor

  datatype BarSpec = BarSpec(
    symbol: string, timeframe: Timeframe, openTime: nat,
    open: real, high: real, low: real, close: real, volume: real)
  {
    /** A bar that could have printed. */
    predicate Valid() {
      low <= open <= high && low <= close <= high && volume >= 0.0
    }

    predicate IsBullish() {
      close >= open
    }

    function CloseTime(): nat {
      openTime + Duration(timeframe)
    }
  }

  /** Refuses a bar that could not have printed. */
  function Checked(bar: BarSpec): (r: Result<BarSpec, BarError>)
    ensures r == Success(bar) <==> bar.Valid()
  {
    if bar.high < bar.low then Failure(HighBelowLow)
    else if bar.high < Max(bar.open, bar.close) || bar.low > Min(bar.open, bar.close) then Failure(BodyOutsideRange)
    else if bar.volume < 0.0 then Failure(NegativeVolume)
    else Success(bar)
  }

  const TICKS_PER_BAR := 4

  function Print(symbol: string, ts: nat, price: real, spread: real, volume: real): Tick {
    Tick(symbol, ts,
         if spread > 0.0 then Some(price - spread / 2.0) else None,
         if spread > 0.0 then Some(price + spread / 2.0) else None,
         Some(price), volume)
  }

  /** The four ticks a bar is made of: the first at its opening, each later than the one before, all
      inside the bucket; from the open by the nearer extreme to the farther and on to the close;
      between them the whole volume. A spread puts a bid and an ask evenly around each price. */
  function BarTicks(bar: BarSpec, spread: real): (ticks: seq<Tick>)
    ensures |ticks| == TICKS_PER_BAR
    ensures forall i :: 0 <= i < |ticks| ==> ticks[i].symbol == bar.symbol && ticks[i].Price().Success?
    ensures bar.openTime == ticks[0].ts < ticks[1].ts < ticks[2].ts < ticks[3].ts < bar.CloseTime()
    ensures ticks[0].Price().value == bar.open && ticks[3].Price().value == bar.close
    ensures if bar.open <= bar.close
            then ticks[1].Price().value == bar.low && ticks[2].Price().value == bar.high
            else ticks[1].Price().value == bar.high && ticks[2].Price().value == bar.low
    ensures ticks[0].volume + ticks[1].volume + ticks[2].volume + ticks[3].volume == bar.volume
    ensures bar.volume >= 0.0 ==> forall i :: 0 <= i < |ticks| ==> ticks[i].volume >= 0.0
    ensures spread > 0.0 ==>
              forall i :: 0 <= i < |ticks| ==>
                && ticks[i].bid.Some? && ticks[i].ask.Some?
                && ticks[i].ask.value - ticks[i].bid.value == spread
                && ticks[i].bid.value < ticks[i].Price().value < ticks[i].ask.value
  {
    var seconds := Seconds(bar.timeframe);
    var (second, third) := if bar.IsBullish() then (bar.low, bar.high) else (bar.high, bar.low);
    var share := bar.volume / 4.0;
    [ Print(bar.symbol, bar.openTime, bar.open, spread, share),
      Print(bar.symbol, bar.openTime + (seconds / 4) * MICROS, second, spread, share),
      Print(bar.symbol, bar.openTime + (seconds / 2) * MICROS, third, spread, share),
      Print(bar.symbol, bar.openTime + (seconds - 1) * MICROS, bar.close, spread, bar.volume - (share + share + share)) ]
  }

  /** The candle ingestion must publish for a bar. */
  function ExpectedCandle(bar: BarSpec): Candle {
    Candle(bar.symbol, bar.timeframe, bar.openTime, bar.open, bar.high, bar.low, bar.close, bar.volume, TICKS_PER_BAR, true)
  }

  /** One tick in the bucket after the bar, to force its close. */
  function SealTick(bar: BarSpec): (tick: Tick)
    ensures tick.symbol == bar.symbol && tick.Price() == Success(bar.close)
    ensures tick.ts == bar.openTime + Duration(bar.timeframe) && tick.volume == 0.0
  {
    Tick(bar.symbol, bar.CloseTime(), None, None, Some(bar.close), 0.0)
  }

  function RunTicks(bars: seq<BarSpec>, spread: real): (ticks: seq<Tick>)
    ensures |ticks| == TICKS_PER_BAR * |bars|
  {
    if bars == [] then [] else RunTicks(Front(bars), spread) + BarTicks(Last(bars), spread)
  }

  function ExpectedCandles(bars: seq<BarSpec>): (candles: seq<Candle>)
    ensures |candles| == |bars| && forall i :: 0 <= i < |bars| ==> candles[i] == ExpectedCandle(bars[i])
  {
    if bars == [] then [] else ExpectedCandles(Front(bars)) + [ExpectedCandle(Last(bars))]
  }

  // ------------------------------------------------------------ where a run is placed

  datatype Anchor = Past | Next | Other(name: string)

  function March(first: nat, count: nat, step: nat): (times: seq<nat>)
    ensures |times| == count
  {
    if count == 0 then [] else
      var before := March(first, count - 1, step);
      before + [if before == [] then first else Last(before) + step]
  }

  /** Open times for a run of bars: ending on the last completed bucket, or starting from the first
      bucket nothing has been sent into. Moments before the epoch are not modelled. */
  function AnchorOpenTimes(count: int, tf: Timeframe, mode: Anchor, now: nat, cursor: Option<nat>): (r: Result<seq<nat>, BarError>)
    requires mode.Past? ==> count * Duration(tf) <= FloorToBucket(now, tf)
  {
    if count < 1 then Success([])
    else
      match mode
      case Past => Success(March(FloorToBucket(now, tf) - count * Duration(tf), count, Duration(tf)))
      case Next =>
        var current := FloorToBucket(now, tf);
        var first := if cursor.Some? then Later(cursor.value + Duration(tf), current) else current;
        Success(March(first, count, Duration(tf)))
      case Other(name) => Failure(UnknownAnchor)
  }

  /** Times that follow one another, one bucket apart, each on a bucket boundary. */
  predicate Marching(times: seq<nat>, tf: Timeframe) {
    times != [] ==>
      && Aligned(Last(times), tf)
      && Marching(Front(times), tf)
      && (Front(times) != [] ==> Last(times) == Last(Front(times)) + Duration(tf))
  }

  lemma AlignedStep(t: nat, tf: Timeframe)
    requires Aligned(t, tf)
    ensures Aligned(t + Duration(tf), tf)
  {
    CoarseAlignmentIsFine(t, tf, tf);
  }

  lemma {:induction false} MarchIsMarching(first: nat, count: nat, tf: Timeframe)
    requires Aligned(first, tf)
    ensures Marching(March(first, count, Duration(tf)), tf)
    ensures count > 0 ==> March(first, count, Duration(tf))[0] == first
    ensures count > 0 ==> Last(March(first, count, Duration(tf))) == first + (count - 1) * Duration(tf)
  {
    if count > 0 {
      MarchIsMarching(first, count - 1, tf);
      var times := March(first, count, Duration(tf));
      assert Front(times) == March(first, count - 1, Duration(tf));
      if count > 1 {
        AlignedStep(Last(Front(times)), tf);
        assert (count - 2) * Duration(tf) + Duration(tf) == (count - 1) * Duration(tf);
      }
    }
  }

  /** "past" ends on the last completed bucket. */
  lemma PastEndsOnTheLastCompletedBucket(count: nat, tf: Timeframe, now: nat)
    requires count >= 1 && count * Duration(tf) <= FloorToBucket(now, tf)
    ensures var r := AnchorOpenTimes(count, tf, Past, now, None);
            && r.Success? && |r.value| == count && Marching(r.value, tf)
            && BucketClose(Last(r.value), tf) == FloorToBucket(now, tf) <= now
  {
    hide FloorToBucket, Duration, Marching, March;
    BucketHoldsMoment(now, tf);
    var first := FloorToBucket(now, tf) - count * Duration(tf);
    AlignedBack(FloorToBucket(now, tf), count, tf);
    MarchIsMarching(first, count, tf);
    OneFewer(count, Duration(tf));
  }

  lemma OneFewer(count: nat, step: nat)
    ensures (count - 1) * step + step == count * step
  {
  }

  lemma AlignedBack(t: nat, count: nat, tf: Timeframe)
    requires Aligned(t, tf) && count * Duration(tf) <= t
    ensures Aligned(t - count * Duration(tf), tf)
  {
    var d := Duration(tf);
    var k := t / d;
    assert t == k * d;
    assert t - count * d == (k - count) * d;
    if k < count {
      TimesMonotone(d, k + 1, count);
    }
    MultipleOf(k - count, d);
  }

  /** "next" starts on a bucket boundary, later than everything in the bucket of the last tick and
      not before the bucket of the clock, and no later than it has to be. */
  lemma NextStartsBeyondTheSeries(count: nat, tf: Timeframe, now: nat, cursor: Option<nat>)
    requires count >= 1 && (cursor.Some? ==> Aligned(cursor.value, tf))
    ensures var r := AnchorOpenTimes(count, tf, Next, now, cursor);
            && r.Success? && |r.value| == count && Marching(r.value, tf)
            && r.value[0] >= FloorToBucket(now, tf)
            && (cursor.Some? ==> r.value[0] >= BucketClose(cursor.value, tf))
            && (r.value[0] == FloorToBucket(now, tf) || (cursor.Some? && r.value[0] == BucketClose(cursor.value, tf)))
  {
    BucketHoldsMoment(now, tf);
    if cursor.Some? {
      AlignedStep(cursor.value, tf);
    }
    hide FloorToBucket;
    var current := FloorToBucket(now, tf);
    MarchIsMarching(if cursor.Some? then Later(cursor.value + Duration(tf), current) else current, count, tf);
  }

  // ------------------------------------------------------------ what the resampler makes of the ticks

  function QuoteOf(tick: Tick): Quote
    requires tick.Price().Success?
  {
    Quote(tick.ts, tick.Price().value, tick.volume)
  }

  /** One timeframe of one symbol's resampler, hearing a list of ticks. */
  function Heard(f: Feed, symbol: string, tf: Timeframe, ticks: seq<Tick>): Feed {
    if ticks == [] then f
    else
      var before := Heard(f, symbol, tf, Front(ticks));
      var tick := Last(ticks);
      if tick.symbol != symbol || tick.Price().Failure? then before
      else Advance(before, symbol, tf, OnTick(QuoteOf(tick)))
  }

  lemma {:induction false} HeardInTwo(f: Feed, symbol: string, tf: Timeframe, a: seq<Tick>, b: seq<Tick>)
    ensures Heard(f, symbol, tf, a + b) == Heard(Heard(f, symbol, tf, a), symbol, tf, b)
  {
    hide Advance;
    if b == [] {
      assert a + b == a;
    } else {
      assert Front(a + b) == a + Front(b) && Last(a + b) == Last(b);
      HeardInTwo(f, symbol, tf, a, Front(b));
    }
  }

  lemma HeardOne(f: Feed, symbol: string, tf: Timeframe, tick: Tick)
    requires tick.symbol == symbol && tick.Price().Success?
    ensures Heard(f, symbol, tf, [tick]) == Advance(f, symbol, tf, OnTick(QuoteOf(tick)))
  {
    assert Front([tick]) == [];
  }

  /** Nothing in the lane is as new as this bucket. */
  predicate Untouched(l: Lane, bucket: nat) {
    && (l.open.Some? ==> l.open.value.candle.openTime < bucket)
    && (l.lastClosed.Some? ==> l.lastClosed.value < bucket)
  }

  /** The lane's open bar is exactly this one. */
  predicate Holds(l: Lane, c: Candle) {
    && l.open.Some? && l.open.value.candle == c
    && (l.lastClosed.Some? ==> l.lastClosed.value < c.openTime)
  }

  function Outgoing(l: Lane): seq<Candle> {
    if l.open.Some? then [Snapshot(l)] else []
  }

  /** The first quote of a bucket starts its bar, and sends the bar before it out. */
  lemma FirstQuote(f: Feed, symbol: string, tf: Timeframe, q: Quote)
    requires Untouched(f.lane, FloorToBucket(q.ts, tf))
    ensures var g := Advance(f, symbol, tf, OnTick(q));
            && Holds(g.lane, WithTick(StartBar(symbol, tf, FloorToBucket(q.ts, tf), q.price), q.price, q.volume))
            && g.closed == f.closed + Outgoing(f.lane) && g.late == f.late && g.accepted == f.accepted + [q]
  {
    hide FloorToBucket;
  }

  lemma SameBucketQuote(f: Feed, symbol: string, tf: Timeframe, q: Quote, c: Candle)
    requires Holds(f.lane, c) && FloorToBucket(q.ts, tf) == c.openTime
    ensures var g := Advance(f, symbol, tf, OnTick(q));
            && Holds(g.lane, WithTick(c, q.price, q.volume))
            && g.closed == f.closed && g.late == f.late && g.accepted == f.accepted + [q]
  {
    hide FloorToBucket;
  }

  lemma BarTicksStayInTheBucket(bar: BarSpec, spread: real)
    requires Aligned(bar.openTime, bar.timeframe)
    ensures forall i :: 0 <= i < TICKS_PER_BAR ==>
              FloorToBucket(BarTicks(bar, spread)[i].ts, bar.timeframe) == bar.openTime
  {
    hide FloorToBucket, Aligned;
    forall i | 0 <= i < TICKS_PER_BAR
      ensures FloorToBucket(BarTicks(bar, spread)[i].ts, bar.timeframe) == bar.openTime
    {
      BucketIsUnique(BarTicks(bar, spread)[i].ts, bar.openTime, bar.timeframe);
    }
  }

  function Folded4(c: Candle, ticks: seq<Tick>): Candle
    requires |ticks| == TICKS_PER_BAR && forall i :: 0 <= i < |ticks| ==> ticks[i].Price().Success?
  {
    var q := i requires 0 <= i < 4 => QuoteOf(ticks[i]);
    WithTick(WithTick(WithTick(WithTick(c, q(0).price, q(0).volume), q(1).price, q(1).volume),
                      q(2).price, q(2).volume), q(3).price, q(3).volume)
  }

  /** First, highest, lowest, last, total and count of the four ticks are the bar's own. */
  lemma FourTicksMakeTheBar(bar: BarSpec, spread: real)
    requires bar.Valid()
    ensures Folded4(StartBar(bar.symbol, bar.timeframe, bar.openTime, bar.open), BarTicks(bar, spread))
         == ExpectedCandle(bar).(isClosed := false)
  {
  }

  lemma {:induction false} FourQuotes(f: Feed, symbol: string, tf: Timeframe, ticks: seq<Tick>, open: nat)
    requires |ticks| == TICKS_PER_BAR && Untouched(f.lane, open)
    requires forall i :: 0 <= i < |ticks| ==>
               ticks[i].symbol == symbol && ticks[i].Price().Success? && FloorToBucket(ticks[i].ts, tf) == open
    ensures var g := Heard(f, symbol, tf, ticks);
            && Holds(g.lane, Folded4(StartBar(symbol, tf, open, ticks[0].Price().value), ticks))
            && g.closed == f.closed + Outgoing(f.lane) && g.late == f.late
  {
    hide Advance, FloorToBucket, Holds, Untouched, WithTick, Outgoing;
    var (a, b, c, d) := ([ticks[0]], [ticks[1]], [ticks[2]], [ticks[3]]);
    assert ticks == a + b + c + d;
    HeardInTwo(f, symbol, tf, a + b + c, d);
    HeardInTwo(f, symbol, tf, a + b, c);
    HeardInTwo(f, symbol, tf, a, b);
    var f1 := Heard(f, symbol, tf, a);
    var f2 := Heard(f1, symbol, tf, b);
    var f3 := Heard(f2, symbol, tf, c);
    HeardOne(f, symbol, tf, ticks[0]);
    HeardOne(f1, symbol, tf, ticks[1]);
    HeardOne(f2, symbol, tf, ticks[2]);
    HeardOne(f3, symbol, tf, ticks[3]);
    var (q0, q1, q2, q3) := (QuoteOf(ticks[0]), QuoteOf(ticks[1]), QuoteOf(ticks[2]), QuoteOf(ticks[3]));
    FirstQuote(f, symbol, tf, q0);
    var c1 := WithTick(StartBar(symbol, tf, open, q0.price), q0.price, q0.volume);
    var c2 := WithTick(c1, q1.price, q1.volume);
    var c3 := WithTick(c2, q2.price, q2.volume);
    TickKeepsOpenTime(StartBar(symbol, tf, open, q0.price), q0);
    TickKeepsOpenTime(c1, q1);
    TickKeepsOpenTime(c2, q2);
    SameBucketQuote(f1, symbol, tf, q1, c1);
    SameBucketQuote(f2, symbol, tf, q2, c2);
    SameBucketQuote(f3, symbol, tf, q3, c3);
  }

  lemma TickKeepsOpenTime(c: Candle, q: Quote)
    ensures WithTick(c, q.price, q.volume).openTime == c.openTime
  {
  }

  /** One bar's ticks, heard by a lane that has nothing as new, leave exactly that bar open. */
  lemma BarIsRebuilt(f: Feed, bar: BarSpec, spread: real)
    requires bar.Valid() && Aligned(bar.openTime, bar.timeframe) && Untouched(f.lane, bar.openTime)
    ensures var g := Heard(f, bar.symbol, bar.timeframe, BarTicks(bar, spread));
            && Holds(g.lane, ExpectedCandle(bar).(isClosed := false))
            && g.closed == f.closed + Outgoing(f.lane) && g.late == f.late
  {
    BarTicksStayInTheBucket(bar, spread);
    hide FloorToBucket, Advance, Heard, Holds, Untouched, Outgoing;
    FourTicksMakeTheBar(bar, spread);
    FourQuotes(f, bar.symbol, bar.timeframe, BarTicks(bar, spread), bar.openTime);
  }

  /** A run of bars that could be one series: each opens where the one before it ends. */
  predicate IsRun(bars: seq<BarSpec>, symbol: string, tf: Timeframe) {
    bars != [] ==>
      && Last(bars).Valid() && Last(bars).symbol == symbol && Last(bars).timeframe == tf
      && Aligned(Last(bars).openTime, tf)
      && IsRun(Front(bars), symbol, tf)
      && (Front(bars) != [] ==> Last(bars).openTime == Last(Front(bars)).CloseTime())
  }

  lemma BarLeavesNextUntouched(l: Lane, c: Candle, next: nat)
    requires Holds(l, c) && c.openTime < next
    ensures Untouched(l, next) && Outgoing(l) == [c.(isClosed := true)]
  {
  }

  /** A run's ticks, heard by any lane that has nothing as new as its first bar: whatever was open
      goes out, then every bar but the last, which is open. */
  lemma {:induction false} RunIsRebuilt(f: Feed, bars: seq<BarSpec>, symbol: string, tf: Timeframe, spread: real)
    requires bars != [] && IsRun(bars, symbol, tf) && Untouched(f.lane, bars[0].openTime)
    ensures var g := Heard(f, symbol, tf, RunTicks(bars, spread));
            && Holds(g.lane, ExpectedCandle(Last(bars)).(isClosed := false))
            && g.closed == f.closed + Outgoing(f.lane) + ExpectedCandles(Front(bars)) && g.late == f.late
  {
    hide Advance, Untouched, Holds, Outgoing, Aligned, BarTicks;
    var before := Front(bars);
    HeardInTwo(f, symbol, tf, RunTicks(before, spread), BarTicks(Last(bars), spread));
    if before == [] {
      BarIsRebuilt(f, Last(bars), spread);
    } else {
      RunIsRebuilt(f, before, symbol, tf, spread);
      var g := Heard(f, symbol, tf, RunTicks(before, spread));
      BarLeavesNextUntouched(g.lane, ExpectedCandle(Last(before)).(isClosed := false), Last(bars).openTime);
      BarIsRebuilt(g, Last(bars), spread);
    }
  }

  /** Round trip: a sealed run, heard by any lane with nothing as new, closes exactly the bars that
      went in, in order, and drops nothing. */
  lemma SealedRunClosesItsBars(f: Feed, bars: seq<BarSpec>, symbol: string, tf: Timeframe, spread: real)
    requires bars != [] && IsRun(bars, symbol, tf) && Untouched(f.lane, bars[0].openTime)
    ensures var g := Heard(f, symbol, tf, RunTicks(bars, spread) + [SealTick(Last(bars))]);
            && g.closed == f.closed + Outgoing(f.lane) + ExpectedCandles(bars) && g.late == f.late
            && g.lane.open.Some? && g.lane.open.value.candle.openTime == Last(bars).CloseTime()
  {
    hide Advance, Untouched, Outgoing, FloorToBucket, RunTicks;
    RunIsRebuilt(f, bars, symbol, tf, spread);
    var seal := SealTick(Last(bars));
    HeardInTwo(f, symbol, tf, RunTicks(bars, spread), [seal]);
    var g := Heard(f, symbol, tf, RunTicks(bars, spread));
    HeardOne(g, symbol, tf, seal);
    BarLeavesNextUntouched(g.lane, ExpectedCandle(Last(bars)).(isClosed := false), Last(bars).CloseTime());
    AlignedStep(Last(bars).openTime, tf);
    BucketIsUnique(seal.ts, seal.ts, tf);
    FirstQuote(g, symbol, tf, QuoteOf(seal));
    assert ExpectedCandles(bars) == ExpectedCandles(Front(bars)) + [ExpectedCandle(Last(bars))];
  }

  /** In particular a fresh resampler closes the expected candles and nothing else. */
  lemma FreshResamplerClosesTheRun(bars: seq<BarSpec>, symbol: string, tf: Timeframe, spread: real)
    requires bars != [] && IsRun(bars, symbol, tf)
    ensures Heard(FRESH, symbol, tf, RunTicks(bars, spread) + [SealTick(Last(bars))]).closed == ExpectedCandles(bars)
  {
    SealedRunClosesItsBars(FRESH, bars, symbol, tf, spread);
  }
}
