/** Whole sessions against the simulator: next-anchored runs of bars, loose ticks and the flush
    timer, on any symbols and timeframes, with one resampler lane listening. */
module SimulatorSessions {
  import opened Prelude
  import opened Timeframes
  import opened MarketData
  import opened ResamplerModel
  import opened ResamplerRuns
  import opened SimulatorBars
  import opened SimulatorHubModel
  import opened SimulatorControl

  datatype Command =
    | BarsCommand(series: Series, rows: seq<Row>, spread: real, seal: bool)
    | TickCommand(symbol: string, bid: Option<real>, ask: Option<real>, last: Option<real>, volume: real)
    | FlushTimer

  /** A command and the clock it is carried out at. */
  datatype Moment = Moment(now: nat, command: Command)

  datatype Session = Session(hub: HubState, feed: Feed)

  /** What a command leaves of the hub; a refused command leaves it as it was. */
  function Commanded(h: HubState, m: Moment): HubState {
    match m.command
    case BarsCommand(series, rows, spread, seal) =>
      var planned := PlannedBars(h, series, rows, m.now);
      if planned.Success? && planned.value != [] then AfterBars(h, planned.value, spread, seal) else h
    case TickCommand(symbol, bid, ask, last, volume) =>
      if bid.Some? || ask.Some? || last.Some?
      then Published(h, UnstampedTick(h, symbol, bid, ask, last, volume, m.now)) else h
    case FlushTimer => h
  }

  /** What went over the wire from one hub state to a later one. */
  function NewTicks(before: HubState, after: HubState): seq<Tick> {
    if |before.sent| <= |after.sent| then after.sent[|before.sent|..] else []
  }

  /** A session, with one timeframe of one symbol's resampler listening to the wire. */
  function Play(symbol: string, tf: Timeframe, moments: seq<Moment>): Session {
    if moments == [] then Session(EMPTY_HUB, FRESH)
    else
      var s := Play(symbol, tf, Front(moments));
      var h := Commanded(s.hub, Last(moments));
      if Last(moments).command.FlushTimer? then s.(feed := Advance(s.feed, symbol, tf, OnFlush(Last(moments).now)))
      else Session(h, Heard(s.feed, symbol, tf, NewTicks(s.hub, h)))
  }

  predicate ClockRuns(moments: seq<Moment>) {
    forall i, j :: 0 <= i < j < |moments| ==> moments[i].now <= moments[j].now
  }

  function OfSymbol(ticks: seq<Tick>, symbol: string): seq<Tick> {
    if ticks == [] then []
    else OfSymbol(Front(ticks), symbol) + if Last(ticks).symbol == symbol then [Last(ticks)] else []
  }

  predicate Climbing(ticks: seq<Tick>) {
    forall i, j :: 0 <= i < j < |ticks| ==> ticks[i].ts < ticks[j].ts
  }

  predicate AllOf(ticks: seq<Tick>, symbol: string) {
    forall i :: 0 <= i < |ticks| ==> ticks[i].symbol == symbol && ticks[i].Price().Success?
  }

  function QuotesOf(ticks: seq<Tick>): seq<Quote> {
    if ticks == [] then []
    else QuotesOf(Front(ticks)) + if Last(ticks).Price().Success? then [QuoteOf(Last(ticks))] else []
  }

  // ------------------------------------------------------------ lists of ticks

  lemma {:induction false} OfSymbolAppends(a: seq<Tick>, b: seq<Tick>, symbol: string)
    ensures OfSymbol(a + b, symbol) == OfSymbol(a, symbol) + OfSymbol(b, symbol)
  {
    if b == [] {
      assert a + b == a;
    } else {
      assert Front(a + b) == a + Front(b) && Last(a + b) == Last(b);
      OfSymbolAppends(a, Front(b), symbol);
    }
  }

  lemma {:induction false} QuotesOfAppends(a: seq<Tick>, b: seq<Tick>)
    ensures QuotesOf(a + b) == QuotesOf(a) + QuotesOf(b)
  {
    if b == [] {
      assert a + b == a;
    } else {
      assert Front(a + b) == a + Front(b) && Last(a + b) == Last(b);
      QuotesOfAppends(a, Front(b));
    }
  }

  lemma {:induction false} OwnTicksStay(ticks: seq<Tick>, symbol: string)
    requires AllOf(ticks, symbol)
    ensures OfSymbol(ticks, symbol) == ticks
  {
    if ticks != [] {
      OwnTicksStay(Front(ticks), symbol);
    }
  }

  lemma {:induction false} ForeignTicksGo(f: Feed, symbol: string, tf: Timeframe, ticks: seq<Tick>, other: string)
    requires AllOf(ticks, other) && other != symbol
    ensures OfSymbol(ticks, symbol) == [] && Heard(f, symbol, tf, ticks) == f
  {
    hide Advance;
    if ticks != [] {
      ForeignTicksGo(f, symbol, tf, Front(ticks), other);
    }
  }

  lemma ClimbingInTurn(a: seq<Tick>, b: seq<Tick>)
    requires Climbing(a) && Climbing(b) && (a != [] && b != [] ==> Last(a).ts < b[0].ts)
    ensures Climbing(a + b)
  {
    forall i, j | 0 <= i < j < |a + b| ensures (a + b)[i].ts < (a + b)[j].ts {
      if i < |a| <= j {
        assert (a + b)[i].ts <= Last(a).ts && b[0].ts <= b[j - |a|].ts;
      }
    }
  }

  lemma BarTicksClimb(bar: BarSpec, spread: real)
    ensures var ticks := BarTicks(bar, spread);
            && Climbing(ticks) && AllOf(ticks, bar.symbol)
            && ticks[0].ts == bar.openTime && Last(ticks).ts < bar.CloseTime()
  {
    var seconds := Seconds(bar.timeframe);
    assert 0 < seconds / 4 < seconds / 2 < seconds - 1;
  }

  lemma {:induction false} RunTicksClimb(bars: seq<BarSpec>, symbol: string, tf: Timeframe, spread: real)
    requires bars != [] && IsRun(bars, symbol, tf)
    ensures var ticks := RunTicks(bars, spread);
            && Climbing(ticks) && AllOf(ticks, symbol) && ticks[0].ts == bars[0].openTime
            && Last(bars).openTime <= Last(ticks).ts < Last(bars).CloseTime()
  {
    hide BarTicks, Aligned, BarSpec.Valid, Seconds, Duration;
    var (before, last) := (RunTicks(Front(bars), spread), BarTicks(Last(bars), spread));
    BarTicksClimb(Last(bars), spread);
    if Front(bars) != [] {
      RunTicksClimb(Front(bars), symbol, tf, spread);
      ClimbingInTurn(before, last);
    } else {
      assert before + last == last;
    }
    EndOfBoth(before, last, symbol);
  }

  lemma EndOfBoth(a: seq<Tick>, b: seq<Tick>, symbol: string)
    requires AllOf(a, symbol) && AllOf(b, symbol) && b != []
    ensures AllOf(a + b, symbol) && Last(a + b) == Last(b) && (a + b)[0] == (if a == [] then b[0] else a[0])
  {
  }

  lemma CommandTicksClimb(bars: seq<BarSpec>, symbol: string, tf: Timeframe, spread: real, seal: bool)
    requires bars != [] && IsRun(bars, symbol, tf)
    ensures var ticks := CommandTicks(bars, spread, seal);
            && Climbing(ticks) && AllOf(ticks, symbol) && ticks[0].ts == bars[0].openTime
            && FloorToBucket(Last(ticks).ts, tf) == CursorAfter(bars, seal)
  {
    hide FloorToBucket, RunTicks, Aligned;
    RunTicksClimb(bars, symbol, tf, spread);
    AlignedStep(Last(bars).openTime, tf);
    if seal {
      ClimbingInTurn(RunTicks(bars, spread), [SealTick(Last(bars))]);
      EndOfBoth(RunTicks(bars, spread), [SealTick(Last(bars))], symbol);
      BucketIsUnique(Last(bars).CloseTime(), Last(bars).CloseTime(), tf);
    } else {
      assert CommandTicks(bars, spread, seal) == RunTicks(bars, spread);
      BucketIsUnique(Last(RunTicks(bars, spread)).ts, Last(bars).openTime, tf);
    }
  }

  // ------------------------------------------------------------ the lane hears a climbing list

  /** The lane's open bar is in this bucket. */
  predicate OpenAt(l: Lane, bucket: nat) {
    l.open.Some? && l.open.value.candle.openTime == bucket && (l.lastClosed.Some? ==> l.lastClosed.value < bucket)
  }

  lemma TickIsTaken(f: Feed, symbol: string, tf: Timeframe, q: Quote)
    requires NotAhead(f.lane, FloorToBucket(q.ts, tf))
    ensures var g := Advance(f, symbol, tf, OnTick(q));
            OpenAt(g.lane, FloorToBucket(q.ts, tf)) && g.late == f.late && g.accepted == f.accepted + [q]
  {
    hide FloorToBucket;
  }

  /** If the first tick is not behind the lane, no tick of a climbing list is. */
  lemma {:induction false} ClimbIsTaken(f: Feed, symbol: string, tf: Timeframe, ticks: seq<Tick>)
    requires ticks != [] && Climbing(ticks) && AllOf(ticks, symbol) && NotAhead(f.lane, FloorToBucket(ticks[0].ts, tf))
    ensures var g := Heard(f, symbol, tf, ticks);
            && OpenAt(g.lane, FloorToBucket(Last(ticks).ts, tf)) && g.late == f.late
            && g.accepted == f.accepted + QuotesOf(ticks)
  {
    hide FloorToBucket, Advance;
    var before := Front(ticks);
    if before != [] {
      ClimbIsTaken(f, symbol, tf, before);
      FloorIsMonotone(Last(before).ts, Last(ticks).ts, tf);
      TickIsTaken(Heard(f, symbol, tf, before), symbol, tf, QuoteOf(Last(ticks)));
    } else {
      assert QuotesOf(ticks) == [QuoteOf(Last(ticks))];
      TickIsTaken(f, symbol, tf, QuoteOf(Last(ticks)));
    }
  }

  // ------------------------------------------------------------ where a session stands

  /** The lane stands at the bucket of the last tick: open there, or closed by a flush because the
      clock has passed its end. */
  predicate LaneAt(l: Lane, last: nat, tf: Timeframe, clock: nat) {
    var b := FloorToBucket(last, tf);
    OpenAt(l, b) || (l.open.None? && l.lastClosed == Some(b) && BucketClose(b, tf) <= clock)
  }

  predicate CursorsBehind(h: HubState, symbol: string, last: nat) {
    forall tf: Timeframe :: Series(symbol, tf) in h.cursors ==> h.cursors[Series(symbol, tf)] <= FloorToBucket(last, tf)
  }

  predicate NoCursors(h: HubState, symbol: string) {
    forall tf: Timeframe :: Series(symbol, tf) !in h.cursors
  }

  ghost predicate Standing(h: HubState, l: Lane, symbol: string, tf: Timeframe, clock: nat) {
    if symbol in h.lastTickTs
    then LaneAt(l, h.lastTickTs[symbol], tf, clock) && CursorsBehind(h, symbol, h.lastTickTs[symbol])
    else l.open.None? && l.lastClosed.None? && NoCursors(h, symbol)
  }

  /** Every tick of the symbol later than the one before, none dropped, all in the bars. */
  ghost predicate OnTime(s: Session, symbol: string) {
    var own := OfSymbol(s.hub.sent, symbol);
    && Climbing(own)
    && s.feed.late == 0 && s.feed.accepted == QuotesOf(own)
    && (own == [] <==> symbol !in s.hub.lastTickTs)
    && (own != [] ==> s.hub.lastTickTs[symbol] == Last(own).ts)
  }

  /** A tick list that starts beyond where the session stands. */
  ghost predicate Beyond(h: HubState, l: Lane, symbol: string, tf: Timeframe, first: nat) {
    && (symbol in h.lastTickTs ==> h.lastTickTs[symbol] < first)
    && NotAhead(l, FloorToBucket(first, tf))
  }

  lemma HearingKeepsTime(s: Session, g: HubState, symbol: string, tf: Timeframe, ticks: seq<Tick>)
    requires OnTime(s, symbol) && ticks != [] && Climbing(ticks) && AllOf(ticks, symbol)
    requires Beyond(s.hub, s.feed.lane, symbol, tf, ticks[0].ts)
    requires g.sent == s.hub.sent + ticks && g.lastTickTs == s.hub.lastTickTs[symbol := Last(ticks).ts]
    ensures var t := Session(g, Heard(s.feed, symbol, tf, ticks));
            OnTime(t, symbol) && OpenAt(t.feed.lane, FloorToBucket(Last(ticks).ts, tf))
  {
    hide FloorToBucket, Heard, OfSymbol, QuotesOf, OpenAt;
    var own := OfSymbol(s.hub.sent, symbol);
    OfSymbolAppends(s.hub.sent, ticks, symbol);
    OwnTicksStay(ticks, symbol);
    QuotesOfAppends(own, ticks);
    ClimbIsTaken(s.feed, symbol, tf, ticks);
    ClimbingInTurn(own, ticks);
  }

  /** A lane that a flush has closed is not in the way of a bucket that starts later. */
  lemma LaterTickIsBeyond(l: Lane, last: nat, tf: Timeframe, clock: nat, first: nat)
    requires LaneAt(l, last, tf, clock) && last < first
    requires l.open.None? ==> FloorToBucket(last, tf) < FloorToBucket(first, tf)
    ensures NotAhead(l, FloorToBucket(first, tf))
  {
    FloorIsMonotone(last, first, tf);
    hide FloorToBucket, BucketClose;
  }

  /** A bucket boundary of one timeframe, beyond the last tick and not before the clock's bucket,
      is in a newer bucket of every other timeframe whose last bucket is over. */
  lemma AnchorClearsEveryTimeframe(last: nat, first: nat, clock: nat, tf: Timeframe, other: Timeframe)
    requires Aligned(first, tf) && last < first && FloorToBucket(clock, tf) <= first
    requires BucketClose(FloorToBucket(last, other), other) <= clock
    ensures FloorToBucket(last, other) < FloorToBucket(first, other)
  {
    hide FloorToBucket, Duration, Aligned;
    var b := FloorToBucket(last, other);
    BucketHoldsMoment(last, other);
    if FinerOrEqual(tf, other) {
      CoarseAlignmentIsFine(b, tf, other);
      AlignedReached(BucketClose(b, other), clock, tf);
      AlignedReached(b, first, other);
    } else {
      CoarseAlignmentIsFine(first, other, tf);
      BucketHoldsMoment(first, other);
      AlignedReached(first, first, other);
    }
  }

  // ------------------------------------------------------------ one command at a time

  lemma SeriesEndIsTheLastBucket(h: HubState, l: Lane, symbol: string, tf: Timeframe, other: Timeframe, clock: nat)
    requires Standing(h, l, symbol, tf, clock)
    ensures SeriesEnd(h, Series(symbol, other))
         == if symbol in h.lastTickTs then Some(FloorToBucket(h.lastTickTs[symbol], other)) else None
  {
    hide FloorToBucket;
  }

  /** What a planned run looks like from where the session stands. */
  lemma PlannedRunIsBeyond(h: HubState, l: Lane, symbol: string, tf: Timeframe, clock: nat,
                           series: Series, rows: seq<Row>, now: nat)
    requires Standing(h, l, symbol, tf, clock) && clock <= now && series.symbol == symbol
    requires PlannedBars(h, series, rows, now).Success?
    ensures var bars := PlannedBars(h, series, rows, now).value;
            && bars != [] && IsRun(bars, symbol, series.timeframe)
            && Beyond(h, l, symbol, tf, bars[0].openTime)
            && (symbol in h.lastTickTs ==> FloorToBucket(h.lastTickTs[symbol], series.timeframe) < bars[0].openTime)
  {
    hide FloorToBucket, BucketClose, Duration, Aligned, Marching, IsRun, LaneAt, CursorsBehind, RowBars, SeriesEnd, AnchorOpenTimes;
    SeriesEndIsTheLastBucket(h, l, symbol, tf, series.timeframe, clock);
    var cursor := SeriesEnd(h, series);
    if symbol in h.lastTickTs {
      BucketHoldsMoment(h.lastTickTs[symbol], series.timeframe);
    }
    NextStartsBeyondTheSeries(|rows|, series.timeframe, now, cursor);
    var times := AnchorOpenTimes(|rows|, series.timeframe, Next, now, cursor).value;
    RowBarsAreARun(series, times, rows);
    FirstOfMarchIsAligned(times, series.timeframe);
    if symbol in h.lastTickTs {
      ClearOfTheLane(h.lastTickTs[symbol], l, tf, clock, series.timeframe, times[0], now);
    } else {
      assert NotAhead(l, FloorToBucket(times[0], tf));
    }
  }

  lemma {:induction false} FirstOfMarchIsAligned(times: seq<nat>, tf: Timeframe)
    requires times != [] && Marching(times, tf)
    ensures Aligned(times[0], tf)
  {
    hide Aligned;
    if |times| > 1 {
      FirstOfMarchIsAligned(Front(times), tf);
    }
  }

  lemma ClearOfTheLane(last: nat, l: Lane, tf: Timeframe, clock: nat, anchored: Timeframe, first: nat, now: nat)
    requires LaneAt(l, last, tf, clock) && clock <= now && Aligned(first, anchored)
    requires BucketClose(FloorToBucket(last, anchored), anchored) <= first && FloorToBucket(now, anchored) <= first
    ensures last < first && FloorToBucket(last, anchored) < first && NotAhead(l, FloorToBucket(first, tf))
  {
    BucketHoldsMoment(last, anchored);
    FloorIsMonotone(clock, now, anchored);
    hide FloorToBucket, Duration, Aligned;
    if l.open.None? {
      AnchorClearsEveryTimeframe(last, first, clock, anchored, tf);
    }
    LaterTickIsBeyond(l, last, tf, clock, first);
  }

  /** After a command's ticks the session stands at the last of them. */
  lemma StandsAtTheLastTick(h: HubState, g: HubState, l: Lane, symbol: string, tf: Timeframe, clock: nat, now: nat,
                            k: Lane, last: nat)
    requires Standing(h, l, symbol, tf, clock)
    requires g.lastTickTs == h.lastTickTs[symbol := last] && OpenAt(k, FloorToBucket(last, tf))
    requires symbol in h.lastTickTs ==> h.lastTickTs[symbol] <= last
    requires forall other: Timeframe :: Series(symbol, other) in g.cursors ==>
               || (Series(symbol, other) in h.cursors && g.cursors[Series(symbol, other)] == h.cursors[Series(symbol, other)])
               || g.cursors[Series(symbol, other)] <= FloorToBucket(last, other)
    ensures Standing(g, k, symbol, tf, now)
  {
    hide FloorToBucket, OpenAt;
    forall other: Timeframe | Series(symbol, other) in g.cursors
      ensures g.cursors[Series(symbol, other)] <= FloorToBucket(last, other)
    {
      if symbol in h.lastTickTs {
        FloorIsMonotone(h.lastTickTs[symbol], last, other);
      }
    }
  }

  lemma MovedAtOneSeries(cursors: map<Series, nat>, series: Series, t: nat)
    ensures forall s :: s in Moved(cursors, series, t) ==>
              || (s in cursors && Moved(cursors, series, t)[s] == cursors[s])
              || (s == series && Moved(cursors, series, t)[s] == t)
  {
  }

  ghost predicate InStep(s: Session, symbol: string, tf: Timeframe, clock: nat) {
    OnTime(s, symbol) && Standing(s.hub, s.feed.lane, symbol, tf, clock)
  }

  /** A `bars` command on the listening symbol. */
  lemma BarsKeepStep(s: Session, symbol: string, tf: Timeframe, clock: nat, m: Moment)
    requires InStep(s, symbol, tf, clock) && clock <= m.now
    requires m.command.BarsCommand? && m.command.series.symbol == symbol
    requires PlannedBars(s.hub, m.command.series, m.command.rows, m.now).Success?
    ensures var h := Commanded(s.hub, m);
            InStep(Session(h, Heard(s.feed, symbol, tf, NewTicks(s.hub, h))), symbol, tf, m.now)
  {
    hide *;
    var c := m.command;
    var bars := PlannedBars(s.hub, c.series, c.rows, m.now).value;
    StepParts(s, symbol, tf, clock);
    PlannedRunIsBeyond(s.hub, s.feed.lane, symbol, tf, clock, c.series, c.rows, m.now);
    CommandedBars(s.hub, m);
    CommandTicksClimb(bars, symbol, c.series.timeframe, c.spread, c.seal);
    CommandSendsItsTicks(s.hub, bars, symbol, c.series.timeframe, c.spread, c.seal);
    BarsLand(s, Commanded(s.hub, m), symbol, tf, clock, m.now, c.series, bars, c.spread, c.seal);
  }

  lemma StepParts(s: Session, symbol: string, tf: Timeframe, clock: nat)
    ensures InStep(s, symbol, tf, clock) <==> OnTime(s, symbol) && Standing(s.hub, s.feed.lane, symbol, tf, clock)
  {
  }

  lemma CommandedBars(h: HubState, m: Moment)
    requires m.command.BarsCommand?
    ensures var planned := PlannedBars(h, m.command.series, m.command.rows, m.now);
            planned.Success? && planned.value != [] ==>
              Commanded(h, m) == AfterBars(h, planned.value, m.command.spread, m.command.seal)
  {
    hide PlannedBars, AfterBars;
  }

  lemma BarsLand(s: Session, h: HubState, symbol: string, tf: Timeframe, clock: nat, now: nat, series: Series,
                 bars: seq<BarSpec>, spread: real, seal: bool)
    requires InStep(s, symbol, tf, clock) && series.symbol == symbol && bars != []
    requires Beyond(s.hub, s.feed.lane, symbol, tf, bars[0].openTime)
    requires Sends(s.hub, h, CommandTicks(bars, spread, seal), |bars|, Series(symbol, series.timeframe), CursorAfter(bars, seal))
    requires var ticks := CommandTicks(bars, spread, seal);
             && Climbing(ticks) && AllOf(ticks, symbol) && ticks[0].ts == bars[0].openTime
             && FloorToBucket(Last(ticks).ts, series.timeframe) == CursorAfter(bars, seal)
    ensures InStep(Session(h, Heard(s.feed, symbol, tf, NewTicks(s.hub, h))), symbol, tf, now)
  {
    hide FloorToBucket, CommandTicks, OnTime, Standing, Climbing, AllOf, Beyond, Heard, Moved, OpenAt;
    var ticks := CommandTicks(bars, spread, seal);
    assert NewTicks(s.hub, h) == ticks;
    HearingKeepsTime(s, h, symbol, tf, ticks);
    BeyondIsLater(s.hub, s.feed.lane, symbol, tf, ticks);
    MovedAtOneSeries(s.hub.cursors, series, CursorAfter(bars, seal));
    StandsAtTheLastTick(s.hub, h, s.feed.lane, symbol, tf, clock, now, Heard(s.feed, symbol, tf, ticks).lane, Last(ticks).ts);
  }

  lemma BeyondIsLater(h: HubState, l: Lane, symbol: string, tf: Timeframe, ticks: seq<Tick>)
    requires ticks != [] && Climbing(ticks) && Beyond(h, l, symbol, tf, ticks[0].ts)
    ensures symbol in h.lastTickTs ==> h.lastTickTs[symbol] < Last(ticks).ts
  {
    hide FloorToBucket;
    assert ticks[0].ts <= Last(ticks).ts;
  }

  /** A loose tick on the listening symbol: the clock or just after the series, whichever is later. */
  lemma TickKeepsStep(s: Session, h: HubState, symbol: string, tf: Timeframe, clock: nat, now: nat, tick: Tick)
    requires InStep(s, symbol, tf, clock) && clock <= now
    requires tick.symbol == symbol && tick.Price().Success? && tick.ts == NextMoment(s.hub, symbol, now)
    requires h == Published(s.hub, tick)
    ensures InStep(Session(h, Heard(s.feed, symbol, tf, [tick])), symbol, tf, now)
  {
    hide FloorToBucket, OnTime, Standing, Heard, OpenAt, Beyond, NextMoment, Climbing, AllOf;
    TickIsBeyond(s.hub, s.feed.lane, symbol, tf, clock, now);
    OneTick(tick);
    HearingKeepsTime(s, h, symbol, tf, [tick]);
    BeyondIsLater(s.hub, s.feed.lane, symbol, tf, [tick]);
    StandsAtTheLastTick(s.hub, h, s.feed.lane, symbol, tf, clock, now, Heard(s.feed, symbol, tf, [tick]).lane, tick.ts);
  }

  lemma OneTick(tick: Tick)
    requires tick.Price().Success?
    ensures Climbing([tick]) && AllOf([tick], tick.symbol)
  {
  }

  lemma TickIsBeyond(h: HubState, l: Lane, symbol: string, tf: Timeframe, clock: nat, now: nat)
    requires Standing(h, l, symbol, tf, clock) && clock <= now
    ensures Beyond(h, l, symbol, tf, NextMoment(h, symbol, now))
  {
    var first := NextMoment(h, symbol, now);
    if symbol in h.lastTickTs {
      var last := h.lastTickTs[symbol];
      BucketHoldsMoment(last, tf);
      AlignedReached(FloorToBucket(last, tf), first, tf);
      hide FloorToBucket, Duration, Aligned;
      LaterTickIsBeyond(l, last, tf, clock, first);
    }
  }

  /** The flush timer closes the lane's bar only when the clock has passed its end. */
  lemma FlushKeepsStep(s: Session, symbol: string, tf: Timeframe, clock: nat, now: nat)
    requires InStep(s, symbol, tf, clock) && clock <= now
    ensures InStep(s.(feed := Advance(s.feed, symbol, tf, OnFlush(now))), symbol, tf, now)
  {
    hide FloorToBucket, OfSymbol, QuotesOf;
  }

  /** A command on another symbol. */
  lemma ForeignCommandKeepsStep(s: Session, g: HubState, symbol: string, tf: Timeframe, clock: nat, now: nat,
                                ticks: seq<Tick>, other: string)
    requires InStep(s, symbol, tf, clock) && clock <= now && other != symbol && AllOf(ticks, other)
    requires g.sent == s.hub.sent + ticks
    requires symbol in g.lastTickTs <==> symbol in s.hub.lastTickTs
    requires symbol in s.hub.lastTickTs ==> g.lastTickTs[symbol] == s.hub.lastTickTs[symbol]
    requires forall x: Timeframe :: Series(symbol, x) in g.cursors <==> Series(symbol, x) in s.hub.cursors
    requires forall x: Timeframe :: Series(symbol, x) in s.hub.cursors ==>
               g.cursors[Series(symbol, x)] == s.hub.cursors[Series(symbol, x)]
    ensures InStep(Session(g, Heard(s.feed, symbol, tf, ticks)), symbol, tf, now)
  {
    hide FloorToBucket, BucketClose, Heard, OfSymbol, QuotesOf, Climbing, OpenAt;
    OfSymbolAppends(s.hub.sent, ticks, symbol);
    ForeignTicksGo(s.feed, symbol, tf, ticks, other);
    assert OfSymbol(g.sent, symbol) == OfSymbol(s.hub.sent, symbol);
    StandingIsElsewhere(s.hub, g, s.feed.lane, symbol, tf, clock, now);
  }

  lemma StandingIsElsewhere(h: HubState, g: HubState, l: Lane, symbol: string, tf: Timeframe, clock: nat, now: nat)
    requires Standing(h, l, symbol, tf, clock) && clock <= now
    requires symbol in g.lastTickTs <==> symbol in h.lastTickTs
    requires symbol in h.lastTickTs ==> g.lastTickTs[symbol] == h.lastTickTs[symbol]
    requires forall x: Timeframe :: Series(symbol, x) in g.cursors <==> Series(symbol, x) in h.cursors
    requires forall x: Timeframe :: Series(symbol, x) in h.cursors ==> g.cursors[Series(symbol, x)] == h.cursors[Series(symbol, x)]
    ensures Standing(g, l, symbol, tf, now)
  {
    hide FloorToBucket, BucketClose;
  }

  lemma ForeignBarsKeepStep(s: Session, symbol: string, tf: Timeframe, clock: nat, m: Moment)
    requires InStep(s, symbol, tf, clock) && clock <= m.now
    requires m.command.BarsCommand? && m.command.series.symbol != symbol
    requires PlannedBars(s.hub, m.command.series, m.command.rows, m.now).Success?
    requires HubAligned(s.hub)
    ensures var h := Commanded(s.hub, m);
            InStep(Session(h, Heard(s.feed, symbol, tf, NewTicks(s.hub, h))), symbol, tf, m.now)
  {
    var c := m.command;
    PlannedIsARun(s.hub, c.series, c.rows, m.now);
    hide InStep, PlannedBars, AfterBars, IsRun, CommandTicks, Heard, Moved, HubAligned, AllOf, Climbing;
    var bars := PlannedBars(s.hub, c.series, c.rows, m.now).value;
    var h := Commanded(s.hub, m);
    CommandTicksClimb(bars, c.series.symbol, c.series.timeframe, c.spread, c.seal);
    CommandSendsItsTicks(s.hub, bars, c.series.symbol, c.series.timeframe, c.spread, c.seal);
    var ticks := CommandTicks(bars, c.spread, c.seal);
    assert NewTicks(s.hub, h) == ticks;
    MovedElsewhere(s.hub.cursors, c.series, CursorAfter(bars, c.seal));
    ForeignCommandKeepsStep(s, h, symbol, tf, clock, m.now, ticks, c.series.symbol);
  }

  lemma MovedElsewhere(cursors: map<Series, nat>, series: Series, t: nat)
    ensures forall s :: s != series ==> (s in Moved(cursors, series, t) <==> s in cursors)
    ensures forall s :: s != series && s in cursors ==> Moved(cursors, series, t)[s] == cursors[s]
  {
  }

  /** Every cursor is on a bucket boundary. */
  predicate HubAligned(h: HubState) {
    forall s :: s in h.cursors ==> Aligned(h.cursors[s], s.timeframe)
  }

  lemma PlannedIsARun(h: HubState, series: Series, rows: seq<Row>, now: nat)
    requires HubAligned(h) && PlannedBars(h, series, rows, now).Success?
    ensures var bars := PlannedBars(h, series, rows, now).value;
            bars != [] && IsRun(bars, series.symbol, series.timeframe)
  {
    hide Aligned, IsRun, PlacedBars;
    PlacedBarsAreARun(h, series, rows, AfterSeries, now);
  }

  lemma CommandKeepsAlignment(h: HubState, m: Moment)
    requires HubAligned(h)
    ensures HubAligned(Commanded(h, m))
  {
    hide Aligned, PlannedBars, AfterBars, IsRun, Moved, CommandTicks;
    if m.command.BarsCommand? && PlannedBars(h, m.command.series, m.command.rows, m.now).Success? {
      var c := m.command;
      PlannedIsARun(h, c.series, c.rows, m.now);
      var bars := PlannedBars(h, c.series, c.rows, m.now).value;
      CommandSendsItsTicks(h, bars, c.series.symbol, c.series.timeframe, c.spread, c.seal);
      EndIsAligned(bars, c.series.symbol, c.series.timeframe, c.seal);
      MovedAtOneSeries(h.cursors, c.series, CursorAfter(bars, c.seal));
    }
  }

  lemma EndIsAligned(bars: seq<BarSpec>, symbol: string, tf: Timeframe, seal: bool)
    requires bars != [] && IsRun(bars, symbol, tf)
    ensures Aligned(CursorAfter(bars, seal), tf)
  {
    hide Aligned, Duration;
    AlignedStep(Last(bars).openTime, tf);
  }

  // ------------------------------------------------------------ whole sessions

  function Clock(moments: seq<Moment>): nat {
    if moments == [] then 0 else Last(moments).now
  }

  lemma CommandKeepsStep(s: Session, symbol: string, tf: Timeframe, clock: nat, m: Moment)
    requires InStep(s, symbol, tf, clock) && clock <= m.now && HubAligned(s.hub) && !m.command.FlushTimer?
    ensures var h := Commanded(s.hub, m);
            InStep(Session(h, Heard(s.feed, symbol, tf, NewTicks(s.hub, h))), symbol, tf, m.now)
  {
    hide InStep, HubAligned, PlannedBars, AfterBars, NextMoment;
    var h := Commanded(s.hub, m);
    match m.command
    case BarsCommand(series, rows, spread, seal) =>
      if PlannedBars(s.hub, series, rows, m.now).Failure? {
        RefusedKeepsStep(s, symbol, tf, clock, m.now);
      } else if series.symbol == symbol {
        BarsKeepStep(s, symbol, tf, clock, m);
      } else {
        ForeignBarsKeepStep(s, symbol, tf, clock, m);
      }
    case TickCommand(other, bid, ask, last, volume) =>
      if bid.None? && ask.None? && last.None? {
        RefusedKeepsStep(s, symbol, tf, clock, m.now);
      } else {
        var tick := UnstampedTick(s.hub, other, bid, ask, last, volume, m.now);
        assert NewTicks(s.hub, h) == [tick];
        if other == symbol {
          TickKeepsStep(s, h, symbol, tf, clock, m.now, tick);
        } else {
          ForeignCommandKeepsStep(s, h, symbol, tf, clock, m.now, [tick], other);
        }
      }
    case FlushTimer =>
  }

  lemma RefusedKeepsStep(s: Session, symbol: string, tf: Timeframe, clock: nat, now: nat)
    requires InStep(s, symbol, tf, clock) && clock <= now
    ensures InStep(Session(s.hub, Heard(s.feed, symbol, tf, NewTicks(s.hub, s.hub))), symbol, tf, now)
  {
    hide FloorToBucket, OnTime;
    assert NewTicks(s.hub, s.hub) == [];
  }

  lemma {:induction false} SessionStands(symbol: string, tf: Timeframe, moments: seq<Moment>)
    requires ClockRuns(moments)
    ensures var s := Play(symbol, tf, moments);
            InStep(s, symbol, tf, Clock(moments)) && HubAligned(s.hub)
  {
    hide InStep, HubAligned, Commanded, Heard, Advance, NewTicks;
    if moments == [] {
      EmptySessionStands(symbol, tf);
    } else {
      SessionStands(symbol, tf, Front(moments));
      var s := Play(symbol, tf, Front(moments));
      var m := Last(moments);
      if m.command.FlushTimer? {
        FlushKeepsStep(s, symbol, tf, Clock(Front(moments)), m.now);
      } else {
        CommandKeepsStep(s, symbol, tf, Clock(Front(moments)), m);
        CommandKeepsAlignment(s.hub, m);
      }
    }
  }

  lemma EmptySessionStands(symbol: string, tf: Timeframe)
    ensures InStep(Session(EMPTY_HUB, FRESH), symbol, tf, 0) && HubAligned(EMPTY_HUB)
  {
  }

  /** Over any session under a clock that does not run backwards: the ticks of every symbol are
      strictly later one after another, and no timeframe of its resampler drops any of them. */
  lemma SessionsAreNeverLate(symbol: string, tf: Timeframe, moments: seq<Moment>)
    requires ClockRuns(moments)
    ensures var s := Play(symbol, tf, moments);
            && Climbing(OfSymbol(s.hub.sent, symbol))
            && s.feed.late == 0 && s.feed.accepted == QuotesOf(OfSymbol(s.hub.sent, symbol))
  {
    hide Standing, Play, HubAligned;
    SessionStands(symbol, tf, moments);
  }

  /** And wherever in a session a sealed run is played, the resampler closes exactly the bars that
      went in, after whatever was open: no run inherits a price from before it. */
  lemma SealedRunIsExactInAnySession(symbol: string, tf: Timeframe, moments: seq<Moment>, now: nat, rows: seq<Row>, spread: real)
    requires ClockRuns(moments + [Moment(now, BarsCommand(Series(symbol, tf), rows, spread, true))])
    requires PlannedBars(Play(symbol, tf, moments).hub, Series(symbol, tf), rows, now).Success?
    ensures var s := Play(symbol, tf, moments);
            var t := Play(symbol, tf, moments + [Moment(now, BarsCommand(Series(symbol, tf), rows, spread, true))]);
            t.feed.closed == s.feed.closed + Outgoing(s.feed.lane)
                             + ExpectedCandles(PlannedBars(s.hub, Series(symbol, tf), rows, now).value)
  {
    hide PlannedBars, AfterBars, Advance, Heard, NewTicks, Commanded, Outgoing;
    var m := Moment(now, BarsCommand(Series(symbol, tf), rows, spread, true));
    var all := moments + [m];
    assert Front(all) == moments && Last(all) == m;
    ClockBefore(moments, m);
    SessionStands(symbol, tf, moments);
    SealedRunIsExact(Play(symbol, tf, moments), symbol, tf, Clock(moments), m);
  }

  lemma ClockBefore(moments: seq<Moment>, m: Moment)
    requires ClockRuns(moments + [m])
    ensures ClockRuns(moments) && Clock(moments) <= m.now
  {
    var all := moments + [m];
    assert forall i :: 0 <= i < |moments| ==> all[i] == moments[i];
    assert all[|moments|] == m;
  }

  lemma SealedRunIsExact(s: Session, symbol: string, tf: Timeframe, clock: nat, m: Moment)
    requires InStep(s, symbol, tf, clock) && clock <= m.now
    requires m.command.BarsCommand? && m.command.series == Series(symbol, tf) && m.command.seal
    requires PlannedBars(s.hub, m.command.series, m.command.rows, m.now).Success?
    ensures Heard(s.feed, symbol, tf, NewTicks(s.hub, Commanded(s.hub, m))).closed
         == s.feed.closed + Outgoing(s.feed.lane)
            + ExpectedCandles(PlannedBars(s.hub, m.command.series, m.command.rows, m.now).value)
  {
    hide *;
    var c := m.command;
    var bars := PlannedBars(s.hub, c.series, c.rows, m.now).value;
    var h := Commanded(s.hub, m);
    StepParts(s, symbol, tf, clock);
    PlannedRunIsBeyond(s.hub, s.feed.lane, symbol, tf, clock, c.series, c.rows, m.now);
    CommandedBars(s.hub, m);
    CommandSendsItsTicks(s.hub, bars, symbol, tf, c.spread, true);
    SentIsNew(s.hub, h, CommandTicks(bars, c.spread, true), |bars|, c.series, CursorAfter(bars, true));
    RunFindsLaneUntouched(s.hub, s.feed.lane, symbol, tf, clock, bars[0].openTime);
    SealedRunClosesItsBars(s.feed, bars, symbol, tf, c.spread);
    SealedTicks(bars, c.spread);
  }

  lemma SentIsNew(h: HubState, g: HubState, ticks: seq<Tick>, bars: nat, series: Series, t: nat)
    requires Sends(h, g, ticks, bars, series, t)
    ensures NewTicks(h, g) == ticks
  {
    hide Moved;
  }

  lemma SealedTicks(bars: seq<BarSpec>, spread: real)
    requires bars != []
    ensures CommandTicks(bars, spread, true) == RunTicks(bars, spread) + [SealTick(Last(bars))]
  {
  }

  lemma RunFindsLaneUntouched(h: HubState, l: Lane, symbol: string, tf: Timeframe, clock: nat, first: nat)
    requires Standing(h, l, symbol, tf, clock)
    requires symbol in h.lastTickTs ==> FloorToBucket(h.lastTickTs[symbol], tf) < first
    ensures Untouched(l, first)
  {
    hide FloorToBucket, BucketClose;
  }
}
