/** One command in, one acknowledgement out (src/qte_simulator/control.py). */
module SimulatorControl {
  import opened Prelude
  import opened Timeframes
  import opened MarketData
  import opened ResamplerRuns
  import opened SimulatorBars
  import opened SimulatorHubModel

  const MAX_BARS := 5000
  const MILLISECOND := 1000

  datatype CommandError = NoBars | TooManyBars | MissingField | BadAnchor | BadBar(error: BarError) | TickWithoutPrice

  /** One row of a `bars` command; a field that was not sent is None. */
  datatype Row = Row(open: Option<real>, high: Option<real>, low: Option<real>, close: Option<real>, volume: Option<real>)

  /** Where a run is asked to go: on the last completed buckets, after the series, from a moment, or
      somewhere that cannot be read. */
  datatype Placement = OnPast | AfterSeries | From(start: nat) | Unreadable

  datatype BarsReply = BarsReply(bars: nat, ticks: nat, isSealed: bool, expected: seq<Candle>)

  /** The last bucket anything has been sent into, bars and loose ticks alike. */
  function SeriesEnd(h: HubState, series: Series): Option<nat> {
    var cursor := if series in h.cursors then Some(h.cursors[series]) else None;
    if series.symbol !in h.lastTickTs then cursor
    else
      var fromTick := FloorToBucket(h.lastTickTs[series.symbol], series.timeframe);
      if cursor.None? || fromTick > cursor.value then Some(fromTick) else cursor
  }

  /** When an unstamped tick happens. */
  function NextMoment(h: HubState, symbol: string, now: nat): nat {
    if symbol !in h.lastTickTs then now else Later(now, h.lastTickTs[symbol] + MILLISECOND)
  }

  function RowBar(series: Series, openTime: nat, row: Row): (r: Result<BarSpec, CommandError>)
    ensures r.Success? ==>
              && r.value.Valid() && r.value.symbol == series.symbol && r.value.timeframe == series.timeframe
              && r.value.openTime == openTime
  {
    if row.open.None? || row.high.None? || row.low.None? || row.close.None? then Failure(MissingField)
    else
      var volume := if row.volume.Some? then row.volume.value else 0.0;
      var bar := BarSpec(series.symbol, series.timeframe, openTime,
                         row.open.value, row.high.value, row.low.value, row.close.value, volume);
      match Checked(bar)
      case Failure(error) => Failure(BadBar(error))
      case Success(checked) => Success(checked)
  }

  /** The rows as bars, or the first thing wrong with them. */
  function RowBars(series: Series, times: seq<nat>, rows: seq<Row>): (r: Result<seq<BarSpec>, CommandError>)
    requires |times| == |rows|
    ensures r.Success? ==> |r.value| == |rows|
  {
    if rows == [] then Success([])
    else
      var before := RowBars(series, Front(times), Front(rows));
      if before.Failure? then before
      else
        var bar := RowBar(series, Last(times), Last(rows));
        if bar.Failure? then Failure(bar.error) else Success(before.value + [bar.value])
  }

  /** The buckets a `bars` command fills. Moments before the epoch are not modelled. */
  function OpenTimes(h: HubState, series: Series, count: nat, placement: Placement, now: nat): Result<seq<nat>, CommandError>
    requires placement.OnPast? ==> count * Duration(series.timeframe) <= FloorToBucket(now, series.timeframe)
  {
    var times :=
      match placement
      case OnPast => AnchorOpenTimes(count, series.timeframe, Past, now, None)
      case AfterSeries => AnchorOpenTimes(count, series.timeframe, Next, now, SeriesEnd(h, series))
      case From(start) => AnchorOpenTimes(count, series.timeframe, Next, start, None)
      case Unreadable => Failure(UnknownAnchor);
    match times
    case Success(value) => Success(value)
    case Failure(_) => Failure(BadAnchor)
  }

  /** The bars a `bars` command will play, or why it will not. */
  function PlacedBars(h: HubState, series: Series, rows: seq<Row>, placement: Placement, now: nat): Result<seq<BarSpec>, CommandError>
    requires placement.OnPast? && |rows| <= MAX_BARS ==>
               |rows| * Duration(series.timeframe) <= FloorToBucket(now, series.timeframe)
  {
    if rows == [] then Failure(NoBars)
    else if |rows| > MAX_BARS then Failure(TooManyBars)
    else
      var times := OpenTimes(h, series, |rows|, placement, now);
      if times.Failure? then Failure(times.error) else RowBars(series, times.value, rows)
  }

  /** The bars of a run that follows the series. */
  function PlannedBars(h: HubState, series: Series, rows: seq<Row>, now: nat): Result<seq<BarSpec>, CommandError> {
    PlacedBars(h, series, rows, AfterSeries, now)
  }

  function BarPlayed(h: HubState, bar: BarSpec, spread: real): HubState {
    var g := PublishedAll(h, BarTicks(bar, spread));
    CursorAdvanced(g.(barsSent := g.barsSent + 1), Series(bar.symbol, bar.timeframe), bar.openTime)
  }

  function BarsPlayed(h: HubState, bars: seq<BarSpec>, spread: real): HubState {
    if bars == [] then h else BarPlayed(BarsPlayed(h, Front(bars), spread), Last(bars), spread)
  }

  function Sealed(h: HubState, bar: BarSpec): HubState {
    CursorAdvanced(Published(h, SealTick(bar)), Series(bar.symbol, bar.timeframe), bar.CloseTime())
  }

  function AfterBars(h: HubState, bars: seq<BarSpec>, spread: real, seal: bool): HubState
    requires bars != []
  {
    var g := BarsPlayed(h, bars, spread);
    if seal then Sealed(g, Last(bars)) else g
  }

  /** The ticks of a whole command. */
  function CommandTicks(bars: seq<BarSpec>, spread: real, seal: bool): (ticks: seq<Tick>)
    requires bars != []
    ensures |ticks| == TICKS_PER_BAR * |bars| + if seal then 1 else 0
  {
    RunTicks(bars, spread) + if seal then [SealTick(Last(bars))] else []
  }

  /** Where a cursor stands after a command: the last bar, or the bucket its seal has opened. */
  function CursorAfter(bars: seq<BarSpec>, seal: bool): nat
    requires bars != []
  {
    if seal then Last(bars).CloseTime() else Last(bars).openTime
  }

  /** From h to g: these ticks went out, this many bars were counted, and the series' cursor was
      told about t. */
  ghost predicate Sends(h: HubState, g: HubState, ticks: seq<Tick>, bars: nat, series: Series, t: nat) {
    && ticks != [] && Last(ticks).Price().Success?
    && g.lastPrices == h.lastPrices[series.symbol := Last(ticks).Price().value]
    && g.sent == h.sent + ticks && g.ticksSent == h.ticksSent + |ticks| && g.barsSent == h.barsSent + bars
    && g.lastTickTs == h.lastTickTs[series.symbol := Last(ticks).ts]
    && g.cursors == Moved(h.cursors, series, t)
  }

  lemma SendsInTurn(h: HubState, g: HubState, k: HubState, a: seq<Tick>, b: seq<Tick>, n: nat, m: nat, series: Series, s: nat, t: nat)
    requires Sends(h, g, a, n, series, s) && Sends(g, k, b, m, series, t) && s <= t
    ensures Sends(h, k, a + b, n + m, series, t)
  {
    hide Moved;
    MovedTwice(h.cursors, series, s, t);
  }

  lemma BarPlayedSends(h: HubState, bar: BarSpec, spread: real)
    ensures Sends(h, BarPlayed(h, bar, spread), BarTicks(bar, spread), 1, Series(bar.symbol, bar.timeframe), bar.openTime)
  {
    hide BarTicks;
    PublishingAppends(h, BarTicks(bar, spread), bar.symbol);
  }

  /** Playing a run puts exactly its ticks on the wire, in order, and moves the series' cursor to
      its last bar unless it was further on. */
  lemma {:induction false} PlayingSendsTheRun(h: HubState, bars: seq<BarSpec>, symbol: string, tf: Timeframe, spread: real)
    requires bars != [] && IsRun(bars, symbol, tf)
    ensures Sends(h, BarsPlayed(h, bars, spread), RunTicks(bars, spread), |bars|, Series(symbol, tf), Last(bars).openTime)
  {
    hide BarTicks, Aligned, Sends, BarPlayed;
    var before := BarsPlayed(h, Front(bars), spread);
    BarPlayedSends(before, Last(bars), spread);
    if Front(bars) == [] {
      assert RunTicks(bars, spread) == BarTicks(Last(bars), spread);
    } else {
      PlayingSendsTheRun(h, Front(bars), symbol, tf, spread);
      SendsInTurn(h, before, BarsPlayed(h, bars, spread), RunTicks(Front(bars), spread), BarTicks(Last(bars), spread),
                  |bars| - 1, 1, Series(symbol, tf), Last(Front(bars)).openTime, Last(bars).openTime);
    }
  }

  /** The whole `bars` command, seal included: the seal moves the cursor onto the bucket it opened. */
  lemma CommandSendsItsTicks(h: HubState, bars: seq<BarSpec>, symbol: string, tf: Timeframe, spread: real, seal: bool)
    requires bars != [] && IsRun(bars, symbol, tf)
    ensures Sends(h, AfterBars(h, bars, spread, seal), CommandTicks(bars, spread, seal), |bars|, Series(symbol, tf),
                  CursorAfter(bars, seal))
  {
    hide RunTicks, Aligned, BarsPlayed;
    PlayingSendsTheRun(h, bars, symbol, tf, spread);
    if seal {
      var g := BarsPlayed(h, bars, spread);
      assert Sends(g, Sealed(g, Last(bars)), [SealTick(Last(bars))], 0, Series(symbol, tf), Last(bars).CloseTime());
      hide Sends;
      SendsInTurn(h, g, Sealed(g, Last(bars)), RunTicks(bars, spread), [SealTick(Last(bars))], |bars|, 0,
                  Series(symbol, tf), Last(bars).openTime, Last(bars).CloseTime());
    } else {
      assert CommandTicks(bars, spread, seal) == RunTicks(bars, spread);
    }
  }

  method PlayBars(hub: SimulatorHub, series: Series, rows: seq<Row>, placement: Placement, spread: real, seal: bool, now: nat)
    returns (reply: Result<BarsReply, CommandError>)
    requires placement.OnPast? && |rows| <= MAX_BARS ==>
               |rows| * Duration(series.timeframe) <= FloorToBucket(now, series.timeframe)
    modifies hub
    ensures match PlacedBars(old(hub.View()), series, rows, placement, now)
            case Failure(error) => reply == Failure(error) && hub.View() == old(hub.View())
            case Success(bars) =>
              && bars != []
              && hub.View() == AfterBars(old(hub.View()), bars, spread, seal)
              && reply == Success(BarsReply(|bars|, |CommandTicks(bars, spread, seal)|, seal, ExpectedCandles(bars)))
  {
    if rows == [] {
      return Failure(NoBars);
    }
    if |rows| > MAX_BARS {
      return Failure(TooManyBars);
    }
    var times := ResolveOpenTimes(hub, series, |rows|, placement, now);
    if times.Failure? {
      return Failure(times.error);
    }
    var planned := RowBars(series, times.value, rows);
    if planned.Failure? {
      return Failure(planned.error);
    }
    var sent := PlayRun(hub, planned.value, spread, seal);
    reply := Success(BarsReply(|planned.value|, sent, seal, ExpectedCandles(planned.value)));
  }

  /** Bar after bar, then the seal. */
  method PlayRun(hub: SimulatorHub, bars: seq<BarSpec>, spread: real, seal: bool) returns (sent: nat)
    requires bars != []
    modifies hub
    ensures hub.View() == AfterBars(old(hub.View()), bars, spread, seal) && sent == |CommandTicks(bars, spread, seal)|
  {
    sent := 0;
    hide BarPlayed;
    for i := 0 to |bars|
      invariant hub.View() == BarsPlayed(old(hub.View()), bars[..i], spread)
      invariant sent == TICKS_PER_BAR * i
    {
      assert Front(bars[..i + 1]) == bars[..i] && Last(bars[..i + 1]) == bars[i];
      PlayBar(hub, bars[i], spread);
      sent := sent + TICKS_PER_BAR;
    }
    assert bars[..|bars|] == bars;
    if seal {
      PlaySeal(hub, Last(bars));
      sent := sent + 1;
    }
  }

  method PlaySeal(hub: SimulatorHub, bar: BarSpec)
    modifies hub
    ensures hub.View() == Sealed(old(hub.View()), bar)
  {
    hub.Publish(SealTick(bar));
    hub.AdvanceCursor(Series(bar.symbol, bar.timeframe), bar.CloseTime());
  }

  method PlayBar(hub: SimulatorHub, bar: BarSpec, spread: real)
    modifies hub
    ensures hub.View() == BarPlayed(old(hub.View()), bar, spread)
  {
    hide BarTicks;
    hub.PublishAll(BarTicks(bar, spread));
    hub.barsSent := hub.barsSent + 1;
    hub.AdvanceCursor(Series(bar.symbol, bar.timeframe), bar.openTime);
  }

  /** Turn the requested anchor into concrete bucket open times. */
  method ResolveOpenTimes(hub: SimulatorHub, series: Series, count: nat, placement: Placement, now: nat)
    returns (times: Result<seq<nat>, CommandError>)
    requires count > 0
    requires placement.OnPast? ==> count * Duration(series.timeframe) <= FloorToBucket(now, series.timeframe)
    ensures times == OpenTimes(hub.View(), series, count, placement, now)
    ensures times.Success? ==> |times.value| == count
  {
    match placement
    case Unreadable =>
      return Failure(BadAnchor);
    case From(start) =>
      return Success(AnchorOpenTimes(count, series.timeframe, Next, start, None).value);
    case OnPast =>
      return Success(AnchorOpenTimes(count, series.timeframe, Past, now, None).value);
    case AfterSeries =>
      var cursor := hub.Cursor(series);
      if series.symbol in hub.lastTickTs {
        var fromTick := FloorToBucket(hub.lastTickTs[series.symbol], series.timeframe);
        if cursor.None? || fromTick > cursor.value {
          cursor := Some(fromTick);
        }
      }
      return Success(AnchorOpenTimes(count, series.timeframe, Next, now, cursor).value);
  }

  /** The tick of a `tick` command: at its own time if it carries one. */
  function CommandTick(h: HubState, symbol: string, stamp: Option<nat>, bid: Option<real>, ask: Option<real>, last: Option<real>,
                       volume: real, now: nat): Tick
  {
    Tick(symbol, if stamp.Some? then stamp.value else NextMoment(h, symbol, now), bid, ask, last, volume)
  }

  function UnstampedTick(h: HubState, symbol: string, bid: Option<real>, ask: Option<real>, last: Option<real>, volume: real, now: nat): Tick {
    CommandTick(h, symbol, None, bid, ask, last, volume, now)
  }

  method SendTick(hub: SimulatorHub, symbol: string, stamp: Option<nat>, bid: Option<real>, ask: Option<real>, last: Option<real>,
                  volume: real, now: nat)
    returns (reply: Result<Tick, CommandError>)
    modifies hub
    ensures bid.None? && ask.None? && last.None? ==> reply == Failure(TickWithoutPrice) && hub.View() == old(hub.View())
    ensures bid.Some? || ask.Some? || last.Some? ==>
              var tick := CommandTick(old(hub.View()), symbol, stamp, bid, ask, last, volume, now);
              reply == Success(tick) && hub.View() == Published(old(hub.View()), tick)
    ensures stamp.None? && reply.Success? && symbol in old(hub.lastTickTs) ==>
              reply.value.ts > old(hub.lastTickTs[symbol]) && reply.value.ts >= now
  {
    if bid.None? && ask.None? && last.None? {
      return Failure(TickWithoutPrice);
    }
    var moment := now;
    if stamp.Some? {
      moment := stamp.value;
    } else if symbol in hub.lastTickTs {
      moment := Later(now, hub.lastTickTs[symbol] + MILLISECOND);
    }
    var tick := Tick(symbol, moment, bid, ask, last, volume);
    hub.Publish(tick);
    reply := Success(tick);
  }

  /** A run of planned bars is valid, contiguous and aligned: what the rebuilding needs. */
  lemma {:induction false} RowBarsAreARun(series: Series, times: seq<nat>, rows: seq<Row>)
    requires |times| == |rows| && Marching(times, series.timeframe) && RowBars(series, times, rows).Success?
    ensures var bars := RowBars(series, times, rows).value;
            && IsRun(bars, series.symbol, series.timeframe)
            && forall i :: 0 <= i < |bars| ==> bars[i].openTime == times[i]
  {
    hide Aligned;
    if rows != [] {
      RowBarsAreARun(series, Front(times), Front(rows));
    }
  }

  /** Wherever a command places its bars, they are a run: valid, aligned, each opening where the one
      before it ends. */
  lemma PlacedBarsAreARun(h: HubState, series: Series, rows: seq<Row>, placement: Placement, now: nat)
    requires placement.OnPast? ==> |rows| * Duration(series.timeframe) <= FloorToBucket(now, series.timeframe)
    requires series in h.cursors ==> Aligned(h.cursors[series], series.timeframe)
    requires PlacedBars(h, series, rows, placement, now).Success?
    ensures var bars := PlacedBars(h, series, rows, placement, now).value;
            bars != [] && |bars| == |rows| && IsRun(bars, series.symbol, series.timeframe)
  {
    hide FloorToBucket, Duration, Aligned, Marching, IsRun, RowBars, AnchorOpenTimes, BucketClose;
    var tf := series.timeframe;
    match placement {
      case OnPast => PastEndsOnTheLastCompletedBucket(|rows|, tf, now);
      case From(start) => NextStartsBeyondTheSeries(|rows|, tf, start, None);
      case AfterSeries =>
        if series.symbol in h.lastTickTs {
          BucketHoldsMoment(h.lastTickTs[series.symbol], tf);
        }
        NextStartsBeyondTheSeries(|rows|, tf, now, SeriesEnd(h, series));
      case Unreadable =>
    }
    RowBarsAreARun(series, OpenTimes(h, series, |rows|, placement, now).value, rows);
  }

  /** The acknowledgement is kept: whatever the placement, a lane with nothing as new as the first
      bar closes exactly the candles a sealed command announced, after what it had open. */
  lemma TheReplyIsWhatComesOut(f: Feed, h: HubState, series: Series, rows: seq<Row>, placement: Placement, now: nat, spread: real)
    requires placement.OnPast? ==> |rows| * Duration(series.timeframe) <= FloorToBucket(now, series.timeframe)
    requires series in h.cursors ==> Aligned(h.cursors[series], series.timeframe)
    requires PlacedBars(h, series, rows, placement, now).Success? && PlacedBars(h, series, rows, placement, now).value != []
    requires Untouched(f.lane, PlacedBars(h, series, rows, placement, now).value[0].openTime)
    ensures var bars := PlacedBars(h, series, rows, placement, now).value;
            var g := Heard(f, series.symbol, series.timeframe, CommandTicks(bars, spread, true));
            g.closed == f.closed + Outgoing(f.lane) + ExpectedCandles(bars) && g.late == f.late
  {
    hide Aligned, IsRun, PlacedBars, Untouched, Outgoing, Heard, RunTicks, Duration, FloorToBucket;
    PlacedBarsAreARun(h, series, rows, placement, now);
    SealedRunClosesItsBars(f, PlacedBars(h, series, rows, placement, now).value, series.symbol, series.timeframe, spread);
  }

  // ------------------------------------------------------------ what was asked for

  /** The bar is the row at its place; a volume that was not sent is none. */
  predicate IsTheRow(bar: BarSpec, series: Series, row: Row) {
    && bar.symbol == series.symbol && bar.timeframe == series.timeframe
    && row.open == Some(bar.open) && row.high == Some(bar.high) && row.low == Some(bar.low) && row.close == Some(bar.close)
    && bar.volume == (if row.volume.Some? then row.volume.value else 0.0)
  }

  /** A row that could be a bar: its prices are there, its range holds its body, its volume is not negative. */
  predicate CouldPrint(row: Row) {
    && row.open.Some? && row.high.Some? && row.low.Some? && row.close.Some?
    && row.low.value <= row.open.value <= row.high.value && row.low.value <= row.close.value <= row.high.value
    && (row.volume.Some? ==> row.volume.value >= 0.0)
  }

  lemma RowBarIsTheRow(series: Series, openTime: nat, row: Row)
    ensures var r := RowBar(series, openTime, row);
            && (r.Success? <==> CouldPrint(row))
            && (r.Success? ==> IsTheRow(r.value, series, row) && r.value.openTime == openTime)
  {
  }

  /** The rows become bars if and only if every one of them could be one, each bar its row. */
  lemma {:induction false} RowBarsAreTheRows(series: Series, times: seq<nat>, rows: seq<Row>)
    requires |times| == |rows|
    ensures var r := RowBars(series, times, rows);
            && (r.Success? <==> forall i :: 0 <= i < |rows| ==> CouldPrint(rows[i]))
            && (r.Success? ==> forall i :: 0 <= i < |rows| ==> IsTheRow(r.value[i], series, rows[i]) && r.value[i].openTime == times[i])
  {
    hide RowBar, CouldPrint, IsTheRow;
    if rows != [] {
      RowBarsAreTheRows(series, Front(times), Front(rows));
      RowBarIsTheRow(series, Last(times), Last(rows));
      if RowBars(series, times, rows).Success? {
        forall i | 0 <= i < |rows| ensures CouldPrint(rows[i]) {
          assert i < |rows| - 1 ==> rows[i] == Front(rows)[i];
        }
      } else if RowBars(series, Front(times), Front(rows)).Failure? {
        var i :| 0 <= i < |Front(rows)| && !CouldPrint(Front(rows)[i]);
        assert rows[i] == Front(rows)[i];
      }
    }
  }

  /** The bucket after the last one anything of the series was sent into, if anything was. */
  function AfterEverything(h: HubState, series: Series): nat {
    var afterBar := if series in h.cursors then h.cursors[series] + Duration(series.timeframe) else 0;
    var afterTick := if series.symbol in h.lastTickTs then NextBucket(h.lastTickTs[series.symbol], series.timeframe) else 0;
    Later(afterBar, afterTick)
  }

  /** The open times of a run are where it was asked to be: one bucket apart, up to the last completed bucket, or
      from the first the series has left free that has not ended, or from the bucket of the moment named. */
  lemma BarsArePlacedWhereAsked(h: HubState, series: Series, count: nat, placement: Placement, now: nat, i: nat)
    requires i < count && (placement.OnPast? ==> count * Duration(series.timeframe) <= FloorToBucket(now, series.timeframe))
    ensures var (r, tf) := (OpenTimes(h, series, count, placement, now), series.timeframe);
            && (r.Failure? <==> placement.Unreadable?) && (r.Failure? ==> r.error == BadAnchor)
            && (r.Success? ==> |r.value| == count)
            && (placement.OnPast? ==> r.value[i] + (count - i) * Duration(tf) == FloorToBucket(now, tf))
            && (placement.AfterSeries? ==>
                  r.value[i] == Later(AfterEverything(h, series), FloorToBucket(now, tf)) + i * Duration(tf))
            && (placement.From? ==> r.value[i] == FloorToBucket(placement.start, tf) + i * Duration(tf))
  {
    hide FloorToBucket, Duration, March;
    var tf := series.timeframe;
    match placement
    case OnPast =>
      MarchAt(FloorToBucket(now, tf) - count * Duration(tf), count, Duration(tf), i);
      FromTheEnd(count, i, Duration(tf));
    case AfterSeries =>
      var first := AnchorOpenTimes(count, tf, Next, now, SeriesEnd(h, series)).value;
      MarchAt(Later(AfterEverything(h, series), FloorToBucket(now, tf)), count, Duration(tf), i);
    case From(start) => MarchAt(FloorToBucket(start, tf), count, Duration(tf), i);
    case Unreadable =>
  }

  lemma FromTheEnd(count: nat, i: nat, step: nat)
    requires i < count
    ensures i * step + (count - i) * step == count * step
  {
  }

  lemma {:induction false} MarchAt(first: nat, count: nat, step: nat, i: nat)
    requires i < count
    ensures March(first, count, step)[i] == first + i * step
  {
    if i < count - 1 {
      MarchAt(first, count - 1, step, i);
    } else if count > 1 {
      MarchAt(first, count - 1, step, count - 2);
      assert (count - 2) * step + step == (count - 1) * step;
    }
  }

  /** A command is refused for no bars, too many, a place that cannot be read, or a row that could not print, in
      that order; any other plays its rows, each as the bar it describes, where they were asked to be. */
  lemma ACommandPlaysItsRows(h: HubState, series: Series, rows: seq<Row>, placement: Placement, now: nat)
    requires placement.OnPast? && |rows| <= MAX_BARS ==>
               |rows| * Duration(series.timeframe) <= FloorToBucket(now, series.timeframe)
    ensures var r := PlacedBars(h, series, rows, placement, now);
            && (r == Failure(NoBars) <==> rows == []) && (r == Failure(TooManyBars) <==> |rows| > 5000)
            && (r == Failure(BadAnchor) <==> 0 < |rows| <= 5000 && placement.Unreadable?)
            && (r.Success? <==> 0 < |rows| <= 5000 && !placement.Unreadable? && forall i :: 0 <= i < |rows| ==> CouldPrint(rows[i]))
            && (r.Success? ==>
                  var times := OpenTimes(h, series, |rows|, placement, now);
                  && times.Success? && |r.value| == |times.value| == |rows|
                  && forall i :: 0 <= i < |rows| ==> IsTheRow(r.value[i], series, rows[i]) && r.value[i].openTime == times.value[i])
  {
    hide OpenTimes, CouldPrint, IsTheRow, RowBars, Duration, FloorToBucket;
    if 0 < |rows| <= MAX_BARS {
      BarsArePlacedWhereAsked(h, series, |rows|, placement, now, 0);
      var times := OpenTimes(h, series, |rows|, placement, now);
      if times.Success? {
        RowBarsAreTheRows(series, times.value, rows);
        RowsFailAsRows(series, times.value, rows);
      }
    }
  }

  lemma {:induction false} RowsFailAsRows(series: Series, times: seq<nat>, rows: seq<Row>)
    requires |times| == |rows|
    ensures RowBars(series, times, rows).Failure? ==>
              RowBars(series, times, rows).error == MissingField || RowBars(series, times, rows).error.BadBar?
  {
    if rows != [] {
      RowsFailAsRows(series, Front(times), Front(rows));
    }
  }

  /** A tick command sends what it was given; unstamped it happens now, or a millisecond after the last tick of its
      symbol if that is later. */
  lemma ATickIsSentAsGiven(h: HubState, symbol: string, stamp: Option<nat>, bid: Option<real>, ask: Option<real>, last: Option<real>,
                           volume: real, now: nat)
    ensures var t := CommandTick(h, symbol, stamp, bid, ask, last, volume, now);
            && t.symbol == symbol && t.bid == bid && t.ask == ask && t.last == last && t.volume == volume
            && (stamp.Some? ==> t.ts == stamp.value)
            && (stamp.None? && symbol in h.lastTickTs && now < h.lastTickTs[symbol] + 1000 ==> t.ts == h.lastTickTs[symbol] + 1000)
            && (stamp.None? && (symbol in h.lastTickTs ==> h.lastTickTs[symbol] + 1000 <= now) ==> t.ts == now)
  {
  }
}
