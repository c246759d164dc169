/** What reaches the resamplers: which ticks and flushes get through to which series, what each does there, and
    so what the bars of a whole run are made of. */
module ServiceFeeds {
  import opened Prelude
  import opened Timeframes
  import opened MarketData
  import opened ResamplerModel
  import opened ResamplerRuns
  import opened CrossTimeframe
  import opened CandleStore
  import opened Emission
  import opened EmissionLaws
  import opened EmissionRuns
  import opened EmissionProgress

  // ------------------------------------------------------------ what gets through

  /** What an earlier failure left retained goes out without another one. */
  predicate GoesOut(w: World, cfg: Config) {
    w.retained == [] || Emit(w, [], true, cfg.limit).ok
  }

  /** The fates left once it has. */
  function FatesAfter(w: World, cfg: Config): seq<Outcome> {
    if w.retained == [] then w.script else Emit(w, [], true, cfg.limit).w.script
  }

  predicate Succeeds(fates: seq<Outcome>, n: nat) {
    forall i :: 0 <= i < n && i < |fates| ==> fates[i] == Done
  }

  /** A tick gets to its resampler if that went out and it was remembered and, where ticks are announced,
      announced. */
  predicate TickGetsIn(w: World, cfg: Config) {
    GoesOut(w, cfg) && Succeeds(FatesAfter(w, cfg), if cfg.publishTicks then 2 else 1)
  }

  /** The trade, else the middle of the quote, else the side that is quoted. */
  function Worth(tick: Tick): Option<real> {
    match (tick.last, tick.bid, tick.ask)
    case (Some(traded), _, _) => Some(traded)
    case (None, Some(bid), Some(ask)) => Some(bid + (ask - bid) / 2.0)
    case (None, Some(bid), None) => Some(bid)
    case (None, None, Some(ask)) => Some(ask)
    case (None, None, None) => None
  }

  lemma WorthIsThePrice(tick: Tick)
    ensures tick.Price().Failure? <==> Worth(tick).None?
    ensures tick.Price().Success? ==> tick.Price().value == Worth(tick).value
  {
    PriceIs(tick);
  }

  /** What one event is to one series' resampler. */
  function Heard(w: World, cfg: Config, e: Event, series: Series): seq<LaneOp> {
    match e
    case TickEvent(tick) =>
      if tick.symbol == series.symbol && Worth(tick).Some? && TickGetsIn(w, cfg)
      then [OnTick(Quote(tick.ts, Worth(tick).value, tick.volume))] else []
    case FlushEvent(now, _) => if GoesOut(w, cfg) then [OnFlush(now)] else []
    case RestoreEvent(c) => if SeriesOf(c) == series then [OnRestore(c)] else []
    case JoinEvent(moment) => [OnJoin(moment)]
    case _ => []
  }

  /** Everything a run is to it, in order. */
  function AllHeard(cfg: Config, boot: Boot, events: seq<Event>, series: Series): seq<LaneOp> {
    if events == [] then []
    else AllHeard(cfg, boot, Front(events), series) + Heard(RunEvents(cfg, boot, Front(events)), cfg, Last(events), series)
  }

  // ------------------------------------------------------------ emitting changes no bar

  lemma {:induction false} RetainingChangesNoBar(w: World, candles: seq<Candle>, current: bool, series: Series)
    requires series in w.feeds
    ensures SameBars(Retain(w, candles, current).feeds[series], w.feeds[series])
    decreases |candles|
  {
    hide SameBars;
    if candles == [] {
      SameIsSame(w.feeds[series]);
    } else {
      var v := RetainOne(w, candles[0], current);
      RetainingOneChangesNoBar(w, candles[0], current, series);
      RetainingChangesNoBar(v, candles[1..], current, series);
      SameBarsTwice(Retain(v, candles[1..], current).feeds[series], v.feeds[series], w.feeds[series]);
    }
  }

  lemma SameIsSame(f: Feed)
    ensures SameBars(f, f)
  {
  }

  lemma RetainingOneChangesNoBar(w: World, c: Candle, current: bool, series: Series)
    requires series in w.feeds
    ensures SameBars(RetainOne(w, c, current).feeds[series], w.feeds[series])
  {
    hide IsNews, IsRetained, SameBars;
    SameIsSame(w.feeds[series]);
    AQuestionChangesNoBar(w.feeds[series], c.symbol, c.timeframe, c.openTime);
    hide Advance;
  }

  lemma EmittingChangesNoBar(w: World, candles: seq<Candle>, current: bool, limit: nat, series: Series)
    requires series in w.feeds
    ensures SameBars(Emit(w, candles, current, limit).w.feeds[series], w.feeds[series])
  {
    hide Retain, SendOut, SameBars;
    RetainingChangesNoBar(w, candles, current, series);
  }

  /** A call on the resamplers moves every selected series once, and no other. */
  lemma {:induction false} EachMovesOnce(feeds: map<Series, Feed>, list: seq<Series>, symbol: Option<string>, op: LaneOp, series: Series)
    requires Configured(feeds, list) && Distinct(list) && series in feeds
    ensures MovedAll(feeds, list, symbol, op).feeds[series]
         == if series in list && Selected(series, symbol) then Advance(feeds[series], series.symbol, series.timeframe, op) else feeds[series]
    decreases |list|
  {
    hide Advance, NewlyClosed;
    if list != [] {
      assert list == Front(list) + [Last(list)];
      EachMovesOnce(feeds, Front(list), symbol, op, series);
    }
  }

  lemma MovedAndEmitted(w: World, cfg: Config, symbol: Option<string>, op: LaneOp, current: bool, series: Series)
    requires Configured(w.feeds, cfg.series) && Distinct(cfg.series) && series in cfg.series && Selected(series, symbol)
    ensures series in Emitted(w, MovedAll(w.feeds, cfg.series, symbol, op), current, cfg.limit).w.feeds
    ensures SameBars(Emitted(w, MovedAll(w.feeds, cfg.series, symbol, op), current, cfg.limit).w.feeds[series],
                     Advance(w.feeds[series], series.symbol, series.timeframe, op))
  {
    hide SameBars, Advance, Emit, MovedAll;
    EachMovesOnce(w.feeds, cfg.series, symbol, op, series);
    var m := MovedAll(w.feeds, cfg.series, symbol, op);
    EmittingChangesNoBar(w.(feeds := m.feeds), m.closed, current, cfg.limit, series);
  }

  lemma OthersStay(w: World, cfg: Config, symbol: string, op: LaneOp, current: bool, series: Series)
    requires Configured(w.feeds, cfg.series) && Distinct(cfg.series) && series in cfg.series && series.symbol != symbol
    ensures series in Emitted(w, MovedAll(w.feeds, cfg.series, Some(symbol), op), current, cfg.limit).w.feeds
    ensures SameBars(Emitted(w, MovedAll(w.feeds, cfg.series, Some(symbol), op), current, cfg.limit).w.feeds[series], w.feeds[series])
  {
    hide SameBars, Advance, Emit, MovedAll;
    EachMovesOnce(w.feeds, cfg.series, Some(symbol), op, series);
    var m := MovedAll(w.feeds, cfg.series, Some(symbol), op);
    EmittingChangesNoBar(w.(feeds := m.feeds), m.closed, current, cfg.limit, series);
  }

  // ------------------------------------------------------------ one event

  /** The feed once it has heard this. */
  function Having(f: Feed, series: Series, ops: seq<LaneOp>): Feed {
    if ops == [] then f else Advance(Having(f, series, Front(ops)), series.symbol, series.timeframe, Last(ops))
  }

  lemma HavingOne(f: Feed, series: Series, op: LaneOp)
    ensures Having(f, series, [op]) == Advance(f, series.symbol, series.timeframe, op) && Having(f, series, []) == f
  {
    assert Front([op]) == [];
  }

  lemma ClearingChangesNoBar(w: World, cfg: Config, series: Series)
    requires series in w.feeds
    ensures var cleared := ClearRetained(w, cfg.limit);
            && SameBars(cleared.w.feeds[series], w.feeds[series])
            && cleared.ok == GoesOut(w, cfg) && cleared.w.script == FatesAfter(w, cfg)
  {
    hide SameBars, Emit;
    SameIsSame(w.feeds[series]);
    EmittingChangesNoBar(w, [], true, cfg.limit, series);
  }

  lemma TickIsHeard(w: World, cfg: Config, tick: Tick, series: Series)
    requires Configured(w.feeds, cfg.series) && Distinct(cfg.series) && series in cfg.series
    ensures SameBars(HandleTick(w, cfg, tick).w.feeds[series], Having(w.feeds[series], series, Heard(w, cfg, TickEvent(tick), series)))
  {
    hide SameBars, Advance, Emit, Emitted, MovedAll, ClearRetained, GoesOut, FatesAfter, Having, Persisted, Worth, Tick.Price;
    ClearingChangesNoBar(w, cfg, series);
    WorthIsThePrice(tick);
    var cleared := ClearRetained(w, cfg.limit);
    var f := w.feeds[series];
    HavingOne(f, series, OnFlush(0));
    if cleared.ok && Worth(tick).Some? {
      var announced := if cfg.publishTicks then Await(Await(cleared.w).w) else Await(cleared.w);
      var op := OnTick(Quote(tick.ts, Worth(tick).value, tick.volume));
      HavingOne(f, series, op);
      if tick.symbol == series.symbol {
        MovedAndEmitted(announced.w, cfg, Some(tick.symbol), op, true, series);
        SameStepSameBars(announced.w.feeds[series], f, series.symbol, series.timeframe, op);
        var g := Emitted(announced.w, MovedAll(announced.w.feeds, cfg.series, Some(tick.symbol), op), true, cfg.limit).w.feeds[series];
        SameBarsTwice(g, Advance(announced.w.feeds[series], series.symbol, series.timeframe, op),
                      Advance(f, series.symbol, series.timeframe, op));
      } else {
        OthersStay(announced.w, cfg, tick.symbol, op, true, series);
        var g := Emitted(announced.w, MovedAll(announced.w.feeds, cfg.series, Some(tick.symbol), op), true, cfg.limit).w.feeds[series];
        SameBarsTwice(g, announced.w.feeds[series], f);
      }
    }
  }

  lemma FlushIsHeard(w: World, cfg: Config, now: nat, current: bool, series: Series)
    requires Configured(w.feeds, cfg.series) && Distinct(cfg.series) && series in cfg.series
    ensures SameBars(HandleFlush(w, cfg, now, current).w.feeds[series],
                     Having(w.feeds[series], series, Heard(w, cfg, FlushEvent(now, current), series)))
  {
    hide SameBars, Advance, Emit, Emitted, MovedAll, ClearRetained, GoesOut, FatesAfter, Having;
    ClearingChangesNoBar(w, cfg, series);
    var (cleared, f, op) := (ClearRetained(w, cfg.limit), w.feeds[series], OnFlush(now));
    HavingOne(f, series, op);
    if cleared.ok {
      MovedAndEmitted(cleared.w, cfg, None, op, current, series);
      SameStepSameBars(cleared.w.feeds[series], f, series.symbol, series.timeframe, op);
      var g := Emitted(cleared.w, MovedAll(cleared.w.feeds, cfg.series, None, op), current, cfg.limit).w.feeds[series];
      SameBarsTwice(g, Advance(cleared.w.feeds[series], series.symbol, series.timeframe, op),
                    Advance(f, series.symbol, series.timeframe, op));
    }
  }

  /** Whatever the event and whatever fails in it: it does to the bars of a series what it was heard as. */
  lemma EveryEventIsHeard(w: World, cfg: Config, e: Event, series: Series)
    requires Configured(w.feeds, cfg.series) && Distinct(cfg.series) && series in cfg.series
    ensures SameBars(Handle(w, cfg, e).feeds[series], Having(w.feeds[series], series, Heard(w, cfg, e, series)))
  {
    hide SameBars, Advance, HandleTick, HandleFlush, CheckPush, Drain, AskHistory, MergeBehind, MovedAll, Emit, GoesOut, TickGetsIn, Having;
    var f := w.feeds[series];
    SameIsSame(f);
    HavingOne(f, series, OnFlush(0));
    match e
    case TickEvent(tick) => TickIsHeard(w, cfg, tick, series);
    case FlushEvent(now, current) => FlushIsHeard(w, cfg, now, current, series);
    case PushEvent => PushIsNotHeard(w, cfg.limit, series);
    case RestoreEvent(c) =>
      HavingOne(f, series, OnRestore(c));
      SameIsSame(Advance(f, series.symbol, series.timeframe, OnRestore(c)));
    case JoinEvent(moment) =>
      HavingOne(f, series, OnJoin(moment));
      EachMovesOnce(w.feeds, cfg.series, None, OnJoin(moment), series);
      SameIsSame(Advance(f, series.symbol, series.timeframe, OnJoin(moment)));
    case _ =>
  }

  lemma PushIsNotHeard(w: World, limit: nat, series: Series)
    requires series in w.feeds
    ensures SameBars(TakePush(w, limit).w.feeds[series], w.feeds[series])
  {
    hide SameBars, Emit, IsNews;
    SameIsSame(w.feeds[series]);
    if w.waiting != [] {
      var c := w.waiting[0];
      var taken := w.(waiting := w.waiting[1..],
                      log := if IsNews(w, c) then w.log else w.log.(overtaken := w.log.overtaken + [c]));
      EmittingChangesNoBar(taken, [c], true, limit, series);
    }
  }

  /** What a tick does to a series, in full. */
  predicate Takes(f: Feed, g: Feed, series: Series, q: Quote) {
    var b := FloorToBucket(q.ts, series.timeframe);
    if (f.lane.lastClosed.Some? && b <= f.lane.lastClosed.value) || (f.lane.open.Some? && b < f.lane.open.value.candle.openTime)
    then g.late == f.late + 1 && SameBars(g, f.(late := g.late))
    else
      && g.late == f.late && g.accepted == f.accepted + [q]
      && g.lane.open.Some? && g.lane.open.value.candle.openTime == b
      && g.closed == f.closed + (if f.lane.open.Some? && f.lane.open.value.candle.openTime < b
                                 then [f.lane.open.value.candle.(isClosed := true)] else [])
  }

  /** One tick, whatever the state and whatever fails: every configured series of its symbol counts it late or
      takes it in, with its time, its volume and its worth, if and only if it has a worth and got in; every other
      series keeps its bars. */
  lemma ATickReachesItsSeries(w: World, cfg: Config, tick: Tick, series: Series)
    requires Configured(w.feeds, cfg.series) && Distinct(cfg.series) && series in cfg.series
    ensures var (f, g) := (w.feeds[series], Handle(w, cfg, TickEvent(tick)).feeds[series]);
            if series.symbol == tick.symbol && Worth(tick).Some? && TickGetsIn(w, cfg)
            then Takes(f, g, series, Quote(tick.ts, Worth(tick).value, tick.volume))
            else SameBars(g, f)
  {
    EveryEventIsHeard(w, cfg, TickEvent(tick), series);
    hide Handle, Having, Advance, FloorToBucket, TickGetsIn, Worth;
    var f := w.feeds[series];
    HavingOne(f, series, OnFlush(0));
    if series.symbol == tick.symbol && Worth(tick).Some? && TickGetsIn(w, cfg) {
      var q := Quote(tick.ts, Worth(tick).value, tick.volume);
      HavingOne(f, series, OnTick(q));
      ATickIsTakenOrDropped(f, series.symbol, series.timeframe, q);
    }
  }

  /** One flush: a series sends its open bar out if its bucket has ended, and only then. */
  lemma AFlushReachesEverySeries(w: World, cfg: Config, now: nat, current: bool, series: Series)
    requires Configured(w.feeds, cfg.series) && Distinct(cfg.series) && series in cfg.series
    ensures var (f, g) := (w.feeds[series], Handle(w, cfg, FlushEvent(now, current)).feeds[series]);
            if GoesOut(w, cfg) && f.lane.open.Some? && f.lane.open.value.candle.openTime + Duration(series.timeframe) <= now
            then g.lane.open.None? && g.closed == f.closed + [f.lane.open.value.candle.(isClosed := true)]
                 && g.accepted == f.accepted && g.late == f.late
            else SameBars(g, f)
  {
    EveryEventIsHeard(w, cfg, FlushEvent(now, current), series);
    hide Handle, Having, Advance, GoesOut;
    var f := w.feeds[series];
    HavingOne(f, series, OnFlush(now));
    AFlushClosesWhatHasEnded(f, series.symbol, series.timeframe, now);
  }

  // ------------------------------------------------------------ every run

  /** Over every run, from any store and whatever fails: a series holds, has closed and has dropped exactly what
      its resampler would have, called with what got through and nothing else. */
  lemma {:induction false} EveryFeedIsWhatItHeard(cfg: Config, boot: Boot, events: seq<Event>, series: Series)
    requires Distinct(cfg.series) && series in cfg.series
    ensures SameBars(RunEvents(cfg, boot, events).feeds[series], Run(series.symbol, series.timeframe, AllHeard(cfg, boot, events, series)))
  {
    hide SameBars, Advance, Handle, Heard, Distinct;
    if events == [] {
      SameIsSame(FRESH);
    } else {
      EveryFeedIsWhatItHeard(cfg, boot, Front(events), series);
      var (w, before) := (RunEvents(cfg, boot, Front(events)), AllHeard(cfg, boot, Front(events), series));
      var ops := Heard(w, cfg, Last(events), series);
      EveryEventIsHeard(w, cfg, Last(events), series);
      HavingMore(w.feeds[series], Run(series.symbol, series.timeframe, before), series, before, ops);
      SameBarsTwice(RunEvents(cfg, boot, events).feeds[series], Having(w.feeds[series], series, ops),
                    Run(series.symbol, series.timeframe, before + ops));
    }
  }

  lemma {:induction false} HavingMore(f: Feed, g: Feed, series: Series, before: seq<LaneOp>, ops: seq<LaneOp>)
    requires SameBars(f, g) && g == Run(series.symbol, series.timeframe, before)
    ensures SameBars(Having(f, series, ops), Run(series.symbol, series.timeframe, before + ops))
  {
    hide SameBars, Advance, Run;
    if ops == [] {
      assert before + ops == before;
    } else {
      HavingMore(f, g, series, before, Front(ops));
      assert before + ops == (before + Front(ops)) + [Last(ops)];
      RunOfOneMore(series.symbol, series.timeframe, before + Front(ops), Last(ops));
      SameStepSameBars(Having(f, series, Front(ops)), Run(series.symbol, series.timeframe, before + Front(ops)),
                       series.symbol, series.timeframe, Last(ops));
    }
  }

  /** No bar of the series is resumed. */
  predicate NothingRestored(events: seq<Event>, series: Series) {
    forall e :: e in events && e.RestoreEvent? ==> SeriesOf(e.candle) != series
  }

  lemma {:induction false} NothingRestoredIsHeard(cfg: Config, boot: Boot, events: seq<Event>, series: Series)
    requires NothingRestored(events, series)
    ensures NoRestore(AllHeard(cfg, boot, events, series))
  {
    hide RunEvents, TickGetsIn, GoesOut, Worth;
    if events != [] {
      assert Last(events) in events && forall e :: e in Front(events) ==> e in events;
      NothingRestoredIsHeard(cfg, boot, Front(events), series);
    }
  }

  /** From ticks to staged bars. The bars of a series fed by ticks are the ticks that got through, grouped by
      bucket, all of them when they came in order; and of those closed that the store did not have at the start,
      the n-th is the n-th bar staged, as built or, if it closed partial, as completed from the vendor. */
  lemma TicksBecomeStagedBars(cfg: Config, boot: Boot, events: seq<Event>, series: Series)
    requires Distinct(cfg.series) && series in cfg.series && TickFed(events, series) && NothingRestored(events, series)
    ensures var w := RunEvents(cfg, boot, events);
            var heard := AllHeard(cfg, boot, events, series);
            var (r, staged) := (Run(series.symbol, series.timeframe, heard), CandlesOf(w.log.staged, series));
            var due := Above(r.closed, Mark(boot.store, series));
            && Groups(Bars(r), r.accepted, series.timeframe) && |r.accepted| + r.late == |Quotes(heard)|
            && (InOrder(heard) ==> r.accepted == Quotes(heard))
            && w.feeds[series].closed == r.closed && w.feeds[series].lane.open == r.lane.open
            && |due| - |RetainedOf(w.retained, series)| <= |staged| <= |due|
            && (forall i :: 0 <= i < |staged| ==> Completes(staged[i], due[i], due[i].openTime in r.partials))
  {
    hide RunEvents, AllHeard, Run, Groups, Completes, Distinct, CandlesOf, RetainedOf, Above, Sound, TickFed, NothingRestored, InOrder, Quotes, Bars;
    EveryFeedIsWhatItHeard(cfg, boot, events, series);
    NothingRestoredIsHeard(cfg, boot, events, series);
    var heard := AllHeard(cfg, boot, events, series);
    BarsAreTicksByBucket(series.symbol, series.timeframe, heard);
    if InOrder(heard) {
      InOrderDropsNothing(series.symbol, series.timeframe, heard);
    }
    NothingIsLostOrReordered(cfg, boot, events, series);
  }

  // ------------------------------------------------------------ when nothing fails

  /** With nothing failing a tick always gets in. */
  lemma NothingIsInTheWay(w: World, cfg: Config)
    requires w.script == []
    ensures TickGetsIn(w, cfg) && GoesOut(w, cfg)
  {
    hide Emit;
    EmittingSucceeds(w, [], true, cfg.limit);
  }

  /** The bar a symbol's series has open is saved. */
  predicate IsSaved(w: World, series: Series) {
    series in w.feeds && w.feeds[series].lane.open.Some? ==>
      series in w.store.open && w.store.open[series] == w.feeds[series].lane.open.value.candle
  }

  lemma {:induction false} SavingSaves(w: World, list: seq<Series>, symbol: string, series: Series)
    requires SaveOpen(w, list, symbol).ok && AllLabelled(w.feeds)
    requires series.symbol == symbol && (series in list || IsSaved(w, series))
    ensures IsSaved(SaveOpen(w, list, symbol).w, series)
    decreases |list|
  {
    if list != [] {
      var s := list[0];
      if s.symbol != symbol || s !in w.feeds || w.feeds[s].lane.open.None? {
        SavingSaves(w, list[1..], symbol, series);
      } else {
        SavingSaves(Spent(w).(store := Saved(w.store, w.feeds[s].lane.open.value.candle)), list[1..], symbol, series);
      }
    }
  }

  /** A tick in which nothing fails is the service at rest again: nothing is retained, everything staged has been
      published and acknowledged, and, where that is configured, every bar its symbol has open is saved. */
  lemma OneGoodTickLeavesNothing(w: World, cfg: Config, tick: Tick, series: Series)
    requires Configured(w.feeds, cfg.series) && Distinct(cfg.series) && AllLabelled(w.feeds)
    requires series in cfg.series && series.symbol == tick.symbol && Worth(tick).Some? && w.script == []
    ensures var v := Handle(w, cfg, TickEvent(tick));
            && v.retained == [] && v.store.outbox == [] && v.script == []
            && (cfg.saveOpenBars ==> IsSaved(v, series))
  {
    hide Emit, MovedAll, SaveOpen, IsSaved, Worth, Tick.Price, Distinct, Advance;
    WorthIsThePrice(tick);
    EmittingSucceeds(w, [], true, cfg.limit);
    ClearingKeepsLabels(w, cfg);
    var cleared := ClearRetained(w, cfg.limit);
    var announced := if cfg.publishTicks then Await(Await(cleared.w).w) else Await(cleared.w);
    var op := OnTick(Quote(tick.ts, Worth(tick).value, tick.volume));
    var m := MovedAll(announced.w.feeds, cfg.series, Some(tick.symbol), op);
    MovedPerSeries(announced.w.feeds, cfg.series, Some(tick.symbol), op, series);
    EmittingSucceeds(announced.w.(feeds := m.feeds), m.closed, true, cfg.limit);
    EmittingKeepsLabels(announced.w.(feeds := m.feeds), m.closed, true, cfg.limit);
    var emitted := Emitted(announced.w, m, true, cfg.limit);
    if cfg.saveOpenBars {
      SavingSucceeds(emitted.w, cfg.series, tick.symbol);
      SavingSaves(emitted.w, cfg.series, tick.symbol, series);
    }
  }

  lemma {:induction false} SavingSucceeds(w: World, list: seq<Series>, symbol: string)
    requires w.script == []
    ensures var call := SaveOpen(w, list, symbol);
            call.ok && call.w.script == [] && call.w.retained == w.retained && call.w.store.outbox == w.store.outbox
    decreases |list|
  {
    if list != [] {
      var s := list[0];
      if s.symbol != symbol || s !in w.feeds || w.feeds[s].lane.open.None? {
        SavingSucceeds(w, list[1..], symbol);
      } else {
        SavingSucceeds(Spent(w).(store := Saved(w.store, w.feeds[s].lane.open.value.candle)), list[1..], symbol);
      }
    }
  }

  lemma EmittingKeepsLabels(w: World, candles: seq<Candle>, current: bool, limit: nat)
    requires AllLabelled(w.feeds)
    ensures AllLabelled(Emit(w, candles, current, limit).w.feeds)
  {
    hide AllLabelled, Retain, SendOut;
    RetainKeepsLabels(w, candles, current);
  }

  lemma ClearingKeepsLabels(w: World, cfg: Config)
    requires AllLabelled(w.feeds)
    ensures AllLabelled(ClearRetained(w, cfg.limit).w.feeds)
  {
    hide AllLabelled, Emit;
    EmittingKeepsLabels(w, [], true, cfg.limit);
  }

  /** So after any start and any failures one good tick of its symbol catches a series up: every bar closed that
      the store did not have at the start, the one this tick may have closed included, is staged in order and
      acknowledged, and the bar it is building is saved. */
  lemma OneGoodTickCatchesUp(cfg: Config, boot: Boot, events: seq<Event>, tick: Tick, series: Series)
    requires Distinct(cfg.series) && series in cfg.series && TickFed(events, series)
    requires series.symbol == tick.symbol && Worth(tick).Some?
    ensures var w := Handle(Recovered(RunEvents(cfg, boot, events)), cfg, TickEvent(tick));
            var (f, staged) := (w.feeds[series], CandlesOf(w.log.staged, series));
            var due := Above(f.closed, Mark(boot.store, series));
            && w.retained == [] && w.log.acked == boot.store.outbox + w.log.staged && |staged| == |due|
            && (forall i :: 0 <= i < |staged| ==> Completes(staged[i], due[i], due[i].openTime in f.partials))
            && (cfg.saveOpenBars ==> IsSaved(w, series))
  {
    hide Good, Straight, HandleTick, Completes, Distinct, RunEvents, Above, Worth, IsSaved;
    var before := RunEvents(cfg, boot, events);
    var w := Handle(Recovered(before), cfg, TickEvent(tick));
    EveryRunKeeps(cfg, boot, events, series);
    TheOutboxLosesNothing(cfg, boot, events, series);
    RecoveredIsKept(before, series);
    RetainedIsNoMatter(before, Recovered(before), series);
    OneGoodTickLeavesNothing(Recovered(before), cfg, tick, series);
    TickKeeps(Recovered(before), cfg, tick, series);
    HandleStaysStraight(Recovered(before), cfg, TickEvent(tick), series);
    KeptMeansStaged(w, series);
    StraightMeans(w, series);
    NoneRetained(series);
  }
}
