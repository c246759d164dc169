/** Whole runs of the service: ticks, flushes, vendor bars, restores and joins, in any order, with any
    await failing or losing its reply. */
module EmissionRuns {
  import opened Prelude
  import opened Timeframes
  import opened MarketData
  import opened ResamplerModel
  import opened ResamplerRuns
  import opened CandleStore
  import opened Backfill
  import opened Emission
  import opened EmissionLaws

  datatype Event =
    | TickEvent(tick: Tick)
    | FlushEvent(now: nat, closeIsCurrent: bool)
    | DrainEvent
    | CheckEvent(candle: Candle, now: nat, answer: Reply)     // a pushed bar, up to the lock
    | PushEvent                                               // the callback whose turn it is
    | HistoryEvent(series: Series, now: nat, answer: Reply)   // the history loop asks, with no cut
    | MergeEvent(series: Series, candles: seq<Candle>)        // any other bars merged behind the live path
    | RestoreEvent(candle: Candle)
    | JoinEvent(moment: nat)

  /** What a service starts on: the store its predecessor left, what it is owed, and the fates to come. */
  datatype Boot = Boot(store: Store, gap: Gap, script: seq<Outcome>, replies: seq<Option<Candle>>)

  function HandleRestore(w: World, c: Candle): (v: World)
    ensures v.feeds.Keys == w.feeds.Keys
  {
    var s := SeriesOf(c);
    if s in w.feeds then w.(feeds := w.feeds[s := Advance(w.feeds[s], s.symbol, s.timeframe, OnRestore(c))]) else w
  }

  function Handle(w: World, cfg: Config, event: Event): (v: World)
    requires Configured(w.feeds, cfg.series)
    ensures v.feeds.Keys == w.feeds.Keys && v.log.start == w.log.start
  {
    match event
    case TickEvent(tick) => HandleTick(w, cfg, tick).w
    case FlushEvent(now, current) => HandleFlush(w, cfg, now, current).w
    case DrainEvent => Drain(w).w
    case CheckEvent(c, now, answer) => CheckPush(w, cfg, c, now, answer).w
    case PushEvent => TakePush(w, cfg.limit).w
    case HistoryEvent(series, now, answer) => AskHistory(w, cfg, series, now, answer)
    case MergeEvent(series, candles) => MergeBehind(w, series, CandlesOf(candles, series), cfg.limit)
    case RestoreEvent(c) => HandleRestore(w, c)
    case JoinEvent(moment) => w.(feeds := MovedAll(w.feeds, cfg.series, None, OnJoin(moment)).feeds)
  }

  function Started(cfg: Config, boot: Boot): World {
    World(map s | s in cfg.series :: FRESH, [], [], boot.store, boot.gap, NothingLogged(boot.store), boot.script, boot.replies)
  }

  function RunEvents(cfg: Config, boot: Boot, events: seq<Event>): (w: World)
    ensures Configured(w.feeds, cfg.series) && w.log.start == boot.store
  {
    if events == [] then Started(cfg, boot)
    else Handle(RunEvents(cfg, boot, Front(events)), cfg, Last(events))
  }

  // ------------------------------------------------------------ the resamplers move

  predicate MovesLanes(op: LaneOp) {
    op.OnTick? || op.OnFlush? || op.OnJoin?
  }

  predicate LabelledAs(f: Feed, series: Series) {
    f.lane.open.Some? ==> SeriesOf(f.lane.open.value.candle) == series
  }

  lemma MoveClosesItsOwn(f: Feed, series: Series, op: LaneOp)
    requires LabelledAs(f, series) && MovesLanes(op)
    ensures var g := Advance(f, series.symbol, series.timeframe, op);
            && LabelledAs(g, series) && |NewlyClosed(f, g)| <= 1 && g.closed == f.closed + NewlyClosed(f, g)
            && (forall c :: c in NewlyClosed(f, g) ==> SeriesOf(c) == series)
  {
    hide FloorToBucket, BucketClose;
    var g := Advance(f, series.symbol, series.timeframe, op);
    assert g.closed[..|f.closed|] == f.closed;
  }

  /** A move closes nothing, or one bar newer than every other. */
  lemma MoveShape(f: Feed, series: Series, op: LaneOp)
    requires MovesLanes(op)
    ensures var g := Advance(f, series.symbol, series.timeframe, op);
            if NewlyClosed(f, g) == [] then SameCloses(f, g) else ClosesOne(f, g) && NewlyClosed(f, g) == [Last(g.closed)]
  {
    hide FloorToBucket, BucketClose;
    var g := Advance(f, series.symbol, series.timeframe, op);
    assert g.closed[..|f.closed|] == f.closed;
    assert f.partials + {} == f.partials;
  }

  predicate Selected(series: Series, symbol: Option<string>) {
    symbol.None? || series.symbol == symbol.value
  }

  lemma {:induction false} AllOfOneSeries(candles: seq<Candle>, own: Series, series: Series)
    requires |candles| <= 1 && forall c :: c in candles ==> SeriesOf(c) == own
    ensures CandlesOf(candles, series) == if own == series then candles else []
  {
    if candles != [] {
      OneCandle(candles[0], series);
      assert candles == [candles[0]];
    }
  }

  /** Each selected series moves exactly once, and the batch holds exactly what its own move closed. */
  lemma {:induction false} MovedPerSeries(feeds: map<Series, Feed>, list: seq<Series>, symbol: Option<string>, op: LaneOp, series: Series)
    requires Configured(feeds, list) && Distinct(list) && series in feeds && AllLabelled(feeds) && MovesLanes(op)
    ensures var m := MovedAll(feeds, list, symbol, op);
            && AllLabelled(m.feeds)
            && (if series in list && Selected(series, symbol)
                then m.feeds[series] == Advance(feeds[series], series.symbol, series.timeframe, op)
                     && CandlesOf(m.closed, series) == NewlyClosed(feeds[series], m.feeds[series])
                else m.feeds[series] == feeds[series] && CandlesOf(m.closed, series) == [])
    decreases |list|
  {
    hide Advance, NewlyClosed, CandlesOf, AllLabelled, Moved;
    if list == [] {
      NoCandles(series);
    } else {
      var s := Last(list);
      assert forall x :: x in Front(list) ==> x in list && x != s;
      MovedPerSeries(feeds, Front(list), symbol, op, series);
      if Selected(s, symbol) {
        var before := MovedAll(feeds, Front(list), symbol, op);
        MovedOne(before.feeds, s, op, before.closed, series);
      }
    }
  }

  lemma MovedOne(feeds: map<Series, Feed>, s: Series, op: LaneOp, closed: seq<Candle>, series: Series)
    requires s in feeds && series in feeds && AllLabelled(feeds) && MovesLanes(op)
    ensures var m := Moved(feeds, s, op, closed);
            && AllLabelled(m.feeds)
            && (if s == series
                then m.feeds[series] == Advance(feeds[series], series.symbol, series.timeframe, op)
                     && CandlesOf(m.closed, series) == CandlesOf(closed, series) + NewlyClosed(feeds[series], m.feeds[series])
                else m.feeds[series] == feeds[series] && CandlesOf(m.closed, series) == CandlesOf(closed, series))
  {
    hide Advance, NewlyClosed, CandlesOf;
    MoveClosesItsOwn(feeds[s], s, op);
    var after := Advance(feeds[s], s.symbol, s.timeframe, op);
    CandlesOfAppends(closed, NewlyClosed(feeds[s], after), series);
    AllOfOneSeries(NewlyClosed(feeds[s], after), s, series);
  }

  lemma NoCandles(series: Series)
    ensures CandlesOf([], series) == []
  {
  }

  lemma MovedTrackIsGood(t: Track, series: Series, op: LaneOp)
    requires Good(t) && t.retained == [] && t.pending == [] && MovesLanes(op)
    ensures var g := Advance(t.feed, series.symbol, series.timeframe, op);
            Good(t.(feed := g, pending := NewlyClosed(t.feed, g)))
  {
    hide Good, Sound, Advance, SameCloses, ClosesOne, NewlyClosed;
    GoodIsSound(t);
    AdvanceIsSound(t.feed, series.symbol, series.timeframe, op);
    MoveShape(t.feed, series, op);
    var g := Advance(t.feed, series.symbol, series.timeframe, op);
    if NewlyClosed(t.feed, g) == [] {
      QuietStepKeepsGood(t, g);
    } else {
      ClosingStepKeepsGood(t, g);
    }
  }

  lemma MovingKeepsGood(w: World, cfg: Config, symbol: Option<string>, op: LaneOp, series: Series)
    requires Configured(w.feeds, cfg.series) && Distinct(cfg.series) && series in cfg.series
    requires GoodFor(w, series, []) && AllLabelled(w.feeds) && w.retained == [] && MovesLanes(op)
    ensures var m := MovedAll(w.feeds, cfg.series, symbol, op);
            GoodFor(w.(feeds := m.feeds), series, m.closed) && AllLabelled(m.feeds)
  {
    hide Good, Advance, NewlyClosed, CandlesOf, AllLabelled, Distinct;
    MovedPerSeries(w.feeds, cfg.series, symbol, op, series);
    NoCandles(series);
    if Selected(series, symbol) {
      MovedTrackIsGood(TrackOf(w, series, []), series, op);
    }
  }

  // ------------------------------------------------------------ one event at a time

  /** What is kept about one tick-fed series between events. */
  ghost predicate Kept(w: World, series: Series) {
    GoodFor(w, series, []) && AllLabelled(w.feeds)
  }

  lemma ClearingKeeps(w: World, series: Series, limit: nat)
    requires Kept(w, series)
    ensures var call := ClearRetained(w, limit);
            Kept(call.w, series) && (call.ok ==> call.w.retained == [])
  {
    hide GoodFor, AllLabelled, Emit;
    EmitKeepsGood(w, [], true, series, limit);
  }

  lemma AwaitKeeps(w: World, series: Series)
    requires Kept(w, series)
    ensures Kept(Await(w).w, series) && Await(w).w.retained == w.retained && Await(w).w.feeds == w.feeds
  {
    hide Good, AllLabelled;
    SpentTrack(w, series, []);
  }

  lemma EmittingKeeps(w: World, cfg: Config, symbol: Option<string>, op: LaneOp, current: bool, series: Series)
    requires Configured(w.feeds, cfg.series) && Distinct(cfg.series) && series in cfg.series
    requires Kept(w, series) && w.retained == [] && MovesLanes(op)
    ensures Kept(Emitted(w, MovedAll(w.feeds, cfg.series, symbol, op), current, cfg.limit).w, series)
  {
    hide GoodFor, AllLabelled, Emit, MovedAll;
    MovingKeepsGood(w, cfg, symbol, op, series);
    var m := MovedAll(w.feeds, cfg.series, symbol, op);
    EmitKeepsGood(w.(feeds := m.feeds), m.closed, current, series, cfg.limit);
  }

  /** Saving open bars is nothing a track, an outbox or a window knows of. */
  lemma {:induction false} SavingIsQuiet(w: World, series: seq<Series>, symbol: string)
    ensures var v := SaveOpen(w, series, symbol).w;
            v == w.(store := w.store.(open := v.store.open), script := v.script)
    decreases |series|
  {
    if series != [] {
      var s := series[0];
      if s.symbol != symbol || s !in w.feeds || w.feeds[s].lane.open.None? {
        SavingIsQuiet(w, series[1..], symbol);
      } else if NextOutcome(w) == Done {
        SavingIsQuiet(Spent(w).(store := Saved(w.store, w.feeds[s].lane.open.value.candle)), series[1..], symbol);
      }
    }
  }

  lemma PersistingIsQuiet(emitted: Call, cfg: Config, symbol: string)
    ensures var (w, v) := (emitted.w, Persisted(emitted, cfg, symbol).w);
            v == w.(store := w.store.(open := v.store.open), script := v.script)
  {
    hide SaveOpen;
    SavingIsQuiet(emitted.w, cfg.series, symbol);
  }

  lemma PersistingKeeps(emitted: Call, cfg: Config, symbol: string, series: Series)
    requires Kept(emitted.w, series)
    ensures Kept(Persisted(emitted, cfg, symbol).w, series)
  {
    hide Good, AllLabelled, Persisted;
    PersistingIsQuiet(emitted, cfg, symbol);
    assert TrackOf(Persisted(emitted, cfg, symbol).w, series, []) == TrackOf(emitted.w, series, []);
  }

  lemma TickKeeps(w: World, cfg: Config, tick: Tick, series: Series)
    requires Configured(w.feeds, cfg.series) && Distinct(cfg.series) && series in cfg.series && Kept(w, series)
    ensures Kept(HandleTick(w, cfg, tick).w, series)
  {
    hide Kept, Distinct, ClearRetained, Await, Emitted, MovedAll, Listens, Persisted;
    ClearingKeeps(w, series, cfg.limit);
    var cleared := ClearRetained(w, cfg.limit);
    if cleared.ok {
      AwaitKeeps(cleared.w, series);
      var remembered := Await(cleared.w);
      AwaitKeeps(remembered.w, series);
      var announced := if cfg.publishTicks then Await(remembered.w) else remembered;
      if tick.Price().Success? {
        var op := OnTick(Quote(tick.ts, tick.Price().value, tick.volume));
        EmittingKeeps(announced.w, cfg, Some(tick.symbol), op, true, series);
        PersistingKeeps(Emitted(announced.w, MovedAll(announced.w.feeds, cfg.series, Some(tick.symbol), op), true, cfg.limit), cfg, tick.symbol, series);
      }
    }
  }

  lemma FlushKeeps(w: World, cfg: Config, now: nat, current: bool, series: Series)
    requires Configured(w.feeds, cfg.series) && Distinct(cfg.series) && series in cfg.series && Kept(w, series)
    ensures Kept(HandleFlush(w, cfg, now, current).w, series)
  {
    hide Kept, Distinct, ClearRetained, Emitted, MovedAll;
    ClearingKeeps(w, series, cfg.limit);
    var cleared := ClearRetained(w, cfg.limit);
    if cleared.ok {
      EmittingKeeps(cleared.w, cfg, None, OnFlush(now), current, series);
    }
  }

  /** What a gap check leaves as it was: everything but the windows and marks of its own series. */
  lemma FillingTouchesItsSeries(w: World, cfg: Config, c: Candle, now: nat, answer: Reply)
    ensures var v := FillGapBefore(w, cfg, c, now, answer).w;
            && v.retained == w.retained && v.feeds == w.feeds && v.replies == w.replies
            && v.store.outbox == w.store.outbox && v.store.open == w.store.open
            && v.log == w.log.(swallowed := v.log.swallowed, missed := v.log.missed)
            && (forall s :: s != SeriesOf(c) ==> Mark(v.store, s) == Mark(w.store, s) && Window(v.store, s) == Window(w.store, s))
  {
    hide PlanSeries, LeavesAGap, Listens, OnTheWay, UpTo, Newest;
  }

  lemma ForeignFillingKeeps(w: World, cfg: Config, c: Candle, now: nat, answer: Reply, series: Series)
    requires Kept(w, series) && SeriesOf(c) != series
    ensures Kept(FillGapBefore(w, cfg, c, now, answer).w, series)
  {
    hide Good, AllLabelled, FillGapBefore;
    FillingTouchesItsSeries(w, cfg, c, now, answer);
    assert TrackOf(FillGapBefore(w, cfg, c, now, answer).w, series, []) == TrackOf(w, series, []);
  }

  lemma ForeignCheckKeeps(w: World, cfg: Config, c: Candle, now: nat, answer: Reply, series: Series)
    requires Kept(w, series) && SeriesOf(c) != series
    ensures Kept(CheckPush(w, cfg, c, now, answer).w, series)
  {
    hide Good, AllLabelled, FillGapBefore, IsFinished, CandlesOf, RetainedOf;
    ForeignFillingKeeps(w, cfg, c, now, answer, series);
    var (filled, v) := (FillGapBefore(w, cfg, c, now, answer).w, CheckPush(w, cfg, c, now, answer).w);
    assert TrackOf(v, series, []) == TrackOf(if IsFinished(c, now) then filled else w, series, []);
  }

  /** What a write behind the live path leaves as it was: everything but its own window and mark. */
  lemma WritingTouchesItsSeries(w: World, written: Series, plan: Plan, limit: nat)
    requires plan.Write? ==> plan.changed != []
    ensures var v := WritePlan(w, written, plan, limit);
            && v.replies == w.replies && v.store.outbox == w.store.outbox && v.store.open == w.store.open
            && v.log == w.log.(swallowed := v.log.swallowed)
            && (forall s :: s != written ==> Mark(v.store, s) == Mark(w.store, s) && Window(v.store, s) == Window(w.store, s))
  {
    hide OnTheWay, UpTo, Newest, Tail;
  }

  lemma ForeignWritingKeeps(w: World, written: Series, plan: Plan, limit: nat, gap: Gap, series: Series)
    requires Kept(w, series) && written != series && (plan.Write? ==> plan.changed != [])
    ensures Kept(WritePlan(w, written, plan, limit).(gap := gap), series)
  {
    hide Good, AllLabelled, WritePlan;
    WritingTouchesItsSeries(w, written, plan, limit);
    assert TrackOf(WritePlan(w, written, plan, limit).(gap := gap), series, []) == TrackOf(w, series, []);
  }

  lemma ForeignHistoryKeeps(w: World, cfg: Config, e: Event, series: Series)
    requires Configured(w.feeds, cfg.series) && Kept(w, series)
    requires (e.HistoryEvent? || e.MergeEvent?) && e.series != series
    ensures Kept(Handle(w, cfg, e), series)
  {
    hide Good, AllLabelled, WritePlan, PlanSeries, CandlesOf;
    match e
    case HistoryEvent(written, now, answer) =>
      if written.symbol in cfg.targets {
        ForeignWritingKeeps(w, written, PlanSeries(w.store, written, cfg.targets[written.symbol], None, now, answer, false, false),
                            cfg.limit, Handle(w, cfg, e).gap, series);
      } else {
        assert TrackOf(Handle(w, cfg, e), series, []) == TrackOf(w, series, []);
      }
    case MergeEvent(written, candles) =>
      var incoming := CandlesOf(candles, written);
      if incoming != [] {
        ForeignWritingKeeps(w, written, Write(incoming, incoming), cfg.limit, w.gap, series);
      }
    case _ =>
  }

  /** A pushed bar of another series, when its turn comes. */
  lemma ForeignPushKeeps(w: World, limit: nat, series: Series)
    requires Kept(w, series) && (w.waiting != [] ==> SeriesOf(w.waiting[0]) != series)
    ensures Kept(TakePush(w, limit).w, series)
  {
    hide Good, AllLabelled, Emit, IsNews, CandlesOf, RetainedOf;
    if w.waiting != [] {
      var c := w.waiting[0];
      var taken := w.(waiting := w.waiting[1..],
                      log := if IsNews(w, c) then w.log else w.log.(overtaken := w.log.overtaken + [c]));
      assert TrackOf(taken, series, []) == TrackOf(w, series, []);
      ForeignEmittingKeeps(taken, c, limit, series);
    }
  }

  lemma ForeignEmittingKeeps(w: World, c: Candle, limit: nat, series: Series)
    requires Kept(w, series) && SeriesOf(c) != series
    ensures Kept(Emit(w, [c], true, limit).w, series)
  {
    hide Good, AllLabelled, Emit, CandlesOf;
    OneCandle(c, series);
    NoCandles(series);
    assert TrackOf(w, series, [c]) == TrackOf(w, series, []);
    EmitKeepsGood(w, [c], true, series, limit);
  }

  lemma RestoreKeeps(w: World, c: Candle, series: Series)
    requires Kept(w, series)
    ensures Kept(HandleRestore(w, c), series)
  {
    hide Good, Advance;
    var s := SeriesOf(c);
    if s in w.feeds {
      RestoreIsQuiet(w.feeds[s], s, c);
      if s == series {
        var t := TrackOf(w, series, []);
        GoodIsSound(t);
        hide Sound, CandlesOf, RetainedOf;
        RestoreIsSound(t.feed, s, c);
        QuietStepKeepsGood(t, Advance(t.feed, s.symbol, s.timeframe, OnRestore(c)));
      }
    }
  }

  lemma RestoreIsSound(f: Feed, s: Series, c: Candle)
    requires Sound(f)
    ensures Sound(Advance(f, s.symbol, s.timeframe, OnRestore(c)))
  {
    hide Sound, Advance;
    AdvanceIsSound(f, s.symbol, s.timeframe, OnRestore(c));
  }

  lemma RestoreIsQuiet(f: Feed, s: Series, c: Candle)
    requires SeriesOf(c) == s
    ensures var g := Advance(f, s.symbol, s.timeframe, OnRestore(c));
            SameCloses(f, g) && (LabelledAs(f, s) ==> LabelledAs(g, s))
  {
  }

  lemma JoinKeeps(w: World, cfg: Config, moment: nat, series: Series)
    requires Configured(w.feeds, cfg.series) && Distinct(cfg.series) && series in cfg.series && Kept(w, series)
    ensures Kept(Handle(w, cfg, JoinEvent(moment)), series)
  {
    hide Good, Advance, NewlyClosed, CandlesOf, RetainedOf, AllLabelled, Distinct, Sound;
    MovedPerSeries(w.feeds, cfg.series, None, OnJoin(moment), series);
    var t := TrackOf(w, series, []);
    GoodIsSound(t);
    AdvanceIsSound(t.feed, series.symbol, series.timeframe, OnJoin(moment));
    JoinIsQuiet(t.feed, series, moment);
    QuietStepKeepsGood(t, Advance(t.feed, series.symbol, series.timeframe, OnJoin(moment)));
  }

  lemma JoinIsQuiet(f: Feed, s: Series, moment: nat)
    ensures SameCloses(f, Advance(f, s.symbol, s.timeframe, OnJoin(moment)))
  {
  }

  // ------------------------------------------------------------ whole runs

  /** The event is none of a vendor that pushes the series' bars already closed, nor of its history. */
  predicate IsNoPush(e: Event, series: Series) {
    && (e.CheckEvent? ==> SeriesOf(e.candle) != series)
    && (e.HistoryEvent? ==> e.series != series)
    && (e.MergeEvent? ==> e.series != series)
  }

  /** The series' bars come from ticks. */
  predicate TickFed(events: seq<Event>, series: Series) {
    forall e :: e in events ==> IsNoPush(e, series)
  }

  /** No bar of the series waits for its turn. */
  predicate NoneWaiting(w: World, series: Series) {
    forall c :: c in w.waiting ==> SeriesOf(c) != series
  }

  lemma EventKeeps(w: World, cfg: Config, e: Event, series: Series)
    requires Configured(w.feeds, cfg.series) && Distinct(cfg.series) && series in cfg.series
    requires Kept(w, series) && IsNoPush(e, series) && NoneWaiting(w, series)
    ensures Kept(Handle(w, cfg, e), series)
  {
    hide Kept, HandleTick, HandleFlush, CheckPush, TakePush, HandleRestore, Distinct, Drain, AskHistory, MergeBehind;
    match e
    case TickEvent(tick) => TickKeeps(w, cfg, tick, series);
    case FlushEvent(now, current) => FlushKeeps(w, cfg, now, current, series);
    case DrainEvent => DrainingKeeps(w, series);
    case CheckEvent(c, now, answer) => ForeignCheckKeeps(w, cfg, c, now, answer, series);
    case PushEvent => ForeignPushKeeps(w, cfg.limit, series);
    case HistoryEvent(written, now, answer) => ForeignHistoryKeeps(w, cfg, e, series);
    case MergeEvent(written, candles) => ForeignHistoryKeeps(w, cfg, e, series);
    case RestoreEvent(c) => RestoreKeeps(w, c, series);
    case JoinEvent(moment) => JoinKeeps(w, cfg, moment, series);
  }

  lemma DrainingKeeps(w: World, series: Series)
    requires Kept(w, series)
    ensures Kept(Drain(w).w, series)
  {
    hide GoodFor, AllLabelled, Drain;
    DrainKeepsGood(w, series);
  }

  lemma NoneComesToWait(w: World, cfg: Config, e: Event, series: Series)
    requires Configured(w.feeds, cfg.series) && IsNoPush(e, series) && NoneWaiting(w, series)
    ensures NoneWaiting(Handle(w, cfg, e), series)
  {
    hide HandleTick, HandleFlush, FillGapBefore, Drain, AskHistory, MergeBehind, TakePush, IsFinished, MovedAll, Advance;
  }

  lemma {:induction false} EveryRunKeeps(cfg: Config, boot: Boot, events: seq<Event>, series: Series)
    requires Distinct(cfg.series) && series in cfg.series && TickFed(events, series)
    ensures Kept(RunEvents(cfg, boot, events), series) && NoneWaiting(RunEvents(cfg, boot, events), series)
  {
    hide Kept, Handle, Distinct, IsNoPush;
    if events == [] {
      StartIsKept(cfg, boot, series);
    } else {
      assert Last(events) in events && forall e :: e in Front(events) ==> e in events;
      EveryRunKeeps(cfg, boot, Front(events), series);
      EventKeeps(RunEvents(cfg, boot, Front(events)), cfg, Last(events), series);
      NoneComesToWait(RunEvents(cfg, boot, Front(events)), cfg, Last(events), series);
    }
  }

  lemma StartIsKept(cfg: Config, boot: Boot, series: Series)
    requires series in cfg.series
    ensures Kept(Started(cfg, boot), series)
  {
  }

  /** What a resampler has closed that the store did not have when the service started. */
  function ClosedSince(f: Feed, mark: Option<nat>): seq<Candle> {
    Above(f.closed, mark)
  }

  /** Whatever the service starts on and whatever fails: of the bars a resampler closed that are newer than
      the watermark it started on, the n-th is the n-th bar staged, as built or completed from the vendor
      if it closed partial; at most the newest closed bar is not staged yet, and it is still retained. */
  lemma NothingIsLostOrReordered(cfg: Config, boot: Boot, events: seq<Event>, series: Series)
    requires Distinct(cfg.series) && series in cfg.series && TickFed(events, series)
    ensures var w := RunEvents(cfg, boot, events);
            var (f, staged, held) := (w.feeds[series], CandlesOf(w.log.staged, series), RetainedOf(w.retained, series));
            var due := ClosedSince(f, Mark(boot.store, series));
            && StrictlyNewer(staged) && |held| <= 1
            && |due| - |held| <= |staged| <= |due|
            && (forall i :: 0 <= i < |staged| ==> Completes(staged[i], due[i], due[i].openTime in f.partials))
            && (held != [] ==> f.closed != [] &&
                               Completes(held[0].candle, Last(f.closed), Last(f.closed).openTime in f.partials))
  {
    hide Kept, RunEvents, ClosedSince;
    EveryRunKeeps(cfg, boot, events, series);
    KeptMeansStaged(RunEvents(cfg, boot, events), series);
  }

  lemma KeptMeansStaged(w: World, series: Series)
    requires Kept(w, series)
    ensures var (f, staged, held) := (w.feeds[series], CandlesOf(w.log.staged, series), RetainedOf(w.retained, series));
            var due := ClosedSince(f, Mark(w.log.start, series));
            && StrictlyNewer(staged) && |held| <= 1
            && |due| - |held| <= |staged| <= |due|
            && (forall i :: 0 <= i < |staged| ==> Completes(staged[i], due[i], due[i].openTime in f.partials))
            && (held != [] ==> f.closed != [] &&
                               Completes(held[0].candle, Last(f.closed), Last(f.closed).openTime in f.partials))
  {
    var t := TrackOf(w, series, []);
    NoCandles(series);
    StagedKeepsTimes(t);
    if t.feed.closed != [] {
      NewestIsDue(t);
    }
    hide Completes, CandlesOf, RetainedOf, Above;
  }

  lemma StagedKeepsTimes(t: Track)
    requires Good(t)
    ensures StrictlyNewer(t.staged)
  {
    AboveMembers(t.feed.closed, t.floor);
    forall i | 0 <= i < |t.staged| ensures t.staged[i].openTime == Due(t)[i].openTime {
      CompletedKeepsTime(t.staged[i], Due(t)[i], Due(t)[i].openTime in t.feed.partials);
    }
    hide Completes, Above;
  }

  lemma {:induction false} PartialOfMembers(candles: seq<Candle>, partials: set<nat>)
    requires StrictlyNewer(candles)
    ensures StrictlyNewer(PartialOf(candles, partials))
    ensures forall c :: c in PartialOf(candles, partials) <==> c in candles && c.openTime in partials
  {
    if candles != [] {
      assert candles == Front(candles) + [Last(candles)];
      PartialOfMembers(Front(candles), partials);
      forall c | c in PartialOf(Front(candles), partials) ensures c.openTime < Last(candles).openTime {
        assert c in Front(candles);
      }
    }
  }

  /** Each partial bar is handed to the repairer once, in order and as it was built, before it is
      staged; no whole bar ever is. */
  lemma EachPartialBarIsRepairedOnce(cfg: Config, boot: Boot, events: seq<Event>, series: Series)
    requires Distinct(cfg.series) && series in cfg.series && TickFed(events, series)
    ensures var w := RunEvents(cfg, boot, events);
            var (f, staged, repaired) := (w.feeds[series], CandlesOf(w.log.staged, series), CandlesOf(w.log.repaired, series));
            var due := ClosedSince(f, Mark(boot.store, series));
            && StrictlyNewer(repaired)
            && (forall c :: c in repaired ==> c in f.closed && c.openTime in f.partials)
            && |staged| <= |due|
            && (forall i :: 0 <= i < |staged| ==> (due[i].openTime in f.partials <==> due[i] in repaired))
  {
    hide Kept, RunEvents;
    EveryRunKeeps(cfg, boot, events, series);
    KeptMeansRepaired(RunEvents(cfg, boot, events), series);
  }

  lemma KeptMeansRepaired(w: World, series: Series)
    requires Kept(w, series)
    ensures var (f, staged, repaired) := (w.feeds[series], CandlesOf(w.log.staged, series), CandlesOf(w.log.repaired, series));
            var due := ClosedSince(f, Mark(w.log.start, series));
            && StrictlyNewer(repaired)
            && (forall c :: c in repaired ==> c in f.closed && c.openTime in f.partials)
            && |staged| <= |due|
            && (forall i :: 0 <= i < |staged| ==> (due[i].openTime in f.partials <==> due[i] in repaired))
  {
    var t := TrackOf(w, series, []);
    NoCandles(series);
    var n := |t.feed.closed| - Unrepaired(t);
    PartialOfMembers(t.feed.closed[..n], t.feed.partials);
    AboveMembers(t.feed.closed, t.floor);
    StagedAreRepaired(t);
    hide CandlesOf, RetainedOf, Completes, Above;
    assert forall i :: 0 <= i < |t.staged| ==> Due(t)[i] in Due(t);
  }

  /** A bar that has been staged is not the one still to be repaired. */
  lemma StagedAreRepaired(t: Track)
    requires Good(t)
    ensures forall i :: 0 <= i < |t.staged| ==> Due(t)[i] in t.feed.closed[..|t.feed.closed| - Unrepaired(t)]
  {
    hide Sound, StrictlyNewer, Completes, PartialOf, Above;
    GoodIsOrdered(t);
    if t.feed.closed != [] {
      DueInTwo(t.feed.closed, t.floor);
    }
    AboveMembers(t.feed.closed, t.floor);
    assert t.feed.closed[..|t.feed.closed|] == t.feed.closed;
  }

  lemma GoodIsOrdered(t: Track)
    requires Good(t)
    ensures StrictlyNewer(t.feed.closed)
    ensures Unrepaired(t) == 0 || (t.feed.closed != [] && |t.staged| == DueBefore(t))
  {
    hide Completes, Above;
  }

  /** The bars due before the newest one closed come first. */
  lemma DueInTwo(closed: seq<Candle>, floor: Option<nat>)
    requires StrictlyNewer(closed) && closed != []
    ensures |Above(Front(closed), floor)| <= |Above(closed, floor)|
    ensures forall i :: 0 <= i < |Above(Front(closed), floor)| ==> Above(closed, floor)[i] in closed[..|closed| - 1]
  {
    var before := Front(closed);
    assert closed == before + [Last(closed)];
    AboveOfOneMore(before, Last(closed), floor);
    AboveMembers(before, floor);
    hide Above, StrictlyNewer;
    forall i | 0 <= i < |Above(before, floor)| ensures Above(closed, floor)[i] in closed[..|closed| - 1] {
      assert Above(closed, floor)[i] == Above(before, floor)[i];
      assert Above(before, floor)[i] in before;
    }
  }

  // ------------------------------------------------------------ every series, vendor-fed or not

  /** What was in the outbox at the start or was staged since is acknowledged or in the outbox, in order;
      nothing unpublished was acknowledged. */
  ghost predicate Books(w: World) {
    && w.log.start.outbox + w.log.staged == w.log.acked + w.store.outbox
    && (forall c :: c in w.log.acked ==> c in w.log.published)
  }

  /** Every bar staged was newer than the one before and than the watermark at the start, and the
      watermark has reached them all. */
  ghost predicate Forward(w: World, series: Series) {
    var staged := CandlesOf(w.log.staged, series);
    && (staged != [] ==> AtLeast(Mark(w.store, series), Some(Last(staged).openTime)))
    && AtLeast(Mark(w.store, series), Mark(w.log.start, series))
    && StrictlyNewer(staged)
    && (forall c :: c in staged ==> IsAbove(c.openTime, Mark(w.log.start, series)))
  }

  ghost predicate Straight(w: World, series: Series) {
    Books(w) && Forward(w, series)
  }

  lemma StageKeepsBooks(w: World, c: Candle, limit: nat)
    requires Books(w)
    ensures Books(Stage(w, c, limit).w)
  {
    var (start, staged, acked, outbox) := (w.log.start.outbox, w.log.staged, w.log.acked, w.store.outbox);
    assert start + (staged + [c]) == (start + staged) + [c];
    assert acked + (outbox + [c]) == (acked + outbox) + [c];
  }

  /** What one staging adds to a series, acknowledged or not. */
  lemma OneStaging(w: World, c: Candle, limit: nat, series: Series)
    ensures var (v, staged) := (Stage(w, c, limit).w, CandlesOf(w.log.staged, series));
            && v.log.start == w.log.start
            && if SeriesOf(c) == series && !IsDuplicate(w.store, c) && NextOutcome(w) != Failed
               then CandlesOf(v.log.staged, series) == staged + [c] && Mark(v.store, series) == Some(c.openTime)
                    && IsAbove(c.openTime, Mark(w.store, series))
               else CandlesOf(v.log.staged, series) == staged && Mark(v.store, series) == Mark(w.store, series)
  {
    CandlesOfAppends(w.log.staged, [c], series);
    OneCandle(c, series);
    hide CandlesOf;
    assert CandlesOf(w.log.staged, series) + [] == CandlesOf(w.log.staged, series);
  }

  lemma NewerStays(staged: seq<Candle>, c: Candle)
    requires StrictlyNewer(staged) && (staged != [] ==> Last(staged).openTime < c.openTime)
    ensures StrictlyNewer(staged + [c])
  {
    assert forall i :: 0 <= i < |staged| ==> staged[i].openTime <= Last(staged).openTime;
  }

  lemma StageKeepsForward(w: World, c: Candle, limit: nat, series: Series)
    requires Forward(w, series)
    ensures Forward(Stage(w, c, limit).w, series)
  {
    hide CandlesOf, Stage, StrictlyNewer, Mark, IsDuplicate;
    OneStaging(w, c, limit, series);
    var staged := CandlesOf(w.log.staged, series);
    if CandlesOf(Stage(w, c, limit).w.log.staged, series) != staged {
      NewerStays(staged, c);
      assert Last(staged + [c]) == c;
    }
  }

  lemma StageStaysStraight(w: World, c: Candle, limit: nat, series: Series)
    requires Straight(w, series)
    ensures Straight(Stage(w, c, limit).w, series)
  {
    hide Books, Forward, Stage;
    StageKeepsBooks(w, c, limit);
    StageKeepsForward(w, c, limit, series);
  }

  lemma {:induction false} StageWholeStaysStraight(w: World, i: nat, limit: nat, series: Series)
    requires Straight(w, series) && i <= |w.retained|
    ensures Straight(StageWhole(w, i, limit).w, series)
    decreases |w.retained| - i
  {
    hide Stage, Books, Forward;
    if i < |w.retained| {
      if w.retained[i].partial {
        StageWholeStaysStraight(w, i + 1, limit, series);
      } else {
        StageStaysStraight(w, w.retained[i].candle, limit, series);
        var step := Stage(w, w.retained[i].candle, limit);
        if step.ok {
          var next := step.w.(retained := Without(w.retained, i));
          RetainedIsNoMatter(step.w, next, series);
          StageWholeStaysStraight(next, i, limit, series);
        }
      }
    }
  }

  /** What is retained, heard or still to come is no matter to the books. */
  lemma RetainedIsNoMatter(w: World, v: World, series: Series)
    requires Straight(w, series) && v.store == w.store
    requires v.log == w.log.(repaired := v.log.repaired, accepted := v.log.accepted, overtaken := v.log.overtaken)
    ensures Straight(v, series)
  {
    hide CandlesOf;
  }

  /** Nor is a watermark that rises. */
  lemma RisingMarkIsNoMatter(w: World, v: World, series: Series)
    requires Straight(w, series) && v.store.outbox == w.store.outbox
    requires v.log == w.log.(swallowed := v.log.swallowed, missed := v.log.missed)
    requires AtLeast(Mark(v.store, series), Mark(w.store, series))
    ensures Straight(v, series)
  {
    hide CandlesOf;
  }

  lemma FillingNeverLowersTheMark(w: World, cfg: Config, c: Candle, now: nat, answer: Reply, series: Series)
    ensures var v := FillGapBefore(w, cfg, c, now, answer).w;
            AtLeast(Mark(v.store, series), Mark(w.store, series))
  {
    hide PlanSeries, LeavesAGap, Listens, OnTheWay, UpTo, Newest;
  }

  lemma WritingNeverLowersTheMark(w: World, written: Series, plan: Plan, limit: nat, series: Series)
    requires plan.Write? ==> plan.changed != []
    ensures AtLeast(Mark(WritePlan(w, written, plan, limit).store, series), Mark(w.store, series))
  {
    hide OnTheWay, UpTo, Newest, Tail;
  }

  lemma WritingStaysStraight(w: World, written: Series, plan: Plan, limit: nat, gap: Gap, series: Series)
    requires Straight(w, series) && (plan.Write? ==> plan.changed != [])
    ensures Straight(WritePlan(w, written, plan, limit).(gap := gap), series)
  {
    hide Straight, WritePlan, Mark;
    WritingTouchesItsSeries(w, written, plan, limit);
    WritingNeverLowersTheMark(w, written, plan, limit, series);
    RisingMarkIsNoMatter(w, WritePlan(w, written, plan, limit).(gap := gap), series);
  }

  lemma FillingStaysStraight(w: World, cfg: Config, c: Candle, now: nat, answer: Reply, series: Series)
    requires Straight(w, series)
    ensures Straight(FillGapBefore(w, cfg, c, now, answer).w, series)
  {
    hide Straight, FillGapBefore, Mark;
    FillingTouchesItsSeries(w, cfg, c, now, answer);
    FillingNeverLowersTheMark(w, cfg, c, now, answer, series);
    RisingMarkIsNoMatter(w, FillGapBefore(w, cfg, c, now, answer).w, series);
  }

  lemma PersistingStaysStraight(emitted: Call, cfg: Config, symbol: string, series: Series)
    requires Straight(emitted.w, series)
    ensures Straight(Persisted(emitted, cfg, symbol).w, series)
  {
    hide CandlesOf, Persisted;
    PersistingIsQuiet(emitted, cfg, symbol);
  }

  lemma {:induction false} RepairAllStaysStraight(w: World, limit: nat, series: Series)
    requires Straight(w, series)
    ensures Straight(RepairAll(w, limit).w, series)
    decreases |w.retained|
  {
    hide Stage, Straight;
    if w.retained != [] {
      var repaired := RepairHead(w);
      RetainedIsNoMatter(w, repaired, series);
      StageStaysStraight(repaired, repaired.retained[0].candle, limit, series);
      var step := Stage(repaired, repaired.retained[0].candle, limit);
      if step.ok {
        var next := step.w.(retained := repaired.retained[1..]);
        RetainedIsNoMatter(step.w, next, series);
        RepairAllStaysStraight(next, limit, series);
      }
    }
  }

  lemma PublishStaysStraight(w: World, series: Series)
    requires Straight(w, series) && w.store.outbox != []
    ensures Straight(Publish(w).w, series) && Publish(w).w.store == w.store
    ensures Publish(w).ok ==> w.store.outbox[0] in Publish(w).w.log.published
  {
    hide CandlesOf;
  }

  lemma AckStaysStraight(w: World, series: Series)
    requires Straight(w, series) && w.store.outbox != [] && w.store.outbox[0] in w.log.published
    ensures Straight(Ack(w).w, series)
  {
    hide CandlesOf;
  }

  lemma {:induction false} DrainStaysStraight(w: World, series: Series)
    requires Straight(w, series)
    ensures Straight(Drain(w).w, series)
    decreases |w.store.outbox|
  {
    hide Straight, Publish, Ack;
    var peeked := Spent(w);
    RetainedIsNoMatter(w, peeked, series);
    if NextOutcome(w) == Done && w.store.outbox != [] {
      PublishStaysStraight(peeked, series);
      var published := Publish(peeked);
      if published.ok {
        AckStaysStraight(published.w, series);
        AckPops(published.w);
        var acked := Ack(published.w);
        if acked.ok {
          DrainStaysStraight(acked.w, series);
        }
      }
    }
  }

  lemma AckPops(w: World)
    requires w.store.outbox != []
    ensures Ack(w).ok ==> |Ack(w).w.store.outbox| < |w.store.outbox|
  {
  }

  lemma DrainEmpties(w: World)
    ensures Drain(w).ok ==> Drain(w).w.store.outbox == []
  {
    DrainKeepsTracks(w);
  }

  lemma SendOutStaysStraight(w: World, limit: nat, series: Series)
    requires Straight(w, series)
    ensures Straight(SendOut(w, limit).w, series)
  {
    hide Straight, StageWhole, Drain, RepairAll;
    StageWholeStaysStraight(w, 0, limit, series);
    var whole := StageWhole(w, 0, limit);
    if whole.ok {
      DrainStaysStraight(whole.w, series);
      var drained := Drain(whole.w);
      if drained.ok {
        RepairAllStaysStraight(drained.w, limit, series);
        DrainStaysStraight(RepairAll(drained.w, limit).w, series);
      }
    }
  }

  lemma {:induction false} RetainStaysStraight(w: World, candles: seq<Candle>, current: bool, series: Series)
    requires Straight(w, series)
    ensures Straight(Retain(w, candles, current), series)
    decreases |candles|
  {
    hide Straight;
    if candles != [] {
      RetainedIsNoMatter(w, RetainOne(w, candles[0], current), series);
      RetainStaysStraight(RetainOne(w, candles[0], current), candles[1..], current, series);
    }
  }

  lemma EmitStaysStraight(w: World, candles: seq<Candle>, current: bool, limit: nat, series: Series)
    requires Straight(w, series)
    ensures Straight(Emit(w, candles, current, limit).w, series)
  {
    hide Straight, Retain, SendOut;
    RetainStaysStraight(w, candles, current, series);
    SendOutStaysStraight(Retain(w, candles, current), limit, series);
  }

  lemma HandleStaysStraight(w: World, cfg: Config, event: Event, series: Series)
    requires Configured(w.feeds, cfg.series) && Straight(w, series)
    ensures Straight(Handle(w, cfg, event), series)
  {
    hide Straight, Emit, MovedAll, Advance, Listens, IsFinished, FillGapBefore, HandleTick, Drain, IsNews, WritePlan, PlanSeries, CandlesOf;
    match event
    case TickEvent(tick) => TickStaysStraight(w, cfg, tick, series);
    case FlushEvent(now, current) =>
      EmitStaysStraight(w, [], true, cfg.limit, series);
      var cleared := ClearRetained(w, cfg.limit);
      var m := MovedAll(cleared.w.feeds, cfg.series, None, OnFlush(now));
      MoveStaysStraight(cleared.w, m, current, cfg.limit, series);
    case DrainEvent => DrainStaysStraight(w, series);
    case CheckEvent(c, now, answer) =>
      FillingStaysStraight(w, cfg, c, now, answer, series);
      var filled := FillGapBefore(w, cfg, c, now, answer).w;
      RetainedIsNoMatter(filled, filled.(waiting := filled.waiting + [c]), series);
    case PushEvent =>
      if w.waiting != [] {
        var c := w.waiting[0];
        var taken := w.(waiting := w.waiting[1..],
                        log := if IsNews(w, c) then w.log else w.log.(overtaken := w.log.overtaken + [c]));
        RetainedIsNoMatter(w, taken, series);
        EmitStaysStraight(taken, [c], true, cfg.limit, series);
      }
    case HistoryEvent(written, now, answer) =>
      if written.symbol in cfg.targets {
        var plan := PlanSeries(w.store, written, cfg.targets[written.symbol], None, now, answer, false, false);
        WritingStaysStraight(w, written, plan, cfg.limit, Handle(w, cfg, event).gap, series);
      } else {
        RetainedIsNoMatter(w, Handle(w, cfg, event), series);
      }
    case MergeEvent(written, candles) =>
      var incoming := CandlesOf(candles, written);
      if incoming != [] {
        WritingStaysStraight(w, written, Write(incoming, incoming), cfg.limit, w.gap, series);
      }
    case RestoreEvent(c) => RetainedIsNoMatter(w, Handle(w, cfg, event), series);
    case JoinEvent(moment) => RetainedIsNoMatter(w, Handle(w, cfg, event), series);
  }

  lemma MoveStaysStraight(w: World, m: Closing, current: bool, limit: nat, series: Series)
    requires Straight(w, series)
    ensures Straight(Emitted(w, m, current, limit).w, series)
  {
    hide Straight, Emit;
    RetainedIsNoMatter(w, w.(feeds := m.feeds), series);
    EmitStaysStraight(w.(feeds := m.feeds), m.closed, current, limit, series);
  }

  lemma TickStaysStraight(w: World, cfg: Config, tick: Tick, series: Series)
    requires Configured(w.feeds, cfg.series) && Straight(w, series)
    ensures Straight(HandleTick(w, cfg, tick).w, series)
  {
    hide Straight, Emit, Emitted, MovedAll, Listens, Persisted;
    EmitStaysStraight(w, [], true, cfg.limit, series);
    var cleared := ClearRetained(w, cfg.limit);
    var remembered := Await(cleared.w);
    RetainedIsNoMatter(cleared.w, remembered.w, series);
    var announced := if cfg.publishTicks then Await(remembered.w) else remembered;
    RetainedIsNoMatter(remembered.w, announced.w, series);
    if cleared.ok && tick.Price().Success? {
      var op := OnTick(Quote(tick.ts, tick.Price().value, tick.volume));
      var m := MovedAll(announced.w.feeds, cfg.series, Some(tick.symbol), op);
      MoveStaysStraight(announced.w, m, true, cfg.limit, series);
      PersistingStaysStraight(Emitted(announced.w, m, true, cfg.limit), cfg, tick.symbol, series);
    }
  }

  /** On every run from any store, for every series, whoever feeds it: bars are staged in strictly
      increasing open time, all newer than the watermark at the start; what the outbox held then and all
      that was staged since is, in order, acknowledged or in the outbox; and every acknowledged bar was
      published. */
  lemma {:induction false} TheOutboxLosesNothing(cfg: Config, boot: Boot, events: seq<Event>, series: Series)
    ensures var (w, staged) := (RunEvents(cfg, boot, events), CandlesOf(RunEvents(cfg, boot, events).log.staged, series));
            && StrictlyNewer(staged) && (forall c :: c in staged ==> IsAbove(c.openTime, Mark(boot.store, series)))
            && boot.store.outbox + w.log.staged == w.log.acked + w.store.outbox
            && (forall c :: c in w.log.acked ==> c in w.log.published)
            && Straight(w, series)
  {
    hide Straight, Handle;
    if events == [] {
      StartIsStraight(cfg, boot, series);
    } else {
      TheOutboxLosesNothing(cfg, boot, Front(events), series);
      HandleStaysStraight(RunEvents(cfg, boot, Front(events)), cfg, Last(events), series);
    }
    StraightMeans(RunEvents(cfg, boot, events), series);
  }

  lemma StartIsStraight(cfg: Config, boot: Boot, series: Series)
    ensures Straight(Started(cfg, boot), series)
  {
  }

  lemma StraightMeans(w: World, series: Series)
    requires Straight(w, series)
    ensures && StrictlyNewer(CandlesOf(w.log.staged, series))
            && (forall c :: c in CandlesOf(w.log.staged, series) ==> IsAbove(c.openTime, Mark(w.log.start, series)))
            && w.log.start.outbox + w.log.staged == w.log.acked + w.store.outbox
            && (forall c :: c in w.log.acked ==> c in w.log.published)
  {
  }

  // ------------------------------------------------------------ nothing new while something is held

  lemma {:induction false} RetainingClosesNothing(w: World, candles: seq<Candle>, current: bool, series: Series)
    requires series in w.feeds
    ensures Retain(w, candles, current).feeds[series].closed == w.feeds[series].closed
    decreases |candles|
  {
    if candles != [] {
      RetainingClosesNothing(RetainOne(w, candles[0], current), candles[1..], current, series);
    }
  }

  lemma EmittingClosesNothing(w: World, candles: seq<Candle>, current: bool, limit: nat, series: Series)
    requires series in w.feeds
    ensures Emit(w, candles, current, limit).w.feeds[series].closed == w.feeds[series].closed
  {
    hide Retain, SendOut;
    RetainingClosesNothing(w, candles, current, series);
  }

  /** A tick or a flush that finds bars retained closes nothing until they have all gone out. */
  lemma NothingIsRetiredWhileBarsAreHeld(w: World, cfg: Config, event: Event, series: Series)
    requires Configured(w.feeds, cfg.series) && series in w.feeds
    requires event.TickEvent? || event.FlushEvent?
    requires Handle(w, cfg, event).feeds[series].closed != w.feeds[series].closed
    ensures w.retained == [] || (var cleared := Emit(w, [], true, cfg.limit);
                                 cleared.ok && cleared.w.retained == [] && cleared.w.store.outbox == [])
  {
    hide Emit, MovedAll, Emitted, Listens;
    if w.retained != [] {
      EmittingClosesNothing(w, [], true, cfg.limit, series);
      assert Emit(w, [], true, cfg.limit).ok;
      EmitToTheEnd(w, [], true, cfg.limit);
    }
  }

  /** A batch that is emitted without an exception leaves nothing behind, retained or staged. */
  lemma EmitToTheEnd(w: World, candles: seq<Candle>, current: bool, limit: nat)
    ensures var call := Emit(w, candles, current, limit);
            call.ok ==> call.w.retained == [] && call.w.store.outbox == []
  {
    hide Retain, StageWhole, Drain, RepairAll;
    var whole := StageWhole(Retain(w, candles, current), 0, limit);
    DrainEmpties(whole.w);
    var drained := Drain(whole.w);
    NothingToRepair(drained.w, limit);
    RepairEmpties(drained.w, limit);
    DrainEmpties(RepairAll(drained.w, limit).w);
  }

  lemma {:induction false} RepairEmpties(w: World, limit: nat)
    ensures RepairAll(w, limit).ok ==> RepairAll(w, limit).w.retained == []
    decreases |w.retained|
  {
    hide Stage;
    if w.retained != [] {
      var repaired := RepairHead(w);
      var step := Stage(repaired, repaired.retained[0].candle, limit);
      if step.ok {
        RepairEmpties(step.w.(retained := repaired.retained[1..]), limit);
      }
    }
  }
}
