/** Over every run, the stored windows stay what the gap check takes them for: sorted, and ending at the
    staging watermark. */
module EmissionWindows {
  import opened Prelude
  import opened Timeframes
  import opened MarketData
  import opened ResamplerModel
  import opened ResamplerRuns
  import opened CandleStore
  import opened CandleMerge
  import opened Backfill
  import opened Emission
  import opened EmissionLaws
  import opened EmissionRuns

  lemma SameWindow(s: Store, t: Store, series: Series)
    requires WindowKept(s, series) && t.history == s.history && t.staged == s.staged
    ensures WindowKept(t, series)
  {
    hide StrictlyNewer;
  }

  lemma StageKeepsWindow(w: World, c: Candle, limit: nat, series: Series)
    requires WindowKept(w.store, series) && limit > 0
    ensures WindowKept(Stage(w, c, limit).w.store, series)
  {
    hide WindowKept, Staged;
    StagingKeepsWindow(w.store, c, limit, series);
  }

  lemma {:induction false} StageWholeKeepsWindow(w: World, i: nat, limit: nat, series: Series)
    requires WindowKept(w.store, series) && limit > 0 && i <= |w.retained|
    ensures WindowKept(StageWhole(w, i, limit).w.store, series)
    decreases |w.retained| - i
  {
    hide Stage, WindowKept;
    if i < |w.retained| {
      if w.retained[i].partial {
        StageWholeKeepsWindow(w, i + 1, limit, series);
      } else {
        StageKeepsWindow(w, w.retained[i].candle, limit, series);
        var step := Stage(w, w.retained[i].candle, limit);
        if step.ok {
          StageWholeKeepsWindow(step.w.(retained := Without(w.retained, i)), i, limit, series);
        }
      }
    }
  }

  lemma {:induction false} RepairAllKeepsWindow(w: World, limit: nat, series: Series)
    requires WindowKept(w.store, series) && limit > 0
    ensures WindowKept(RepairAll(w, limit).w.store, series)
    decreases |w.retained|
  {
    hide Stage, WindowKept;
    if w.retained != [] {
      var repaired := RepairHead(w);
      StageKeepsWindow(repaired, repaired.retained[0].candle, limit, series);
      var step := Stage(repaired, repaired.retained[0].candle, limit);
      if step.ok {
        RepairAllKeepsWindow(step.w.(retained := repaired.retained[1..]), limit, series);
      }
    }
  }

  lemma DrainKeepsWindow(w: World, series: Series)
    requires WindowKept(w.store, series)
    ensures WindowKept(Drain(w).w.store, series)
  {
    hide WindowKept, Drain;
    DrainKeepsTracks(w);
    SameWindow(w.store, Drain(w).w.store, series);
  }

  lemma {:induction false} RetainKeepsStore(w: World, candles: seq<Candle>, current: bool)
    ensures Retain(w, candles, current).store == w.store
    decreases |candles|
  {
    if candles != [] {
      RetainKeepsStore(RetainOne(w, candles[0], current), candles[1..], current);
    }
  }

  lemma EmitKeepsWindow(w: World, candles: seq<Candle>, current: bool, limit: nat, series: Series)
    requires WindowKept(w.store, series) && limit > 0
    ensures WindowKept(Emit(w, candles, current, limit).w.store, series)
  {
    hide WindowKept, Retain, StageWhole, Drain, RepairAll;
    RetainKeepsStore(w, candles, current);
    var retained := Retain(w, candles, current);
    StageWholeKeepsWindow(retained, 0, limit, series);
    var whole := StageWhole(retained, 0, limit);
    DrainKeepsWindow(whole.w, series);
    RepairAllKeepsWindow(Drain(whole.w).w, limit, series);
    DrainKeepsWindow(RepairAll(Drain(whole.w).w, limit).w, series);
  }

  /** What a gap check does to its window and mark: nothing, or a merge that ends before the close. */
  lemma FillingWrites(w: World, cfg: Config, c: Candle, now: nat, answer: Reply)
    requires WindowKept(w.store, SeriesOf(c)) && cfg.limit > 0
    ensures var (v, s) := (FillGapBefore(w, cfg, c, now, answer).w, SeriesOf(c));
            && WindowKept(v.store, s)
            && (Mark(v.store, s) == Mark(w.store, s) || (Mark(v.store, s).Some? && Mark(v.store, s).value < c.openTime))
  {
    hide WindowKept, LeavesAGap, Listens, NeedsNothing, PlanAnswer, Written, Newest, OnTheWay, UpTo;
    if answer.Answer? {
      var fetched := Usable(SeriesOf(c), answer.rows, now, Some(c.openTime));
      if PlanAnswer(w.store, SeriesOf(c), fetched, false).Write? {
        AnswerKeepsWindow(w.store, SeriesOf(c), fetched, cfg.limit, c.openTime);
      }
    }
  }

  lemma FillingKeepsWindow(w: World, cfg: Config, c: Candle, now: nat, answer: Reply, series: Series)
    requires WindowKept(w.store, series) && cfg.limit > 0
    ensures WindowKept(FillGapBefore(w, cfg, c, now, answer).w.store, series)
  {
    hide FillGapBefore, StrictlyNewer;
    FillingTouchesItsSeries(w, cfg, c, now, answer);
    if SeriesOf(c) == series {
      FillingWrites(w, cfg, c, now, answer);
    }
  }

  /** What an answer changes in a sorted window is the series' own. */
  lemma PlanIsOwn(s: Store, series: Series, target: nat, before: Option<nat>, now: nat, answer: Reply)
    requires WindowKept(s, series)
    ensures var plan := PlanSeries(s, series, target, before, now, answer, false, false);
            plan.Write? ==> forall c :: c in plan.changed ==> SeriesOf(c) == series
  {
    hide NeedsNothing, StrictlyNewer, Merge, Changed;
    if answer.Answer? {
      ChangedComesFromTheVendor(Window(s, series), Usable(series, answer.rows, now, before));
    }
  }

  lemma WritingKeepsWindow(w: World, written: Series, plan: Plan, limit: nat, series: Series)
    requires WindowKept(w.store, series) && limit > 0
    requires plan.Write? ==> plan.changed != [] && (written == series ==> forall c :: c in plan.changed ==> SeriesOf(c) == series)
    ensures WindowKept(WritePlan(w, written, plan, limit).store, series)
  {
    hide WindowKept, MergedIn, OnTheWay, UpTo, Newest;
    if plan.Write? {
      if written == series {
        MergingInKeepsWindow(w.store, series, plan.changed, limit);
      } else {
        WritingElsewhereKeepsWindow(w, written, plan, limit, series);
      }
    }
  }

  lemma WritingElsewhereKeepsWindow(w: World, written: Series, plan: Plan, limit: nat, series: Series)
    requires WindowKept(w.store, series) && written != series && plan.Write? && plan.changed != []
    ensures WindowKept(WritePlan(w, written, plan, limit).store, series)
  {
    hide WritePlan, StrictlyNewer;
    WritingTouchesItsSeries(w, written, plan, limit);
  }

  lemma TickKeepsWindow(w: World, cfg: Config, tick: Tick, series: Series)
    requires Configured(w.feeds, cfg.series) && WindowKept(w.store, series) && cfg.limit > 0
    ensures WindowKept(HandleTick(w, cfg, tick).w.store, series)
  {
    hide WindowKept, Emit, MovedAll, Listens, Persisted;
    EmitKeepsWindow(w, [], true, cfg.limit, series);
    var cleared := ClearRetained(w, cfg.limit);
    var remembered := Await(cleared.w);
    var announced := if cfg.publishTicks then Await(remembered.w) else remembered;
    if cleared.ok && tick.Price().Success? {
      var m := MovedAll(announced.w.feeds, cfg.series, Some(tick.symbol), OnTick(Quote(tick.ts, tick.Price().value, tick.volume)));
      EmitKeepsWindow(announced.w.(feeds := m.feeds), m.closed, true, cfg.limit, series);
      var emitted := Emitted(announced.w, m, true, cfg.limit);
      PersistingIsQuiet(emitted, cfg, tick.symbol);
      SameWindow(emitted.w.store, Persisted(emitted, cfg, tick.symbol).w.store, series);
    }
  }

  lemma HandleKeepsWindow(w: World, cfg: Config, event: Event, series: Series)
    requires Configured(w.feeds, cfg.series) && cfg.limit > 0 && WindowKept(w.store, series)
    ensures WindowKept(Handle(w, cfg, event).store, series)
  {
    hide WindowKept, Emit, MovedAll, HandleTick, FillGapBefore, IsFinished, Advance, Drain, IsNews, WritePlan, PlanSeries, CandlesOf;
    match event
    case TickEvent(tick) => TickKeepsWindow(w, cfg, tick, series);
    case FlushEvent(now, current) =>
      EmitKeepsWindow(w, [], true, cfg.limit, series);
      var cleared := ClearRetained(w, cfg.limit);
      var m := MovedAll(cleared.w.feeds, cfg.series, None, OnFlush(now));
      EmitKeepsWindow(cleared.w.(feeds := m.feeds), m.closed, current, cfg.limit, series);
    case DrainEvent => DrainKeepsWindow(w, series);
    case CheckEvent(c, now, answer) => FillingKeepsWindow(w, cfg, c, now, answer, series);
    case PushEvent =>
      if w.waiting != [] {
        var c := w.waiting[0];
        EmitKeepsWindow(w.(waiting := w.waiting[1..],
                           log := if IsNews(w, c) then w.log else w.log.(overtaken := w.log.overtaken + [c])),
                        [c], true, cfg.limit, series);
      }
    case HistoryEvent(written, now, answer) =>
      if written.symbol in cfg.targets {
        if written == series {
          PlanIsOwn(w.store, series, cfg.targets[written.symbol], None, now, answer);
        }
        WritingKeepsWindow(w, written, PlanSeries(w.store, written, cfg.targets[written.symbol], None, now, answer, false, false),
                           cfg.limit, series);
      }
    case MergeEvent(written, candles) =>
      AreOwn(candles, written);
      var incoming := CandlesOf(candles, written);
      if incoming != [] {
        WritingKeepsWindow(w, written, Write(incoming, incoming), cfg.limit, series);
      }
    case RestoreEvent(c) =>
    case JoinEvent(moment) =>
  }

  lemma {:induction false} AreOwn(candles: seq<Candle>, series: Series)
    ensures forall c :: c in CandlesOf(candles, series) ==> SeriesOf(c) == series
  {
    if candles != [] {
      AreOwn(Front(candles), series);
    }
  }

  /** From any store whose window of the series is kept, an empty one included, over any run: the window is
      sorted, its own, and ends at its watermark. */
  lemma {:induction false} EveryRunKeepsWindows(cfg: Config, boot: Boot, events: seq<Event>, series: Series)
    requires cfg.limit > 0 && WindowKept(boot.store, series)
    ensures WindowKept(RunEvents(cfg, boot, events).store, series)
  {
    hide WindowKept, Handle;
    if events != [] {
      EveryRunKeepsWindows(cfg, boot, Front(events), series);
      HandleKeepsWindow(RunEvents(cfg, boot, Front(events)), cfg, Last(events), series);
    }
  }

  lemma EmptyWindow(series: Series)
    ensures WindowKept(EMPTY_STORE, series)
  {
  }
}
