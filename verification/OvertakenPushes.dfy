/** What can overtake a pushed bar before its turn: only bars written behind the live path of its series,
    by the history loop, by another merge, or by the gap check of a later bar. */
module OvertakenPushes {
  import opened Prelude
  import opened Timeframes
  import opened MarketData
  import opened ResamplerModel
  import opened ResamplerRuns
  import opened CandleStore
  import opened Backfill
  import opened Emission
  import opened EmissionLaws
  import opened EmissionRuns
  import opened EmissionWindows
  import opened PushedBars
  import opened EmissionPushes
  import opened EmissionReach
  import opened RisingPushes

  /** The first moment beyond a level. */
  function Beyond(level: Option<nat>): nat {
    if level.Some? then level.value + 1 else 0
  }

  /** The first moment beyond every bar the store had at the start and every bar that has been written
      behind the live path since. */
  function Reached(cfg: Config, boot: Boot, events: seq<Event>, series: Series): nat {
    if events == [] then Beyond(Mark(boot.store, series))
    else Later(Reached(cfg, boot, Front(events), series), Beyond(Reaches(RunEvents(cfg, boot, Front(events)), cfg, Last(events), series)))
  }

  // ------------------------------------------------------------ the watermark never moves back

  lemma StagingNeverLowers(w: World, c: Candle, limit: nat, series: Series)
    ensures AtLeast(Mark(Stage(w, c, limit).w.store, series), Mark(w.store, series))
  {
    hide Tail;
  }

  lemma {:induction false} StagingAllNeverLowers(w: World, i: nat, limit: nat, series: Series)
    requires i <= |w.retained|
    ensures AtLeast(Mark(StageWhole(w, i, limit).w.store, series), Mark(w.store, series))
    decreases |w.retained| - i
  {
    hide Stage, Mark;
    if i < |w.retained| {
      if w.retained[i].partial {
        StagingAllNeverLowers(w, i + 1, limit, series);
      } else {
        var step := Stage(w, w.retained[i].candle, limit);
        StagingNeverLowers(w, w.retained[i].candle, limit, series);
        if step.ok {
          StagingAllNeverLowers(step.w.(retained := Without(w.retained, i)), i, limit, series);
        }
      }
    }
  }

  lemma {:induction false} RepairingNeverLowers(w: World, limit: nat, series: Series)
    ensures AtLeast(Mark(RepairAll(w, limit).w.store, series), Mark(w.store, series))
    decreases |w.retained|
  {
    hide Stage, Mark;
    if w.retained != [] {
      var repaired := RepairHead(w);
      var step := Stage(repaired, repaired.retained[0].candle, limit);
      StagingNeverLowers(repaired, repaired.retained[0].candle, limit, series);
      if step.ok {
        RepairingNeverLowers(step.w.(retained := repaired.retained[1..]), limit, series);
      }
    }
  }

  lemma SendingOutNeverLowers(w: World, limit: nat, series: Series)
    ensures AtLeast(Mark(SendOut(w, limit).w.store, series), Mark(w.store, series))
  {
    hide StageWhole, Drain, RepairAll;
    StagingAllNeverLowers(w, 0, limit, series);
    var whole := StageWhole(w, 0, limit);
    DrainKeepsTracks(whole.w);
    var drained := Drain(whole.w);
    RepairingNeverLowers(drained.w, limit, series);
    DrainKeepsTracks(RepairAll(drained.w, limit).w);
  }

  lemma EmittingNeverLowers(w: World, candles: seq<Candle>, current: bool, limit: nat, series: Series)
    ensures AtLeast(Mark(Emit(w, candles, current, limit).w.store, series), Mark(w.store, series))
  {
    hide Retain, SendOut, Mark;
    RetainKeepsStore(w, candles, current);
    SendingOutNeverLowers(Retain(w, candles, current), limit, series);
  }

  lemma TickNeverLowers(w: World, cfg: Config, tick: Tick, series: Series)
    requires Configured(w.feeds, cfg.series)
    ensures AtLeast(Mark(HandleTick(w, cfg, tick).w.store, series), Mark(w.store, series))
  {
    hide Emit, MovedAll, Listens, Persisted;
    EmittingNeverLowers(w, [], true, cfg.limit, series);
    var cleared := ClearRetained(w, cfg.limit);
    var remembered := Await(cleared.w);
    var announced := if cfg.publishTicks then Await(remembered.w) else remembered;
    if cleared.ok && tick.Price().Success? {
      var m := MovedAll(announced.w.feeds, cfg.series, Some(tick.symbol), OnTick(Quote(tick.ts, tick.Price().value, tick.volume)));
      EmittingNeverLowers(announced.w.(feeds := m.feeds), m.closed, true, cfg.limit, series);
      PersistingIsQuiet(Emitted(announced.w, m, true, cfg.limit), cfg, tick.symbol);
    }
  }

  lemma FlushNeverLowers(w: World, cfg: Config, now: nat, current: bool, series: Series)
    requires Configured(w.feeds, cfg.series)
    ensures AtLeast(Mark(HandleFlush(w, cfg, now, current).w.store, series), Mark(w.store, series))
  {
    hide Emit, MovedAll, Mark;
    EmittingNeverLowers(w, [], true, cfg.limit, series);
    var cleared := ClearRetained(w, cfg.limit);
    var m := MovedAll(cleared.w.feeds, cfg.series, None, OnFlush(now));
    EmittingNeverLowers(cleared.w.(feeds := m.feeds), m.closed, current, cfg.limit, series);
  }

  lemma HistoryNeverLowers(w: World, cfg: Config, e: Event, series: Series)
    requires Configured(w.feeds, cfg.series) && (e.HistoryEvent? || e.MergeEvent?)
    ensures AtLeast(Mark(Handle(w, cfg, e).store, series), Mark(w.store, series))
  {
    hide WritePlan, PlanSeries, CandlesOf, Mark;
    match e
    case HistoryEvent(asked, now, answer) =>
      if asked.symbol in cfg.targets {
        WritingNeverLowersTheMark(w, asked, HistoryPlan(w, cfg, asked, now, answer), cfg.limit, series);
      }
    case MergeEvent(merged, candles) =>
      if CandlesOf(candles, merged) != [] {
        WritingNeverLowersTheMark(w, merged, Write(CandlesOf(candles, merged), CandlesOf(candles, merged)), cfg.limit, series);
      }
    case _ =>
  }

  lemma AnEventNeverLowers(w: World, cfg: Config, e: Event, series: Series)
    requires Configured(w.feeds, cfg.series)
    ensures AtLeast(Mark(Handle(w, cfg, e).store, series), Mark(w.store, series))
  {
    hide HandleTick, HandleFlush, Drain, FillGapBefore, Emit, AskHistory, MergeBehind, MovedAll, Advance, IsNews, IsFinished;
    match e
    case TickEvent(tick) => TickNeverLowers(w, cfg, tick, series);
    case FlushEvent(now, current) => FlushNeverLowers(w, cfg, now, current, series);
    case DrainEvent => DrainKeepsTracks(w);
    case CheckEvent(c, now, answer) => FillingNeverLowersTheMark(w, cfg, c, now, answer, series);
    case PushEvent =>
      if w.waiting != [] {
        EmittingNeverLowers(Taken(w), [w.waiting[0]], true, cfg.limit, series);
      }
    case HistoryEvent(asked, now, answer) => HistoryNeverLowers(w, cfg, e, series);
    case MergeEvent(merged, candles) => HistoryNeverLowers(w, cfg, e, series);
    case RestoreEvent(c) =>
    case JoinEvent(moment) =>
  }

  // ------------------------------------------------------------ a write moves the watermark that far

  lemma WritingReaches(w: World, series: Series, plan: Plan, limit: nat)
    requires plan.Write? && plan.changed != [] && NextOutcome(w) != Failed
    ensures AtLeast(Mark(WritePlan(w, series, plan, limit).store, series), Some(Newest(plan.changed)))
  {
    hide OnTheWay, UpTo, Newest, Tail;
  }

  lemma AnEventReaches(w: World, cfg: Config, e: Event, series: Series)
    requires Configured(w.feeds, cfg.series)
    ensures AtLeast(Mark(Handle(w, cfg, e).store, series), Reaches(w, cfg, e, series))
  {
    hide HandleTick, HandleFlush, Drain, FillGapBefore, TakePush, WritePlan, PlanSeries, MovedAll, Advance, IsFinished, Asks, Newest, CandlesOf, Mark;
    match e
    case CheckEvent(c, now, answer) =>
      if Reaches(w, cfg, e, series).Some? {
        FillingIs(w, cfg, c, now, answer);
        AsksItsTarget(w, cfg, c, now);
        WritingReaches(AskedFor(w, c, now), series, PlanFor(w, cfg, c, now, answer), cfg.limit);
      }
    case HistoryEvent(asked, now, answer) =>
      if Reaches(w, cfg, e, series).Some? {
        WritingReaches(w, series, HistoryPlan(w, cfg, series, now, answer), cfg.limit);
      }
    case MergeEvent(merged, candles) =>
      if Reaches(w, cfg, e, series).Some? {
        WritingReaches(w, series, Write(CandlesOf(candles, series), CandlesOf(candles, series)), cfg.limit);
      }
    case _ =>
  }

  lemma {:induction false} TheMarkHasReached(cfg: Config, boot: Boot, events: seq<Event>, series: Series)
    ensures Beyond(Mark(RunEvents(cfg, boot, events).store, series)) >= Reached(cfg, boot, events, series)
  {
    hide Handle, Mark, Reaches;
    if events != [] {
      TheMarkHasReached(cfg, boot, Front(events), series);
      AnEventNeverLowers(RunEvents(cfg, boot, Front(events)), cfg, Last(events), series);
      AnEventReaches(RunEvents(cfg, boot, Front(events)), cfg, Last(events), series);
    }
  }

  // ------------------------------------------------------------ nothing else stands in the way

  function BeyondLast(candles: seq<Candle>): nat {
    if candles == [] then 0 else Last(candles).openTime + 1
  }

  /** Everything the series has is below this. */
  function Ceiling(cfg: Config, boot: Boot, events: seq<Event>, series: Series): nat {
    Later(Reached(cfg, boot, events, series), BeyondLast(Handed(cfg, boot, events, series)))
  }

  lemma WiderIsCertain(w: World, series: Series, bound: nat, wider: nat)
    requires Certain(w, series, Some(bound)) && bound <= wider
    ensures Certain(w, series, Some(wider))
  {
    hide Sure, AllLabelled;
    WiderBoundIsSure(WayOf(w, series), Some(bound), Some(wider));
  }

  /** The ceiling rises with what an event writes and hands over. */
  lemma CeilingRises(cfg: Config, boot: Boot, events: seq<Event>, series: Series)
    requires Distinct(cfg.series) && series in cfg.series && BarFed(events, series) && events != []
    requires StrictlyNewer(Pushed(events, series))
    ensures var w := RunEvents(cfg, boot, Front(events));
            && Ceiling(cfg, boot, Front(events), series) <= Ceiling(cfg, boot, events, series)
            && IsWithin(Reaches(w, cfg, Last(events), series), Some(Ceiling(cfg, boot, events, series)))
            && (Last(events).PushEvent? && IsNext(w, series) ==>
                  IsWithin(Some(w.waiting[0].openTime), Some(Ceiling(cfg, boot, events, series))))
  {
    hide Handle, RunEvents, StrictlyNewer, Distinct, AddsUp, Reaches, PushedBy, SparesSeries;
    var (w, handed) := (RunEvents(cfg, boot, Front(events)), Handed(cfg, boot, Front(events), series));
    if Last(events).PushEvent? && IsNext(w, series) {
      LastSpares(events, series);
      RisingBefore(Pushed(Front(events), series), PushedBy(Last(events), series));
      RunAddsUp(cfg, boot, Front(events), series);
      FirstPending(w.waiting, series);
      HeadIsBetween(TaleOf(cfg, boot, Front(events), series));
      if handed != [] {
        assert Last(handed) in handed;
      }
    } else {
      assert handed + [] == handed;
    }
  }

  lemma {:induction false} AllIsBelowTheCeiling(cfg: Config, boot: Boot, events: seq<Event>, series: Series)
    requires Distinct(cfg.series) && series in cfg.series && BarFed(events, series)
    requires StrictlyNewer(Pushed(events, series))
    ensures Certain(RunEvents(cfg, boot, events), series, Some(Ceiling(cfg, boot, events, series)))
  {
    hide Handle, Distinct, Certain, StrictlyNewer, SparesSeries, Ceiling, PushedBy, Reaches, IsWithin;
    if events == [] {
      StartIsBelow(cfg, boot, series);
    } else {
      LastSpares(events, series);
      RisingBefore(Pushed(Front(events), series), PushedBy(Last(events), series));
      AllIsBelowTheCeiling(cfg, boot, Front(events), series);
      CeilingRises(cfg, boot, events, series);
      var (w, ceiling) := (RunEvents(cfg, boot, Front(events)), Ceiling(cfg, boot, events, series));
      WiderIsCertain(w, series, Ceiling(cfg, boot, Front(events), series), ceiling);
      EventIsCertain(w, cfg, Last(events), series, Some(ceiling));
    }
  }

  lemma StartIsBelow(cfg: Config, boot: Boot, series: Series)
    requires series in cfg.series
    ensures Certain(Started(cfg, boot), series, Some(Ceiling(cfg, boot, [], series)))
  {
    hide Certain, Started;
    StartIsCertain(cfg, boot, series, Some(Ceiling(cfg, boot, [], series)));
  }

  lemma BelowMeansNews(w: World, series: Series, bound: nat, c: Candle)
    requires SureOf(w, series, Some(bound)) && SeriesOf(c) == series && bound <= c.openTime
    ensures IsNews(w, c)
  {
    hide StrictlyNewer, Pending, Except, CandlesOf, RetainedOf;
    NewsIsUnreached(w, c);
  }

  lemma AtTheMarkIsNoNews(w: World, c: Candle)
    requires c.openTime < Beyond(Mark(w.store, SeriesOf(c)))
    ensures !IsNews(w, c)
  {
  }

  /** A bar pushed in rising order is accepted, when its turn comes, if and only if the store did not have it
      at the start and no write behind the live path has reached it: nothing that came through the live
      path itself can be in its way. */
  lemma ARisingPushIsOvertakenOnlyByMerges(cfg: Config, boot: Boot, events: seq<Event>, series: Series)
    requires Distinct(cfg.series) && series in cfg.series && BarFed(events, series)
    requires StrictlyNewer(Pushed(events, series)) && IsNext(RunEvents(cfg, boot, events), series)
    ensures var w := RunEvents(cfg, boot, events);
            IsNews(w, w.waiting[0]) <==> w.waiting[0].openTime >= Reached(cfg, boot, events, series)
  {
    hide RunEvents, Distinct, AddsUp, StrictlyNewer, IsNews, Reached, Sure;
    var (w, c) := (RunEvents(cfg, boot, events), RunEvents(cfg, boot, events).waiting[0]);
    if c.openTime >= Reached(cfg, boot, events, series) {
      RunAddsUp(cfg, boot, events, series);
      FirstPending(w.waiting, series);
      HeadIsBetween(TaleOf(cfg, boot, events, series));
      var handed := Handed(cfg, boot, events, series);
      if handed != [] {
        assert Last(handed) in handed;
      }
      AllIsBelowTheCeiling(cfg, boot, events, series);
      BelowMeansNews(w, series, Ceiling(cfg, boot, events, series), c);
    } else {
      TheMarkHasReached(cfg, boot, events, series);
      AtTheMarkIsNoNews(w, c);
    }
  }

  /** And the gap check of the bar itself is no such write: it ends before the bar. */
  lemma AGapCheckSparesItsBar(w: World, cfg: Config, c: Candle, now: nat, answer: Reply)
    requires WindowKept(w.store, SeriesOf(c)) && cfg.limit > 0
    ensures var reach := Reaches(w, cfg, CheckEvent(c, now, answer), SeriesOf(c));
            reach.Some? ==> reach.value < c.openTime
  {
    hide WindowKept, Asks, PlanFor, Newest, IsFinished;
    if Asks(w, cfg, c, now) {
      AsksItsTarget(w, cfg, c, now);
      PlanEndsBeforeTheClose(w, cfg, c, now, answer);
    }
  }
}
