/** Which event loses a pushed bar, and that nothing else does: over every run, what was pushed is what
    reaches the outbox, is retained or waits for its turn, less exactly the bars those events lose. */
module EmissionReach {
  import opened Prelude
  import opened Timeframes
  import opened MarketData
  import opened ResamplerModel
  import opened ResamplerRuns
  import opened CandleStore
  import opened Backfill
  import opened Emission
  import opened EmissionLaws
  import opened EmissionRuns
  import opened EmissionProgress
  import opened EmissionWindows
  import opened PushedBars
  import opened EmissionPushes

  // ------------------------------------------------------------ what one event loses

  /** A push whose gap check cannot read the store. */
  function MissedBy(w: World, cfg: Config, e: Event, series: Series): seq<Candle> {
    if e.CheckEvent? && SeriesOf(e.candle) == series && IsFinished(e.candle, e.now) && ReadRaises(w, cfg, e.candle)
    then [e.candle] else []
  }

  /** A push whose series has reached it by the time its turn comes. */
  function OvertakenBy(w: World, e: Event, series: Series): seq<Candle> {
    if e.PushEvent? && IsNext(w, series) && !IsNews(w, w.waiting[0]) then [w.waiting[0]] else []
  }

  /** The bars on their way that a write behind the live path reaches. */
  function SwallowedBy(w: World, cfg: Config, e: Event, series: Series): seq<Candle> {
    var reach := Reaches(w, cfg, e, series);
    if reach.Some? then UpTo(OnTheWay(w, series), reach.value) else []
  }

  lemma {:induction false} RetainingLosesNothing(w: World, candles: seq<Candle>, current: bool)
    ensures SameLosses(w, Retain(w, candles, current))
    decreases |candles|
  {
    hide IsRetained, IsNews, Asked, WasPartial;
    if candles != [] {
      RetainingLosesNothing(RetainOne(w, candles[0], current), candles[1..], current);
    }
  }

  lemma EmittingLosesNothing(w: World, candles: seq<Candle>, current: bool, limit: nat)
    ensures SameLosses(w, Emit(w, candles, current, limit).w)
  {
    hide Retain, SendOut;
    RetainingLosesNothing(w, candles, current);
    SendingOutAcceptsNothing(Retain(w, candles, current), limit);
  }

  lemma TickLosesNothing(w: World, cfg: Config, tick: Tick)
    requires Configured(w.feeds, cfg.series)
    ensures SameLosses(w, HandleTick(w, cfg, tick).w)
  {
    hide Emit, MovedAll, Listens, Persisted;
    EmittingLosesNothing(w, [], true, cfg.limit);
    var cleared := ClearRetained(w, cfg.limit);
    var remembered := Await(cleared.w);
    var announced := if cfg.publishTicks then Await(remembered.w) else remembered;
    if cleared.ok && tick.Price().Success? {
      var m := MovedAll(announced.w.feeds, cfg.series, Some(tick.symbol), OnTick(Quote(tick.ts, tick.Price().value, tick.volume)));
      EmittingLosesNothing(announced.w.(feeds := m.feeds), m.closed, true, cfg.limit);
      PersistingIsQuiet(Emitted(announced.w, m, true, cfg.limit), cfg, tick.symbol);
    }
  }

  lemma FlushLosesNothing(w: World, cfg: Config, now: nat, current: bool)
    requires Configured(w.feeds, cfg.series)
    ensures SameLosses(w, HandleFlush(w, cfg, now, current).w)
  {
    hide Emit, MovedAll;
    EmittingLosesNothing(w, [], true, cfg.limit);
    var cleared := ClearRetained(w, cfg.limit);
    var m := MovedAll(cleared.w.feeds, cfg.series, None, OnFlush(now));
    EmittingLosesNothing(cleared.w.(feeds := m.feeds), m.closed, current, cfg.limit);
  }

  /** What a write behind the live path swallows of a series. */
  lemma WritingSwallows(w: World, written: Series, plan: Plan, limit: nat, series: Series)
    requires plan.Write? ==> plan.changed != []
    ensures CandlesOf(WritePlan(w, written, plan, limit).log.swallowed, series)
         == CandlesOf(w.log.swallowed, series)
            + if written == series && plan.Write? && NextOutcome(w) != Failed then UpTo(OnTheWay(w, series), Newest(plan.changed)) else []
  {
    hide CandlesOf, OnTheWay, UpTo, Newest;
    if plan.Write? {
      var taken := UpTo(OnTheWay(w, written), Newest(plan.changed));
      OnTheWayIsOwn(w, written, Newest(plan.changed));
      AllOwn(taken, written);
      CandlesOfAppends(w.log.swallowed, taken, series);
    }
    assert CandlesOf(w.log.swallowed, series) + [] == CandlesOf(w.log.swallowed, series);
  }

  lemma CheckLoses(w: World, cfg: Config, c: Candle, now: nat, answer: Reply, series: Series)
    ensures var (v, e) := (CheckPush(w, cfg, c, now, answer).w, CheckEvent(c, now, answer));
            && CandlesOf(v.log.missed, series) == CandlesOf(w.log.missed, series) + MissedBy(w, cfg, e, series)
            && v.log.overtaken == w.log.overtaken
            && CandlesOf(v.log.swallowed, series) == CandlesOf(w.log.swallowed, series) + SwallowedBy(w, cfg, e, series)
  {
    hide CandlesOf, FillGapBefore, IsFinished, ReadRaises, Asks, PlanFor, OnTheWay, UpTo, Newest, WritePlan;
    APushedBarWaitsExactlyWhen(w, cfg, c, now, answer);
    CandlesOfAppends(w.log.missed, [c], series);
    OneCandle(c, series);
    assert CandlesOf(w.log.missed, series) + [] == CandlesOf(w.log.missed, series);
    assert CandlesOf(w.log.swallowed, series) + [] == CandlesOf(w.log.swallowed, series);
    FillingIs(w, cfg, c, now, answer);
    if Asks(w, cfg, c, now) {
      AsksItsTarget(w, cfg, c, now);
      SameOnTheWay(w, AskedFor(w, c, now), series);
      WritingSwallows(AskedFor(w, c, now), SeriesOf(c), PlanFor(w, cfg, c, now, answer), cfg.limit, series);
    }
  }

  lemma SameOnTheWay(w: World, v: World, series: Series)
    requires v.retained == w.retained && v.store == w.store
    ensures OnTheWay(v, series) == OnTheWay(w, series)
  {
  }

  lemma PushLoses(w: World, limit: nat, series: Series)
    ensures var v := TakePush(w, limit).w;
            && v.log.missed == w.log.missed && v.log.swallowed == w.log.swallowed
            && CandlesOf(v.log.overtaken, series) == CandlesOf(w.log.overtaken, series) + OvertakenBy(w, PushEvent, series)
  {
    hide CandlesOf, IsNews, TakePush;
    assert CandlesOf(w.log.overtaken, series) + [] == CandlesOf(w.log.overtaken, series);
    if w.waiting != [] {
      APushedBarIsAcceptedExactlyWhen(w, limit);
      CandlesOfAppends(w.log.overtaken, [w.waiting[0]], series);
      OneCandle(w.waiting[0], series);
    } else {
      NothingToTake(w, limit);
    }
  }

  lemma NothingToTake(w: World, limit: nat)
    requires w.waiting == []
    ensures TakePush(w, limit).w == w
  {
  }

  lemma HistoryLoses(w: World, cfg: Config, e: Event, series: Series)
    requires Configured(w.feeds, cfg.series) && (e.HistoryEvent? || e.MergeEvent?)
    ensures var v := Handle(w, cfg, e);
            && v.log.missed == w.log.missed && v.log.overtaken == w.log.overtaken
            && CandlesOf(v.log.swallowed, series) == CandlesOf(w.log.swallowed, series) + SwallowedBy(w, cfg, e, series)
  {
    hide CandlesOf, OnTheWay, UpTo, Newest, WritePlan, PlanSeries;
    assert CandlesOf(w.log.swallowed, series) + [] == CandlesOf(w.log.swallowed, series);
    match e
    case HistoryEvent(asked, now, answer) =>
      if asked.symbol in cfg.targets {
        WritingTouchesItsSeries(w, asked, HistoryPlan(w, cfg, asked, now, answer), cfg.limit);
        WritingSwallows(w, asked, HistoryPlan(w, cfg, asked, now, answer), cfg.limit, series);
      }
    case MergeEvent(merged, candles) =>
      var incoming := CandlesOf(candles, merged);
      if incoming != [] {
        WritingTouchesItsSeries(w, merged, Write(incoming, incoming), cfg.limit);
        WritingSwallows(w, merged, Write(incoming, incoming), cfg.limit, series);
      }
    case _ =>
  }

  /** Every event, in any state, loses exactly what a look at that state says: its own push if the gap
      check's read raises, the push whose turn it is if its series has reached it, and the bars on their
      way that its write reaches. */
  lemma AnEventLosesExactly(w: World, cfg: Config, e: Event, series: Series)
    requires Configured(w.feeds, cfg.series)
    ensures var v := Handle(w, cfg, e);
            && CandlesOf(v.log.missed, series) == CandlesOf(w.log.missed, series) + MissedBy(w, cfg, e, series)
            && CandlesOf(v.log.overtaken, series) == CandlesOf(w.log.overtaken, series) + OvertakenBy(w, e, series)
            && CandlesOf(v.log.swallowed, series) == CandlesOf(w.log.swallowed, series) + SwallowedBy(w, cfg, e, series)
  {
    hide HandleTick, HandleFlush, Drain, CheckPush, TakePush, AskHistory, MergeBehind, HandleRestore, MovedAll, CandlesOf, IsNews;
    assert CandlesOf(w.log.missed, series) + [] == CandlesOf(w.log.missed, series);
    assert CandlesOf(w.log.overtaken, series) + [] == CandlesOf(w.log.overtaken, series);
    assert CandlesOf(w.log.swallowed, series) + [] == CandlesOf(w.log.swallowed, series);
    match e
    case TickEvent(tick) => TickLosesNothing(w, cfg, tick);
    case FlushEvent(now, current) => FlushLosesNothing(w, cfg, now, current);
    case DrainEvent => DrainKeepsPushLog(w);
    case CheckEvent(c, now, answer) => CheckLoses(w, cfg, c, now, answer, series);
    case PushEvent => PushLoses(w, cfg.limit, series);
    case HistoryEvent(asked, now, answer) => HistoryLoses(w, cfg, e, series);
    case MergeEvent(merged, candles) => HistoryLoses(w, cfg, e, series);
    case RestoreEvent(c) => RestoringLosesNothing(w, c);
    case JoinEvent(moment) =>
  }

  lemma RestoringLosesNothing(w: World, c: Candle)
    ensures SameLosses(w, HandleRestore(w, c))
  {
    hide Advance;
  }

  predicate LosesNone(w: World, cfg: Config, e: Event, series: Series) {
    MissedBy(w, cfg, e, series) == [] && OvertakenBy(w, e, series) == [] && SwallowedBy(w, cfg, e, series) == []
  }

  predicate NoneLost(w: World, series: Series) {
    CandlesOf(w.log.missed, series) == [] && CandlesOf(w.log.overtaken, series) == [] && CandlesOf(w.log.swallowed, series) == []
  }

  /** Whether the event, in the state the run has reached before it, loses nothing of the series. */
  predicate LosesNoneAt(cfg: Config, boot: Boot, events: seq<Event>, k: nat, series: Series)
    requires k < |events|
  {
    LosesNone(RunEvents(cfg, boot, events[..k]), cfg, events[k], series)
  }

  /** A run has lost nothing of a series if and only if none of its events has. */
  lemma {:induction false} NoneIsLostIffNoEventLoses(cfg: Config, boot: Boot, events: seq<Event>, series: Series)
    ensures NoneLost(RunEvents(cfg, boot, events), series)
        <==> forall k :: 0 <= k < |events| ==> LosesNoneAt(cfg, boot, events, k, series)
  {
    hide Handle, MissedBy, OvertakenBy, SwallowedBy;
    if events == [] {
      NothingLostAtFirst(cfg, boot, series);
    } else {
      var (before, n) := (Front(events), |events| - 1);
      NoneIsLostIffNoEventLoses(cfg, boot, before, series);
      AnEventLosesExactly(RunEvents(cfg, boot, before), cfg, Last(events), series);
      assert events[..n] == before;
      hide RunEvents, CandlesOf, LosesNone;
      forall k | 0 <= k < n ensures LosesNoneAt(cfg, boot, events, k, series) <==> LosesNoneAt(cfg, boot, before, k, series) {
        assert events[..k] == before[..k];
      }
      LastLosesNone(cfg, boot, events, series);
    }
  }

  lemma NothingLostAtFirst(cfg: Config, boot: Boot, series: Series)
    ensures NoneLost(RunEvents(cfg, boot, []), series)
  {
  }

  lemma LastLosesNone(cfg: Config, boot: Boot, events: seq<Event>, series: Series)
    requires events != []
    ensures LosesNoneAt(cfg, boot, events, |events| - 1, series)
        <==> LosesNone(RunEvents(cfg, boot, Front(events)), cfg, Last(events), series)
    ensures NoneLost(RunEvents(cfg, boot, events), series)
        <==> NoneLost(RunEvents(cfg, boot, Front(events)), series) && LosesNone(RunEvents(cfg, boot, Front(events)), cfg, Last(events), series)
  {
    hide Handle, MissedBy, OvertakenBy, SwallowedBy, CandlesOf;
    AnEventLosesExactly(RunEvents(cfg, boot, Front(events)), cfg, Last(events), series);
  }
}
