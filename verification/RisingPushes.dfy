/** Bars pushed in rising open time: all of them reach the outbox, in order, but for those that an event
    of the run loses; and what can overtake one before its turn. */
module RisingPushes {
  import opened Prelude
  import opened Timeframes
  import opened MarketData
  import opened ResamplerModel
  import opened ResamplerRuns
  import opened CandleStore
  import opened Backfill
  import opened Emission
  import opened EmissionLaws
  import opened EmissionRuns
  import opened EmissionWindows
  import opened PushedBars
  import opened EmissionPushes
  import opened EmissionReach

  /** The finished bars pushed for a series, in the order they came. */
  function Pushed(events: seq<Event>, series: Series): seq<Candle> {
    if events == [] then []
    else Pushed(Front(events), series) + PushedBy(Last(events), series)
  }

  function PushedBy(e: Event, series: Series): seq<Candle> {
    if IsPushOf(e, series) then [e.candle] else []
  }

  /** A finished bar of the series arrives. */
  predicate IsPushOf(e: Event, series: Series) {
    e.CheckEvent? && SeriesOf(e.candle) == series && IsFinished(e.candle, e.now)
  }

  /** The bar that this event hands over, if it is the series' own. */
  function HandedBy(w: World, e: Event, series: Series): seq<Candle> {
    if e.PushEvent? && IsNext(w, series) then [w.waiting[0]] else []
  }

  /** The series' bars whose turn has come, in order. */
  function Handed(cfg: Config, boot: Boot, events: seq<Event>, series: Series): seq<Candle> {
    if events == [] then []
    else Handed(cfg, boot, Front(events), series) + HandedBy(RunEvents(cfg, boot, Front(events)), Last(events), series)
  }

  // ------------------------------------------------------------ what becomes of the bars pushed

  datatype Tale = Tale(
    pushed: seq<Candle>, handed: seq<Candle>, waiting: seq<Candle>, missed: seq<Candle>, accepted: seq<Candle>,
    overtaken: seq<Candle>)

  /** What was pushed was missed, or its turn has come, or it waits; what had its turn was accepted or overtaken. */
  ghost predicate AddsUp(t: Tale) {
    && Except(t.pushed, t.missed) == t.handed + t.waiting && (forall c :: c in t.missed ==> c in t.pushed)
    && t.accepted == Except(t.handed, t.overtaken) && (forall c :: c in t.overtaken ==> c in t.handed)
  }

  lemma PushIsNewToTheLog(pushed: seq<Candle>, c: Candle)
    requires StrictlyNewer(pushed + [c])
    ensures StrictlyNewer(pushed) && c !in pushed
  {
    var all := pushed + [c];
    assert all[|pushed|] == c;
    assert forall i :: 0 <= i < |pushed| ==> all[i] == pushed[i];
  }

  /** Taking out a bar that is not there. */
  lemma {:induction false} ExceptOneMore(candles: seq<Candle>, gone: seq<Candle>, c: Candle)
    requires c !in candles
    ensures Except(candles, gone + [c]) == Except(candles, gone)
  {
    if candles != [] {
      assert candles == Front(candles) + [Last(candles)];
      ExceptOneMore(Front(candles), gone, c);
    }
  }

  lemma ArrivingAddsUp(t: Tale, c: Candle)
    requires AddsUp(t) && StrictlyNewer(t.pushed + [c])
    ensures AddsUp(t.(pushed := t.pushed + [c], waiting := t.waiting + [c]))
    ensures AddsUp(t.(pushed := t.pushed + [c], missed := t.missed + [c]))
  {
    hide StrictlyNewer, Except;
    PushIsNewToTheLog(t.pushed, c);
    ExceptAppends(t.pushed, [c], t.missed);
    ExceptAppends(t.pushed, [c], t.missed + [c]);
    ExceptOne(c, t.missed);
    ExceptOne(c, t.missed + [c]);
    ExceptOneMore(t.pushed, t.missed, c);
    assert (t.handed + t.waiting) + [c] == t.handed + (t.waiting + [c]);
    assert Except(t.pushed, t.missed) + [] == Except(t.pushed, t.missed);
  }

  /** The first bar in line is older than those behind it and newer than those before it. */
  lemma HeadIsBetween(t: Tale)
    requires AddsUp(t) && StrictlyNewer(t.pushed) && t.waiting != []
    ensures t.waiting[0] !in t.handed && t.handed + t.waiting == (t.handed + [t.waiting[0]]) + t.waiting[1..]
    ensures StrictlyNewer(t.handed) && forall h :: h in t.handed ==> h.openTime < t.waiting[0].openTime
  {
    ExceptIsNewer(t.pushed, t.missed);
    var all := t.handed + t.waiting;
    assert all[|t.handed|] == t.waiting[0];
    assert forall i :: 0 <= i < |t.handed| ==> all[i] == t.handed[i];
  }

  lemma GoingAddsUp(t: Tale)
    requires AddsUp(t) && StrictlyNewer(t.pushed) && t.waiting != []
    ensures var (c, u) := (t.waiting[0], t.(handed := t.handed + [t.waiting[0]], waiting := t.waiting[1..]));
            AddsUp(u.(accepted := t.accepted + [c])) && AddsUp(u.(overtaken := t.overtaken + [c]))
  {
    hide StrictlyNewer, Except;
    var c := t.waiting[0];
    HeadIsBetween(t);
    ExceptAppends(t.handed, [c], t.overtaken);
    ExceptAppends(t.handed, [c], t.overtaken + [c]);
    ExceptOne(c, t.overtaken);
    ExceptOne(c, t.overtaken + [c]);
    ExceptOneMore(t.handed, t.overtaken, c);
    assert Except(t.handed, t.overtaken) + [] == Except(t.handed, t.overtaken);
  }

  /** What is sent, on its way or waiting is what was pushed, less what was lost one way or another. */
  lemma LessTheLost(t: Tale, sent: seq<Candle>, swallowed: seq<Candle>)
    requires AddsUp(t) && StrictlyNewer(t.pushed)
    requires sent == Except(t.accepted, swallowed) && forall c :: c in swallowed ==> c in t.accepted
    ensures sent + t.waiting == Except(Except(Except(t.pushed, t.missed), t.overtaken), swallowed)
    ensures forall c :: c in t.missed || c in t.overtaken || c in swallowed ==> c in t.pushed
  {
    hide StrictlyNewer, Except;
    ExceptIsNewer(t.pushed, t.missed);
    WaitingIsApart(t);
    ExceptAppends(t.handed, t.waiting, t.overtaken);
    ExceptOthers(t.waiting, t.overtaken);
    HandedIsNewer(t);
    ExceptIsNewer(t.handed, t.overtaken);
    ExceptAppends(t.accepted, t.waiting, swallowed);
    ExceptOthers(t.waiting, swallowed);
  }

  lemma WaitingIsApart(t: Tale)
    requires AddsUp(t) && StrictlyNewer(t.pushed)
    ensures forall c :: c in t.waiting ==> c !in t.handed
  {
    ExceptIsNewer(t.pushed, t.missed);
    var all := t.handed + t.waiting;
    assert forall i :: 0 <= i < |t.handed| ==> all[i] == t.handed[i];
    assert forall i :: 0 <= i < |t.waiting| ==> all[|t.handed| + i] == t.waiting[i];
  }

  lemma HandedIsNewer(t: Tale)
    requires AddsUp(t) && StrictlyNewer(t.pushed)
    ensures StrictlyNewer(t.handed)
  {
    ExceptIsNewer(t.pushed, t.missed);
    var all := t.handed + t.waiting;
    assert forall i :: 0 <= i < |t.handed| ==> all[i] == t.handed[i];
  }

  // ------------------------------------------------------------ over a run

  function TaleOf(cfg: Config, boot: Boot, events: seq<Event>, series: Series): Tale {
    ToldIn(RunEvents(cfg, boot, events), Pushed(events, series), Handed(cfg, boot, events, series), series)
  }

  function ToldIn(w: World, pushed: seq<Candle>, handed: seq<Candle>, series: Series): Tale {
    Tale(pushed, handed, CandlesOf(w.waiting, series), CandlesOf(w.log.missed, series), CandlesOf(w.log.accepted, series),
         CandlesOf(w.log.overtaken, series))
  }

  lemma {:induction false} RetainingElsewhereAcceptsNone(w: World, candles: seq<Candle>, current: bool, series: Series)
    requires CandlesOf(candles, series) == []
    ensures CandlesOf(Retain(w, candles, current).log.accepted, series) == CandlesOf(w.log.accepted, series)
    decreases |candles|
  {
    hide CandlesOf, IsRetained, IsNews, Asked, WasPartial;
    if candles != [] {
      FirstPending(candles, series);
      CandlesOfAppends(w.log.accepted, [candles[0]], series);
      OneCandle(candles[0], series);
      assert CandlesOf(w.log.accepted, series) + [] == CandlesOf(w.log.accepted, series);
      RetainingElsewhereAcceptsNone(RetainOne(w, candles[0], current), candles[1..], current, series);
    }
  }

  lemma EmittingElsewhereAcceptsNone(w: World, candles: seq<Candle>, current: bool, limit: nat, series: Series)
    requires CandlesOf(candles, series) == []
    ensures CandlesOf(Emit(w, candles, current, limit).w.log.accepted, series) == CandlesOf(w.log.accepted, series)
  {
    hide CandlesOf, Retain, SendOut;
    RetainingElsewhereAcceptsNone(w, candles, current, series);
    SendingOutAcceptsNothing(Retain(w, candles, current), limit);
  }

  lemma TickAcceptsNone(w: World, cfg: Config, tick: Tick, series: Series, bound: Option<nat>)
    requires Certain(w, series, bound) && Configured(w.feeds, cfg.series) && Distinct(cfg.series) && tick.symbol != series.symbol
    ensures CandlesOf(HandleTick(w, cfg, tick).w.log.accepted, series) == CandlesOf(w.log.accepted, series)
  {
    hide Certain, Distinct, Emit, MovedAll, Listens, Persisted, CandlesOf;
    NoCandles(series);
    EmittingElsewhereAcceptsNone(w, [], true, cfg.limit, series);
    ClearingIsCertain(w, cfg.limit, series, bound);
    var cleared := ClearRetained(w, cfg.limit);
    var remembered := Await(cleared.w);
    QuietIsCertain(cleared.w, remembered.w, series, bound);
    var announced := if cfg.publishTicks then Await(remembered.w) else remembered;
    QuietIsCertain(remembered.w, announced.w, series, bound);
    if cleared.ok && tick.Price().Success? {
      var op := OnTick(Quote(tick.ts, tick.Price().value, tick.volume));
      MovingIsCertain(announced.w, cfg, Some(tick.symbol), op, series, bound);
      var m := MovedAll(announced.w.feeds, cfg.series, Some(tick.symbol), op);
      EmittingElsewhereAcceptsNone(announced.w.(feeds := m.feeds), m.closed, true, cfg.limit, series);
      PersistingIsQuiet(Emitted(announced.w, m, true, cfg.limit), cfg, tick.symbol);
    }
  }

  lemma FlushAcceptsNone(w: World, cfg: Config, now: nat, current: bool, series: Series, bound: Option<nat>)
    requires Certain(w, series, bound) && Configured(w.feeds, cfg.series) && Distinct(cfg.series)
    ensures CandlesOf(HandleFlush(w, cfg, now, current).w.log.accepted, series) == CandlesOf(w.log.accepted, series)
  {
    hide Certain, Distinct, Emit, MovedAll, CandlesOf;
    NoCandles(series);
    EmittingElsewhereAcceptsNone(w, [], true, cfg.limit, series);
    ClearingIsCertain(w, cfg.limit, series, bound);
    var cleared := ClearRetained(w, cfg.limit);
    if cleared.ok {
      MovingIsCertain(cleared.w, cfg, None, OnFlush(now), series, bound);
      var m := MovedAll(cleared.w.feeds, cfg.series, None, OnFlush(now));
      EmittingElsewhereAcceptsNone(cleared.w.(feeds := m.feeds), m.closed, current, cfg.limit, series);
    }
  }

  /** What an event accepts of the series: the bar it hands over, unless that has been overtaken. */
  lemma AnEventAccepts(w: World, cfg: Config, e: Event, series: Series, bound: Option<nat>)
    requires Certain(w, series, bound) && Configured(w.feeds, cfg.series) && Distinct(cfg.series) && SparesSeries(e, series)
    ensures CandlesOf(Handle(w, cfg, e).log.accepted, series)
         == CandlesOf(w.log.accepted, series) + if OvertakenBy(w, e, series) == [] then HandedBy(w, e, series) else []
  {
    hide Certain, HandleTick, HandleFlush, Drain, CheckPush, TakePush, HandleRestore, Distinct, CandlesOf, MovedAll, Advance, WritePlan, PlanSeries, IsNews;
    assert CandlesOf(w.log.accepted, series) + [] == CandlesOf(w.log.accepted, series);
    match e
    case TickEvent(tick) => TickAcceptsNone(w, cfg, tick, series, bound);
    case FlushEvent(now, current) => FlushAcceptsNone(w, cfg, now, current, series, bound);
    case DrainEvent => DrainKeepsPushLog(w);
    case CheckEvent(c, now, answer) => APushedBarWaitsExactlyWhen(w, cfg, c, now, answer);
    case PushEvent =>
      if w.waiting != [] {
        APushedBarIsAcceptedExactlyWhen(w, cfg.limit);
        CandlesOfAppends(w.log.accepted, [w.waiting[0]], series);
        OneCandle(w.waiting[0], series);
      } else {
        NothingToTake(w, cfg.limit);
      }
    case HistoryEvent(asked, now, answer) =>
      if asked.symbol in cfg.targets {
        WritingTouchesItsSeries(w, asked, HistoryPlan(w, cfg, asked, now, answer), cfg.limit);
      }
    case MergeEvent(merged, candles) =>
      if CandlesOf(candles, merged) != [] {
        WritingTouchesItsSeries(w, merged, Write(CandlesOf(candles, merged), CandlesOf(candles, merged)), cfg.limit);
      }
    case RestoreEvent(c) => RestoringMovesNoOne(w, c);
    case JoinEvent(moment) =>
  }

  /** Who waits after an event. */
  lemma AnEventQueues(w: World, cfg: Config, e: Event, series: Series)
    requires Configured(w.feeds, cfg.series)
    ensures var after := CandlesOf(Handle(w, cfg, e).waiting, series);
            if e.CheckEvent? then
              after == CandlesOf(w.waiting, series) + if IsPushOf(e, series) && MissedBy(w, cfg, e, series) == [] then [e.candle] else []
            else HandedBy(w, e, series) + after == CandlesOf(w.waiting, series)
  {
    hide HandleTick, HandleFlush, Drain, CheckPush, TakePush, HandleRestore, CandlesOf, MovedAll, Advance, AskHistory, MergeBehind, IsNews, IsFinished, ReadRaises;
    assert CandlesOf(w.waiting, series) + [] == CandlesOf(w.waiting, series) == [] + CandlesOf(w.waiting, series);
    match e
    case CheckEvent(c, now, answer) =>
      APushedBarWaitsExactlyWhen(w, cfg, c, now, answer);
      CandlesOfAppends(w.waiting, [c], series);
      OneCandle(c, series);
    case PushEvent =>
      if w.waiting != [] {
        FirstPending(w.waiting, series);
      } else {
        NothingToTake(w, cfg.limit);
      }
    case RestoreEvent(c) => RestoringMovesNoOne(w, c);
    case _ =>
  }

  lemma RestoringMovesNoOne(w: World, c: Candle)
    ensures HandleRestore(w, c).waiting == w.waiting && HandleRestore(w, c).log == w.log
  {
    hide Advance;
  }

  lemma EventAddsUp(w: World, cfg: Config, e: Event, series: Series, bound: Option<nat>, pushed: seq<Candle>, handed: seq<Candle>)
    requires Certain(w, series, bound) && Configured(w.feeds, cfg.series) && Distinct(cfg.series) && SparesSeries(e, series)
    requires AddsUp(ToldIn(w, pushed, handed, series))
    requires StrictlyNewer(pushed + PushedBy(e, series))
    ensures AddsUp(ToldIn(Handle(w, cfg, e), pushed + PushedBy(e, series), handed + HandedBy(w, e, series), series))
  {
    hide Certain, AddsUp, Handle, CandlesOf, StrictlyNewer, Distinct, IsFinished, ReadRaises, IsNews, SparesSeries, Reaches;
    AnEventLosesExactly(w, cfg, e, series);
    AnEventAccepts(w, cfg, e, series, bound);
    AnEventQueues(w, cfg, e, series);
    var t := ToldIn(w, pushed, handed, series);
    NothingAdded(t);
    var told := ToldIn(Handle(w, cfg, e), pushed + PushedBy(e, series), handed + HandedBy(w, e, series), series);
    if IsPushOf(e, series) {
      ArrivingAddsUp(t, e.candle);
      assert told == if MissedBy(w, cfg, e, series) == [] then t.(pushed := t.pushed + [e.candle], waiting := t.waiting + [e.candle])
                     else t.(pushed := t.pushed + [e.candle], missed := t.missed + [e.candle]);
    } else if HandedBy(w, e, series) != [] {
      HeadOfWaiting(t.waiting, w.waiting[0], told.waiting);
      RisingBefore(t.pushed, []);
      GoingAddsUp(t);
    } else {
      assert told == t;
    }
  }

  lemma HeadOfWaiting(waiting: seq<Candle>, c: Candle, rest: seq<Candle>)
    requires [c] + rest == waiting
    ensures waiting != [] && waiting[0] == c && waiting[1..] == rest
  {
  }

  lemma NothingAdded(t: Tale)
    ensures t.pushed + [] == t.pushed && t.handed + [] == t.handed && t.missed + [] == t.missed && t.accepted + [] == t.accepted && t.overtaken + [] == t.overtaken
    ensures t.waiting + [] == t.waiting == [] + t.waiting
  {
  }

  lemma {:induction false} RunAddsUp(cfg: Config, boot: Boot, events: seq<Event>, series: Series)
    requires Distinct(cfg.series) && series in cfg.series && BarFed(events, series)
    requires StrictlyNewer(Pushed(events, series))
    ensures AddsUp(TaleOf(cfg, boot, events, series))
  {
    hide Handle, Distinct, AddsUp, ToldIn, Certain, StrictlyNewer, SparesSeries, PushedBy, HandedBy;
    if events == [] {
      StartAddsUp(cfg, boot, series);
    } else {
      var (before, e) := (Front(events), Last(events));
      LastSpares(events, series);
      RisingBefore(Pushed(before, series), PushedBy(e, series));
      RunAddsUp(cfg, boot, before, series);
      EveryRunIsCertain(cfg, boot, before, series);
      EventAddsUp(RunEvents(cfg, boot, before), cfg, e, series, None, Pushed(before, series), Handed(cfg, boot, before, series));
    }
  }

  lemma RisingBefore(pushed: seq<Candle>, more: seq<Candle>)
    requires StrictlyNewer(pushed + more)
    ensures StrictlyNewer(pushed)
  {
    assert forall i :: 0 <= i < |pushed| ==> (pushed + more)[i] == pushed[i];
  }

  lemma LastSpares(events: seq<Event>, series: Series)
    requires BarFed(events, series) && events != []
    ensures BarFed(Front(events), series) && SparesSeries(Last(events), series)
  {
    assert Last(events) in events && forall e :: e in Front(events) ==> e in events;
  }

  lemma StartAddsUp(cfg: Config, boot: Boot, series: Series)
    ensures AddsUp(TaleOf(cfg, boot, [], series))
  {
  }

  /** For bars pushed in rising open time, over every run from any store: what was pushed is exactly what is
      staged, then what is retained and to be staged, then what waits for its turn, in order, if and only
      if no event of the run loses a bar of the series. Otherwise it is that, less the bars lost. */
  lemma RisingPushesReachTheOutbox(cfg: Config, boot: Boot, events: seq<Event>, series: Series)
    requires Distinct(cfg.series) && series in cfg.series && BarFed(events, series)
    requires StrictlyNewer(Pushed(events, series))
    ensures var w := RunEvents(cfg, boot, events);
            var sent := CandlesOf(w.log.staged, series) + OnTheWay(w, series) + CandlesOf(w.waiting, series);
            var (pushed, missed) := (Pushed(events, series), CandlesOf(w.log.missed, series));
            var (overtaken, swallowed) := (CandlesOf(w.log.overtaken, series), CandlesOf(w.log.swallowed, series));
            && (sent == pushed <==> forall k :: 0 <= k < |events| ==> LosesNoneAt(cfg, boot, events, k, series))
            && sent == Except(Except(Except(pushed, missed), overtaken), swallowed)
            && (forall c :: c in missed || c in overtaken || c in swallowed ==> c in pushed)
  {
    hide RunEvents, Distinct, Certain, BarFed, LosesNoneAt, AddsUp, Handed;
    RunAddsUp(cfg, boot, events, series);
    AcceptedBarsAreStagedOrOnTheirWay(cfg, boot, events, series);
    NoneIsLostIffNoEventLoses(cfg, boot, events, series);
    var (w, t) := (RunEvents(cfg, boot, events), TaleOf(cfg, boot, events, series));
    LessTheLost(t, CandlesOf(w.log.staged, series) + OnTheWay(w, series), CandlesOf(w.log.swallowed, series));
    NoneIsLostIff(t.pushed, t.missed, t.overtaken, CandlesOf(w.log.swallowed, series));
    hide CandlesOf, Except, Pushed, OnTheWay;
  }

  lemma NoneIsLostIff(pushed: seq<Candle>, missed: seq<Candle>, overtaken: seq<Candle>, swallowed: seq<Candle>)
    requires forall c :: c in missed || c in overtaken || c in swallowed ==> c in pushed
    ensures Except(Except(Except(pushed, missed), overtaken), swallowed) == pushed
       <==> missed == [] && overtaken == [] && swallowed == []
  {
    hide Except;
    var left := Except(pushed, missed);
    ExceptIsShorter(pushed, missed);
    ExceptIsShorter(left, overtaken);
    ExceptIsShorter(Except(left, overtaken), swallowed);
    if missed == [] && overtaken == [] && swallowed == [] {
      ExceptOthers(pushed, []);
    } else if Except(Except(left, overtaken), swallowed) == pushed {
      NoneIsIn(pushed, missed, overtaken, swallowed);
    }
  }

  lemma NoneIsIn(pushed: seq<Candle>, missed: seq<Candle>, overtaken: seq<Candle>, swallowed: seq<Candle>)
    requires forall c :: c in missed || c in overtaken || c in swallowed ==> c in pushed
    requires Except(Except(Except(pushed, missed), overtaken), swallowed) == pushed
    ensures missed == [] && overtaken == [] && swallowed == []
  {
    hide Except;
    ExceptIsShorter(pushed, missed);
    ExceptIsShorter(Except(pushed, missed), overtaken);
    ExceptIsShorter(Except(Except(pushed, missed), overtaken), swallowed);
    ShorterIsSame(pushed, missed);
    ShorterIsSame(pushed, overtaken);
    EmptyOrNot(missed);
    EmptyOrNot(overtaken);
    EmptyOrNot(swallowed);
  }

  lemma ShorterIsSame(candles: seq<Candle>, gone: seq<Candle>)
    ensures |Except(candles, gone)| == |candles| ==> Except(candles, gone) == candles
  {
    ExceptIsShorter(candles, gone);
    if |Except(candles, gone)| == |candles| {
      ExceptOthers(candles, gone);
    }
  }
}
