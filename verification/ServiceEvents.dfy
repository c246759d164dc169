/** What single events of the service come to, in full: when history is asked for and what becomes of the answer,
    what a repair makes of a bar, what a drain sends. */
module ServiceEvents {
  import opened Prelude
  import opened Timeframes
  import opened MarketData
  import opened ResamplerModel
  import opened ResamplerRuns
  import opened CandleStore
  import opened Backfill
  import opened Emission
  import opened EmissionLaws
  import opened EmissionRuns
  import opened EmissionProgress

  // ------------------------------------------------------------ history asked for

  /** The n-th await to come. */
  function Fate(w: World, n: nat): Outcome {
    if n < |w.script| then w.script[n] else Done
  }

  /** A pushed bar has its history looked up: it is over, give or take the tolerance, its symbol's history can be
      asked for again, and the read goes well. */
  predicate LooksUp(w: World, cfg: Config, c: Candle, now: nat) {
    c.openTime + Duration(c.timeframe) <= now + 5_000_000 && c.symbol in cfg.targets && Fate(w, 0) == Done
  }

  /** It leaves a gap behind the newest bar held, or there is none, and its series was not asked about within the
      cooldown. */
  predicate WantsHistory(w: World, cfg: Config, c: Candle, now: nat) {
    var window := Window(w.store, SeriesOf(c));
    && (window == [] || c.openTime > Last(window).openTime + Duration(c.timeframe))
    && (SeriesOf(c) in w.gap.askedAt ==> now >= w.gap.askedAt[SeriesOf(c)] + cfg.cooldown)
  }

  /** There is a resampler for the symbol, and so a series to ask about. */
  predicate HasResampler(cfg: Config, symbol: string) {
    exists i :: 0 <= i < |cfg.series| && cfg.series[i].symbol == symbol
  }

  /** What is written down of a request: until when not to ask again, what is owed, and that nobody answered. */
  predicate NotesTheRequest(before: Gap, after: Gap, series: Series, warmth: Warmth) {
    && after.owed == (if warmth == Settled then before.owed - {series} else before.owed + {series})
    && after.vendorOffline == (before.vendorOffline || warmth == OwedOffline)
  }

  lemma ResamplerListens(cfg: Config, symbol: string)
    ensures Listens(cfg, symbol) <==> HasResampler(cfg, symbol)
  {
    if Listens(cfg, symbol) {
      var s :| s in cfg.series && s.symbol == symbol;
      var i :| 0 <= i < |cfg.series| && cfg.series[i] == s;
    }
  }

  lemma WritingIsWarming(w: World, series: Series, target: nat, limit: nat, before: Option<nat>, now: nat, answer: Reply)
    ensures var plan := PlanSeries(w.store, series, target, before, now, answer, false, false);
            var warmed := WarmSeries(w.store, series, target, limit, before, now, answer, NextOutcome(w));
            var v := WritePlan(w, series, plan, limit);
            v.store == warmed.store && NotesTheRequest(w.gap, v.gap, series, warmed.warmth) && v.gap.askedAt == w.gap.askedAt
  {
    hide PlanSeries, Written, OnTheWay, UpTo, Newest;
  }

  /** A pushed bar asks for history if and only if it wants it and there is a resampler for its symbol; then the
      answer is merged, cut off at the bar, as the request for its series would have been, and what is owed is
      noted; otherwise the store is left alone. */
  lemma APushedBarAsksExactlyWhen(w: World, cfg: Config, c: Candle, now: nat, answer: Reply)
    requires Configured(w.feeds, cfg.series)
    ensures var v := Handle(w, cfg, CheckEvent(c, now, answer));
            if LooksUp(w, cfg, c, now) && WantsHistory(w, cfg, c, now) then
              && v.gap.askedAt == w.gap.askedAt[SeriesOf(c) := now]
              && if HasResampler(cfg, c.symbol)
                 then
                   var warmed := WarmSeries(w.store, SeriesOf(c), cfg.targets[c.symbol], cfg.limit, Some(c.openTime), now, answer, Fate(w, 1));
                   v.store == warmed.store && NotesTheRequest(w.gap, v.gap, SeriesOf(c), warmed.warmth)
                 else v.store == w.store && v.gap.owed == w.gap.owed
            else v.store == w.store && v.gap == w.gap
  {
    hide PlanSeries, WritePlan, WarmSeries, Listens, HasResampler;
    ResamplerListens(cfg, c.symbol);
    if LooksUp(w, cfg, c, now) {
      var read := Spent(w);
      var asked := read.(gap := read.gap.(askedAt := read.gap.askedAt[SeriesOf(c) := now]));
      SecondFate(w);
      WritingIsWarming(asked, SeriesOf(c), cfg.targets[c.symbol], cfg.limit, Some(c.openTime), now, answer);
    }
  }

  lemma SecondFate(w: World)
    ensures NextOutcome(Spent(w)) == Fate(w, 1) && NextOutcome(w) == Fate(w, 0)
  {
  }

  /** The history loop asks for its series with nothing cut off, and notes what is still owed of what was. */
  lemma TheHistoryLoopMergesTheAnswer(w: World, cfg: Config, series: Series, now: nat, answer: Reply)
    requires Configured(w.feeds, cfg.series)
    ensures var v := Handle(w, cfg, HistoryEvent(series, now, answer));
            if series.symbol in cfg.targets then
              var warmed := WarmSeries(w.store, series, cfg.targets[series.symbol], cfg.limit, None, now, answer, Fate(w, 0));
              && v.store == warmed.store && v.gap.askedAt == w.gap.askedAt
              && (series in v.gap.owed <==> series in w.gap.owed && warmed.warmth != Settled)
              && (forall other :: other != series ==> (other in v.gap.owed <==> other in w.gap.owed))
            else v.store == w.store && v.gap.owed == w.gap.owed - {series}
  {
    hide PlanSeries, WritePlan, WarmSeries;
    if series.symbol in cfg.targets {
      SecondFate(w);
      WritingIsWarming(w, series, cfg.targets[series.symbol], cfg.limit, None, now, answer);
    }
  }

  /** Any other bars of a series merged behind the live path: the merge script on them, unless it was refused. */
  lemma AMergeIsTheScript(w: World, cfg: Config, series: Series, candles: seq<Candle>)
    requires Configured(w.feeds, cfg.series)
    ensures var v := Handle(w, cfg, MergeEvent(series, candles));
            var incoming := CandlesOf(candles, series);
            && v.gap == w.gap
            && v.store == (if incoming == [] || Fate(w, 0) == Failed then w.store
                           else MergedIn(w.store, series, incoming, cfg.limit).value)
  {
    hide MergedIn, CandlesOf, OnTheWay, UpTo, Newest;
  }

  // ------------------------------------------------------------ the fates

  /** An await that fails leaves the store and the bus alone; one whose reply is lost has happened. */
  lemma FatesMeanWhatTheySay(w: World, c: Candle, limit: nat)
    ensures var (s, p, a) := (Stage(w, c, limit), if w.store.outbox == [] then Call(w, true) else Publish(w),
                              if w.store.outbox == [] then Call(w, true) else Ack(w));
            && (Fate(w, 0) == Failed ==> !s.ok && s.w.store == w.store && s.w.log == w.log)
            && (Fate(w, 0) != Failed ==> s.w.store == Staged(w.store, c, limit))
            && (s.ok <==> Fate(w, 0) == Done)
            && (w.store.outbox != [] ==>
                  && p.w.store == w.store && (p.ok <==> Fate(w, 0) == Done) && (a.ok <==> Fate(w, 0) == Done)
                  && p.w.log.published == (if Fate(w, 0) == Failed then w.log.published else w.log.published + [w.store.outbox[0]])
                  && a.w.store.outbox == (if Fate(w, 0) == Failed then w.store.outbox else w.store.outbox[1..]))
  {
    hide IsDuplicate, Staged;
  }

  /** A drain in which nothing fails publishes what the outbox holds, each bar once and in order, and
      acknowledges exactly that. */
  lemma {:induction false} AGoodDrainSendsTheOutbox(w: World)
    requires w.script == []
    ensures var call := Drain(w);
            && call.ok && call.w.store == w.store.(outbox := [])
            && call.w.log.published == w.log.published + w.store.outbox && call.w.log.acked == w.log.acked + w.store.outbox
    decreases |w.store.outbox|
  {
    if w.store.outbox == [] {
      assert w.log.published + [] == w.log.published && w.log.acked + [] == w.log.acked;
    } else {
      var (head, rest) := (w.store.outbox[0], w.store.outbox[1..]);
      AGoodDrainSendsTheOutbox(Ack(Publish(Spent(w)).w).w);
      assert [head] + rest == w.store.outbox;
      assert w.log.published + [head] + rest == w.log.published + w.store.outbox;
      assert w.log.acked + [head] + rest == w.log.acked + w.store.outbox;
    }
  }

  // ------------------------------------------------------------ the second pass

  /** Each bar as the reply it got completes it, under the flag it was retired with; no reply leaves it as it is. */
  function Completed(retained: seq<Retired>, replies: seq<Option<Candle>>): seq<Retired>
    decreases |retained|
  {
    if retained == [] then []
    else
      var r := retained[0];
      [Retired(Repaired(r.candle, if replies == [] then None else replies[0], r.closeIsCurrent), false, r.closeIsCurrent)]
      + Completed(retained[1..], if replies == [] then [] else replies[1..])
  }

  lemma FirstCompleted(w: World)
    requires w.retained != []
    ensures var c := RepairHead(w).retained[0];
            Completed(w.retained, w.replies) == [c] + Completed(w.retained[1..], RepairHead(w).replies)
            && SeriesOf(c.candle) == SeriesOf(w.retained[0].candle)
  {
  }

  /** The second pass asks for each bar that is left, one reply each and in their order, and stages what came of
      it: of every series, in order, those newer than the watermark and than those before them. */
  lemma {:induction false} SecondPassStagesWhatTheRepliesComplete(w: World, limit: nat, series: Series)
    requires RepairAll(w, limit).ok
    ensures var v := RepairAll(w, limit).w;
            CandlesOf(v.log.staged, series)
            == CandlesOf(w.log.staged, series) + Pending(RetainedOf(Completed(w.retained, w.replies), series), Mark(w.store, series))
    decreases |w.retained|
  {
    hide Stage, CandlesOf, RetainedOf, Pending, Completed, RepairHead;
    if w.retained == [] {
      NothingCompleted(w.replies, series, Mark(w.store, series));
      assert CandlesOf(w.log.staged, series) + [] == CandlesOf(w.log.staged, series);
    } else {
      var repaired := RepairHead(w);
      RepairingIsQuiet(w);
      var step := Stage(repaired, repaired.retained[0].candle, limit);
      var next := step.w.(retained := repaired.retained[1..]);
      StagedByOne(repaired, repaired.retained[0].candle, limit, series);
      StagingAsksNothing(repaired, repaired.retained[0].candle, limit);
      SecondPassStagesWhatTheRepliesComplete(next, limit, series);
      FirstCompleted(w);
      var rest := Completed(w.retained[1..], repaired.replies);
      CompletedInFront(repaired.retained[0], rest, series, Mark(w.store, series));
      var c := repaired.retained[0].candle;
      if SeriesOf(c) == series && !IsDuplicate(w.store, c) {
        var later := Pending(RetainedOf(rest, series), Some(c.openTime));
        assert CandlesOf(w.log.staged, series) + [c] + later == CandlesOf(w.log.staged, series) + ([c] + later);
      }
    }
  }

  lemma NothingCompleted(replies: seq<Option<Candle>>, series: Series, level: Option<nat>)
    ensures Completed([], replies) == [] && RetainedOf([], series) == [] && Pending([], level) == []
  {
  }

  lemma RepairingIsQuiet(w: World)
    requires w.retained != []
    ensures var v := RepairHead(w);
            v.store == w.store && v.log.staged == w.log.staged && v.retained[1..] == w.retained[1..] && v.script == w.script
  {
  }

  lemma StagingAsksNothing(w: World, c: Candle, limit: nat)
    ensures Stage(w, c, limit).w.replies == w.replies && Stage(w, c, limit).w.retained == w.retained
  {
    hide IsDuplicate, Staged;
  }

  lemma CompletedInFront(c: Retired, rest: seq<Retired>, series: Series, level: Option<nat>)
    ensures Pending(RetainedOf([c] + rest, series), level)
         == if SeriesOf(c.candle) != series || (level.Some? && c.candle.openTime <= level.value) then Pending(RetainedOf(rest, series), level)
            else [c.candle] + Pending(RetainedOf(rest, series), Some(c.candle.openTime))
  {
    FirstRetained([c] + rest, series);
    assert ([c] + rest)[1..] == rest;
    hide RetainedOf;
    if SeriesOf(c.candle) == series {
      FirstIsPending(c, RetainedOf(rest, series), level);
    } else {
      assert [] + RetainedOf(rest, series) == RetainedOf(rest, series);
    }
  }

  // ------------------------------------------------------------ whose close is the later price

  /** Every bar retained now was retained before under the same flag, or was retired under this one. */
  ghost predicate FlagsFrom(now: seq<Retired>, before: seq<Retired>, current: bool) {
    forall i :: 0 <= i < |now| ==> now[i].closeIsCurrent == current || HasFlag(before, now[i])
  }

  ghost predicate HasFlag(before: seq<Retired>, r: Retired) {
    exists j :: 0 <= j < |before| && SeriesOf(before[j].candle) == SeriesOf(r.candle)
                && before[j].candle.openTime == r.candle.openTime && before[j].closeIsCurrent == r.closeIsCurrent
  }

  lemma FlagsStay(now: seq<Retired>, between: seq<Retired>, before: seq<Retired>, current: bool)
    requires FlagsFrom(now, between, current) && FlagsFrom(between, before, current)
    ensures FlagsFrom(now, before, current)
  {
    forall i | 0 <= i < |now| && now[i].closeIsCurrent != current ensures HasFlag(before, now[i]) {
      assert HasFlag(between, now[i]);
    }
  }

  lemma SomeOfThem(now: seq<Retired>, before: seq<Retired>, current: bool)
    requires forall i :: 0 <= i < |now| ==> now[i] in before
    ensures FlagsFrom(now, before, current)
  {
    forall i | 0 <= i < |now| ensures HasFlag(before, now[i]) {
      var j :| 0 <= j < |before| && before[j] == now[i];
    }
  }

  lemma {:induction false} RetainingFlags(w: World, candles: seq<Candle>, current: bool)
    ensures FlagsFrom(Retain(w, candles, current).retained, w.retained, current)
    decreases |candles|
  {
    hide FlagsFrom, IsNews, IsRetained;
    if candles == [] {
      SomeOfThem(w.retained, w.retained, current);
    } else {
      var v := RetainOne(w, candles[0], current);
      RetainingOneFlags(w, candles[0], current);
      RetainingFlags(v, candles[1..], current);
      FlagsStay(Retain(v, candles[1..], current).retained, v.retained, w.retained, current);
    }
  }

  lemma RetainingOneFlags(w: World, c: Candle, current: bool)
    ensures FlagsFrom(RetainOne(w, c, current).retained, w.retained, current)
  {
    hide IsNews, IsRetained, FlagsFrom;
    SomeOfThem(w.retained, w.retained, current);
    AddedUnderTheFlag(w.retained, Retired(c, WasPartial(w, c), current), current);
  }

  lemma AddedUnderTheFlag(before: seq<Retired>, r: Retired, current: bool)
    requires r.closeIsCurrent == current
    ensures FlagsFrom(before + [r], before, current)
  {
    forall i | 0 <= i < |before + [r]| && (before + [r])[i].closeIsCurrent != current ensures HasFlag(before, (before + [r])[i]) {
      assert before[i] == (before + [r])[i];
    }
  }

  lemma {:induction false} FirstPassFlags(w: World, i: nat, limit: nat, current: bool)
    requires i <= |w.retained|
    ensures FlagsFrom(StageWhole(w, i, limit).w.retained, w.retained, current)
    decreases |w.retained| - i
  {
    hide Stage, FlagsFrom;
    SomeOfThem(w.retained, w.retained, current);
    if i < |w.retained| {
      if w.retained[i].partial {
        FirstPassFlags(w, i + 1, limit, current);
      } else {
        var step := Stage(w, w.retained[i].candle, limit);
        StagingAsksNothing(w, w.retained[i].candle, limit);
        if step.ok {
          var next := step.w.(retained := Without(w.retained, i));
          FirstPassFlags(next, i, limit, current);
          SomeOfThem(Without(w.retained, i), w.retained, current);
          FlagsStay(StageWhole(next, i, limit).w.retained, next.retained, w.retained, current);
        }
      }
    }
  }

  lemma {:induction false} SecondPassFlags(w: World, limit: nat, current: bool)
    ensures FlagsFrom(RepairAll(w, limit).w.retained, w.retained, current)
    decreases |w.retained|
  {
    hide Stage, FlagsFrom, RepairHead;
    SomeOfThem(w.retained, w.retained, current);
    if w.retained != [] {
      var repaired := RepairHead(w);
      RepairingFlags(w, current);
      var step := Stage(repaired, repaired.retained[0].candle, limit);
      StagingAsksNothing(repaired, repaired.retained[0].candle, limit);
      if step.ok {
        var next := step.w.(retained := repaired.retained[1..]);
        SecondPassFlags(next, limit, current);
        SomeOfThem(repaired.retained[1..], repaired.retained, current);
        FlagsStay(RepairAll(next, limit).w.retained, next.retained, repaired.retained, current);
        FlagsStay(RepairAll(next, limit).w.retained, repaired.retained, w.retained, current);
      }
    }
  }

  lemma RepairingFlags(w: World, current: bool)
    requires w.retained != []
    ensures FlagsFrom(RepairHead(w).retained, w.retained, current)
  {
    var now := RepairHead(w).retained;
    forall i | 0 <= i < |now| ensures HasFlag(w.retained, now[i]) {
      assert SeriesOf(w.retained[i].candle) == SeriesOf(now[i].candle) && w.retained[i].candle.openTime == now[i].candle.openTime;
    }
  }

  lemma EmittingFlags(w: World, candles: seq<Candle>, current: bool, limit: nat)
    ensures FlagsFrom(Emit(w, candles, current, limit).w.retained, w.retained, current)
  {
    hide FlagsFrom, Retain, StageWhole, RepairAll, Drain;
    var v := Retain(w, candles, current);
    RetainingFlags(w, candles, current);
    var whole := StageWhole(v, 0, limit);
    FirstPassFlags(v, 0, limit, current);
    FlagsStay(whole.w.retained, v.retained, w.retained, current);
    if whole.ok {
      var drained := Drain(whole.w);
      if drained.ok {
        var repaired := RepairAll(drained.w, limit);
        SecondPassFlags(drained.w, limit, current);
        FlagsStay(repaired.w.retained, drained.w.retained, w.retained, current);
      }
    }
  }

  /** Whose close a repair keeps is settled when a bar is retired, and never changes: a tick or a pushed bar is the
      later price, a flush is what it was told it is, and nothing else retires a bar. */
  lemma TheFlagSaysWhoRetiredIt(w: World, cfg: Config, e: Event)
    requires Configured(w.feeds, cfg.series)
    ensures var v := Handle(w, cfg, e);
            if e.FlushEvent? then forall i :: 0 <= i < |v.retained| ==>
                v.retained[i].closeIsCurrent == e.closeIsCurrent || HasFlag(w.retained, v.retained[i])
            else forall i :: 0 <= i < |v.retained| ==> v.retained[i].closeIsCurrent || HasFlag(w.retained, v.retained[i])
  {
    hide HasFlag, FlagsFrom, Emit, MovedAll, Advance, Drain, FillGapBefore, AskHistory, MergeBehind, CheckPush, HandleRestore, Persisted;
    var current := if e.FlushEvent? then e.closeIsCurrent else true;
    var v := Handle(w, cfg, e);
    SomeOfThem(w.retained, w.retained, current);
    assert FlagsFrom(v.retained, w.retained, current) by {
      match e
      case TickEvent(tick) => TickFlags(w, cfg, tick);
      case FlushEvent(now, c) => FlushFlags(w, cfg, now, c);
      case PushEvent => PushFlags(w, cfg.limit);
      case _ =>
        RestoringRetains(w, cfg, e);
    }
    FlagsMean(v.retained, w.retained, current);
  }

  lemma FlagsMean(now: seq<Retired>, before: seq<Retired>, current: bool)
    requires FlagsFrom(now, before, current)
    ensures forall i :: 0 <= i < |now| ==> now[i].closeIsCurrent == current || HasFlag(before, now[i])
  {
    hide HasFlag;
  }

  lemma RestoringRetains(w: World, cfg: Config, e: Event)
    requires Configured(w.feeds, cfg.series) && !e.TickEvent? && !e.FlushEvent? && !e.PushEvent?
    ensures Handle(w, cfg, e).retained == w.retained
  {
    hide MovedAll, Advance, Drain, FillGapBefore, AskHistory, MergeBehind;
  }

  lemma ClearingFlags(w: World, limit: nat, current: bool)
    ensures FlagsFrom(ClearRetained(w, limit).w.retained, w.retained, current)
  {
    hide FlagsFrom, StageWhole, RepairAll, Drain;
    SomeOfThem(w.retained, w.retained, current);
    var whole := StageWhole(w, 0, limit);
    FirstPassFlags(w, 0, limit, current);
    if whole.ok {
      var drained := Drain(whole.w);
      if drained.ok {
        var repaired := RepairAll(drained.w, limit);
        SecondPassFlags(drained.w, limit, current);
        FlagsStay(repaired.w.retained, drained.w.retained, w.retained, current);
      }
    }
  }

  lemma MovingFlags(w: World, cleared: World, m: Closing, current: bool, limit: nat)
    requires FlagsFrom(cleared.retained, w.retained, current)
    ensures FlagsFrom(Emitted(cleared, m, current, limit).w.retained, w.retained, current)
  {
    hide FlagsFrom, Emit;
    EmittingFlags(cleared.(feeds := m.feeds), m.closed, current, limit);
    FlagsStay(Emitted(cleared, m, current, limit).w.retained, cleared.retained, w.retained, current);
  }

  lemma TickFlags(w: World, cfg: Config, tick: Tick)
    requires Configured(w.feeds, cfg.series)
    ensures FlagsFrom(HandleTick(w, cfg, tick).w.retained, w.retained, true)
  {
    hide FlagsFrom, Emitted, MovedAll, ClearRetained, SaveOpen, Tick.Price;
    ClearingFlags(w, cfg.limit, true);
    var cleared := ClearRetained(w, cfg.limit);
    if cleared.ok && tick.Price().Success? {
      var announced := if cfg.publishTicks then Await(Await(cleared.w).w) else Await(cleared.w);
      var op := OnTick(Quote(tick.ts, tick.Price().value, tick.volume));
      var m := MovedAll(announced.w.feeds, cfg.series, Some(tick.symbol), op);
      MovingFlags(w, announced.w, m, true, cfg.limit);
      PersistingIsQuiet(Emitted(announced.w, m, true, cfg.limit), cfg, tick.symbol);
    }
  }

  lemma FlushFlags(w: World, cfg: Config, now: nat, current: bool)
    requires Configured(w.feeds, cfg.series)
    ensures FlagsFrom(HandleFlush(w, cfg, now, current).w.retained, w.retained, current)
  {
    hide FlagsFrom, Emitted, MovedAll, ClearRetained;
    ClearingFlags(w, cfg.limit, current);
    var cleared := ClearRetained(w, cfg.limit);
    MovingFlags(w, cleared.w, MovedAll(cleared.w.feeds, cfg.series, None, OnFlush(now)), current, cfg.limit);
  }

  lemma PushFlags(w: World, limit: nat)
    ensures FlagsFrom(TakePush(w, limit).w.retained, w.retained, true)
  {
    hide FlagsFrom, Emit, IsNews;
    SomeOfThem(w.retained, w.retained, true);
    if w.waiting != [] {
      var c := w.waiting[0];
      EmittingFlags(w.(waiting := w.waiting[1..],
                       log := if IsNews(w, c) then w.log else w.log.(overtaken := w.log.overtaken + [c])), [c], true, limit);
    }
  }
}
