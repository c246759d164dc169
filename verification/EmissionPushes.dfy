/** Series fed by bars a vendor pushes already closed: over every run, which of them reach the outbox,
    in which order, and exactly when one is lost. */
module EmissionPushes {
  import opened Prelude
  import opened Timeframes
  import opened MarketData
  import opened ResamplerModel
  import opened ResamplerRuns
  import opened CandleStore
  import opened Backfill
  import opened Emission
  import opened EmissionLaws
  import opened EmissionRuns
  import opened EmissionProgress
  import opened EmissionWindows
  import opened PushedBars

  function WayOf(w: World, series: Series): Way {
    Way(RetainedOf(w.retained, series), CandlesOf(w.log.staged, series), Mark(w.store, series),
        CandlesOf(w.log.accepted, series), CandlesOf(w.log.swallowed, series))
  }

  /** The series' resampler has never heard a tick. */
  predicate IsSilent(w: World, series: Series) {
    series in w.feeds ==> w.feeds[series].lane.open.None? && w.feeds[series].lane.partialCloses == {}
  }

  ghost predicate SureOf(w: World, series: Series, bound: Option<nat>) {
    Sure(WayOf(w, series), bound) && IsSilent(w, series)
  }

  // ------------------------------------------------------------ from the world to a way

  lemma RetainedWithout(retained: seq<Retired>, i: nat, series: Series)
    requires i < |retained|
    ensures RetainedOf(retained, series)
         == RetainedOf(retained[..i], series) + (if SeriesOf(retained[i].candle) == series then [retained[i]] else [])
            + RetainedOf(retained[i + 1..], series)
    ensures RetainedOf(Without(retained, i), series) == RetainedOf(retained[..i], series) + RetainedOf(retained[i + 1..], series)
  {
    hide RetainedOf;
    var (a, one, b) := (retained[..i], [retained[i]], retained[i + 1..]);
    assert retained == a + one + b && Without(retained, i) == a + b;
    RetainedOfAppends(a + one, b, series);
    RetainedOfAppends(a, one, series);
    RetainedOfAppends(a, b, series);
    OneRetained(retained[i], series);
  }

  lemma {:induction false} RetainedMembers(retained: seq<Retired>, series: Series)
    ensures forall r :: r in RetainedOf(retained, series) <==> r in retained && SeriesOf(r.candle) == series
  {
    if retained != [] {
      RetainedMembers(Front(retained), series);
      assert retained == Front(retained) + [Last(retained)];
    }
  }

  /** Ahead of the first whole bar there are only partial ones, and none of a series without any. */
  lemma NoneAhead(retained: seq<Retired>, i: nat, series: Series)
    requires i <= |retained| && AllPartial(retained, i)
    requires forall r :: r in RetainedOf(retained, series) ==> !r.partial
    ensures RetainedOf(retained[..i], series) == []
  {
    RetainedMembers(retained, series);
    RetainedMembers(retained[..i], series);
    assert forall r :: r in retained[..i] ==> r in retained && r.partial;
    SomethingIsIn(RetainedOf(retained[..i], series));
  }

  lemma SomethingIsIn(retained: seq<Retired>)
    ensures retained == [] || exists r :: r in retained
  {
    if retained != [] {
      assert retained[0] in retained;
    }
  }

  lemma SureMeansWhole(w: World, series: Series, bound: Option<nat>)
    requires SureOf(w, series, bound)
    ensures forall r :: r in RetainedOf(w.retained, series) ==> !r.partial
  {
    hide StrictlyNewer, Pending, Except;
  }

  /** What staging the i-th retained bar does to a way, acknowledged (u) or not (v). */
  lemma StagedWays(w: World, i: nat, series: Series, limit: nat)
    requires i < |w.retained| && RetainedOf(w.retained[..i], series) == []
    ensures var (t, c) := (WayOf(w, series), w.retained[i].candle);
            var v := StageNow(Spent(w), c, limit);
            var u := v.(retained := Without(w.retained, i));
            if SeriesOf(c) == series then
              && t.retained != [] && t.retained[0] == w.retained[i]
              && WayOf(v, series) == StagedWay(t) && WayOf(u, series) == StagedWay(t).(retained := t.retained[1..])
            else WayOf(v, series) == t && WayOf(u, series) == t
  {
    hide CandlesOf, RetainedOf, Without;
    var c := w.retained[i].candle;
    RetainedWithout(w.retained, i, series);
    CandlesOfAppends(w.log.staged, [c], series);
    OneCandle(c, series);
    assert CandlesOf(w.log.staged, series) + [] == CandlesOf(w.log.staged, series);
    assert [] + [w.retained[i]] + RetainedOf(w.retained[i + 1..], series) == [w.retained[i]] + RetainedOf(w.retained[i + 1..], series);
    assert [] + [] + RetainedOf(w.retained[i + 1..], series) == RetainedOf(w.retained[i + 1..], series);
  }

  lemma StageOneIsSure(w: World, i: nat, series: Series, limit: nat, bound: Option<nat>)
    requires SureOf(w, series, bound) && i < |w.retained| && AllPartial(w.retained, i)
    ensures var step := Stage(w, w.retained[i].candle, limit);
            && SureOf(step.w, series, bound)
            && (step.ok ==> SureOf(step.w.(retained := Without(w.retained, i)), series, bound))
  {
    hide Sure, WayOf, StageNow, StagedWay, Without, AllPartial, RetainedOf;
    SureMeansWhole(w, series, bound);
    NoneAhead(w.retained, i, series);
    StagedWays(w, i, series, limit);
    StageNowKeepsTheRest(Spent(w), w.retained[i].candle, limit);
    SpentWay(w, series);
    if SeriesOf(w.retained[i].candle) == series {
      StagingIsSure(WayOf(w, series), bound);
    }
  }

  lemma SpentWay(w: World, series: Series)
    ensures WayOf(Spent(w), series) == WayOf(w, series)
  {
  }

  lemma {:induction false} StageWholeIsSure(w: World, i: nat, series: Series, limit: nat, bound: Option<nat>)
    requires SureOf(w, series, bound) && i <= |w.retained| && AllPartial(w.retained, i)
    ensures var call := StageWhole(w, i, limit);
            && SureOf(call.w, series, bound)
            && (call.ok ==> AllPartial(call.w.retained, |call.w.retained|))
    decreases |w.retained| - i
  {
    hide SureOf, Stage;
    if i < |w.retained| {
      if w.retained[i].partial {
        StageWholeIsSure(w, i + 1, series, limit, bound);
      } else {
        var step := Stage(w, w.retained[i].candle, limit);
        StageOneIsSure(w, i, series, limit, bound);
        if step.ok {
          StageWholeIsSure(step.w.(retained := Without(w.retained, i)), i, series, limit, bound);
        }
      }
    }
  }

  lemma DrainIsSure(w: World, series: Series, bound: Option<nat>)
    requires SureOf(w, series, bound)
    ensures SureOf(Drain(w).w, series, bound)
  {
    hide Sure, Drain;
    DrainKeepsTracks(w);
    DrainKeepsPushLog(w);
  }

  /** The log tells the same of pushed bars. */
  predicate SamePushLog(w: World, v: World) {
    SameLosses(w, v) && v.log.accepted == w.log.accepted
  }

  /** And the same of those that were lost. */
  predicate SameLosses(w: World, v: World) {
    v.log.missed == w.log.missed && v.log.overtaken == w.log.overtaken && v.log.swallowed == w.log.swallowed
  }

  lemma {:induction false} DrainKeepsPushLog(w: World)
    ensures SamePushLog(w, Drain(w).w)
    decreases |w.store.outbox|
  {
    var peeked := Spent(w);
    if NextOutcome(w) == Done && w.store.outbox != [] {
      var published := Publish(peeked);
      if published.ok {
        var acked := Ack(published.w);
        if acked.ok {
          DrainKeepsPushLog(acked.w);
        }
      }
    }
  }

  /** Repairing the bars of other series. */
  lemma {:induction false} RepairAllElsewhere(w: World, series: Series, limit: nat)
    requires RetainedOf(w.retained, series) == []
    ensures WayOf(RepairAll(w, limit).w, series) == WayOf(w, series)
    decreases |w.retained|
  {
    hide Stage, WayOf, RetainedOf, Repaired;
    if w.retained != [] {
      var (r, repaired) := (w.retained[0], RepairHead(w));
      RepairKeepsSeries(r, NextReply(w));
      FirstRetained(w.retained, series);
      FirstRetained(repaired.retained, series);
      RepairedElsewhere(w, series);
      var step := Stage(repaired, repaired.retained[0].candle, limit);
      StagedElsewhere(repaired, repaired.retained[0].candle, limit, series);
      if step.ok {
        var next := step.w.(retained := repaired.retained[1..]);
        SameRetained(step.w, next, series);
        RepairAllElsewhere(next, series, limit);
      }
    }
  }

  lemma RepairedElsewhere(w: World, series: Series)
    requires w.retained != [] && RetainedOf(RepairHead(w).retained, series) == RetainedOf(w.retained, series)
    ensures WayOf(RepairHead(w), series) == WayOf(w, series)
  {
    hide RetainedOf, CandlesOf, Repaired;
  }

  lemma StagedElsewhere(w: World, c: Candle, limit: nat, series: Series)
    requires SeriesOf(c) != series
    ensures WayOf(Stage(w, c, limit).w, series) == WayOf(w, series) && Stage(w, c, limit).w.retained == w.retained
  {
    hide RetainedOf;
    CandlesOfAppends(w.log.staged, [c], series);
    OneCandle(c, series);
    hide CandlesOf;
    assert CandlesOf(w.log.staged, series) + [] == CandlesOf(w.log.staged, series);
  }

  lemma SameRetained(w: World, v: World, series: Series)
    requires v == w.(retained := v.retained) && RetainedOf(v.retained, series) == RetainedOf(w.retained, series)
    ensures WayOf(v, series) == WayOf(w, series)
  {
    hide RetainedOf, CandlesOf;
  }

  lemma RepairAllIsSure(w: World, series: Series, limit: nat, bound: Option<nat>)
    requires SureOf(w, series, bound) && AllPartial(w.retained, |w.retained|)
    ensures SureOf(RepairAll(w, limit).w, series, bound)
  {
    hide Sure, RepairAll, WayOf, RetainedOf, AllPartial;
    SureMeansWhole(w, series, bound);
    NoneAhead(w.retained, |w.retained|, series);
    assert w.retained[..|w.retained|] == w.retained;
    RepairAllElsewhere(w, series, limit);
  }

  lemma SendOutIsSure(w: World, series: Series, limit: nat, bound: Option<nat>)
    requires SureOf(w, series, bound)
    ensures SureOf(SendOut(w, limit).w, series, bound)
  {
    hide SureOf, StageWhole, Drain, RepairAll;
    StageWholeIsSure(w, 0, series, limit, bound);
    var whole := StageWhole(w, 0, limit);
    if whole.ok {
      DrainIsSure(whole.w, series, bound);
      var drained := Drain(whole.w);
      if drained.ok {
        RepairAllIsSure(drained.w, series, limit, bound);
        DrainIsSure(RepairAll(drained.w, limit).w, series, bound);
      }
    }
  }

  // ------------------------------------------------------------ handing bars over

  lemma RetainingElsewhereIsSure(w: World, c: Candle, current: bool, series: Series, bound: Option<nat>)
    requires SureOf(w, series, bound) && SeriesOf(c) != series
    ensures SureOf(RetainOne(w, c, current), series, bound)
  {
    hide Sure, CandlesOf, RetainedOf, Advance, IsRetained, IsNews;
    RetainedOfAppends(w.retained, [Retired(c, WasPartial(w, c), current)], series);
    OneRetained(Retired(c, WasPartial(w, c), current), series);
    CandlesOfAppends(w.log.accepted, [c], series);
    OneCandle(c, series);
    assert CandlesOf(w.log.accepted, series) + [] == CandlesOf(w.log.accepted, series);
    assert RetainedOf(w.retained, series) + [] == RetainedOf(w.retained, series);
    assert WayOf(RetainOne(w, c, current), series) == WayOf(w, series);
  }

  /** News is what nothing of the series has reached. */
  lemma NewsIsUnreached(w: World, c: Candle)
    ensures IsNews(w, c) <==> !IsReached(WayOf(w, SeriesOf(c)), c.openTime)
    ensures IsRetained(w.retained, c) ==> IsReached(WayOf(w, SeriesOf(c)), c.openTime)
  {
    hide CandlesOf;
    var (s, own) := (SeriesOf(c), RetainedOf(w.retained, SeriesOf(c)));
    RetainedMembers(w.retained, s);
    DuplicateIsBehindTheMark(w.store, c);
    if !AllOlder(own, c.openTime) {
      var i :| 0 <= i < |own| && own[i].candle.openTime >= c.openTime;
      assert own[i] in own;
    }
    forall i | 0 <= i < |w.retained| && SeriesOf(w.retained[i].candle) == s && w.retained[i].candle.openTime >= c.openTime
      ensures !AllOlder(own, c.openTime)
    {
      assert w.retained[i] in own;
    }
  }

  lemma SilentTakes(w: World, c: Candle, series: Series)
    requires IsSilent(w, series) && SeriesOf(c) == series
    ensures !WasPartial(w, c) && IsSilent(w.(feeds := Asked(w, c)), series)
  {
  }

  lemma HandedOverWay(w: World, c: Candle, current: bool, series: Series)
    requires IsSilent(w, series) && SeriesOf(c) == series
    ensures var v := RetainOne(w, c, current);
            && IsSilent(v, series)
            && WayOf(v, series) == if IsRetained(w.retained, c) then WayOf(w, series) else HandedOver(WayOf(w, series), c, current)
  {
    hide CandlesOf, RetainedOf, Advance, IsRetained, IsNews, IsReached, IsSilent, WasPartial;
    SilentTakes(w, c, series);
    NewsIsUnreached(w, c);
    RetainedOfAppends(w.retained, [Retired(c, false, current)], series);
    OneRetained(Retired(c, false, current), series);
    CandlesOfAppends(w.log.accepted, [c], series);
    OneCandle(c, series);
    if !IsRetained(w.retained, c) {
      SilenceIsInTheFeed(w.(feeds := Asked(w, c)), RetainOne(w, c, current), series);
    }
  }

  /** Silence is a matter of the feeds alone. */
  lemma SilenceIsInTheFeed(w: World, v: World, series: Series)
    requires v.feeds == w.feeds
    ensures IsSilent(v, series) <==> IsSilent(w, series)
  {
  }

  lemma RetainingOwnIsSure(w: World, c: Candle, current: bool, series: Series, bound: Option<nat>)
    requires SureOf(w, series, bound) && SeriesOf(c) == series && (bound.Some? ==> c.openTime < bound.value)
    ensures SureOf(RetainOne(w, c, current), series, bound)
  {
    hide Sure, WayOf, HandedOver, IsRetained, RetainOne, IsSilent;
    HandedOverWay(w, c, current, series);
    HandingOverIsSure(WayOf(w, series), c, current, bound);
  }

  lemma {:induction false} RetainElsewhereIsSure(w: World, candles: seq<Candle>, current: bool, series: Series, bound: Option<nat>)
    requires SureOf(w, series, bound) && CandlesOf(candles, series) == []
    ensures SureOf(Retain(w, candles, current), series, bound)
    decreases |candles|
  {
    hide SureOf, RetainOne, CandlesOf;
    if candles != [] {
      FirstPending(candles, series);
      RetainingElsewhereIsSure(w, candles[0], current, series, bound);
      RetainElsewhereIsSure(RetainOne(w, candles[0], current), candles[1..], current, series, bound);
    }
  }

  lemma EmitElsewhereIsSure(w: World, candles: seq<Candle>, current: bool, limit: nat, series: Series, bound: Option<nat>)
    requires SureOf(w, series, bound) && CandlesOf(candles, series) == []
    ensures SureOf(Emit(w, candles, current, limit).w, series, bound)
  {
    hide SureOf, Retain, SendOut;
    RetainElsewhereIsSure(w, candles, current, series, bound);
    SendOutIsSure(Retain(w, candles, current), series, limit, bound);
  }

  lemma EmitOwnIsSure(w: World, c: Candle, current: bool, limit: nat, series: Series, bound: Option<nat>)
    requires SureOf(w, series, bound) && SeriesOf(c) == series && (bound.Some? ==> c.openTime < bound.value)
    ensures SureOf(Emit(w, [c], current, limit).w, series, bound)
  {
    hide SureOf, SendOut, RetainOne;
    RetainingOwnIsSure(w, c, current, series, bound);
    assert [c][1..] == [];
    assert Retain(w, [c], current) == RetainOne(w, c, current);
    SendOutIsSure(Retain(w, [c], current), series, limit, bound);
  }

  // ------------------------------------------------------------ the gap check

  lemma {:induction false} AllOwn(candles: seq<Candle>, series: Series)
    requires forall c :: c in candles ==> SeriesOf(c) == series
    ensures CandlesOf(candles, series) == candles
    ensures forall other :: other != series ==> CandlesOf(candles, other) == []
  {
    if candles != [] {
      assert candles == Front(candles) + [Last(candles)];
      AllOwn(Front(candles), series);
    }
  }

  lemma {:induction false} PendingComesFrom(retained: seq<Retired>, level: Option<nat>)
    ensures forall c :: c in Pending(retained, level) ==> exists r :: r in retained && r.candle == c
    decreases |retained|
  {
    if retained != [] {
      PendingComesFrom(retained[1..], level);
      PendingComesFrom(retained[1..], Some(retained[0].candle.openTime));
      assert retained[0] in retained;
    }
  }

  lemma OnTheWayIsOwn(w: World, series: Series, t: nat)
    ensures forall c :: c in UpTo(OnTheWay(w, series), t) ==> SeriesOf(c) == series
  {
    hide RetainedOf, Pending, UpTo;
    UpToMembers(OnTheWay(w, series), t);
    PendingComesFrom(RetainedOf(w.retained, series), Mark(w.store, series));
    RetainedMembers(w.retained, series);
  }

  /** What a write behind the watermark does to its series' way. */
  lemma WrittenWay(w: World, series: Series, plan: Plan, limit: nat)
    requires plan.Write? ==> plan.changed != []
    ensures var (t, v) := (WayOf(w, series), WayOf(WritePlan(w, series, plan, limit), series));
            if plan.Rest? || NextOutcome(w) == Failed then v == t else v == MergedWay(t, Newest(plan.changed))
  {
    hide CandlesOf, RetainedOf, Pending, UpTo, Newest;
    if plan.Write? {
      var taken := UpTo(OnTheWay(w, series), Newest(plan.changed));
      OnTheWayIsOwn(w, series, Newest(plan.changed));
      AllOwn(taken, series);
      CandlesOfAppends(w.log.swallowed, taken, series);
    }
  }

  lemma WrittenElsewhere(w: World, written: Series, plan: Plan, limit: nat, series: Series)
    requires (plan.Write? ==> plan.changed != []) && series != written
    ensures WayOf(WritePlan(w, written, plan, limit), series) == WayOf(w, series)
  {
    hide CandlesOf, RetainedOf, Pending, UpTo, Newest;
    if plan.Write? {
      var taken := UpTo(OnTheWay(w, written), Newest(plan.changed));
      OnTheWayIsOwn(w, written, Newest(plan.changed));
      AllOwn(taken, written);
      CandlesOfAppends(w.log.swallowed, taken, series);
      assert CandlesOf(w.log.swallowed, series) + [] == CandlesOf(w.log.swallowed, series);
    }
  }

  /** The world the gap check plans in, when it gets that far. */
  function AskedFor(w: World, c: Candle, now: nat): World {
    Spent(w).(gap := w.gap.(askedAt := w.gap.askedAt[SeriesOf(c) := now]))
  }

  predicate Asks(w: World, cfg: Config, c: Candle, now: nat) {
    && c.symbol in cfg.targets && NextOutcome(w) == Done && LeavesAGap(w.store, c)
    && !CoolingDown(w.gap, SeriesOf(c), cfg.cooldown, now) && Listens(cfg, c.symbol)
  }

  function PlanFor(w: World, cfg: Config, c: Candle, now: nat, answer: Reply): (plan: Plan)
    requires c.symbol in cfg.targets
    ensures plan.Write? ==> plan.changed != []
  {
    PlanSeries(w.store, SeriesOf(c), cfg.targets[c.symbol], Some(c.openTime), now, answer, false, false)
  }

  lemma FillingIs(w: World, cfg: Config, c: Candle, now: nat, answer: Reply)
    ensures var v := FillGapBefore(w, cfg, c, now, answer).w;
            if Asks(w, cfg, c, now) then v == WritePlan(AskedFor(w, c, now), SeriesOf(c), PlanFor(w, cfg, c, now, answer), cfg.limit)
            else v == w.(script := v.script, gap := v.gap, log := w.log.(missed := v.log.missed))
  {
    hide PlanSeries, WritePlan, LeavesAGap, Listens;
  }

  lemma QuietWay(w: World, v: World, series: Series)
    requires v == w.(script := v.script, gap := v.gap, log := w.log.(missed := v.log.missed))
    ensures WayOf(v, series) == WayOf(w, series) && (IsSilent(v, series) <==> IsSilent(w, series))
  {
  }

  lemma AsksItsTarget(w: World, cfg: Config, c: Candle, now: nat)
    requires Asks(w, cfg, c, now)
    ensures c.symbol in cfg.targets
  {
  }

  /** The newest bar of a planned write is older than the close that asked, on a sorted window. */
  lemma PlanEndsBeforeTheClose(w: World, cfg: Config, c: Candle, now: nat, answer: Reply)
    requires c.symbol in cfg.targets && WindowKept(w.store, SeriesOf(c)) && cfg.limit > 0
    ensures var plan := PlanFor(w, cfg, c, now, answer);
            plan.Write? ==> Newest(plan.changed) < c.openTime
  {
    hide WindowKept, NeedsNothing, PlanAnswer, Written, Newest;
    if answer.Answer? {
      var fetched := Usable(SeriesOf(c), answer.rows, now, Some(c.openTime));
      if PlanAnswer(w.store, SeriesOf(c), fetched, false).Write? {
        AnswerKeepsWindow(w.store, SeriesOf(c), fetched, cfg.limit, c.openTime);
      }
    }
  }

  /** The newest bar an event writes behind the live path of a series, if it does. */
  function Reaches(w: World, cfg: Config, e: Event, series: Series): Option<nat> {
    match e
    case CheckEvent(c, now, answer) =>
      if SeriesOf(c) == series && IsFinished(c, now) && Asks(w, cfg, c, now) && PlanFor(w, cfg, c, now, answer).Write?
         && NextOutcome(Spent(w)) != Failed
      then Some(Newest(PlanFor(w, cfg, c, now, answer).changed)) else None
    case HistoryEvent(asked, now, answer) =>
      if asked == series && series.symbol in cfg.targets && HistoryPlan(w, cfg, series, now, answer).Write? && NextOutcome(w) != Failed
      then Some(Newest(HistoryPlan(w, cfg, series, now, answer).changed)) else None
    case MergeEvent(merged, candles) =>
      if merged == series && CandlesOf(candles, series) != [] && NextOutcome(w) != Failed
      then Some(Newest(CandlesOf(candles, series))) else None
    case _ => None
  }

  /** What the history loop plans: nothing is cut off. */
  function HistoryPlan(w: World, cfg: Config, series: Series, now: nat, answer: Reply): (plan: Plan)
    requires series.symbol in cfg.targets
    ensures plan.Write? ==> plan.changed != []
  {
    PlanSeries(w.store, series, cfg.targets[series.symbol], None, now, answer, false, false)
  }

  predicate IsWithin(reach: Option<nat>, bound: Option<nat>) {
    reach.Some? && bound.Some? ==> reach.value < bound.value
  }

  lemma WritingIsSure(w: World, written: Series, plan: Plan, limit: nat, gap: Gap, series: Series, bound: Option<nat>)
    requires SureOf(w, series, bound) && (plan.Write? ==> plan.changed != [])
    requires written == series && plan.Write? && NextOutcome(w) != Failed ==> IsWithin(Some(Newest(plan.changed)), bound)
    ensures SureOf(WritePlan(w, written, plan, limit).(gap := gap), series, bound)
  {
    hide Sure, WayOf, WritePlan, IsSilent, Newest, MergedWay;
    var v := WritePlan(w, written, plan, limit);
    if written == series {
      WrittenWay(w, series, plan, limit);
      if plan.Write? && NextOutcome(w) != Failed {
        MergingIsSure(WayOf(w, series), Newest(plan.changed), bound);
      }
    } else {
      WrittenElsewhere(w, written, plan, limit, series);
    }
    SilenceIsInTheFeed(w, v.(gap := gap), series);
    QuietWay(v, v.(gap := gap), series);
  }

  lemma FillingIsSure(w: World, cfg: Config, c: Candle, now: nat, answer: Reply, series: Series, bound: Option<nat>)
    requires SureOf(w, series, bound) && IsFinished(c, now)
    requires IsWithin(Reaches(w, cfg, CheckEvent(c, now, answer), series), bound)
    ensures SureOf(FillGapBefore(w, cfg, c, now, answer).w, series, bound)
  {
    hide Sure, WayOf, FillGapBefore, Asks, PlanFor, WritePlan, IsSilent, Newest, IsFinished;
    FillingIs(w, cfg, c, now, answer);
    var v := FillGapBefore(w, cfg, c, now, answer).w;
    if Asks(w, cfg, c, now) {
      AsksItsTarget(w, cfg, c, now);
      var (asked, plan) := (AskedFor(w, c, now), PlanFor(w, cfg, c, now, answer));
      QuietWay(w, asked, series);
      WritingIsSure(asked, SeriesOf(c), plan, cfg.limit, v.gap, series, bound);
    } else {
      QuietWay(w, v, series);
    }
  }

  // ------------------------------------------------------------ one event at a time

  ghost predicate Certain(w: World, series: Series, bound: Option<nat>) {
    SureOf(w, series, bound) && AllLabelled(w.feeds) && series in w.feeds
  }

  /** The moves that leave a silent series silent: ticks of other symbols, flushes and joins. */
  predicate Spares(op: LaneOp, symbol: Option<string>, series: Series) {
    op.OnFlush? || op.OnJoin? || (op.OnTick? && symbol.Some? && symbol.value != series.symbol)
  }

  lemma SilentLaneStaysSilent(f: Feed, series: Series, op: LaneOp)
    requires f.lane.open.None? && f.lane.partialCloses == {} && (op.OnFlush? || op.OnJoin?)
    ensures var g := Advance(f, series.symbol, series.timeframe, op);
            g.lane.open.None? && g.lane.partialCloses == {} && NewlyClosed(f, g) == []
  {
  }

  lemma MovingIsCertain(w: World, cfg: Config, symbol: Option<string>, op: LaneOp, series: Series, bound: Option<nat>)
    requires Certain(w, series, bound) && Configured(w.feeds, cfg.series) && Distinct(cfg.series) && Spares(op, symbol, series)
    ensures var m := MovedAll(w.feeds, cfg.series, symbol, op);
            Certain(w.(feeds := m.feeds), series, bound) && CandlesOf(m.closed, series) == []
  {
    hide Sure, Advance, NewlyClosed, CandlesOf, AllLabelled, Distinct, RetainedOf;
    MovedPerSeries(w.feeds, cfg.series, symbol, op, series);
    if series in cfg.series && Selected(series, symbol) {
      SilentLaneStaysSilent(w.feeds[series], series, op);
    }
  }

  lemma EmittingIsCertain(w: World, candles: seq<Candle>, current: bool, limit: nat, series: Series, bound: Option<nat>)
    requires Certain(w, series, bound) && CandlesOf(candles, series) == []
    ensures Certain(Emit(w, candles, current, limit).w, series, bound)
  {
    hide SureOf, AllLabelled, Retain, SendOut, CandlesOf;
    EmitElsewhereIsSure(w, candles, current, limit, series, bound);
    RetainKeepsLabels(w, candles, current);
  }

  lemma ClearingIsCertain(w: World, limit: nat, series: Series, bound: Option<nat>)
    requires Certain(w, series, bound)
    ensures Certain(ClearRetained(w, limit).w, series, bound)
  {
    hide Certain, Emit;
    NoCandles(series);
    EmittingIsCertain(w, [], true, limit, series, bound);
  }

  lemma QuietIsCertain(w: World, v: World, series: Series, bound: Option<nat>)
    requires Certain(w, series, bound)
    requires v == w.(script := v.script, waiting := v.waiting, gap := v.gap, store := w.store.(open := v.store.open),
                     log := w.log.(missed := v.log.missed, overtaken := v.log.overtaken))
    ensures Certain(v, series, bound)
  {
    hide Sure, CandlesOf, RetainedOf, AllLabelled;
    assert WayOf(v, series) == WayOf(w, series);
  }

  lemma TickIsCertain(w: World, cfg: Config, tick: Tick, series: Series, bound: Option<nat>)
    requires Certain(w, series, bound) && Configured(w.feeds, cfg.series) && Distinct(cfg.series) && tick.symbol != series.symbol
    ensures Certain(HandleTick(w, cfg, tick).w, series, bound)
  {
    hide Certain, Distinct, ClearRetained, Emit, MovedAll, Listens, Persisted, CandlesOf;
    ClearingIsCertain(w, cfg.limit, series, bound);
    var cleared := ClearRetained(w, cfg.limit);
    var remembered := Await(cleared.w);
    QuietIsCertain(cleared.w, remembered.w, series, bound);
    var announced := if cfg.publishTicks then Await(remembered.w) else remembered;
    QuietIsCertain(remembered.w, announced.w, series, bound);
    if cleared.ok && tick.Price().Success? {
      var op := OnTick(Quote(tick.ts, tick.Price().value, tick.volume));
      MovingIsCertain(announced.w, cfg, Some(tick.symbol), op, series, bound);
      var m := MovedAll(announced.w.feeds, cfg.series, Some(tick.symbol), op);
      EmittingIsCertain(announced.w.(feeds := m.feeds), m.closed, true, cfg.limit, series, bound);
      var emitted := Emitted(announced.w, m, true, cfg.limit);
      PersistingIsQuiet(emitted, cfg, tick.symbol);
      QuietIsCertain(emitted.w, Persisted(emitted, cfg, tick.symbol).w, series, bound);
    }
  }

  lemma FlushIsCertain(w: World, cfg: Config, now: nat, current: bool, series: Series, bound: Option<nat>)
    requires Certain(w, series, bound) && Configured(w.feeds, cfg.series) && Distinct(cfg.series)
    ensures Certain(HandleFlush(w, cfg, now, current).w, series, bound)
  {
    hide Certain, Distinct, ClearRetained, Emit, MovedAll, CandlesOf;
    ClearingIsCertain(w, cfg.limit, series, bound);
    var cleared := ClearRetained(w, cfg.limit);
    if cleared.ok {
      MovingIsCertain(cleared.w, cfg, None, OnFlush(now), series, bound);
      var m := MovedAll(cleared.w.feeds, cfg.series, None, OnFlush(now));
      EmittingIsCertain(cleared.w.(feeds := m.feeds), m.closed, current, cfg.limit, series, bound);
    }
  }

  /** The world once the callback whose turn it is has its bar in hand. */
  function Taken(w: World): World
    requires w.waiting != []
  {
    w.(waiting := w.waiting[1..],
       log := if IsNews(w, w.waiting[0]) then w.log else w.log.(overtaken := w.log.overtaken + [w.waiting[0]]))
  }

  /** A pushed bar, of this series or another, when its turn comes. */
  lemma PushIsCertain(w: World, limit: nat, series: Series, bound: Option<nat>)
    requires Certain(w, series, bound)
    requires w.waiting != [] && SeriesOf(w.waiting[0]) == series ==> IsWithin(Some(w.waiting[0].openTime), bound)
    ensures Certain(TakePush(w, limit).w, series, bound)
  {
    hide SureOf, AllLabelled, Emit, IsNews;
    if w.waiting != [] {
      var c := w.waiting[0];
      QuietIsCertain(w, Taken(w), series, bound);
      if SeriesOf(c) == series {
        EmitOwnIsSure(Taken(w), c, true, limit, series, bound);
      } else {
        NoneOf(c, series);
        EmitElsewhereIsSure(Taken(w), [c], true, limit, series, bound);
      }
      EmitKeepsLabels(Taken(w), [c], true, limit);
    }
  }

  lemma CheckIsCertain(w: World, cfg: Config, c: Candle, now: nat, answer: Reply, series: Series, bound: Option<nat>)
    requires Certain(w, series, bound) && IsWithin(Reaches(w, cfg, CheckEvent(c, now, answer), series), bound)
    ensures Certain(CheckPush(w, cfg, c, now, answer).w, series, bound)
  {
    hide SureOf, AllLabelled, FillGapBefore, IsFinished, Reaches;
    if IsFinished(c, now) {
      FillingIsSure(w, cfg, c, now, answer, series, bound);
      var filled := FillGapBefore(w, cfg, c, now, answer).w;
      QuietIsCertain(filled, filled.(waiting := filled.waiting + [c]), series, bound);
    }
  }

  lemma HistoryIsCertain(w: World, cfg: Config, e: Event, series: Series, bound: Option<nat>)
    requires Certain(w, series, bound) && Configured(w.feeds, cfg.series) && (e.HistoryEvent? || e.MergeEvent?)
    requires IsWithin(Reaches(w, cfg, e, series), bound)
    ensures Certain(Handle(w, cfg, e), series, bound)
  {
    hide SureOf, AllLabelled, WritePlan, PlanSeries, Newest, CandlesOf;
    match e
    case HistoryEvent(asked, now, answer) =>
      if asked.symbol in cfg.targets {
        WritingIsSure(w, asked, HistoryPlan(w, cfg, asked, now, answer), cfg.limit, Handle(w, cfg, e).gap, series, bound);
      } else {
        QuietIsCertain(w, Handle(w, cfg, e), series, bound);
      }
    case MergeEvent(merged, candles) =>
      var incoming := CandlesOf(candles, merged);
      if incoming != [] {
        WritingIsSure(w, merged, Write(incoming, incoming), cfg.limit, w.gap, series, bound);
      }
    case _ =>
  }

  lemma DrainingIsCertain(w: World, series: Series, bound: Option<nat>)
    requires Certain(w, series, bound)
    ensures Certain(Drain(w).w, series, bound)
  {
    hide SureOf, AllLabelled, Drain;
    DrainIsSure(w, series, bound);
  }

  lemma NoneOf(c: Candle, series: Series)
    requires SeriesOf(c) != series
    ensures CandlesOf([c], series) == []
  {
    OneCandle(c, series);
  }

  lemma EmitKeepsLabels(w: World, candles: seq<Candle>, current: bool, limit: nat)
    requires AllLabelled(w.feeds)
    ensures AllLabelled(Emit(w, candles, current, limit).w.feeds)
  {
    hide AllLabelled, Retain, SendOut;
    RetainKeepsLabels(w, candles, current);
  }

  lemma RestoreIsCertain(w: World, c: Candle, series: Series, bound: Option<nat>)
    requires Certain(w, series, bound) && SeriesOf(c) != series
    ensures Certain(HandleRestore(w, c), series, bound)
  {
    hide Sure, Advance, CandlesOf, RetainedOf;
    var s := SeriesOf(c);
    if s in w.feeds {
      RestoreIsQuiet(w.feeds[s], s, c);
    }
    assert WayOf(HandleRestore(w, c), series) == WayOf(w, series);
  }

  lemma JoinIsCertain(w: World, cfg: Config, moment: nat, series: Series, bound: Option<nat>)
    requires Certain(w, series, bound) && Configured(w.feeds, cfg.series) && Distinct(cfg.series)
    ensures Certain(Handle(w, cfg, JoinEvent(moment)), series, bound)
  {
    hide Certain, Distinct, MovedAll, CandlesOf;
    MovingIsCertain(w, cfg, None, OnJoin(moment), series, bound);
  }

  // ------------------------------------------------------------ whole runs

  /** The series' bars are pushed by a vendor: its resampler hears no tick and resumes no bar. */
  predicate BarFed(events: seq<Event>, series: Series) {
    forall e :: e in events ==>
      && (e.TickEvent? ==> e.tick.symbol != series.symbol)
      && (e.RestoreEvent? ==> SeriesOf(e.candle) != series)
  }

  predicate SparesSeries(e: Event, series: Series) {
    (e.TickEvent? ==> e.tick.symbol != series.symbol) && (e.RestoreEvent? ==> SeriesOf(e.candle) != series)
  }

  /** The head of the queue is this series' own. */
  predicate IsNext(w: World, series: Series) {
    w.waiting != [] && SeriesOf(w.waiting[0]) == series
  }

  lemma EventIsCertain(w: World, cfg: Config, e: Event, series: Series, bound: Option<nat>)
    requires Certain(w, series, bound) && Configured(w.feeds, cfg.series) && Distinct(cfg.series) && SparesSeries(e, series)
    requires IsWithin(Reaches(w, cfg, e, series), bound)
    requires e.PushEvent? && IsNext(w, series) ==> IsWithin(Some(w.waiting[0].openTime), bound)
    ensures Certain(Handle(w, cfg, e), series, bound)
  {
    hide Certain, HandleTick, HandleFlush, CheckPush, TakePush, HandleRestore, Distinct, Drain, AskHistory, MergeBehind, Reaches, IsWithin;
    match e
    case TickEvent(tick) => TickIsCertain(w, cfg, tick, series, bound);
    case FlushEvent(now, current) => FlushIsCertain(w, cfg, now, current, series, bound);
    case DrainEvent => DrainingIsCertain(w, series, bound);
    case CheckEvent(c, now, answer) => CheckIsCertain(w, cfg, c, now, answer, series, bound);
    case PushEvent => PushIsCertain(w, cfg.limit, series, bound);
    case HistoryEvent(asked, now, answer) => HistoryIsCertain(w, cfg, e, series, bound);
    case MergeEvent(merged, candles) => HistoryIsCertain(w, cfg, e, series, bound);
    case RestoreEvent(c) => RestoreIsCertain(w, c, series, bound);
    case JoinEvent(moment) => JoinIsCertain(w, cfg, moment, series, bound);
  }

  lemma {:induction false} EveryRunIsCertain(cfg: Config, boot: Boot, events: seq<Event>, series: Series)
    requires Distinct(cfg.series) && series in cfg.series && BarFed(events, series)
    ensures Certain(RunEvents(cfg, boot, events), series, None)
  {
    hide Certain, Handle, Distinct;
    if events == [] {
      StartIsCertain(cfg, boot, series, None);
    } else {
      assert Last(events) in events && forall e :: e in Front(events) ==> e in events;
      EveryRunIsCertain(cfg, boot, Front(events), series);
      EventIsCertain(RunEvents(cfg, boot, Front(events)), cfg, Last(events), series, None);
    }
  }

  lemma StartIsCertain(cfg: Config, boot: Boot, series: Series, bound: Option<nat>)
    requires series in cfg.series && IsWithin(Mark(boot.store, series), bound)
    ensures Certain(Started(cfg, boot), series, bound)
  {
  }

  /** Whatever the service started on and whatever fails: the bars of the series that were accepted, less
      those that merged history has swallowed, are exactly the bars staged followed by the bars still on their way, in order and each
      newer than the one before. */
  lemma AcceptedBarsAreStagedOrOnTheirWay(cfg: Config, boot: Boot, events: seq<Event>, series: Series)
    requires Distinct(cfg.series) && series in cfg.series && BarFed(events, series)
    ensures var w := RunEvents(cfg, boot, events);
            var (accepted, swallowed) := (CandlesOf(w.log.accepted, series), CandlesOf(w.log.swallowed, series));
            && CandlesOf(w.log.staged, series) + OnTheWay(w, series) == Except(accepted, swallowed)
            && StrictlyNewer(accepted)
            && (forall c :: c in swallowed ==> c in accepted)
  {
    hide RunEvents;
    EveryRunIsCertain(cfg, boot, events, series);
    hide StrictlyNewer, Pending, Except, CandlesOf, RetainedOf;
  }

  // ------------------------------------------------------------ which pushed bars are accepted

  lemma {:induction false} StagingAcceptsNothing(w: World, i: nat, limit: nat)
    requires i <= |w.retained|
    ensures var v := StageWhole(w, i, limit).w;
            SamePushLog(w, v)
    decreases |w.retained| - i
  {
    if i < |w.retained| {
      if w.retained[i].partial {
        StagingAcceptsNothing(w, i + 1, limit);
      } else {
        var step := Stage(w, w.retained[i].candle, limit);
        if step.ok {
          StagingAcceptsNothing(step.w.(retained := Without(w.retained, i)), i, limit);
        }
      }
    }
  }

  lemma {:induction false} RepairingAcceptsNothing(w: World, limit: nat)
    ensures var v := RepairAll(w, limit).w;
            SamePushLog(w, v)
    decreases |w.retained|
  {
    if w.retained != [] {
      var repaired := RepairHead(w);
      var step := Stage(repaired, repaired.retained[0].candle, limit);
      if step.ok {
        RepairingAcceptsNothing(step.w.(retained := repaired.retained[1..]), limit);
      }
    }
  }

  lemma SendingOutAcceptsNothing(w: World, limit: nat)
    ensures var v := SendOut(w, limit).w;
            SamePushLog(w, v)
  {
    hide StageWhole, Drain, RepairAll;
    StagingAcceptsNothing(w, 0, limit);
    var whole := StageWhole(w, 0, limit);
    DrainKeepsPushLog(whole.w);
    RepairingAcceptsNothing(Drain(whole.w).w, limit);
    DrainKeepsPushLog(RepairAll(Drain(whole.w).w, limit).w);
  }

  lemma EmittingOneAccepts(w: World, c: Candle, current: bool, limit: nat)
    ensures var v := Emit(w, [c], current, limit).w;
            && v.log.accepted == (if IsNews(w, c) then w.log.accepted + [c] else w.log.accepted)
            && SameLosses(w, v)
  {
    hide SendOut, IsNews, Advance;
    NewsIsUnreached(w, c);
    assert [c][1..] == [];
    assert Retain(w, [c], current) == RetainOne(w, c, current);
    SendingOutAcceptsNothing(Retain(w, [c], current), limit);
  }

  /** The first read of the gap check raises. */
  predicate ReadRaises(w: World, cfg: Config, c: Candle) {
    c.symbol in cfg.targets && NextOutcome(w) != Done
  }

  lemma FillingAcceptsNothing(w: World, cfg: Config, c: Candle, now: nat, answer: Reply)
    ensures var call := FillGapBefore(w, cfg, c, now, answer);
            && (call.ok <==> !ReadRaises(w, cfg, c)) && call.w.log.accepted == w.log.accepted
            && call.w.log.overtaken == w.log.overtaken
            && call.w.log.missed == if ReadRaises(w, cfg, c) then w.log.missed + [c] else w.log.missed
  {
    hide PlanSeries, LeavesAGap, Listens, OnTheWay, UpTo, Newest;
  }

  /** The gap check cannot make news of the close that asked, nor old news of it. */
  lemma FillingKeepsTheNews(w: World, cfg: Config, c: Candle, now: nat, answer: Reply)
    requires WindowKept(w.store, SeriesOf(c)) && cfg.limit > 0
    ensures IsNews(FillGapBefore(w, cfg, c, now, answer).w, c) <==> IsNews(w, c)
  {
    hide FillGapBefore, WindowKept;
    FillingWrites(w, cfg, c, now, answer);
    var v := FillGapBefore(w, cfg, c, now, answer).w;
    DuplicateIsBehindTheMark(w.store, c);
    DuplicateIsBehindTheMark(v.store, c);
    FillingNeverLowersTheMark(w, cfg, c, now, answer, SeriesOf(c));
  }

  /** A pushed bar gets in line if and only if its bucket is over and the gap check's read did not raise. A
      bar whose read raised is missed, and nothing else is. */
  lemma APushedBarWaitsExactlyWhen(w: World, cfg: Config, c: Candle, now: nat, answer: Reply)
    ensures var v := CheckPush(w, cfg, c, now, answer).w;
            && v.waiting == (if IsFinished(c, now) && !ReadRaises(w, cfg, c) then w.waiting + [c] else w.waiting)
            && v.log.missed == (if IsFinished(c, now) && ReadRaises(w, cfg, c) then w.log.missed + [c] else w.log.missed)
            && v.log.accepted == w.log.accepted && v.log.overtaken == w.log.overtaken
  {
    hide FillGapBefore, IsFinished, ReadRaises;
    FillingAcceptsNothing(w, cfg, c, now, answer);
  }

  /** When its turn comes it is accepted if and only if it is newer than its series' watermark and than every
      bar of its series still retained. Otherwise it has been overtaken. */
  lemma APushedBarIsAcceptedExactlyWhen(w: World, limit: nat)
    requires w.waiting != []
    ensures var (v, c) := (TakePush(w, limit).w, w.waiting[0]);
            && v.waiting == w.waiting[1..]
            && v.log.accepted == (if IsNews(w, c) then w.log.accepted + [c] else w.log.accepted)
            && v.log.overtaken == (if IsNews(w, c) then w.log.overtaken else w.log.overtaken + [c])
            && v.log.missed == w.log.missed && v.log.swallowed == w.log.swallowed
  {
    hide Emit, IsNews;
    SameNews(w, Taken(w), w.waiting[0]);
    EmittingOneAccepts(Taken(w), w.waiting[0], true, limit);
  }

  lemma SameNews(w: World, v: World, c: Candle)
    requires v.store == w.store && v.retained == w.retained
    ensures IsNews(v, c) <==> IsNews(w, c)
  {
  }

  /** So a close that does not follow the newest stored bar is accepted, unless the read raised or a bar
      at or beyond it is still retained. */
  lemma AGapIsAlwaysNews(w: World, c: Candle)
    requires WindowKept(w.store, SeriesOf(c)) && LeavesAGap(w.store, c)
    ensures IsNews(w, c) <==> AllOlder(RetainedOf(w.retained, SeriesOf(c)), c.openTime)
  {
    hide WindowKept, LeavesAGap, RetainedOf;
    ACloseAfterAGapIsNew(w.store, c);
    NewsIsUnreached(w, c);
    DuplicateIsBehindTheMark(w.store, c);
  }

  /** However much has failed before, one flush with nothing failing sends out every bar that was
      accepted and not swallowed. */
  lemma OneGoodFlushSendsTheAccepted(cfg: Config, boot: Boot, events: seq<Event>, now: nat, current: bool, series: Series)
    requires Distinct(cfg.series) && series in cfg.series && BarFed(events, series)
    ensures var w := Handle(Recovered(RunEvents(cfg, boot, events)), cfg, FlushEvent(now, current));
            && w.retained == [] && w.log.acked == boot.store.outbox + w.log.staged
            && CandlesOf(w.log.staged, series) == Except(CandlesOf(w.log.accepted, series), CandlesOf(w.log.swallowed, series))
  {
    hide Certain, Straight, HandleFlush, Distinct, RunEvents, CandlesOf, Except;
    var before := RunEvents(cfg, boot, events);
    var w := Handle(Recovered(before), cfg, FlushEvent(now, current));
    EveryRunIsCertain(cfg, boot, events, series);
    TheOutboxLosesNothing(cfg, boot, events, series);
    QuietIsCertain(before, Recovered(before), series, None);
    RetainedIsNoMatter(before, Recovered(before), series);
    FlushSucceeds(Recovered(before), cfg, now, current);
    FlushIsCertain(Recovered(before), cfg, now, current, series, None);
    HandleStaysStraight(Recovered(before), cfg, FlushEvent(now, current), series);
    StraightMeans(w, series);
    NothingIsOnTheWay(w, series);
  }

  lemma NothingIsOnTheWay(w: World, series: Series)
    requires Certain(w, series, None) && w.retained == []
    ensures CandlesOf(w.log.staged, series) == Except(CandlesOf(w.log.accepted, series), CandlesOf(w.log.swallowed, series))
  {
    hide CandlesOf, Except, StrictlyNewer;
  }
}
