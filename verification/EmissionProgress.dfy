/** How a batch goes out: whole bars before anything is asked of a vendor, and everything once nothing
    fails any more. */
module EmissionProgress {
  import opened Prelude
  import opened Timeframes
  import opened MarketData
  import opened ResamplerModel
  import opened ResamplerRuns
  import opened CandleStore
  import opened Emission
  import opened EmissionLaws
  import opened EmissionRuns

  // ------------------------------------------------------------ whole bars first

  function WholeOf(retained: seq<Retired>): seq<Retired>
    decreases |retained|
  {
    if retained == [] then [] else (if retained[0].partial then [] else [retained[0]]) + WholeOf(retained[1..])
  }

  /** What one staging adds to a series: the bar, if the series' watermark has not reached it. */
  lemma StagedByOne(w: World, c: Candle, limit: nat, series: Series)
    requires Stage(w, c, limit).ok
    ensures var v := Stage(w, c, limit).w;
            if SeriesOf(c) == series && !IsDuplicate(w.store, c)
            then CandlesOf(v.log.staged, series) == CandlesOf(w.log.staged, series) + [c] && Mark(v.store, series) == Some(c.openTime)
            else CandlesOf(v.log.staged, series) == CandlesOf(w.log.staged, series) && Mark(v.store, series) == Mark(w.store, series)
  {
    CandlesOfAppends(w.log.staged, [c], series);
    OneCandle(c, series);
    hide CandlesOf;
  }

  lemma FirstIsPending(r: Retired, rest: seq<Retired>, level: Option<nat>)
    ensures Pending([r] + rest, level)
         == if level.Some? && r.candle.openTime <= level.value then Pending(rest, level)
            else [r.candle] + Pending(rest, Some(r.candle.openTime))
  {
    assert ([r] + rest)[1..] == rest;
  }

  lemma FirstIsWhole(r: Retired, rest: seq<Retired>)
    ensures WholeOf([r] + rest) == (if r.partial then [] else [r]) + WholeOf(rest)
  {
    assert ([r] + rest)[1..] == rest;
  }

  /** If the first pass gets to its end it has staged, in order, exactly the whole bars that were newer
      than the watermark and than every whole bar of their series before them; only partial bars are left. */
  lemma {:induction false} FirstPassStagesExactly(w: World, i: nat, limit: nat, series: Series)
    requires i <= |w.retained| && AllPartial(w.retained, i) && StageWhole(w, i, limit).ok
    ensures var v := StageWhole(w, i, limit).w;
            && AllPartial(v.retained, |v.retained|)
            && CandlesOf(v.log.staged, series)
               == CandlesOf(w.log.staged, series) + Pending(WholeOf(RetainedOf(w.retained[i..], series)), Mark(w.store, series))
    decreases |w.retained| - i
  {
    hide Stage, CandlesOf, RetainedOf, Mark;
    if i == |w.retained| {
      assert w.retained[i..] == [];
      NoneRetained(series);
    } else {
      var (r, rest) := (w.retained[i], w.retained[i + 1..]);
      assert w.retained[i..] == [r] + rest && w.retained[i..][1..] == rest;
      FirstRetained(w.retained[i..], series);
      FirstIsWhole(r, RetainedOf(rest, series));
      assert [] + RetainedOf(rest, series) == RetainedOf(rest, series);
      assert [] + WholeOf(RetainedOf(rest, series)) == WholeOf(RetainedOf(rest, series));
      if r.partial {
        FirstPassStagesExactly(w, i + 1, limit, series);
      } else {
        var step := Stage(w, r.candle, limit);
        var next := step.w.(retained := Without(w.retained, i));
        StagedByOne(w, r.candle, limit, series);
        StagingKeepsRetained(w, r.candle, limit);
        assert next.retained[i..] == rest;
        assert AllPartial(next.retained, i);
        FirstPassStagesExactly(next, i, limit, series);
        FirstIsPending(r, WholeOf(RetainedOf(rest, series)), Mark(w.store, series));
        DuplicateIsBehindTheMark(w.store, r.candle);
        var (before, after) := (CandlesOf(w.log.staged, series), Pending(WholeOf(RetainedOf(rest, series)), Some(r.candle.openTime)));
        assert (before + [r.candle]) + after == before + ([r.candle] + after);
      }
    }
  }

  lemma StagingKeepsRetained(w: World, c: Candle, limit: nat)
    ensures Stage(w, c, limit).w.retained == w.retained
  {
  }

  lemma DuplicateIsBehindTheMark(s: Store, c: Candle)
    ensures IsDuplicate(s, c) <==> Mark(s, SeriesOf(c)).Some? && c.openTime <= Mark(s, SeriesOf(c)).value
  {
  }

  lemma NoneRetained(series: Series)
    ensures RetainedOf([], series) == []
  {
  }

  lemma NonePartialYet(retained: seq<Retired>)
    ensures AllPartial(retained, 0)
  {
  }

  /** No vendor request holds back a whole bar: by the time the first repair starts, exactly the whole
      bars the store would take have been staged, in order, and all that was staged has been published
      and acknowledged. */
  lemma WholeBarsGoOutBeforeAnyRepair(w: World, limit: nat)
    requires SendOut(w, limit).w.log.repaired != w.log.repaired
    ensures var v := Drain(StageWhole(w, 0, limit).w).w;
            && v.log.repaired == w.log.repaired && v.store.outbox == []
            && AllPartial(v.retained, |v.retained|)
            && (forall s :: CandlesOf(v.log.staged, s)
                            == CandlesOf(w.log.staged, s) + Pending(WholeOf(RetainedOf(w.retained, s)), Mark(w.store, s)))
            && v.log.published <= SendOut(w, limit).w.log.published
  {
    hide StageWhole, Drain, RepairAll, AllPartial, CandlesOf, RetainedOf, Pending, WholeOf, Mark;
    var whole := StageWhole(w, 0, limit);
    FirstPassRepairsNothing(w, 0, limit);
    DrainKeepsTracks(whole.w);
    NonePartialYet(w.retained);
    assert w.retained[0..] == w.retained;
    forall s ensures CandlesOf(Drain(whole.w).w.log.staged, s)
                     == CandlesOf(w.log.staged, s) + Pending(WholeOf(RetainedOf(w.retained, s)), Mark(w.store, s)) {
      FirstPassStagesExactly(w, 0, limit, s);
    }
    FirstPassStagesExactly(w, 0, limit, Series("", M1));
    RepairingPublishesNothing(Drain(whole.w).w, limit);
    DrainPublishesMore(RepairAll(Drain(whole.w).w, limit).w);
  }

  lemma {:induction false} FirstPassRepairsNothing(w: World, i: nat, limit: nat)
    requires i <= |w.retained|
    ensures StageWhole(w, i, limit).w.log.repaired == w.log.repaired
    decreases |w.retained| - i
  {
    if i < |w.retained| {
      if w.retained[i].partial {
        FirstPassRepairsNothing(w, i + 1, limit);
      } else {
        var step := Stage(w, w.retained[i].candle, limit);
        if step.ok {
          FirstPassRepairsNothing(step.w.(retained := Without(w.retained, i)), i, limit);
        }
      }
    }
  }

  lemma {:induction false} RepairingPublishesNothing(w: World, limit: nat)
    ensures RepairAll(w, limit).w.log.published == w.log.published
    decreases |w.retained|
  {
    if w.retained != [] {
      var repaired := RepairHead(w);
      var step := Stage(repaired, repaired.retained[0].candle, limit);
      if step.ok {
        RepairingPublishesNothing(step.w.(retained := repaired.retained[1..]), limit);
      }
    }
  }

  lemma {:induction false} DrainPublishesMore(w: World)
    ensures w.log.published <= Drain(w).w.log.published
    decreases |w.store.outbox|
  {
    var peeked := Spent(w);
    if NextOutcome(w) == Done && w.store.outbox != [] {
      var published := Publish(peeked);
      if published.ok {
        var acked := Ack(published.w);
        if acked.ok {
          DrainPublishesMore(acked.w);
        }
      }
    }
  }

  // ------------------------------------------------------------ once nothing fails any more

  lemma {:induction false} StagingSucceeds(w: World, i: nat, limit: nat)
    requires i <= |w.retained| && w.script == []
    ensures StageWhole(w, i, limit).ok && StageWhole(w, i, limit).w.script == []
    decreases |w.retained| - i
  {
    if i < |w.retained| {
      if w.retained[i].partial {
        StagingSucceeds(w, i + 1, limit);
      } else {
        StagingSucceeds(Stage(w, w.retained[i].candle, limit).w.(retained := Without(w.retained, i)), i, limit);
      }
    }
  }

  lemma {:induction false} RepairingSucceeds(w: World, limit: nat)
    requires w.script == []
    ensures RepairAll(w, limit).ok && RepairAll(w, limit).w.script == []
    decreases |w.retained|
  {
    if w.retained != [] {
      var repaired := RepairHead(w);
      RepairingSucceeds(Stage(repaired, repaired.retained[0].candle, limit).w.(retained := repaired.retained[1..]), limit);
    }
  }

  lemma {:induction false} DrainingSucceeds(w: World)
    requires w.script == []
    ensures Drain(w).ok && Drain(w).w.script == []
    decreases |w.store.outbox|
  {
    if w.store.outbox != [] {
      DrainingSucceeds(Ack(Publish(Spent(w)).w).w);
    }
  }

  lemma {:induction false} RetainingAwaitsNothing(w: World, candles: seq<Candle>, current: bool)
    ensures Retain(w, candles, current).script == w.script
    decreases |candles|
  {
    if candles != [] {
      RetainingAwaitsNothing(RetainOne(w, candles[0], current), candles[1..], current);
    }
  }

  lemma EmittingSucceeds(w: World, candles: seq<Candle>, current: bool, limit: nat)
    requires w.script == []
    ensures var call := Emit(w, candles, current, limit);
            call.ok && call.w.script == [] && call.w.retained == [] && call.w.store.outbox == []
  {
    hide Retain, StageWhole, Drain, RepairAll;
    RetainingAwaitsNothing(w, candles, current);
    var retained := Retain(w, candles, current);
    StagingSucceeds(retained, 0, limit);
    var whole := StageWhole(retained, 0, limit);
    DrainingSucceeds(whole.w);
    var drained := Drain(whole.w);
    RepairingSucceeds(drained.w, limit);
    DrainingSucceeds(RepairAll(drained.w, limit).w);
    EmitToTheEnd(w, candles, current, limit);
  }

  lemma FlushSucceeds(w: World, cfg: Config, now: nat, current: bool)
    requires Configured(w.feeds, cfg.series) && w.script == []
    ensures HandleFlush(w, cfg, now, current).ok
    ensures HandleFlush(w, cfg, now, current).w.retained == [] && HandleFlush(w, cfg, now, current).w.store.outbox == []
  {
    hide Emit, MovedAll;
    EmittingSucceeds(w, [], true, cfg.limit);
    var cleared := ClearRetained(w, cfg.limit);
    var m := MovedAll(cleared.w.feeds, cfg.series, None, OnFlush(now));
    EmittingSucceeds(cleared.w.(feeds := m.feeds), m.closed, current, cfg.limit);
  }

  /** The world as it stands, with nothing failing from here on. */
  function Recovered(w: World): World {
    w.(script := [])
  }

  lemma RecoveredIsKept(w: World, series: Series)
    requires Kept(w, series)
    ensures Kept(Recovered(w), series)
  {
    hide Good, AllLabelled;
    assert TrackOf(Recovered(w), series, []) == TrackOf(w, series, []);
  }

  /** Whatever the service started on and however much has failed since, one flush with nothing failing
      catches up: every bar the resampler of a tick-fed series closed that the store did not have at the
      start is staged, in order, and everything staged is acknowledged. */
  lemma OneGoodFlushCatchesUp(cfg: Config, boot: Boot, events: seq<Event>, now: nat, current: bool, series: Series)
    requires Distinct(cfg.series) && series in cfg.series && TickFed(events, series)
    ensures var w := Handle(Recovered(RunEvents(cfg, boot, events)), cfg, FlushEvent(now, current));
            var (f, staged) := (w.feeds[series], CandlesOf(w.log.staged, series));
            var due := ClosedSince(f, Mark(boot.store, series));
            && w.retained == [] && w.log.acked == boot.store.outbox + w.log.staged && |staged| == |due|
            && (forall i :: 0 <= i < |staged| ==> Completes(staged[i], due[i], due[i].openTime in f.partials))
  {
    hide Kept, Straight, HandleFlush, Completes, Distinct, RunEvents, ClosedSince;
    var before := RunEvents(cfg, boot, events);
    var w := Handle(Recovered(before), cfg, FlushEvent(now, current));
    EveryRunKeeps(cfg, boot, events, series);
    TheOutboxLosesNothing(cfg, boot, events, series);
    RecoveredIsKept(before, series);
    RetainedIsNoMatter(before, Recovered(before), series);
    FlushSucceeds(Recovered(before), cfg, now, current);
    FlushKeeps(Recovered(before), cfg, now, current, series);
    HandleStaysStraight(Recovered(before), cfg, FlushEvent(now, current), series);
    KeptMeansStaged(w, series);
    StraightMeans(w, series);
    NoneRetained(series);
  }
}
