/** The service itself: callbacks that insert into and delete from the retained bars and drain the
    outbox, each proved to do what the functions of Emission say.

    A method answers false where the source raises. */
module IngestionServiceModel {
  import opened Prelude
  import opened Timeframes
  import opened MarketData
  import opened ResamplerModel
  import opened ResamplerRuns
  import opened CandleStore
  import opened Backfill
  import opened Emission

  class IngestionService {
    const state: RedisState
    const series: seq<Series>
    const publishTicks: bool
    const saveOpenBars: bool
    /** By symbol, who can be asked for its history again. */
    const backfillers: map<string, HistoryBackfiller>
    const cooldown: nat
    var feeds: map<Series, Feed>
    /** The retained bars, oldest first: a dictionary in insertion order. */
    var retained: seq<Retired>
    /** Pushed bars whose callback waits for the processing lock. */
    var waiting: seq<Candle>
    var askedAt: map<Series, nat>
    var owed: set<Series>
    var vendorOffline: bool
    /** The fate of the awaits to come, and the vendor's answers. */
    var script: seq<Outcome>
    var replies: seq<Option<Candle>>
    ghost var log: Log

    constructor (state: RedisState, series: seq<Series>, publishTicks: bool, saveOpenBars: bool,
                 backfillers: map<string, HistoryBackfiller>, cooldown: nat, script: seq<Outcome>, replies: seq<Option<Candle>>)
      ensures this.state == state && this.series == series && this.backfillers == backfillers
      ensures this.publishTicks == publishTicks && this.saveOpenBars == saveOpenBars && this.cooldown == cooldown
      ensures View() == World(map s | s in series :: FRESH, [], [], state.View(), NOTHING_ASKED, NothingLogged(state.View()), script, replies)
    {
      this.state, this.series, this.publishTicks, this.saveOpenBars := state, series, publishTicks, saveOpenBars;
      this.backfillers, this.cooldown := backfillers, cooldown;
      feeds := map s | s in series :: FRESH;
      retained, waiting, this.script, this.replies := [], [], script, replies;
      askedAt, owed, vendorOffline := map[], {}, false;
      log := NothingLogged(state.View());
    }

    ghost function View(): World
      reads this, state
    {
      World(feeds, retained, waiting, state.View(), Gap(askedAt, owed, vendorOffline), log, script, replies)
    }

    function Cfg(): Config
      reads this, state
    {
      Config(series, state.limit, publishTicks, saveOpenBars, map s | s in backfillers :: backfillers[s].target, cooldown)
    }

    /** Every backfiller that can be asked again is a bar feed's, on the service's own store. */
    predicate Wired() {
      forall s :: s in backfillers ==> backfillers[s].state == state && !backfillers[s].cacheable
    }

    method Next() returns (fate: Outcome)
      modifies this`script
      ensures fate == NextOutcome(old(View())) && View() == Spent(old(View()))
    {
      if script == [] {
        fate := Done;
      } else {
        fate := script[0];
        script := script[1..];
      }
    }

    method StageCandle(c: Candle) returns (ok: bool)
      modifies this`script, this`log, state
      ensures Call(View(), ok) == Stage(old(View()), c, state.limit)
    {
      var fate := Next();
      if fate != Failed {
        log := if IsDuplicate(state.View(), c) then log else log.(staged := log.staged + [c]);
        state.StageClosedCandle(c);
      }
      ok := fate == Done;
    }

    /** The second half of a pass over the outbox: publish the head, then acknowledge it. */
    method PublishHead(c: Candle) returns (ok: bool)
      requires View().store.outbox != [] && c == View().store.outbox[0]
      modifies this`script, this`log, state
      ensures var published := Publish(old(View()));
              Call(View(), ok) == if published.ok then Ack(published.w) else published
    {
      var fate := Next();
      if fate != Failed {
        log := log.(published := log.published + [c]);
      }
      if fate != Done {
        return false;
      }
      fate := Next();
      if fate != Failed {
        log := log.(acked := log.acked + [c]);
        state.AckPendingCandle();
      }
      ok := fate == Done;
    }

    method DrainCandleOutbox() returns (ok: bool)
      modifies this`script, this`log, state
      ensures Call(View(), ok) == Drain(old(View()))
    {
      ghost var start := View();
      hide Publish, Ack;
      while true
        invariant Drain(View()) == Drain(start)
        decreases |state.outbox|
      {
        ghost var before := View();
        var fate := Next();
        if fate != Done {
          return false;
        }
        var head := state.PeekPendingCandle();
        if head.None? {
          return true;
        }
        HeadIsPopped(View());
        ok := PublishHead(head.value);
        if !ok {
          return;
        }
      }
    }

    /** Retain the whole batch, with its partial flags, before the first await. */
    method RetainAll(candles: seq<Candle>, closeIsCurrent: bool)
      modifies this`retained, this`feeds, this`log
      ensures View() == Retain(old(View()), candles, closeIsCurrent)
    {
      ghost var start := View();
      hide RetainOne;
      for i := 0 to |candles|
        invariant Retain(View(), candles[i..], closeIsCurrent) == Retain(start, candles, closeIsCurrent)
      {
        assert candles[i..][0] == candles[i] && candles[i..][1..] == candles[i + 1..];
        RetainCandle(candles[i], closeIsCurrent);
      }
    }

    method RetainCandle(c: Candle, closeIsCurrent: bool)
      modifies this`retained, this`feeds, this`log
      ensures View() == RetainOne(old(View()), c, closeIsCurrent)
    {
      if exists i :: 0 <= i < |retained| && SeriesOf(retained[i].candle) == SeriesOf(c) && retained[i].candle.openTime == c.openTime {
        return;
      }
      ghost var news := IsNews(View(), c);
      var s, partial := SeriesOf(c), false;
      if s in feeds {
        partial := c.openTime in feeds[s].lane.partialCloses;
        feeds := feeds[s := Advance(feeds[s], c.symbol, c.timeframe, OnTake(c.openTime))];
      }
      log := if news then log.(accepted := log.accepted + [c]) else log;
      retained := retained + [Retired(c, partial, closeIsCurrent)];
    }

    /** Stage and forget every whole bar. */
    method StageWholeBars() returns (ok: bool)
      modifies this`script, this`log, this`retained, state
      ensures Call(View(), ok) == StageWhole(old(View()), 0, state.limit)
    {
      ghost var start := View();
      hide Stage;
      var i := 0;
      while i < |retained|
        invariant i <= |retained|
        invariant StageWhole(View(), i, state.limit) == StageWhole(start, 0, state.limit)
        decreases |retained| - i
      {
        if retained[i].partial {
          i := i + 1;
        } else {
          StageKeepsRetained(View(), retained[i].candle, state.limit);
          ok := StageCandle(retained[i].candle);
          if !ok {
            return;
          }
          retained := retained[..i] + retained[i + 1..];
        }
      }
      ok := true;
    }

    /** Complete, stage and forget every bar that is left. */
    method RepairBars() returns (ok: bool)
      modifies this`script, this`log, this`retained, this`replies, state
      ensures Call(View(), ok) == RepairAll(old(View()), state.limit)
    {
      ghost var start := View();
      hide Stage, Repaired;
      while retained != []
        invariant RepairAll(View(), state.limit) == RepairAll(start, state.limit)
        decreases |retained|
      {
        CompleteHead();
        StageKeepsRetained(View(), retained[0].candle, state.limit);
        ok := StageCandle(retained[0].candle);
        if !ok {
          return;
        }
        retained := retained[1..];
      }
      ok := true;
    }

    /** The vendor's bar merged into the oldest retained one, which is whole from then on. */
    method CompleteHead()
      requires retained != []
      modifies this`retained, this`replies, this`log
      ensures View() == RepairHead(old(View())) && |retained| == |old(retained)|
    {
      var r := retained[0];
      var reply := None;
      if replies != [] {
        reply := replies[0];
        replies := replies[1..];
      }
      log := log.(repaired := log.repaired + [r.candle]);
      retained := [Retired(Repaired(r.candle, reply, r.closeIsCurrent), false, r.closeIsCurrent)] + retained[1..];
    }

    method EmitCandles(candles: seq<Candle>, closeIsCurrent: bool) returns (ok: bool)
      modifies this`script, this`log, this`retained, this`replies, this`feeds, state
      ensures Call(View(), ok) == Emit(old(View()), candles, closeIsCurrent, state.limit)
    {
      hide Retain, StageWhole, Drain, RepairAll;
      RetainAll(candles, closeIsCurrent);
      ok := StageWholeBars();
      if !ok {
        return;
      }
      ok := DrainCandleOutbox();
      if !ok {
        return;
      }
      var hadPartialBars := retained != [];
      ok := RepairBars();
      if ok && hadPartialBars {
        ok := DrainCandleOutbox();
      }
    }

    method ClearHeldBars() returns (ok: bool)
      modifies this`script, this`log, this`retained, this`replies, this`feeds, state
      ensures Call(View(), ok) == ClearRetained(old(View()), state.limit)
    {
      ok := true;
      if retained != [] {
        ok := EmitCandles([], true);
      }
    }

    /** One call on every resampler that `symbol` selects, in the configured order. */
    method MoveResamplers(symbol: Option<string>, op: LaneOp) returns (closed: seq<Candle>)
      requires Configured(feeds, series)
      modifies this`feeds
      ensures Closing(feeds, closed) == MovedAll(old(feeds), series, symbol, op)
    {
      closed := [];
      hide Advance;
      for i := 0 to |series|
        invariant Configured(feeds, series)
        invariant Closing(feeds, closed) == MovedAll(old(feeds), series[..i], symbol, op)
      {
        assert Front(series[..i + 1]) == series[..i];
        var s := series[i];
        if symbol.None? || s.symbol == symbol.value {
          var after := Advance(feeds[s], s.symbol, s.timeframe, op);
          closed := closed + NewlyClosed(feeds[s], after);
          feeds := feeds[s := after];
        }
      }
      assert series[..|series|] == series;
    }

    /** Save every bar the symbol's resampler has open. */
    method SaveOpenCandles(symbol: string) returns (ok: bool)
      modifies this`script, state
      ensures Call(View(), ok) == SaveOpen(old(View()), series, symbol)
    {
      ghost var start := View();
      for i := 0 to |series|
        invariant feeds == old(feeds)
        invariant SaveOpen(View(), series[i..], symbol) == SaveOpen(start, series, symbol)
      {
        assert series[i..][0] == series[i] && series[i..][1..] == series[i + 1..];
        var s := series[i];
        if s.symbol == symbol && s in feeds && feeds[s].lane.open.Some? {
          var fate := Next();
          if fate != Failed {
            state.SetOpenCandle(feeds[s].lane.open.value.candle);
          }
          if fate != Done {
            return false;
          }
        }
      }
      ok := true;
    }

    /** Fold the tick, send out what it closed, and save what is open whether or not that failed. */
    method FoldAndEmit(symbol: string, q: Quote) returns (ok: bool)
      requires Configured(feeds, series)
      modifies this`script, this`log, this`retained, this`replies, this`feeds, state
      ensures var moved := MovedAll(old(View()).feeds, series, Some(symbol), OnTick(q));
              Call(View(), ok) == Persisted(Emitted(old(View()), moved, true, state.limit), Cfg(), symbol)
    {
      hide Emit, MovedAll, SaveOpen;
      var closed := MoveResamplers(Some(symbol), OnTick(q));
      ok := EmitCandles(closed, true);
      if saveOpenBars {
        var saved := SaveOpenCandles(symbol);
        ok := ok && saved;
      }
    }

    method HandleTick(tick: Tick) returns (ok: bool)
      requires Configured(feeds, series)
      modifies this`script, this`log, this`retained, this`replies, this`feeds, state
      ensures Call(View(), ok) == Emission.HandleTick(old(View()), Cfg(), tick)
    {
      hide ClearRetained, Emitted, MovedAll, Persisted;
      ok := ClearHeldBars();
      if !ok {
        return;
      }
      var fate := Next();
      if fate == Done && publishTicks {
        fate := Next();
      }
      if fate != Done {
        return false;
      }
      if !Listens(Cfg(), tick.symbol) {
        return true;
      }
      var price := tick.Price();
      if price.Failure? {
        return false;
      }
      ok := FoldAndEmit(tick.symbol, Quote(tick.ts, price.value, tick.volume));
    }

    /** One cycle of the flush loop; a failure costs the cycle. */
    method FlushCycle(now: nat, closeIsCurrent: bool) returns (ok: bool)
      requires Configured(feeds, series)
      modifies this`script, this`log, this`retained, this`replies, this`feeds, state
      ensures Call(View(), ok) == HandleFlush(old(View()), Cfg(), now, closeIsCurrent)
    {
      hide ClearRetained, Emit, MovedAll;
      ok := ClearHeldBars();
      if !ok {
        return;
      }
      var closed := MoveResamplers(None, OnFlush(now));
      ok := EmitCandles(closed, closeIsCurrent);
    }

    /** Remember whether a series' history is still owed. */
    method Note(s: Series, warmth: Warmth)
      modifies this`owed, this`vendorOffline
      ensures View().gap == Owing(old(View().gap), s, warmth) && View() == old(View()).(gap := View().gap)
    {
      if warmth == Settled {
        owed := owed - {s};
      } else {
        vendorOffline := vendorOffline || warmth == OwedOffline;
        owed := owed + {s};
      }
    }

    /** Ask for a series' history, up to a moment if one is given, and write what the answer changes. */
    method WarmSeries(s: Series, before: Option<nat>, now: nat, reply: Reply)
      requires Wired() && s.symbol in backfillers
      modifies this`script, this`log, this`owed, this`vendorOffline, state
      ensures View() == WritePlan(old(View()), s,
                                  PlanSeries(old(state.View()), s, backfillers[s.symbol].target, before, now, reply, false, false),
                                  state.limit)
    {
      hide PlanSeries, Written, Newest, OnTheWay, UpTo;
      var backfiller := backfillers[s.symbol];
      var plan := backfiller.PlanBackfill(s, before, now, reply, false);
      var fate := Done;
      if plan.Write? {
        ghost var taken := UpTo(OnTheWay(View(), s), Newest(plan.changed));
        fate := Next();
        log := if fate == Failed then log else log.(swallowed := log.swallowed + taken);
      }
      var warmth := backfiller.CarryOut(s, plan, fate);
      Note(s, warmth);
    }

    /** One series of the history loop: everything its answer holds may be merged. */
    method WarmOwedSeries(s: Series, now: nat, reply: Reply)
      requires Wired()
      modifies this`script, this`log, this`owed, this`vendorOffline, state
      ensures View() == AskHistory(old(View()), Cfg(), s, now, reply)
    {
      hide PlanSeries, WritePlan;
      if s.symbol !in backfillers {
        owed := owed - {s};
        return;
      }
      var before := owed;
      WarmSeries(s, None, now, reply);
      owed := owed * before;
    }

    /** Whether a close comes later than the bar after the newest stored one. */
    method IsAfterAGap(c: Candle) returns (yes: bool)
      ensures yes == LeavesAGap(View().store, c)
    {
      var s := SeriesOf(c);
      var window := if s in state.history then state.history[s] else [];
      yes := window == [] || c.openTime > BucketClose(Last(window).openTime, c.timeframe);
    }

    /** Fetch the bars a live close does not follow, before it is staged. */
    method FillGap(c: Candle, now: nat, reply: Reply) returns (ok: bool)
      requires Wired()
      modifies this`script, this`log, this`askedAt, this`owed, this`vendorOffline, state
      ensures Call(View(), ok) == FillGapBefore(old(View()), Cfg(), c, now, reply)
    {
      hide PlanSeries, WritePlan, LeavesAGap;
      if c.symbol !in backfillers {
        return true;
      }
      var fate := Next();
      if fate != Done {
        log := log.(missed := log.missed + [c]);
        return false;
      }
      var s := SeriesOf(c);
      var after := IsAfterAGap(c);
      if !after || (s in askedAt && now < askedAt[s] + cooldown) {
        return true;
      }
      askedAt := askedAt[s := now];
      if Listens(Cfg(), c.symbol) {
        WarmSeries(s, Some(c.openTime), now, reply);
      }
      ok := true;
    }

    /** A bar the vendor closed itself, up to where its callback asks for the lock. Other callbacks may run
        before it gets it. */
    method CheckVendorBar(c: Candle, now: nat, reply: Reply) returns (ok: bool)
      requires Wired()
      modifies this`script, this`log, this`askedAt, this`owed, this`vendorOffline, this`waiting, state
      ensures Call(View(), ok) == CheckPush(old(View()), Cfg(), c, now, reply)
    {
      hide FillGapBefore;
      if BucketClose(c.openTime, c.timeframe) > now + CLOCK_TOLERANCE {
        return true;
      }
      ok := FillGap(c, now, reply);
      if ok {
        waiting := waiting + [c];
      }
    }

    /** The callback that has come first to the lock takes it and emits its bar. */
    method EmitVendorBar() returns (ok: bool)
      modifies this`script, this`log, this`retained, this`replies, this`feeds, this`waiting, state
      ensures Call(View(), ok) == TakePush(old(View()), state.limit)
    {
      hide Emit, IsNews;
      if waiting == [] {
        return true;
      }
      var c := waiting[0];
      log := if IsNews(View(), c) then log else log.(overtaken := log.overtaken + [c]);
      waiting := waiting[1..];
      ok := EmitCandles([c], true);
    }
  }

  /** A head that was published and acknowledged is off the outbox. */
  lemma HeadIsPopped(w: World)
    requires w.store.outbox != []
    ensures Publish(w).w.store == w.store
    ensures Publish(w).ok && Ack(Publish(w).w).ok ==> |Ack(Publish(w).w).w.store.outbox| < |w.store.outbox|
  {
  }

  lemma StageKeepsRetained(w: World, c: Candle, limit: nat)
    ensures Stage(w, c, limit).w.retained == w.retained && Stage(w, c, limit).w.feeds == w.feeds
  {
  }
}
