/** From retired bars to published events (src/qte_ingestion/service.py, src/qte_ingestion/repair.py).

    Every await on Redis or the bus can succeed, fail, or take effect and lose its reply. A World is
    everything the service and the store hold, with the fate of every await still to come. */
module Emission {
  import opened Prelude
  import opened Timeframes
  import opened MarketData
  import opened ResamplerModel
  import opened ResamplerRuns
  import opened CandleStore
  import opened Backfill

  /** A retired bar retained until the store acknowledges it. */
  datatype Retired = Retired(candle: Candle, partial: bool, closeIsCurrent: bool)

  datatype Log = Log(
    staged: seq<Candle>,      // every bar appended to the outbox, oldest first
    published: seq<Candle>,   // every event that left
    acked: seq<Candle>,       // every bar taken off the outbox
    repaired: seq<Candle>,    // every bar handed to the repairer, as it was built
    accepted: seq<Candle>,    // every bar handed over that was newer than all its series had then
    overtaken: seq<Candle>,   // every pushed bar that was not, when its turn came
    swallowed: seq<Candle>,   // every bar still on its way when merged history moved the watermark past it
    missed: seq<Candle>,      // every pushed bar whose gap check could not read the store
    start: Store)             // what the store held when the service started

  function NothingLogged(start: Store): Log {
    Log([], [], [], [], [], [], [], [], start)
  }

  /** What the service remembers about the history it has asked for and is owed. */
  datatype Gap = Gap(askedAt: map<Series, nat>, owed: set<Series>, vendorOffline: bool)

  const NOTHING_ASKED := Gap(map[], {}, false)

  datatype World = World(
    feeds: map<Series, Feed>, retained: seq<Retired>,
    waiting: seq<Candle>,    // pushed bars whose callback waits for the processing lock, first come first
    store: Store, gap: Gap, log: Log, script: seq<Outcome>, replies: seq<Option<Candle>>)

  /** What a call left behind, and whether it got to its end without an exception. */
  datatype Call = Call(w: World, ok: bool)

  datatype Config = Config(
    series: seq<Series>, limit: nat, publishTicks: bool, saveOpenBars: bool,
    targets: map<string, nat>,   // symbols whose history can be asked for again, and how many bars fill a window
    cooldown: nat)

  const CLOCK_TOLERANCE := 5 * MICROS

  /** The fate of the next await; once the script is exhausted nothing fails any more. */
  function NextOutcome(w: World): Outcome {
    if w.script == [] then Done else w.script[0]
  }

  function Spent(w: World): World {
    w.(script := if w.script == [] then [] else w.script[1..])
  }

  /** What the vendor answers for the next bar: nothing, on an error, a timeout or an empty answer. */
  function NextReply(w: World): Option<Candle> {
    if w.replies == [] then None else w.replies[0]
  }

  // ------------------------------------------------------------ repair

  function MergePartial(partial: Candle, vendor: Candle, closeIsCurrent: bool): Candle {
    partial.(open := vendor.open, high := Max(partial.high, vendor.high), low := Min(partial.low, vendor.low),
             close := if closeIsCurrent then partial.close else vendor.close)
  }

  function Repaired(c: Candle, reply: Option<Candle>, closeIsCurrent: bool): Candle {
    if reply.None? then c else MergePartial(c, reply.value, closeIsCurrent)
  }

  predicate HoldsItsBody(c: Candle) {
    c.low <= c.open <= c.high && c.low <= c.close <= c.high
  }

  /** The repaired bar is still a bar, of the same bucket, covering what either side saw. */
  lemma RepairedBarIsWhole(c: Candle, reply: Option<Candle>, closeIsCurrent: bool)
    requires HoldsItsBody(c) && (reply.Some? ==> HoldsItsBody(reply.value))
    ensures var r := Repaired(c, reply, closeIsCurrent);
            && HoldsItsBody(r) && r.low <= c.low && r.high >= c.high
            && SeriesOf(r) == SeriesOf(c) && r.openTime == c.openTime && r.volume == c.volume && r.tickCount == c.tickCount
            && (reply.None? ==> r == c)
            && (reply.Some? ==> r.open == reply.value.open && r.close == (if closeIsCurrent then c.close else reply.value.close))
            && (reply.Some? ==> r.low <= reply.value.low && (r.low == c.low || r.low == reply.value.low))
            && (reply.Some? ==> r.high >= reply.value.high && (r.high == c.high || r.high == reply.value.high))
  {
  }

  // ------------------------------------------------------------ staging and publishing

  predicate IsRetained(retained: seq<Retired>, c: Candle) {
    exists i :: 0 <= i < |retained| && SeriesOf(retained[i].candle) == SeriesOf(c) && retained[i].candle.openTime == c.openTime
  }

  function WasPartial(w: World, c: Candle): bool {
    SeriesOf(c) in w.feeds && c.openTime in w.feeds[SeriesOf(c)].lane.partialCloses
  }

  function Asked(w: World, c: Candle): map<Series, Feed> {
    if SeriesOf(c) in w.feeds
    then w.feeds[SeriesOf(c) := Advance(w.feeds[SeriesOf(c)], c.symbol, c.timeframe, OnTake(c.openTime))]
    else w.feeds
  }

  /** Newer than the watermark of its series, and than every bar of its series still retained. */
  predicate IsNews(w: World, c: Candle) {
    && !IsDuplicate(w.store, c)
    && forall i :: 0 <= i < |w.retained| && SeriesOf(w.retained[i].candle) == SeriesOf(c) ==>
         w.retained[i].candle.openTime < c.openTime
  }

  function RetainOne(w: World, c: Candle, closeIsCurrent: bool): (r: World)
    ensures r.feeds.Keys == w.feeds.Keys && r.log.start == w.log.start && r.waiting == w.waiting
  {
    if IsRetained(w.retained, c) then w
    else w.(retained := w.retained + [Retired(c, WasPartial(w, c), closeIsCurrent)], feeds := Asked(w, c),
            log := if IsNews(w, c) then w.log.(accepted := w.log.accepted + [c]) else w.log)
  }

  function Retain(w: World, candles: seq<Candle>, closeIsCurrent: bool): (r: World)
    ensures r.feeds.Keys == w.feeds.Keys && r.log.start == w.log.start && r.waiting == w.waiting
    decreases |candles|
  {
    if candles == [] then w else Retain(RetainOne(w, candles[0], closeIsCurrent), candles[1..], closeIsCurrent)
  }

  function StageNow(w: World, c: Candle, limit: nat): World {
    w.(store := Staged(w.store, c, limit),
       log := if IsDuplicate(w.store, c) then w.log else w.log.(staged := w.log.staged + [c]))
  }

  function Stage(w: World, c: Candle, limit: nat): Call {
    match NextOutcome(w)
    case Failed => Call(Spent(w), false)
    case Lost => Call(StageNow(Spent(w), c, limit), false)
    case Done => Call(StageNow(Spent(w), c, limit), true)
  }

  function Without(retained: seq<Retired>, i: nat): seq<Retired>
    requires i < |retained|
  {
    retained[..i] + retained[i + 1..]
  }

  /** The first pass: stage every whole bar, in the order they were retained. */
  function StageWhole(w: World, i: nat, limit: nat): (call: Call)
    requires i <= |w.retained|
    ensures call.w.feeds == w.feeds && call.w.log.start == w.log.start && call.w.waiting == w.waiting
    decreases |w.retained| - i
  {
    if i == |w.retained| then Call(w, true)
    else if w.retained[i].partial then StageWhole(w, i + 1, limit)
    else
      var step := Stage(w, w.retained[i].candle, limit);
      if !step.ok then step else StageWhole(step.w.(retained := Without(w.retained, i)), i, limit)
  }

  function RepairHead(w: World): (r: World)
    requires w.retained != []
    ensures r.feeds == w.feeds && |r.retained| == |w.retained|
  {
    var r := w.retained[0];
    w.(retained := [Retired(Repaired(r.candle, NextReply(w), r.closeIsCurrent), false, r.closeIsCurrent)] + w.retained[1..],
       log := w.log.(repaired := w.log.repaired + [r.candle]),
       replies := if w.replies == [] then [] else w.replies[1..])
  }

  /** The second pass: complete every bar that is left, and stage it. */
  function RepairAll(w: World, limit: nat): (call: Call)
    ensures call.w.feeds == w.feeds && call.w.log.start == w.log.start && call.w.waiting == w.waiting
    decreases |w.retained|
  {
    if w.retained == [] then Call(w, true)
    else
      var repaired := RepairHead(w);
      var step := Stage(repaired, repaired.retained[0].candle, limit);
      if !step.ok then step else RepairAll(step.w.(retained := repaired.retained[1..]), limit)
  }

  function PublishNow(w: World): World
    requires w.store.outbox != []
  {
    w.(log := w.log.(published := w.log.published + [w.store.outbox[0]]))
  }

  function AckNow(w: World): World
    requires w.store.outbox != []
  {
    w.(log := w.log.(acked := w.log.acked + [w.store.outbox[0]]), store := Acked(w.store))
  }

  function Publish(w: World): Call
    requires w.store.outbox != []
  {
    match NextOutcome(w)
    case Failed => Call(Spent(w), false)
    case Lost => Call(PublishNow(Spent(w)), false)
    case Done => Call(PublishNow(Spent(w)), true)
  }

  function Ack(w: World): Call
    requires w.store.outbox != []
  {
    match NextOutcome(w)
    case Failed => Call(Spent(w), false)
    case Lost => Call(AckNow(Spent(w)), false)
    case Done => Call(AckNow(Spent(w)), true)
  }

  /** Publish the outbox oldest first, acknowledging only what was published. */
  function Drain(w: World): (call: Call)
    ensures call.w.feeds == w.feeds && call.w.retained == w.retained && call.w.log.start == w.log.start && call.w.waiting == w.waiting
    decreases |w.store.outbox|
  {
    var peeked := Spent(w);
    if NextOutcome(w) != Done then Call(peeked, false)
    else if w.store.outbox == [] then Call(peeked, true)
    else
      var published := Publish(peeked);
      if !published.ok then published
      else
        var acked := Ack(published.w);
        if !acked.ok then acked else Drain(acked.w)
  }

  /** What follows once a batch is retained. */
  function SendOut(w: World, limit: nat): (call: Call)
    ensures call.w.feeds == w.feeds && call.w.log.start == w.log.start && call.w.waiting == w.waiting
  {
    var whole := StageWhole(w, 0, limit);
    if !whole.ok then whole
    else
      var drained := Drain(whole.w);
      if !drained.ok then drained
      else
        var repaired := RepairAll(drained.w, limit);
        if !repaired.ok || drained.w.retained == [] then repaired else Drain(repaired.w)
  }

  function Emit(w: World, candles: seq<Candle>, closeIsCurrent: bool, limit: nat): (call: Call)
    ensures call.w.feeds.Keys == w.feeds.Keys && call.w.log.start == w.log.start && call.w.waiting == w.waiting
  {
    SendOut(Retain(w, candles, closeIsCurrent), limit)
  }

  /** Whatever an earlier failure left retained goes out before anything new is retired. */
  function ClearRetained(w: World, limit: nat): (call: Call)
    ensures call.w.feeds.Keys == w.feeds.Keys && call.w.log.start == w.log.start && call.w.waiting == w.waiting
  {
    if w.retained == [] then Call(w, true) else Emit(w, [], true, limit)
  }

  // ------------------------------------------------------------ the callbacks

  datatype Closing = Closing(feeds: map<Series, Feed>, closed: seq<Candle>)

  function NewlyClosed(before: Feed, after: Feed): seq<Candle> {
    if |before.closed| <= |after.closed| then after.closed[|before.closed|..] else []
  }

  predicate Configured(feeds: map<Series, Feed>, series: seq<Series>) {
    forall s :: s in series ==> s in feeds
  }

  /** What one resampler call does to a series. */
  function Moved(feeds: map<Series, Feed>, series: Series, op: LaneOp, closed: seq<Candle>): Closing
    requires series in feeds
  {
    var after := Advance(feeds[series], series.symbol, series.timeframe, op);
    Closing(feeds[series := after], closed + NewlyClosed(feeds[series], after))
  }

  /** The same call made on every listed series that `symbol` selects (None: all of them). */
  function MovedAll(feeds: map<Series, Feed>, series: seq<Series>, symbol: Option<string>, op: LaneOp): (c: Closing)
    requires Configured(feeds, series)
    ensures c.feeds.Keys == feeds.Keys
  {
    if series == [] then Closing(feeds, [])
    else
      var before := MovedAll(feeds, Front(series), symbol, op);
      if symbol.Some? && Last(series).symbol != symbol.value then before
      else Moved(before.feeds, Last(series), op, before.closed)
  }

  function Emitted(w: World, moved: Closing, closeIsCurrent: bool, limit: nat): Call {
    Emit(w.(feeds := moved.feeds), moved.closed, closeIsCurrent, limit)
  }

  /** An await whose effect is outside this model. */
  function Await(w: World): Call {
    Call(Spent(w), NextOutcome(w) == Done)
  }

  /** There is a resampler for the symbol. */
  predicate Listens(cfg: Config, symbol: string) {
    exists s :: s in cfg.series && s.symbol == symbol
  }

  /** Save every bar the symbol's resampler has open. */
  function SaveOpen(w: World, series: seq<Series>, symbol: string): (call: Call)
    ensures call.w.feeds == w.feeds && call.w.log.start == w.log.start && call.w.waiting == w.waiting
    decreases |series|
  {
    if series == [] then Call(w, true)
    else
      var s := series[0];
      if s.symbol != symbol || s !in w.feeds || w.feeds[s].lane.open.None? then SaveOpen(w, series[1..], symbol)
      else
        var saved := Spent(w).(store := Saved(w.store, w.feeds[s].lane.open.value.candle));
        match NextOutcome(w)
        case Failed => Call(Spent(w), false)
        case Lost => Call(saved, false)
        case Done => SaveOpen(saved, series[1..], symbol)
  }

  /** What is saved at the end of a tick, whether or not its bars went out. */
  function Persisted(emitted: Call, cfg: Config, symbol: string): (call: Call)
    ensures call.w.feeds == emitted.w.feeds && call.w.log.start == emitted.w.log.start && call.w.waiting == emitted.w.waiting
  {
    if !cfg.saveOpenBars then emitted
    else
      var saved := SaveOpen(emitted.w, cfg.series, symbol);
      Call(saved.w, emitted.ok && saved.ok)
  }

  function HandleTick(w: World, cfg: Config, tick: Tick): (call: Call)
    requires Configured(w.feeds, cfg.series)
    ensures call.w.feeds.Keys == w.feeds.Keys && call.w.log.start == w.log.start && call.w.waiting == w.waiting
  {
    var cleared := ClearRetained(w, cfg.limit);
    if !cleared.ok then cleared
    else
      var remembered := Await(cleared.w);
      if !remembered.ok then remembered
      else
        var announced := if cfg.publishTicks then Await(remembered.w) else remembered;
        if !announced.ok || !Listens(cfg, tick.symbol) then announced
        else if tick.Price().Failure? then Call(announced.w, false)
        else
          var q := Quote(tick.ts, tick.Price().value, tick.volume);
          Persisted(Emitted(announced.w, MovedAll(announced.w.feeds, cfg.series, Some(tick.symbol), OnTick(q)), true, cfg.limit),
                    cfg, tick.symbol)
  }

  /** The flush timer; at start-up, after an outage, the bars it closes are not current. */
  function HandleFlush(w: World, cfg: Config, now: nat, closeIsCurrent: bool): (call: Call)
    requires Configured(w.feeds, cfg.series)
    ensures call.w.feeds.Keys == w.feeds.Keys && call.w.log.start == w.log.start && call.w.waiting == w.waiting
  {
    var cleared := ClearRetained(w, cfg.limit);
    if !cleared.ok then cleared
    else Emitted(cleared.w, MovedAll(cleared.w.feeds, cfg.series, None, OnFlush(now)), closeIsCurrent, cfg.limit)
  }

  // ------------------------------------------------------------ bars the vendor closed itself

  /** The bars of a list that are newer than the level and than every bar before them: what a forward-only
      store will take of it, in order. */
  function Pending(retained: seq<Retired>, level: Option<nat>): seq<Candle>
    decreases |retained|
  {
    if retained == [] then []
    else
      var c := retained[0].candle;
      if level.Some? && c.openTime <= level.value then Pending(retained[1..], level)
      else [c] + Pending(retained[1..], Some(c.openTime))
  }

  function RetainedOf(retained: seq<Retired>, series: Series): seq<Retired> {
    if retained == [] then []
    else RetainedOf(Front(retained), series) + if SeriesOf(Last(retained).candle) == series then [Last(retained)] else []
  }

  /** The series' bars that are retained and still to be staged. */
  function OnTheWay(w: World, series: Series): seq<Candle> {
    Pending(RetainedOf(w.retained, series), Mark(w.store, series))
  }

  function UpTo(candles: seq<Candle>, t: nat): seq<Candle> {
    if candles == [] then [] else UpTo(Front(candles), t) + if Last(candles).openTime <= t then [Last(candles)] else []
  }

  function Owing(gap: Gap, series: Series, warmth: Warmth): Gap {
    if warmth == Settled then gap.(owed := gap.owed - {series})
    else gap.(owed := gap.owed + {series}, vendorOffline := gap.vendorOffline || warmth == OwedOffline)
  }

  /** Write what an answer came to, if anything; whatever was on its way at or below the newest bar
      written is behind the watermark from then on. */
  function WritePlan(w: World, series: Series, plan: Plan, limit: nat): (v: World)
    requires plan.Write? ==> plan.changed != []
    ensures v.feeds == w.feeds && v.retained == w.retained && v.log.start == w.log.start && v.waiting == w.waiting
  {
    if plan.Rest? then w.(gap := Owing(w.gap, series, plan.warmth))
    else
      var warmed := Carried(w.store, series, plan, limit, false, NextOutcome(w));
      Spent(w).(store := warmed.store, gap := Owing(w.gap, series, warmed.warmth),
                log := if NextOutcome(w) == Failed then w.log
                       else w.log.(swallowed := w.log.swallowed + UpTo(OnTheWay(w, series), Newest(plan.changed))))
  }

  predicate CoolingDown(gap: Gap, series: Series, cooldown: nat, now: nat) {
    series in gap.askedAt && now < gap.askedAt[series] + cooldown
  }

  /** Fetch the bars a live close does not follow, before it is staged. Only the first read can raise. */
  function FillGapBefore(w: World, cfg: Config, c: Candle, now: nat, reply: Reply): (call: Call)
    ensures call.w.feeds == w.feeds && call.w.retained == w.retained && call.w.log.start == w.log.start && call.w.waiting == w.waiting
  {
    if c.symbol !in cfg.targets then Call(w, true)
    else if NextOutcome(w) != Done then Call(Spent(w).(log := w.log.(missed := w.log.missed + [c])), false)
    else
      var (read, series) := (Spent(w), SeriesOf(c));
      if !LeavesAGap(read.store, c) || CoolingDown(read.gap, series, cfg.cooldown, now) then Call(read, true)
      else
        var asked := read.(gap := read.gap.(askedAt := read.gap.askedAt[series := now]));
        if !Listens(cfg, c.symbol) then Call(asked, true)
        else
          var plan := PlanSeries(asked.store, series, cfg.targets[c.symbol], Some(c.openTime), now, reply, false, false);
          Call(WritePlan(asked, series, plan, cfg.limit), true)
  }

  predicate IsFinished(c: Candle, now: nat) {
    BucketClose(c.openTime, c.timeframe) <= now + CLOCK_TOLERANCE
  }

  /** A bar the vendor closed itself, up to where its callback asks for the processing lock. Nothing of
      this is under the lock. */
  function CheckPush(w: World, cfg: Config, c: Candle, now: nat, reply: Reply): (call: Call)
    ensures call.w.feeds == w.feeds && call.w.retained == w.retained && call.w.log.start == w.log.start
  {
    if !IsFinished(c, now) then Call(w, true)
    else
      var filled := FillGapBefore(w, cfg, c, now, reply);
      if !filled.ok then filled else Call(filled.w.(waiting := filled.w.waiting + [c]), true)
  }

  /** The callback whose turn it is hands its bar over. */
  function TakePush(w: World, limit: nat): (call: Call)
    ensures call.w.feeds.Keys == w.feeds.Keys && call.w.log.start == w.log.start
    ensures call.w.waiting == if w.waiting == [] then [] else w.waiting[1..]
  {
    if w.waiting == [] then Call(w, true)
    else
      var c := w.waiting[0];
      var taken := w.(waiting := w.waiting[1..],
                      log := if IsNews(w, c) then w.log else w.log.(overtaken := w.log.overtaken + [c]));
      Emit(taken, [c], true, limit)
  }

  // ------------------------------------------------------------ history merged beside the live path

  /** The history loop asks for a series it is owed. Nothing is cut off: the answer may hold any finished
      bar, the newest included. */
  function AskHistory(w: World, cfg: Config, series: Series, now: nat, reply: Reply): (v: World)
    ensures v.feeds == w.feeds && v.retained == w.retained && v.log.start == w.log.start && v.waiting == w.waiting
  {
    if series.symbol !in cfg.targets then w.(gap := w.gap.(owed := w.gap.owed - {series}))
    else
      var plan := PlanSeries(w.store, series, cfg.targets[series.symbol], None, now, reply, false, false);
      var asked := WritePlan(w, series, plan, cfg.limit);
      asked.(gap := asked.gap.(owed := asked.gap.owed * w.gap.owed))
  }

  /** Any other bars merged behind the watermark: a replayed batch, an operator's refresh, or what the
      history loop worked out from a window that has changed since. */
  function MergeBehind(w: World, series: Series, incoming: seq<Candle>, limit: nat): (v: World)
    ensures v.feeds == w.feeds && v.retained == w.retained && v.log.start == w.log.start && v.waiting == w.waiting
  {
    if incoming == [] then w else WritePlan(w, series, Write(incoming, incoming), limit).(gap := w.gap)
  }
}
