/** Topping a series up from vendor history, and the gap check before a live close is staged
    (src/qte_ingestion/backfill.py, src/qte_ingestion/service.py).

    Only a source that is another process is asked again while the service runs, so this is the path
    that merges behind the staging watermark. No other writer runs between its read and its write. */
module Backfill {
  import opened Prelude
  import opened Timeframes
  import opened MarketData
  import opened ResamplerModel
  import opened ResamplerRuns
  import opened CandleStore
  import opened CandleMerge

  /** One row of vendor history. */
  datatype Row = Row(openTime: nat, open: real, high: real, low: real, close: real, volume: real)

  /** What a request came back with; Broken is any failure before there is something to write. */
  datatype Reply = Answer(rows: seq<Row>) | Offline | NotServed | Broken

  function FromRow(series: Series, row: Row): Candle {
    Candle(series.symbol, series.timeframe, row.openTime, row.open, row.high, row.low, row.close, row.volume, 0, true)
  }

  /** The finished bars of an answer, only those before `before` when it is given. */
  function Usable(series: Series, rows: seq<Row>, now: nat, before: Option<nat>): (candles: seq<Candle>)
    ensures forall c :: c in candles ==>
              && SeriesOf(c) == series && c.tickCount == 0 && BucketClose(c.openTime, series.timeframe) <= now
              && (before.Some? ==> c.openTime < before.value)
  {
    if rows == [] then []
    else
      var row := Last(rows);
      var finished := BucketClose(row.openTime, series.timeframe) <= now && (before.None? || row.openTime < before.value);
      Usable(series, Front(rows), now, before) + if finished then [FromRow(series, row)] else []
  }

  /** The script that merges bars behind the watermark, and raises it to the newest of them. */
  function MergedIn(s: Store, series: Series, incoming: seq<Candle>, limit: nat): (merged: Option<Store>)
    requires incoming != []
    ensures merged.Some?
  {
    var ordered := Tail(Overlaid(Overlaid([], Window(s, series)), incoming), limit);
    var mark := if Mark(s, series).Some? then Mark(s, series).value else 0;
    Swapped(s, series, Mark(s, series), ordered, Later(mark, Newest(incoming)))
  }

  function Newest(candles: seq<Candle>): nat
    requires candles != []
  {
    if |candles| == 1 then candles[0].openTime else Later(Newest(Front(candles)), Last(candles).openTime)
  }

  lemma {:induction false} NewestIsLatest(candles: seq<Candle>)
    requires candles != []
    ensures forall c :: c in candles ==> c.openTime <= Newest(candles)
    ensures exists c :: c in candles && c.openTime == Newest(candles)
  {
    if |candles| == 1 {
      assert candles[0] in candles;
    } else {
      NewestIsLatest(Front(candles));
      assert candles == Front(candles) + [Last(candles)];
      assert Last(candles) in candles;
    }
  }

  /** A series' window is full, and its newest bar is the last bucket that has ended. */
  predicate NeedsNothing(s: Store, series: Series, target: nat, now: nat) {
    var window := Window(s, series);
    && window != [] && |window| >= target
    && BucketClose(Last(window).openTime, series.timeframe) >= FloorToBucket(now, series.timeframe)
  }

  /** How asking for history ended: nothing left to ask, or to be asked again. */
  datatype Warmth = Settled | Owed | OwedOffline

  datatype Warmed = Warmed(store: Store, warmth: Warmth)

  /** What an answer comes to: nothing to write, or a merged window and the bars that changed in it. */
  datatype Plan = Rest(warmth: Warmth) | Write(merged: seq<Candle>, changed: seq<Candle>)

  function PlanAnswer(s: Store, series: Series, fetched: seq<Candle>, cacheable: bool): (plan: Plan)
    ensures plan.Write? && !cacheable ==> plan.changed != []
  {
    var existing := Window(s, series);
    var merged := Merge(existing, fetched);
    var changed := Changed(existing, merged);
    if fetched == [] || merged == existing then Rest(Settled)
    else if !cacheable && changed == [] then Rest(Owed)
    else Write(merged, changed)
  }

  /** One series, checked against the store and asked for if short or if the refresh is forced. */
  function PlanSeries(s: Store, series: Series, target: nat, before: Option<nat>, now: nat, reply: Reply, cacheable: bool, force: bool): (plan: Plan)
    ensures plan.Write? && !cacheable ==> plan.changed != []
  {
    if !force && NeedsNothing(s, series, target, now) then Rest(Settled)
    else
      match reply
      case Offline => Rest(OwedOffline)
      case NotServed => Rest(Settled)
      case Broken => Rest(Owed)
      case Answer(rows) => PlanAnswer(s, series, Usable(series, rows, now, before), cacheable)
  }

  /** A cached source rewrites the window; a bar feed merges what changed behind the watermark. */
  function Written(s: Store, series: Series, plan: Plan, limit: nat, cacheable: bool): Store
    requires plan.Write? && (!cacheable ==> plan.changed != [])
  {
    if cacheable then s.(history := s.history[series := Tail(plan.merged, limit)])
    else MergedIn(s, series, plan.changed, limit).value
  }

  /** What becomes of a plan when its write meets this fate. */
  function Carried(s: Store, series: Series, plan: Plan, limit: nat, cacheable: bool, fate: Outcome): Warmed
    requires plan.Write? && !cacheable ==> plan.changed != []
  {
    match plan
    case Rest(warmth) => Warmed(s, warmth)
    case Write(_, _) =>
      if fate == Failed then Warmed(s, Owed)
      else Warmed(Written(s, series, plan, limit, cacheable), if fate == Done then Settled else Owed)
  }

  /** A bar feed's series, asked for before a live close. */
  function WarmSeries(s: Store, series: Series, target: nat, limit: nat, before: Option<nat>, now: nat, reply: Reply, fate: Outcome): Warmed {
    Carried(s, series, PlanSeries(s, series, target, before, now, reply, false, false), limit, false, fate)
  }

  /** The bars held do not lead up to the candle. */
  predicate LeavesAGap(s: Store, c: Candle) {
    var window := Window(s, SeriesOf(c));
    window == [] || c.openTime > BucketClose(Last(window).openTime, c.timeframe)
  }

  // ------------------------------------------------------------ what a window keeps

  /** A series' window is sorted and its own, and the watermark is its newest bar. */
  ghost predicate WindowKept(s: Store, series: Series) {
    var window := Window(s, series);
    && StrictlyNewer(window)
    && (forall c :: c in window ==> SeriesOf(c) == series)
    && Mark(s, series) == (if window == [] then None else Some(Last(window).openTime))
  }

  lemma TailIsSorted(window: seq<Candle>, limit: nat)
    requires StrictlyNewer(window)
    ensures StrictlyNewer(Tail(window, limit))
    ensures forall c :: c in Tail(window, limit) ==> c in window
  {
  }

  /** Staging keeps every window, and a bar that is not a duplicate ends its own. */
  lemma StagingKeepsWindow(s: Store, c: Candle, limit: nat, series: Series)
    requires WindowKept(s, series) && limit > 0
    ensures WindowKept(Staged(s, c, limit), series)
    ensures SeriesOf(c) == series && !IsDuplicate(s, c) ==>
              && Window(Staged(s, c, limit), series) == Tail(Window(s, series) + [c], limit)
              && Last(Window(Staged(s, c, limit), series)) == c
              && Staged(s, c, limit).outbox == s.outbox + [c]
  {
    if SeriesOf(c) == series && !IsDuplicate(s, c) {
      TailIsSorted(Window(s, series) + [c], limit);
    }
  }

  lemma OverlayIsTheSeries(window: seq<Candle>, incoming: seq<Candle>)
    requires StrictlyNewer(window)
    ensures StrictlyNewer(Overlaid(window, incoming))
    ensures forall c :: c in Overlaid(window, incoming) ==> c in window || c in incoming
  {
    hide StrictlyNewer, LastAt, Overlaid;
    OverlayHolds(window, incoming, 0);
    var all := Overlaid(window, incoming);
    forall c | c in all ensures c in window || c in incoming {
      var i :| 0 <= i < |all| && all[i] == c;
      OnlyOneAt(all, i);
      OverlayHolds(window, incoming, c.openTime);
      LastAtTells(window, c.openTime);
      LastAtTells(incoming, c.openTime);
    }
  }

  /** What the merge script writes, read before its own trimming. */
  lemma MergedInIs(s: Store, series: Series, incoming: seq<Candle>, limit: nat)
    requires WindowKept(s, series) && incoming != []
    ensures var g := MergedIn(s, series, incoming, limit);
            && g.Some? && g.value.outbox == s.outbox
            && Window(g.value, series) == Tail(Overlaid(Window(s, series), incoming), limit)
            && Mark(g.value, series) == Some(Later(if Mark(s, series).Some? then Mark(s, series).value else 0, Newest(incoming)))
            && (forall other :: other != series ==> Window(g.value, other) == Window(s, other) && Mark(g.value, other) == Mark(s, other))
  {
    SortedStays(Window(s, series));
    hide Overlaid, StrictlyNewer, Newest;
  }

  lemma MergingInKeepsWindow(s: Store, series: Series, incoming: seq<Candle>, limit: nat)
    requires WindowKept(s, series) && limit > 0
    requires incoming != [] && forall c :: c in incoming ==> SeriesOf(c) == series
    ensures WindowKept(MergedIn(s, series, incoming, limit).value, series)
  {
    hide Overlaid, StrictlyNewer, Newest, MergedIn, Window, Mark;
    MergedInIs(s, series, incoming, limit);
    var window := Window(s, series);
    OverlayIsTheSeries(window, incoming);
    TailIsSorted(Overlaid(window, incoming), limit);
    NewestOfOverlay(window, incoming);
  }

  lemma {:induction false} NewestOfOverlay(window: seq<Candle>, incoming: seq<Candle>)
    requires StrictlyNewer(window) && incoming != []
    ensures Overlaid(window, incoming) != []
    ensures Last(Overlaid(window, incoming)).openTime
         == if window == [] then Newest(incoming) else Later(Last(window).openTime, Newest(incoming))
  {
    hide StrictlyNewer, Put;
    var before := Overlaid(window, Front(incoming));
    OverlayIsTheSeries(window, Front(incoming));
    PutKeepsOrder(before, Last(incoming));
    if Front(incoming) != [] {
      NewestOfOverlay(window, Front(incoming));
    }
  }

  /** What the merge writes comes from the vendor's answer alone. */
  lemma ChangedComesFromTheVendor(existing: seq<Candle>, fetched: seq<Candle>)
    requires StrictlyNewer(existing)
    ensures forall c :: c in Changed(existing, Merge(existing, fetched)) ==> c in fetched
  {
    hide StrictlyNewer, LastAt, Merge, Changed, Chosen;
    var merged := Merge(existing, fetched);
    KeptHolds(existing, fetched, 0);
    ChangedMembers(existing, merged);
    forall c | c in Changed(existing, merged) ensures c in fetched {
      var i :| 0 <= i < |merged| && merged[i] == c;
      OnlyOneAt(merged, i);
      MergePrefersBuiltBars(existing, fetched, c.openTime);
      LastAtTells(fetched, c.openTime);
    }
  }

  // ------------------------------------------------------------ the gap check before a live close

  lemma AnswerKeepsWindow(s: Store, series: Series, fetched: seq<Candle>, limit: nat, t: nat)
    requires WindowKept(s, series) && limit > 0
    requires forall f :: f in fetched ==> SeriesOf(f) == series && f.openTime < t
    requires PlanAnswer(s, series, fetched, false).Write?
    ensures var (changed, g) := (PlanAnswer(s, series, fetched, false).changed, Written(s, series, PlanAnswer(s, series, fetched, false), limit, false));
            && WindowKept(g, series) && g.outbox == s.outbox
            && Newest(changed) < t && Mark(g, series).Some?
            && Mark(g, series).value == Later(if Mark(s, series).Some? then Mark(s, series).value else 0, Newest(changed))
            && Window(g, series) == Tail(Merge(Window(s, series), fetched), limit)
  {
    hide Merge, Changed, Overlaid, StrictlyNewer, Newest, MergedIn;
    var existing := Window(s, series);
    var changed := Changed(existing, Merge(existing, fetched));
    ChangedComesFromTheVendor(existing, fetched);
    MergedInIs(s, series, changed, limit);
    MergingInKeepsWindow(s, series, changed, limit);
    NewestIsBefore(changed, t);
    ChangedBarsAreEnough(existing, fetched);
    SortedStays(existing);
  }

  lemma NewestIsBefore(candles: seq<Candle>, t: nat)
    requires candles != [] && forall c :: c in candles ==> c.openTime < t
    ensures Newest(candles) < t
  {
    NewestIsLatest(candles);
  }

  /** Whatever the vendor answers, late, early, in disorder or not at all, and whatever becomes of the
      write: asking for what is missing before a live close does not make that close a duplicate of
      its own history. It is dropped after the request exactly when it would have been before. */
  lemma GapFillNeverSwallowsItsTrigger(s: Store, c: Candle, target: nat, limit: nat, now: nat, reply: Reply, fate: Outcome)
    requires WindowKept(s, SeriesOf(c)) && limit > 0
    ensures var g := WarmSeries(s, SeriesOf(c), target, limit, Some(c.openTime), now, reply, fate).store;
            && WindowKept(g, SeriesOf(c)) && g.outbox == s.outbox
            && (IsDuplicate(g, c) <==> IsDuplicate(s, c))
  {
    hide NeedsNothing, WindowKept, PlanAnswer, Written, Newest;
    if reply.Answer? {
      var fetched := Usable(SeriesOf(c), reply.rows, now, Some(c.openTime));
      if PlanAnswer(s, SeriesOf(c), fetched, false).Write? {
        AnswerKeepsWindow(s, SeriesOf(c), fetched, limit, c.openTime);
      }
    }
  }

  /** A close that does not follow the newest stored bar is no duplicate. */
  lemma ACloseAfterAGapIsNew(s: Store, c: Candle)
    requires WindowKept(s, SeriesOf(c)) && LeavesAGap(s, c)
    ensures !IsDuplicate(s, c)
  {
    hide StrictlyNewer;
  }

  /** A merge that changes no bar is the window it started from. */
  lemma NothingChangedIsTheSame(existing: seq<Candle>, fetched: seq<Candle>)
    requires StrictlyNewer(existing) && Changed(existing, Merge(existing, fetched)) == []
    ensures Merge(existing, fetched) == existing
  {
    hide Merge, Changed, StrictlyNewer;
    ChangedBarsAreEnough(existing, fetched);
    SortedStays(existing);
  }

  lemma NothingFetchedIsTheSame(existing: seq<Candle>)
    requires StrictlyNewer(existing)
    ensures Merge(existing, []) == existing
  {
    MergeIsTheUnion(existing, []);
    forall t: nat ensures LastAt(Merge(existing, []), t) == LastAt(existing, t) {
      MergePrefersBuiltBars(existing, [], t);
    }
    hide Merge, StrictlyNewer, LastAt;
    SortedWindowIsItsContents(Merge(existing, []), existing);
  }

  /** The window a request leaves behind: the merge with what was fetched, unless that changes nothing. */
  function Topped(window: seq<Candle>, fetched: seq<Candle>, limit: nat): seq<Candle> {
    if Merge(window, fetched) == window then window else Tail(Merge(window, fetched), limit)
  }

  /** An answered request whose write is not refused leaves the window merged with what the vendor had. */
  lemma AskingMergesTheAnswer(s: Store, series: Series, target: nat, limit: nat, before: Option<nat>, now: nat, rows: seq<Row>, fate: Outcome)
    requires WindowKept(s, series) && limit > 0 && fate != Failed && !NeedsNothing(s, series, target, now)
    ensures Window(WarmSeries(s, series, target, limit, before, now, Answer(rows), fate).store, series)
         == Topped(Window(s, series), Usable(series, rows, now, before), limit)
  {
    hide NeedsNothing, Merge, Changed, StrictlyNewer, Written, Newest, Usable;
    var (window, fetched) := (Window(s, series), Usable(series, rows, now, before));
    if PlanAnswer(s, series, fetched, false).Write? {
      NewestIsLatest(fetched);
      AnswerKeepsWindow(s, series, fetched, limit, Newest(fetched) + 1);
    } else if fetched == [] {
      NothingFetchedIsTheSame(window);
    } else if Merge(window, fetched) != window {
      NothingChangedIsTheSame(window, fetched);
    }
  }

  /** So a close that does not follow the newest stored bar is staged, after a sorted window that ends
      before it and holds what the vendor had to add. */
  lemma CloseIsStagedAfterItsGap(s: Store, c: Candle, target: nat, limit: nat, now: nat, reply: Reply, fate: Outcome)
    requires WindowKept(s, SeriesOf(c)) && limit > 0 && LeavesAGap(s, c)
    ensures var (series, window) := (SeriesOf(c), Window(s, SeriesOf(c)));
            var g := WarmSeries(s, series, target, limit, Some(c.openTime), now, reply, fate).store;
            var h := Staged(g, c, limit);
            && Window(g, series) == (if reply.Answer? && fate != Failed && !NeedsNothing(s, series, target, now)
                                     then Topped(window, Usable(series, reply.rows, now, Some(c.openTime)), limit) else window)
            && (Window(g, series) != [] ==> Last(Window(g, series)).openTime < c.openTime)
            && h.outbox == s.outbox + [c] && Window(h, series) == Tail(Window(g, series) + [c], limit)
            && WindowKept(h, series) && Last(Window(h, series)) == c
  {
    hide WarmSeries, StrictlyNewer, NeedsNothing, Usable, Topped;
    ACloseAfterAGapIsNew(s, c);
    GapFillNeverSwallowsItsTrigger(s, c, target, limit, now, reply, fate);
    var g := WarmSeries(s, SeriesOf(c), target, limit, Some(c.openTime), now, reply, fate).store;
    StagingKeepsWindow(g, c, limit, SeriesOf(c));
    if reply.Answer? && fate != Failed && !NeedsNothing(s, SeriesOf(c), target, now) {
      AskingMergesTheAnswer(s, SeriesOf(c), target, limit, Some(c.openTime), now, reply.rows, fate);
    } else {
      UnansweredChangesNothing(s, SeriesOf(c), target, limit, Some(c.openTime), now, reply, fate);
    }
  }

  /** A request that was not made, not answered, or whose write was refused leaves the store as it was. */
  lemma UnansweredChangesNothing(s: Store, series: Series, target: nat, limit: nat, before: Option<nat>, now: nat, reply: Reply, fate: Outcome)
    requires !reply.Answer? || fate == Failed || NeedsNothing(s, series, target, now)
    ensures WarmSeries(s, series, target, limit, before, now, reply, fate).store == s
  {
    hide NeedsNothing, PlanAnswer, Written;
  }

  // ------------------------------------------------------------ what an answer brings

  /** The bar is the row, field for field, as a finished bar of the series that no ticks were counted for. */
  predicate CarriesRow(c: Candle, series: Series, row: Row) {
    && c.symbol == series.symbol && c.timeframe == series.timeframe && c.openTime == row.openTime
    && c.open == row.open && c.high == row.high && c.low == row.low && c.close == row.close && c.volume == row.volume
    && c.tickCount == 0 && c.isClosed
  }

  /** The row's bucket has ended, and it opens before the cut if there is one. */
  predicate IsReady(row: Row, tf: Timeframe, now: nat, before: Option<nat>) {
    row.openTime + Duration(tf) <= now && (before.Some? ==> row.openTime < before.value)
  }

  /** The candles are the ready rows at these positions, all of them and in their order. */
  ghost predicate AreTheReadyRows(candles: seq<Candle>, series: Series, rows: seq<Row>, now: nat, before: Option<nat>, picked: seq<nat>) {
    && Picks(picked, |rows|) && |picked| == |candles|
    && (forall i :: 0 <= i < |candles| ==> CarriesRow(candles[i], series, rows[picked[i]]))
    && (forall j :: 0 <= j < |rows| ==> (j in picked <==> IsReady(rows[j], series.timeframe, now, before)))
  }

  /** What is usable of an answer is exactly its ready rows, each as it came. */
  lemma {:induction false} UsableIsTheReadyRows(series: Series, rows: seq<Row>, now: nat, before: Option<nat>) returns (picked: seq<nat>)
    ensures AreTheReadyRows(Usable(series, rows, now, before), series, rows, now, before, picked)
  {
    hide Usable, IsReady, CarriesRow, AreTheReadyRows;
    if rows == [] {
      picked := [];
      NoRows(series, now, before);
    } else {
      picked := UsableIsTheReadyRows(series, Front(rows), now, before);
      RowIsUsableIff(series, rows, now, before);
      var (earlier, all) := (Usable(series, Front(rows), now, before), Usable(series, rows, now, before));
      if IsReady(Last(rows), series.timeframe, now, before) {
        ReadyRowAdded(earlier, Last(all), series, rows, now, before, picked);
        assert all == earlier + [Last(all)];
        picked := picked + [|rows| - 1];
      } else {
        UnreadyRowAdded(earlier, series, rows, now, before, picked);
      }
    }
  }

  lemma NoRows(series: Series, now: nat, before: Option<nat>)
    ensures AreTheReadyRows(Usable(series, [], now, before), series, [], now, before, [])
  {
  }

  lemma ReadyRowAdded(earlier: seq<Candle>, c: Candle, series: Series, rows: seq<Row>, now: nat, before: Option<nat>, picked: seq<nat>)
    requires rows != [] && AreTheReadyRows(earlier, series, Front(rows), now, before, picked)
    requires IsReady(Last(rows), series.timeframe, now, before) && CarriesRow(c, series, Last(rows))
    ensures AreTheReadyRows(earlier + [c], series, rows, now, before, picked + [|rows| - 1])
  {
    hide IsReady, CarriesRow;
    var more := picked + [|rows| - 1];
    forall j | 0 <= j < |rows| ensures j in more <==> IsReady(rows[j], series.timeframe, now, before) {
      if j < |rows| - 1 {
        assert Front(rows)[j] == rows[j];
      }
    }
  }

  lemma UnreadyRowAdded(earlier: seq<Candle>, series: Series, rows: seq<Row>, now: nat, before: Option<nat>, picked: seq<nat>)
    requires rows != [] && AreTheReadyRows(earlier, series, Front(rows), now, before, picked)
    requires !IsReady(Last(rows), series.timeframe, now, before)
    ensures AreTheReadyRows(earlier, series, rows, now, before, picked)
  {
    hide IsReady, CarriesRow;
    forall j | 0 <= j < |rows| ensures j in picked <==> IsReady(rows[j], series.timeframe, now, before) {
      if j < |rows| - 1 {
        assert Front(rows)[j] == rows[j];
      } else {
        assert forall i :: 0 <= i < |picked| ==> picked[i] < j;
      }
    }
  }

  lemma RowIsUsableIff(series: Series, rows: seq<Row>, now: nat, before: Option<nat>)
    requires rows != []
    ensures var (all, earlier) := (Usable(series, rows, now, before), Usable(series, Front(rows), now, before));
            if IsReady(Last(rows), series.timeframe, now, before)
            then |all| == |earlier| + 1 && all[..|earlier|] == earlier && CarriesRow(Last(all), series, Last(rows))
            else all == earlier
  {
  }

  /** The bar is there, or the window is full of newer ones. */
  predicate HoldsOrTrimmed(window: seq<Candle>, c: Candle, limit: nat) {
    c in window || (|window| >= limit && forall d :: d in window ==> d.openTime > c.openTime)
  }

  /** The last ready row of its open time. */
  predicate IsLastReady(rows: seq<Row>, j: nat, tf: Timeframe, now: nat, before: Option<nat>) {
    && j < |rows| && IsReady(rows[j], tf, now, before)
    && forall m :: j < m < |rows| && IsReady(rows[m], tf, now, before) ==> rows[m].openTime != rows[j].openTime
  }

  lemma TrimmingHoldsOrTrims(all: seq<Candle>, c: Candle, limit: nat)
    requires StrictlyNewer(all) && c in all
    ensures HoldsOrTrimmed(Tail(all, limit), c, limit)
  {
    var i :| 0 <= i < |all| && all[i] == c;
    var kept := Tail(all, limit);
    if i >= |all| - |kept| {
      assert kept[i - (|all| - |kept|)] == c;
    } else {
      forall d | d in kept ensures d.openTime > c.openTime {
        var k :| 0 <= k < |kept| && kept[k] == d;
        assert d == all[|all| - |kept| + k];
      }
    }
  }

  lemma LastReadyIsLastAt(candles: seq<Candle>, series: Series, rows: seq<Row>, now: nat, before: Option<nat>, picked: seq<nat>, j: nat)
    requires AreTheReadyRows(candles, series, rows, now, before, picked) && IsLastReady(rows, j, series.timeframe, now, before)
    ensures LastAt(candles, rows[j].openTime).Some? && CarriesRow(LastAt(candles, rows[j].openTime).value, series, rows[j])
  {
    hide IsReady;
    assert j in picked;
    var i :| 0 <= i < |picked| && picked[i] == j;
    forall k | i < k < |candles| ensures candles[k].openTime != rows[j].openTime {
      assert picked[k] > j && picked[k] in picked;
    }
    LatestIsLastAt(candles, i);
  }

  lemma {:induction false} LatestIsLastAt(candles: seq<Candle>, i: nat)
    requires i < |candles| && forall k :: i < k < |candles| ==> candles[k].openTime != candles[i].openTime
    ensures LastAt(candles, candles[i].openTime) == Some(candles[i])
    decreases |candles|
  {
    if i < |candles| - 1 {
      LatestIsLastAt(Front(candles), i);
    }
  }

  /** Whether a series has to be asked for: its window is short, or its newest bar is not the last that ended. */
  lemma AWindowIsAskedForIff(s: Store, series: Series, target: nat, now: nat)
    ensures var window := Window(s, series);
            !NeedsNothing(s, series, target, now)
            <==> window == [] || |window| < target
                 || Last(window).openTime + Duration(series.timeframe) < FloorToBucket(now, series.timeframe)
  {
  }

  /** What an answered request does to the window, row by row: the bar a ready row stands for is there, field
      for field, unless one built from ticks is held at its time, which stays; only a window full of newer
      bars is without it. */
  lemma TheWindowTakesTheAnswer(s: Store, series: Series, target: nat, limit: nat, before: Option<nat>, now: nat, rows: seq<Row>, fate: Outcome, j: nat)
    requires WindowKept(s, series) && limit > 0 && fate != Failed && !NeedsNothing(s, series, target, now)
    requires IsLastReady(rows, j, series.timeframe, now, before)
    ensures var held := LastAt(Window(s, series), rows[j].openTime);
            var after := Window(WarmSeries(s, series, target, limit, before, now, Answer(rows), fate).store, series);
            if held.Some? && held.value.tickCount > 0 then HoldsOrTrimmed(after, held.value, limit)
            else exists c :: CarriesRow(c, series, rows[j]) && HoldsOrTrimmed(after, c, limit)
  {
    hide NeedsNothing, Merge, WarmSeries, Usable, StrictlyNewer, LastAt, HoldsOrTrimmed, IsReady, CarriesRow;
    var (window, fetched, t) := (Window(s, series), Usable(series, rows, now, before), rows[j].openTime);
    AskingMergesTheAnswer(s, series, target, limit, before, now, rows, fate);
    var picked := UsableIsTheReadyRows(series, rows, now, before);
    LastReadyIsLastAt(fetched, series, rows, now, before, picked, j);
    MergePrefersBuiltBars(window, fetched, t);
    MergeIsTheUnion(window, fetched);
    LastAtTells(Merge(window, fetched), t);
    var c := LastAt(Merge(window, fetched), t).value;
    TrimmingHoldsOrTrims(Merge(window, fetched), c, limit);
    WholeHoldsOrTrims(Merge(window, fetched), c, limit);
  }

  lemma WholeHoldsOrTrims(all: seq<Candle>, c: Candle, limit: nat)
    requires c in all
    ensures HoldsOrTrimmed(all, c, limit)
  {
  }

  /** And nothing else gets in or out: every bar of the window afterwards was held before or stands for a
      ready row, and a bar held at a time no ready row has is there or trimmed. */
  lemma NothingElseGetsIn(s: Store, series: Series, target: nat, limit: nat, before: Option<nat>, now: nat, rows: seq<Row>, fate: Outcome)
    requires WindowKept(s, series) && limit > 0 && fate != Failed && !NeedsNothing(s, series, target, now)
    ensures var (window, after) := (Window(s, series), Window(WarmSeries(s, series, target, limit, before, now, Answer(rows), fate).store, series));
            && StrictlyNewer(after)
            && (forall c :: c in after ==> c in window || exists j ::
                  0 <= j < |rows| && IsReady(rows[j], series.timeframe, now, before) && CarriesRow(c, series, rows[j]))
            && (forall c :: c in window
                  && (forall j :: 0 <= j < |rows| && IsReady(rows[j], series.timeframe, now, before) ==> rows[j].openTime != c.openTime)
                  ==> HoldsOrTrimmed(after, c, limit))
  {
    hide NeedsNothing, Merge, WarmSeries, Usable, StrictlyNewer, HoldsOrTrimmed, CarriesRow, IsReady;
    var (window, fetched) := (Window(s, series), Usable(series, rows, now, before));
    AskingMergesTheAnswer(s, series, target, limit, before, now, rows, fate);
    var picked := UsableIsTheReadyRows(series, rows, now, before);
    MergeIsTheUnion(window, fetched);
    TailIsSorted(Merge(window, fetched), limit);
    var after := Topped(window, fetched, limit);
    forall c | c in after ensures c in window || exists j ::
                  0 <= j < |rows| && IsReady(rows[j], series.timeframe, now, before) && CarriesRow(c, series, rows[j]) {
      MergedIsHeldOrFetched(window, fetched, c);
      if c !in window {
        var i :| 0 <= i < |fetched| && fetched[i] == c;
        assert CarriesRow(fetched[i], series, rows[picked[i]]) && picked[i] in picked;
      }
    }
    forall c | c in window
      && (forall j :: 0 <= j < |rows| && IsReady(rows[j], series.timeframe, now, before) ==> rows[j].openTime != c.openTime)
      ensures HoldsOrTrimmed(after, c, limit)
    {
      NoRowAt(fetched, series, rows, now, before, picked, c.openTime);
      HeldStays(window, fetched, c);
      TrimmingHoldsOrTrims(Merge(window, fetched), c, limit);
      WholeHoldsOrTrims(Merge(window, fetched), c, limit);
    }
  }

  lemma MergedIsHeldOrFetched(window: seq<Candle>, fetched: seq<Candle>, c: Candle)
    requires StrictlyNewer(window) && c in Merge(window, fetched)
    ensures c in window || c in fetched
  {
    hide Merge, StrictlyNewer, LastAt;
    MergeIsTheUnion(window, fetched);
    var merged := Merge(window, fetched);
    var i :| 0 <= i < |merged| && merged[i] == c;
    OnlyOneAt(merged, i);
    MergePrefersBuiltBars(window, fetched, c.openTime);
    LastAtTells(window, c.openTime);
    LastAtTells(fetched, c.openTime);
  }

  lemma NoRowAt(candles: seq<Candle>, series: Series, rows: seq<Row>, now: nat, before: Option<nat>, picked: seq<nat>, t: nat)
    requires AreTheReadyRows(candles, series, rows, now, before, picked)
    requires forall j :: 0 <= j < |rows| && IsReady(rows[j], series.timeframe, now, before) ==> rows[j].openTime != t
    ensures LastAt(candles, t) == None
  {
    hide IsReady, LastAt;
    LastAtTells(candles, t);
    forall i | 0 <= i < |candles| ensures candles[i].openTime != t {
      assert picked[i] in picked && CarriesRow(candles[i], series, rows[picked[i]]);
    }
  }

  lemma HeldStays(window: seq<Candle>, fetched: seq<Candle>, c: Candle)
    requires StrictlyNewer(window) && c in window && LastAt(fetched, c.openTime) == None
    ensures c in Merge(window, fetched)
  {
    hide Merge, StrictlyNewer, LastAt;
    var i :| 0 <= i < |window| && window[i] == c;
    OnlyOneAt(window, i);
    MergePrefersBuiltBars(window, fetched, c.openTime);
    LastAtTells(Merge(window, fetched), c.openTime);
  }

  /** What is left to ask: nothing, when the window was not short, the vendor does not carry the symbol, or its
      answer brought nothing new or was written; otherwise the series is owed, and the vendor is off line if it
      did not answer at all. */
  lemma WhatIsStillOwed(s: Store, series: Series, target: nat, limit: nat, before: Option<nat>, now: nat, reply: Reply, fate: Outcome)
    requires WindowKept(s, series) && limit > 0
    ensures var (warmth, window) := (WarmSeries(s, series, target, limit, before, now, reply, fate).warmth, Window(s, series));
            && (warmth == Settled <==>
                  || NeedsNothing(s, series, target, now) || reply == NotServed
                  || (reply.Answer? && (fate == Done || Merge(window, Usable(series, reply.rows, now, before)) == window)))
            && (warmth == OwedOffline <==> !NeedsNothing(s, series, target, now) && reply == Offline)
  {
    hide NeedsNothing, Merge, Changed, StrictlyNewer, Written, Usable;
    if reply.Answer? {
      var (window, fetched) := (Window(s, series), Usable(series, reply.rows, now, before));
      if fetched == [] {
        NothingFetchedIsTheSame(window);
      } else if Changed(window, Merge(window, fetched)) == [] {
        NothingChangedIsTheSame(window, fetched);
      }
    }
  }

  /** A cached source, asked once at start-up, rewrites the window with the merge and moves no watermark. */
  lemma ACachedAnswerRewritesTheWindow(s: Store, series: Series, target: nat, limit: nat, now: nat, rows: seq<Row>, fate: Outcome)
    requires WindowKept(s, series) && limit > 0 && fate != Failed && !NeedsNothing(s, series, target, now)
    ensures var g := Carried(s, series, PlanSeries(s, series, target, None, now, Answer(rows), true, false), limit, true, fate).store;
            && Window(g, series) == Topped(Window(s, series), Usable(series, rows, now, None), limit)
            && g == s.(history := g.history) && (forall other :: other != series ==> Window(g, other) == Window(s, other))
  {
    hide NeedsNothing, Merge, Changed, StrictlyNewer, Usable;
    if Usable(series, rows, now, None) == [] {
      NothingFetchedIsTheSame(Window(s, series));
    }
  }

  /** Had the answer not been cut off before the close, the close could be lost. */
  lemma WithoutTheCutTheCloseIsDropped(c: Candle, now: nat)
    requires BucketClose(c.openTime, c.timeframe) <= now
    ensures var row := Row(c.openTime, c.open, c.high, c.low, c.close, c.volume);
            IsDuplicate(WarmSeries(EMPTY_STORE, SeriesOf(c), 1, 1, None, now, Answer([row]), Done).store, c)
  {
    var row := Row(c.openTime, c.open, c.high, c.low, c.close, c.volume);
    var bar := FromRow(SeriesOf(c), row);
    OneRowIsOneBar(SeriesOf(c), row, now);
    OneBarMerged(bar);
    hide Usable, Merge, Changed, Overlaid, FromRow;
  }

  lemma OneRowIsOneBar(series: Series, row: Row, now: nat)
    requires BucketClose(row.openTime, series.timeframe) <= now
    ensures Usable(series, [row], now, None) == [FromRow(series, row)]
  {
    assert Front([row]) == [];
  }

  lemma OneBarMerged(bar: Candle)
    ensures Merge([], [bar]) == [bar] && Changed([], [bar]) == [bar] && Overlaid([], [bar]) == [bar]
  {
    assert Front([bar]) == [];
    assert Overlaid([], [bar]) == [bar];
  }

  // ------------------------------------------------------------ the objects that do it

  class HistoryBackfiller {
    const state: RedisState
    const target: nat
    /** Whether the source's answers are kept in files: a vendor API, asked once, at start-up. */
    const cacheable: bool

    constructor (state: RedisState, ceiling: Option<nat>, cacheable: bool)
      ensures this.state == state && this.cacheable == cacheable
      ensures target == if ceiling.None? || ceiling.value > state.limit then state.limit else ceiling.value
    {
      this.state, this.cacheable := state, cacheable;
      target := if ceiling.None? || ceiling.value > state.limit then state.limit else ceiling.value;
    }

    /** Merge bars behind the watermark. Answers how many bars the window holds afterwards. */
    method MergeHistoryCandles(series: Series, candles: seq<Candle>) returns (written: nat)
      requires candles != []
      modifies state
      ensures MergedIn(old(state.View()), series, candles, state.limit) == Some(state.View())
      ensures written == |Window(state.View(), series)|
    {
      var held := if series in state.history then state.history[series] else [];
      var ordered := Tail(Overlaid(Overlaid([], held), candles), state.limit);
      var mark := if series in state.staged then state.staged[series] else 0;
      state.history := state.history[series := ordered];
      state.staged := state.staged[series := Later(mark, Newest(candles))];
      written := |ordered|;
    }

    /** Merge an answer with the window: what there is to write. */
    method PlanMerge(series: Series, fetched: seq<Candle>) returns (plan: Plan)
      ensures plan == PlanAnswer(state.View(), series, fetched, cacheable)
    {
      hide Merge, Changed;
      if fetched == [] {
        return Rest(Settled);
      }
      var existing := if series in state.history then state.history[series] else [];
      var merged := MergeCandles(existing, fetched);
      if merged == existing {
        return Rest(Settled);
      }
      var changed := Changed(existing, merged);
      plan := if !cacheable && changed == [] then Rest(Owed) else Write(merged, changed);
    }

    /** Check one series and, if it is short or the refresh is forced, ask: what there is to write. */
    method PlanBackfill(series: Series, before: Option<nat>, now: nat, reply: Reply, force: bool) returns (plan: Plan)
      ensures plan == PlanSeries(state.View(), series, target, before, now, reply, cacheable, force)
    {
      hide PlanAnswer;
      var window := if series in state.history then state.history[series] else [];
      if !force && window != [] && |window| >= target
         && BucketClose(Last(window).openTime, series.timeframe) >= FloorToBucket(now, series.timeframe) {
        return Rest(Settled);
      }
      match reply {
        case Offline => plan := Rest(OwedOffline);
        case NotServed => plan := Rest(Settled);
        case Broken => plan := Rest(Owed);
        case Answer(rows) => plan := PlanMerge(series, Usable(series, rows, now, before));
      }
    }

    /** Write a plan, under the fate its write meets. */
    method CarryOut(series: Series, plan: Plan, fate: Outcome) returns (warmth: Warmth)
      requires plan.Write? && !cacheable ==> plan.changed != []
      modifies state
      ensures Warmed(state.View(), warmth) == Carried(old(state.View()), series, plan, state.limit, cacheable, fate)
    {
      if plan.Rest? {
        return plan.warmth;
      }
      if fate == Failed {
        return Owed;
      }
      if cacheable {
        state.history := state.history[series := Tail(plan.merged, state.limit)];
      } else {
        var written := MergeHistoryCandles(series, plan.changed);
      }
      warmth := if fate == Done then Settled else Owed;
    }

    method BackfillSeries(series: Series, before: Option<nat>, now: nat, reply: Reply, force: bool, fate: Outcome) returns (warmth: Warmth)
      modifies state
      ensures Warmed(state.View(), warmth)
           == Carried(old(state.View()), series, PlanSeries(old(state.View()), series, target, before, now, reply, cacheable, force),
                      state.limit, cacheable, fate)
    {
      hide PlanSeries, Carried;
      var plan := PlanBackfill(series, before, now, reply, force);
      warmth := CarryOut(series, plan, fate);
    }
  }
}
