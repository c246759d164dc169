/** The merge of history behind the watermark while other writers are at the store
    (src/qte_shared/cache/redis_state.py): read, order, and swap only if the watermark has not moved,
    a few times over. The history loop merges beside the live path, so any number of writes can fall
    between a read and its swap. */
module MergeRaces {
  import opened Prelude
  import opened Timeframes
  import opened MarketData
  import opened ResamplerModel
  import opened ResamplerRuns
  import opened CandleStore
  import opened CandleMerge
  import opened Backfill

  /** One write of somebody else's. */
  datatype OtherWrite = Stages(c: Candle) | Acks | Saves(c: Candle) | Merges(series: Series, incoming: seq<Candle>)

  function Wrote(s: Store, write: OtherWrite, limit: nat): Store {
    match write
    case Stages(c) => Staged(s, c, limit)
    case Acks => Acked(s)
    case Saves(c) => Saved(s, c)
    case Merges(series, incoming) => if incoming == [] then s else MergedIn(s, series, incoming, limit).value
  }

  function Meanwhile(s: Store, writes: seq<OtherWrite>, limit: nat): Store {
    if writes == [] then s else Wrote(Meanwhile(s, Front(writes), limit), Last(writes), limit)
  }

  function Since(mark: Option<nat>): nat {
    if mark.Some? then mark.value else 0
  }

  /** Read at s, swap at t. */
  function SwapAt(s: Store, t: Store, series: Series, incoming: seq<Candle>, limit: nat): Option<Store>
    requires incoming != []
  {
    var ordered := Tail(Overlaid(Overlaid([], Window(s, series)), incoming), limit);
    Swapped(t, series, Mark(s, series), ordered, Later(Since(Mark(s, series)), Newest(incoming)))
  }

  /** How a merge ended: the store, how many attempts it made, and whether the last of them went in. */
  datatype Merging = Merging(store: Store, attempts: nat, isIn: bool)

  /** One attempt for each list of writes that falls between a read and its swap. */
  function Merged(s: Store, series: Series, incoming: seq<Candle>, limit: nat, races: seq<seq<OtherWrite>>): (m: Merging)
    requires incoming != []
    ensures m.attempts <= |races| && (m.isIn ==> m.attempts > 0)
    decreases |races|
  {
    if races == [] then Merging(s, 0, false)
    else
      var t := Meanwhile(s, races[0], limit);
      var swapped := SwapAt(s, t, series, incoming, limit);
      if swapped.Some? then Merging(swapped.value, 1, true)
      else
        var later := Merged(t, series, incoming, limit, races[1..]);
        Merging(later.store, later.attempts + 1, later.isIn)
  }

  /** What the others alone have made of the store. */
  function Others(s: Store, races: seq<seq<OtherWrite>>, limit: nat): Store
    decreases |races|
  {
    if races == [] then s else Others(Meanwhile(s, races[0], limit), races[1..], limit)
  }

  // ------------------------------------------------------------ which writes a merge notices

  /** A write leaves the series' window alone or moves its watermark. */
  predicate IsNoticed(s: Store, write: OtherWrite, series: Series, limit: nat) {
    var t := Wrote(s, write, limit);
    Window(t, series) == Window(s, series) || Mark(t, series) != Mark(s, series)
  }

  predicate AllNoticed(s: Store, writes: seq<OtherWrite>, series: Series, limit: nat) {
    writes != [] ==>
      && AllNoticed(s, Front(writes), series, limit)
      && IsNoticed(Meanwhile(s, Front(writes), limit), Last(writes), series, limit)
  }

  predicate EveryRaceNoticed(s: Store, races: seq<seq<OtherWrite>>, series: Series, limit: nat)
    decreases |races|
  {
    races != [] ==>
      && AllNoticed(s, races[0], series, limit)
      && EveryRaceNoticed(Meanwhile(s, races[0], limit), races[1..], series, limit)
  }

  /** Everything but another merge of the same series is noticed: a live close that is staged always
      moves the watermark, and what is not staged writes nothing. */
  lemma OnlyMergesGoUnnoticed(s: Store, write: OtherWrite, series: Series, limit: nat)
    requires !(write.Merges? && write.series == series)
    ensures IsNoticed(s, write, series, limit)
  {
    hide Overlaid, Newest;
  }

  /** A merge of the same series is noticed exactly if its newest bar is beyond the watermark or the
      window comes out as it was. */
  lemma AMergeIsNoticedIff(s: Store, series: Series, incoming: seq<Candle>, limit: nat)
    requires WindowKept(s, series) && incoming != []
    ensures IsNoticed(s, Merges(series, incoming), series, limit)
        <==> || Mark(s, series).None? || Newest(incoming) > Mark(s, series).value
             || Tail(Overlaid(Window(s, series), incoming), limit) == Window(s, series)
  {
    hide Overlaid, Newest, StrictlyNewer, MergedIn;
    MergedInIs(s, series, incoming, limit);
  }

  predicate NoOtherMerge(races: seq<seq<OtherWrite>>, series: Series) {
    forall i, j :: 0 <= i < |races| && 0 <= j < |races[i]| ==> !(races[i][j].Merges? && races[i][j].series == series)
  }

  lemma {:induction false} WritesAreNoticed(s: Store, writes: seq<OtherWrite>, series: Series, limit: nat)
    requires forall j :: 0 <= j < |writes| ==> !(writes[j].Merges? && writes[j].series == series)
    ensures AllNoticed(s, writes, series, limit)
  {
    hide IsNoticed;
    if writes != [] {
      WritesAreNoticed(s, Front(writes), series, limit);
      OnlyMergesGoUnnoticed(Meanwhile(s, Front(writes), limit), Last(writes), series, limit);
    }
  }

  lemma {:induction false} WithoutOtherMergesAllIsNoticed(s: Store, races: seq<seq<OtherWrite>>, series: Series, limit: nat)
    requires NoOtherMerge(races, series)
    ensures EveryRaceNoticed(s, races, series, limit)
    decreases |races|
  {
    hide AllNoticed, Meanwhile;
    if races != [] {
      WritesAreNoticed(s, races[0], series, limit);
      assert forall i :: 0 <= i < |races[1..]| ==> races[1..][i] == races[i + 1];
      WithoutOtherMergesAllIsNoticed(Meanwhile(s, races[0], limit), races[1..], series, limit);
    }
  }

  // ------------------------------------------------------------ what a swap that goes in means

  lemma MarksOnlyRise(s: Store, write: OtherWrite, series: Series, limit: nat)
    ensures AtLeast(Mark(Wrote(s, write, limit), series), Mark(s, series))
  {
    hide Overlaid, Newest;
  }

  /** A watermark that has not moved vouches for the window, as long as every write is noticed. */
  lemma {:induction false} SameMarkSameWindow(s: Store, writes: seq<OtherWrite>, series: Series, limit: nat)
    ensures AtLeast(Mark(Meanwhile(s, writes, limit), series), Mark(s, series))
    ensures AllNoticed(s, writes, series, limit) && Mark(Meanwhile(s, writes, limit), series) == Mark(s, series) ==>
              Window(Meanwhile(s, writes, limit), series) == Window(s, series)
  {
    hide Wrote, Window, Mark;
    if writes != [] {
      SameMarkSameWindow(s, Front(writes), series, limit);
      MarksOnlyRise(Meanwhile(s, Front(writes), limit), Last(writes), series, limit);
    }
  }

  /** Read at one moment and swapped at another, it is as if it had all been done at the other. */
  lemma ASwapIsAMerge(s: Store, t: Store, series: Series, incoming: seq<Candle>, limit: nat)
    requires incoming != [] && (Mark(t, series) == Mark(s, series) ==> Window(t, series) == Window(s, series))
    ensures SwapAt(s, t, series, incoming, limit)
         == if Mark(t, series) == Mark(s, series) then MergedIn(t, series, incoming, limit) else None
  {
    hide Overlaid, Newest, Tail;
  }

  /** The watermark moved in every attempt. */
  predicate MovedEveryTime(s: Store, races: seq<seq<OtherWrite>>, series: Series, limit: nat)
    decreases |races|
  {
    races != [] ==>
      && Mark(Meanwhile(s, races[0], limit), series) != Mark(s, series)
      && MovedEveryTime(Meanwhile(s, races[0], limit), races[1..], series, limit)
  }

  /** Whatever falls between its reads and its swaps, as long as it is noticed: the merge either goes in
      as one step, after everything the others wrote before its swap, so that none of it is undone; or it
      gives up, having written nothing, and only after the watermark moved under every attempt. */
  lemma {:induction false} AMergeIsOneStep(s: Store, series: Series, incoming: seq<Candle>, limit: nat, races: seq<seq<OtherWrite>>)
    requires incoming != [] && EveryRaceNoticed(s, races, series, limit)
    ensures var m := Merged(s, series, incoming, limit, races);
            var t := Others(s, races[..m.attempts], limit);
            && m.store == (if m.isIn then MergedIn(t, series, incoming, limit).value else t)
            && (m.isIn <==> !MovedEveryTime(s, races, series, limit))
            && (!m.isIn ==> m.attempts == |races|)
    decreases |races|
  {
    hide AllNoticed, Meanwhile, MergedIn, SwapAt, Mark, Window;
    if races != [] {
      var t := Meanwhile(s, races[0], limit);
      SameMarkSameWindow(s, races[0], series, limit);
      ASwapIsAMerge(s, t, series, incoming, limit);
      var m := Merged(s, series, incoming, limit, races);
      if SwapAt(s, t, series, incoming, limit).Some? {
        OneRace(s, races[0], races[..1], limit);
      } else {
        AMergeIsOneStep(t, series, incoming, limit, races[1..]);
        var later := Merged(t, series, incoming, limit, races[1..]);
        assert races[..m.attempts][0] == races[0] && races[..m.attempts][1..] == races[1..][..later.attempts];
      }
    }
  }

  lemma OneRace(s: Store, writes: seq<OtherWrite>, races: seq<seq<OtherWrite>>, limit: nat)
    requires races == [writes]
    ensures Others(s, races, limit) == Meanwhile(s, writes, limit)
  {
    hide Meanwhile;
    assert races[1..] == [];
  }

  /** So a merge undoes no live close that is staged while it runs, however many there are. */
  lemma AMergeUndoesNoClose(s: Store, series: Series, incoming: seq<Candle>, limit: nat, races: seq<seq<OtherWrite>>)
    requires incoming != [] && NoOtherMerge(races, series)
    ensures var m := Merged(s, series, incoming, limit, races);
            var t := Others(s, races[..m.attempts], limit);
            && m.store == (if m.isIn then MergedIn(t, series, incoming, limit).value else t)
            && (m.isIn <==> !MovedEveryTime(s, races, series, limit))
  {
    hide Merged, Others, MergedIn, NoOtherMerge, MovedEveryTime;
    WithoutOtherMergesAllIsNoticed(s, races, series, limit);
    AMergeIsOneStep(s, series, incoming, limit, races);
  }

  // ------------------------------------------------------------ a close that comes after the merge

  /** A close that comes after a merge is staged exactly if it would have been before it and every merged
      bar is older: the check of the watermark is no protection here, as the merge itself has moved it. */
  lemma ACloseAfterAMergeIsStagedIff(t: Store, c: Candle, incoming: seq<Candle>, limit: nat)
    requires incoming != []
    ensures var g := MergedIn(t, SeriesOf(c), incoming, limit).value;
            && g.outbox == t.outbox
            && (Staged(g, c, limit).outbox == t.outbox + [c] <==> !IsDuplicate(t, c) && Newest(incoming) < c.openTime)
            && (Staged(g, c, limit).outbox == t.outbox <==> IsDuplicate(t, c) || Newest(incoming) >= c.openTime)
  {
    hide Overlaid, Newest, Tail;
  }

  /** So the vendor's copy of a bar that has just closed, merged with no cut before the live bar arrives,
      takes its place: it is in the window, and it never reaches the outbox. */
  lemma AMergedCopyTakesTheClose(four: Candle, vendorFive: Candle, liveFive: Candle)
    requires SeriesOf(four) == SeriesOf(vendorFive) == SeriesOf(liveFive) && four.openTime < vendorFive.openTime == liveFive.openTime
    ensures var (s, series) := (Staged(EMPTY_STORE, four, 100), SeriesOf(four));
            var m := Merged(s, series, [vendorFive], 100, [[]]);
            && !IsDuplicate(s, liveFive) && m.isIn && Window(m.store, series) == [four, vendorFive]
            && Staged(m.store, liveFive, 100).outbox == [four]
  {
    hide Overlaid, MergedIn, Merged;
    var (s, series) := (Staged(EMPTY_STORE, four, 100), SeriesOf(four));
    assert [] + [four] == [four] && s.outbox == [four];
    UndisturbedMerge(s, series, [vendorFive], 100);
    ACloseAfterAMergeIsStagedIff(s, liveFive, [vendorFive], 100);
    MergedInIs(s, series, [vendorFive], 100);
    OverlayOfNewer(four, vendorFive);
  }

  lemma OverlayOfNewer(older: Candle, newer: Candle)
    requires older.openTime < newer.openTime
    ensures Overlaid([older], [newer]) == [older, newer]
  {
    assert Front([newer]) == [];
    assert Put([older], newer) == [older] + [newer];
  }

  /** With nobody else at the window the first attempt goes in. */
  lemma UndisturbedMerge(s: Store, series: Series, incoming: seq<Candle>, limit: nat)
    requires incoming != []
    ensures Merged(s, series, incoming, limit, [[]]) == Merging(MergedIn(s, series, incoming, limit).value, 1, true)
  {
    hide Overlaid, Newest, Tail;
    assert Meanwhile(s, [], limit) == s;
  }

  // ------------------------------------------------------------ two merges at once

  /** What one merge changes at a time, the other one writes as well. */
  predicate Covers(incoming: seq<Candle>, other: seq<Candle>, window: seq<Candle>, t: nat) {
    LastAt(other, t).Some? && LastAt(other, t) != LastAt(window, t) ==> LastAt(incoming, t).Some?
  }

  /** The times of the bars that are newer than a moment. */
  function NewerTimes(candles: seq<Candle>, t: nat): set<nat> {
    set u | u in OpenTimes(candles) && u > t
  }

  /** The window both merges together would leave, had it no limit. */
  function Both(window: seq<Candle>, other: seq<Candle>, incoming: seq<Candle>): seq<Candle> {
    Overlaid(Overlaid(window, other), incoming)
  }

  /** A merge of older bars goes unnoticed; the merge that overtakes it undoes it, unless every bar the
      overtaken one changed opens when a bar of the overtaking one does, or is trimmed off anyway. */
  lemma AnUnnoticedMergeIsKeptIff(s: Store, series: Series, incoming: seq<Candle>, other: seq<Candle>, limit: nat)
    requires WindowKept(s, series) && incoming != [] && other != []
    requires Mark(s, series).Some? && Newest(other) <= Mark(s, series).value
    ensures var m := Merged(s, series, incoming, limit, [[Merges(series, other)]]);
            var t := Meanwhile(s, [Merges(series, other)], limit);
            && m.isIn
            && (m.store == MergedIn(t, series, incoming, limit).value
                <==> forall u: nat :: Covers(incoming, other, Window(s, series), u)
                                      || |NewerTimes(Both(Window(s, series), other, incoming), u)| >= limit)
  {
    hide Overlaid, Newest, StrictlyNewer, Covers, Tail, MergedIn, SwapAt, Meanwhile, NewerTimes;
    var write := Merges(series, other);
    var t := Meanwhile(s, [write], limit);
    var window := Window(s, series);
    JustOneWrite(s, write, limit);
    MergedInIs(s, series, other, limit);
    OverlayIsSorted(window, other);
    TailIsSorted(Overlaid(window, other), limit);
    SwappedIn(s, t, series, incoming, limit);
    SwappedOver(t, series, incoming, limit);
    TrimmingFirstIsNoMatter(Overlaid(window, other), incoming, limit);
    SameTailIff(window, other, incoming, limit);
    var (a, b) := (SwapAt(s, t, series, incoming, limit).value, MergedIn(t, series, incoming, limit).value);
    assert a.history[series] == Tail(Overlaid(window, incoming), limit) && b.history[series] == Tail(Both(window, other, incoming), limit);
  }

  // ------------------------------------------------------------ what trimming keeps

  lemma {:induction false} AsManyTimesAsBars(candles: seq<Candle>)
    requires StrictlyNewer(candles)
    ensures |OpenTimes(candles)| == |candles|
  {
    if candles != [] {
      assert candles == Front(candles) + [Last(candles)];
      AsManyTimesAsBars(Front(candles));
      OpenTimesOfOneMore(Front(candles), Last(candles));
      assert Last(candles).openTime !in OpenTimes(Front(candles));
    }
  }

  lemma {:induction false} SubsetIsSmaller(a: set<nat>, b: set<nat>)
    requires a <= b
    ensures |a| <= |b|
  {
    if a != {} {
      var x :| x in a;
      SubsetIsSmaller(a - {x}, b - {x});
    }
  }

  /** In a sorted window, the bars newer than the i-th are those after it. */
  lemma NewerAreTheRest(candles: seq<Candle>, i: nat)
    requires StrictlyNewer(candles) && i < |candles|
    ensures |NewerTimes(candles, candles[i].openTime)| == |candles| - 1 - i
  {
    var rest := candles[i + 1..];
    assert forall j :: 0 <= j < |rest| ==> rest[j] == candles[i + 1 + j];
    AsManyTimesAsBars(rest);
    assert NewerTimes(candles, candles[i].openTime) == OpenTimes(rest) by {
      forall u | u in NewerTimes(candles, candles[i].openTime) ensures u in OpenTimes(rest) {
        var j :| 0 <= j < |candles| && candles[j].openTime == u;
        assert rest[j - i - 1].openTime == u;
      }
    }
  }

  /** Trimming keeps the i-th bar exactly if fewer than `limit` bars come after it. */
  lemma TailHoldsAt(candles: seq<Candle>, limit: nat, i: nat)
    requires StrictlyNewer(candles) && i < |candles|
    ensures LastAt(Tail(candles, limit), candles[i].openTime) == if |candles| - 1 - i < limit then Some(candles[i]) else None
  {
    hide LastAt, OpenTimes;
    var (tail, d) := (Tail(candles, limit), |candles| - |Tail(candles, limit)|);
    TailIsSorted(candles, limit);
    if i >= d {
      assert tail[i - d] == candles[i];
      OnlyOneAt(tail, i - d);
    } else {
      assert forall j :: 0 <= j < |tail| ==> tail[j] == candles[d + j];
      NoneAtAnOlderTime(tail, candles[i].openTime);
    }
  }

  lemma {:induction false} NoneAtAnOlderTime(candles: seq<Candle>, t: nat)
    requires forall j :: 0 <= j < |candles| ==> candles[j].openTime > t
    ensures LastAt(candles, t) == None
  {
    if candles != [] {
      NoneAtAnOlderTime(Front(candles), t);
    }
  }

  /** Trimming keeps a bar exactly if fewer than `limit` bars are newer. */
  lemma TailHolds(candles: seq<Candle>, limit: nat, t: nat)
    requires StrictlyNewer(candles)
    ensures StrictlyNewer(Tail(candles, limit))
    ensures LastAt(Tail(candles, limit), t)
         == if LastAt(candles, t).Some? && |NewerTimes(candles, t)| < limit then LastAt(candles, t) else None
  {
    hide NewerTimes, LastAt, StrictlyNewer, Tail;
    TailIsSorted(candles, limit);
    LastAtTells(candles, t);
    LastAtTells(Tail(candles, limit), t);
    if LastAt(candles, t).Some? {
      var i :| 0 <= i < |candles| && candles[i].openTime == t;
      OnlyOneAt(candles, i);
      NewerAreTheRest(candles, i);
      TailHoldsAt(candles, limit, i);
    }
  }

  /** Two windows, one with at least the times of the other, that differ only at times with `limit` newer
      bars, are the same once trimmed. */
  lemma SameTail(a: seq<Candle>, b: seq<Candle>, limit: nat)
    requires StrictlyNewer(a) && StrictlyNewer(b)
    requires forall u: nat :: LastAt(a, u).Some? ==> LastAt(b, u).Some?
    requires forall u: nat :: LastAt(a, u) == LastAt(b, u) || |NewerTimes(b, u)| >= limit
    ensures Tail(a, limit) == Tail(b, limit)
  {
    hide StrictlyNewer, NewerTimes, LastAt;
    TailHolds(a, limit, 0);
    TailHolds(b, limit, 0);
    forall u: nat ensures LastAt(Tail(a, limit), u) == LastAt(Tail(b, limit), u) {
      TailHolds(a, limit, u);
      TailHolds(b, limit, u);
      FewerAreNewer(a, b, u);
      if |NewerTimes(b, u)| >= limit {
        EnoughAreNewer(a, b, limit, u);
      }
    }
    SortedWindowIsItsContents(Tail(a, limit), Tail(b, limit));
  }

  lemma FewerAreNewer(a: seq<Candle>, b: seq<Candle>, t: nat)
    requires forall u: nat :: LastAt(a, u).Some? ==> LastAt(b, u).Some?
    ensures |NewerTimes(a, t)| <= |NewerTimes(b, t)|
  {
    hide LastAt, OpenTimes;
    forall u | u in NewerTimes(a, t) ensures u in NewerTimes(b, t) {
      LastAtTells(a, u);
      LastAtTells(b, u);
    }
    SubsetIsSmaller(NewerTimes(a, t), NewerTimes(b, t));
  }

  /** What trimming keeps of the one is in the other, so neither keeps anything older than that. */
  lemma EnoughAreNewer(a: seq<Candle>, b: seq<Candle>, limit: nat, t: nat)
    requires StrictlyNewer(b) && |NewerTimes(b, t)| >= limit
    requires forall u: nat :: LastAt(a, u) == LastAt(b, u) || |NewerTimes(b, u)| >= limit
    ensures |NewerTimes(a, t)| >= limit
  {
    hide LastAt;
    var tail := Tail(b, limit);
    FewerThanAll(b, t);
    TailIsSorted(b, limit);
    AsManyTimesAsBars(tail);
    forall u | u in OpenTimes(tail) ensures u in NewerTimes(a, t) {
      TailHolds(b, limit, u);
      LastAtTells(tail, u);
      LastAtTells(a, u);
      if u <= t {
        SubsetIsSmaller(NewerTimes(b, t), NewerTimes(b, u));
      }
    }
    SubsetIsSmaller(OpenTimes(tail), NewerTimes(a, t));
  }

  lemma FewerThanAll(candles: seq<Candle>, t: nat)
    requires StrictlyNewer(candles)
    ensures |NewerTimes(candles, t)| <= |candles|
  {
    AsManyTimesAsBars(candles);
    SubsetIsSmaller(NewerTimes(candles, t), OpenTimes(candles));
  }

  /** Trimming before an overlay as well as after it changes nothing. */
  lemma TrimmingFirstIsNoMatter(window: seq<Candle>, incoming: seq<Candle>, limit: nat)
    requires StrictlyNewer(window)
    ensures Tail(Overlaid(Tail(window, limit), incoming), limit) == Tail(Overlaid(window, incoming), limit)
  {
    hide StrictlyNewer, NewerTimes, LastAt, Overlaid, Tail;
    var (trimmed, whole) := (Overlaid(Tail(window, limit), incoming), Overlaid(window, incoming));
    TailHolds(window, limit, 0);
    OverlayHolds(Tail(window, limit), incoming, 0);
    OverlayHolds(window, incoming, 0);
    forall u: nat
      ensures LastAt(trimmed, u).Some? ==> LastAt(whole, u).Some?
      ensures LastAt(trimmed, u) == LastAt(whole, u) || |NewerTimes(whole, u)| >= limit
    {
      TailHolds(window, limit, u);
      OverlayHolds(Tail(window, limit), incoming, u);
      OverlayHolds(window, incoming, u);
      OverlayHasMore(window, incoming, u);
    }
    SameTail(trimmed, whole, limit);
  }

  lemma OverlayHasMore(window: seq<Candle>, incoming: seq<Candle>, t: nat)
    requires StrictlyNewer(window)
    ensures |NewerTimes(window, t)| <= |NewerTimes(Overlaid(window, incoming), t)|
  {
    hide StrictlyNewer, NewerTimes, LastAt, Overlaid;
    forall u: nat ensures LastAt(window, u).Some? ==> LastAt(Overlaid(window, incoming), u).Some? {
      OverlayHolds(window, incoming, u);
    }
    FewerAreNewer(window, Overlaid(window, incoming), t);
  }

  lemma SameTailIff(window: seq<Candle>, other: seq<Candle>, incoming: seq<Candle>, limit: nat)
    requires StrictlyNewer(window)
    ensures Tail(Overlaid(window, incoming), limit) == Tail(Both(window, other, incoming), limit)
        <==> forall u: nat :: Covers(incoming, other, window, u) || |NewerTimes(Both(window, other, incoming), u)| >= limit
  {
    hide Overlaid, StrictlyNewer, LastAt, NewerTimes, Tail;
    var (a, b) := (Overlaid(window, incoming), Both(window, other, incoming));
    OverlayHolds(window, other, 0);
    OverlayHolds(window, incoming, 0);
    OverlayHolds(Overlaid(window, other), incoming, 0);
    forall u: nat
      ensures LastAt(a, u) == LastAt(b, u) <==> Covers(incoming, other, window, u)
      ensures LastAt(a, u).Some? ==> LastAt(b, u).Some?
      ensures !Covers(incoming, other, window, u) ==> LastAt(b, u).Some?
    {
      OverlayHolds(window, incoming, u);
      OverlayHolds(window, other, u);
      OverlayHolds(Overlaid(window, other), incoming, u);
    }
    if forall u: nat :: Covers(incoming, other, window, u) || |NewerTimes(b, u)| >= limit {
      SameTail(a, b, limit);
    } else {
      var u: nat :| !Covers(incoming, other, window, u) && |NewerTimes(b, u)| < limit;
      TailHolds(a, limit, u);
      TailHolds(b, limit, u);
    }
  }

  lemma JustOneWrite(s: Store, write: OtherWrite, limit: nat)
    ensures Meanwhile(s, [write], limit) == Wrote(s, write, limit)
  {
    hide Wrote;
    assert Front([write]) == [];
  }

  lemma OverlayIsSorted(window: seq<Candle>, incoming: seq<Candle>)
    requires StrictlyNewer(window)
    ensures StrictlyNewer(Overlaid(window, incoming))
  {
    OverlayIsTheSeries(window, incoming);
  }

  /** The swap writes the overlay of what was read. */
  lemma SwappedIn(s: Store, t: Store, series: Series, incoming: seq<Candle>, limit: nat)
    requires incoming != [] && StrictlyNewer(Window(s, series)) && Mark(t, series) == Mark(s, series)
    ensures SwapAt(s, t, series, incoming, limit)
         == Some(t.(history := t.history[series := Tail(Overlaid(Window(s, series), incoming), limit)],
                    staged := t.staged[series := Later(Since(Mark(s, series)), Newest(incoming))]))
  {
    SortedStays(Window(s, series));
    hide Overlaid, Newest, StrictlyNewer, Tail;
  }

  /** The merge in one step writes the overlay of what is there. */
  lemma SwappedOver(t: Store, series: Series, incoming: seq<Candle>, limit: nat)
    requires incoming != [] && StrictlyNewer(Window(t, series))
    ensures MergedIn(t, series, incoming, limit).value
         == t.(history := t.history[series := Tail(Overlaid(Window(t, series), incoming), limit)],
               staged := t.staged[series := Later(Since(Mark(t, series)), Newest(incoming))])
  {
    SortedStays(Window(t, series));
    hide Overlaid, Newest, StrictlyNewer, Tail;
  }

  /** What the overtaken merge had written, and what the overtaking one leaves. */
  lemma TheOvertakerWrites(s: Store, series: Series, incoming: seq<Candle>, other: seq<Candle>, limit: nat)
    requires WindowKept(s, series) && incoming != [] && other != []
    requires Mark(s, series).Some? && Newest(other) <= Mark(s, series).value
    ensures var m := Merged(s, series, incoming, limit, [[Merges(series, other)]]);
            && Window(Meanwhile(s, [Merges(series, other)], limit), series) == Tail(Overlaid(Window(s, series), other), limit)
            && m.isIn && Window(m.store, series) == Tail(Overlaid(Window(s, series), incoming), limit)
  {
    hide Overlaid, Newest, StrictlyNewer, Tail, MergedIn, SwapAt, Meanwhile;
    var write := Merges(series, other);
    JustOneWrite(s, write, limit);
    MergedInIs(s, series, other, limit);
    SwappedIn(s, Meanwhile(s, [write], limit), series, incoming, limit);
  }

  /** It can happen: a bar merged while an older one is being merged is gone, and neither is told. */
  lemma AnOvertakenMergeIsUndone(five: Candle, three: Candle, two: Candle)
    requires SeriesOf(five) == SeriesOf(three) == SeriesOf(two) && two.openTime < three.openTime < five.openTime
    ensures var (s, series) := (Staged(EMPTY_STORE, five, 100), SeriesOf(five));
            var m := Merged(s, series, [two], 100, [[Merges(series, [three])]]);
            && Window(Meanwhile(s, [Merges(series, [three])], 100), series) == [three, five]
            && m.isIn && Window(m.store, series) == [two, five]
  {
    hide Merged, Meanwhile, Overlaid;
    var (s, series) := (Staged(EMPTY_STORE, five, 100), SeriesOf(five));
    assert [] + [five] == [five];
    OverlayOfTwo(five, three);
    OverlayOfTwo(five, two);
    TheOvertakerWrites(s, series, [two], [three], 100);
  }

  lemma OverlayOfTwo(newer: Candle, older: Candle)
    requires older.openTime < newer.openTime
    ensures Overlaid([newer], [older]) == [older, newer]
  {
    assert Front([newer]) == [] && Front([older]) == [] && Put([], older) == [older];
    assert Put([newer], older) == Put([], older) + [newer];
  }

  // ------------------------------------------------------------ the object that does it

  const ATTEMPTS := 3

  class WindowMerger {
    const state: RedisState

    constructor (state: RedisState)
      ensures this.state == state
    {
      this.state := state;
    }

    /** The writes of others, as they reach the store. */
    method LetOthersWrite(writes: seq<OtherWrite>)
      modifies state
      ensures state.View() == Meanwhile(old(state.View()), writes, state.limit)
    {
      for i := 0 to |writes|
        invariant state.View() == Meanwhile(old(state.View()), writes[..i], state.limit)
      {
        hide Staged, MergedIn;
        assert Front(writes[..i + 1]) == writes[..i];
        match writes[i] {
          case Stages(c) => state.StageClosedCandle(c);
          case Acks => state.AckPendingCandle();
          case Saves(c) => state.SetOpenCandle(c);
          case Merges(series, incoming) =>
            if incoming != [] {
              var backfiller := new HistoryBackfiller(state, None, false);
              var written := backfiller.MergeHistoryCandles(series, incoming);
            }
        }
      }
      assert writes[..|writes|] == writes;
    }

    /** Merge bars behind the watermark. Answers how many bars the window holds afterwards, or nothing
        if the window kept changing underneath. */
    method MergeHistoryCandles(series: Series, candles: seq<Candle>, races: seq<seq<OtherWrite>>) returns (written: Option<nat>)
      requires candles != [] && |races| == ATTEMPTS
      modifies state
      ensures var m := Merged(old(state.View()), series, candles, state.limit, races);
              && state.View() == m.store
              && written == if m.isIn then Some(|Window(state.View(), series)|) else None
    {
      ghost var start := state.View();
      for attempt := 0 to ATTEMPTS
        invariant Continues(start, state.View(), series, candles, state.limit, races, attempt)
      {
        ghost var s := state.View();
        var held := if series in state.history then state.history[series] else [];
        var read := if series in state.staged then Some(state.staged[series]) else None;
        var ordered := Tail(Overlaid(Overlaid([], held), candles), state.limit);
        LetOthersWrite(races[attempt]);
        NextAttempt(start, s, series, candles, state.limit, races, attempt);
        var now := if series in state.staged then Some(state.staged[series]) else None;
        if now == read {
          state.history := state.history[series := ordered];
          state.staged := state.staged[series := Later(Since(read), Newest(candles))];
          return Some(|ordered|);
        }
      }
      written := None;
    }
  }

  /** After this many failed attempts the merge stands at this store. */
  ghost predicate Continues(start: Store, s: Store, series: Series, incoming: seq<Candle>, limit: nat, races: seq<seq<OtherWrite>>, attempt: nat)
    requires incoming != [] && attempt <= |races|
  {
    var (whole, rest) := (Merged(start, series, incoming, limit, races), Merged(s, series, incoming, limit, races[attempt..]));
    whole.store == rest.store && whole.isIn == rest.isIn
  }

  lemma NextAttempt(start: Store, s: Store, series: Series, incoming: seq<Candle>, limit: nat, races: seq<seq<OtherWrite>>, attempt: nat)
    requires incoming != [] && attempt < |races| && Continues(start, s, series, incoming, limit, races, attempt)
    ensures var t := Meanwhile(s, races[attempt], limit);
            var (swapped, whole) := (SwapAt(s, t, series, incoming, limit), Merged(start, series, incoming, limit, races));
            if swapped.Some? then whole.store == swapped.value && whole.isIn
            else Continues(start, t, series, incoming, limit, races, attempt + 1)
  {
    hide Meanwhile, SwapAt;
    assert races[attempt..][0] == races[attempt] && races[attempt..][1..] == races[attempt + 1..];
  }
}
