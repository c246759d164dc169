/** Vendor history merged with what is held (src/qte_ingestion/backfill.py and the merge script of
    src/qte_shared/cache/redis_state.py): the merge, its laws, and the loops that compute it. */
module CandleMerge {
  import opened Prelude
  import opened Timeframes
  import opened MarketData
  import opened ResamplerRuns

  // ------------------------------------------------------------ a window, keyed by open time

  /** The last bar listed for an open time: what a dictionary built from the list holds there. */
  function LastAt(candles: seq<Candle>, t: nat): Option<Candle> {
    if candles == [] then None
    else if Last(candles).openTime == t then Some(Last(candles))
    else LastAt(Front(candles), t)
  }

  /** A bar put in its place in a sorted window, over the one of its open time if there is one. */
  function Put(window: seq<Candle>, c: Candle): seq<Candle> {
    if window == [] || Last(window).openTime < c.openTime then window + [c]
    else if Last(window).openTime == c.openTime then Front(window) + [c]
    else Put(Front(window), c) + [Last(window)]
  }

  /** A dictionary filled from a list and read out sorted, over what it held before. */
  function Overlaid(window: seq<Candle>, incoming: seq<Candle>): seq<Candle> {
    if incoming == [] then window else Put(Overlaid(window, Front(incoming)), Last(incoming))
  }

  /** Held bars over fetched ones, where they were built from ticks or nothing was fetched. */
  function Kept(existing: seq<Candle>, fetched: seq<Candle>): seq<Candle> {
    if existing == [] then fetched
    else
      var before := Kept(Front(existing), fetched);
      var c := Last(existing);
      if c.tickCount > 0 || LastAt(before, c.openTime).None? then Put(before, c) else before
  }

  /** Union by open time, oldest first, preferring the bar this engine built. */
  function Merge(existing: seq<Candle>, fetched: seq<Candle>): seq<Candle> {
    Kept(existing, Overlaid([], fetched))
  }

  /** The bar the merge holds at a time, said without the merge. */
  function Chosen(existing: seq<Candle>, fetched: seq<Candle>, t: nat): Option<Candle> {
    if existing == [] then LastAt(fetched, t)
    else
      var before := Chosen(Front(existing), fetched, t);
      var c := Last(existing);
      if c.openTime == t && (c.tickCount > 0 || before.None?) then Some(c) else before
  }

  // ------------------------------------------------------------ sorted windows

  lemma {:induction false} LastAtTells(candles: seq<Candle>, t: nat)
    ensures LastAt(candles, t).Some? <==> t in OpenTimes(candles)
    ensures LastAt(candles, t).Some? ==> LastAt(candles, t).value in candles && LastAt(candles, t).value.openTime == t
  {
    if candles != [] {
      LastAtTells(Front(candles), t);
      assert candles == Front(candles) + [Last(candles)];
      OpenTimesOfOneMore(Front(candles), Last(candles));
    }
  }

  lemma {:induction false} OnlyOneAt(candles: seq<Candle>, i: nat)
    requires StrictlyNewer(candles) && i < |candles|
    ensures LastAt(candles, candles[i].openTime) == Some(candles[i])
  {
    if i < |candles| - 1 {
      OnlyOneAt(Front(candles), i);
    }
  }

  /** A sorted window is determined by what it holds at each time. */
  lemma SortedWindowIsItsContents(a: seq<Candle>, b: seq<Candle>)
    requires StrictlyNewer(a) && StrictlyNewer(b) && forall t: nat :: LastAt(a, t) == LastAt(b, t)
    ensures a == b
  {
    hide StrictlyNewer, LastAt;
    forall t ensures t in OpenTimes(a) <==> t in OpenTimes(b) {
      if t in OpenTimes(a) { LastAtTells(a, t); LastAtTells(b, t); }
      if t in OpenTimes(b) { LastAtTells(a, t); LastAtTells(b, t); }
    }
    SameSetSameOrder(a, b);
    forall i | 0 <= i < |a| ensures a[i] == b[i] {
      OnlyOneAt(a, i);
      OnlyOneAt(b, i);
    }
  }

  lemma {:induction false} PutKeepsOrder(window: seq<Candle>, c: Candle)
    requires StrictlyNewer(window)
    ensures StrictlyNewer(Put(window, c)) && Put(window, c) != []
    ensures Last(Put(window, c)).openTime == if window == [] then c.openTime else Later(Last(window).openTime, c.openTime)
  {
    if window != [] && Last(window).openTime > c.openTime {
      PutKeepsOrder(Front(window), c);
    }
  }

  lemma {:induction false} PutHolds(window: seq<Candle>, c: Candle, t: nat)
    requires StrictlyNewer(window)
    ensures LastAt(Put(window, c), t) == if t == c.openTime then Some(c) else LastAt(window, t)
  {
    if window != [] && Last(window).openTime >= c.openTime {
      if Last(window).openTime > c.openTime {
        PutHolds(Front(window), c, t);
        assert Front(Put(window, c)) == Put(Front(window), c);
      }
    } else {
      assert Front(window + [c]) == window;
    }
  }

  lemma {:induction false} OverlayHolds(window: seq<Candle>, incoming: seq<Candle>, t: nat)
    requires StrictlyNewer(window)
    ensures StrictlyNewer(Overlaid(window, incoming))
    ensures LastAt(Overlaid(window, incoming), t) == if LastAt(incoming, t).Some? then LastAt(incoming, t) else LastAt(window, t)
  {
    hide StrictlyNewer;
    if incoming != [] {
      OverlayHolds(window, Front(incoming), t);
      PutKeepsOrder(Overlaid(window, Front(incoming)), Last(incoming));
      PutHolds(Overlaid(window, Front(incoming)), Last(incoming), t);
    }
  }

  lemma {:induction false} KeptHolds(existing: seq<Candle>, fetched: seq<Candle>, t: nat)
    ensures StrictlyNewer(Merge(existing, fetched))
    ensures LastAt(Merge(existing, fetched), t) == Chosen(existing, fetched, t)
  {
    hide StrictlyNewer, LastAt;
    if existing == [] {
      NoBarAnywhere(t);
      OverlayHolds([], fetched, t);
    } else {
      KeptHolds(Front(existing), fetched, t);
      KeptHolds(Front(existing), fetched, Last(existing).openTime);
      PutKeepsOrder(Merge(Front(existing), fetched), Last(existing));
      PutHolds(Merge(Front(existing), fetched), Last(existing), t);
    }
  }

  lemma NoBarAnywhere(t: nat)
    ensures LastAt([], t) == None && StrictlyNewer([])
  {
  }

  // ------------------------------------------------------------ the laws of the merge

  /** What is chosen at a time: a held bar built from ticks first, then a fetched bar, then a held
      vendor bar. */
  lemma {:induction false} ChosenIs(existing: seq<Candle>, fetched: seq<Candle>, t: nat)
    ensures var c := Chosen(existing, fetched, t);
            && (c.Some? <==> LastAt(existing, t).Some? || LastAt(fetched, t).Some?)
            && (c.Some? ==> c.value.openTime == t && (c.value in existing || c.value in fetched))
            && (c.Some? && c.value.tickCount == 0 && LastAt(fetched, t).Some? ==> c == LastAt(fetched, t))
  {
    if existing == [] {
      LastAtTells(fetched, t);
    } else {
      ChosenIs(Front(existing), fetched, t);
      assert existing == Front(existing) + [Last(existing)];
    }
  }

  /** For a held window without duplicates, each time goes by one rule. */
  lemma {:induction false} ChosenFromSorted(existing: seq<Candle>, fetched: seq<Candle>, t: nat)
    requires StrictlyNewer(existing)
    ensures var (held, vendor) := (LastAt(existing, t), LastAt(fetched, t));
            Chosen(existing, fetched, t) == if held.Some? && (held.value.tickCount > 0 || vendor.None?) then held else vendor
  {
    if existing != [] {
      ChosenFromSorted(Front(existing), fetched, t);
      LastAtTells(Front(existing), t);
    }
  }

  /** Sorted, without duplicates, and its times are exactly the union, whatever the two lists. */
  lemma MergeIsTheUnion(existing: seq<Candle>, fetched: seq<Candle>)
    ensures StrictlyNewer(Merge(existing, fetched))
    ensures OpenTimes(Merge(existing, fetched)) == OpenTimes(existing) + OpenTimes(fetched)
  {
    hide Merge, Chosen, LastAt;
    KeptHolds(existing, fetched, 0);
    forall t ensures t in OpenTimes(Merge(existing, fetched)) <==> t in OpenTimes(existing) + OpenTimes(fetched) {
      if t in OpenTimes(Merge(existing, fetched)) || t in OpenTimes(existing) + OpenTimes(fetched) {
        KeptHolds(existing, fetched, t);
        ChosenIs(existing, fetched, t);
        LastAtTells(Merge(existing, fetched), t);
        LastAtTells(existing, t);
        LastAtTells(fetched, t);
      }
    }
  }

  /** A held bar built from ticks stays; a held vendor bar gives way to a fresh copy and otherwise
      stays; every bar fetched for a time nothing is held at comes in. */
  lemma MergePrefersBuiltBars(existing: seq<Candle>, fetched: seq<Candle>, t: nat)
    requires StrictlyNewer(existing)
    ensures var (held, vendor) := (LastAt(existing, t), LastAt(fetched, t));
            LastAt(Merge(existing, fetched), t)
            == if held.Some? && (held.value.tickCount > 0 || vendor.None?) then held else vendor
  {
    hide *;
    KeptHolds(existing, fetched, t);
    ChosenFromSorted(existing, fetched, t);
  }

  /** Merging the same answer again changes nothing. */
  lemma MergeAgainChangesNothing(existing: seq<Candle>, fetched: seq<Candle>)
    ensures Merge(Merge(existing, fetched), fetched) == Merge(existing, fetched)
  {
    hide Merge, Chosen, LastAt, StrictlyNewer;
    var once := Merge(existing, fetched);
    KeptHolds(existing, fetched, 0);
    KeptHolds(once, fetched, 0);
    forall t: nat ensures LastAt(Merge(once, fetched), t) == LastAt(once, t) {
      KeptHolds(existing, fetched, t);
      MergePrefersBuiltBars(once, fetched, t);
      ChosenIs(existing, fetched, t);
    }
    SortedWindowIsItsContents(Merge(once, fetched), once);
  }

  /** The merged bars that are not, field for field, what was held at their time. */
  function Changed(existing: seq<Candle>, merged: seq<Candle>): seq<Candle> {
    if merged == [] then []
    else Changed(existing, Front(merged)) + if LastAt(existing, Last(merged).openTime) != Some(Last(merged)) then [Last(merged)] else []
  }

  lemma {:induction false} ChangedIs(existing: seq<Candle>, merged: seq<Candle>, t: nat)
    requires StrictlyNewer(merged)
    ensures LastAt(Changed(existing, merged), t)
         == if LastAt(merged, t) == LastAt(existing, t) then None else LastAt(merged, t)
  {
    hide StrictlyNewer, LastAt;
    if merged != [] {
      var (before, c) := (Front(merged), Last(merged));
      NewestIsNotBefore(merged);
      ChangedIs(existing, before, t);
      LastAtLonger(before, c, t);
      assert merged == before + [c];
      LastAtLonger(Changed(existing, before), c, t);
      assert Changed(existing, before) + [] == Changed(existing, before);
      assert LastAt(existing, c.openTime) != Some(c) ==> Changed(existing, merged) == Changed(existing, before) + [c];
    }
    NoBarAnywhere(t);
    LastAtTells(existing, t);
  }

  lemma LastAtLonger(candles: seq<Candle>, c: Candle, t: nat)
    ensures LastAt(candles + [c], t) == if c.openTime == t then Some(c) else LastAt(candles, t)
  {
    assert Front(candles + [c]) == candles;
  }

  lemma NewestIsNotBefore(merged: seq<Candle>)
    requires StrictlyNewer(merged) && merged != []
    ensures StrictlyNewer(Front(merged)) && LastAt(Front(merged), Last(merged).openTime) == None
  {
    hide LastAt;
    LastAtTells(Front(merged), Last(merged).openTime);
  }

  lemma {:induction false} ChangedMembers(existing: seq<Candle>, merged: seq<Candle>)
    ensures forall c :: c in Changed(existing, merged) ==> c in merged && LastAt(existing, c.openTime) != Some(c)
  {
    hide LastAt;
    if merged != [] {
      ChangedMembers(existing, Front(merged));
      assert merged == Front(merged) + [Last(merged)];
    }
  }

  /** Overlaying only what changed on what was held gives the whole merge, whatever the two lists. */
  lemma ChangedBarsAreEnough(existing: seq<Candle>, fetched: seq<Candle>)
    ensures var merged := Merge(existing, fetched);
            Overlaid(Overlaid([], existing), Changed(existing, merged)) == merged
  {
    hide Merge, Chosen, LastAt, StrictlyNewer, Overlaid, Changed;
    var merged := Merge(existing, fetched);
    var changed := Changed(existing, merged);
    KeptHolds(existing, fetched, 0);
    NoBarAnywhere(0);
    OverlayHolds([], existing, 0);
    OverlayHolds(Overlaid([], existing), changed, 0);
    forall t: nat ensures LastAt(Overlaid(Overlaid([], existing), changed), t) == LastAt(merged, t) {
      NoBarAnywhere(t);
      OverlayHolds([], existing, t);
      OverlayHolds(Overlaid([], existing), changed, t);
      ChangedIs(existing, merged, t);
      KeptHolds(existing, fetched, t);
      ChosenIs(existing, fetched, t);
    }
    SortedWindowIsItsContents(Overlaid(Overlaid([], existing), changed), merged);
  }

  /** A sorted window read into a dictionary and out again is itself. */
  lemma SortedStays(window: seq<Candle>)
    requires StrictlyNewer(window)
    ensures Overlaid([], window) == window
  {
    hide LastAt, StrictlyNewer, Overlaid;
    NoBarAnywhere(0);
    OverlayHolds([], window, 0);
    forall t: nat ensures LastAt(Overlaid([], window), t) == LastAt(window, t) {
      NoBarAnywhere(t);
      OverlayHolds([], window, t);
    }
    SortedWindowIsItsContents(Overlaid([], window), window);
  }

  // ------------------------------------------------------------ the loops

  ghost predicate Keyed(byOpenTime: map<nat, Candle>, window: seq<Candle>) {
    forall t: nat :: (if t in byOpenTime then Some(byOpenTime[t]) else None) == LastAt(window, t)
  }

  /** The dictionary of the fetched bars, with the held bars that win over them. */
  method MergeCandles(existing: seq<Candle>, fetched: seq<Candle>) returns (merged: seq<Candle>)
    ensures merged == Merge(existing, fetched)
  {
    var byOpenTime: map<nat, Candle> := map[];
    hide Put, StrictlyNewer, LastAt;
    NoBarAnywhere(0);
    EmptyIsKeyed();
    for i := 0 to |fetched|
      invariant Keyed(byOpenTime, Overlaid([], fetched[..i])) && StrictlyNewer(Overlaid([], fetched[..i]))
    {
      assert Front(fetched[..i + 1]) == fetched[..i] && Last(fetched[..i + 1]) == fetched[i];
      PutIsKeyed(byOpenTime, Overlaid([], fetched[..i]), fetched[i]);
      byOpenTime := byOpenTime[fetched[i].openTime := fetched[i]];
    }
    assert fetched[..|fetched|] == fetched;
    var vendor := Overlaid([], fetched);
    for i := 0 to |existing|
      invariant Keyed(byOpenTime, Kept(existing[..i], vendor)) && StrictlyNewer(Kept(existing[..i], vendor))
    {
      var c := existing[i];
      assert Front(existing[..i + 1]) == existing[..i] && Last(existing[..i + 1]) == c;
      PutIsKeyed(byOpenTime, Kept(existing[..i], vendor), c);
      if c.tickCount > 0 || c.openTime !in byOpenTime {
        byOpenTime := byOpenTime[c.openTime := c];
      }
    }
    assert existing[..|existing|] == existing;
    merged := InOpenTimeOrder(byOpenTime, Merge(existing, fetched));
  }

  lemma EmptyIsKeyed()
    ensures Keyed(map[], [])
  {
  }

  lemma PutIsKeyed(byOpenTime: map<nat, Candle>, window: seq<Candle>, c: Candle)
    requires Keyed(byOpenTime, window) && StrictlyNewer(window)
    ensures Keyed(byOpenTime[c.openTime := c], Put(window, c)) && StrictlyNewer(Put(window, c))
    ensures c.openTime in byOpenTime <==> LastAt(window, c.openTime).Some?
  {
    hide LastAt, StrictlyNewer, Put;
    PutKeepsOrder(window, c);
    forall t: nat
      ensures (if t in byOpenTime[c.openTime := c] then Some(byOpenTime[c.openTime := c][t]) else None) == LastAt(Put(window, c), t)
    {
      PutHolds(window, c, t);
    }
  }

  lemma {:induction false} SomeTimeIsEarliest(times: set<nat>)
    requires times != {}
    ensures exists t :: t in times && IsEarliest(t, times)
    decreases |times|
  {
    var x :| x in times;
    var rest := times - {x};
    if rest == {} {
      assert times == {x};
      assert IsEarliest(x, times);
    } else {
      SomeTimeIsEarliest(rest);
      var t :| t in rest && IsEarliest(t, rest);
      assert times == rest + {x};
      assert IsEarliest(if x < t then x else t, times);
    }
  }

  predicate IsEarliest(t: nat, times: set<nat>) {
    forall u :: u in times ==> t <= u
  }

  /** Read out so far: the bars of the times that are not left, sorted, all before the rest. */
  ghost predicate ReadOut(byOpenTime: map<nat, Candle>, left: set<nat>, ordered: seq<Candle>) {
    && left <= byOpenTime.Keys && StrictlyNewer(ordered)
    && (forall t: nat :: LastAt(ordered, t) == if t in byOpenTime && t !in left then Some(byOpenTime[t]) else None)
    && (ordered != [] ==> forall u :: u in left ==> Last(ordered).openTime < u)
  }

  lemma NothingReadOut(byOpenTime: map<nat, Candle>)
    ensures ReadOut(byOpenTime, byOpenTime.Keys, [])
  {
  }

  lemma ReadsOutTheEarliest(byOpenTime: map<nat, Candle>, left: set<nat>, ordered: seq<Candle>, t: nat)
    requires ReadOut(byOpenTime, left, ordered) && t in left && IsEarliest(t, left) && byOpenTime[t].openTime == t
    ensures ReadOut(byOpenTime, left - {t}, ordered + [byOpenTime[t]])
  {
    var more := ordered + [byOpenTime[t]];
    assert Front(more) == ordered && Last(more) == byOpenTime[t];
    assert forall i :: 0 <= i < |more| ==> more[i].openTime <= Last(more).openTime;
    forall u: nat ensures LastAt(more, u) == if u in byOpenTime && u !in left - {t} then Some(byOpenTime[u]) else None {
      assert LastAt(more, u) == if u == t then Some(byOpenTime[t]) else LastAt(ordered, u);
    }
  }

  /** The dictionary's bars by rising open time. */
  method InOpenTimeOrder(byOpenTime: map<nat, Candle>, ghost window: seq<Candle>) returns (ordered: seq<Candle>)
    requires Keyed(byOpenTime, window) && StrictlyNewer(window)
    ensures ordered == window
  {
    ordered := [];
    var left := byOpenTime.Keys;
    hide StrictlyNewer, LastAt;
    NothingReadOut(byOpenTime);
    while left != {}
      invariant ReadOut(byOpenTime, left, ordered)
      decreases |left|
    {
      SomeTimeIsEarliest(left);
      var t :| t in left && IsEarliest(t, left);
      LastAtTells(window, t);
      ReadsOutTheEarliest(byOpenTime, left, ordered, t);
      ordered := ordered + [byOpenTime[t]];
      left := left - {t};
    }
    SortedWindowIsItsContents(ordered, window);
  }
}
