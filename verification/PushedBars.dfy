/** Bars a vendor pushes already closed, one series at a time: which of them a forward-only store takes.

    A Way is what the world holds about one such series. Each step of the service moves a way in one of
    a few small ways, or not at all; EmissionPushes carries this to whole runs. */
module PushedBars {
  import opened Prelude
  import opened Timeframes
  import opened MarketData
  import opened CandleStore
  import opened Emission

  datatype Way = Way(
    retained: seq<Retired>, staged: seq<Candle>, mark: Option<nat>,
    accepted: seq<Candle>, swallowed: seq<Candle>)

  function Except(candles: seq<Candle>, gone: seq<Candle>): seq<Candle> {
    if candles == [] then []
    else Except(Front(candles), gone) + if Last(candles) in gone then [] else [Last(candles)]
  }

  predicate AllOlder(retained: seq<Retired>, t: nat) {
    forall i :: 0 <= i < |retained| ==> retained[i].candle.openTime < t
  }

  /** The watermark or a retained bar is at the moment or beyond it. */
  predicate IsReached(w: Way, t: nat) {
    !IsAbove(t, w.mark) || !AllOlder(w.retained, t)
  }

  /** Everything that has a time is before the bound, if there is one. */
  predicate IsUnder(w: Way, bound: Option<nat>) {
    bound.Some? ==> (w.mark.Some? ==> w.mark.value < bound.value) && AllOlder(w.retained, bound.value)
  }

  /** What was accepted and not swallowed is staged or on its way, in order. */
  ghost predicate Sure(w: Way, bound: Option<nat>) {
    && (forall i :: 0 <= i < |w.retained| ==> !w.retained[i].partial)
    && w.staged + Pending(w.retained, w.mark) == Except(w.accepted, w.swallowed)
    && StrictlyNewer(w.accepted)
    && (forall c :: c in w.accepted ==> IsReached(w, c.openTime))
    && (forall c :: c in w.swallowed ==> c in w.accepted)
    && IsUnder(w, bound)
  }

  // ------------------------------------------------------------ what is pending

  lemma {:induction false} PendingIsNewer(retained: seq<Retired>, level: Option<nat>)
    ensures StrictlyNewer(Pending(retained, level))
    ensures forall c :: c in Pending(retained, level) ==> IsAbove(c.openTime, level)
    decreases |retained|
  {
    if retained != [] {
      var t := retained[0].candle.openTime;
      PendingIsNewer(retained[1..], level);
      PendingIsNewer(retained[1..], Some(t));
      var rest := Pending(retained[1..], Some(t));
      assert forall i :: 0 <= i < |rest| ==> rest[i] in rest;
    }
  }

  lemma {:induction false} PendingGrows(retained: seq<Retired>, r: Retired, level: Option<nat>)
    ensures Pending(retained + [r], level)
         == Pending(retained, level)
            + if IsAbove(r.candle.openTime, level) && AllOlder(retained, r.candle.openTime) then [r.candle] else []
    decreases |retained|
  {
    if retained == [] {
      assert [] + [r] == [r] && [r][1..] == [];
    } else {
      var rest := retained[1..];
      assert (retained + [r])[1..] == rest + [r];
      OlderFromFirst(retained, r.candle.openTime);
      PendingGrows(rest, r, level);
      PendingGrows(rest, r, Some(retained[0].candle.openTime));
    }
  }

  lemma OlderFromFirst(retained: seq<Retired>, t: nat)
    requires retained != []
    ensures AllOlder(retained, t) <==> retained[0].candle.openTime < t && AllOlder(retained[1..], t)
  {
    if retained[0].candle.openTime < t && AllOlder(retained[1..], t) {
      forall i | 0 <= i < |retained| ensures retained[i].candle.openTime < t {
        assert i > 0 ==> retained[i] == retained[1..][i - 1];
      }
    }
  }

  function Raised(level: Option<nat>, t: nat): Option<nat> {
    if level.Some? then Some(Later(level.value, t)) else Some(t)
  }

  lemma {:induction false} UpToAppends(a: seq<Candle>, b: seq<Candle>, t: nat)
    ensures UpTo(a + b, t) == UpTo(a, t) + UpTo(b, t)
  {
    if b == [] {
      assert a + b == a;
    } else {
      assert Front(a + b) == a + Front(b) && Last(a + b) == Last(b);
      UpToAppends(a, Front(b), t);
    }
  }

  lemma UpToOne(c: Candle, t: nat)
    ensures UpTo([c], t) == if c.openTime <= t then [c] else []
  {
    assert Front([c]) == [];
  }

  lemma {:induction false} UpToMembers(candles: seq<Candle>, t: nat)
    ensures forall c :: c in UpTo(candles, t) <==> c in candles && c.openTime <= t
  {
    if candles != [] {
      UpToMembers(Front(candles), t);
      assert candles == Front(candles) + [Last(candles)];
    }
  }

  lemma {:induction false} NothingUpTo(candles: seq<Candle>, t: nat)
    requires forall c :: c in candles ==> c.openTime > t
    ensures UpTo(candles, t) == []
  {
    if candles != [] {
      assert candles == Front(candles) + [Last(candles)];
      NothingUpTo(Front(candles), t);
    }
  }

  lemma UpToFirst(c: Candle, rest: seq<Candle>, t: nat)
    ensures UpTo([c] + rest, t) == (if c.openTime <= t then [c] else []) + UpTo(rest, t)
  {
    UpToAppends([c], rest, t);
    UpToOne(c, t);
  }

  /** A watermark that rises to t takes from what is pending exactly what is at or below t. */
  lemma {:induction false} RaisingTakesTheOlder(retained: seq<Retired>, level: Option<nat>, t: nat)
    ensures Pending(retained, level) == UpTo(Pending(retained, level), t) + Pending(retained, Raised(level, t))
    decreases |retained|
  {
    hide UpTo;
    if retained == [] {
      NothingUpTo([], t);
    } else {
      var (c, rest) := (retained[0].candle, retained[1..]);
      if !IsAbove(c.openTime, level) {
        RaisingTakesTheOlder(rest, level, t);
      } else if c.openTime > t {
        PendingIsNewer(rest, Some(c.openTime));
        NothingUpTo(Pending(retained, level), t);
      } else {
        var after := Pending(rest, Some(c.openTime));
        RaisingTakesTheOlder(rest, Some(c.openTime), t);
        UpToFirst(c, after, t);
        assert [c] + (UpTo(after, t) + Pending(rest, Some(t))) == ([c] + UpTo(after, t)) + Pending(rest, Some(t));
      }
    }
  }

  // ------------------------------------------------------------ lists without some of their bars

  lemma {:induction false} ExceptAppends(a: seq<Candle>, b: seq<Candle>, gone: seq<Candle>)
    ensures Except(a + b, gone) == Except(a, gone) + Except(b, gone)
  {
    if b == [] {
      assert a + b == a;
    } else {
      assert Front(a + b) == a + Front(b) && Last(a + b) == Last(b);
      ExceptAppends(a, Front(b), gone);
    }
  }

  lemma ExceptOne(c: Candle, gone: seq<Candle>)
    ensures Except([c], gone) == if c in gone then [] else [c]
  {
    assert Front([c]) == [];
  }

  lemma {:induction false} ExceptInTwo(candles: seq<Candle>, a: seq<Candle>, b: seq<Candle>)
    ensures Except(candles, a + b) == Except(Except(candles, a), b)
  {
    if candles != [] {
      ExceptInTwo(Front(candles), a, b);
      var one := if Last(candles) in a then [] else [Last(candles)];
      ExceptAppends(Except(Front(candles), a), one, b);
      if Last(candles) !in a {
        ExceptOne(Last(candles), b);
      }
    }
  }

  lemma {:induction false} ExceptOthers(candles: seq<Candle>, gone: seq<Candle>)
    requires forall c :: c in candles ==> c !in gone
    ensures Except(candles, gone) == candles
  {
    if candles != [] {
      assert candles == Front(candles) + [Last(candles)];
      ExceptOthers(Front(candles), gone);
    }
  }

  lemma {:induction false} ExceptAll(candles: seq<Candle>, gone: seq<Candle>)
    requires forall c :: c in candles ==> c in gone
    ensures Except(candles, gone) == []
  {
    if candles != [] {
      assert candles == Front(candles) + [Last(candles)];
      ExceptAll(Front(candles), gone);
    }
  }

  lemma {:induction false} ExceptIsNewer(candles: seq<Candle>, gone: seq<Candle>)
    requires StrictlyNewer(candles)
    ensures StrictlyNewer(Except(candles, gone))
    ensures forall c :: c in Except(candles, gone) <==> c in candles && c !in gone
  {
    if candles != [] {
      assert candles == Front(candles) + [Last(candles)];
      ExceptIsNewer(Front(candles), gone);
      forall c | c in Except(Front(candles), gone) ensures c.openTime < Last(candles).openTime {
        assert c in Front(candles);
      }
    }
  }

  lemma {:induction false} ExceptIsShorter(candles: seq<Candle>, gone: seq<Candle>)
    ensures |Except(candles, gone)| <= |candles|
    ensures |Except(candles, gone)| == |candles| ==> forall c :: c in candles ==> c !in gone
  {
    if candles != [] {
      assert candles == Front(candles) + [Last(candles)];
      ExceptIsShorter(Front(candles), gone);
    }
  }

  // ------------------------------------------------------------ one step at a time

  /** A bar handed over: accepted exactly when it is newer than all there is. */
  function HandedOver(w: Way, c: Candle, current: bool): Way {
    w.(retained := w.retained + [Retired(c, false, current)],
       accepted := if IsReached(w, c.openTime) then w.accepted else w.accepted + [c])
  }

  lemma NewestIsUnknown(w: Way, c: Candle, bound: Option<nat>)
    requires Sure(w, bound) && !IsReached(w, c.openTime)
    ensures forall a :: a in w.accepted ==> a.openTime < c.openTime
    ensures c !in w.accepted && c !in w.swallowed
  {
  }

  lemma ReachedStays(w: Way, r: Retired)
    ensures forall t :: IsReached(w, t) ==> IsReached(w.(retained := w.retained + [r]), t)
    ensures IsReached(w.(retained := w.retained + [r]), r.candle.openTime)
  {
    var v := w.(retained := w.retained + [r]);
    assert v.retained[|w.retained|] == r;
    forall t | IsReached(w, t) ensures IsReached(v, t) {
      if !AllOlder(w.retained, t) {
        var i :| 0 <= i < |w.retained| && w.retained[i].candle.openTime >= t;
        assert v.retained[i] == w.retained[i];
      }
    }
  }

  lemma HandingOverIsSure(w: Way, c: Candle, current: bool, bound: Option<nat>)
    requires Sure(w, bound) && (bound.Some? ==> c.openTime < bound.value)
    ensures Sure(HandedOver(w, c, current), bound)
  {
    hide StrictlyNewer, Pending, Except, IsReached, IsAbove, AllOlder;
    var (r, v) := (Retired(c, false, current), HandedOver(w, c, current));
    PendingGrows(w.retained, r, w.mark);
    ReachedStays(w, r);
    ReachedIs(w, c.openTime);
    UnderWithOneMore(w, r, bound);
    AcceptedIsAWay(w, v);
    if !IsReached(w, c.openTime) {
      NewestIsUnknown(w, c, bound);
      NewerWithOneMore(w.accepted, c);
      ExceptAppends(w.accepted, [c], w.swallowed);
      ExceptOne(c, w.swallowed);
      assert w.staged + (Pending(w.retained, w.mark) + [c]) == (w.staged + Pending(w.retained, w.mark)) + [c];
    } else {
      assert Pending(w.retained, w.mark) + [] == Pending(w.retained, w.mark);
    }
  }

  lemma ReachedIs(w: Way, t: nat)
    ensures IsReached(w, t) <==> !(IsAbove(t, w.mark) && AllOlder(w.retained, t))
  {
  }

  /** What is reached is told by the watermark and the retained bars alone. */
  lemma AcceptedIsAWay(w: Way, v: Way)
    ensures forall t :: IsReached(w.(retained := v.retained), t) <==> IsReached(v.(mark := w.mark), t)
  {
  }

  lemma UnderWithOneMore(w: Way, r: Retired, bound: Option<nat>)
    requires bound.Some? ==> r.candle.openTime < bound.value && AllOlder(w.retained, bound.value)
    ensures bound.Some? ==> AllOlder(w.retained + [r], bound.value)
  {
  }

  lemma NewerWithOneMore(candles: seq<Candle>, c: Candle)
    requires StrictlyNewer(candles) && forall a :: a in candles ==> a.openTime < c.openTime
    ensures StrictlyNewer(candles + [c])
  {
    assert forall i :: 0 <= i < |candles| ==> candles[i] in candles;
  }

  /** The oldest retained bar, staged: written down unless the watermark has passed it. */
  function StagedWay(w: Way): Way
    requires w.retained != []
  {
    var c := w.retained[0].candle;
    if IsAbove(c.openTime, w.mark) then w.(staged := w.staged + [c], mark := Some(c.openTime)) else w
  }

  lemma StagedPending(retained: seq<Retired>, mark: Option<nat>)
    requires retained != []
    ensures var c := retained[0].candle;
            if IsAbove(c.openTime, mark)
            then Pending(retained, mark) == [c] + Pending(retained[1..], Some(c.openTime))
                 && Pending(retained, Some(c.openTime)) == Pending(retained[1..], Some(c.openTime))
            else Pending(retained, mark) == Pending(retained[1..], mark)
  {
  }

  lemma StagedReaches(w: Way, bound: Option<nat>)
    requires w.retained != [] && IsUnder(w, bound)
    ensures var v := StagedWay(w);
            && (forall t :: IsReached(w, t) ==> IsReached(v, t) && IsReached(v.(retained := w.retained[1..]), t))
            && IsUnder(v, bound) && IsUnder(v.(retained := w.retained[1..]), bound)
  {
    var v := StagedWay(w);
    forall t | IsReached(w, t) ensures IsReached(v.(retained := w.retained[1..]), t) {
      OlderFromFirst(w.retained, t);
    }
  }

  /** Staged once, whether or not the reply arrives. */
  lemma StagingIsSure(w: Way, bound: Option<nat>)
    requires Sure(w, bound) && w.retained != []
    ensures Sure(StagedWay(w), bound) && Sure(StagedWay(w).(retained := w.retained[1..]), bound)
  {
    hide StrictlyNewer, Pending, Except, IsReached, IsUnder;
    var (c, v) := (w.retained[0].candle, StagedWay(w));
    StagedPending(w.retained, w.mark);
    StagedReaches(w, bound);
    if IsAbove(c.openTime, w.mark) {
      var rest := Pending(w.retained[1..], Some(c.openTime));
      assert (w.staged + [c]) + rest == w.staged + ([c] + rest);
    }
  }

  /** Merged history has moved the watermark to t: what was on its way at or below t is swallowed. */
  function MergedWay(w: Way, t: nat): Way {
    w.(mark := Raised(w.mark, t), swallowed := w.swallowed + UpTo(Pending(w.retained, w.mark), t))
  }

  lemma MergingReaches(w: Way, t: nat, bound: Option<nat>)
    requires IsUnder(w, bound) && (bound.Some? ==> t < bound.value)
    ensures (forall x :: IsReached(w, x) ==> IsReached(MergedWay(w, t), x)) && IsUnder(MergedWay(w, t), bound)
  {
  }

  lemma SwallowedLeavesTheRest(w: Way, t: nat, bound: Option<nat>)
    requires Sure(w, bound)
    ensures w.staged + Pending(w.retained, Raised(w.mark, t)) == Except(w.accepted, MergedWay(w, t).swallowed)
    ensures forall c :: c in UpTo(Pending(w.retained, w.mark), t) ==> c in w.accepted
  {
    hide Pending, Except, UpTo, IsReached, IsUnder;
    var (all, left) := (Pending(w.retained, w.mark), Pending(w.retained, Raised(w.mark, t)));
    var taken := UpTo(all, t);
    RaisingTakesTheOlder(w.retained, w.mark, t);
    UpToMembers(all, t);
    ExceptIsNewer(w.accepted, w.swallowed);
    ExceptInTwo(w.accepted, w.swallowed, taken);
    ExceptAppends(w.staged, all, taken);
    ExceptAppends(taken, left, taken);
    ExceptAll(taken, taken);
    DisjointParts(w.staged, taken, left);
    ExceptOthers(w.staged, taken);
    ExceptOthers(left, taken);
    assert [] + left == left;
  }

  lemma DisjointParts(a: seq<Candle>, b: seq<Candle>, c: seq<Candle>)
    requires StrictlyNewer(a + (b + c))
    ensures (forall x :: x in a ==> x !in b) && (forall x :: x in c ==> x !in b)
  {
    var all := a + (b + c);
    assert forall i :: 0 <= i < |a| ==> all[i] == a[i];
    assert forall i :: 0 <= i < |b| ==> all[|a| + i] == b[i];
    assert forall i :: 0 <= i < |c| ==> all[|a| + |b| + i] == c[i];
  }

  lemma MergingIsSure(w: Way, t: nat, bound: Option<nat>)
    requires Sure(w, bound) && (bound.Some? ==> t < bound.value)
    ensures Sure(MergedWay(w, t), bound)
  {
    hide StrictlyNewer, Pending, Except, UpTo, IsReached, IsUnder;
    SwallowedLeavesTheRest(w, t, bound);
    MergingReaches(w, t, bound);
  }

  lemma WiderBoundIsSure(w: Way, bound: Option<nat>, wider: Option<nat>)
    requires Sure(w, bound) && (wider.Some? ==> bound.Some? && bound.value <= wider.value)
    ensures Sure(w, wider)
  {
    hide StrictlyNewer, Pending, Except, IsReached;
  }
}
