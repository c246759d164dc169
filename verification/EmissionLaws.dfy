/** What the service keeps over every run, whatever fails: nothing a resampler closes is lost, nothing
    is staged twice or out of order, and every partial bar is completed once before it goes out.

    Everything the world holds about one series is a Track. Each step of the service moves a track
    in one of a few small ways, or not at all. */
module EmissionLaws {
  import opened Prelude
  import opened Timeframes
  import opened MarketData
  import opened ResamplerModel
  import opened ResamplerRuns
  import opened CandleStore
  import opened Emission

  datatype Track = Track(
    feed: Feed, retained: seq<Retired>, staged: seq<Candle>, mark: Option<nat>, repaired: seq<Candle>,
    pending: seq<Candle>,   // closed, and not yet retained
    floor: Option<nat>)     // where the watermark stood at the start

  function CandlesOf(candles: seq<Candle>, series: Series): seq<Candle> {
    if candles == [] then []
    else CandlesOf(Front(candles), series) + if SeriesOf(Last(candles)) == series then [Last(candles)] else []
  }

  function TrackOf(w: World, series: Series, pending: seq<Candle>): Track
    requires series in w.feeds
  {
    Track(w.feeds[series], RetainedOf(w.retained, series), CandlesOf(w.log.staged, series), Mark(w.store, series),
          CandlesOf(w.log.repaired, series), CandlesOf(pending, series), Mark(w.log.start, series))
  }

  // ------------------------------------------------------------ what holds of a track

  /** The bar as built or, when it closed partial, as the vendor completed it. */
  ghost predicate Completes(sent: Candle, built: Candle, partial: bool) {
    sent == built || (partial && exists reply: Option<Candle>, current: bool :: sent == Repaired(built, reply, current))
  }

  function PartialOf(candles: seq<Candle>, partials: set<nat>): seq<Candle> {
    if candles == [] then []
    else PartialOf(Front(candles), partials) + if Last(candles).openTime in partials then [Last(candles)] else []
  }

  /** The bars newer than a level. */
  function Above(candles: seq<Candle>, level: Option<nat>): seq<Candle> {
    if candles == [] then []
    else Above(Front(candles), level) + if IsAbove(Last(candles).openTime, level) then [Last(candles)] else []
  }

  /** What the store is to be given: the bars closed that it did not have at the start. */
  function Due(t: Track): seq<Candle> {
    Above(t.feed.closed, t.floor)
  }

  /** The n-th bar staged is the n-th bar due. */
  ghost predicate StagedInOrder(t: Track) {
    && |t.staged| <= |Due(t)|
    && forall i :: 0 <= i < |t.staged| ==> Completes(t.staged[i], Due(t)[i], Due(t)[i].openTime in t.feed.partials)
  }

  /** How many bars were due before the newest one closed. */
  function DueBefore(t: Track): nat
    requires t.feed.closed != []
  {
    |Above(Front(t.feed.closed), t.floor)|
  }

  /** At most the newest bar is still on its way; a retained one may already have been staged, if
      the reply was lost. */
  ghost predicate OnlyNewestOutstanding(t: Track) {
    if t.retained == [] && t.pending == [] then
      |t.staged| == |Due(t)| && t.feed.lane.partialCloses == {}
    else if t.retained == [] then
      && |t.pending| == 1 && t.feed.closed != [] && t.pending[0] == Last(t.feed.closed) && |t.staged| == DueBefore(t)
      && t.feed.lane.partialCloses == t.feed.partials * {Last(t.feed.closed).openTime}
    else
      && t.pending == [] && |t.retained| == 1 && t.feed.closed != [] && DueBefore(t) <= |t.staged| <= |Due(t)|
      && RetainedIsNewest(t.retained[0], Last(t.feed.closed), t.feed.partials, |t.staged| == DueBefore(t))
      && t.feed.lane.partialCloses == {}
  }

  ghost predicate RetainedIsNewest(r: Retired, newest: Candle, partials: set<nat>, unstaged: bool) {
    && Completes(r.candle, newest, newest.openTime in partials)
    && (r.partial ==> unstaged && r.candle == newest && newest.openTime in partials)
  }

  function Unrepaired(t: Track): nat {
    if t.pending != [] || (t.retained != [] && t.retained[0].partial) then 1 else 0
  }

  ghost predicate Good(t: Track) {
    && Sound(t.feed)
    && t.mark == (if t.staged == [] then t.floor else Some(Last(t.staged).openTime))
    && StagedInOrder(t) && OnlyNewestOutstanding(t)
    && t.repaired == PartialOf(t.feed.closed[..|t.feed.closed| - Unrepaired(t)], t.feed.partials)
  }

  lemma AboveOfOneMore(candles: seq<Candle>, c: Candle, level: Option<nat>)
    ensures Above(candles + [c], level) == Above(candles, level) + if IsAbove(c.openTime, level) then [c] else []
  {
    assert Front(candles + [c]) == candles;
  }

  lemma {:induction false} AboveMembers(candles: seq<Candle>, level: Option<nat>)
    requires StrictlyNewer(candles)
    ensures StrictlyNewer(Above(candles, level))
    ensures forall c :: c in Above(candles, level) <==> c in candles && IsAbove(c.openTime, level)
  {
    if candles != [] {
      assert candles == Front(candles) + [Last(candles)];
      AboveMembers(Front(candles), level);
      forall c | c in Above(Front(candles), level) ensures c.openTime < Last(candles).openTime {
        assert c in Front(candles);
      }
    }
  }

  /** If the newest bar is not above the level, none is. */
  lemma NoneAbove(candles: seq<Candle>, level: Option<nat>)
    requires StrictlyNewer(candles) && candles != [] && !IsAbove(Last(candles).openTime, level)
    ensures Above(candles, level) == [] && Above(Front(candles), level) == []
  {
    AboveMembers(candles, level);
    AboveMembers(Front(candles), level);
    EmptyOrNot(Above(candles, level));
    EmptyOrNot(Above(Front(candles), level));
  }

  lemma EmptyOrNot(candles: seq<Candle>)
    ensures candles == [] || exists c :: c in candles
  {
    if candles != [] {
      assert candles[0] in candles;
    }
  }

  lemma CompletedKeepsTime(sent: Candle, built: Candle, partial: bool)
    requires Completes(sent, built, partial)
    ensures sent.openTime == built.openTime && SeriesOf(sent) == SeriesOf(built)
  {
  }

  /** What a lane step that closes nothing may touch. */
  predicate SameCloses(f: Feed, g: Feed) {
    g.closed == f.closed && g.partials == f.partials && g.answered == f.answered
    && g.lane.partialCloses == f.lane.partialCloses
  }

  lemma QuietStepKeepsGood(t: Track, g: Feed)
    requires Good(t) && Sound(g) && SameCloses(t.feed, g)
    ensures Good(t.(feed := g))
  {
    hide Sound, Completes;
  }

  lemma {:induction false} OtherMarkersDoNotMatter(candles: seq<Candle>, partials: set<nat>, t: nat)
    requires t !in OpenTimes(candles)
    ensures PartialOf(candles, partials + {t}) == PartialOf(candles, partials)
  {
    if candles != [] {
      assert candles == Front(candles) + [Last(candles)];
      OpenTimesOfOneMore(Front(candles), Last(candles));
      OtherMarkersDoNotMatter(Front(candles), partials, t);
    }
  }

  /** A step that closes one bar, newer than every other. */
  ghost predicate ClosesOne(f: Feed, g: Feed) {
    && |g.closed| == |f.closed| + 1 && g.closed[..|f.closed|] == f.closed
    && (g.partials == f.partials || g.partials == f.partials + {Last(g.closed).openTime})
    && g.answered == f.answered
  }

  lemma NewestIsNew(g: Feed)
    requires Sound(g) && g.closed != []
    ensures Last(g.closed).openTime !in OpenTimes(Front(g.closed))
  {
  }

  lemma OldPartialsAreAnswered(f: Feed, g: Feed)
    requires Sound(f) && Sound(g) && ClosesOne(f, g) && f.lane.partialCloses == {}
    ensures g.lane.partialCloses == g.partials * {Last(g.closed).openTime}
  {
    var t := Last(g.closed).openTime;
    assert Front(g.closed) == f.closed;
    NewestIsNew(g);
    assert t !in f.partials;
  }

  lemma ClosingStepKeepsGood(t: Track, g: Feed)
    requires Good(t) && t.retained == [] && t.pending == [] && Sound(g) && ClosesOne(t.feed, g)
    ensures Good(t.(feed := g, pending := [Last(g.closed)]))
  {
    OldPartialsAreAnswered(t.feed, g);
    NewestIsNew(g);
    assert Front(g.closed) == t.feed.closed;
    OtherMarkersDoNotMatter(t.feed.closed, t.feed.partials, Last(g.closed).openTime);
    StagedStaysInOrder(t, g);
    hide Sound, Completes, Above;
    assert t.feed.closed[..|t.feed.closed|] == t.feed.closed == g.closed[..|g.closed| - 1];
  }

  lemma StagedStaysInOrder(t: Track, g: Feed)
    requires StagedInOrder(t) && ClosesOne(t.feed, g)
    ensures StagedInOrder(t.(feed := g, pending := [Last(g.closed)]))
  {
    assert g.closed == t.feed.closed + [Last(g.closed)];
    AboveOfOneMore(t.feed.closed, Last(g.closed), t.floor);
    hide Completes, Above;
    var due := Above(g.closed, t.floor);
    forall i | 0 <= i < |t.staged| ensures Completes(t.staged[i], due[i], due[i].openTime in g.partials) {
      assert due[i] == Due(t)[i];
      CompletesMore(t.staged[i], due[i], due[i].openTime in t.feed.partials, due[i].openTime in g.partials);
    }
  }

  lemma CompletesMore(sent: Candle, built: Candle, partial: bool, also: bool)
    requires Completes(sent, built, partial) && (partial ==> also)
    ensures Completes(sent, built, also)
  {
  }

  /** The one question asked about a bar, as it is retained. */
  lemma RetainKeepsGood(t: Track, c: Candle, g: Feed, current: bool)
    requires Good(t) && t.pending == [c]
    requires Sound(g) && g.closed == t.feed.closed && g.partials == t.feed.partials
    requires g.lane.partialCloses == t.feed.lane.partialCloses - {c.openTime}
    ensures Good(t.(feed := g, pending := [], retained := [Retired(c, c.openTime in t.feed.lane.partialCloses, current)]))
  {
    hide Sound;
    var closed := t.feed.closed;
    assert closed[..|closed|] == closed && closed[..|closed| - 1] == Front(closed);
  }

  function StagedTrack(t: Track): Track
    requires t.retained != []
  {
    var c := t.retained[0].candle;
    if t.mark.Some? && t.mark.value >= c.openTime then t else t.(staged := t.staged + [c], mark := Some(c.openTime))
  }

  /** The newest bar is due exactly if the store did not have it at the start. */
  lemma NewestIsDue(t: Track)
    requires StrictlyNewer(t.feed.closed) && t.feed.closed != []
    ensures if IsAbove(Last(t.feed.closed).openTime, t.floor)
            then |Due(t)| == DueBefore(t) + 1 && Last(Due(t)) == Last(t.feed.closed) else Due(t) == [] && DueBefore(t) == 0
    ensures StrictlyNewer(Due(t))
  {
    AboveMembers(t.feed.closed, t.floor);
    if !IsAbove(Last(t.feed.closed).openTime, t.floor) {
      NoneAbove(t.feed.closed, t.floor);
    }
  }

  lemma MarkTellsStaged(t: Track)
    requires Good(t) && t.retained != [] && !t.retained[0].partial
    ensures (t.mark.Some? && t.mark.value >= t.retained[0].candle.openTime) <==> |t.staged| == |Due(t)|
    ensures |t.staged| == |Due(t)| || (|t.staged| == |Due(t)| - 1 && Last(Due(t)) == Last(t.feed.closed))
  {
    var closed := t.feed.closed;
    NewestIsDue(t);
    CompletedKeepsTime(t.retained[0].candle, Last(closed), Last(closed).openTime in t.feed.partials);
    if t.staged != [] {
      var i := |t.staged| - 1;
      CompletedKeepsTime(t.staged[i], Due(t)[i], Due(t)[i].openTime in t.feed.partials);
    }
    hide Completes, Above;
  }

  /** Staging a whole bar, acknowledged or not: it is staged once. */
  lemma StageKeepsGood(t: Track)
    requires Good(t) && t.retained != [] && !t.retained[0].partial
    ensures Good(StagedTrack(t)) && Good(StagedTrack(t).(retained := []))
  {
    MarkTellsStaged(t);
    hide Sound, Completes, Above;
  }

  lemma RepairKeepsGood(t: Track, reply: Option<Candle>)
    requires Good(t) && t.retained != [] && t.retained[0].partial
    ensures var r := t.retained[0];
            Good(t.(retained := [Retired(Repaired(r.candle, reply, r.closeIsCurrent), false, r.closeIsCurrent)],
                    repaired := t.repaired + [r.candle]))
  {
    hide Sound, Repaired;
    var (r, closed) := (t.retained[0], t.feed.closed);
    assert Completes(Repaired(r.candle, reply, r.closeIsCurrent), Last(closed), true);
    hide Completes;
    assert closed[..|closed|] == closed && closed[..|closed| - 1] == Front(closed);
  }

  // ------------------------------------------------------------ from the world to its tracks

  lemma {:induction false} CandlesOfAppends(a: seq<Candle>, b: seq<Candle>, series: Series)
    ensures CandlesOf(a + b, series) == CandlesOf(a, series) + CandlesOf(b, series)
  {
    if b == [] {
      assert a + b == a;
    } else {
      assert Front(a + b) == a + Front(b) && Last(a + b) == Last(b);
      CandlesOfAppends(a, Front(b), series);
    }
  }

  lemma {:induction false} RetainedOfAppends(a: seq<Retired>, b: seq<Retired>, series: Series)
    ensures RetainedOf(a + b, series) == RetainedOf(a, series) + RetainedOf(b, series)
  {
    if b == [] {
      assert a + b == a;
    } else {
      assert Front(a + b) == a + Front(b) && Last(a + b) == Last(b);
      RetainedOfAppends(a, Front(b), series);
    }
  }

  lemma OneCandle(c: Candle, series: Series)
    ensures CandlesOf([c], series) == if SeriesOf(c) == series then [c] else []
  {
    assert Front([c]) == [];
  }

  lemma OneRetained(r: Retired, series: Series)
    ensures RetainedOf([r], series) == if SeriesOf(r.candle) == series then [r] else []
  {
    assert Front([r]) == [];
  }

  /** Taking one bar off the list: its series loses it, every other series notices nothing. */
  lemma RetainedOfWithout(retained: seq<Retired>, i: nat, series: Series)
    requires i < |retained| && |RetainedOf(retained, series)| <= 1
    ensures RetainedOf(Without(retained, i), series)
         == if SeriesOf(retained[i].candle) == series then [] else RetainedOf(retained, series)
    ensures SeriesOf(retained[i].candle) == series ==> RetainedOf(retained, series) == [retained[i]]
  {
    hide RetainedOf;
    var (a, one, b) := (retained[..i], [retained[i]], retained[i + 1..]);
    assert retained == a + one + b && Without(retained, i) == a + b;
    RetainedOfAppends(a + one, b, series);
    RetainedOfAppends(a, one, series);
    RetainedOfAppends(a, b, series);
    OneRetained(retained[i], series);
  }

  ghost predicate GoodFor(w: World, series: Series, pending: seq<Candle>) {
    series in w.feeds && Good(TrackOf(w, series, pending))
  }

  lemma TrackShape(w: World, series: Series, pending: seq<Candle>)
    requires GoodFor(w, series, pending)
    ensures |RetainedOf(w.retained, series)| + |CandlesOf(pending, series)| <= 1
  {
    hide Sound, Completes;
  }

  lemma StagedTrackOf(w: World, c: Candle, limit: nat, series: Series)
    requires series in w.feeds
    ensures var (t, u) := (TrackOf(w, series, []), TrackOf(StageNow(w, c, limit), series, []));
            if SeriesOf(c) != series || IsDuplicate(w.store, c) then u == t
            else u == t.(staged := t.staged + [c], mark := Some(c.openTime))
  {
    CandlesOfAppends(w.log.staged, [c], series);
    OneCandle(c, series);
  }

  /** What staging the i-th retained bar does to a track, acknowledged (u) or not (v). */
  lemma StagedTracks(w: World, i: nat, series: Series, limit: nat)
    requires series in w.feeds && i < |w.retained| && |RetainedOf(w.retained, series)| <= 1
    ensures var (t, c) := (TrackOf(w, series, []), w.retained[i].candle);
            var v := StageNow(Spent(w), c, limit);
            var u := v.(retained := Without(w.retained, i));
            && (SeriesOf(c) == series ==>
                  && t.retained == [w.retained[i]]
                  && TrackOf(v, series, []) == StagedTrack(t) && TrackOf(u, series, []) == StagedTrack(t).(retained := []))
            && (SeriesOf(c) != series ==> TrackOf(v, series, []) == t && TrackOf(u, series, []) == t)
  {
    hide CandlesOf, RetainedOf, Without, StagedTrack;
    var c := w.retained[i].candle;
    RetainedOfWithout(w.retained, i, series);
    StagedTrackOf(Spent(w), c, limit, series);
    if SeriesOf(c) == series {
      StagedTrackIs(w, c, limit, series);
    }
  }

  /** One staging, of the i-th retained bar, whatever becomes of it. */
  lemma StageOneKeepsGood(w: World, i: nat, series: Series, limit: nat)
    requires GoodFor(w, series, []) && i < |w.retained| && !w.retained[i].partial
    ensures var step := Stage(w, w.retained[i].candle, limit);
            && GoodFor(step.w, series, [])
            && (step.ok ==> GoodFor(step.w.(retained := Without(w.retained, i)), series, []))
  {
    hide Good, TrackOf, StageNow, StagedTrack, Without, RetainedOf;
    var (c, t) := (w.retained[i].candle, TrackOf(w, series, []));
    TrackShape(w, series, []);
    StagedTracks(w, i, series, limit);
    StageNowKeepsTheRest(Spent(w), c, limit);
    SpentTrack(w, series, []);
    if SeriesOf(c) == series {
      StageKeepsGood(t);
    }
  }

  lemma SpentTrack(w: World, series: Series, pending: seq<Candle>)
    requires series in w.feeds
    ensures TrackOf(Spent(w), series, pending) == TrackOf(w, series, pending)
  {
  }

  lemma StageNowKeepsTheRest(w: World, c: Candle, limit: nat)
    ensures var v := StageNow(w, c, limit);
            && v.feeds == w.feeds && v.retained == w.retained && v.log == w.log.(staged := v.log.staged)
            && v.script == w.script && v.replies == w.replies
  {
  }

  lemma StagedTrackIs(w: World, c: Candle, limit: nat, series: Series)
    requires series in w.feeds && SeriesOf(c) == series
    requires TrackOf(w, series, []).retained != [] && TrackOf(w, series, []).retained[0].candle == c
    ensures TrackOf(StageNow(Spent(w), c, limit), series, []) == StagedTrack(TrackOf(w, series, []))
  {
    StagedTrackOf(Spent(w), c, limit, series);
    hide CandlesOf, RetainedOf;
  }

  predicate AllPartial(retained: seq<Retired>, n: nat) {
    forall i :: 0 <= i < n && i < |retained| ==> retained[i].partial
  }

  lemma {:induction false} StageWholeKeepsGood(w: World, i: nat, series: Series, limit: nat)
    requires GoodFor(w, series, []) && i <= |w.retained| && AllPartial(w.retained, i)
    ensures var call := StageWhole(w, i, limit);
            && GoodFor(call.w, series, [])
            && (call.ok ==> AllPartial(call.w.retained, |call.w.retained|))
    decreases |w.retained| - i
  {
    hide GoodFor, Stage;
    if i < |w.retained| {
      if w.retained[i].partial {
        StageWholeKeepsGood(w, i + 1, series, limit);
      } else {
        var step := Stage(w, w.retained[i].candle, limit);
        StageOneKeepsGood(w, i, series, limit);
        if step.ok {
          StageWholeKeepsGood(step.w.(retained := Without(w.retained, i)), i, series, limit);
        }
      }
    }
  }

  /** What repairing the first retained bar does to a track. */
  lemma RepairedTrack(w: World, series: Series)
    requires series in w.feeds && w.retained != [] && |RetainedOf(w.retained, series)| <= 1
    ensures var (r, t, u) := (w.retained[0], TrackOf(w, series, []), TrackOf(RepairHead(w), series, []));
            if SeriesOf(r.candle) != series then u == t
            else
              && t.retained == [r]
              && u == t.(retained := [RepairHead(w).retained[0]], repaired := t.repaired + [r.candle])
  {
    hide CandlesOf, RetainedOf, Repaired;
    var (r, v) := (w.retained[0], RepairHead(w));
    RepairKeepsSeries(r, NextReply(w));
    FirstRetained(w.retained, series);
    FirstRetained(v.retained, series);
    CandlesOfAppends(w.log.repaired, [r.candle], series);
    OneCandle(r.candle, series);
  }

  lemma RepairKeepsSeries(r: Retired, reply: Option<Candle>)
    ensures SeriesOf(Repaired(r.candle, reply, r.closeIsCurrent)) == SeriesOf(r.candle)
  {
  }

  lemma FirstRetained(retained: seq<Retired>, series: Series)
    requires retained != []
    ensures RetainedOf(retained, series)
         == (if SeriesOf(retained[0].candle) == series then [retained[0]] else []) + RetainedOf(retained[1..], series)
  {
    assert retained == [retained[0]] + retained[1..];
    RetainedOfAppends([retained[0]], retained[1..], series);
    OneRetained(retained[0], series);
  }

  lemma RepairHeadKeepsGood(w: World, series: Series)
    requires GoodFor(w, series, []) && w.retained != [] && w.retained[0].partial
    ensures GoodFor(RepairHead(w), series, [])
  {
    hide Good, TrackOf, RetainedOf, Repaired;
    TrackShape(w, series, []);
    RepairedTrack(w, series);
    if SeriesOf(w.retained[0].candle) == series {
      RepairKeepsGood(TrackOf(w, series, []), NextReply(w));
    }
  }

  lemma {:induction false} RepairAllKeepsGood(w: World, series: Series, limit: nat)
    requires GoodFor(w, series, []) && AllPartial(w.retained, |w.retained|)
    ensures var call := RepairAll(w, limit);
            GoodFor(call.w, series, []) && (call.ok ==> call.w.retained == [])
    decreases |w.retained|
  {
    hide GoodFor, Stage;
    if w.retained != [] {
      var repaired := RepairHead(w);
      RepairHeadKeepsGood(w, series);
      StageOneKeepsGood(repaired, 0, series, limit);
      var step := Stage(repaired, repaired.retained[0].candle, limit);
      if step.ok {
        assert Without(repaired.retained, 0) == repaired.retained[1..];
        RepairAllKeepsGood(step.w.(retained := repaired.retained[1..]), series, limit);
      }
    }
  }

  /** Publishing touches the outbox and nothing a track knows of. */
  lemma {:induction false} DrainKeepsTracks(w: World)
    ensures var v := Drain(w).w;
            && v.store.staged == w.store.staged && v.store.history == w.store.history
            && v.log.staged == w.log.staged && v.log.repaired == w.log.repaired && v.replies == w.replies
    ensures Drain(w).ok ==> Drain(w).w.store.outbox == []
    decreases |w.store.outbox|
  {
    var peeked := Spent(w);
    if NextOutcome(w) == Done && w.store.outbox != [] {
      var published := Publish(peeked);
      if published.ok {
        var acked := Ack(published.w);
        if acked.ok {
          DrainKeepsTracks(acked.w);
        }
      }
    }
  }

  lemma DrainKeepsGood(w: World, series: Series)
    requires GoodFor(w, series, [])
    ensures GoodFor(Drain(w).w, series, [])
  {
    DrainKeepsTracks(w);
    hide Good, Drain;
  }

  /** Sending out keeps every track good; and if it gets to its end, nothing is left behind. */
  lemma SendOutKeepsGood(w: World, series: Series, limit: nat)
    requires GoodFor(w, series, [])
    ensures GoodFor(SendOut(w, limit).w, series, [])
    ensures SendOut(w, limit).ok ==> SendOut(w, limit).w.retained == [] && SendOut(w, limit).w.store.outbox == []
  {
    hide GoodFor, StageWhole, Drain, RepairAll;
    StageWholeKeepsGood(w, 0, series, limit);
    var whole := StageWhole(w, 0, limit);
    if whole.ok {
      DrainKeepsGood(whole.w, series);
      DrainKeepsTracks(whole.w);
      var drained := Drain(whole.w);
      if drained.ok {
        RepairAllKeepsGood(drained.w, series, limit);
        NothingToRepair(drained.w, limit);
        var repaired := RepairAll(drained.w, limit);
        DrainKeepsGood(repaired.w, series);
        DrainKeepsTracks(repaired.w);
      }
    }
  }

  lemma NothingToRepair(w: World, limit: nat)
    ensures w.retained == [] ==> RepairAll(w, limit) == Call(w, true)
  {
  }

  // ------------------------------------------------------------ retaining a batch

  predicate AllLabelled(feeds: map<Series, Feed>) {
    forall s :: s in feeds && feeds[s].lane.open.Some? ==> SeriesOf(feeds[s].lane.open.value.candle) == s
  }

  lemma {:induction false} NotRetained(retained: seq<Retired>, c: Candle)
    requires RetainedOf(retained, SeriesOf(c)) == []
    ensures !IsRetained(retained, c)
  {
    forall i | 0 <= i < |retained| ensures SeriesOf(retained[i].candle) != SeriesOf(c) {
      RetainedElsewhere(retained, i, SeriesOf(c));
    }
  }

  lemma RetainedElsewhere(retained: seq<Retired>, i: nat, series: Series)
    requires i < |retained| && RetainedOf(retained, series) == []
    ensures SeriesOf(retained[i].candle) != series
  {
    RetainedOfWithout(retained, i, series);
  }

  lemma FirstPending(pending: seq<Candle>, series: Series)
    requires pending != []
    ensures CandlesOf(pending, series)
         == (if SeriesOf(pending[0]) == series then [pending[0]] else []) + CandlesOf(pending[1..], series)
  {
    assert pending == [pending[0]] + pending[1..];
    CandlesOfAppends([pending[0]], pending[1..], series);
    OneCandle(pending[0], series);
  }

  lemma AskedFeed(f: Feed, symbol: string, tf: Timeframe, t: nat)
    requires Sound(f)
    ensures var g := Advance(f, symbol, tf, OnTake(t));
            && Sound(g) && g.closed == f.closed && g.partials == f.partials && g.lane.open == f.lane.open
            && g.lane.partialCloses == f.lane.partialCloses - {t}
  {
    AdvanceIsSound(f, symbol, tf, OnTake(t));
    hide Sound;
  }

  /** What retaining the first pending bar does to its own track. */
  lemma RetainedTrack(w: World, pending: seq<Candle>, current: bool, series: Series)
    requires pending != [] && series in w.feeds && SeriesOf(pending[0]) == series
    requires |RetainedOf(w.retained, series)| + |CandlesOf(pending, series)| <= 1
    ensures var (c, t) := (pending[0], TrackOf(w, series, pending));
            && t.pending == [c]
            && TrackOf(RetainOne(w, c, current), series, pending[1..])
               == t.(feed := Advance(t.feed, c.symbol, c.timeframe, OnTake(c.openTime)), pending := [],
                     retained := [Retired(c, c.openTime in t.feed.lane.partialCloses, current)])
  {
    hide CandlesOf, RetainedOf, Advance, IsRetained;
    var c := pending[0];
    FirstPending(pending, series);
    NotRetained(w.retained, c);
    RetainedOfAppends(w.retained, [Retired(c, WasPartial(w, c), current)], series);
    OneRetained(Retired(c, WasPartial(w, c), current), series);
  }

  /** And to every other. */
  lemma RetainingElsewhere(w: World, pending: seq<Candle>, current: bool, series: Series)
    requires pending != [] && series in w.feeds && SeriesOf(pending[0]) != series
    ensures TrackOf(RetainOne(w, pending[0], current), series, pending[1..]) == TrackOf(w, series, pending)
  {
    hide CandlesOf, RetainedOf, Advance, IsRetained;
    var c := pending[0];
    FirstPending(pending, series);
    RetainedOfAppends(w.retained, [Retired(c, WasPartial(w, c), current)], series);
    OneRetained(Retired(c, WasPartial(w, c), current), series);
  }

  lemma RetainOneKeepsGood(w: World, pending: seq<Candle>, current: bool, series: Series)
    requires pending != [] && GoodFor(w, series, pending)
    ensures GoodFor(RetainOne(w, pending[0], current), series, pending[1..])
  {
    hide Good, TrackOf, RetainedOf, CandlesOf, RetainOne, Advance;
    var (c, t) := (pending[0], TrackOf(w, series, pending));
    TrackShape(w, series, pending);
    if SeriesOf(c) == series {
      RetainedTrack(w, pending, current, series);
      GoodIsSound(t);
      AskedFeed(t.feed, c.symbol, c.timeframe, c.openTime);
      RetainKeepsGood(t, c, Advance(t.feed, c.symbol, c.timeframe, OnTake(c.openTime)), current);
    } else {
      RetainingElsewhere(w, pending, current, series);
    }
  }

  lemma GoodIsSound(t: Track)
    requires Good(t)
    ensures Sound(t.feed)
  {
  }

  lemma {:induction false} RetainKeepsAllGood(w: World, pending: seq<Candle>, current: bool, series: Series)
    requires GoodFor(w, series, pending)
    ensures GoodFor(Retain(w, pending, current), series, [])
    decreases |pending|
  {
    hide GoodFor, RetainOne;
    if pending != [] {
      RetainOneKeepsGood(w, pending, current, series);
      RetainKeepsAllGood(RetainOne(w, pending[0], current), pending[1..], current, series);
    } else {
      assert pending == [];
    }
  }

  lemma {:induction false} RetainKeepsLabels(w: World, pending: seq<Candle>, current: bool)
    requires AllLabelled(w.feeds)
    ensures AllLabelled(Retain(w, pending, current).feeds)
    decreases |pending|
  {
    if pending != [] {
      RetainKeepsLabels(RetainOne(w, pending[0], current), pending[1..], current);
    }
  }

  lemma EmitKeepsGood(w: World, pending: seq<Candle>, current: bool, series: Series, limit: nat)
    requires GoodFor(w, series, pending) && AllLabelled(w.feeds)
    ensures var call := Emit(w, pending, current, limit);
            && GoodFor(call.w, series, []) && AllLabelled(call.w.feeds)
            && (call.ok ==> call.w.retained == [] && call.w.store.outbox == [])
  {
    hide GoodFor, Retain, SendOut;
    RetainKeepsAllGood(w, pending, current, series);
    RetainKeepsLabels(w, pending, current);
    SendOutKeepsGood(Retain(w, pending, current), series, limit);
  }
}
