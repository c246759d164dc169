/** The life of every position of a replay: the entry it was published as, and then exactly the bars of the
    history it was held through, one after another. */
module ReplayStories {
  import opened Prelude
  import opened Execution
  import opened ExecutionLaws
  import opened ExecutionFills
  import opened Metrics
  import opened BacktestReplay
  import opened ReplayLaws
  import opened ReplaySteps

  // ------------------------------------------------------------ what is to be told

  /** The bars among the events of a trade. */
  function BarsIn(events: seq<Event>): seq<Bar> {
    if events == [] then []
    else BarsIn(Front(events)) + if Last(events).OnBar? then [Bar(Last(events).time, Last(events).bar)] else []
  }

  /** The bars replayed while the position was held, up to the k-th: those before which it was. */
  function HeldBars(setup: Setup, frame: seq<Bar>, k: nat, i: nat): seq<Bar>
    requires setup.warmup >= 1 && k < |frame|
  {
    if k == 0 then []
    else HeldBars(setup, frame, k - 1, i) + if i in StateAfter(setup, frame, k - 1).open.Values then [frame[k]] else []
  }

  /** The bar on which the position was entered. */
  function EntryBar(setup: Setup, frame: seq<Bar>, k: nat, i: nat): Bar
    requires setup.warmup >= 1 && k < |frame|
  {
    if k > 0 && i < |StateAfter(setup, frame, k - 1).positions| then EntryBar(setup, frame, k - 1, i) else frame[k]
  }

  /** An entry the strategy asked for at the close of a bar, as the factory published it when it was asked for
      the call-th time. */
  datatype Publication = Publication(call: nat, wanted: Intent, intent: Intent, book: seq<Cycle>, bar: Bar, signal: Signal, view: nat)

  ghost predicate IsPublished(setup: Setup, e: Engine, p: Publication) {
    && (p.wanted.action.GoLong? || p.wanted.action.GoShort?) && IsPriced(p.intent, p.wanted, p.bar.ohlc.close)
    && p.view < |e.views| && e.views[p.view].now == p.bar.time && p.wanted in setup.strategy(e.views[..p.view + 1])
    && p.call < e.builds && setup.build(p.call, p.intent, p.book, p.bar.time) == Some(p.signal) && p.signal in e.signals
  }

  /** The order is what was published: on the side asked for, at the price, size and bracket of the signal. */
  predicate IsOrderOf(setup: Setup, o: Order, p: Publication) {
    && (o.side.Long? <==> p.wanted.action.GoLong?) && o.time == p.bar.time && o.uxid == p.signal.uxid
    && o.price == (if p.signal.price.Some? then p.signal.price.value else p.bar.ohlc.close)
    && o.quantity == (if p.signal.quantity.Some? && p.signal.quantity.value != 0.0 then p.signal.quantity.value else setup.defaultQuantity)
    && o.sl == p.signal.sl && o.tp1 == p.signal.tp1 && o.tp2 == p.signal.tp2
    && o.tp1Percent == p.signal.tp1Percent && o.moveSlToBe == p.signal.moveSlToBe
  }

  /** The position is what became of that entry in these bars, with closes and marks between them, and has
      counted them. */
  ghost predicate Lived(setup: Setup, e: Engine, p: Position, bars: seq<Bar>, entered: Bar, t: Trade, pub: Publication) {
    && IsPublished(setup, e, pub) && pub.bar == entered && IsOrderOf(setup, t.order, pub)
    && Played(setup.costs, t) == p && BarsIn(t.events) == bars && p.barsHeld == |bars|
  }

  ghost predicate Story(setup: Setup, e: Engine, p: Position, bars: seq<Bar>, entered: Bar) {
    exists t: Trade, pub: Publication :: Lived(setup, e, p, bars, entered, t, pub)
  }

  ghost predicate AllStories(setup: Setup, e: Engine, bars: nat -> seq<Bar>, entered: nat -> Bar) {
    forall i :: 0 <= i < |e.positions| ==> Story(setup, e, e.positions[i], bars(i), entered(i))
  }

  // ------------------------------------------------------------ a story goes on

  /** Nothing the engine has seen, published or been refused is ever taken back. */
  ghost predicate Grows(e: Engine, f: Engine) {
    && e.builds <= f.builds && (forall s :: s in e.signals ==> s in f.signals)
    && |e.views| <= |f.views| && f.views[..|e.views|] == e.views
  }

  lemma StillPublished(setup: Setup, e: Engine, f: Engine, pub: Publication)
    requires IsPublished(setup, e, pub) && Grows(e, f)
    ensures IsPublished(setup, f, pub)
  {
    assert f.views[pub.view] == f.views[..|e.views|][pub.view];
    assert f.views[..pub.view + 1] == f.views[..|e.views|][..pub.view + 1];
  }

  lemma StoryStays(setup: Setup, e: Engine, f: Engine, p: Position, bars: seq<Bar>, entered: Bar)
    requires Story(setup, e, p, bars, entered) && Grows(e, f)
    ensures Story(setup, f, p, bars, entered)
  {
    hide IsPublished, Grows, Played, IsOrderOf;
    var t: Trade, pub: Publication :| Lived(setup, e, p, bars, entered, t, pub);
    StillPublished(setup, e, f, pub);
    assert Lived(setup, f, p, bars, entered, t, pub);
  }

  lemma AllStoriesStay(setup: Setup, e: Engine, f: Engine, bars: nat -> seq<Bar>, entered: nat -> Bar)
    requires AllStories(setup, e, bars, entered) && Grows(e, f) && f.positions == e.positions
    ensures AllStories(setup, f, bars, entered)
  {
    hide Story, Grows;
    forall i | 0 <= i < |f.positions| ensures Story(setup, f, f.positions[i], bars(i), entered(i)) {
      StoryStays(setup, e, f, f.positions[i], bars(i), entered(i));
    }
  }

  /** A bar met while open is one more bar held; a close or a mark is none. */
  lemma StoryGoesOn(setup: Setup, e: Engine, p: Position, bars: seq<Bar>, entered: Bar, event: Event)
    requires Story(setup, e, p, bars, entered) && (event.OnBar? ==> p.IsOpen())
    ensures Story(setup, e, ExecutionLaws.Apply(setup.costs, p, event),
                  bars + if event.OnBar? then [Bar(event.time, event.bar)] else [], entered)
  {
    hide IsPublished, IsOrderOf, ExecutionLaws.Apply, BarsIn, Played;
    var t: Trade, pub: Publication :| Lived(setup, e, p, bars, entered, t, pub);
    BarsAreCounted(setup.costs, p, event);
    OneEventMore(setup.costs, t, event);
    assert bars + [] == bars;
    assert Lived(setup, e, ExecutionLaws.Apply(setup.costs, p, event),
                 bars + if event.OnBar? then [Bar(event.time, event.bar)] else [], entered, Trade(t.order, t.events + [event]), pub);
  }

  lemma OneEventMore(costs: CostModel, t: Trade, event: Event)
    ensures var u := Trade(t.order, t.events + [event]);
            && Played(costs, u) == ExecutionLaws.Apply(costs, Played(costs, t), event)
            && BarsIn(u.events) == BarsIn(t.events) + if event.OnBar? then [Bar(event.time, event.bar)] else []
  {
    hide ExecutionLaws.Apply;
    assert Front(t.events + [event]) == t.events && Last(t.events + [event]) == event;
  }

  lemma BarsAreCounted(costs: CostModel, p: Position, event: Event)
    requires event.OnBar? ==> p.IsOpen()
    ensures ExecutionLaws.Apply(costs, p, event).barsHeld == p.barsHeld + if event.OnBar? then 1 else 0
  {
    hide LegGross, FillLevel, Tp1Size;
    if event.OnBar? {
      FillsKeepExcursion(costs, p, event.bar, event.time);
    }
  }

  lemma StoryBegins(setup: Setup, e: Engine, pub: Publication)
    requires IsPublished(setup, e, pub)
    ensures Story(setup, e, Opened(setup.costs, OrderOf(pub.wanted.action, pub.signal, pub.bar.time, pub.bar.ohlc.close, setup.defaultQuantity)),
                  [], pub.bar)
  {
    hide IsPublished;
    var t := Trade(OrderOf(pub.wanted.action, pub.signal, pub.bar.time, pub.bar.ohlc.close, setup.defaultQuantity), []);
    assert Lived(setup, e, Opened(setup.costs, t.order), [], pub.bar, t, pub);
  }

  // ------------------------------------------------------------ one intent

  /** Positions not yet entered have no bars, and will be entered on this one. */
  ghost predicate Blank(n: nat, bars: nat -> seq<Bar>, entered: nat -> Bar, bar: Bar) {
    forall i :: i >= n ==> bars(i) == [] && entered(i) == bar
  }

  lemma ExitStory(setup: Setup, e: Engine, p: Position, bars: seq<Bar>, entered: Bar, s: Signal, intent: Intent, time: nat, close: real)
    requires Story(setup, e, p, bars, entered)
    ensures Story(setup, e, Exited(p, setup, s, intent, time, close), bars, entered)
  {
    hide Story, AfterClose, Marked;
    var event := OnClose(time, if s.price.Some? then s.price.value else close, ReasonOf(intent.action), s.quantity,
                         if intent.reason == "" then None else Some(intent.reason));
    StoryGoesOn(setup, e, p, bars, entered, event);
    assert bars + [] == bars;
    StoryGoesOn(setup, e, ExecutionLaws.Apply(setup.costs, p, event), bars, entered, OnPartialMark);
  }

  lemma FillingTells(setup: Setup, e: Engine, pub: Publication, bars: nat -> seq<Bar>, entered: nat -> Bar)
    requires AllStories(setup, e, bars, entered) && Blank(|e.positions|, bars, entered, pub.bar)
    requires pub.intent == Priced(pub.wanted, pub.bar.ohlc.close)
    requires pub.wanted.action.IsEntry() ==> IsPublished(setup, e, pub)
    ensures var f := Filled(e, setup, pub.signal, pub.intent, pub.bar.time, pub.bar.ohlc.close);
            AllStories(setup, f, bars, entered) && |e.positions| <= |f.positions|
  {
    hide Story, IsPublished, Opened, Exited;
    var f := Filled(e, setup, pub.signal, pub.intent, pub.bar.time, pub.bar.ohlc.close);
    if pub.wanted.action.IsEntry() {
      StoryBegins(setup, e, pub);
    } else if Held(e, pub.signal.uxid) && e.positions[e.open[pub.signal.uxid]].IsOpen() {
      var i := e.open[pub.signal.uxid];
      ExitStory(setup, e, e.positions[i], bars(i), entered(i), pub.signal, pub.intent, pub.bar.time, pub.bar.ohlc.close);
    }
    hide Grows;
    assert Grows(e, f) by { FillingGrows(e, f); }
    forall i | 0 <= i < |f.positions| ensures Story(setup, f, f.positions[i], bars(i), entered(i)) {
      StoryStays(setup, e, f, f.positions[i], bars(i), entered(i));
    }
  }

  lemma FillingGrows(e: Engine, f: Engine)
    requires f.builds == e.builds && f.signals == e.signals && f.views == e.views
    ensures Grows(e, f)
  {
  }

  lemma ApplyingGrows(e: Engine, setup: Setup, intent: Intent, time: nat, close: real)
    ensures var f := Applied(e, setup, intent, time, close);
            && f.views == e.views && e.builds < f.builds && (forall s :: s in e.signals ==> s in f.signals)
            && |e.positions| <= |f.positions|
  {
    hide Settled, Committed, Opened, Exited;
    var p := Priced(intent, close);
    match AskFactory(e, setup, p, time)
    case None =>
    case Some(s) =>
      SettlingKeepsCounts(Filled(Asked(e, p).(signals := e.signals + [s], book := Committed(e.book, p.action, s)), setup, s, p, time, close));
  }

  /** An intent of the strategy, or a close of any origin. */
  ghost predicate IsAsked(setup: Setup, e: Engine, intent: Intent, bar: Bar) {
    intent.action.IsEntry() ==> e.views != [] && Last(e.views).now == bar.time && intent in setup.strategy(e.views)
  }

  lemma ApplyingTells(setup: Setup, e: Engine, intent: Intent, bar: Bar, bars: nat -> seq<Bar>, entered: nat -> Bar)
    requires AllStories(setup, e, bars, entered) && Blank(|e.positions|, bars, entered, bar) && IsAsked(setup, e, intent, bar)
    ensures var f := Applied(e, setup, intent, bar.time, bar.ohlc.close);
            AllStories(setup, f, bars, entered) && Blank(|f.positions|, bars, entered, bar)
  {
    hide AllStories, Settled, Filled, Committed, IsPriced, IsPublished;
    ApplyingGrows(e, setup, intent, bar.time, bar.ohlc.close);
    var p := Priced(intent, bar.ohlc.close);
    match AskFactory(e, setup, p, bar.time)
    case None => AllStoriesStay(setup, e, Refused(Asked(e, p), p), bars, entered);
    case Some(s) =>
      var booked := Asked(e, p).(signals := e.signals + [s], book := Committed(e.book, p.action, s));
      AllStoriesStay(setup, e, booked, bars, entered);
      var pub := Publication(e.builds, intent, p, e.book, bar, s, if e.views == [] then 0 else |e.views| - 1);
      if intent.action.IsEntry() {
        JustPublished(setup, e, booked, pub);
      }
      FillingTells(setup, booked, pub, bars, entered);
      var g := Filled(booked, setup, s, p, bar.time, bar.ohlc.close);
      SettlingKeepsCounts(g);
      AllStoriesStay(setup, g, Settled(g), bars, entered);
  }

  lemma JustPublished(setup: Setup, e: Engine, booked: Engine, pub: Publication)
    requires pub.wanted.action.IsEntry() && IsAsked(setup, e, pub.wanted, pub.bar)
    requires pub.intent == Priced(pub.wanted, pub.bar.ohlc.close) && pub.call == e.builds && pub.view == |e.views| - 1
    requires setup.build(e.builds, pub.intent, pub.book, pub.bar.time) == Some(pub.signal)
    requires booked.builds == e.builds + 1 && booked.signals == e.signals + [pub.signal] && booked.views == e.views
    ensures IsPublished(setup, booked, pub)
  {
    PricingPrices(pub.wanted, pub.bar.ohlc.close);
    hide IsPriced;
    assert e.views[..|e.views|] == e.views;
  }

  lemma {:induction false} TakingTells(setup: Setup, e: Engine, intents: seq<Intent>, bar: Bar, bars: nat -> seq<Bar>, entered: nat -> Bar)
    requires AllStories(setup, e, bars, entered) && Blank(|e.positions|, bars, entered, bar)
    requires forall intent :: intent in intents ==> IsAsked(setup, e, intent, bar)
    ensures var f := TakenAll(e, setup, intents, bar.time, bar.ohlc.close);
            AllStories(setup, f, bars, entered) && Blank(|f.positions|, bars, entered, bar) && f.views == e.views
  {
    hide AllStories, Applied, Blank;
    if intents != [] {
      assert Last(intents) in intents && forall intent :: intent in Front(intents) ==> intent in intents;
      TakingTells(setup, e, Front(intents), bar, bars, entered);
      var before := TakenAll(e, setup, Front(intents), bar.time, bar.ohlc.close);
      if setup.isShut(bar.time) && Last(intents).action.IsEntry() {
        AllStoriesStay(setup, before, TakenAll(e, setup, intents, bar.time, bar.ohlc.close), bars, entered);
      } else {
        ApplyingTells(setup, before, Last(intents), bar, bars, entered);
        ApplyingGrows(before, setup, Last(intents), bar.time, bar.ohlc.close);
      }
    }
  }

  // ------------------------------------------------------------ one bar

  lemma ProcessingTells(setup: Setup, e: Engine, bar: Bar, bars: nat -> seq<Bar>, after: nat -> seq<Bar>, entered: nat -> Bar)
    requires AllStories(setup, e, bars, entered) && InStep(e)
    requires forall i :: 0 <= i < |e.positions| ==> after(i) == bars(i) + if i in e.open.Values then [bar] else []
    ensures AllStories(setup, Processed(e, setup.costs, bar), after, entered)
  {
    hide Story, AfterBar, BookTracks;
    StepIsTidy(e);
    var f := Processed(e, setup.costs, bar);
    forall i | 0 <= i < |e.positions| ensures Story(setup, f, f.positions[i], after(i), entered(i)) {
      if i in e.open.Values {
        HeldIsOpen(e, i);
        StoryGoesOn(setup, e, e.positions[i], bars(i), entered(i), OnBar(bar.ohlc, bar.time));
      } else {
        assert bars(i) + [] == bars(i);
      }
      StoryStays(setup, e, f, f.positions[i], after(i), entered(i));
    }
  }

  lemma FlatsAreNoEntries(setup: Setup, e: Engine, ids: seq<string>, bar: Bar)
    ensures forall intent :: intent in FlatIntents(ids, bar.ohlc.close) ==> IsAsked(setup, e, intent, bar)
  {
  }

  lemma BarTells(setup: Setup, frame: seq<Bar>, k: nat, e: Engine, bars: nat -> seq<Bar>, after: nat -> seq<Bar>, entered: nat -> Bar)
    requires k < |frame| && InStep(e) && AllStories(setup, e, bars, entered)
    requires forall i :: 0 <= i < |e.positions| ==> after(i) == bars(i) + if i in e.open.Values then [frame[k]] else []
    requires Blank(|e.positions|, after, entered, frame[k])
    ensures AllStories(setup, AfterBarAt(e, setup, frame, k), after, entered)
  {
    hide AllStories, Settled, Processed, TakenAll, Flattened, WindowAt, InStep, Blank;
    var bar := frame[k];
    ProcessingTells(setup, e, bar, bars, after, entered);
    var p := Processed(e, setup.costs, bar);
    ProcessingCounts(e, setup.costs, bar);
    SettlingKeepsCounts(p);
    var shown := Shown(Settled(p), setup, frame, k);
    ShowingGrows(p, shown);
    AllStoriesStay(setup, p, shown, after, entered);
    AskedOfTheStrategy(setup, shown, bar);
    TakingTells(setup, shown, setup.strategy(shown.views), bar, after, entered);
    var acted := TakenAll(shown, setup, setup.strategy(shown.views), bar.time, bar.ohlc.close);
    FlatteningIsTaking(acted, setup, Ids(acted.book), bar.time, bar.ohlc.close);
    FlatsAreNoEntries(setup, acted, Ids(acted.book), bar);
    TakingTells(setup, acted, FlatIntents(Ids(acted.book), bar.ohlc.close), bar, after, entered);
  }

  lemma ProcessingCounts(e: Engine, costs: CostModel, bar: Bar)
    ensures |Processed(e, costs, bar).positions| == |e.positions| && Processed(e, costs, bar).views == e.views
  {
  }

  lemma ShowingGrows(p: Engine, shown: Engine)
    requires shown.positions == p.positions && shown.builds == p.builds && shown.signals == p.signals
    requires |shown.views| == |p.views| + 1 && shown.views[..|p.views|] == p.views
    ensures Grows(p, shown)
  {
  }

  lemma AskedOfTheStrategy(setup: Setup, shown: Engine, bar: Bar)
    requires shown.views != [] && Last(shown.views).now == bar.time
    ensures forall intent :: intent in setup.strategy(shown.views) ==> IsAsked(setup, shown, intent, bar)
  {
  }

  // ------------------------------------------------------------ every run

  lemma {:induction false} NoBarsBeforeTheEntry(setup: Setup, frame: seq<Bar>, k: nat, i: nat)
    requires setup.warmup >= 1 && k < |frame| && (k > 0 ==> i >= |StateAfter(setup, frame, k - 1).positions|)
    ensures HeldBars(setup, frame, k, i) == []
  {
    hide StateAfter, BookTracks;
    if k > 0 {
      EveryBarKeepsStep(setup, frame, k - 1);
      StepIsTidy(StateAfter(setup, frame, k - 1));
      if k > 1 {
        PositionsStay(setup, frame, k - 1);
      }
      NoBarsBeforeTheEntry(setup, frame, k - 1, i);
      var e := StateAfter(setup, frame, k - 1);
      if i in e.open.Values {
        HeldIsOpen(e, i);
      }
    }
  }

  lemma PositionsStay(setup: Setup, frame: seq<Bar>, k: nat)
    requires setup.warmup >= 1 && 0 < k < |frame|
    ensures |StateAfter(setup, frame, k - 1).positions| <= |StateAfter(setup, frame, k).positions|
  {
    EveryBarIsDone(setup, frame, k);
    hide BarDone;
    if k + 1 >= setup.warmup {
      var (e, f) := (StateAfter(setup, frame, k - 1), StateAfter(setup, frame, k));
      hide StateAfter;
      var a: Account :| BarDone(setup, frame, k, e, f, a);
      DoneBarsAddPositions(setup, frame, k, e, f, a);
    }
  }

  lemma DoneBarsAddPositions(setup: Setup, frame: seq<Bar>, k: nat, e: Engine, f: Engine, a: Account)
    requires k < |frame| && BarDone(setup, frame, k, e, f, a)
    ensures |e.positions| <= |f.positions|
  {
    hide KeepsTheOpen, KeepsTheCycles, Meets, AreTheFlats, DoneInTurn, AreTheLatest;
    TurnsAddPositions(setup, frame[k], setup.strategy(a.shown.views), a.states);
    if setup.isShut(frame[k].time) {
      TurnsAddPositions(setup, frame[k], a.flats, a.flattening);
    }
  }

  lemma {:induction false} TurnsAddPositions(setup: Setup, bar: Bar, intents: seq<Intent>, states: seq<Engine>)
    requires DoneInTurn(setup, bar, intents, states)
    ensures states != [] && |states[0].positions| <= |Last(states).positions|
  {
    hide Does;
    if intents != [] {
      var n := |intents| - 1;
      assert DoneInTurn(setup, bar, Front(intents), Front(states)) by {
        forall j | 0 <= j < n ensures DoesSomehow(setup, bar, Front(states)[j], Front(intents)[j], Front(states)[j + 1]) {
          assert DoesSomehow(setup, bar, states[j], intents[j], states[j + 1]);
        }
      }
      TurnsAddPositions(setup, bar, Front(intents), Front(states));
      assert DoesSomehow(setup, bar, states[n], intents[n], states[n + 1]);
      var intent, trail :| Does(setup, bar, states[n], intents[n], intent, states[n + 1], trail);
      DoingAddsPositions(setup, bar, states[n], intents[n], intent, states[n + 1], trail);
    }
  }

  lemma DoingAddsPositions(setup: Setup, bar: Bar, e: Engine, wanted: Intent, intent: Intent, f: Engine, trail: Trail)
    requires Does(setup, bar, e, wanted, intent, f, trail)
    ensures |e.positions| <= |f.positions|
  {
    hide KeepsTheOpen, KeepsTheCycles, IsFilledEntry, SoldAsPublished, IsPriced;
  }

  /** In every run, for any strategy and any factory: behind every position there is an entry the strategy asked
      for at the close of the bar it was entered on, filled as the factory published it, and the bars among all
      that happened to it since are exactly the bars it was held through, in their order; and it has counted
      them. */
  lemma {:induction false} EveryPositionLivesItsBars(setup: Setup, frame: seq<Bar>, k: nat)
    requires setup.warmup >= 1 && k < |frame|
    ensures var e := StateAfter(setup, frame, k);
            AllStories(setup, e, (i: nat) => HeldBars(setup, frame, k, i), (i: nat) => EntryBar(setup, frame, k, i))
  {
    hide AfterBarAt, Story, InStep;
    var after := (i: nat) => HeldBars(setup, frame, k, i);
    var entered := (i: nat) => EntryBar(setup, frame, k, i);
    if k + 1 >= setup.warmup {
      var e := if k == 0 then IDLE else StateAfter(setup, frame, k - 1);
      IdleIsInStep();
      var bars: nat -> seq<Bar> := if k == 0 then ((i: nat) => []) else ((i: nat) => HeldBars(setup, frame, k - 1, i));
      if k > 0 {
        EveryBarKeepsStep(setup, frame, k - 1);
        EveryPositionLivesItsBars(setup, frame, k - 1);
        assert AllStories(setup, e, bars, (i: nat) => EntryBar(setup, frame, k - 1, i));
      }
      assert AllStories(setup, e, bars, entered);
      forall i: nat | i >= |e.positions| ensures after(i) == [] && entered(i) == frame[k] {
        NoBarsBeforeTheEntry(setup, frame, k, i);
      }
      hide StateAfter;
      BarTells(setup, frame, k, e, bars, after, entered);
      assert AfterBarAt(e, setup, frame, k) == StateAfter(setup, frame, k) by {
        OneBarMore(setup, frame, k);
      }
    }
  }

  lemma OneBarMore(setup: Setup, frame: seq<Bar>, k: nat)
    requires setup.warmup >= 1 && k < |frame| && k + 1 >= setup.warmup
    ensures StateAfter(setup, frame, k) == AfterBarAt(if k == 0 then IDLE else StateAfter(setup, frame, k - 1), setup, frame, k)
  {
    hide AfterBarAt;
  }

  // ------------------------------------------------------------ the bar that ends a position

  /** What is not held is left alone, by any intent. */
  lemma DoingLeavesTheRest(setup: Setup, bar: Bar, e: Engine, wanted: Intent, intent: Intent, f: Engine, trail: Trail, i: nat)
    requires Does(setup, bar, e, wanted, intent, f, trail) && i < |e.positions| && i !in e.open.Values
    ensures i < |f.positions| && f.positions[i] == e.positions[i] && i !in f.open.Values
  {
    hide KeepsTheCycles, IsFilledEntry, SoldAsPublished, IsPriced;
    assert forall u :: u in e.open ==> e.open[u] != i;
    assert forall u :: u in f.open ==> f.open[u] != i;
  }

  lemma {:induction false} TurnsLeaveTheRest(setup: Setup, bar: Bar, intents: seq<Intent>, states: seq<Engine>, i: nat)
    requires DoneInTurn(setup, bar, intents, states) && i < |states[0].positions| && i !in states[0].open.Values
    ensures states != [] && i < |Last(states).positions| && i !in Last(states).open.Values
    ensures Last(states).positions[i] == states[0].positions[i]
  {
    hide Does;
    if intents != [] {
      var n := |intents| - 1;
      assert DoneInTurn(setup, bar, Front(intents), Front(states)) by {
        forall j | 0 <= j < n ensures DoesSomehow(setup, bar, Front(states)[j], Front(intents)[j], Front(states)[j + 1]) {
          assert DoesSomehow(setup, bar, states[j], intents[j], states[j + 1]);
        }
      }
      TurnsLeaveTheRest(setup, bar, Front(intents), Front(states), i);
      assert DoesSomehow(setup, bar, states[n], intents[n], states[n + 1]);
      var intent, trail :| Does(setup, bar, states[n], intents[n], intent, states[n + 1], trail);
      DoingLeavesTheRest(setup, bar, states[n], intents[n], intent, states[n + 1], trail, i);
    }
  }

  lemma WalkedIsHeldIff(costs: CostModel, e: Engine, f: Engine, bar: Bar, kept: seq<nat>, i: nat)
    requires ReplaySteps.Walked(costs, e, f, bar, kept) && i < |e.positions| && i in f.open.Values
    ensures i in e.open.Values && f.positions[i].remaining > DUST
  {
    hide Meets, KeepsTheCycles;
    var u :| u in f.open && f.open[u] == i;
    assert e.open[u] == i;
  }

  /** In every run a position held before a bar meets it: if the bar reaches its stop, everything left is sold
      there, at the stop or at an open beyond it, and that is the end of the position; otherwise the targets it
      reaches take their shares. Whatever the strategy says at the close of that bar, a position the bar has
      closed stays as the bar left it, and one that was not held is not touched at all. */
  lemma EveryHeldPositionMeetsItsBar(setup: Setup, frame: seq<Bar>, k: nat, i: nat)
    requires setup.warmup >= 1 && 0 < k < |frame| && i < |StateAfter(setup, frame, k - 1).positions|
    ensures var (e, f) := (StateAfter(setup, frame, k - 1), StateAfter(setup, frame, k));
            && i < |f.positions|
            && (i !in e.open.Values ==> f.positions[i] == e.positions[i] && i !in f.open.Values)
            && (i in e.open.Values ==> exists met :: MetAndMaybeOver(setup, e.positions[i], met, f, i, frame[k]))
            && (i in e.open.Values && StopReached(e.positions[i], frame[k].ohlc) ==>
                  StopTaken(setup.costs, e.positions[i], f.positions[i], frame[k].ohlc, frame[k].time) && i !in f.open.Values)
  {
    hide BarDone, StopTaken, BookTracks;
    EveryBarIsDone(setup, frame, k);
    var (e, f) := (StateAfter(setup, frame, k - 1), StateAfter(setup, frame, k));
    if k + 1 >= setup.warmup {
      hide StateAfter;
      var a: Account :| BarDone(setup, frame, k, e, f, a);
      DoneBarMeets(setup, frame, k, e, f, a, i);
    }
  }

  /** What the bar made of a position, and, if that was the end of it, what it stayed. */
  ghost predicate MetAndMaybeOver(setup: Setup, p: Position, met: Position, f: Engine, i: nat, bar: Bar) {
    && i < |f.positions| && Meets(setup.costs, p, met, bar.ohlc, bar.time)
    && (met.remaining <= DUST ==> f.positions[i] == met && i !in f.open.Values)
  }

  lemma DoneBarMeets(setup: Setup, frame: seq<Bar>, k: nat, e: Engine, f: Engine, a: Account, i: nat)
    requires k < |frame| && BarDone(setup, frame, k, e, f, a) && i < |e.positions|
    ensures i < |f.positions|
    ensures i !in e.open.Values ==> f.positions[i] == e.positions[i] && i !in f.open.Values
    ensures i in e.open.Values ==> exists met :: MetAndMaybeOver(setup, e.positions[i], met, f, i, frame[k])
    ensures i in e.open.Values && StopReached(e.positions[i], frame[k].ohlc) ==>
              StopTaken(setup.costs, e.positions[i], f.positions[i], frame[k].ohlc, frame[k].time) && i !in f.open.Values
  {
    DoneBarsAddPositions(setup, frame, k, e, f, a);
    hide KeepsTheOpen, KeepsTheCycles, TargetsTaken, AreTheFlats, DoneInTurn, AreTheLatest, StopReached;
    if i in a.walked.open.Values {
      WalkedIsHeldIff(setup.costs, e, a.walked, frame[k], a.kept, i);
    } else {
      assert a.states[0].positions == a.walked.positions && a.states[0].open == a.walked.open;
      TurnsLeaveTheRest(setup, frame[k], setup.strategy(a.shown.views), a.states, i);
      if setup.isShut(frame[k].time) {
        TurnsLeaveTheRest(setup, frame[k], a.flats, a.flattening, i);
      }
    }
    if i in e.open.Values {
      assert MetAndMaybeOver(setup, e.positions[i], a.walked.positions[i], f, i, frame[k]);
    }
  }
}
