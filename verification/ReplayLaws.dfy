/** What a replay keeps, for any strategy and any lawful factory: every entry accounted for, the two
    books in step, no look at later bars, and every trade closed and counted once. */
module ReplayLaws {
  import opened Prelude
  import opened Execution
  import opened ExecutionLaws
  import opened Metrics
  import opened BacktestReplay

  // ------------------------------------------------------------ every entry intent is accounted for

  function EntriesIn(intents: seq<Intent>): nat {
    if intents == [] then 0 else EntriesIn(Front(intents)) + if Last(intents).action.IsEntry() then 1 else 0
  }

  /** How many entries the strategy has asked for, over everything it was shown. */
  function EntriesAsked(setup: Setup, views: seq<View>): nat {
    if views == [] then 0 else EntriesAsked(setup, Front(views)) + EntriesIn(setup.strategy(views))
  }

  predicate Accounted(e: Engine) {
    && e.entries == |e.positions| + e.rejected + e.blocked
    && e.builds == |e.signals| + e.rejected + e.rejectedCloses
  }

  lemma SettlingKeepsCounts(e: Engine)
    ensures var f := Settled(e);
            && f.positions == e.positions && f.entries == e.entries && f.rejected == e.rejected && f.blocked == e.blocked
            && f.views == e.views && f.reused == e.reused && f.displaced == e.displaced
            && f.builds == e.builds && f.signals == e.signals && f.rejectedCloses == e.rejectedCloses
  {
  }

  lemma ApplyingAccounts(e: Engine, setup: Setup, intent: Intent, time: nat, close: real)
    requires Accounted(e)
    ensures var f := Applied(e, setup, intent, time, close);
            && Accounted(f) && f.views == e.views
            && f.entries == e.entries + if intent.action.IsEntry() then 1 else 0
  {
    hide Settled, Committed, Opened, Exited;
    var p := Priced(intent, close);
    match AskFactory(e, setup, p, time)
    case None =>
    case Some(s) =>
      SettlingKeepsCounts(Filled(Asked(e, p).(signals := e.signals + [s], book := Committed(e.book, p.action, s)), setup, s, p, time, close));
  }

  lemma {:induction false} TakingAccounts(e: Engine, setup: Setup, intents: seq<Intent>, time: nat, close: real)
    requires Accounted(e)
    ensures var f := TakenAll(e, setup, intents, time, close);
            Accounted(f) && f.views == e.views && f.entries == e.entries + EntriesIn(intents)
  {
    hide Applied;
    if intents != [] {
      TakingAccounts(e, setup, Front(intents), time, close);
      var f := TakenAll(e, setup, Front(intents), time, close);
      ApplyingAccounts(f, setup, Last(intents), time, close);
    }
  }

  lemma {:induction false} FlatteningAccounts(e: Engine, setup: Setup, ids: seq<string>, time: nat, close: real)
    requires Accounted(e)
    ensures var f := Flattened(e, setup, ids, time, close);
            Accounted(f) && f.views == e.views && f.entries == e.entries
  {
    hide Applied;
    if ids != [] {
      FlatteningAccounts(e, setup, Front(ids), time, close);
      ApplyingAccounts(Flattened(e, setup, Front(ids), time, close), setup, FlatIntent(Last(ids), close), time, close);
    }
  }

  lemma BarAccounts(e: Engine, setup: Setup, frame: seq<Bar>, k: nat)
    requires k < |frame| && Accounted(e) && e.entries == EntriesAsked(setup, e.views)
    ensures var f := AfterBarAt(e, setup, frame, k);
            Accounted(f) && f.entries == EntriesAsked(setup, f.views)
  {
    hide Settled, TakenAll, Flattened, WindowAt, EntriesIn;
    var bar := frame[k];
    SettlingKeepsCounts(Processed(e, setup.costs, bar));
    var shown := Shown(Settled(Processed(e, setup.costs, bar)), setup, frame, k);
    assert Front(shown.views) == e.views;
    TakingAccounts(shown, setup, setup.strategy(shown.views), bar.time, bar.ohlc.close);
    var acted := TakenAll(shown, setup, setup.strategy(shown.views), bar.time, bar.ohlc.close);
    FlatteningAccounts(acted, setup, Ids(acted.book), bar.time, bar.ohlc.close);
  }

  /** After every bar, each entry the strategy has ever asked for was filled, refused by the factory
      or blocked by the calendar, and only one of the three; and each intent the factory was asked for
      was published or refused. */
  lemma {:induction false} EveryEntryIsAccountedFor(setup: Setup, frame: seq<Bar>, k: nat)
    requires setup.warmup >= 1 && k < |frame|
    ensures var e := StateAfter(setup, frame, k);
            && EntriesAsked(setup, e.views) == |e.positions| + e.rejected + e.blocked
            && e.builds == |e.signals| + e.rejected + e.rejectedCloses
            && e.entries == EntriesAsked(setup, e.views)
  {
    hide AfterBarAt;
    if k + 1 >= setup.warmup {
      if k > 0 {
        EveryEntryIsAccountedFor(setup, frame, k - 1);
      }
      BarAccounts(if k == 0 then IDLE else StateAfter(setup, frame, k - 1), setup, frame, k);
    }
  }

  // ------------------------------------------------------------ the engine's own book

  /** Played by the fill simulator, from an entry that passed the check. */
  ghost predicate Simulated(costs: CostModel, p: Position) {
    exists t: Trade :: IsChecked(t.order) && p == Played(costs, t)
  }

  ghost predicate AllSimulated(costs: CostModel, positions: seq<Position>) {
    forall i :: 0 <= i < |positions| ==> Simulated(costs, positions[i])
  }

  /** Distinct ids hold distinct positions; a position that is open is held, or was displaced while
      it was held; and a displaced position stays open for good. */
  ghost predicate Loose(e: Engine) {
    && (forall u :: u in e.open ==> e.open[u] < |e.positions| && e.open[u] !in e.displaced)
    && (forall u, v :: u in e.open && v in e.open && e.open[u] == e.open[v] ==> u == v)
    && (forall i :: 0 <= i < |e.positions| && e.positions[i].IsOpen() ==> i in e.open.Values || i in e.displaced)
    && (forall i :: i in e.displaced ==> i < |e.positions| && e.positions[i].IsOpen())
    && (e.displaced == {} <==> e.reused == [])
  }

  /** Nothing held is closed. */
  ghost predicate HoldsOnlyOpen(e: Engine) {
    forall u :: u in e.open ==> Held(e, u) && e.positions[e.open[u]].IsOpen()
  }

  /** The factory's cycle is held, open, and of the size the fills have left. */
  ghost predicate Tracks(e: Engine, c: Cycle) {
    && Held(e, c.uxid) && e.positions[e.open[c.uxid]].IsOpen()
    && c.remaining == e.positions[e.open[c.uxid]].remaining && c.tp1Filled == e.positions[e.open[c.uxid]].tp1Filled
  }

  ghost predicate BookTracks(e: Engine) {
    forall c :: c in e.book ==> Tracks(e, c)
  }

  ghost predicate Tidy(e: Engine) {
    Loose(e) && HoldsOnlyOpen(e)
  }

  lemma DroppingTidies(e: Engine)
    requires Loose(e)
    ensures Tidy(WithoutClosed(e))
  {
    var f := WithoutClosed(e);
    forall i | 0 <= i < |e.positions| && e.positions[i].IsOpen() ensures i in f.open.Values || i in f.displaced {
      if i !in e.displaced {
        var u :| u in e.open && e.open[u] == i;
        assert u in f.open && f.open[u] == i;
      }
    }
  }

  lemma {:induction false} SyncingTracks(book: seq<Cycle>, e: Engine)
    ensures forall c :: c in Synced(book, e.positions, e.open) ==> Tracks(e, c)
  {
    if book != [] {
      SyncingTracks(Front(book), e);
    }
  }

  lemma BookIsNoMatter(e: Engine, f: Engine)
    requires Tidy(e)
    requires f.positions == e.positions && f.open == e.open && f.displaced == e.displaced && f.reused == e.reused
    ensures Tidy(f)
  {
  }

  lemma SettlingTidies(e: Engine)
    requires Loose(e)
    ensures Tidy(Settled(e)) && BookTracks(Settled(e))
  {
    hide Loose, HoldsOnlyOpen, Synced;
    var f := WithoutClosed(e);
    DroppingTidies(e);
    BookIsNoMatter(f, Settled(e));
    SyncingTracks(f.book, f);
    SamePositionsTrack(f, Settled(e));
  }

  lemma SamePositionsTrack(e: Engine, f: Engine)
    requires f.positions == e.positions && f.open == e.open
    ensures forall c :: Tracks(e, c) ==> Tracks(f, c)
  {
  }

  lemma ProcessingKeepsLoose(e: Engine, costs: CostModel, bar: Bar)
    requires Loose(e)
    ensures Loose(Processed(e, costs, bar))
  {
    var f := Processed(e, costs, bar);
    forall i | 0 <= i < |f.positions| && f.positions[i].IsOpen() ensures i in f.open.Values || i in f.displaced {
      if i !in e.open.Values {
        assert f.positions[i] == e.positions[i];
      }
    }
    forall i | i in f.displaced ensures i < |f.positions| && f.positions[i].IsOpen() {
      assert f.positions[i] == e.positions[i];
    }
  }

  /** An entry takes its id from whatever was held there. */
  lemma EnteringKeepsLoose(e: Engine, setup: Setup, s: Signal, action: Action, time: nat, close: real)
    requires Tidy(e)
    ensures Loose(Entered(e, setup, s, action, time, close))
  {
    hide Opened, OrderOf, Position.IsOpen;
    var (f, n) := (Entered(e, setup, s, action, time, close), |e.positions|);
    assert forall u :: u in f.open ==> f.open[u] == if u == s.uxid then n else e.open[u];
    forall i | 0 <= i < |f.positions| && f.positions[i].IsOpen() ensures i in f.open.Values || i in f.displaced {
      EnteringLosesNone(e, setup, s, action, time, close, i);
    }
    assert forall i :: 0 <= i < n ==> f.positions[i] == e.positions[i];
  }

  lemma EnteringLosesNone(e: Engine, setup: Setup, s: Signal, action: Action, time: nat, close: real, i: nat)
    requires Tidy(e)
    ensures var f := Entered(e, setup, s, action, time, close);
            i < |f.positions| && f.positions[i].IsOpen() ==> i in f.open.Values || i in f.displaced
  {
    hide Opened, OrderOf, Position.IsOpen;
    var f := Entered(e, setup, s, action, time, close);
    if i == |e.positions| {
      assert s.uxid in f.open && f.open[s.uxid] == i;
    } else if i < |e.positions| && f.positions[i].IsOpen() && i !in e.displaced {
      assert f.positions[i] == e.positions[i];
      var u :| u in e.open && e.open[u] == i;
      assert u != s.uxid ==> u in f.open && f.open[u] == i;
    }
  }

  /** A close touches the one position held under its id. */
  lemma ExitingKeepsLoose(e: Engine, uxid: string, p: Position)
    requires Tidy(e) && uxid in e.open
    ensures Loose(e.(positions := e.positions[e.open[uxid] := p]))
  {
    var f := e.(positions := e.positions[e.open[uxid] := p]);
    assert f.open[uxid] in f.open.Values;
    assert forall i :: 0 <= i < |e.positions| && i != e.open[uxid] ==> f.positions[i] == e.positions[i];
  }

  lemma FillingKeepsLoose(e: Engine, setup: Setup, s: Signal, intent: Intent, time: nat, close: real)
    requires Tidy(e)
    ensures Loose(Filled(e, setup, s, intent, time, close))
  {
    hide Loose, HoldsOnlyOpen, Entered, Exited;
    TidyIsLoose(e);
    if intent.action.IsEntry() {
      EnteringKeepsLoose(e, setup, s, intent.action, time, close);
    } else if Held(e, s.uxid) && e.positions[e.open[s.uxid]].IsOpen() {
      ExitingKeepsLoose(e, s.uxid, Exited(e.positions[e.open[s.uxid]], setup, s, intent, time, close));
    }
  }

  lemma TidyIsLoose(e: Engine)
    requires Tidy(e)
    ensures Loose(e)
  {
  }

  ghost predicate InStep(e: Engine) {
    Tidy(e) && BookTracks(e)
  }

  lemma NotesAreNoMatter(e: Engine, f: Engine)
    requires InStep(e)
    requires f.positions == e.positions && f.open == e.open && f.displaced == e.displaced && f.reused == e.reused && f.book == e.book
    ensures InStep(f)
  {
  }

  lemma ApplyingKeepsStep(e: Engine, setup: Setup, intent: Intent, time: nat, close: real)
    requires InStep(e)
    ensures InStep(Applied(e, setup, intent, time, close))
  {
    hide Tidy, BookTracks, Filled, Settled, Committed;
    var p := Priced(intent, close);
    match AskFactory(e, setup, p, time)
    case None => NotesAreNoMatter(e, Refused(Asked(e, p), p));
    case Some(s) =>
      var booked := Asked(e, p).(signals := e.signals + [s], book := Committed(e.book, p.action, s));
      BookIsNoMatter(e, booked);
      FillingKeepsLoose(booked, setup, s, p, time, close);
      SettlingTidies(Filled(booked, setup, s, p, time, close));
  }

  lemma {:induction false} TakingKeepsStep(e: Engine, setup: Setup, intents: seq<Intent>, time: nat, close: real)
    requires InStep(e)
    ensures InStep(TakenAll(e, setup, intents, time, close))
  {
    hide InStep, Applied;
    if intents != [] {
      TakingKeepsStep(e, setup, Front(intents), time, close);
      var f := TakenAll(e, setup, Front(intents), time, close);
      ApplyingKeepsStep(f, setup, Last(intents), time, close);
      NotesAreNoMatter(f, f.(blocked := f.blocked + 1, entries := f.entries + 1));
    }
  }

  lemma {:induction false} FlatteningKeepsStep(e: Engine, setup: Setup, ids: seq<string>, time: nat, close: real)
    requires InStep(e)
    ensures InStep(Flattened(e, setup, ids, time, close))
  {
    hide InStep, Applied;
    if ids != [] {
      FlatteningKeepsStep(e, setup, Front(ids), time, close);
      ApplyingKeepsStep(Flattened(e, setup, Front(ids), time, close), setup, FlatIntent(Last(ids), close), time, close);
    }
  }

  lemma StepIsTidy(e: Engine)
    ensures InStep(e) <==> Tidy(e) && BookTracks(e)
  {
  }

  lemma BarKeepsStep(e: Engine, setup: Setup, frame: seq<Bar>, k: nat)
    requires k < |frame| && InStep(e)
    ensures InStep(AfterBarAt(e, setup, frame, k))
  {
    hide InStep, Tidy, BookTracks, Settled, TakenAll, Flattened, WindowAt, Loose, Processed;
    var bar := frame[k];
    StepIsTidy(e);
    TidyIsLoose(e);
    ProcessingKeepsLoose(e, setup.costs, bar);
    var settled := Settled(Processed(e, setup.costs, bar));
    SettlingTidies(Processed(e, setup.costs, bar));
    StepIsTidy(settled);
    var shown := Shown(settled, setup, frame, k);
    NotesAreNoMatter(settled, shown);
    TakingKeepsStep(shown, setup, setup.strategy(shown.views), bar.time, bar.ohlc.close);
    var acted := TakenAll(shown, setup, setup.strategy(shown.views), bar.time, bar.ohlc.close);
    FlatteningKeepsStep(acted, setup, Ids(acted.book), bar.time, bar.ohlc.close);
  }

  lemma IdleIsInStep()
    ensures InStep(IDLE)
  {
  }

  lemma {:induction false} EveryBarKeepsStep(setup: Setup, frame: seq<Bar>, k: nat)
    requires setup.warmup >= 1 && k < |frame|
    ensures InStep(StateAfter(setup, frame, k))
  {
    hide AfterBarAt, InStep;
    IdleIsInStep();
    if k + 1 >= setup.warmup {
      if k > 0 {
        EveryBarKeepsStep(setup, frame, k - 1);
      }
      BarKeepsStep(if k == 0 then IDLE else StateAfter(setup, frame, k - 1), setup, frame, k);
    }
  }

  /** After every bar, every cycle the factory still holds is a position the engine holds open, with
      the remaining size and the first-target flag the fills have left it. */
  lemma FactoryAgreesWithFills(setup: Setup, frame: seq<Bar>, k: nat)
    requires setup.warmup >= 1 && k < |frame|
    ensures var e := StateAfter(setup, frame, k);
            forall c :: c in e.book ==>
              && Held(e, c.uxid) && e.positions[e.open[c.uxid]].IsOpen()
              && c.remaining == e.positions[e.open[c.uxid]].remaining
              && c.tp1Filled == e.positions[e.open[c.uxid]].tp1Filled
  {
    hide StateAfter, Tidy;
    EveryBarKeepsStep(setup, frame, k);
  }

  /** The engine holds exactly the positions that are open. */
  ghost predicate HoldsExactlyOpen(e: Engine) {
    forall i :: 0 <= i < |e.positions| ==> (e.positions[i].IsOpen() <==> i in e.open.Values)
  }

  lemma ExactUnlessDisplaced(e: Engine)
    requires Tidy(e)
    ensures HoldsExactlyOpen(e) <==> e.reused == []
    ensures e.reused != [] ==> exists i :: i in e.displaced && i < |e.positions| && e.positions[i].IsOpen() && i !in e.open.Values
  {
    forall i | 0 <= i < |e.positions| && i in e.open.Values ensures e.positions[i].IsOpen() {
      var u :| u in e.open && e.open[u] == i;
      assert Held(e, u);
    }
    if e.reused != [] {
      var i :| i in e.displaced;
      assert i !in e.open.Values;
    }
  }

  /** After every bar the engine holds exactly the positions still open, if and only if no accepted
      entry has named an id a position was still held under. */
  lemma HoldsExactlyOpenIff(setup: Setup, frame: seq<Bar>, k: nat)
    requires setup.warmup >= 1 && k < |frame|
    ensures var e := StateAfter(setup, frame, k);
            HoldsExactlyOpen(e) <==> e.reused == []
  {
    hide StateAfter, Tidy, BookTracks, HoldsExactlyOpen;
    EveryBarKeepsStep(setup, frame, k);
    ExactUnlessDisplaced(StateAfter(setup, frame, k));
  }

  /** One intent at a time, the condition is a look at what is held before the entry is filled. */
  lemma OnlyReuseDisplaces(e: Engine, setup: Setup, intent: Intent, time: nat, close: real)
    requires InStep(e) && HoldsExactlyOpen(e)
    ensures var answer := AskFactory(e, setup, Priced(intent, close), time);
            HoldsExactlyOpen(Applied(e, setup, intent, time, close))
            <==> !(intent.action.IsEntry() && answer.Some? && answer.value.uxid in e.open)
  {
    hide Tidy, BookTracks, HoldsExactlyOpen, Settled, Committed, Opened, Exited;
    var p := Priced(intent, close);
    ApplyingKeepsStep(e, setup, intent, time, close);
    ExactUnlessDisplaced(e);
    ExactUnlessDisplaced(Applied(e, setup, intent, time, close));
    match AskFactory(e, setup, p, time)
    case None =>
    case Some(s) =>
      SettlingKeepsCounts(Filled(Asked(e, p).(signals := e.signals + [s], book := Committed(e.book, p.action, s)), setup, s, p, time, close));
  }

  // ------------------------------------------------------------ every position is a simulated trade

  lemma SimulatedGoesOn(costs: CostModel, p: Position, event: Event)
    requires Simulated(costs, p)
    ensures Simulated(costs, ExecutionLaws.Apply(costs, p, event))
  {
    var t: Trade :| IsChecked(t.order) && p == Played(costs, t);
    var u := Trade(t.order, t.events + [event]);
    assert Front(u.events) == t.events && Last(u.events) == event;
    assert Played(costs, u) == ExecutionLaws.Apply(costs, p, event);
  }

  lemma OpenedIsSimulated(costs: CostModel, o: Order)
    requires IsChecked(o)
    ensures Simulated(costs, Opened(costs, o))
  {
    assert Played(costs, Trade(o, [])) == Opened(costs, o);
  }

  lemma ProcessingSimulates(e: Engine, costs: CostModel, bar: Bar)
    requires AllSimulated(costs, e.positions)
    ensures AllSimulated(costs, Processed(e, costs, bar).positions)
  {
    hide Simulated, AfterBar;
    forall i | 0 <= i < |e.positions| ensures Simulated(costs, Processed(e, costs, bar).positions[i]) {
      SimulatedGoesOn(costs, e.positions[i], OnBar(bar.ohlc, bar.time));
    }
  }

  lemma ExitingSimulates(p: Position, setup: Setup, s: Signal, intent: Intent, time: nat, close: real)
    requires Simulated(setup.costs, p)
    ensures Simulated(setup.costs, Exited(p, setup, s, intent, time, close))
  {
    hide Simulated, AfterClose, Marked;
    var event := OnClose(time, if s.price.Some? then s.price.value else close, ReasonOf(intent.action), s.quantity,
                         if intent.reason == "" then None else Some(intent.reason));
    SimulatedGoesOn(setup.costs, p, event);
    SimulatedGoesOn(setup.costs, ExecutionLaws.Apply(setup.costs, p, event), OnPartialMark);
  }

  lemma FillingSimulates(e: Engine, setup: Setup, s: Signal, intent: Intent, time: nat, close: real)
    requires AllSimulated(setup.costs, e.positions)
    requires intent.action.IsEntry() ==> AcceptableEntry(s, intent.action)
    ensures AllSimulated(setup.costs, Filled(e, setup, s, intent, time, close).positions)
  {
    hide Simulated, Exited, Opened;
    if intent.action.IsEntry() {
      OpenedIsSimulated(setup.costs, OrderOf(intent.action, s, time, close, setup.defaultQuantity));
    } else if Held(e, s.uxid) && e.positions[e.open[s.uxid]].IsOpen() {
      ExitingSimulates(e.positions[e.open[s.uxid]], setup, s, intent, time, close);
    }
  }

  lemma ApplyingSimulates(e: Engine, setup: Setup, intent: Intent, time: nat, close: real)
    requires Lawful(setup) && AllSimulated(setup.costs, e.positions)
    ensures AllSimulated(setup.costs, Applied(e, setup, intent, time, close).positions)
  {
    hide AllSimulated, Filled, Settled, Committed;
    var p := Priced(intent, close);
    match AskFactory(e, setup, p, time)
    case None =>
    case Some(s) =>
      assert p.action.IsEntry() ==> AcceptableEntry(s, p.action);
      var booked := Asked(e, p).(signals := e.signals + [s], book := Committed(e.book, p.action, s));
      FillingSimulates(booked, setup, s, p, time, close);
      SettlingKeepsCounts(Filled(booked, setup, s, p, time, close));
  }

  lemma {:induction false} TakingSimulates(e: Engine, setup: Setup, intents: seq<Intent>, time: nat, close: real)
    requires Lawful(setup) && AllSimulated(setup.costs, e.positions)
    ensures AllSimulated(setup.costs, TakenAll(e, setup, intents, time, close).positions)
  {
    hide Lawful, AllSimulated, Applied;
    if intents != [] {
      TakingSimulates(e, setup, Front(intents), time, close);
      ApplyingSimulates(TakenAll(e, setup, Front(intents), time, close), setup, Last(intents), time, close);
    }
  }

  lemma {:induction false} FlatteningSimulates(e: Engine, setup: Setup, ids: seq<string>, time: nat, close: real)
    requires Lawful(setup) && AllSimulated(setup.costs, e.positions)
    ensures AllSimulated(setup.costs, Flattened(e, setup, ids, time, close).positions)
  {
    hide Lawful, AllSimulated, Applied;
    if ids != [] {
      FlatteningSimulates(e, setup, Front(ids), time, close);
      ApplyingSimulates(Flattened(e, setup, Front(ids), time, close), setup, FlatIntent(Last(ids), close), time, close);
    }
  }

  lemma BarSimulates(e: Engine, setup: Setup, frame: seq<Bar>, k: nat)
    requires k < |frame| && Lawful(setup) && AllSimulated(setup.costs, e.positions)
    ensures AllSimulated(setup.costs, AfterBarAt(e, setup, frame, k).positions)
  {
    hide Lawful, AllSimulated, Settled, Processed, TakenAll, Flattened, WindowAt;
    var bar := frame[k];
    ProcessingSimulates(e, setup.costs, bar);
    SettlingKeepsCounts(Processed(e, setup.costs, bar));
    var shown := Shown(Settled(Processed(e, setup.costs, bar)), setup, frame, k);
    TakingSimulates(shown, setup, setup.strategy(shown.views), bar.time, bar.ohlc.close);
    var acted := TakenAll(shown, setup, setup.strategy(shown.views), bar.time, bar.ohlc.close);
    FlatteningSimulates(acted, setup, Ids(acted.book), bar.time, bar.ohlc.close);
  }

  lemma {:induction false} EveryBarSimulates(setup: Setup, frame: seq<Bar>, k: nat)
    requires setup.warmup >= 1 && k < |frame| && Lawful(setup)
    ensures AllSimulated(setup.costs, StateAfter(setup, frame, k).positions)
  {
    hide AfterBarAt, Lawful, Simulated;
    if k + 1 >= setup.warmup {
      if k > 0 {
        EveryBarSimulates(setup, frame, k - 1);
      }
      BarSimulates(if k == 0 then IDLE else StateAfter(setup, frame, k - 1), setup, frame, k);
    }
  }

  // ------------------------------------------------------------ the end of a run

  /** The positions that were ever big enough to count as open. */
  function Sized(positions: seq<Position>): seq<Position> {
    if positions == [] then []
    else Sized(Front(positions)) + if Last(positions).quantity > DUST then [Last(positions)] else []
  }

  lemma {:induction false} DustNeverTrades(costs: CostModel, o: Order, events: seq<Event>)
    requires o.quantity <= DUST
    ensures var p := Replay(costs, o, events);
            p.legs == [] && p.remaining == o.quantity && p.quantity == o.quantity
  {
    if events != [] {
      DustNeverTrades(costs, o, Front(events));
    }
  }

  lemma ClosedMeansTraded(costs: CostModel, p: Position)
    requires Simulated(costs, p) && !p.IsOpen()
    ensures p.legs != [] <==> p.quantity > DUST
  {
    var t: Trade :| IsChecked(t.order) && p == Played(costs, t);
    hide Replay, AllExits, Ledger;
    SizeIsConserved(costs, t.order, t.events);
    BooksAgree(costs, t.order, t.events);
    if t.order.quantity <= DUST {
      DustNeverTrades(costs, t.order, t.events);
    }
  }

  lemma {:induction false} TradedIsSized(positions: seq<Position>)
    requires forall i :: 0 <= i < |positions| ==> (positions[i].legs != [] <==> positions[i].quantity > DUST)
    ensures Traded(positions) == Sized(positions)
  {
    if positions != [] {
      TradedIsSized(Front(positions));
    }
  }

  /** A close of everything leaves nothing. */
  lemma CloseOfAllCloses(costs: CostModel, p: Position, time: nat, price: real)
    ensures !AfterClose(costs, p, time, price, EndOfData, None, None).IsOpen()
  {
  }

  lemma MarkingOutSimulates(e: Engine, costs: CostModel, bar: Bar)
    requires AllSimulated(costs, e.positions)
    ensures AllSimulated(costs, MarkedOut(e, costs, bar).positions)
  {
    hide Simulated, AfterClose;
    forall i | 0 <= i < |e.positions| ensures Simulated(costs, MarkedOut(e, costs, bar).positions[i]) {
      SimulatedGoesOn(costs, e.positions[i], OnClose(bar.time, bar.ohlc.close, EndOfData, None, None));
    }
  }

  predicate AllClosed(positions: seq<Position>) {
    forall i :: 0 <= i < |positions| ==> !positions[i].IsOpen()
  }

  lemma MarkOutClosesWhatIsHeld(e: Engine, costs: CostModel, bar: Bar)
    requires Tidy(e)
    ensures AllClosed(MarkedOut(e, costs, bar).positions) <==> e.reused == []
  {
    hide AfterClose;
    var f := MarkedOut(e, costs, bar);
    ExactUnlessDisplaced(e);
    forall i | 0 <= i < |e.positions| && i in e.open.Values ensures !f.positions[i].IsOpen() {
      CloseOfAllCloses(costs, e.positions[i], bar.time, bar.ohlc.close);
    }
    hide Tidy;
    if e.reused != [] {
      var i :| i in e.displaced && i < |e.positions| && e.positions[i].IsOpen() && i !in e.open.Values;
      assert f.positions[i].IsOpen();
    }
  }

  /** At the end of a run every position is closed, if and only if no accepted entry ever named an id
      a position was still held under; and then the report counts each position that was ever big
      enough to be open exactly once, and nothing else. */
  lemma EveryTradeIsClosedAndCountedOnce(setup: Setup, frame: seq<Bar>)
    requires setup.warmup >= 1 && Lawful(setup) && RunOver(setup, frame).Success?
    ensures var (e, f) := (StateAfter(setup, frame, |frame| - 1), RunOver(setup, frame).value);
            && (AllClosed(f.positions) <==> e.reused == [])
            && (e.reused == [] ==> Traded(f.positions) == Sized(f.positions))
            && |f.positions| == |e.positions|
  {
    hide StateAfter, Lawful, Tidy, BookTracks, Simulated;
    var e := StateAfter(setup, frame, |frame| - 1);
    EveryBarKeepsStep(setup, frame, |frame| - 1);
    EveryBarSimulates(setup, frame, |frame| - 1);
    MarkOutClosesWhatIsHeld(e, setup.costs, Last(frame));
    MarkingOutSimulates(e, setup.costs, Last(frame));
    var f := MarkedOut(e, setup.costs, Last(frame));
    if e.reused == [] {
      forall i | 0 <= i < |f.positions| ensures f.positions[i].legs != [] <==> f.positions[i].quantity > DUST {
        ClosedMeansTraded(setup.costs, f.positions[i]);
      }
      TradedIsSized(f.positions);
    }
  }

  ghost predicate TradesOf(costs: CostModel, trades: seq<Trade>, positions: seq<Position>) {
    AllPlayed(costs, trades) == positions && forall t :: t in trades ==> IsChecked(t.order)
  }

  lemma {:induction false} TradesBehind(costs: CostModel, positions: seq<Position>)
    requires AllSimulated(costs, positions)
    ensures exists trades: seq<Trade> :: TradesOf(costs, trades, positions)
  {
    hide Simulated, TradesOf;
    if positions == [] {
      NoTrades(costs);
    } else {
      TradesBehind(costs, Front(positions));
      var before: seq<Trade> :| TradesOf(costs, before, Front(positions));
      OneMoreTrade(costs, before, Front(positions), positions[|positions| - 1]);
      assert Front(positions) + [Last(positions)] == positions;
    }
  }

  lemma NoTrades(costs: CostModel)
    ensures TradesOf(costs, [], [])
  {
  }

  lemma OneMoreTrade(costs: CostModel, trades: seq<Trade>, positions: seq<Position>, p: Position)
    requires TradesOf(costs, trades, positions) && Simulated(costs, p)
    ensures exists more: seq<Trade> :: TradesOf(costs, more, positions + [p])
  {
    hide Played, IsChecked;
    var t: Trade :| IsChecked(t.order) && p == Played(costs, t);
    assert Front(trades + [t]) == trades && Last(trades + [t]) == t;
    assert TradesOf(costs, trades + [t], positions + [p]);
  }

  /** So every law of a simulated fill holds of every position a run reports. */
  lemma EveryPositionIsAPlayedTrade(setup: Setup, frame: seq<Bar>)
    requires setup.warmup >= 1 && Lawful(setup) && RunOver(setup, frame).Success?
    ensures exists trades: seq<Trade> :: TradesOf(setup.costs, trades, RunOver(setup, frame).value.positions)
  {
    hide StateAfter, Lawful, AllSimulated;
    EveryBarSimulates(setup, frame, |frame| - 1);
    var e := StateAfter(setup, frame, |frame| - 1);
    MarkingOutSimulates(e, setup.costs, Last(frame));
    TradesBehind(setup.costs, MarkedOut(e, setup.costs, Last(frame)).positions);
  }

  /** At every bar of every run, stop before target is the worst the touched levels of a held position
      could have booked, at costs that are not negative. */
  lemma StopFirstIsALowerBoundInEveryRun(setup: Setup, frame: seq<Bar>, k: nat, i: nat, bar: Ohlc, time: nat, order: seq<Level>)
    requires setup.warmup >= 1 && k < |frame| && Lawful(setup)
    requires setup.costs.HalfTurn() >= 0.0 && setup.costs.contractSize >= 0.0
    requires i < |StateAfter(setup, frame, k).positions|
    requires var p := StateAfter(setup, frame, k).positions[i];
             p.IsOpen() && Reached(p, bar, Stop) && Stop in order && forall lv :: lv in order ==> Reached(p, bar, lv)
    ensures var p := StateAfter(setup, frame, k).positions[i];
            AfterBar(setup.costs, p, bar, time).NetPnl() <= FillInOrder(setup.costs, p, bar, time, order).NetPnl()
  {
    hide StateAfter, Lawful, AfterBar, FillInOrder, Reached, StopBehindEntry, IsChecked, CostModel.HalfTurn;
    EveryBarSimulates(setup, frame, k);
    var p := StateAfter(setup, frame, k).positions[i];
    assert Simulated(setup.costs, p);
    var t: Trade :| IsChecked(t.order) && p == Played(setup.costs, t);
    CheckedStop(t.order);
    CheckedBracketsKeepTheBound(setup.costs, t.order, t.events);
    StopFirstIsALowerBound(setup.costs, p, bar, time, order);
  }

  lemma CheckedStop(o: Order)
    requires IsChecked(o)
    ensures o.quantity > 0.0 && (o.sl.Some? ==> (o.sl.value - o.price) * o.side.Sign() <= 0.0)
  {
  }

  /** What a run's report says of the expectancy before costs: the mean R at quoted prices of its trades
      with a stop, plus the round trip on whatever dust they left. */
  lemma ARunReportsTheRawExpectancy(setup: Setup, frame: seq<Bar>, m: BacktestMetrics)
    requires setup.warmup >= 1 && Lawful(setup) && RunOver(setup, frame).Success? && setup.costs.contractSize != 0.0
    requires Costed(Traded(RunOver(setup, frame).value.positions))
    requires ReportsCosts(m, Traded(RunOver(setup, frame).value.positions), setup.costs)
    ensures exists trades: seq<Trade> ::
              && TradesOf(setup.costs, trades, RunOver(setup, frame).value.positions)
              && (StopTrades(setup.costs, trades) != [] ==> ReportsRawR(m, setup.costs, StopTrades(setup.costs, trades)))
  {
    hide *;
    EveryPositionIsAPlayedTrade(setup, frame);
    var trades: seq<Trade> :| TradesOf(setup.costs, trades, RunOver(setup, frame).value.positions);
    TradesReportTheirRawR(setup.costs, trades, RunOver(setup, frame).value.positions, m);
  }

  lemma TradesReportTheirRawR(costs: CostModel, trades: seq<Trade>, positions: seq<Position>, m: BacktestMetrics)
    requires TradesOf(costs, trades, positions) && costs.contractSize != 0.0
    requires Costed(Traded(positions)) && ReportsCosts(m, Traded(positions), costs)
    ensures StopTrades(costs, trades) != [] ==> ReportsRawR(m, costs, StopTrades(costs, trades))
  {
    hide ReportsCosts, Traded, Costed, AllPlayed, ReportsRawR, StopTrades, IsChecked;
    forall t | t in trades ensures t.order.quantity > 0.0 {
      CheckedStop(t.order);
    }
    if StopTrades(costs, trades) != [] {
      ExpectancyBeforeCostsIsMeanRawR(m, costs, trades);
    }
  }

  // ------------------------------------------------------------ no look ahead

  /** The engine after bar k, before the mark-out, is the same on any two histories that agree up to
      bar k: in particular on the history cut right after it. */
  lemma {:induction false} NothingLaterMatters(setup: Setup, a: seq<Bar>, b: seq<Bar>, k: nat)
    requires setup.warmup >= 1 && k < |a| && k < |b| && a[..k + 1] == b[..k + 1]
    ensures StateAfter(setup, a, k) == StateAfter(setup, b, k)
  {
    hide AfterBarAt;
    if k > 0 {
      assert a[..k] == a[..k + 1][..k] && b[..k] == b[..k + 1][..k];
      NothingLaterMatters(setup, a, b, k - 1);
    }
    SameBar(if k == 0 then IDLE else StateAfter(setup, a, k - 1), setup, a, b, k);
  }

  lemma SameBar(e: Engine, setup: Setup, a: seq<Bar>, b: seq<Bar>, k: nat)
    requires k < |a| && k < |b| && a[..k + 1] == b[..k + 1]
    ensures AfterBarAt(e, setup, a, k) == AfterBarAt(e, setup, b, k)
  {
    hide Settled, Processed, TakenAll, Flattened, WindowAt;
    SameWindow(a, b, k, setup.window);
    assert a[k] == a[..k + 1][k] && b[k] == b[..k + 1][k];
  }

  lemma SameWindow(a: seq<Bar>, b: seq<Bar>, k: nat, window: Option<nat>)
    requires k < |a| && k < |b| && a[..k + 1] == b[..k + 1]
    ensures WindowAt(a, k, window) == WindowAt(b, k, window)
  {
    var start := if window.None? || k + 1 < window.value then 0 else k + 1 - window.value;
    assert a[start..k + 1] == a[..k + 1][start..] && b[start..k + 1] == b[..k + 1][start..];
  }

  /** What a queue bounded at the window holds once that many bars were pushed. */
  function Queue(frame: seq<Bar>, count: nat, window: Option<nat>): seq<Bar>
    requires count <= |frame|
  {
    if count == 0 then []
    else
      var pushed := Queue(frame, count - 1, window) + [frame[count - 1]];
      if window.Some? && |pushed| > window.value then pushed[1..] else pushed
  }

  /** The strategy is shown exactly what the live runner's bounded queue would hold: the last bars up
      to this one, as many as the window allows. */
  lemma {:induction false} WindowIsABoundedQueue(frame: seq<Bar>, k: nat, window: Option<nat>)
    requires k < |frame|
    ensures WindowAt(frame, k, window) == Queue(frame, k + 1, window)
    ensures |WindowAt(frame, k, window)| == if window.None? || k + 1 < window.value then k + 1 else window.value
  {
    hide WindowAt, Queue;
    NextQueue(frame, k, window);
    WindowFromItsStart(frame, k, window);
    if k == 0 {
      EmptyQueue(frame, window);
    } else {
      WindowIsABoundedQueue(frame, k - 1, window);
      WindowFromItsStart(frame, k - 1, window);
    }
    OneMoreBar(frame, if k == 0 then 0 else WindowStart(k - 1, window), k);
  }

  function WindowStart(k: nat, window: Option<nat>): nat {
    if window.None? || k + 1 < window.value then 0 else k + 1 - window.value
  }

  lemma WindowFromItsStart(frame: seq<Bar>, k: nat, window: Option<nat>)
    requires k < |frame|
    ensures WindowAt(frame, k, window) == frame[WindowStart(k, window)..k + 1]
  {
  }

  lemma EmptyQueue(frame: seq<Bar>, window: Option<nat>)
    ensures Queue(frame, 0, window) == []
  {
  }

  lemma NextQueue(frame: seq<Bar>, k: nat, window: Option<nat>)
    requires k < |frame|
    ensures var pushed := Queue(frame, k, window) + [frame[k]];
            Queue(frame, k + 1, window) == if window.Some? && |pushed| > window.value then pushed[1..] else pushed
  {
  }

  lemma OneMoreBar(frame: seq<Bar>, start: nat, k: nat)
    requires start <= k < |frame|
    ensures frame[start..k] + [frame[k]] == frame[start..k + 1]
    ensures (frame[start..k] + [frame[k]])[1..] == frame[start + 1..k + 1]
    ensures [] + [frame[k]] == [frame[k]] == frame[k..k + 1]
  {
  }

  // ------------------------------------------------------------ a cycle forgotten too early

  /** A factory that refuses nothing but the id of an open cycle. */
  function PlainBuild(n: nat, intent: Intent, book: seq<Cycle>, moment: nat): Option<Signal> {
    if intent.uxid.None? || intent.quantity.None? || intent.price.None? || intent.quantity.value <= 0.0 then None
    else if intent.action.IsEntry() && intent.uxid.value in Ids(book) then None
    else Some(Signal(intent.uxid.value, moment, intent.price, intent.quantity, None, None, None, None, false))
  }

  function Ask(action: Action, quantity: real): Intent {
    Intent(action, Some(1.0), Some(quantity), None, None, None, None, false, Some("A"), "")
  }

  /** Enter two, flatten one of them, enter again under the same id. */
  function ReentersAfterPartialFlat(views: seq<View>): seq<Intent> {
    [Ask(GoLong, 2.0), Ask(GoFlat, 1.0), Ask(GoLong, 1.0)]
  }

  function Example(): Setup {
    Setup(ReentersAfterPartialFlat, PlainBuild, (t: nat) => false, CostModel(0.0, 0.0, 0.0, 1.0), 1.0, None, 1)
  }

  const ONE_BAR := [Bar(0, Ohlc(1.0, 1.0, 1.0, 1.0))]

  /** The factory takes a FLAT of one unit for the end of a cycle of two, so it accepts the id again
      while the engine still holds the rest: that rest is never closed and never counted in full. */
  lemma PartialFlatLosesThePosition()
    ensures Lawful(Example())
    ensures var e := StateAfter(Example(), ONE_BAR, 0);
            e.reused == ["A"] && !HoldsExactlyOpen(e) && !AllClosed(MarkedOut(e, Example().costs, ONE_BAR[0]).positions)
  {
    ExampleReuses();
    EveryBarKeepsStep(Example(), ONE_BAR, 0);
    hide StateAfter;
    HoldsExactlyOpenIff(Example(), ONE_BAR, 0);
    MarkOutClosesWhatIsHeld(StateAfter(Example(), ONE_BAR, 0), Example().costs, ONE_BAR[0]);
  }

  lemma ExampleReuses()
    ensures StateAfter(Example(), ONE_BAR, 0).reused == ["A"]
  {
    hide Settled, Processed, Shown, Taken, Ids;
    var e := Shown(Settled(Processed(IDLE, Example().costs, ONE_BAR[0])), Example(), ONE_BAR, 0);
    NothingIsHeldAtFirst(e, Example());
    EntersTwo(e);
    var e1 := Taken(e, Example(), Ask(GoLong, 2.0), 0, 1.0);
    FlattensOne(e1);
    Reenters(Taken(e1, Example(), Ask(GoFlat, 1.0), 0, 1.0));
    ThreeInTurn(e, Example(), Ask(GoLong, 2.0), Ask(GoFlat, 1.0), Ask(GoLong, 1.0), 0, 1.0);
  }

  lemma EntersTwo(e: Engine)
    requires e.positions == [] && e.open == map[] && e.book == [] && e.reused == []
    ensures HoldsA(Taken(e, Example(), Ask(GoLong, 2.0), 0, 1.0), 2.0, [Cycle("A", 2.0, false)])
  {
    hide Settled, Opened, Committed;
    var (enter, two, cycle) := (Ask(GoLong, 2.0), Signal("A", 0, Some(1.0), Some(2.0), None, None, None, None, false), Cycle("A", 2.0, false));
    CommittedCycle();
    AcceptedIs(e, Example(), enter, 0, 1.0, two);
    OpenedIsFull(Example().costs, OrderOf(GoLong, two, 0, 1.0, 1.0));
    OneHeld(Filled(Asked(e, enter).(signals := e.signals + [two], book := [cycle]), Example(), two, enter, 0, 1.0));
  }

  lemma FlattensOne(e: Engine)
    requires HoldsA(e, 2.0, [Cycle("A", 2.0, false)])
    ensures HoldsA(Taken(e, Example(), Ask(GoFlat, 1.0), 0, 1.0), 1.0, [])
  {
    hide Settled, AfterClose, Committed;
    var (flat, less) := (Ask(GoFlat, 1.0), Signal("A", 0, Some(1.0), Some(1.0), None, None, None, None, false));
    CommittedCycle();
    AcceptedIs(e, Example(), flat, 0, 1.0, less);
    ClosesOne(Example().costs, e.positions[0]);
    OneHeld(Filled(Asked(e, flat).(signals := e.signals + [less], book := []), Example(), less, flat, 0, 1.0));
  }

  lemma CommittedCycle()
    ensures Committed([], GoLong, Signal("A", 0, Some(1.0), Some(2.0), None, None, None, None, false)) == [Cycle("A", 2.0, false)]
    ensures Committed([Cycle("A", 2.0, false)], GoFlat, Signal("A", 0, Some(1.0), Some(1.0), None, None, None, None, false)) == []
    ensures Ids([]) == []
  {
    OneCycle(Cycle("A", 2.0, false));
  }

  lemma ThreeInTurn(e: Engine, setup: Setup, a: Intent, b: Intent, c: Intent, time: nat, close: real)
    ensures TakenAll(e, setup, [a, b, c], time, close)
         == Taken(Taken(Taken(e, setup, a, time, close), setup, b, time, close), setup, c, time, close)
  {
    hide Taken;
    assert Front([a, b, c]) == [a, b] && Front([a, b]) == [a] && Front([a]) == [];
    assert TakenAll(e, setup, [a], time, close) == Taken(e, setup, a, time, close);
    assert TakenAll(e, setup, [a, b], time, close) == Taken(TakenAll(e, setup, [a], time, close), setup, b, time, close);
  }

  lemma NothingIsHeldAtFirst(e: Engine, setup: Setup)
    requires e == Shown(Settled(Processed(IDLE, setup.costs, ONE_BAR[0])), setup, ONE_BAR, 0)
    ensures e.positions == [] && e.open == map[] && e.book == [] && e.reused == []
  {
    var p := Processed(IDLE, setup.costs, ONE_BAR[0]);
    assert |p.positions| == 0 && p.open == map[] && p.reused == [] && p.book == [];
    assert WithoutClosed(p).open == map[];
    assert Synced([], p.positions, WithoutClosed(p).open) == [];
  }

  lemma OneHeld(e: Engine)
    requires |e.positions| == 1 && e.open == map["A" := 0] && e.positions[0].IsOpen()
    ensures Settled(e).positions == e.positions && Settled(e).open == map["A" := 0] && Settled(e).reused == e.reused
    ensures e.book == [] ==> Settled(e).book == []
    ensures |e.book| == 1 && e.book[0].uxid == "A" ==>
              Settled(e).book == [Cycle("A", e.positions[0].remaining, e.positions[0].tp1Filled)]
  {
    assert WithoutClosed(e).open == map["A" := 0];
    if |e.book| == 1 {
      assert Front(e.book) == [] && Synced([], e.positions, WithoutClosed(e).open) == [];
    }
  }

  lemma OneCycle(c: Cycle)
    ensures Ids([c]) == [c.uxid] && Ids([]) == []
    ensures forall action, quantity ::
              Closed([c], c.uxid, action, quantity) == if Ends(c, action, quantity) then [] else [Booked(c, action, quantity)]
  {
    assert Front([c]) == [];
  }

  /** An accepted intent, step by step. */
  lemma AcceptedIs(e: Engine, setup: Setup, intent: Intent, time: nat, close: real, s: Signal)
    requires intent.price.Some? && AskFactory(e, setup, intent, time) == Some(s)
    ensures Applied(e, setup, intent, time, close)
         == Settled(Filled(Asked(e, intent).(signals := e.signals + [s], book := Committed(e.book, intent.action, s)),
                           setup, s, intent, time, close))
  {
  }

  lemma OpenedIsFull(costs: CostModel, o: Order)
    ensures Opened(costs, o).remaining == o.quantity && !Opened(costs, o).tp1Filled
  {
  }

  lemma ClosesOne(costs: CostModel, p: Position)
    requires p.remaining == 2.0
    ensures AfterClose(costs, p, 0, 1.0, Flat, Some(1.0), None).remaining == 1.0
    ensures AfterClose(costs, p, 0, 1.0, Flat, Some(1.0), None).tp1Filled == p.tp1Filled
  {
  }

  ghost predicate HoldsA(e: Engine, remaining: real, book: seq<Cycle>) {
    && |e.positions| == 1 && e.positions[0].remaining == remaining && !e.positions[0].tp1Filled
    && e.open == map["A" := 0] && e.book == book && e.reused == []
  }

  lemma Reenters(e: Engine)
    requires HoldsA(e, 1.0, [])
    ensures Taken(e, Example(), Ask(GoLong, 1.0), 0, 1.0).reused == ["A"]
  {
    OneCycle(Cycle("A", 1.0, false));
    var s := Signal("A", 0, Some(1.0), Some(1.0), None, None, None, None, false);
    assert AskFactory(e, Example(), Ask(GoLong, 1.0), 0) == Some(s);
    hide Opened, Committed;
    SettlingKeepsCounts(Filled(Asked(e, Ask(GoLong, 1.0)).(signals := e.signals + [s], book := Committed(e.book, GoLong, s)),
                               Example(), s, Ask(GoLong, 1.0), 0, 1.0));
  }

  // ------------------------------------------------------------ one id, two spellings

  const UXID_LENGTH := 16

  function UpperChar(c: char): char {
    if 'a' <= c <= 'z' then (c as int - 32) as char else c
  }

  function Upper(id: string): (upper: string)
    ensures |upper| == |id| && forall i :: 0 <= i < |id| ==> upper[i] == UpperChar(id[i])
  {
    seq(|id|, i requires 0 <= i < |id| => UpperChar(id[i]))
  }

  /** The broker's rule for an id. */
  predicate IsUxid(id: string) {
    |id| == UXID_LENGTH && forall i :: 0 <= i < |id| ==> '0' <= id[i] <= '9' || 'A' <= id[i] <= 'Z'
  }

  /** A factory that looks an entry's id up as it was given, and publishes it in upper case. */
  function SpellingBuild(n: nat, intent: Intent, book: seq<Cycle>, moment: nat): Option<Signal> {
    if intent.uxid.None? || intent.quantity.None? || intent.price.None? || intent.quantity.value <= 0.0 then None
    else if intent.action.IsEntry() && intent.uxid.value in Ids(book) then None
    else if !IsUxid(Upper(intent.uxid.value)) then None
    else Some(Signal(Upper(intent.uxid.value), moment, intent.price, intent.quantity, None, None, None, None, false))
  }

  function Enter(id: string): Intent {
    Intent(GoLong, Some(1.0), Some(1.0), None, None, None, None, false, Some(id), "")
  }

  function Spelling(id: string, spelled: string): Setup {
    Setup(views => [Enter(id), Enter(spelled)], SpellingBuild, (t: nat) => false, CostModel(0.0, 0.0, 0.0, 1.0), 1.0, None, 1)
  }

  /** Nothing has been forgotten here: the cycle is open, and an entry that spells its id otherwise is
      accepted under it. The position already there is held no more, and never closed. */
  lemma AnotherSpellingLosesThePosition(id: string, spelled: string)
    requires IsUxid(id) && spelled != id && Upper(spelled) == id
    ensures Lawful(Spelling(id, spelled))
    ensures var e := StateAfter(Spelling(id, spelled), ONE_BAR, 0);
            e.reused == [id] && !HoldsExactlyOpen(e) && !AllClosed(MarkedOut(e, Spelling(id, spelled).costs, ONE_BAR[0]).positions)
  {
    SpellingReuses(id, spelled);
    var setup := Spelling(id, spelled);
    EveryBarKeepsStep(setup, ONE_BAR, 0);
    hide StateAfter;
    HoldsExactlyOpenIff(setup, ONE_BAR, 0);
    MarkOutClosesWhatIsHeld(StateAfter(setup, ONE_BAR, 0), setup.costs, ONE_BAR[0]);
  }

  /** There are such spellings. */
  lemma LowerCaseIsAnotherSpelling()
    ensures IsUxid("0123456789ABCDEF") && "0123456789abcdef" != "0123456789ABCDEF" && Upper("0123456789abcdef") == "0123456789ABCDEF"
  {
    assert "0123456789abcdef"[10] != "0123456789ABCDEF"[10];
  }

  lemma UpperOfUxid(id: string)
    requires IsUxid(id)
    ensures Upper(id) == id
  {
  }

  lemma SpellingReuses(id: string, spelled: string)
    requires IsUxid(id) && spelled != id && Upper(spelled) == id
    ensures StateAfter(Spelling(id, spelled), ONE_BAR, 0).reused == [id]
  {
    UpperOfUxid(id);
    hide IsUxid, Upper, Settled, Processed, Shown, Opened, Committed, Taken;
    var setup := Spelling(id, spelled);
    var e := Shown(Settled(Processed(IDLE, setup.costs, ONE_BAR[0])), setup, ONE_BAR, 0);
    NothingIsHeldAtFirst(e, setup);
    FirstSpelling(e, setup, id, spelled);
    var e1 := Taken(e, setup, Enter(id), 0, 1.0);
    SecondSpelling(e1, setup, id, spelled);
    TwoInTurn(e, setup, Enter(id), Enter(spelled), 0, 1.0);
  }

  lemma TwoInTurn(e: Engine, setup: Setup, a: Intent, b: Intent, time: nat, close: real)
    ensures TakenAll(e, setup, [a, b], time, close) == Taken(Taken(e, setup, a, time, close), setup, b, time, close)
  {
    hide Taken;
    assert Front([a, b]) == [a] && Front([a]) == [];
    assert TakenAll(e, setup, [a], time, close) == Taken(e, setup, a, time, close);
  }

  ghost predicate HoldsOnly(e: Engine, id: string) {
    id in e.open && e.reused == [] && Ids(e.book) == [id]
  }

  lemma FirstSpelling(e: Engine, setup: Setup, id: string, spelled: string)
    requires IsUxid(id) && Upper(id) == id && setup == Spelling(id, spelled)
    requires e.positions == [] && e.open == map[] && e.book == [] && e.reused == []
    ensures HoldsOnly(Taken(e, setup, Enter(id), 0, 1.0), id)
  {
    hide IsUxid, Upper;
    var s := Signal(id, 0, Some(1.0), Some(1.0), None, None, None, None, false);
    AcceptedIs(e, setup, Enter(id), 0, 1.0, s);
    OpenedIsFull(setup.costs, OrderOf(GoLong, s, 0, 1.0, 1.0));
    OneCycle(Cycle(id, 1.0, false));
    hide Opened;
    var booked := Asked(e, Enter(id)).(signals := e.signals + [s], book := [Cycle(id, 1.0, false)]);
    OneIsKept(Filled(booked, setup, s, Enter(id), 0, 1.0), id);
  }

  lemma OneIsKept(e: Engine, id: string)
    requires |e.positions| == 1 && e.open == map[id := 0] && e.positions[0].IsOpen() && |e.book| == 1 && e.book[0].uxid == id
    ensures id in Settled(e).open && Settled(e).reused == e.reused && Ids(Settled(e).book) == [id]
  {
    var f := WithoutClosed(e);
    assert f.open == map[id := 0];
    assert Front(e.book) == [] && Synced([], e.positions, f.open) == [];
    assert Settled(e).book == [Cycle(id, e.positions[0].remaining, e.positions[0].tp1Filled)];
    OneCycle(Settled(e).book[0]);
  }

  lemma SecondSpelling(e: Engine, setup: Setup, id: string, spelled: string)
    requires HoldsOnly(e, id) && IsUxid(id) && spelled != id && Upper(spelled) == id && setup == Spelling(id, spelled)
    ensures Taken(e, setup, Enter(spelled), 0, 1.0).reused == [id]
  {
    hide IsUxid, Upper, Opened, Committed;
    var s := Signal(id, 0, Some(1.0), Some(1.0), None, None, None, None, false);
    assert AskFactory(e, setup, Enter(spelled), 0) == Some(s);
    AcceptedIs(e, setup, Enter(spelled), 0, 1.0, s);
    var booked := Asked(e, Enter(spelled)).(signals := e.signals + [s], book := Committed(e.book, GoLong, s));
    SettlingKeepsCounts(Filled(booked, setup, s, Enter(spelled), 0, 1.0));
  }
}
