/** What one bar of a replay does, step by step and in plain terms: every position held is walked through it,
    the strategy is shown what has happened, each of its intents is blocked, refused or filled, and at the
    weekend what is left is flattened. Every bar of every run is such a bar. */
module ReplaySteps {
  import opened Prelude
  import opened Execution
  import opened ExecutionLaws
  import opened ExecutionFills
  import opened BacktestReplay
  import opened ReplayLaws

  // ------------------------------------------------------------ the two books after a fill

  /** Of these ids, those are held whose position has more than dust left. */
  ghost predicate KeepsTheOpen(held: map<string, nat>, f: Engine) {
    && (forall u :: u in f.open <==> u in held && held[u] < |f.positions| && f.positions[held[u]].remaining > 0.000000000001)
    && (forall u :: u in f.open ==> f.open[u] == held[u])
  }

  /** Of these cycles the factory keeps, in their order, those whose position is held and that are not gone,
      each with the size and the first-target flag the fills have left. */
  ghost predicate KeepsTheCycles(book: seq<Cycle>, gone: set<nat>, f: Engine, kept: seq<nat>) {
    && Picks(kept, |book|) && |f.book| == |kept|
    && (forall i :: 0 <= i < |kept| ==> IsCycleOf(f.book[i], book[kept[i]].uxid, f))
    && (forall j :: 0 <= j < |book| ==> (j in kept <==> book[j].uxid in f.open && j !in gone))
  }

  ghost predicate IsCycleOf(c: Cycle, uxid: string, f: Engine) {
    && c.uxid == uxid && uxid in f.open && f.open[uxid] < |f.positions|
    && c.remaining == f.positions[f.open[uxid]].remaining && c.tp1Filled == f.positions[f.open[uxid]].tp1Filled
  }

  lemma SettlingKeepsTheOpen(e: Engine)
    ensures KeepsTheOpen(e.open, Settled(e)) && Settled(e) == e.(open := Settled(e).open, book := Settled(e).book)
  {
    hide Synced;
  }

  lemma {:induction false} SyncingKeepsTheCycles(book: seq<Cycle>, f: Engine) returns (kept: seq<nat>)
    requires forall u :: u in f.open ==> f.open[u] < |f.positions| && f.positions[f.open[u]].IsOpen()
    ensures KeepsTheCycles(book, {}, f.(book := Synced(book, f.positions, f.open)), kept)
  {
    if book == [] {
      kept := [];
    } else {
      var before := SyncingKeepsTheCycles(Front(book), f);
      var c := Last(book);
      if c.uxid in f.open {
        kept := before + [|book| - 1];
        OneMoreCycle(book, f, before);
      } else {
        kept := before;
        OneCycleLess(book, f, before);
      }
    }
  }

  lemma OneMoreCycle(book: seq<Cycle>, f: Engine, before: seq<nat>)
    requires book != [] && Last(book).uxid in f.open
    requires forall u :: u in f.open ==> f.open[u] < |f.positions| && f.positions[f.open[u]].IsOpen()
    requires KeepsTheCycles(Front(book), {}, f.(book := Synced(Front(book), f.positions, f.open)), before)
    ensures KeepsTheCycles(book, {}, f.(book := Synced(book, f.positions, f.open)), before + [|book| - 1])
  {
    hide KeepsTheCycles;
    var earlier := Synced(Front(book), f.positions, f.open);
    var c := Last(book);
    var cycle := Cycle(c.uxid, f.positions[f.open[c.uxid]].remaining, f.positions[f.open[c.uxid]].tp1Filled);
    assert Synced(book, f.positions, f.open) == earlier + [cycle];
    hide Synced;
    AddedCycle(book, f, earlier, cycle, before);
  }

  lemma AddedCycle(book: seq<Cycle>, f: Engine, earlier: seq<Cycle>, cycle: Cycle, before: seq<nat>)
    requires book != [] && Last(book).uxid in f.open && IsCycleOf(cycle, Last(book).uxid, f)
    requires KeepsTheCycles(Front(book), {}, f.(book := earlier), before)
    ensures KeepsTheCycles(book, {}, f.(book := earlier + [cycle]), before + [|book| - 1])
  {
    hide IsCycleOf;
    var (kept, g, n) := (before + [|book| - 1], f.(book := earlier + [cycle]), |book| - 1);
    BookIsNoMatterToCycles(f, earlier, earlier + [cycle]);
    forall j | 0 <= j < |book| ensures j in kept <==> book[j].uxid in g.open {
      if j < n {
        assert Front(book)[j] == book[j];
      }
    }
  }

  lemma BookIsNoMatterToCycles(f: Engine, a: seq<Cycle>, b: seq<Cycle>)
    ensures forall c: Cycle, u: string :: IsCycleOf(c, u, f.(book := a)) <==> IsCycleOf(c, u, f.(book := b))
    ensures forall c: Cycle, u: string :: IsCycleOf(c, u, f) <==> IsCycleOf(c, u, f.(book := b))
  {
  }

  lemma OneCycleLess(book: seq<Cycle>, f: Engine, before: seq<nat>)
    requires book != [] && Last(book).uxid !in f.open
    requires KeepsTheCycles(Front(book), {}, f.(book := Synced(Front(book), f.positions, f.open)), before)
    ensures KeepsTheCycles(book, {}, f.(book := Synced(book, f.positions, f.open)), before)
  {
    hide KeepsTheCycles;
    assert Synced(book, f.positions, f.open) == Synced(Front(book), f.positions, f.open);
    ForgottenCycle(book, f.(book := Synced(book, f.positions, f.open)), before);
  }

  lemma ForgottenCycle(book: seq<Cycle>, g: Engine, before: seq<nat>)
    requires book != [] && Last(book).uxid !in g.open && KeepsTheCycles(Front(book), {}, g, before)
    ensures KeepsTheCycles(book, {}, g, before)
  {
    hide IsCycleOf;
    forall j | 0 <= j < |book| ensures j in before <==> book[j].uxid in g.open {
      if j < |book| - 1 {
        assert Front(book)[j] == book[j];
      }
    }
  }

  lemma SettlingKeepsTheCycles(e: Engine) returns (kept: seq<nat>)
    ensures KeepsTheCycles(e.book, {}, Settled(e), kept)
  {
    var f := WithoutClosed(e);
    hide Synced, KeepsTheCycles;
    kept := SyncingKeepsTheCycles(e.book, f);
  }

  // ------------------------------------------------------------ the bar itself

  /** Every position held is met by the bar, and no other. */
  ghost predicate Walked(costs: CostModel, e: Engine, f: Engine, bar: Bar, kept: seq<nat>) {
    && |f.positions| == |e.positions|
    && (forall i :: 0 <= i < |e.positions| ==>
          if i in e.open.Values then Meets(costs, e.positions[i], f.positions[i], bar.ohlc, bar.time)
          else f.positions[i] == e.positions[i])
    && KeepsTheOpen(e.open, f) && KeepsTheCycles(e.book, {}, f, kept)
    && f == e.(positions := f.positions, open := f.open, book := f.book)
  }

  lemma BarIsWalked(e: Engine, costs: CostModel, bar: Bar) returns (kept: seq<nat>)
    requires InStep(e)
    ensures Walked(costs, e, Settled(Processed(e, costs, bar)), bar, kept)
  {
    var p := Processed(e, costs, bar);
    SettlingKeepsTheOpen(p);
    kept := SettlingKeepsTheCycles(p);
    StepIsTidy(e);
    hide KeepsTheOpen, KeepsTheCycles, AfterBar, Meets, Settled, BookTracks;
    forall i | 0 <= i < |e.positions|
      ensures if i in e.open.Values then Meets(costs, e.positions[i], p.positions[i], bar.ohlc, bar.time)
              else p.positions[i] == e.positions[i]
    {
      if i in e.open.Values {
        HeldIsOpen(e, i);
        EveryBarIsMet(costs, e.positions[i], bar.ohlc, bar.time);
      }
    }
  }

  lemma HeldIsOpen(e: Engine, i: nat)
    requires Tidy(e) && i in e.open.Values
    ensures i < |e.positions| && e.positions[i].IsOpen()
  {
    var u :| u in e.open && e.open[u] == i;
    assert Held(e, u);
  }

  // ------------------------------------------------------------ what the strategy sees

  /** The newest bars up to the k-th, as many as the window holds. */
  ghost predicate AreTheLatest(window: seq<Bar>, frame: seq<Bar>, k: nat, size: Option<nat>)
    requires k < |frame|
  {
    && |window| == (if size.Some? && size.value < k + 1 then size.value else k + 1)
    && forall i :: 0 <= i < |window| ==> window[i] == frame[k + 1 - |window| + i]
  }

  /** One more view: the window, the bar's time, and the ids of the cycles in their order. */
  ghost predicate Looked(setup: Setup, e: Engine, f: Engine, frame: seq<Bar>, k: nat)
    requires k < |frame|
  {
    && f == e.(views := f.views) && |f.views| == |e.views| + 1 && f.views[..|e.views|] == e.views
    && Last(f.views).now == frame[k].time && AreTheLatest(Last(f.views).window, frame, k, setup.window)
    && |Last(f.views).openUxids| == |e.book|
    && forall i :: 0 <= i < |e.book| ==> Last(f.views).openUxids[i] == e.book[i].uxid
  }

  lemma {:induction false} IdsAre(book: seq<Cycle>)
    ensures |Ids(book)| == |book| && forall i :: 0 <= i < |book| ==> Ids(book)[i] == book[i].uxid
  {
    if book != [] {
      IdsAre(Front(book));
    }
  }

  lemma ShowingLooks(e: Engine, setup: Setup, frame: seq<Bar>, k: nat)
    requires k < |frame|
    ensures Looked(setup, e, Shown(e, setup, frame, k), frame, k)
  {
    IdsAre(e.book);
    hide Ids;
  }

  // ------------------------------------------------------------ one intent

  /** The price an intent without one is given. */
  ghost predicate IsPriced(intent: Intent, wanted: Intent, close: real) {
    intent == wanted.(price := intent.price) && intent.price == if wanted.price.Some? then wanted.price else Some(close)
  }

  /** A position fresh from an entry, on the side asked for, filled as published. */
  ghost predicate IsFilledEntry(setup: Setup, p: Position, action: Action, s: Signal, bar: Bar) {
    var price := if s.price.Some? then s.price.value else bar.ohlc.close;
    var half := setup.costs.spread / 2.0 + setup.costs.slippage;
    && (p.side.Long? <==> action.GoLong?) && p.openedAt == bar.time && p.uxid == s.uxid
    && p.quantity == (if s.quantity.Some? && s.quantity.value != 0.0 then s.quantity.value else setup.defaultQuantity)
    && p.entryPrice == (if action.GoLong? then price + half else price - half)
    && p.sl == p.initialSl == s.sl && p.tp1 == s.tp1 && p.tp2 == s.tp2 && p.tp1Percent == s.tp1Percent && p.moveSlToBe == s.moveSlToBe
    && p.remaining == p.quantity && p.legs == [] && !p.tp1Filled && p.barsHeld == 0
    && p.worstPrice == p.bestPrice == p.entryPrice && p.contractSize == setup.costs.contractSize
    && p.entryFees == (if p.quantity < 0.0 then -p.quantity else p.quantity) * setup.costs.contractSize * setup.costs.commissionPerUnit
  }

  /** The leg is marked with what the signal stood for. */
  ghost predicate IsReasonOf(reason: ExitReason, action: Action) {
    && (action.TakeTp1? ==> reason == Tp1) && (action.TakeTp2? ==> reason == Tp2) && (action.StopOut? ==> reason == Sl)
    && (action.RunnerStop? ==> reason == RSl) && (action.GoFlat? ==> reason == Flat)
  }

  /** A close as published; a strategy's own first target also counts as taken, and may move the stop. */
  ghost predicate SoldAsPublished(setup: Setup, p: Position, sold: Position, q: Position, intent: Intent, reason: ExitReason, s: Signal, bar: Bar) {
    && IsReasonOf(reason, intent.action)
    && CloseTaken(setup.costs, p, sold, bar.time, if s.price.Some? then s.price.value else bar.ohlc.close, reason, s.quantity,
                  if intent.reason == "" then None else Some(intent.reason))
    && q == if intent.action.TakeTp1?
            then sold.(tp1Filled := true, sl := if sold.moveSlToBe && sold.remaining > DUST then Some(sold.entryPrice) else sold.sl)
            else sold
  }

  /** A close ends its cycle: a final one whatever it names, any other when next to nothing would be left. */
  predicate EndsIt(c: Cycle, action: Action, quantity: Option<real>) {
    || action.TakeTp2? || action.StopOut? || action.RunnerStop? || action.GoFlat?
    || c.remaining - (if quantity.None? then 0.0 else if quantity.value < 0.0 then -quantity.value else quantity.value) <= 0.000000001
  }

  /** Which of the cycles that is. */
  function EndedBy(book: seq<Cycle>, uxid: string, action: Action, quantity: Option<real>): set<nat> {
    set j: nat | j < |book| && book[j].uxid == uxid && EndsIt(book[j], action, quantity)
  }

  /** Where an intent leaves the engine, and which cycles it keeps. */
  datatype Trail = Trail(kept: seq<nat>, sold: Position, reason: ExitReason)

  ghost predicate IsRemembered(book: seq<Cycle>, uxid: string) {
    exists i :: 0 <= i < |book| && book[i].uxid == uxid
  }

  /** An accepted entry: one more position, held under the published id, whatever was held there. */
  ghost predicate Enters(setup: Setup, bar: Bar, e: Engine, action: Action, s: Signal, f: Engine, trail: Trail) {
    && |f.positions| == |e.positions| + 1 && f.positions[..|e.positions|] == e.positions
    && IsFilledEntry(setup, Last(f.positions), action, s, bar)
    && KeepsTheOpen(e.open[s.uxid := |e.positions|], f)
    && KeepsTheCycles(if IsRemembered(e.book, s.uxid) then e.book else e.book + [Cycle(s.uxid, 0.0, false)], {}, f, trail.kept)
    && f == e.(positions := f.positions, open := f.open, book := f.book, signals := e.signals + [s],
               builds := e.builds + 1, entries := e.entries + 1,
               reused := if s.uxid in e.open then e.reused + [s.uxid] else e.reused,
               displaced := if s.uxid in e.open then e.displaced + {e.open[s.uxid]} else e.displaced)
  }

  /** An accepted close: the position held under the published id is sold, and no other. */
  ghost predicate Leaves(setup: Setup, bar: Bar, e: Engine, intent: Intent, s: Signal, f: Engine, trail: Trail) {
    && |f.positions| == |e.positions|
    && (if s.uxid in e.open && e.open[s.uxid] < |e.positions| && e.positions[e.open[s.uxid]].remaining > DUST
        then f.positions == e.positions[e.open[s.uxid] := f.positions[e.open[s.uxid]]]
             && SoldAsPublished(setup, e.positions[e.open[s.uxid]], trail.sold, f.positions[e.open[s.uxid]], intent, trail.reason, s, bar)
        else f.positions == e.positions)
    && KeepsTheOpen(e.open, f)
    && KeepsTheCycles(e.book, EndedBy(e.book, s.uxid, intent.action, s.quantity), f, trail.kept)
    && f == e.(positions := f.positions, open := f.open, book := f.book, signals := e.signals + [s], builds := e.builds + 1)
  }

  /** One intent: an entry while the market is shut is blocked; any other is put to the factory, which is told
      how often it was asked before, the cycles it holds and the moment, and refuses or publishes it. */
  ghost predicate Does(setup: Setup, bar: Bar, e: Engine, wanted: Intent, intent: Intent, f: Engine, trail: Trail) {
    var entry := wanted.action.GoLong? || wanted.action.GoShort?;
    && IsPriced(intent, wanted, bar.ohlc.close)
    && if entry && setup.isShut(bar.time) then f == e.(blocked := e.blocked + 1, entries := e.entries + 1)
       else
         match setup.build(e.builds, intent, e.book, bar.time)
         case None =>
           f == (if entry then e.(builds := e.builds + 1, entries := e.entries + 1, rejected := e.rejected + 1)
                 else e.(builds := e.builds + 1, rejectedCloses := e.rejectedCloses + 1))
         case Some(s) =>
           if entry then Enters(setup, bar, e, wanted.action, s, f, trail) else Leaves(setup, bar, e, intent, s, f, trail)
  }

  lemma PricingPrices(wanted: Intent, close: real)
    ensures IsPriced(Priced(wanted, close), wanted, close)
  {
  }

  lemma EntryIsFilled(setup: Setup, action: Action, s: Signal, bar: Bar)
    requires action.IsEntry()
    ensures IsFilledEntry(setup, Opened(setup.costs, OrderOf(action, s, bar.time, bar.ohlc.close, setup.defaultQuantity)), action, s, bar)
  {
  }

  lemma EntryIsRemembered(book: seq<Cycle>, uxid: string)
    ensures uxid in Ids(book) <==> IsRemembered(book, uxid)
  {
    IdsAre(book);
    hide Ids;
  }

  lemma CyclesOnlyByName(a: seq<Cycle>, b: seq<Cycle>, f: Engine, kept: seq<nat>)
    requires |a| == |b| && (forall i :: 0 <= i < |a| ==> a[i].uxid == b[i].uxid) && KeepsTheCycles(a, {}, f, kept)
    ensures KeepsTheCycles(b, {}, f, kept)
  {
    hide IsCycleOf;
  }

  lemma EnteringEnters(setup: Setup, bar: Bar, e: Engine, intent: Intent, s: Signal) returns (trail: Trail)
    requires intent.action.IsEntry()
    ensures var booked := Asked(e, intent).(signals := e.signals + [s], book := Committed(e.book, intent.action, s));
            Enters(setup, bar, e, intent.action, s, Settled(Filled(booked, setup, s, intent, bar.time, bar.ohlc.close)), trail)
  {
    hide IsFilledEntry, KeepsTheOpen, KeepsTheCycles, Settled, Opened, Ids, IsRemembered, Committed, OrderOf;
    var booked := Asked(e, intent).(signals := e.signals + [s], book := Committed(e.book, intent.action, s));
    var g := Filled(booked, setup, s, intent, bar.time, bar.ohlc.close);
    EntryIsFilled(setup, intent.action, s, bar);
    SettlingKeepsTheOpen(g);
    var kept := SettlingKeepsTheCycles(g);
    RememberedWith(e.book, intent.action, s, Settled(g), kept);
    trail := Trail(kept, Last(g.positions), Flat);
  }

  /** The book an entry is remembered in, by name. */
  lemma RememberedWith(book: seq<Cycle>, action: Action, s: Signal, f: Engine, kept: seq<nat>)
    requires action.IsEntry() && KeepsTheCycles(Committed(book, action, s), {}, f, kept)
    ensures KeepsTheCycles(if IsRemembered(book, s.uxid) then book else book + [Cycle(s.uxid, 0.0, false)], {}, f, kept)
  {
    hide KeepsTheCycles, Ids, IsRemembered;
    EntryIsRemembered(book, s.uxid);
    if !IsRemembered(book, s.uxid) {
      CyclesOnlyByName(Committed(book, action, s), book + [Cycle(s.uxid, 0.0, false)], f, kept);
    }
  }

  lemma ExitIsPublished(setup: Setup, p: Position, intent: Intent, s: Signal, bar: Bar) returns (sold: Position)
    requires p.IsOpen() && !intent.action.IsEntry()
    ensures SoldAsPublished(setup, p, sold, Exited(p, setup, s, intent, bar.time, bar.ohlc.close), intent, ReasonOf(intent.action), s, bar)
  {
    var price := if s.price.Some? then s.price.value else bar.ohlc.close;
    var note := if intent.reason == "" then None else Some(intent.reason);
    ACloseSellsWhatItNames(setup.costs, p, bar.time, price, ReasonOf(intent.action), s.quantity, note);
    sold := AfterClose(setup.costs, p, bar.time, price, ReasonOf(intent.action), s.quantity, note);
    hide AfterClose, CloseTaken;
  }

  /** Booking a close off takes the cycles it ends out of the book and leaves the others in their order. */
  lemma {:induction false} ClosingPicks(book: seq<Cycle>, uxid: string, action: Action, quantity: Option<real>) returns (left: seq<nat>)
    requires !action.IsEntry()
    ensures var after := Closed(book, uxid, action, quantity);
            && Picks(left, |book|) && |left| == |after|
            && (forall i :: 0 <= i < |left| ==> after[i].uxid == book[left[i]].uxid)
            && (forall j :: 0 <= j < |book| ==> (j in left <==> !(book[j].uxid == uxid && EndsIt(book[j], action, quantity))))
  {
    hide Ends, Booked, EndsIt;
    left := [];
    if book != [] {
      var before := ClosingPicks(Front(book), uxid, action, quantity);
      var c := Last(book);
      EndingEnds(c, action, quantity);
      BookedKeepsItsId(c, action, quantity);
      var n := |book| - 1;
      left := before + if c.uxid == uxid && EndsIt(c, action, quantity) then [] else [n];
      forall j | 0 <= j < |book| ensures j in left <==> !(book[j].uxid == uxid && EndsIt(book[j], action, quantity)) {
        if j < n {
          assert Front(book)[j] == book[j];
          assert j in left <==> j in before;
        } else {
          assert n !in before;
        }
      }
    }
  }

  lemma EndingEnds(c: Cycle, action: Action, quantity: Option<real>)
    requires !action.IsEntry()
    ensures Ends(c, action, quantity) <==> EndsIt(c, action, quantity)
  {
  }

  lemma BookedKeepsItsId(c: Cycle, action: Action, quantity: Option<real>)
    ensures Booked(c, action, quantity).uxid == c.uxid
  {
  }

  /** Keeping some of what was left of a book is keeping some of the book. */
  lemma PicksOfPicks(book: seq<Cycle>, after: seq<Cycle>, gone: set<nat>, left: seq<nat>, f: Engine, kept: seq<nat>) returns (all: seq<nat>)
    requires Picks(left, |book|) && |left| == |after| && (forall i :: 0 <= i < |left| ==> after[i].uxid == book[left[i]].uxid)
    requires forall j :: 0 <= j < |book| ==> (j in left <==> j !in gone)
    requires KeepsTheCycles(after, {}, f, kept)
    ensures KeepsTheCycles(book, gone, f, all)
  {
    hide IsCycleOf;
    all := seq(|kept|, i requires 0 <= i < |kept| => left[kept[i]]);
    forall j | 0 <= j < |book| ensures j in all <==> book[j].uxid in f.open && j !in gone {
      PickedTwice(left, kept, all, j);
      if j in left {
        var m :| 0 <= m < |left| && left[m] == j;
        assert after[m].uxid == book[j].uxid;
      }
    }
  }

  /** What is picked of what was picked. */
  lemma PickedTwice(left: seq<nat>, kept: seq<nat>, all: seq<nat>, j: nat)
    requires |all| == |kept| && forall i :: 0 <= i < |kept| ==> kept[i] < |left| && all[i] == left[kept[i]]
    requires Picks(left, if left == [] then 0 else Last(left) + 1)
    ensures j in all <==> exists m :: 0 <= m < |left| && left[m] == j && m in kept
  {
    if j in all {
      var i :| 0 <= i < |all| && all[i] == j;
      assert left[kept[i]] == j && kept[i] in kept;
    }
    if m :| 0 <= m < |left| && left[m] == j && m in kept {
      var i :| 0 <= i < |kept| && kept[i] == m;
      assert all[i] == j;
    }
  }

  lemma LeavingLeaves(setup: Setup, bar: Bar, e: Engine, intent: Intent, s: Signal) returns (trail: Trail)
    requires !intent.action.IsEntry()
    ensures var booked := Asked(e, intent).(signals := e.signals + [s], book := Committed(e.book, intent.action, s));
            Leaves(setup, bar, e, intent, s, Settled(Filled(booked, setup, s, intent, bar.time, bar.ohlc.close)), trail)
  {
    var booked := Asked(e, intent).(signals := e.signals + [s], book := Committed(e.book, intent.action, s));
    var g := Filled(booked, setup, s, intent, bar.time, bar.ohlc.close);
    hide Closed, KeepsTheOpen, KeepsTheCycles, Settled, Exited, SoldAsPublished, EndsIt;
    var u := s.uxid;
    var sold := if e.positions == [] then Opened(setup.costs, OrderOf(GoLong, s, 0, 0.0, 0.0)) else e.positions[0];
    if Held(e, u) && e.positions[e.open[u]].IsOpen() {
      sold := ExitIsPublished(setup, e.positions[e.open[u]], intent, s, bar);
    }
    SettlingKeepsTheOpen(g);
    var kept := SettlingKeepsTheCycles(g);
    var left := ClosingPicks(e.book, u, intent.action, s.quantity);
    var gone := EndedBy(e.book, u, intent.action, s.quantity);
    var all := PicksOfPicks(e.book, g.book, gone, left, Settled(g), kept);
    trail := Trail(all, sold, ReasonOf(intent.action));
  }

  lemma TakingDoes(setup: Setup, bar: Bar, e: Engine, wanted: Intent) returns (trail: Trail)
    ensures Does(setup, bar, e, wanted, Priced(wanted, bar.ohlc.close), Taken(e, setup, wanted, bar.time, bar.ohlc.close), trail)
  {
    hide Enters, Leaves, Settled, Filled, Committed, IsPriced;
    var intent := Priced(wanted, bar.ohlc.close);
    PricingPrices(wanted, bar.ohlc.close);
    assert intent.action == wanted.action;
    var answer := setup.build(e.builds, intent, e.book, bar.time);
    trail := Trail([], Opened(setup.costs, Order(Long, 0, 0.0, 0.0, None, None, None, None, false, "")), Flat);
    if answer.Some? && wanted.action.IsEntry() {
      trail := EnteringEnters(setup, bar, e, intent, answer.value);
    } else if answer.Some? {
      trail := LeavingLeaves(setup, bar, e, intent, answer.value);
    }
  }

  // ------------------------------------------------------------ a whole bar

  /** One after another, from the first state to the last. */
  ghost predicate DoneInTurn(setup: Setup, bar: Bar, intents: seq<Intent>, states: seq<Engine>) {
    && |states| == |intents| + 1
    && forall j :: 0 <= j < |intents| ==> DoesSomehow(setup, bar, states[j], intents[j], states[j + 1])
  }

  ghost predicate DoesSomehow(setup: Setup, bar: Bar, e: Engine, wanted: Intent, f: Engine) {
    exists intent, trail :: Does(setup, bar, e, wanted, intent, f, trail)
  }

  /** One FLAT at the close for each cycle, by name. */
  ghost predicate AreTheFlats(flats: seq<Intent>, book: seq<Cycle>, close: real) {
    && |flats| == |book|
    && forall i :: 0 <= i < |flats| ==>
         flats[i] == Intent(GoFlat, Some(close), None, None, None, None, None, false, Some(book[i].uxid), "WEEKEND_FLAT")
  }

  lemma {:induction false} TakingInTurn(setup: Setup, bar: Bar, e: Engine, intents: seq<Intent>) returns (states: seq<Engine>)
    ensures states != [] && DoneInTurn(setup, bar, intents, states) && states[0] == e
    ensures Last(states) == TakenAll(e, setup, intents, bar.time, bar.ohlc.close)
  {
    hide Does, Taken;
    if intents == [] {
      states := [e];
    } else {
      var before := TakingInTurn(setup, bar, e, Front(intents));
      var f := Taken(Last(before), setup, Last(intents), bar.time, bar.ohlc.close);
      var trail := TakingDoes(setup, bar, Last(before), Last(intents));
      states := before + [f];
    }
  }

  function FlatIntents(ids: seq<string>, close: real): (flats: seq<Intent>)
    ensures |flats| == |ids| && forall i :: 0 <= i < |ids| ==> flats[i] == FlatIntent(ids[i], close)
  {
    seq(|ids|, i requires 0 <= i < |ids| => FlatIntent(ids[i], close))
  }

  lemma {:induction false} FlatteningIsTaking(e: Engine, setup: Setup, ids: seq<string>, time: nat, close: real)
    ensures Flattened(e, setup, ids, time, close) == TakenAll(e, setup, FlatIntents(ids, close), time, close)
  {
    hide Applied;
    if ids != [] {
      FlatteningIsTaking(e, setup, Front(ids), time, close);
      assert Front(FlatIntents(ids, close)) == FlatIntents(Front(ids), close);
    }
  }

  lemma FlatsAre(book: seq<Cycle>, close: real)
    ensures AreTheFlats(FlatIntents(Ids(book), close), book, close)
  {
    IdsAre(book);
  }

  /** What happened on a bar. */
  datatype Account = Account(kept: seq<nat>, walked: Engine, shown: Engine, states: seq<Engine>, flats: seq<Intent>, flattening: seq<Engine>)

  /** The whole of one bar: the positions held first, then the view, then the strategy's intents in their order,
      then, while the market is shut, a FLAT for every cycle left. */
  ghost predicate BarDone(setup: Setup, frame: seq<Bar>, k: nat, e: Engine, f: Engine, a: Account)
    requires k < |frame|
  {
    var bar := frame[k];
    && Walked(setup.costs, e, a.walked, bar, a.kept) && Looked(setup, a.walked, a.shown, frame, k)
    && DoneInTurn(setup, bar, setup.strategy(a.shown.views), a.states) && a.states[0] == a.shown
    && if setup.isShut(bar.time)
       then AreTheFlats(a.flats, Last(a.states).book, bar.ohlc.close) && DoneInTurn(setup, bar, a.flats, a.flattening)
            && a.flattening[0] == Last(a.states) && f == Last(a.flattening)
       else f == Last(a.states)
  }

  ghost predicate BarIsSomehowDone(setup: Setup, frame: seq<Bar>, k: nat, e: Engine, f: Engine)
    requires k < |frame|
  {
    exists a: Account :: BarDone(setup, frame, k, e, f, a)
  }

  lemma BarIsDone(setup: Setup, frame: seq<Bar>, k: nat, e: Engine) returns (a: Account)
    requires k < |frame| && InStep(e)
    ensures BarDone(setup, frame, k, e, AfterBarAt(e, setup, frame, k), a)
  {
    hide Walked, Looked, DoneInTurn, AreTheFlats, Settled, Processed, Shown, TakenAll, Flattened, InStep;
    var bar := frame[k];
    var kept := BarIsWalked(e, setup.costs, bar);
    var walked := Settled(Processed(e, setup.costs, bar));
    ShowingLooks(walked, setup, frame, k);
    var shown := Shown(walked, setup, frame, k);
    var states := TakingInTurn(setup, bar, shown, setup.strategy(shown.views));
    var acted := Last(states);
    var flats := FlatIntents(Ids(acted.book), bar.ohlc.close);
    FlatsAre(acted.book, bar.ohlc.close);
    FlatteningIsTaking(acted, setup, Ids(acted.book), bar.time, bar.ohlc.close);
    var flattening := TakingInTurn(setup, bar, acted, flats);
    a := Account(kept, walked, shown, states, flats, flattening);
  }

  /** Every bar of every run is done so, from the state the bar before it left; before the warm-up is over
      nothing happens at all. */
  lemma EveryBarIsDone(setup: Setup, frame: seq<Bar>, k: nat)
    requires setup.warmup >= 1 && k < |frame|
    ensures k + 1 < setup.warmup ==> StateAfter(setup, frame, k) == IDLE
    ensures k + 1 >= setup.warmup ==>
              BarIsSomehowDone(setup, frame, k, if k == 0 then IDLE else StateAfter(setup, frame, k - 1), StateAfter(setup, frame, k))
  {
    hide AfterBarAt, BarDone, InStep;
    if k + 1 >= setup.warmup {
      var e := if k == 0 then IDLE else StateAfter(setup, frame, k - 1);
      IdleIsInStep();
      if k > 0 {
        EveryBarKeepsStep(setup, frame, k - 1);
      }
      var a := BarIsDone(setup, frame, k, e);
    }
  }

  /** And a run ends with the last of them: what is still held is sold at the last close, whole and marked so;
      there is no run without history, nor with less of it than the warm-up. */
  lemma TheRunEndsMarkedOut(setup: Setup, frame: seq<Bar>, i: nat)
    requires setup.warmup >= 1
    ensures RunOver(setup, frame).Failure? <==> |frame| < setup.warmup
    ensures RunOver(setup, frame).Failure? ==> (RunOver(setup, frame).error == NoHistory <==> frame == [])
    ensures RunOver(setup, frame).Success? ==>
              var (n, f) := (|frame| - 1, RunOver(setup, frame).value);
              var e := StateAfter(setup, frame, n);
              && |f.positions| == |e.positions| && f == e.(positions := f.positions)
              && (i < |e.positions| ==>
                    if i in e.open.Values
                    then CloseTaken(setup.costs, e.positions[i], f.positions[i], frame[n].time, frame[n].ohlc.close, EndOfData, None, None)
                    else f.positions[i] == e.positions[i])
  {
    hide StateAfter, AfterClose, CloseTaken, InStep, BookTracks;
    if |frame| >= setup.warmup {
      var e := StateAfter(setup, frame, |frame| - 1);
      EveryBarKeepsStep(setup, frame, |frame| - 1);
      StepIsTidy(e);
      if i in e.open.Values {
        HeldIsOpen(e, i);
        ACloseSellsWhatItNames(setup.costs, e.positions[i], Last(frame).time, Last(frame).ohlc.close, EndOfData, None, None);
      }
    }
  }
}
