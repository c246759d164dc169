/** One strategy driven over one symbol's history (src/qte_backtest/replay.py).

    The strategy is any function of everything it has been shown. The signal factory's own decisions
    (sizing, brackets, refusals) are any function too, held only to what its source promises; the
    cycles it remembers (src/qte_shared/strategies/signal_factory.py, src/qte_shared/models.py) are
    modelled in full. */
module BacktestReplay {
  import opened Prelude
  import opened Execution
  import opened ExecutionLaws
  import opened Metrics

  datatype Bar = Bar(time: nat, ohlc: Ohlc)

  datatype Action = GoLong | GoShort | TakeTp1 | TakeTp2 | StopOut | RunnerStop | GoFlat
  {
    predicate IsEntry() { GoLong? || GoShort? }

    /** Ends a cycle whatever size it names. */
    predicate IsTerminal() { TakeTp2? || StopOut? || RunnerStop? || GoFlat? }
  }

  datatype Intent = Intent(
    action: Action, price: Option<real>, quantity: Option<real>, sl: Option<real>, tp1: Option<real>, tp2: Option<real>,
    tp1Percent: Option<real>, moveSlToBe: bool, uxid: Option<string>, reason: string)

  /** What was published: the intent as the factory sized and completed it. */
  datatype Signal = Signal(
    uxid: string, moment: nat, price: Option<real>, quantity: Option<real>, sl: Option<real>, tp1: Option<real>,
    tp2: Option<real>, tp1Percent: Option<real>, moveSlToBe: bool)

  /** One cycle the factory believes is open. */
  datatype Cycle = Cycle(uxid: string, remaining: real, tp1Filled: bool)

  const QUANTITY_EPSILON: real := 0.000000001

  /** What the strategy is shown at a close. */
  datatype View = View(window: seq<Bar>, now: nat, openUxids: seq<string>)

  datatype Setup = Setup(
    strategy: seq<View> -> seq<Intent>,
    build: (nat, Intent, seq<Cycle>, nat) -> Option<Signal>,   // the call's number, intent, cycles, moment
    isShut: nat -> bool,
    costs: CostModel, defaultQuantity: real, window: Option<nat>, warmup: nat)

  datatype Engine = Engine(
    positions: seq<Position>,
    open: map<string, nat>,        // cycle id to its position
    book: seq<Cycle>,              // the factory's cycles, oldest first
    signals: seq<Signal>,
    rejected: nat, rejectedCloses: nat, blocked: nat,
    builds: nat,                   // how often the factory was asked
    views: seq<View>,              // everything the strategy has seen
    entries: nat,                  // how many entry intents it has emitted
    reused: seq<string>,           // ids accepted for an entry while a position was still held under them
    displaced: set<nat>)           // the positions that were held there

  const IDLE := Engine([], map[], [], [], 0, 0, 0, 0, [], 0, [], {})

  // ------------------------------------------------------------ the factory's book

  function Ids(book: seq<Cycle>): seq<string> {
    if book == [] then [] else Ids(Front(book)) + [Last(book).uxid]
  }

  /** An accepted entry is priced and sized, and its bracket has passed the check. Nothing is asked of its
      id: the factory compares the id as it was given, and publishes it in upper case. */
  ghost predicate Lawful(setup: Setup) {
    forall n, intent: Intent, book, moment :: setup.build(n, intent, book, moment).Some? && intent.action.IsEntry() ==>
      AcceptableEntry(setup.build(n, intent, book, moment).value, intent.action)
  }

  predicate AcceptableEntry(s: Signal, action: Action) {
    && s.price.Some? && s.quantity.Some?
    && IsChecked(OrderOf(action, s, s.moment, s.price.value, s.quantity.value))
  }

  function Booked(c: Cycle, action: Action, quantity: Option<real>): Cycle {
    Cycle(c.uxid,
          if quantity.Some? then Max(0.0, c.remaining - Abs(quantity.value)) else c.remaining,
          c.tp1Filled || action.TakeTp1?)
  }

  /** Whether a close ends the cycle it is booked against. */
  predicate Ends(c: Cycle, action: Action, quantity: Option<real>) {
    action.IsTerminal() || Booked(c, action, quantity).remaining <= QUANTITY_EPSILON
  }

  function Closed(book: seq<Cycle>, uxid: string, action: Action, quantity: Option<real>): seq<Cycle> {
    if book == [] then []
    else
      var c := Last(book);
      Closed(Front(book), uxid, action, quantity)
      + if c.uxid != uxid then [c] else if Ends(c, action, quantity) then [] else [Booked(c, action, quantity)]
  }

  /** The cycle transition a signal stands for. */
  function Committed(book: seq<Cycle>, action: Action, s: Signal): seq<Cycle> {
    if action.IsEntry() then
      if s.uxid in Ids(book) then book
      else book + [Cycle(s.uxid, if s.quantity.Some? then s.quantity.value else 0.0, false)]
    else Closed(book, s.uxid, action, s.quantity)
  }

  // ------------------------------------------------------------ the engine

  predicate Held(e: Engine, uxid: string) {
    uxid in e.open && e.open[uxid] < |e.positions|
  }

  /** Every held position through one bar. */
  function Processed(e: Engine, costs: CostModel, bar: Bar): Engine {
    e.(positions := seq(|e.positions|, i requires 0 <= i < |e.positions| =>
         if i in e.open.Values then AfterBar(costs, e.positions[i], bar.ohlc, bar.time) else e.positions[i]))
  }

  function WithoutClosed(e: Engine): Engine {
    e.(open := map u | u in e.open && Held(e, u) && e.positions[e.open[u]].IsOpen() :: e.open[u])
  }

  predicate IsHeldOpen(positions: seq<Position>, open: map<string, nat>, uxid: string) {
    uxid in open && open[uxid] < |positions| && positions[open[uxid]].IsOpen()
  }

  /** Tell the factory what the fills actually did. */
  function Synced(book: seq<Cycle>, positions: seq<Position>, open: map<string, nat>): seq<Cycle> {
    if book == [] then []
    else
      var c := Last(book);
      Synced(Front(book), positions, open)
      + if IsHeldOpen(positions, open, c.uxid)
        then [Cycle(c.uxid, positions[open[c.uxid]].remaining, positions[open[c.uxid]].tp1Filled)] else []
  }

  function Settled(e: Engine): Engine {
    var f := WithoutClosed(e);
    f.(book := Synced(f.book, f.positions, f.open))
  }

  function OrderOf(action: Action, s: Signal, time: nat, close: real, defaultQuantity: real): Order {
    Order(if action.GoLong? then Long else Short, time,
          if s.price.Some? then s.price.value else close,
          if s.quantity.Some? && s.quantity.value != 0.0 then s.quantity.value else defaultQuantity,
          s.sl, s.tp1, s.tp2, s.tp1Percent, s.moveSlToBe, s.uxid)
  }

  function Entered(e: Engine, setup: Setup, s: Signal, action: Action, time: nat, close: real): Engine {
    e.(positions := e.positions + [Opened(setup.costs, OrderOf(action, s, time, close, setup.defaultQuantity))],
       open := e.open[s.uxid := |e.positions|],
       reused := if s.uxid in e.open then e.reused + [s.uxid] else e.reused,
       displaced := if s.uxid in e.open then e.displaced + {e.open[s.uxid]} else e.displaced)
  }

  function ReasonOf(action: Action): ExitReason {
    match action
    case TakeTp1 => Tp1
    case TakeTp2 => Tp2
    case StopOut => Sl
    case RunnerStop => RSl
    case _ => Flat
  }

  function Exited(p: Position, setup: Setup, s: Signal, intent: Intent, time: nat, close: real): Position {
    var q := AfterClose(setup.costs, p, time, if s.price.Some? then s.price.value else close, ReasonOf(intent.action),
                        s.quantity, if intent.reason == "" then None else Some(intent.reason));
    if intent.action.TakeTp1? then Marked(q) else q
  }

  /** What an accepted signal does to the simulated positions. */
  function Filled(e: Engine, setup: Setup, s: Signal, intent: Intent, time: nat, close: real): Engine {
    if intent.action.IsEntry() then Entered(e, setup, s, intent.action, time, close)
    else if Held(e, s.uxid) && e.positions[e.open[s.uxid]].IsOpen() then
      e.(positions := e.positions[e.open[s.uxid] := Exited(e.positions[e.open[s.uxid]], setup, s, intent, time, close)])
    else e
  }

  function Priced(intent: Intent, close: real): Intent {
    if intent.price.None? then intent.(price := Some(close)) else intent
  }

  function AskFactory(e: Engine, setup: Setup, intent: Intent, time: nat): Option<Signal> {
    setup.build(e.builds, intent, e.book, time)
  }

  function Asked(e: Engine, intent: Intent): Engine {
    e.(builds := e.builds + 1, entries := e.entries + if intent.action.IsEntry() then 1 else 0)
  }

  function Refused(e: Engine, intent: Intent): Engine {
    if intent.action.IsEntry() then e.(rejected := e.rejected + 1) else e.(rejectedCloses := e.rejectedCloses + 1)
  }

  /** An intent the calendar lets through. */
  function Applied(e: Engine, setup: Setup, proposed: Intent, time: nat, close: real): Engine {
    var intent := Priced(proposed, close);
    match AskFactory(e, setup, intent, time)
    case None => Refused(Asked(e, intent), intent)
    case Some(s) =>
      var booked := Asked(e, intent).(signals := e.signals + [s], book := Committed(e.book, intent.action, s));
      Settled(Filled(booked, setup, s, intent, time, close))
  }

  function Taken(e: Engine, setup: Setup, intent: Intent, time: nat, close: real): Engine {
    if setup.isShut(time) && intent.action.IsEntry() then e.(blocked := e.blocked + 1, entries := e.entries + 1)
    else Applied(e, setup, intent, time, close)
  }

  function TakenAll(e: Engine, setup: Setup, intents: seq<Intent>, time: nat, close: real): Engine {
    if intents == [] then e else Taken(TakenAll(e, setup, Front(intents), time, close), setup, Last(intents), time, close)
  }

  function FlatIntent(uxid: string, close: real): Intent {
    Intent(GoFlat, Some(close), None, None, None, None, None, false, Some(uxid), "WEEKEND_FLAT")
  }

  /** One FLAT for every cycle the factory held when the market shut. */
  function Flattened(e: Engine, setup: Setup, ids: seq<string>, time: nat, close: real): Engine {
    if ids == [] then e
    else Applied(Flattened(e, setup, Front(ids), time, close), setup, FlatIntent(Last(ids), close), time, close)
  }

  /** The bars the strategy may look at. */
  function WindowAt(frame: seq<Bar>, k: nat, window: Option<nat>): seq<Bar>
    requires k < |frame|
  {
    var start := if window.None? || k + 1 < window.value then 0 else k + 1 - window.value;
    frame[start..k + 1]
  }

  function Shown(e: Engine, setup: Setup, frame: seq<Bar>, k: nat): Engine
    requires k < |frame|
  {
    e.(views := e.views + [View(WindowAt(frame, k, setup.window), frame[k].time, Ids(e.book))])
  }

  /** One bar of the loop in run. */
  function AfterBarAt(e: Engine, setup: Setup, frame: seq<Bar>, k: nat): Engine
    requires k < |frame|
  {
    var bar := frame[k];
    var shown := Shown(Settled(Processed(e, setup.costs, bar)), setup, frame, k);
    var acted := TakenAll(shown, setup, setup.strategy(shown.views), bar.time, bar.ohlc.close);
    if setup.isShut(bar.time) then Flattened(acted, setup, Ids(acted.book), bar.time, bar.ohlc.close) else acted
  }

  /** The engine once bars up to and including the k-th have been replayed. */
  function StateAfter(setup: Setup, frame: seq<Bar>, k: nat): Engine
    requires setup.warmup >= 1 && k < |frame|
  {
    if k + 1 < setup.warmup then IDLE
    else AfterBarAt(if k == 0 then IDLE else StateAfter(setup, frame, k - 1), setup, frame, k)
  }

  /** Whatever is still held is marked out at the last close. */
  function MarkedOut(e: Engine, costs: CostModel, bar: Bar): Engine {
    e.(positions := seq(|e.positions|, i requires 0 <= i < |e.positions| =>
         if i in e.open.Values then AfterClose(costs, e.positions[i], bar.time, bar.ohlc.close, EndOfData, None, None)
         else e.positions[i]))
  }

  datatype RunError = NoHistory | NotEnoughBars

  /** The report's trades come from the positions of this engine. */
  function RunOver(setup: Setup, frame: seq<Bar>): Result<Engine, RunError>
    requires setup.warmup >= 1
  {
    if frame == [] then Failure(NoHistory)
    else if |frame| < setup.warmup then Failure(NotEnoughBars)
    else Success(MarkedOut(StateAfter(setup, frame, |frame| - 1), setup.costs, Last(frame)))
  }

  // ------------------------------------------------------------ the engine as an object

  class BacktestEngine {
    const setup: Setup
    var positions: seq<Position>
    var open: map<string, nat>
    var book: seq<Cycle>
    var signals: seq<Signal>
    var rejected: nat
    var rejectedCloses: nat
    var blocked: nat
    var builds: nat
    var views: seq<View>
    ghost var entries: nat
    ghost var reused: seq<string>
    ghost var displaced: set<nat>

    constructor (setup: Setup)
      ensures this.setup == setup && State() == IDLE
    {
      this.setup := setup;
      positions, open, book, signals := [], map[], [], [];
      rejected, rejectedCloses, blocked, builds, views := 0, 0, 0, 0, [];
      entries, reused, displaced := 0, [], {};
    }

    ghost function State(): Engine
      reads this
    {
      Engine(positions, open, book, signals, rejected, rejectedCloses, blocked, builds, views, entries, reused, displaced)
    }

    method ProcessHeld(bar: Bar)
      modifies this`positions
      ensures State() == Processed(old(State()), setup.costs, bar)
    {
      ghost var before := positions;
      hide AfterBar;
      for i := 0 to |positions|
        invariant |positions| == |before|
        invariant forall j :: i <= j < |before| ==> positions[j] == before[j]
        invariant forall j :: 0 <= j < i ==>
                    positions[j] == if j in open.Values then AfterBar(setup.costs, before[j], bar.ohlc, bar.time) else before[j]
      {
        if i in open.Values {
          positions := positions[i := AfterBar(setup.costs, positions[i], bar.ohlc, bar.time)];
        }
      }
      assert positions == Processed(old(State()), setup.costs, bar).positions;
    }

    method DropClosed()
      modifies this`open
      ensures State() == WithoutClosed(old(State()))
    {
      open := map u | u in open && open[u] < |positions| && positions[open[u]].IsOpen() :: open[u];
    }

    method SyncCycle()
      modifies this`book
      ensures State() == old(State()).(book := Synced(old(book), positions, open))
    {
      var held := book;
      var kept: seq<Cycle> := [];
      for i := 0 to |held|
        invariant kept == Synced(held[..i], positions, open)
      {
        assert Front(held[..i + 1]) == held[..i] && Last(held[..i + 1]) == held[i];
        var uxid := held[i].uxid;
        if IsHeldOpen(positions, open, uxid) {
          kept := kept + [Cycle(uxid, positions[open[uxid]].remaining, positions[open[uxid]].tp1Filled)];
        }
      }
      assert held[..|held|] == held;
      book := kept;
    }

    method Settle()
      modifies this`open, this`book
      ensures State() == Settled(old(State()))
    {
      DropClosed();
      SyncCycle();
    }

    /** Fill what was published. */
    method Fill(s: Signal, intent: Intent, time: nat, close: real)
      modifies this`positions, this`open, this`reused, this`displaced
      ensures State() == Filled(old(State()), setup, s, intent, time, close)
    {
      hide AfterClose, Opened;
      if intent.action.IsEntry() {
        var entered := Opened(setup.costs, OrderOf(intent.action, s, time, close, setup.defaultQuantity));
        if s.uxid in open {
          reused := reused + [s.uxid];
          displaced := displaced + {open[s.uxid]};
        }
        open := open[s.uxid := |positions|];
        positions := positions + [entered];
      } else if s.uxid in open && open[s.uxid] < |positions| && positions[open[s.uxid]].IsOpen() {
        var price := if s.price.Some? then s.price.value else close;
        var note := if intent.reason == "" then None else Some(intent.reason);
        var target := AfterClose(setup.costs, positions[open[s.uxid]], time, price, ReasonOf(intent.action), s.quantity, note);
        if intent.action.TakeTp1? {
          target := Marked(target);
        }
        positions := positions[open[s.uxid] := target];
      }
    }

    method Apply(proposed: Intent, time: nat, close: real)
      modifies this
      ensures State() == Applied(old(State()), setup, proposed, time, close)
    {
      hide Filled, Settled, Committed;
      var intent := proposed;
      if intent.price.None? {
        intent := intent.(price := Some(close));
      }
      var built := setup.build(builds, intent, book, time);
      builds := builds + 1;
      entries := entries + if intent.action.IsEntry() then 1 else 0;
      match built {
        case None =>
          if intent.action.IsEntry() {
            rejected := rejected + 1;
          } else {
            rejectedCloses := rejectedCloses + 1;
          }
        case Some(s) =>
          book := Committed(book, intent.action, s);
          signals := signals + [s];
          Fill(s, intent, time, close);
          Settle();
      }
    }

    method TakeIntents(intents: seq<Intent>, time: nat, close: real)
      modifies this
      ensures State() == TakenAll(old(State()), setup, intents, time, close)
    {
      hide Applied;
      for i := 0 to |intents|
        invariant State() == TakenAll(old(State()), setup, intents[..i], time, close)
      {
        assert Front(intents[..i + 1]) == intents[..i] && Last(intents[..i + 1]) == intents[i];
        if setup.isShut(time) && intents[i].action.IsEntry() {
          blocked := blocked + 1;
          entries := entries + 1;
        } else {
          Apply(intents[i], time, close);
        }
      }
      assert intents[..|intents|] == intents;
    }

    method FlattenForTheWeekend(time: nat, close: real)
      modifies this
      ensures State() == Flattened(old(State()), setup, Ids(old(book)), time, close)
    {
      hide Applied;
      var ids := Ids(book);
      for i := 0 to |ids|
        invariant State() == Flattened(old(State()), setup, ids[..i], time, close)
      {
        assert Front(ids[..i + 1]) == ids[..i] && Last(ids[..i + 1]) == ids[i];
        Apply(FlatIntent(ids[i], close), time, close);
      }
      assert ids[..|ids|] == ids;
    }

    method ReplayBar(frame: seq<Bar>, k: nat)
      requires k < |frame|
      modifies this
      ensures State() == AfterBarAt(old(State()), setup, frame, k)
    {
      hide Processed, Settled, TakenAll, Flattened, WindowAt;
      var bar := frame[k];
      ProcessHeld(bar);
      Settle();
      views := views + [View(WindowAt(frame, k, setup.window), bar.time, Ids(book))];
      TakeIntents(setup.strategy(views), bar.time, bar.ohlc.close);
      if setup.isShut(bar.time) {
        FlattenForTheWeekend(bar.time, bar.ohlc.close);
      }
    }

    method MarkOut(bar: Bar)
      modifies this`positions
      ensures State() == MarkedOut(old(State()), setup.costs, bar)
    {
      ghost var before := positions;
      hide AfterClose;
      for i := 0 to |positions|
        invariant |positions| == |before|
        invariant forall j :: i <= j < |before| ==> positions[j] == before[j]
        invariant forall j :: 0 <= j < i ==>
                    positions[j] == if j in open.Values
                                    then AfterClose(setup.costs, before[j], bar.time, bar.ohlc.close, EndOfData, None, None)
                                    else before[j]
      {
        if i in open.Values {
          positions := positions[i := AfterClose(setup.costs, positions[i], bar.time, bar.ohlc.close, EndOfData, None, None)];
        }
      }
      assert positions == MarkedOut(old(State()), setup.costs, bar).positions;
    }

    method Run(frame: seq<Bar>) returns (error: Option<RunError>)
      requires setup.warmup >= 1 && State() == IDLE
      modifies this
      ensures match RunOver(setup, frame)
              case Failure(e) => error == Some(e) && State() == IDLE
              case Success(e) => error == None && State() == e
    {
      hide AfterBarAt, MarkedOut;
      if frame == [] {
        return Some(NoHistory);
      }
      if |frame| < setup.warmup {
        return Some(NotEnoughBars);
      }
      for k := setup.warmup - 1 to |frame|
        invariant State() == if k + 1 == setup.warmup then IDLE else StateAfter(setup, frame, k - 1)
      {
        ReplayBar(frame, k);
      }
      MarkOut(Last(frame));
      error := None;
    }
  }
}
