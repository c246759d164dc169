/** At which prices the trades of a replay are booked: every leg of every position, in every run. */
module ReplayPrices {
  import opened Prelude
  import opened Execution
  import opened ExecutionLaws
  import opened Metrics
  import opened BacktestReplay
  import opened ReplayLaws

  /** Before costs: a price the bar traded at, its close, or the price of a published signal. */
  ghost predicate SoldOn(costs: CostModel, price: real, side: Side, bar: Ohlc, signals: seq<Signal>) {
    || TradedIn(costs, price, side, bar)
    || price == costs.ExitFill(bar.close, side)
    || exists s :: s in signals && s.price.Some? && price == costs.ExitFill(s.price.value, side)
  }

  /** The leg carries the time of one of the first n bars, and its price is to be had on that bar. */
  ghost predicate SoldAtTheMarket(costs: CostModel, leg: ClosedLeg, side: Side, frame: seq<Bar>, n: nat, signals: seq<Signal>) {
    exists j :: 0 <= j < n && j < |frame| && leg.closedAt == frame[j].time && SoldOn(costs, leg.price, side, frame[j].ohlc, signals)
  }

  ghost predicate LegsAtTheMarket(costs: CostModel, p: Position, frame: seq<Bar>, n: nat, signals: seq<Signal>) {
    forall i :: 0 <= i < |p.legs| ==> SoldAtTheMarket(costs, p.legs[i], p.side, frame, n, signals)
  }

  ghost predicate AllAtTheMarket(e: Engine, costs: CostModel, frame: seq<Bar>, n: nat) {
    forall i :: 0 <= i < |e.positions| ==> LegsAtTheMarket(costs, e.positions[i], frame, n, e.signals)
  }

  lemma SoldOnMore(costs: CostModel, price: real, side: Side, bar: Ohlc, signals: seq<Signal>, more: seq<Signal>)
    requires SoldOn(costs, price, side, bar, signals) && forall s :: s in signals ==> s in more
    ensures SoldOn(costs, price, side, bar, more)
  {
    hide TradedIn, CostModel.ExitFill;
  }

  lemma StillAtTheMarket(costs: CostModel, p: Position, frame: seq<Bar>, n: nat, m: nat, signals: seq<Signal>, more: seq<Signal>)
    requires LegsAtTheMarket(costs, p, frame, n, signals) && n <= m && forall s :: s in signals ==> s in more
    ensures LegsAtTheMarket(costs, p, frame, m, more)
  {
    hide SoldOn;
    forall i | 0 <= i < |p.legs| ensures SoldAtTheMarket(costs, p.legs[i], p.side, frame, m, more) {
      assert SoldAtTheMarket(costs, p.legs[i], p.side, frame, n, signals);
      var j :| 0 <= j < n && j < |frame| && p.legs[i].closedAt == frame[j].time && SoldOn(costs, p.legs[i].price, p.side, frame[j].ohlc, signals);
      SoldOnMore(costs, p.legs[i].price, p.side, frame[j].ohlc, signals, more);
    }
  }

  lemma SideStays(costs: CostModel, p: Position, bar: Ohlc, time: nat)
    ensures AfterBar(costs, p, bar, time).side == p.side
  {
    hide FillLevel, LegGross;
  }

  lemma BarSellsAtTheMarket(costs: CostModel, p: Position, frame: seq<Bar>, k: nat, signals: seq<Signal>)
    requires k < |frame| && WellFormed(frame[k].ohlc) && LegsAtTheMarket(costs, p, frame, k, signals)
    ensures LegsAtTheMarket(costs, AfterBar(costs, p, frame[k].ohlc, frame[k].time), frame, k + 1, signals)
  {
    BracketFillsInsideTheBar(costs, p, frame[k].ohlc, frame[k].time);
    SideStays(costs, p, frame[k].ohlc, frame[k].time);
    StillAtTheMarket(costs, p, frame, k, k + 1, signals, signals);
    hide AfterBar, TradedIn;
    var q := AfterBar(costs, p, frame[k].ohlc, frame[k].time);
    forall i | 0 <= i < |q.legs| ensures SoldAtTheMarket(costs, q.legs[i], q.side, frame, k + 1, signals) {
      if i < |p.legs| {
        assert q.legs[i] == q.legs[..|p.legs|][i] == p.legs[i];
      }
    }
  }

  /** A close books at most one leg, at the price it names. */
  lemma CloseSellsAtItsPrice(costs: CostModel, p: Position, time: nat, price: real, reason: ExitReason, quantity: Option<real>, note: Option<string>)
    ensures var q := AfterClose(costs, p, time, price, reason, quantity, note);
            && q.side == p.side
            && (q.legs == p.legs
                || (|q.legs| == |p.legs| + 1 && q.legs[..|p.legs|] == p.legs
                    && Last(q.legs).closedAt == time && Last(q.legs).price == costs.ExitFill(price, p.side)))
  {
    hide CostModel.ExitFill, LegGross;
  }

  lemma CloseKeepsTheMarket(costs: CostModel, p: Position, q: Position, frame: seq<Bar>, k: nat, price: real, signals: seq<Signal>)
    requires k < |frame| && LegsAtTheMarket(costs, p, frame, k + 1, signals) && q.side == p.side
    requires q.legs == p.legs
             || (|q.legs| == |p.legs| + 1 && q.legs[..|p.legs|] == p.legs
                 && Last(q.legs).closedAt == frame[k].time && Last(q.legs).price == costs.ExitFill(price, p.side))
    requires price == frame[k].ohlc.close || exists s :: s in signals && s.price == Some(price)
    ensures LegsAtTheMarket(costs, q, frame, k + 1, signals)
  {
    hide CostModel.ExitFill, TradedIn;
    forall i | 0 <= i < |q.legs| ensures SoldAtTheMarket(costs, q.legs[i], q.side, frame, k + 1, signals) {
      if i < |p.legs| {
        assert q.legs[i] == p.legs[i] by {
          if q.legs != p.legs {
            assert q.legs[i] == q.legs[..|p.legs|][i];
          }
        }
      } else {
        assert SoldOn(costs, q.legs[i].price, q.side, frame[k].ohlc, signals);
      }
    }
  }

  lemma ProcessingKeepsTheMarket(e: Engine, costs: CostModel, frame: seq<Bar>, k: nat)
    requires k < |frame| && WellFormed(frame[k].ohlc) && AllAtTheMarket(e, costs, frame, k)
    ensures AllAtTheMarket(Processed(e, costs, frame[k]), costs, frame, k + 1)
  {
    hide LegsAtTheMarket, AfterBar;
    forall i | 0 <= i < |e.positions| ensures LegsAtTheMarket(costs, Processed(e, costs, frame[k]).positions[i], frame, k + 1, e.signals) {
      BarSellsAtTheMarket(costs, e.positions[i], frame, k, e.signals);
      StillAtTheMarket(costs, e.positions[i], frame, k, k + 1, e.signals, e.signals);
    }
  }

  lemma ExitingKeepsTheMarket(p: Position, setup: Setup, s: Signal, intent: Intent, frame: seq<Bar>, k: nat, signals: seq<Signal>)
    requires k < |frame| && LegsAtTheMarket(setup.costs, p, frame, k + 1, signals) && s in signals
    ensures LegsAtTheMarket(setup.costs, Exited(p, setup, s, intent, frame[k].time, frame[k].ohlc.close), frame, k + 1, signals)
  {
    hide LegsAtTheMarket, AfterClose;
    var price := if s.price.Some? then s.price.value else frame[k].ohlc.close;
    var note := if intent.reason == "" then None else Some(intent.reason);
    CloseSellsAtItsPrice(setup.costs, p, frame[k].time, price, ReasonOf(intent.action), s.quantity, note);
    CloseKeepsTheMarket(setup.costs, p, Exited(p, setup, s, intent, frame[k].time, frame[k].ohlc.close), frame, k, price, signals);
  }

  lemma FillingKeepsTheMarket(e: Engine, setup: Setup, s: Signal, intent: Intent, frame: seq<Bar>, k: nat)
    requires k < |frame| && AllAtTheMarket(e, setup.costs, frame, k + 1) && s in e.signals
    ensures AllAtTheMarket(Filled(e, setup, s, intent, frame[k].time, frame[k].ohlc.close), setup.costs, frame, k + 1)
  {
    hide Exited, SoldAtTheMarket;
    if !intent.action.IsEntry() && Held(e, s.uxid) && e.positions[e.open[s.uxid]].IsOpen() {
      ExitingKeepsTheMarket(e.positions[e.open[s.uxid]], setup, s, intent, frame, k, e.signals);
    }
  }

  lemma BookingKeepsTheMarket(e: Engine, f: Engine, costs: CostModel, frame: seq<Bar>, n: nat)
    requires AllAtTheMarket(e, costs, frame, n) && f.positions == e.positions && forall s :: s in e.signals ==> s in f.signals
    ensures AllAtTheMarket(f, costs, frame, n)
  {
    hide LegsAtTheMarket;
    forall i | 0 <= i < |f.positions| ensures LegsAtTheMarket(costs, f.positions[i], frame, n, f.signals) {
      StillAtTheMarket(costs, f.positions[i], frame, n, n, e.signals, f.signals);
    }
  }

  lemma ApplyingKeepsTheMarket(e: Engine, setup: Setup, intent: Intent, frame: seq<Bar>, k: nat)
    requires k < |frame| && AllAtTheMarket(e, setup.costs, frame, k + 1)
    ensures AllAtTheMarket(Applied(e, setup, intent, frame[k].time, frame[k].ohlc.close), setup.costs, frame, k + 1)
  {
    hide AllAtTheMarket, Filled, Settled, Committed;
    var (time, close) := (frame[k].time, frame[k].ohlc.close);
    var p := Priced(intent, close);
    match AskFactory(e, setup, p, time)
    case None => BookingKeepsTheMarket(e, Refused(Asked(e, p), p), setup.costs, frame, k + 1);
    case Some(s) =>
      var booked := Asked(e, p).(signals := e.signals + [s], book := Committed(e.book, p.action, s));
      BookingKeepsTheMarket(e, booked, setup.costs, frame, k + 1);
      FillingKeepsTheMarket(booked, setup, s, p, frame, k);
      SettlingKeepsCounts(Filled(booked, setup, s, p, time, close));
      BookingKeepsTheMarket(Filled(booked, setup, s, p, time, close), Applied(e, setup, intent, time, close), setup.costs, frame, k + 1);
  }

  lemma {:induction false} TakingKeepsTheMarket(e: Engine, setup: Setup, intents: seq<Intent>, frame: seq<Bar>, k: nat)
    requires k < |frame| && AllAtTheMarket(e, setup.costs, frame, k + 1)
    ensures AllAtTheMarket(TakenAll(e, setup, intents, frame[k].time, frame[k].ohlc.close), setup.costs, frame, k + 1)
  {
    hide AllAtTheMarket, Applied;
    if intents != [] {
      TakingKeepsTheMarket(e, setup, Front(intents), frame, k);
      var before := TakenAll(e, setup, Front(intents), frame[k].time, frame[k].ohlc.close);
      ApplyingKeepsTheMarket(before, setup, Last(intents), frame, k);
      if setup.isShut(frame[k].time) && Last(intents).action.IsEntry() {
        BookingKeepsTheMarket(before, TakenAll(e, setup, intents, frame[k].time, frame[k].ohlc.close), setup.costs, frame, k + 1);
      }
    }
  }

  lemma {:induction false} FlatteningKeepsTheMarket(e: Engine, setup: Setup, ids: seq<string>, frame: seq<Bar>, k: nat)
    requires k < |frame| && AllAtTheMarket(e, setup.costs, frame, k + 1)
    ensures AllAtTheMarket(Flattened(e, setup, ids, frame[k].time, frame[k].ohlc.close), setup.costs, frame, k + 1)
  {
    hide AllAtTheMarket, Applied;
    if ids != [] {
      FlatteningKeepsTheMarket(e, setup, Front(ids), frame, k);
      ApplyingKeepsTheMarket(Flattened(e, setup, Front(ids), frame[k].time, frame[k].ohlc.close), setup,
                             FlatIntent(Last(ids), frame[k].ohlc.close), frame, k);
    }
  }

  lemma BarKeepsTheMarket(e: Engine, setup: Setup, frame: seq<Bar>, k: nat)
    requires k < |frame| && WellFormed(frame[k].ohlc) && AllAtTheMarket(e, setup.costs, frame, k)
    ensures AllAtTheMarket(AfterBarAt(e, setup, frame, k), setup.costs, frame, k + 1)
  {
    hide AllAtTheMarket, Settled, Processed, TakenAll, Flattened, WindowAt;
    var bar := frame[k];
    ProcessingKeepsTheMarket(e, setup.costs, frame, k);
    SettlingKeepsCounts(Processed(e, setup.costs, bar));
    var shown := Shown(Settled(Processed(e, setup.costs, bar)), setup, frame, k);
    BookingKeepsTheMarket(Processed(e, setup.costs, bar), shown, setup.costs, frame, k + 1);
    TakingKeepsTheMarket(shown, setup, setup.strategy(shown.views), frame, k);
    var acted := TakenAll(shown, setup, setup.strategy(shown.views), bar.time, bar.ohlc.close);
    FlatteningKeepsTheMarket(acted, setup, Ids(acted.book), frame, k);
  }

  lemma {:induction false} EveryBarKeepsTheMarket(setup: Setup, frame: seq<Bar>, k: nat)
    requires setup.warmup >= 1 && k < |frame| && forall j :: 0 <= j < |frame| ==> WellFormed(frame[j].ohlc)
    ensures AllAtTheMarket(StateAfter(setup, frame, k), setup.costs, frame, k + 1)
  {
    hide AfterBarAt, LegsAtTheMarket;
    if k + 1 >= setup.warmup {
      var e := if k == 0 then IDLE else StateAfter(setup, frame, k - 1);
      if k > 0 {
        EveryBarKeepsTheMarket(setup, frame, k - 1);
      }
      assert AllAtTheMarket(e, setup.costs, frame, k);
      hide AllAtTheMarket, StateAfter;
      BarKeepsTheMarket(e, setup, frame, k);
      assert AfterBarAt(e, setup, frame, k) == StateAfter(setup, frame, k) by {
        AfterOneMoreBar(setup, frame, k);
      }
    }
  }

  lemma AfterOneMoreBar(setup: Setup, frame: seq<Bar>, k: nat)
    requires setup.warmup >= 1 && k < |frame| && k + 1 >= setup.warmup
    ensures StateAfter(setup, frame, k) == AfterBarAt(if k == 0 then IDLE else StateAfter(setup, frame, k - 1), setup, frame, k)
  {
    hide AfterBarAt;
  }

  /** In every run, for any strategy and any factory: every leg a position is sold in carries the time of
      a bar, and was sold, before costs, inside that bar's range, at its close, or at the price of a
      published signal. */
  lemma EveryLegIsSoldAtTheMarket(setup: Setup, frame: seq<Bar>)
    requires setup.warmup >= 1 && RunOver(setup, frame).Success? && forall j :: 0 <= j < |frame| ==> WellFormed(frame[j].ohlc)
    ensures AllAtTheMarket(RunOver(setup, frame).value, setup.costs, frame, |frame|)
  {
    hide StateAfter, LegsAtTheMarket, AfterClose;
    var (n, e) := (|frame| - 1, StateAfter(setup, frame, |frame| - 1));
    EveryBarKeepsTheMarket(setup, frame, n);
    var f := MarkedOut(e, setup.costs, frame[n]);
    forall i | 0 <= i < |f.positions| ensures LegsAtTheMarket(setup.costs, f.positions[i], frame, n + 1, f.signals) {
      CloseSellsAtItsPrice(setup.costs, e.positions[i], frame[n].time, frame[n].ohlc.close, EndOfData, None, None);
      CloseKeepsTheMarket(setup.costs, e.positions[i], AfterClose(setup.costs, e.positions[i], frame[n].time, frame[n].ohlc.close, EndOfData, None, None),
                          frame, n, frame[n].ohlc.close, e.signals);
    }
  }
}
