/** Fill simulation (src/qte_backtest/execution.py): what the market would have done to an intent.

    A Position is the value of a SimulatedPosition. The functions on it say what one bar or one
    close does; the classes are proved to do exactly that, and ExecutionLaws proves what it means. */
module Execution {
  import opened Prelude

  datatype ExitReason = Tp1 | Tp2 | Sl | RSl | Flat | EndOfData

  datatype Side = Long | Short
  {
    function Sign(): real { if Long? then 1.0 else -1.0 }
  }

  datatype CostModel = CostModel(spread: real, slippage: real, commissionPerUnit: real, contractSize: real)
  {
    function HalfTurn(): real { spread / 2.0 + slippage }
    function EntryFill(price: real, side: Side): real { price + side.Sign() * HalfTurn() }
    function ExitFill(price: real, side: Side): real { price - side.Sign() * HalfTurn() }
    function Commission(quantity: real): real { Abs(quantity) * contractSize * commissionPerUnit }
  }

  datatype Ohlc = Ohlc(open: real, high: real, low: real, close: real)

  datatype ClosedLeg = ClosedLeg(
    closedAt: nat, price: real, quantity: real, reason: ExitReason, grossPnl: real, fees: real, note: Option<string>)

  datatype Position = Position(
    side: Side, openedAt: nat, entryPrice: real, quantity: real,
    sl: Option<real>, tp1: Option<real>, tp2: Option<real>, tp1Percent: Option<real>, moveSlToBe: bool,
    uxid: string, entryFees: real, remaining: real, legs: seq<ClosedLeg>, tp1Filled: bool,
    initialSl: Option<real>, worstPrice: real, bestPrice: real, barsHeld: nat, contractSize: real)
  {
    predicate IsOpen() { remaining > DUST }
    function GrossPnl(): real { GrossOf(legs) }
    function Fees(): real { entryFees + FeesOf(legs) }
    function NetPnl(): real { GrossPnl() - Fees() }
  }

  /** A remaining size this small no longer counts as open. */
  const DUST: real := 0.000000000001

  function GrossOf(legs: seq<ClosedLeg>): real {
    if legs == [] then 0.0 else GrossOf(Front(legs)) + Last(legs).grossPnl
  }

  function FeesOf(legs: seq<ClosedLeg>): real {
    if legs == [] then 0.0 else FeesOf(Front(legs)) + Last(legs).fees
  }

  /** What an entry asks for, once priced and sized. */
  datatype Order = Order(
    side: Side, time: nat, price: real, quantity: real, sl: Option<real>, tp1: Option<real>, tp2: Option<real>,
    tp1Percent: Option<real>, moveSlToBe: bool, uxid: string)

  function Opened(costs: CostModel, o: Order): Position {
    var fill := costs.EntryFill(o.price, o.side);
    Position(o.side, o.time, fill, o.quantity, o.sl, o.tp1, o.tp2, o.tp1Percent, o.moveSlToBe, o.uxid,
             costs.Commission(o.quantity), o.quantity, [], false, o.sl, fill, fill, 0, costs.contractSize)
  }

  /** A long's stop sits below and its target above; a short is the mirror. */
  function IsBelow(side: Side, isStop: bool): bool {
    side.Long? == isStop
  }

  predicate Touched(level: Option<real>, side: Side, bar: Ohlc, isStop: bool) {
    level.Some? && if IsBelow(side, isStop) then bar.low <= level.value else bar.high >= level.value
  }

  /** The price a level trades at: the level, unless the bar gapped past it. */
  function RawFill(level: real, side: Side, bar: Ohlc, isStop: bool): real {
    var gapped := if IsBelow(side, isStop) then bar.open < level else bar.open > level;
    if gapped then bar.open else level
  }

  function FillLevel(costs: CostModel, level: real, side: Side, bar: Ohlc, isStop: bool): real {
    costs.ExitFill(RawFill(level, side, bar, isStop), side)
  }

  function LegGross(price: real, entryPrice: real, side: Side, quantity: real, contractSize: real): real {
    (price - entryPrice) * side.Sign() * quantity * contractSize
  }

  function WithLeg(costs: CostModel, p: Position, time: nat, price: real, wanted: real, reason: ExitReason, note: Option<string>): Position {
    var quantity := Min(wanted, p.remaining);
    if quantity <= 0.0 then p
    else
      var gross := LegGross(price, p.entryPrice, p.side, quantity, costs.contractSize);
      p.(legs := p.legs + [ClosedLeg(time, price, quantity, reason, gross, costs.Commission(quantity), note)],
         remaining := p.remaining - quantity)
  }

  function WithExcursion(p: Position, bar: Ohlc): Position {
    p.(barsHeld := p.barsHeld + 1,
       worstPrice := if p.side.Long? then Min(p.worstPrice, bar.low) else Max(p.worstPrice, bar.high),
       bestPrice := if p.side.Long? then Max(p.bestPrice, bar.high) else Min(p.bestPrice, bar.low))
  }

  /** The share of the entry that TP1 takes: all of it when none (or zero) is configured. */
  function Tp1Share(tp1Percent: Option<real>): real {
    (if tp1Percent.Some? && tp1Percent.value != 0.0 then tp1Percent.value else 100.0) / 100.0
  }

  function Tp1Size(p: Position): real {
    Min(p.remaining, p.quantity * Tp1Share(p.tp1Percent))
  }

  /** What filling each level does, whichever is filled first. */
  function StopFilled(costs: CostModel, p: Position, bar: Ohlc, time: nat): Position
    requires p.sl.Some?
  {
    WithLeg(costs, p, time, FillLevel(costs, p.sl.value, p.side, bar, true), p.remaining,
            if p.tp1Filled && p.moveSlToBe then RSl else Sl, None)
  }

  function Tp1Taken(costs: CostModel, p: Position, bar: Ohlc, time: nat): Position
    requires p.tp1.Some?
  {
    var q := WithLeg(costs, p, time, FillLevel(costs, p.tp1.value, p.side, bar, false), Tp1Size(p), Tp1, None);
    q.(tp1Filled := true, sl := if p.moveSlToBe then Some(p.entryPrice) else p.sl)
  }

  function Tp2Taken(costs: CostModel, p: Position, bar: Ohlc, time: nat): Position
    requires p.tp2.Some?
  {
    WithLeg(costs, p, time, FillLevel(costs, p.tp2.value, p.side, bar, false), p.remaining, Tp2, None)
  }

  /** One bar's range applied to a position: stop before target, always. */
  function AfterBar(costs: CostModel, p: Position, bar: Ohlc, time: nat): Position {
    if !p.IsOpen() then p
    else
      var seen := WithExcursion(p, bar);
      if Touched(p.sl, p.side, bar, true) then StopFilled(costs, seen, bar, time)
      else
        var first := if !p.tp1Filled && Touched(p.tp1, p.side, bar, false) then Tp1Taken(costs, seen, bar, time) else seen;
        if first.IsOpen() && Touched(p.tp2, p.side, bar, false) then Tp2Taken(costs, first, bar, time) else first
  }

  /** A discretionary close, of everything when no size is named. */
  function AfterClose(costs: CostModel, p: Position, time: nat, price: real, reason: ExitReason,
                      quantity: Option<real>, note: Option<string>): Position {
    if !p.IsOpen() then p
    else WithLeg(costs, p, time, costs.ExitFill(price, p.side),
                 if quantity.Some? then quantity.value else p.remaining, reason, note)
  }

  class SimulatedPosition {
    const side: Side
    const openedAt: nat
    const entryPrice: real
    const quantity: real
    const tp1: Option<real>
    const tp2: Option<real>
    const tp1Percent: Option<real>
    const moveSlToBe: bool
    const uxid: string
    const entryFees: real
    const initialSl: Option<real>
    const contractSize: real
    var sl: Option<real>
    var remaining: real
    var legs: seq<ClosedLeg>
    var tp1Filled: bool
    var worstPrice: real
    var bestPrice: real
    var barsHeld: nat

    constructor (o: Order, fill: real, fees: real, contractSize: real)
      ensures View() == Position(o.side, o.time, fill, o.quantity, o.sl, o.tp1, o.tp2, o.tp1Percent, o.moveSlToBe, o.uxid,
                                 fees, o.quantity, [], false, o.sl, fill, fill, 0, contractSize)
    {
      side, openedAt, entryPrice, quantity := o.side, o.time, fill, o.quantity;
      sl, tp1, tp2, tp1Percent, moveSlToBe, uxid := o.sl, o.tp1, o.tp2, o.tp1Percent, o.moveSlToBe, o.uxid;
      entryFees, remaining, legs, tp1Filled, initialSl := fees, o.quantity, [], false, o.sl;
      worstPrice, bestPrice, barsHeld := fill, fill, 0;
      this.contractSize := contractSize;
    }

    function View(): Position
      reads this
    {
      Position(side, openedAt, entryPrice, quantity, sl, tp1, tp2, tp1Percent, moveSlToBe, uxid, entryFees,
               remaining, legs, tp1Filled, initialSl, worstPrice, bestPrice, barsHeld, contractSize)
    }
  }

  /** Opens positions from intents and walks them forward bar by bar. */
  class FillSimulator {
    const costs: CostModel

    constructor (costs: CostModel)
      ensures this.costs == costs
    {
      this.costs := costs;
    }

    method OpenPosition(o: Order) returns (p: SimulatedPosition)
      ensures fresh(p) && p.View() == Opened(costs, o)
    {
      p := new SimulatedPosition(o, costs.EntryFill(o.price, o.side), costs.Commission(o.quantity), costs.contractSize);
    }

    method Close(p: SimulatedPosition, time: nat, price: real, wanted: real, reason: ExitReason, note: Option<string>)
      modifies p`legs, p`remaining
      ensures p.View() == WithLeg(costs, old(p.View()), time, price, wanted, reason, note)
    {
      hide LegGross;
      var quantity := Min(wanted, p.remaining);
      if quantity <= 0.0 {
        return;
      }
      var gross := LegGross(price, p.entryPrice, p.side, quantity, costs.contractSize);
      p.legs := p.legs + [ClosedLeg(time, price, quantity, reason, gross, costs.Commission(quantity), note)];
      p.remaining := p.remaining - quantity;
    }

    method RecordExcursion(p: SimulatedPosition, bar: Ohlc)
      modifies p`barsHeld, p`worstPrice, p`bestPrice
      ensures p.View() == WithExcursion(old(p.View()), bar)
    {
      p.barsHeld := p.barsHeld + 1;
      p.worstPrice := if p.side.Long? then Min(p.worstPrice, bar.low) else Max(p.worstPrice, bar.high);
      p.bestPrice := if p.side.Long? then Max(p.bestPrice, bar.high) else Min(p.bestPrice, bar.low);
    }

    method TakeTp1(p: SimulatedPosition, bar: Ohlc, time: nat)
      requires p.tp1.Some?
      modifies p`legs, p`remaining, p`tp1Filled, p`sl
      ensures p.View() == Tp1Taken(costs, old(p.View()), bar, time)
    {
      hide LegGross, Tp1Share, FillLevel;
      var share := Tp1Share(p.tp1Percent);
      Close(p, time, FillLevel(costs, p.tp1.value, p.side, bar, false), Min(p.remaining, p.quantity * share), Tp1, None);
      p.tp1Filled := true;
      if p.moveSlToBe {
        p.sl := Some(p.entryPrice);
      }
    }

    method ProcessBar(p: SimulatedPosition, bar: Ohlc, time: nat)
      modifies p
      ensures p.View() == AfterBar(costs, old(p.View()), bar, time)
    {
      hide WithLeg, WithExcursion, FillLevel, Tp1Size;
      if p.remaining <= DUST {
        return;
      }
      RecordExcursion(p, bar);
      ghost var seen := p.View();
      assert seen.sl == old(p.sl) && seen.tp1Filled == old(p.tp1Filled) && seen.side == p.side && seen.remaining == p.remaining;
      if Touched(p.sl, p.side, bar, true) {
        var reason := if p.tp1Filled && p.moveSlToBe then RSl else Sl;
        Close(p, time, FillLevel(costs, p.sl.value, p.side, bar, true), p.remaining, reason, None);
        return;
      }
      if !p.tp1Filled && p.tp1.Some? && Touched(p.tp1, p.side, bar, false) {
        TakeTp1(p, bar, time);
        if p.remaining <= DUST {
          return;
        }
      }
      if p.tp2.Some? && Touched(p.tp2, p.side, bar, false) {
        Close(p, time, FillLevel(costs, p.tp2.value, p.side, bar, false), p.remaining, Tp2, None);
      }
    }

    method CloseAt(p: SimulatedPosition, time: nat, price: real, reason: ExitReason, quantity: Option<real>, note: Option<string>)
      modifies p
      ensures p.View() == AfterClose(costs, old(p.View()), time, price, reason, quantity, note)
    {
      if p.remaining > DUST {
        Close(p, time, costs.ExitFill(price, p.side), if quantity.Some? then quantity.value else p.remaining, reason, note);
      }
    }
  }
}
