/** What a simulated fill keeps: size, the cost of trading, the bar's range, and pessimism. */
module ExecutionLaws {
  import opened Prelude
  import opened Execution

  /** Everything that can happen to a position once it is open. */
  datatype Event =
    | OnBar(bar: Ohlc, time: nat)
    | OnClose(closedAt: nat, price: real, reason: ExitReason, quantity: Option<real>, note: Option<string>)
    | OnPartialMark          // the engine marks a strategy's own TP1 as filled

  function Marked(p: Position): Position {
    p.(tp1Filled := true, sl := if p.moveSlToBe && p.IsOpen() then Some(p.entryPrice) else p.sl)
  }

  function Apply(costs: CostModel, p: Position, e: Event): Position {
    match e
    case OnBar(bar, time) => AfterBar(costs, p, bar, time)
    case OnClose(time, price, reason, quantity, note) => AfterClose(costs, p, time, price, reason, quantity, note)
    case OnPartialMark => Marked(p)
  }

  function Replay(costs: CostModel, o: Order, events: seq<Event>): Position {
    if events == [] then Opened(costs, o)
    else Apply(costs, Replay(costs, o, Front(events)), Last(events))
  }

  // ------------------------------------------------------------ the same trades, without costs

  /** A size sold at a quoted price, before spread, slippage and commission. */
  datatype Exit = Exit(raw: real, quantity: real)

  function Sale(raw: real, wanted: real, remaining: real): seq<Exit> {
    if Min(wanted, remaining) <= 0.0 then [] else [Exit(raw, Min(wanted, remaining))]
  }

  function Sold(exits: seq<Exit>): real {
    if exits == [] then 0.0 else Sold(Front(exits)) + Last(exits).quantity
  }

  /** Profit of the exits at the prices that were quoted. */
  function RawPnl(exits: seq<Exit>, entry: real, side: Side): real {
    if exits == [] then 0.0
    else RawPnl(Front(exits), entry, side) + (Last(exits).raw - entry) * side.Sign() * Last(exits).quantity
  }

  /** What a bar trades: everything at the stop if it was touched, else the targets it reached. */
  function BarExits(p: Position, bar: Ohlc): seq<Exit> {
    if !p.IsOpen() then []
    else if Touched(p.sl, p.side, bar, true) then [Exit(RawFill(p.sl.value, p.side, bar, true), p.remaining)]
    else
      var first := if !p.tp1Filled && Touched(p.tp1, p.side, bar, false)
                   then Sale(RawFill(p.tp1.value, p.side, bar, false), Tp1Size(p), p.remaining) else [];
      var left := p.remaining - Sold(first);
      first + if left > DUST && Touched(p.tp2, p.side, bar, false)
              then [Exit(RawFill(p.tp2.value, p.side, bar, false), left)] else []
  }

  function ExitsOf(p: Position, e: Event): seq<Exit> {
    match e
    case OnBar(bar, _) => BarExits(p, bar)
    case OnClose(_, price, _, quantity, _) =>
      if p.IsOpen() then Sale(price, if quantity.Some? then quantity.value else p.remaining, p.remaining) else []
    case OnPartialMark => []
  }

  function AllExits(costs: CostModel, o: Order, events: seq<Event>): seq<Exit> {
    if events == [] then []
    else AllExits(costs, o, Front(events)) + ExitsOf(Replay(costs, o, Front(events)), Last(events))
  }

  // ------------------------------------------------------------ the ledger

  function RoundTrip(costs: CostModel): real {
    costs.spread + 2.0 * costs.slippage
  }

  /** The books of a position agree with the list of raw exits behind it. */
  ghost predicate Ledger(costs: CostModel, entry: real, p: Position, exits: seq<Exit>) {
    && p.entryPrice == costs.EntryFill(entry, p.side)
    && Sold(exits) + p.remaining == p.quantity
    && p.GrossPnl() == costs.contractSize * (RawPnl(exits, entry, p.side) - RoundTrip(costs) * Sold(exits))
    && FeesOf(p.legs) == costs.contractSize * costs.commissionPerUnit * Sold(exits)
    && |p.legs| == |exits|
    && (forall i :: 0 <= i < |exits| ==>
          p.legs[i].quantity == exits[i].quantity > 0.0 && p.legs[i].price == costs.ExitFill(exits[i].raw, p.side))
  }

  lemma {:induction false} TotalsAppend(a: seq<Exit>, b: seq<Exit>, entry: real, side: Side)
    ensures Sold(a + b) == Sold(a) + Sold(b)
    ensures RawPnl(a + b, entry, side) == RawPnl(a, entry, side) + RawPnl(b, entry, side)
  {
    if b == [] {
      assert a + b == a;
    } else {
      assert Front(a + b) == a + Front(b) && Last(a + b) == Last(b);
      TotalsAppend(a, Front(b), entry, side);
    }
  }

  lemma LegIsPricedExit(costs: CostModel, entry: real, side: Side, raw: real, q: real)
    ensures LegGross(costs.ExitFill(raw, side), costs.EntryFill(entry, side), side, q, costs.contractSize)
         == costs.contractSize * ((raw - entry) * side.Sign() * q - RoundTrip(costs) * q)
  {
    var perUnit := (costs.ExitFill(raw, side) - costs.EntryFill(entry, side)) * side.Sign();
    assert perUnit == (raw - entry) * side.Sign() - RoundTrip(costs);
    assert perUnit * q == (raw - entry) * side.Sign() * q - RoundTrip(costs) * q;
  }

  lemma LegAddsUp(legs: seq<ClosedLeg>, leg: ClosedLeg)
    ensures GrossOf(legs + [leg]) == GrossOf(legs) + leg.grossPnl && FeesOf(legs + [leg]) == FeesOf(legs) + leg.fees
  {
    assert Front(legs + [leg]) == legs;
  }

  lemma ExitAddsUp(exits: seq<Exit>, e: Exit, entry: real, side: Side)
    ensures Sold(exits + [e]) == Sold(exits) + e.quantity
    ensures RawPnl(exits + [e], entry, side) == RawPnl(exits, entry, side) + (e.raw - entry) * side.Sign() * e.quantity
  {
    assert Front(exits + [e]) == exits;
  }

  /** One sale, booked. */
  lemma SaleKeepsLedger(costs: CostModel, entry: real, p: Position, exits: seq<Exit>, time: nat, raw: real, wanted: real,
                        reason: ExitReason, note: Option<string>)
    requires Ledger(costs, entry, p, exits)
    ensures Ledger(costs, entry, WithLeg(costs, p, time, costs.ExitFill(raw, p.side), wanted, reason, note),
                   exits + Sale(raw, wanted, p.remaining))
  {
    hide LegGross, RoundTrip, CostModel.EntryFill, CostModel.ExitFill, CostModel.HalfTurn, Side.Sign, GrossOf, FeesOf, Sold, RawPnl;
    var q := Min(wanted, p.remaining);
    if q <= 0.0 {
      assert exits + Sale(raw, wanted, p.remaining) == exits;
    } else {
      LegIsPricedExit(costs, entry, p.side, raw, q);
      LegAddsUp(p.legs, Last(WithLeg(costs, p, time, costs.ExitFill(raw, p.side), wanted, reason, note).legs));
      ExitAddsUp(exits, Exit(raw, q), entry, p.side);
      Distribute(costs.contractSize, RoundTrip(costs), RawPnl(exits, entry, p.side), Sold(exits), (raw - entry) * p.side.Sign() * q, q);
      FeesDistribute(costs.contractSize, costs.commissionPerUnit, Sold(exits), q);
    }
  }

  lemma FeesDistribute(cs: real, perUnit: real, sold: real, q: real)
    ensures cs * perUnit * (sold + q) == cs * perUnit * sold + q * cs * perUnit
  {
  }

  lemma Distribute(cs: real, rt: real, r: real, sold: real, add: real, q: real)
    ensures cs * (r - rt * sold) + cs * (add - rt * q) == cs * ((r + add) - rt * (sold + q))
  {
  }

  lemma TouchesKeepLedger(costs: CostModel, entry: real, p: Position, q: Position, exits: seq<Exit>)
    requires Ledger(costs, entry, p, exits)
    requires q == p.(sl := q.sl, tp1Filled := q.tp1Filled, worstPrice := q.worstPrice, bestPrice := q.bestPrice, barsHeld := q.barsHeld)
    ensures Ledger(costs, entry, q, exits)
  {
  }

  lemma BarKeepsLedger(costs: CostModel, entry: real, p: Position, exits: seq<Exit>, bar: Ohlc, time: nat)
    requires Ledger(costs, entry, p, exits)
    ensures Ledger(costs, entry, AfterBar(costs, p, bar, time), exits + BarExits(p, bar))
  {
    hide Ledger, WithLeg, RawFill;
    if !p.IsOpen() {
      assert exits + [] == exits;
      return;
    }
    var seen := WithExcursion(p, bar);
    TouchesKeepLedger(costs, entry, p, seen, exits);
    if Touched(p.sl, p.side, bar, true) {
      SaleKeepsLedger(costs, entry, seen, exits, time, RawFill(p.sl.value, p.side, bar, true), p.remaining,
                      if p.tp1Filled && p.moveSlToBe then RSl else Sl, None);
      return;
    }
    var taken := !p.tp1Filled && Touched(p.tp1, p.side, bar, false);
    var first := if taken then Tp1Taken(costs, seen, bar, time) else seen;
    var sold := if taken then Sale(RawFill(p.tp1.value, p.side, bar, false), Tp1Size(p), p.remaining) else [];
    if taken {
      Tp1KeepsLedger(costs, entry, seen, exits, bar, time);
      assert Tp1Size(seen) == Tp1Size(p);
    } else {
      assert exits + sold == exits;
    }
    LedgerTellsRemaining(costs, entry, p, exits, first, sold);
    if first.IsOpen() && Touched(p.tp2, p.side, bar, false) {
      Tp2KeepsLedger(costs, entry, first, exits + sold, bar, time);
      assert exits + BarExits(p, bar) == (exits + sold) + [Exit(RawFill(p.tp2.value, p.side, bar, false), first.remaining)];
    } else {
      assert exits + BarExits(p, bar) == exits + sold;
    }
  }

  lemma Tp1KeepsLedger(costs: CostModel, entry: real, p: Position, exits: seq<Exit>, bar: Ohlc, time: nat)
    requires p.tp1.Some? && Ledger(costs, entry, p, exits)
    ensures Ledger(costs, entry, Tp1Taken(costs, p, bar, time),
                   exits + Sale(RawFill(p.tp1.value, p.side, bar, false), Tp1Size(p), p.remaining))
    ensures Tp1Taken(costs, p, bar, time).side == p.side && Tp1Taken(costs, p, bar, time).tp2 == p.tp2
    ensures Tp1Taken(costs, p, bar, time).quantity == p.quantity
  {
    var raw := RawFill(p.tp1.value, p.side, bar, false);
    SaleKeepsLedger(costs, entry, p, exits, time, raw, Tp1Size(p), Tp1, None);
    var q := WithLeg(costs, p, time, costs.ExitFill(raw, p.side), Tp1Size(p), Tp1, None);
    TouchesKeepLedger(costs, entry, q, Tp1Taken(costs, p, bar, time), exits + Sale(raw, Tp1Size(p), p.remaining));
    hide Ledger;
  }

  lemma Tp2KeepsLedger(costs: CostModel, entry: real, p: Position, exits: seq<Exit>, bar: Ohlc, time: nat)
    requires p.tp2.Some? && p.IsOpen() && Ledger(costs, entry, p, exits)
    ensures Ledger(costs, entry, Tp2Taken(costs, p, bar, time),
                   exits + [Exit(RawFill(p.tp2.value, p.side, bar, false), p.remaining)])
  {
    SaleKeepsLedger(costs, entry, p, exits, time, RawFill(p.tp2.value, p.side, bar, false), p.remaining, Tp2, None);
    hide Ledger, RawFill;
  }

  lemma LedgerTellsRemaining(costs: CostModel, entry: real, p: Position, exits: seq<Exit>, q: Position, more: seq<Exit>)
    requires Ledger(costs, entry, p, exits) && Ledger(costs, entry, q, exits + more) && p.quantity == q.quantity
    ensures q.remaining == p.remaining - Sold(more)
  {
    TotalsAppend(exits, more, entry, p.side);
  }

  lemma ApplyKeepsLedger(costs: CostModel, entry: real, p: Position, exits: seq<Exit>, e: Event)
    requires Ledger(costs, entry, p, exits)
    ensures Ledger(costs, entry, Apply(costs, p, e), exits + ExitsOf(p, e))
  {
    match e
    case OnBar(bar, time) => BarKeepsLedger(costs, entry, p, exits, bar, time);
    case OnClose(time, price, reason, quantity, note) =>
      if p.IsOpen() {
        SaleKeepsLedger(costs, entry, p, exits, time, price, if quantity.Some? then quantity.value else p.remaining, reason, note);
      } else {
        assert exits + ExitsOf(p, e) == exits;
      }
      hide Ledger, WithLeg;
    case OnPartialMark =>
      TouchesKeepLedger(costs, entry, p, Marked(p), exits);
      assert exits + ExitsOf(p, e) == exits;
      hide Ledger;
  }

  lemma {:induction false} BooksAgree(costs: CostModel, o: Order, events: seq<Event>)
    ensures Ledger(costs, o.price, Replay(costs, o, events), AllExits(costs, o, events))
    ensures Fixed(costs, o, Replay(costs, o, events))
  {
    if events != [] {
      BooksAgree(costs, o, Front(events));
      ApplyKeepsLedger(costs, o.price, Replay(costs, o, Front(events)), AllExits(costs, o, Front(events)), Last(events));
      ApplyKeepsFixed(costs, o, Replay(costs, o, Front(events)), Last(events));
      hide Ledger, Fixed, Apply;
    }
  }

  /** What never changes after the entry. */
  ghost predicate Fixed(costs: CostModel, o: Order, p: Position) {
    && p.side == o.side && p.quantity == o.quantity && p.entryPrice == costs.EntryFill(o.price, o.side)
    && p.entryFees == costs.Commission(o.quantity) && p.contractSize == costs.contractSize && p.initialSl == o.sl
    && p.tp1 == o.tp1 && p.tp2 == o.tp2 && p.moveSlToBe == o.moveSlToBe
    && (p.sl == o.sl || p.sl == Some(p.entryPrice))
    && (o.quantity >= 0.0 ==> 0.0 <= p.remaining <= o.quantity)
  }

  lemma SaleKeepsFixed(costs: CostModel, o: Order, p: Position, time: nat, price: real, wanted: real, reason: ExitReason, note: Option<string>)
    requires Fixed(costs, o, p)
    ensures Fixed(costs, o, WithLeg(costs, p, time, price, wanted, reason, note))
  {
    hide LegGross;
  }

  lemma ApplyKeepsFixed(costs: CostModel, o: Order, p: Position, e: Event)
    requires Fixed(costs, o, p)
    ensures Fixed(costs, o, Apply(costs, p, e))
  {
    forall q: Position, time: nat, price: real, wanted: real, reason: ExitReason, note: Option<string> | Fixed(costs, o, q)
      ensures Fixed(costs, o, WithLeg(costs, q, time, price, wanted, reason, note))
    {
      SaleKeepsFixed(costs, o, q, time, price, wanted, reason, note);
    }
    hide WithLeg, RawFill, Touched, Tp1Size, CostModel.ExitFill;
  }

  // ------------------------------------------------------------ what follows

  function SizeOf(legs: seq<ClosedLeg>): real {
    if legs == [] then 0.0 else SizeOf(Front(legs)) + Last(legs).quantity
  }

  lemma {:induction false} SizesMatch(legs: seq<ClosedLeg>, exits: seq<Exit>)
    requires |legs| == |exits| && forall i :: 0 <= i < |exits| ==> legs[i].quantity == exits[i].quantity
    ensures SizeOf(legs) == Sold(exits)
  {
    if legs != [] {
      SizesMatch(Front(legs), Front(exits));
    }
  }

  /** Over any sequence of bars and closes: what was closed plus what is left is the entry, every
      leg closed something, and no close takes more than is left. */
  lemma SizeIsConserved(costs: CostModel, o: Order, events: seq<Event>)
    ensures var p := Replay(costs, o, events);
            && SizeOf(p.legs) + p.remaining == o.quantity
            && (o.quantity >= 0.0 ==> 0.0 <= p.remaining <= o.quantity)
            && (forall i :: 0 <= i < |p.legs| ==> p.legs[i].quantity > 0.0)
  {
    BooksAgree(costs, o, events);
    SizesMatch(Replay(costs, o, events).legs, AllExits(costs, o, events));
  }

  /** Adding the round trip on the whole entry and every fee back to the net gives the profit at the
      quoted prices, plus the round trip on whatever never traded out. */
  lemma CostsAreRecovered(costs: CostModel, o: Order, events: seq<Event>)
    ensures var p := Replay(costs, o, events);
            p.NetPnl() + o.quantity * costs.contractSize * RoundTrip(costs) + p.Fees()
            == costs.contractSize * RawPnl(AllExits(costs, o, events), o.price, o.side)
               + RoundTrip(costs) * costs.contractSize * p.remaining
  {
    BooksAgree(costs, o, events);
    var (p, exits) := (Replay(costs, o, events), AllExits(costs, o, events));
    var (cs, rt, sold, raw) := (costs.contractSize, RoundTrip(costs), Sold(exits), RawPnl(exits, o.price, o.side));
    hide RoundTrip, Replay, AllExits;
    assert o.quantity == sold + p.remaining;
    assert cs * (raw - rt * sold) + (sold + p.remaining) * cs * rt == cs * raw + rt * cs * p.remaining by {
      Regroup(cs, rt, raw, sold, p.remaining);
    }
  }

  lemma Regroup(cs: real, rt: real, raw: real, sold: real, left: real)
    ensures cs * (raw - rt * sold) + (sold + left) * cs * rt == cs * raw + rt * cs * left
  {
  }

  /** So the report's cost split is exact for a trade precisely when nothing is left of it, or
      trading is free. A trade can count as closed and still leave dust. */
  lemma CostSplitIsExactIff(costs: CostModel, o: Order, events: seq<Event>)
    ensures var p := Replay(costs, o, events);
            p.NetPnl() + o.quantity * costs.contractSize * RoundTrip(costs) + p.Fees()
            == costs.contractSize * RawPnl(AllExits(costs, o, events), o.price, o.side)
            <==> p.remaining == 0.0 || RoundTrip(costs) == 0.0 || costs.contractSize == 0.0
  {
    CostsAreRecovered(costs, o, events);
    ZeroProduct(RoundTrip(costs), costs.contractSize, Replay(costs, o, events).remaining);
    hide RoundTrip, Replay, AllExits;
  }

  lemma ZeroProduct(a: real, b: real, c: real)
    ensures a * b * c == 0.0 <==> a == 0.0 || b == 0.0 || c == 0.0
  {
    if a != 0.0 && b != 0.0 && c != 0.0 {
      assert a * b != 0.0;
    }
  }

  /** A close that leaves half of the dust threshold behind: the trade is over, the split is not exact. */
  lemma DustBreaksTheCostSplit()
    ensures var costs := CostModel(1.0, 0.0, 0.0, 1.0);
            var o := Order(Long, 0, 100.0, 1.0, None, None, None, None, false, "A");
            var events := [OnClose(1, 110.0, Flat, Some(1.0 - DUST / 2.0), None)];
            && !Replay(costs, o, events).IsOpen() && Replay(costs, o, events).remaining != 0.0
            && Replay(costs, o, events).NetPnl() + o.quantity * costs.contractSize * RoundTrip(costs) + Replay(costs, o, events).Fees()
               != costs.contractSize * RawPnl(AllExits(costs, o, events), o.price, o.side)
  {
    var costs := CostModel(1.0, 0.0, 0.0, 1.0);
    var o := Order(Long, 0, 100.0, 1.0, None, None, None, None, false, "A");
    var events := [OnClose(1, 110.0, Flat, Some(1.0 - DUST / 2.0), None)];
    assert Front(events) == [];
    assert Replay(costs, o, events).remaining == DUST / 2.0;
    CostSplitIsExactIff(costs, o, events);
  }

  predicate WellFormed(bar: Ohlc) {
    bar.low <= bar.open <= bar.high
  }

  /** What is left of a quoted price inside the bar's range once spread and slippage are taken. */
  ghost predicate TradedIn(costs: CostModel, price: real, side: Side, bar: Ohlc) {
    exists raw :: bar.low <= raw <= bar.high && price == costs.ExitFill(raw, side)
  }

  lemma TouchedLevelIsInTheBar(costs: CostModel, level: Option<real>, side: Side, bar: Ohlc, isStop: bool)
    requires WellFormed(bar) && Touched(level, side, bar, isStop)
    ensures TradedIn(costs, FillLevel(costs, level.value, side, bar, isStop), side, bar)
  {
    hide CostModel.ExitFill;
  }

  /** Every leg a bar books, at the stop or at either target, gap or no gap, was sold at a price the bar
      really traded at. */
  lemma BracketFillsInsideTheBar(costs: CostModel, p: Position, bar: Ohlc, time: nat)
    requires WellFormed(bar)
    ensures var q := AfterBar(costs, p, bar, time);
            && |p.legs| <= |q.legs| && q.legs[..|p.legs|] == p.legs
            && forall i :: |p.legs| <= i < |q.legs| ==>
                 q.legs[i].closedAt == time && TradedIn(costs, q.legs[i].price, p.side, bar)
  {
    hide TradedIn, FillLevel, LegGross, CostModel.Commission;
    if Touched(p.sl, p.side, bar, true) {
      TouchedLevelIsInTheBar(costs, p.sl, p.side, bar, true);
    }
    if Touched(p.tp1, p.side, bar, false) {
      TouchedLevelIsInTheBar(costs, p.tp1, p.side, bar, false);
    }
    if Touched(p.tp2, p.side, bar, false) {
      TouchedLevelIsInTheBar(costs, p.tp2, p.side, bar, false);
    }
  }

  // ------------------------------------------------------------ excursion

  /** The bars the position was open for, the one that closed it included. */
  function BarsLived(costs: CostModel, o: Order, events: seq<Event>): seq<Ohlc> {
    if events == [] then []
    else
      var e := Last(events);
      BarsLived(costs, o, Front(events))
      + if e.OnBar? && Replay(costs, o, Front(events)).IsOpen() then [e.bar] else []
  }

  function Adverse(side: Side, bar: Ohlc): real { if side.Long? then bar.low else bar.high }

  function Favourable(side: Side, bar: Ohlc): real { if side.Long? then bar.high else bar.low }

  /** The price is the entry or was reached by one of the bars, and none of them went beyond it. */
  ghost predicate IsExtreme(price: real, entry: real, side: Side, bars: seq<Ohlc>, adverse: bool) {
    && (price == entry || exists i :: 0 <= i < |bars| && price == (if adverse then Adverse(side, bars[i]) else Favourable(side, bars[i])))
    && (entry - price) * side.Sign() * (if adverse then 1.0 else -1.0) >= 0.0
    && (forall i :: 0 <= i < |bars| ==>
          if adverse then (Adverse(side, bars[i]) - price) * side.Sign() >= 0.0
          else (price - Favourable(side, bars[i])) * side.Sign() >= 0.0)
  }

  ghost predicate Excursion(p: Position, bars: seq<Ohlc>) {
    && p.barsHeld == |bars|
    && IsExtreme(p.worstPrice, p.entryPrice, p.side, bars, true)
    && IsExtreme(p.bestPrice, p.entryPrice, p.side, bars, false)
  }

  lemma ExtremeOfOneMore(price: real, entry: real, side: Side, bars: seq<Ohlc>, bar: Ohlc, adverse: bool)
    requires IsExtreme(price, entry, side, bars, adverse)
    ensures var reached := if adverse then Adverse(side, bar) else Favourable(side, bar);
            var next := if side.Long? == adverse then Min(price, reached) else Max(price, reached);
            IsExtreme(next, entry, side, bars + [bar], adverse)
  {
    var more := bars + [bar];
    assert more[|bars|] == bar;
    assert forall i :: 0 <= i < |bars| ==> more[i] == bars[i];
  }

  lemma SeeingKeepsExcursion(p: Position, bars: seq<Ohlc>, bar: Ohlc)
    requires Excursion(p, bars)
    ensures Excursion(WithExcursion(p, bar), bars + [bar])
  {
    hide IsExtreme;
    ExtremeOfOneMore(p.worstPrice, p.entryPrice, p.side, bars, bar, true);
    ExtremeOfOneMore(p.bestPrice, p.entryPrice, p.side, bars, bar, false);
  }

  predicate SameExcursion(p: Position, q: Position) {
    q.barsHeld == p.barsHeld && q.worstPrice == p.worstPrice && q.bestPrice == p.bestPrice
    && q.entryPrice == p.entryPrice && q.side == p.side
  }

  lemma FillsKeepExcursion(costs: CostModel, p: Position, bar: Ohlc, time: nat)
    requires p.IsOpen()
    ensures SameExcursion(WithExcursion(p, bar), AfterBar(costs, p, bar, time))
  {
    hide LegGross, FillLevel, Tp1Size;
  }

  lemma OtherEventsKeepExcursion(costs: CostModel, p: Position, e: Event)
    requires e.OnBar? ==> !p.IsOpen()
    ensures SameExcursion(p, Apply(costs, p, e))
  {
    hide LegGross;
  }

  /** The worst and best price of a trade are the extremes of the entry and every bar it lived
      through, the bar that closed it included, and the bars held are counted one by one. */
  lemma {:induction false} ExcursionIsTheRangeLivedThrough(costs: CostModel, o: Order, events: seq<Event>)
    ensures Excursion(Replay(costs, o, events), BarsLived(costs, o, events))
  {
    if events != [] {
      ExcursionIsTheRangeLivedThrough(costs, o, Front(events));
      var (p, bars, e) := (Replay(costs, o, Front(events)), BarsLived(costs, o, Front(events)), Last(events));
      hide IsExtreme, Apply, WithExcursion;
      if e.OnBar? && p.IsOpen() {
        SeeingKeepsExcursion(p, bars, e.bar);
        FillsKeepExcursion(costs, p, e.bar, e.time);
        ApplyingABar(costs, p, e);
      } else {
        OtherEventsKeepExcursion(costs, p, e);
        assert BarsLived(costs, o, events) == bars;
      }
    }
  }

  lemma ApplyingABar(costs: CostModel, p: Position, e: Event)
    requires e.OnBar?
    ensures Apply(costs, p, e) == AfterBar(costs, p, e.bar, e.time)
  {
  }

  // ------------------------------------------------------------ stop before target is a lower bound

  datatype Level = Stop | Target1 | Target2

  predicate Reached(p: Position, bar: Ohlc, lv: Level) {
    match lv
    case Stop => Touched(p.sl, p.side, bar, true)
    case Target1 => Touched(p.tp1, p.side, bar, false) && !p.tp1Filled
    case Target2 => Touched(p.tp2, p.side, bar, false)
  }

  function FillOne(costs: CostModel, q: Position, bar: Ohlc, time: nat, lv: Level): Position {
    match lv
    case Stop => if q.sl.Some? then StopFilled(costs, q, bar, time) else q
    case Target1 => if q.tp1.Some? && !q.tp1Filled then Tp1Taken(costs, q, bar, time) else q
    case Target2 => if q.tp2.Some? then Tp2Taken(costs, q, bar, time) else q
  }

  /** The bar's touched levels, filled one after another in the given order. */
  function FillInOrder(costs: CostModel, p: Position, bar: Ohlc, time: nat, order: seq<Level>): Position {
    if order == [] then p
    else FillOne(costs, FillInOrder(costs, p, bar, time, Front(order)), bar, time, Last(order))
  }

  /** The stop is not on the profit side of the entry, so moving it to breakeven never worsens it. */
  predicate StopBehindEntry(p: Position) {
    p.sl.Some? ==> (p.entryPrice - p.sl.value) * p.side.Sign() >= 0.0
  }

  /** What one unit makes when it trades out at a raw price. */
  function PerUnit(costs: CostModel, p: Position, raw: real): real {
    LegGross(costs.ExitFill(raw, p.side), p.entryPrice, p.side, 1.0, costs.contractSize) - costs.Commission(1.0)
  }

  /** Net profit if whatever is left were closed at the given raw price. */
  function MarkedAt(costs: CostModel, p: Position, raw: real): real {
    p.NetPnl() + p.remaining * PerUnit(costs, p, raw)
  }

  /** raw is at least as good as floor for this side. */
  predicate NoWorse(side: Side, raw: real, floor: real) {
    (raw - floor) * side.Sign() >= 0.0
  }

  lemma NetOfOneMoreLeg(costs: CostModel, p: Position, time: nat, raw: real, wanted: real, reason: ExitReason, note: Option<string>)
    requires Min(wanted, p.remaining) > 0.0
    ensures var q := WithLeg(costs, p, time, costs.ExitFill(raw, p.side), wanted, reason, note);
            q.NetPnl() == p.NetPnl() + Min(wanted, p.remaining) * PerUnit(costs, p, raw)
  {
    var q := WithLeg(costs, p, time, costs.ExitFill(raw, p.side), wanted, reason, note);
    assert Front(q.legs) == p.legs;
    var (x, n) := (costs.ExitFill(raw, p.side), Min(wanted, p.remaining));
    assert LegGross(x, p.entryPrice, p.side, n, costs.contractSize) == n * LegGross(x, p.entryPrice, p.side, 1.0, costs.contractSize);
    assert costs.Commission(n) == n * costs.Commission(1.0);
  }

  lemma BetterPriceIsBetter(costs: CostModel, p: Position, raw: real, floor: real)
    requires costs.contractSize >= 0.0 && NoWorse(p.side, raw, floor)
    ensures PerUnit(costs, p, raw) >= PerUnit(costs, p, floor)
  {
    var d := (raw - floor) * p.side.Sign();
    assert PerUnit(costs, p, raw) - PerUnit(costs, p, floor) == d * costs.contractSize;
  }

  lemma SaleNoWorse(costs: CostModel, p: Position, time: nat, raw: real, wanted: real, reason: ExitReason, floor: real)
    requires costs.contractSize >= 0.0 && NoWorse(p.side, raw, floor)
    ensures MarkedAt(costs, WithLeg(costs, p, time, costs.ExitFill(raw, p.side), wanted, reason, None), floor) >= MarkedAt(costs, p, floor)
  {
    var n := Min(wanted, p.remaining);
    var q := WithLeg(costs, p, time, costs.ExitFill(raw, p.side), wanted, reason, None);
    if n > 0.0 {
      NetOfOneMoreLeg(costs, p, time, raw, wanted, reason, None);
      BetterPriceIsBetter(costs, p, raw, floor);
      assert PerUnit(costs, q, floor) == PerUnit(costs, p, floor);
      var (a, b) := (PerUnit(costs, p, raw), PerUnit(costs, p, floor));
      hide PerUnit;
      assert n * a >= n * b;
      assert (p.remaining - n) * b + n * a >= p.remaining * b;
    }
  }

  /** Stops fill on the losing side of the open and targets on the winning side. */
  lemma StopFillIsWorst(side: Side, stop: real, level: real, bar: Ohlc)
    ensures NoWorse(side, RawFill(level, side, bar, false), RawFill(stop, side, bar, true))
    ensures (level - stop) * side.Sign() >= 0.0 ==>
              NoWorse(side, RawFill(level, side, bar, true), RawFill(stop, side, bar, true))
  {
  }

  ghost predicate SamePlan(p: Position, q: Position) {
    && q.side == p.side && q.entryPrice == p.entryPrice && q.tp1 == p.tp1 && q.tp2 == p.tp2
    && q.moveSlToBe == p.moveSlToBe && (q.sl == p.sl || (q.sl == Some(p.entryPrice) && p.moveSlToBe))
  }

  lemma FillKeepsPlan(costs: CostModel, p: Position, q: Position, bar: Ohlc, time: nat, lv: Level)
    requires SamePlan(p, q) && p.sl.Some?
    ensures SamePlan(p, FillOne(costs, q, bar, time, lv))
  {
    hide LegGross, RawFill, Tp1Size, CostModel.ExitFill, CostModel.Commission;
  }

  lemma MarkIgnoresPlan(costs: CostModel, q: Position, r: Position, floor: real)
    requires r == q.(sl := r.sl, tp1Filled := r.tp1Filled)
    ensures MarkedAt(costs, r, floor) == MarkedAt(costs, q, floor)
  {
  }

  lemma OneFillIsNoWorse(costs: CostModel, p: Position, q: Position, bar: Ohlc, time: nat, lv: Level)
    requires costs.contractSize >= 0.0 && p.sl.Some? && (p.moveSlToBe ==> StopBehindEntry(p)) && SamePlan(p, q)
    ensures SamePlan(p, FillOne(costs, q, bar, time, lv))
    ensures MarkedAt(costs, FillOne(costs, q, bar, time, lv), RawFill(p.sl.value, p.side, bar, true))
         >= MarkedAt(costs, q, RawFill(p.sl.value, p.side, bar, true))
  {
    FillKeepsPlan(costs, p, q, bar, time, lv);
    hide PerUnit, RawFill, CostModel.ExitFill, WithLeg, MarkedAt, NoWorse, Tp1Size;
    var floor := RawFill(p.sl.value, p.side, bar, true);
    match lv
    case Stop =>
      StopFillIsWorst(p.side, p.sl.value, q.sl.value, bar);
      SaleNoWorse(costs, q, time, RawFill(q.sl.value, q.side, bar, true), q.remaining,
                  if q.tp1Filled && q.moveSlToBe then RSl else Sl, floor);
    case Target1 =>
      if q.tp1.Some? && !q.tp1Filled {
        var raw := RawFill(q.tp1.value, q.side, bar, false);
        StopFillIsWorst(p.side, p.sl.value, q.tp1.value, bar);
        SaleNoWorse(costs, q, time, raw, Tp1Size(q), Tp1, floor);
        var r := WithLeg(costs, q, time, costs.ExitFill(raw, q.side), Tp1Size(q), Tp1, None);
        MarkIgnoresPlan(costs, r, Tp1Taken(costs, q, bar, time), floor);
      }
    case Target2 =>
      if q.tp2.Some? {
        StopFillIsWorst(p.side, p.sl.value, q.tp2.value, bar);
        SaleNoWorse(costs, q, time, RawFill(q.tp2.value, q.side, bar, false), q.remaining, Tp2, floor);
      }
  }

  /** However the touched levels are ordered, the position marked at the stop is worth no less. */
  lemma {:induction false} AnyOrderIsNoWorse(costs: CostModel, p: Position, bar: Ohlc, time: nat, order: seq<Level>)
    requires costs.contractSize >= 0.0 && p.sl.Some? && (p.moveSlToBe ==> StopBehindEntry(p))
    ensures SamePlan(p, FillInOrder(costs, p, bar, time, order))
    ensures MarkedAt(costs, FillInOrder(costs, p, bar, time, order), RawFill(p.sl.value, p.side, bar, true))
         >= MarkedAt(costs, p, RawFill(p.sl.value, p.side, bar, true))
  {
    if order != [] {
      AnyOrderIsNoWorse(costs, p, bar, time, Front(order));
      hide MarkedAt, RawFill, FillOne, SamePlan;
      OneFillIsNoWorse(costs, p, FillInOrder(costs, p, bar, time, Front(order)), bar, time, Last(order));
    }
  }

  lemma {:induction false} OrderWithStopEndsFlat(costs: CostModel, p: Position, bar: Ohlc, time: nat, order: seq<Level>)
    requires p.sl.Some? && p.remaining >= 0.0
    ensures FillInOrder(costs, p, bar, time, order).remaining >= 0.0
    ensures FillInOrder(costs, p, bar, time, order).sl.Some?
    ensures Stop in order ==> FillInOrder(costs, p, bar, time, order).remaining == 0.0
  {
    if order != [] {
      OrderWithStopEndsFlat(costs, p, bar, time, Front(order));
      assert order == Front(order) + [Last(order)];
      hide LegGross, RawFill, Tp1Size, CostModel.ExitFill, CostModel.Commission;
    }
  }

  lemma ExcursionKeepsMark(costs: CostModel, p: Position, bar: Ohlc, raw: real)
    ensures MarkedAt(costs, WithExcursion(p, bar), raw) == MarkedAt(costs, p, raw)
  {
    assert PerUnit(costs, WithExcursion(p, bar), raw) == PerUnit(costs, p, raw);
    hide PerUnit;
  }

  lemma SellingOutBooksTheMark(costs: CostModel, p: Position, time: nat, raw: real, reason: ExitReason)
    requires p.remaining > 0.0
    ensures var q := WithLeg(costs, p, time, costs.ExitFill(raw, p.side), p.remaining, reason, None);
            q.remaining == 0.0 && q.NetPnl() == MarkedAt(costs, p, raw)
  {
    NetOfOneMoreLeg(costs, p, time, raw, p.remaining, reason, None);
    hide PerUnit, LegGross, CostModel.ExitFill, CostModel.Commission, Position.NetPnl;
  }

  /** Stopping out everything is worth exactly the mark at the stop. */
  lemma StopBooksTheMark(costs: CostModel, p: Position, bar: Ohlc, time: nat)
    requires p.IsOpen() && Touched(p.sl, p.side, bar, true)
    ensures AfterBar(costs, p, bar, time).remaining == 0.0
    ensures AfterBar(costs, p, bar, time).NetPnl() == MarkedAt(costs, p, RawFill(p.sl.value, p.side, bar, true))
  {
    var raw := RawFill(p.sl.value, p.side, bar, true);
    ExcursionKeepsMark(costs, p, bar, raw);
    hide MarkedAt, RawFill, CostModel.ExitFill, WithLeg, Position.NetPnl;
    SellingOutBooksTheMark(costs, WithExcursion(p, bar), time, raw, if p.tp1Filled && p.moveSlToBe then RSl else Sl);
  }

  lemma FlatMarkIsNet(costs: CostModel, p: Position, raw: real)
    requires p.remaining == 0.0
    ensures MarkedAt(costs, p, raw) == p.NetPnl()
  {
    hide PerUnit;
  }

  /** When a bar touches the stop, what process_bar books is no more than any order of filling the
      touched levels would have: partial first target, breakeven move and gap opens included. */
  lemma StopFirstIsALowerBound(costs: CostModel, p: Position, bar: Ohlc, time: nat, order: seq<Level>)
    requires p.IsOpen() && Reached(p, bar, Stop) && costs.contractSize >= 0.0
    requires p.moveSlToBe ==> StopBehindEntry(p)
    requires Stop in order && forall lv :: lv in order ==> Reached(p, bar, lv)
    ensures AfterBar(costs, p, bar, time).remaining == 0.0 == FillInOrder(costs, p, bar, time, order).remaining
    ensures AfterBar(costs, p, bar, time).NetPnl() <= FillInOrder(costs, p, bar, time, order).NetPnl()
  {
    AnyOrderIsNoWorse(costs, p, bar, time, order);
    OrderWithStopEndsFlat(costs, p, bar, time, order);
    StopBooksTheMark(costs, p, bar, time);
    FlatMarkIsNet(costs, FillInOrder(costs, p, bar, time, order), RawFill(p.sl.value, p.side, bar, true));
    hide *;
  }

  /** What the entry check lets through: a size, a stop not on the winning side of the price, and
      targets not on the losing side. */
  predicate IsChecked(o: Order) {
    && o.quantity > 0.0
    && (o.sl.Some? ==> (o.sl.value - o.price) * o.side.Sign() <= 0.0)
    && (o.tp1.Some? ==> (o.tp1.value - o.price) * o.side.Sign() >= 0.0)
    && (o.tp2.Some? ==> (o.tp2.value - o.price) * o.side.Sign() >= 0.0)
  }

  /** The bracket check at the entry (a stop on the losing side) is all the bound needs: it holds
      after any history, for costs that are not negative. */
  lemma CheckedBracketsKeepTheBound(costs: CostModel, o: Order, events: seq<Event>)
    requires costs.HalfTurn() >= 0.0 && (o.sl.Some? ==> (o.sl.value - o.price) * o.side.Sign() <= 0.0)
    ensures StopBehindEntry(Replay(costs, o, events))
  {
    BooksAgree(costs, o, events);
    hide Replay, AllExits, Ledger;
    var p := Replay(costs, o, events);
    assert (costs.EntryFill(o.price, o.side) - o.price) * o.side.Sign() == costs.HalfTurn();
  }

  lemma OneLeg(leg: ClosedLeg)
    ensures GrossOf([leg]) == leg.grossPnl && FeesOf([leg]) == leg.fees
  {
    assert Front([leg]) == [];
  }

  lemma TwoLegs(one: ClosedLeg, two: ClosedLeg)
    ensures GrossOf([one, two]) == one.grossPnl + two.grossPnl && FeesOf([one, two]) == one.fees + two.fees
  {
    OneLeg(one);
    assert Front([one, two]) == [one];
  }

  const FREE := CostModel(0.0, 0.0, 0.0, 1.0)
  const RAISED_STOP := Position(Long, 0, 100.0, 1.0, Some(110.0), Some(112.0), None, Some(50.0), true, "A", 0.0, 1.0, [], false,
                                Some(110.0), 100.0, 100.0, 0, 1.0)
  const WIDE_BAR := Ohlc(111.0, 113.0, 99.0, 105.0)

  /** Without costs a leg of a long trades at the raw price and makes the difference. */
  lemma FreeLeg(p: Position, time: nat, raw: real, wanted: real, reason: ExitReason)
    requires p.side == Long && 0.0 < wanted <= p.remaining
    ensures WithLeg(FREE, p, time, FREE.ExitFill(raw, Long), wanted, reason, None)
         == p.(legs := p.legs + [ClosedLeg(time, raw, wanted, reason, (raw - p.entryPrice) * wanted, 0.0, None)],
               remaining := p.remaining - wanted)
  {
    assert FREE.ExitFill(raw, Long) == raw;
    assert FREE.Commission(wanted) == 0.0;
    assert LegGross(raw, p.entryPrice, Long, wanted, 1.0) == (raw - p.entryPrice) * wanted;
    hide LegGross, CostModel.Commission, CostModel.ExitFill;
  }

  const HALF_OUT := RAISED_STOP.(legs := [ClosedLeg(0, 112.0, 0.5, Tp1, 6.0, 0.0, None)], remaining := 0.5,
                                 tp1Filled := true, sl := Some(100.0))

  lemma TargetFirst()
    ensures FillOne(FREE, RAISED_STOP, WIDE_BAR, 0, Target1) == HALF_OUT
  {
    FreeLeg(RAISED_STOP, 0, 112.0, 0.5, Tp1);
    assert Tp1Size(RAISED_STOP) == 0.5;
    hide WithLeg, CostModel.ExitFill, Tp1Size;
  }

  const BREAKEVEN := ClosedLeg(0, 100.0, 0.5, RSl, 0.0, 0.0, None)

  lemma ThenBreakeven()
    ensures FillOne(FREE, HALF_OUT, WIDE_BAR, 0, Stop) == HALF_OUT.(legs := HALF_OUT.legs + [BREAKEVEN], remaining := 0.0)
  {
    FreeLeg(HALF_OUT, 0, 100.0, 0.5, RSl);
    hide WithLeg, CostModel.ExitFill;
  }

  lemma BreakevenNet()
    ensures HALF_OUT.(legs := HALF_OUT.legs + [BREAKEVEN], remaining := 0.0).NetPnl() == 6.0
  {
    TwoLegs(HALF_OUT.legs[0], BREAKEVEN);
    assert HALF_OUT.legs + [BREAKEVEN] == [HALF_OUT.legs[0], BREAKEVEN];
    hide GrossOf, FeesOf;
  }

  lemma TargetThenBreakeven()
    ensures FillInOrder(FREE, RAISED_STOP, WIDE_BAR, 0, [Target1, Stop]).NetPnl() == 6.0
  {
    TargetFirst();
    ThenBreakeven();
    BreakevenNet();
    hide FillOne, Position.NetPnl;
    assert Front([Target1, Stop]) == [Target1] && Front([Target1]) == [];
  }

  lemma StopOutright()
    ensures AfterBar(FREE, RAISED_STOP, WIDE_BAR, 0).NetPnl() == 10.0
  {
    FreeLeg(WithExcursion(RAISED_STOP, WIDE_BAR), 0, 110.0, 1.0, Sl);
    OneLeg(ClosedLeg(0, 110.0, 1.0, Sl, 10.0, 0.0, None));
    hide WithLeg, CostModel.ExitFill, GrossOf, FeesOf;
  }

  /** A stop moved above a long's entry is outside that check, and there the bound fails: filling the
      target first and then breakeven books less. */
  lemma StopBeyondEntryBreaksTheBound()
    ensures !StopBehindEntry(RAISED_STOP) && Reached(RAISED_STOP, WIDE_BAR, Stop) && Reached(RAISED_STOP, WIDE_BAR, Target1)
    ensures AfterBar(FREE, RAISED_STOP, WIDE_BAR, 0).NetPnl()
          > FillInOrder(FREE, RAISED_STOP, WIDE_BAR, 0, [Target1, Stop]).NetPnl()
  {
    TargetThenBreakeven();
    StopOutright();
    hide AfterBar, FillInOrder;
  }
}
