/** What each event books on a position, in full and in plain arithmetic: which legs, at which price and
    size, and what every leg costs. The laws of a fill are in ExecutionLaws; this is what they are about. */
module ExecutionFills {
  import opened Prelude
  import opened Execution
  import opened ExecutionLaws

  /** One leg, sold at this quoted price: spread and slippage against it, commission on its size. */
  predicate Books(costs: CostModel, p: Position, leg: ClosedLeg, time: nat, raw: real, quantity: real, reason: ExitReason) {
    && leg.closedAt == time && leg.quantity == quantity && leg.reason == reason
    && leg.price == (if p.side.Long? then raw - (costs.spread / 2.0 + costs.slippage) else raw + costs.spread / 2.0 + costs.slippage)
    && leg.grossPnl == (if p.side.Long? then leg.price - p.entryPrice else p.entryPrice - leg.price) * quantity * costs.contractSize
    && leg.fees == (if quantity < 0.0 then -quantity else quantity) * costs.contractSize * costs.commissionPerUnit
  }

  /** A stop is reached from above by a long and from below by a short; a target the other way round. */
  predicate StopReached(p: Position, bar: Ohlc) {
    p.sl.Some? && (if p.side.Long? then bar.low <= p.sl.value else p.sl.value <= bar.high)
  }

  predicate TargetReached(side: Side, target: Option<real>, bar: Ohlc) {
    target.Some? && (if side.Long? then target.value <= bar.high else bar.low <= target.value)
  }

  /** A stop trades at the worse of its level and the open, a target at the better. */
  function StopPrice(p: Position, bar: Ohlc): real
    requires p.sl.Some?
  {
    if p.side.Long? then Min(p.sl.value, bar.open) else Max(p.sl.value, bar.open)
  }

  function TargetPrice(side: Side, target: real, bar: Ohlc): real {
    if side.Long? then Max(target, bar.open) else Min(target, bar.open)
  }

  /** The worst and best price so far, and the bars lived through. */
  predicate LivedThrough(p: Position, q: Position, bar: Ohlc) {
    && q.barsHeld == p.barsHeld + 1
    && (p.side.Long? ==> q.worstPrice == Min(p.worstPrice, bar.low) && q.bestPrice == Max(p.bestPrice, bar.high))
    && (p.side.Short? ==> q.worstPrice == Max(p.worstPrice, bar.high) && q.bestPrice == Min(p.bestPrice, bar.low))
  }

  lemma TouchIsReached(p: Position, bar: Ohlc)
    ensures Touched(p.sl, p.side, bar, true) <==> StopReached(p, bar)
    ensures Touched(p.tp1, p.side, bar, false) <==> TargetReached(p.side, p.tp1, bar)
    ensures Touched(p.tp2, p.side, bar, false) <==> TargetReached(p.side, p.tp2, bar)
    ensures p.sl.Some? ==> RawFill(p.sl.value, p.side, bar, true) == StopPrice(p, bar)
    ensures p.tp1.Some? ==> RawFill(p.tp1.value, p.side, bar, false) == TargetPrice(p.side, p.tp1.value, bar)
    ensures p.tp2.Some? ==> RawFill(p.tp2.value, p.side, bar, false) == TargetPrice(p.side, p.tp2.value, bar)
  {
  }

  lemma SaleBooks(costs: CostModel, p: Position, time: nat, raw: real, wanted: real, reason: ExitReason, note: Option<string>)
    ensures var (q, n) := (WithLeg(costs, p, time, costs.ExitFill(raw, p.side), wanted, reason, note), Min(wanted, p.remaining));
            && q == p.(legs := q.legs, remaining := q.remaining)
            && (n <= 0.0 ==> q == p)
            && (n > 0.0 ==> |q.legs| == |p.legs| + 1 && q.legs[..|p.legs|] == p.legs && q.remaining == p.remaining - n
                            && Last(q.legs).note == note && Books(costs, p, Last(q.legs), time, raw, n, reason))
  {
    var n := Min(wanted, p.remaining);
    if n > 0.0 {
      var x := costs.ExitFill(raw, p.side);
      assert x == (if p.side.Long? then raw - (costs.spread / 2.0 + costs.slippage) else raw + costs.spread / 2.0 + costs.slippage);
      assert LegGross(x, p.entryPrice, p.side, n, costs.contractSize)
          == (if p.side.Long? then x - p.entryPrice else p.entryPrice - x) * n * costs.contractSize by {
        SignedDifference(x, p.entryPrice, p.side);
      }
      hide LegGross, CostModel.ExitFill;
    }
  }

  lemma SignedDifference(x: real, entry: real, side: Side)
    ensures (x - entry) * side.Sign() == if side.Long? then x - entry else entry - x
  {
  }

  /** Everything that is left sold at the stop, and nothing else, however far the targets were reached too. */
  predicate StopTaken(costs: CostModel, p: Position, q: Position, bar: Ohlc, time: nat)
    requires p.sl.Some?
  {
    && q.legs != [] && q.legs == p.legs + [Last(q.legs)] && q.remaining == 0.0 && LivedThrough(p, q, bar)
    && Last(q.legs).note == None
    && Books(costs, p, Last(q.legs), time, StopPrice(p, bar), p.remaining, if p.tp1Filled && p.moveSlToBe then RSl else Sl)
    && q == p.(legs := q.legs, remaining := 0.0, barsHeld := q.barsHeld, worstPrice := q.worstPrice, bestPrice := q.bestPrice)
  }

  /** A bar whose range reaches the stop. */
  lemma AStopSellsEverything(costs: CostModel, p: Position, bar: Ohlc, time: nat)
    requires p.IsOpen() && StopReached(p, bar)
    ensures StopTaken(costs, p, AfterBar(costs, p, bar, time), bar, time)
  {
    hide WithLeg, Books;
    TouchIsReached(p, bar);
    SaleBooks(costs, WithExcursion(p, bar), time, StopPrice(p, bar), p.remaining, if p.tp1Filled && p.moveSlToBe then RSl else Sl, None);
    SameBooks(costs, p, WithExcursion(p, bar));
  }

  lemma SameBooks(costs: CostModel, p: Position, seen: Position)
    requires seen.side == p.side && seen.entryPrice == p.entryPrice
    ensures forall leg: ClosedLeg, time: nat, raw: real, quantity: real, reason: ExitReason ::
              Books(costs, seen, leg, time, raw, quantity, reason) <==> Books(costs, p, leg, time, raw, quantity, reason)
  {
  }

  /** The part of the entry the first target takes: the configured share, all of it when none is, and never
      more than is left. */
  function FirstShare(p: Position): real {
    Min(p.remaining, if p.tp1Percent.None? || p.tp1Percent.value == 0.0 then p.quantity else p.quantity * p.tp1Percent.value / 100.0)
  }

  lemma ShareIsTp1Size(p: Position)
    ensures Tp1Size(p) == FirstShare(p)
  {
  }

  /** What the first target leaves: its share is sold, it is not taken again, and the stop may move to the
      entry fill. */
  predicate FirstTargetTaken(costs: CostModel, p: Position, q: Position, bar: Ohlc, time: nat)
    requires p.tp1.Some?
  {
    var n := FirstShare(p);
    && q.tp1Filled && q.sl == (if p.moveSlToBe then Some(p.entryPrice) else p.sl)
    && (n <= 0.0 ==> q.legs == p.legs && q.remaining == p.remaining)
    && (n > 0.0 ==> q.legs != [] && q.legs == p.legs + [Last(q.legs)] && q.remaining == p.remaining - n
                    && Last(q.legs).note == None
                    && Books(costs, p, Last(q.legs), time, TargetPrice(p.side, p.tp1.value, bar), n, Tp1))
    && q == p.(legs := q.legs, remaining := q.remaining, tp1Filled := true, sl := q.sl)
  }

  lemma TakingIsTaken(costs: CostModel, p: Position, bar: Ohlc, time: nat)
    requires p.tp1.Some?
    ensures FirstTargetTaken(costs, p, Tp1Taken(costs, p, bar, time), bar, time)
  {
    hide WithLeg, Books;
    TouchIsReached(p, bar);
    ShareIsTp1Size(p);
    SaleBooks(costs, p, time, TargetPrice(p.side, p.tp1.value, bar), FirstShare(p), Tp1, None);
  }

  /** What is left goes at the second target. */
  predicate SecondTargetTaken(costs: CostModel, p: Position, q: Position, bar: Ohlc, time: nat)
    requires p.tp2.Some?
  {
    && q.legs != [] && q.legs == p.legs + [Last(q.legs)] && q.remaining == 0.0 && Last(q.legs).note == None
    && Books(costs, p, Last(q.legs), time, TargetPrice(p.side, p.tp2.value, bar), p.remaining, Tp2)
    && q == p.(legs := q.legs, remaining := 0.0)
  }

  lemma SecondIsTaken(costs: CostModel, p: Position, bar: Ohlc, time: nat)
    requires p.tp2.Some? && p.remaining > 0.0
    ensures SecondTargetTaken(costs, p, Tp2Taken(costs, p, bar, time), bar, time)
  {
    hide WithLeg, Books;
    TouchIsReached(p, bar);
    SaleBooks(costs, p, time, TargetPrice(p.side, p.tp2.value, bar), p.remaining, Tp2, None);
  }

  /** The targets a bar reached: the first takes its share, once in the life of a position; then, if more
      than dust is left, the second takes the rest; otherwise the bar only counts. */
  predicate TargetsTaken(costs: CostModel, p: Position, first: Position, q: Position, bar: Ohlc, time: nat) {
    var seen := p.(barsHeld := q.barsHeld, worstPrice := q.worstPrice, bestPrice := q.bestPrice);
    && LivedThrough(p, q, bar)
    && (if !p.tp1Filled && TargetReached(p.side, p.tp1, bar) then FirstTargetTaken(costs, seen, first, bar, time) else first == seen)
    && first.tp2 == p.tp2
    && (if first.remaining > DUST && TargetReached(p.side, p.tp2, bar)
        then SecondTargetTaken(costs, first, q, bar, time) else q == first)
  }

  /** A bar that does not reach the stop. */
  lemma TargetsSellTheirShares(costs: CostModel, p: Position, bar: Ohlc, time: nat)
    requires p.IsOpen() && !StopReached(p, bar)
    ensures exists first :: TargetsTaken(costs, p, first, AfterBar(costs, p, bar, time), bar, time)
  {
    hide WithLeg, Books, Tp1Taken, Tp2Taken, FirstShare;
    TouchIsReached(p, bar);
    var seen := WithExcursion(p, bar);
    var taken := !p.tp1Filled && TargetReached(p.side, p.tp1, bar);
    if taken {
      TakingIsTaken(costs, seen, bar, time);
    }
    var first := if taken then Tp1Taken(costs, seen, bar, time) else seen;
    if first.remaining > DUST && TargetReached(p.side, p.tp2, bar) {
      SecondIsTaken(costs, first, bar, time);
    }
    assert TargetsTaken(costs, p, first, AfterBar(costs, p, bar, time), bar, time);
  }

  /** What a bar makes of an open position: the stop before any target. */
  ghost predicate Meets(costs: CostModel, p: Position, q: Position, bar: Ohlc, time: nat) {
    if StopReached(p, bar) then StopTaken(costs, p, q, bar, time)
    else exists first :: TargetsTaken(costs, p, first, q, bar, time)
  }

  lemma EveryBarIsMet(costs: CostModel, p: Position, bar: Ohlc, time: nat)
    requires p.IsOpen()
    ensures Meets(costs, p, AfterBar(costs, p, bar, time), bar, time)
  {
    hide AfterBar, StopTaken, TargetsTaken;
    if StopReached(p, bar) {
      AStopSellsEverything(costs, p, bar, time);
    } else {
      TargetsSellTheirShares(costs, p, bar, time);
    }
  }

  /** Once closed, a position is left alone by every bar and every close. */
  lemma AClosedPositionStays(costs: CostModel, p: Position, bar: Ohlc, time: nat, price: real, reason: ExitReason,
                             quantity: Option<real>, note: Option<string>)
    requires p.remaining <= DUST
    ensures AfterBar(costs, p, bar, time) == p && AfterClose(costs, p, time, price, reason, quantity, note) == p
  {
  }

  /** What a close named, or everything, sold; but no more than is left. */
  predicate CloseTaken(costs: CostModel, p: Position, q: Position, time: nat, price: real, reason: ExitReason,
                       quantity: Option<real>, note: Option<string>)
  {
    var n := if quantity.None? || quantity.value > p.remaining then p.remaining else quantity.value;
    && q == p.(legs := q.legs, remaining := q.remaining)
    && (n <= 0.0 ==> q == p)
    && (n > 0.0 ==> q.legs != [] && q.legs == p.legs + [Last(q.legs)] && q.remaining == p.remaining - n
                    && Last(q.legs).note == note && Books(costs, p, Last(q.legs), time, price, n, reason))
  }

  /** A discretionary close of an open position. */
  lemma ACloseSellsWhatItNames(costs: CostModel, p: Position, time: nat, price: real, reason: ExitReason,
                               quantity: Option<real>, note: Option<string>)
    requires p.IsOpen()
    ensures CloseTaken(costs, p, AfterClose(costs, p, time, price, reason, quantity, note), time, price, reason, quantity, note)
  {
    hide WithLeg, Books;
    SaleBooks(costs, p, time, price, if quantity.Some? then quantity.value else p.remaining, reason, note);
  }

  /** An entry is filled on the far side of the spread, slippage included, and pays commission on its size. */
  lemma AnEntryPaysItsHalf(costs: CostModel, o: Order)
    ensures var p := Opened(costs, o);
            && p.side == o.side && p.openedAt == o.time && p.quantity == p.remaining == o.quantity && p.legs == [] && p.barsHeld == 0
            && p.entryPrice == (if o.side.Long? then o.price + costs.spread / 2.0 + costs.slippage
                                else o.price - (costs.spread / 2.0 + costs.slippage))
            && p.entryFees == (if o.quantity < 0.0 then -o.quantity else o.quantity) * costs.contractSize * costs.commissionPerUnit
            && p.sl == p.initialSl == o.sl && p.tp1 == o.tp1 && p.tp2 == o.tp2 && p.tp1Percent == o.tp1Percent
            && p.moveSlToBe == o.moveSlToBe && !p.tp1Filled && p.uxid == o.uxid
            && p.worstPrice == p.bestPrice == p.entryPrice && p.contractSize == costs.contractSize
  {
  }

  // ------------------------------------------------------------ what a trade made

  /** What a trade made, from the prices quoted for its exits: both half turns on what was sold, and
      commission on the entry and on what was sold. */
  function Made(costs: CostModel, o: Order, exits: seq<Exit>): real {
    costs.contractSize * (RawPnl(exits, o.price, o.side) - (costs.spread + 2.0 * costs.slippage) * Sold(exits))
    - costs.contractSize * costs.commissionPerUnit * (o.quantity + Sold(exits))
  }

  /** The net result of any entry, whatever happens to it. */
  lemma NetIsWhatTheExitsMade(costs: CostModel, o: Order, events: seq<Event>)
    requires o.quantity >= 0.0
    ensures var (p, exits) := (Replay(costs, o, events), AllExits(costs, o, events));
            && p.NetPnl() == Made(costs, o, exits)
            && p.Fees() == costs.contractSize * costs.commissionPerUnit * (o.quantity + Sold(exits))
            && (p.legs == [] <==> exits == [])
  {
    BooksAgree(costs, o, events);
    hide Replay, AllExits;
    var sold := Sold(AllExits(costs, o, events));
    assert costs.Commission(o.quantity) == costs.contractSize * costs.commissionPerUnit * o.quantity;
    FeesDistribute(costs.contractSize, costs.commissionPerUnit, o.quantity, sold);
    Reordered(costs.contractSize, costs.commissionPerUnit, sold);
  }

  lemma Reordered(a: real, b: real, q: real)
    ensures q * a * b == a * b * q
  {
  }
}
