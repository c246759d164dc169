/** A list of closed trades folded into a report (src/qte_backtest/metrics.py).

    Each figure the loops compute is specified by what it means on the whole list: a drawdown by all
    ordered pairs of curve points, a streak by all contiguous segments, a cost split by the trades'
    profit at quoted prices. Rounding is not modelled. */
module Metrics {
  import opened Prelude
  import opened Execution
  import opened ExecutionLaws

  function Wins(pnls: seq<real>): seq<real> {
    if pnls == [] then [] else Wins(Front(pnls)) + if Last(pnls) > 0.0 then [Last(pnls)] else []
  }

  function Losses(pnls: seq<real>): seq<real> {
    if pnls == [] then [] else Losses(Front(pnls)) + if Last(pnls) < 0.0 then [Last(pnls)] else []
  }

  /** The positions that closed at least one leg: the trades of the report. */
  function Traded(positions: seq<Position>): (closed: seq<Position>)
    ensures forall p :: p in closed <==> p in positions && p.legs != []
  {
    if positions == [] then []
    else
      assert positions == Front(positions) + [Last(positions)];
      Traded(Front(positions)) + if Last(positions).legs != [] then [Last(positions)] else []
  }

  function NetPnls(positions: seq<Position>): (pnls: seq<real>)
    ensures |pnls| == |positions|
  {
    if positions == [] then [] else NetPnls(Front(positions)) + [Last(positions).NetPnl()]
  }

  function TotalFees(positions: seq<Position>): real {
    if positions == [] then 0.0 else TotalFees(Front(positions)) + Last(positions).Fees()
  }

  lemma SumOfOneMore(xs: seq<real>, x: real)
    ensures Sum(xs + [x]) == Sum(xs) + x
  {
    assert Front(xs + [x]) == xs;
  }

  lemma {:induction false} WinsAndLossesAreTheNet(pnls: seq<real>)
    ensures Sum(Wins(pnls)) + Sum(Losses(pnls)) == Sum(pnls)
    ensures Sum(Wins(pnls)) >= 0.0 >= Sum(Losses(pnls))
    ensures |Wins(pnls)| + |Losses(pnls)| <= |pnls|
  {
    if pnls != [] {
      WinsAndLossesAreTheNet(Front(pnls));
      SumOfOneMore(Wins(Front(pnls)), Last(pnls));
      SumOfOneMore(Losses(Front(pnls)), Last(pnls));
      assert Wins(Front(pnls)) + [] == Wins(Front(pnls)) && Losses(Front(pnls)) + [] == Losses(Front(pnls));
    }
  }

  /** A win is a result above zero and a loss one below; each is listed as often as it occurred. */
  lemma {:induction false} WinsAreAboveZeroLossesBelow(pnls: seq<real>, x: real)
    ensures multiset(Wins(pnls))[x] == if x > 0.0 then multiset(pnls)[x] else 0
    ensures multiset(Losses(pnls))[x] == if x < 0.0 then multiset(pnls)[x] else 0
  {
    hide Wins, Losses;
    if pnls == [] {
      NoResults();
    } else {
      var (before, y) := (Front(pnls), Last(pnls));
      WinsAreAboveZeroLossesBelow(before, x);
      OneMoreResult(before, y);
      assert pnls == before + [y];
      CountOfOneMore(before, y, x);
      CountOfOneMore(Wins(before), y, x);
      CountOfOneMore(Losses(before), y, x);
    }
  }

  lemma NoResults()
    ensures Wins([]) == [] && Losses([]) == []
  {
  }

  lemma OneMoreResult(before: seq<real>, y: real)
    ensures Wins(before + [y]) == if y > 0.0 then Wins(before) + [y] else Wins(before)
    ensures Losses(before + [y]) == if y < 0.0 then Losses(before) + [y] else Losses(before)
  {
    assert Front(before + [y]) == before;
  }

  lemma CountOfOneMore(s: seq<real>, y: real, x: real)
    ensures multiset(s + [y])[x] == multiset(s)[x] + if x == y then 1 else 0
  {
  }

  // ------------------------------------------------------------ equity and drawdown

  /** The running balance: it starts at the capital and moves by each trade's result. */
  ghost predicate IsEquityCurve(curve: seq<real>, start: real, pnls: seq<real>) {
    && |curve| == |pnls| + 1 && curve[0] == start
    && forall k :: 0 <= k < |pnls| ==> curve[k + 1] == curve[k] + pnls[k]
  }

  /** The largest fall from an earlier point of the curve to a later one. */
  ghost predicate IsMaxDrawdown(curve: seq<real>, drawdown: real) {
    && (forall i, j :: 0 <= i <= j < |curve| ==> curve[i] - curve[j] <= drawdown)
    && (exists i, j :: 0 <= i <= j < |curve| && curve[i] - curve[j] == drawdown)
  }

  ghost predicate IsPeak(curve: seq<real>, peak: real) {
    && (forall i :: 0 <= i < |curve| ==> curve[i] <= peak)
    && (exists i :: 0 <= i < |curve| && curve[i] == peak)
  }

  function Peak(curve: seq<real>): (peak: real)
    requires curve != []
    ensures IsPeak(curve, peak)
  {
    if |curve| == 1 then curve[0]
    else
      var before := Peak(Front(curve));
      assert forall i :: 0 <= i < |Front(curve)| ==> Front(curve)[i] == curve[i];
      Max(before, Last(curve))
  }

  /** The highest point up to and including j. */
  function PeakAt(curve: seq<real>, j: nat): real
    requires j < |curve|
  {
    Peak(curve[..j + 1])
  }

  function Percent(fall: real, peak: real): real
    requires peak > 0.0
  {
    100.0 * fall / peak
  }

  /** How far below its peak so far the curve stands at a point, as a percentage of that peak. */
  function FallPercent(curve: seq<real>, j: nat): real
    requires j < |curve| && PeakAt(curve, j) > 0.0
  {
    100.0 * (PeakAt(curve, j) - curve[j]) / PeakAt(curve, j)
  }

  /** The worst percentage fall over the points whose peak is positive; none if there is no such point. */
  ghost predicate IsMaxDrawdownPct(curve: seq<real>, pct: Option<real>) {
    match pct
    case None => forall j :: 0 <= j < |curve| ==> PeakAt(curve, j) <= 0.0
    case Some(worst) =>
      && (forall j :: 0 <= j < |curve| && PeakAt(curve, j) > 0.0 ==> FallPercent(curve, j) <= worst)
      && (exists j :: 0 <= j < |curve| && PeakAt(curve, j) > 0.0 && FallPercent(curve, j) == worst)
  }

  lemma {:induction false} CurveEndsAtStartPlusNet(curve: seq<real>, start: real, pnls: seq<real>)
    requires IsEquityCurve(curve, start, pnls)
    ensures Last(curve) == start + Sum(pnls)
  {
    if pnls != [] {
      CurveEndsAtStartPlusNet(Front(curve), start, Front(pnls));
    }
  }

  /** There is only one maximum, so two loops that both meet the definition agree. */
  lemma DrawdownIsUnique(curve: seq<real>, a: real, b: real)
    requires IsMaxDrawdown(curve, a) && IsMaxDrawdown(curve, b)
    ensures a == b && a >= 0.0
  {
    var i, j :| 0 <= i <= j < |curve| && curve[i] - curve[j] == a;
    var k, l :| 0 <= k <= l < |curve| && curve[k] - curve[l] == b;
    assert curve[i] - curve[i] <= a;
  }

  // ------------------------------------------------------------ streaks

  predicate Hit(value: real, winning: bool) {
    if winning then value > 0.0 else value < 0.0
  }

  predicate AllHit(pnls: seq<real>, from: int, to: int, winning: bool)
    requires 0 <= from <= to <= |pnls|
  {
    forall k :: from <= k < to ==> Hit(pnls[k], winning)
  }

  predicate IsRunAt(pnls: seq<real>, i: int, n: nat, winning: bool) {
    0 <= i <= |pnls| - n && AllHit(pnls, i, i + n, winning)
  }

  /** The length of the longest contiguous run of winners (or losers). */
  ghost predicate IsLongestRun(pnls: seq<real>, winning: bool, n: nat) {
    && (exists i :: IsRunAt(pnls, i, n, winning))
    && (forall i, j :: 0 <= i <= j <= |pnls| && AllHit(pnls, i, j, winning) ==> j - i <= n)
  }

  /** The run that ends at the end of the list. */
  ghost predicate IsOpenRun(pnls: seq<real>, winning: bool, n: nat) {
    && n <= |pnls| && AllHit(pnls, |pnls| - n, |pnls|, winning)
    && (n < |pnls| ==> !Hit(pnls[|pnls| - n - 1], winning))
  }

  lemma LongestRunIsUnique(pnls: seq<real>, winning: bool, a: nat, b: nat)
    requires IsLongestRun(pnls, winning, a) && IsLongestRun(pnls, winning, b)
    ensures a == b
  {
    var i :| IsRunAt(pnls, i, a, winning);
    var j :| IsRunAt(pnls, j, b, winning);
  }

  /** One more value: the open run grows or restarts, and the longest follows it. */
  lemma RunStep(pnls: seq<real>, value: real, winning: bool, open: nat, longest: nat)
    requires IsOpenRun(pnls, winning, open) && IsLongestRun(pnls, winning, longest) && open <= longest
    ensures var now := if Hit(value, winning) then open + 1 else 0;
            && IsOpenRun(pnls + [value], winning, now)
            && IsLongestRun(pnls + [value], winning, if now > longest then now else longest)
  {
    var all := pnls + [value];
    var now := if Hit(value, winning) then open + 1 else 0;
    var best := if now > longest then now else longest;
    assert forall k :: 0 <= k < |pnls| ==> all[k] == pnls[k];
    forall i, j | 0 <= i <= j <= |all| && AllHit(all, i, j, winning) ensures j - i <= best {
      if j <= |pnls| {
        assert AllHit(pnls, i, j, winning);
      } else if i < j {
        assert Hit(all[|pnls|], winning);
        assert AllHit(pnls, i, |pnls|, winning);
      }
    }
    if now > longest {
      assert IsRunAt(all, |all| - now, best, winning);
    } else {
      var i :| IsRunAt(pnls, i, longest, winning);
      assert IsRunAt(all, i, best, winning);
    }
  }

  method LongestRun(pnls: seq<real>, winning: bool) returns (longest: nat)
    ensures IsLongestRun(pnls, winning, longest)
  {
    var streak: nat := 0;
    longest := 0;
    assert IsRunAt(pnls[..0], 0, 0, winning);
    for k := 0 to |pnls|
      invariant IsOpenRun(pnls[..k], winning, streak) && IsLongestRun(pnls[..k], winning, longest) && streak <= longest
    {
      RunStep(pnls[..k], pnls[k], winning, streak, longest);
      assert pnls[..k + 1] == pnls[..k] + [pnls[k]];
      streak := if Hit(pnls[k], winning) then streak + 1 else 0;
      longest := if streak > longest then streak else longest;
    }
    assert pnls[..|pnls|] == pnls;
  }

  // ------------------------------------------------------------ risk and cost per trade

  function InitialRisk(p: Position): Option<real> {
    if p.initialSl.None? then None
    else
      var risk := Abs(p.entryPrice - p.initialSl.value);
      if risk > 0.0 then Some(risk) else None
  }

  /** Whether a trade has an R: a stop away from the entry, and a size. */
  predicate HasR(p: Position) {
    InitialRisk(p).Some? && p.quantity != 0.0
  }

  /** What one R is worth on this trade. The source divides by it, so a contract size of zero raises. */
  function Exposure(p: Position): (e: real)
    requires HasR(p) && p.contractSize != 0.0
    ensures e != 0.0
  {
    var (risk, q) := (InitialRisk(p).value, p.quantity);
    assert risk * q != 0.0;
    risk * q * p.contractSize
  }

  function RMultiple(p: Position): real
    requires HasR(p) && p.contractSize != 0.0
  {
    p.NetPnl() / Exposure(p)
  }

  function CostR(p: Position, roundTrip: real): real
    requires HasR(p) && p.contractSize != 0.0
  {
    (Abs(p.quantity) * p.contractSize * roundTrip + p.Fees()) / CostExposure(p)
  }

  /** The same for the cost split, which takes the size without its sign. */
  function CostExposure(p: Position): (e: real)
    requires HasR(p) && p.contractSize != 0.0
    ensures e != 0.0
  {
    var (risk, q) := (InitialRisk(p).value, Abs(p.quantity));
    assert risk * q != 0.0;
    risk * q * p.contractSize
  }

  /** No trade that has an R has a contract size of zero. */
  predicate Costed(positions: seq<Position>) {
    forall p :: p in positions && HasR(p) ==> p.contractSize != 0.0
  }

  function WithR(positions: seq<Position>): (usable: seq<Position>)
    ensures forall p :: p in usable ==> p in positions && HasR(p)
    ensures |usable| <= |positions|
    ensures Costed(positions) ==> Costed(usable)
  {
    if positions == [] then []
    else
      assert forall p :: p in Front(positions) ==> p in positions;
      WithR(Front(positions)) + if HasR(Last(positions)) then [Last(positions)] else []
  }

  function RMultiples(usable: seq<Position>): seq<real>
    requires Costed(usable) && forall p :: p in usable ==> HasR(p)
  {
    if usable == [] then [] else
      assert forall p :: p in Front(usable) ==> p in usable;
      RMultiples(Front(usable)) + [RMultiple(Last(usable))]
  }

  function CostRs(usable: seq<Position>, roundTrip: real): (rs: seq<real>)
    requires Costed(usable) && forall p :: p in usable ==> HasR(p)
    ensures |rs| == |usable|
  {
    if usable == [] then [] else
      assert forall p :: p in Front(usable) ==> p in usable;
      CostRs(Front(usable), roundTrip) + [CostR(Last(usable), roundTrip)]
  }

  function Friction(positions: seq<Position>, roundTrip: real): real {
    if positions == [] then 0.0
    else Friction(Front(positions), roundTrip) + Abs(Last(positions).quantity) * Last(positions).contractSize * roundTrip
  }

  // ------------------------------------------------------------ the report

  class BacktestMetrics {
    var trades: nat
    var wins: nat
    var losses: nat
    var winRate: real
    var grossProfit: real
    var grossLoss: real
    var totalFees: real
    var netPnl: real
    var profitFactor: Option<real>
    var expectancy: real
    var maxDrawdown: real
    var maxDrawdownPct: Option<real>
    var startingEquity: real
    var endingEquity: real
    var returnPct: Option<real>
    var maxConsecutiveLosses: nat
    var maxConsecutiveWins: nat
    var equityCurve: seq<real>
    var totalR: Option<real>
    var expectancyR: Option<real>
    var averageWinR: Option<real>
    var averageLossR: Option<real>
    var payoffRatio: Option<real>
    var tradesWithoutStop: nat
    var spreadSlippageCost: real
    var totalCost: real
    var pnlBeforeCosts: real
    var costSharePct: Option<real>
    var frictionR: Option<real>
    var expectancyRBeforeCosts: Option<real>

    constructor (startingEquity: real)
      ensures this.startingEquity == endingEquity == startingEquity && profitFactor == None
      ensures trades == 0 && equityCurve == [] && expectancyR == None && frictionR == None && expectancyRBeforeCosts == None
    {
      trades, wins, losses, winRate := 0, 0, 0, 0.0;
      grossProfit, grossLoss, totalFees, netPnl := 0.0, 0.0, 0.0, 0.0;
      profitFactor, expectancy, maxDrawdown, maxDrawdownPct := None, 0.0, 0.0, None;
      this.startingEquity, endingEquity, returnPct := startingEquity, startingEquity, None;
      maxConsecutiveLosses, maxConsecutiveWins, equityCurve := 0, 0, [];
      totalR, expectancyR, tradesWithoutStop := None, None, 0;
      averageWinR, averageLossR, payoffRatio := None, None, None;
      spreadSlippageCost, totalCost, pnlBeforeCosts, costSharePct := 0.0, 0.0, 0.0, None;
      frictionR, expectancyRBeforeCosts := None, None;
    }

    /** Counts, sums and averages of the trades' results. */
    method AddHeadline(closed: seq<Position>, pnls: seq<real>)
      requires closed != [] && |pnls| == |closed|
      modifies this`trades, this`wins, this`losses, this`winRate, this`grossProfit, this`grossLoss, this`totalFees,
               this`netPnl, this`expectancy, this`profitFactor
      ensures trades == |closed| && wins == |Wins(pnls)| && losses == |Losses(pnls)|
      ensures grossProfit == Sum(Wins(pnls)) && grossLoss == Sum(Losses(pnls)) && netPnl == Sum(pnls)
      ensures totalFees == TotalFees(closed) && expectancy == netPnl / (trades as real)
      ensures winRate == 100.0 * wins as real / trades as real
      ensures if Losses(pnls) == [] then profitFactor == old(profitFactor)
              else grossLoss < 0.0 && profitFactor == Some(grossProfit / Abs(grossLoss))
                   && profitFactor.value * -grossLoss == grossProfit
    {
      hide Wins, Losses, Sum, TotalFees;
      var (won, lost) := (Wins(pnls), Losses(pnls));
      trades, wins, losses := |closed|, |won|, |lost|;
      winRate := Percent(|won| as real, |closed| as real);
      grossProfit, grossLoss, totalFees, netPnl := Sum(won), Sum(lost), TotalFees(closed), Sum(pnls);
      expectancy := netPnl / (|closed| as real);
      LossesLose(pnls);
      if lost != [] {
        profitFactor := Some(grossProfit / Abs(grossLoss));
      }
    }

    /** The equity loop: balance, drawdowns and the losing streak in one pass. */
    method WalkEquity(pnls: seq<real>)
      modifies this`equityCurve, this`endingEquity, this`maxDrawdown, this`maxDrawdownPct, this`maxConsecutiveLosses
      ensures IsEquityCurve(equityCurve, startingEquity, pnls) && endingEquity == Last(equityCurve)
      ensures IsMaxDrawdown(equityCurve, maxDrawdown)
      ensures IsMaxDrawdownPct(equityCurve, maxDrawdownPct)
      ensures IsLongestRun(pnls, false, maxConsecutiveLosses)
    {
      hide *;
      var equity := startingEquity;
      var curve := [equity];
      var peak := equity;
      var worst := 0.0;
      var worstPct: Option<real> := if peak > 0.0 then Some(0.0) else None;
      var streak: nat, worstStreak: nat := 0, 0;
      WalkStarts(startingEquity);
      for k := 0 to |pnls|
        invariant Walked(startingEquity, pnls[..k], Walk(curve, equity, peak, worst, worstPct, streak, worstStreak))
      {
        WalkStep(startingEquity, pnls[..k], pnls[k], Walk(curve, equity, peak, worst, worstPct, streak, worstStreak));
        assert pnls[..k + 1] == pnls[..k] + [pnls[k]];
        equity := equity + pnls[k];
        curve := curve + [equity];
        peak := Max(peak, equity);
        var drawdown := peak - equity;
        if drawdown > worst {
          worst := drawdown;
        }
        if peak > 0.0 {
          worstPct := Some(Max(if worstPct.Some? then worstPct.value else 0.0, Percent(drawdown, peak)));
        }
        streak := if pnls[k] < 0.0 then streak + 1 else 0;
        worstStreak := if streak > worstStreak then streak else worstStreak;
      }
      assert pnls[..|pnls|] == pnls;
      WalkedMeans(startingEquity, pnls, Walk(curve, equity, peak, worst, worstPct, streak, worstStreak));
      equityCurve, endingEquity, maxDrawdown, maxDrawdownPct, maxConsecutiveLosses := curve, equity, worst, worstPct, worstStreak;
    }

    /** R statistics, over the trades that had a stop. */
    method AddRiskNormalised(closed: seq<Position>)
      requires Costed(closed)
      modifies this`totalR, this`expectancyR, this`averageWinR, this`averageLossR, this`payoffRatio, this`tradesWithoutStop
      ensures tradesWithoutStop == |closed| - |WithR(closed)|
      ensures WithR(closed) == [] ==> totalR == old(totalR) && expectancyR == old(expectancyR)
      ensures WithR(closed) != [] ==>
                var rs := RMultiples(WithR(closed));
                && totalR == Some(Sum(rs)) && expectancyR == Some(Mean(rs))
                && (Wins(rs) != [] ==> averageWinR == Some(Mean(Wins(rs))))
                && (Losses(rs) != [] ==> averageLossR == Some(Mean(Losses(rs))) && averageLossR.value < 0.0)
                && (Wins(rs) != [] && Losses(rs) != [] ==>
                      payoffRatio.Some? && payoffRatio.value * -Mean(Losses(rs)) == Mean(Wins(rs)))
    {
      hide Wins, Losses, Sum, Mean, RMultiples, WithR;
      var usable := WithR(closed);
      var rs := RMultiples(usable);
      tradesWithoutStop := |closed| - |usable|;
      if usable == [] {
        return;
      }
      RMultiplesOfSome(usable);
      totalR := Some(Sum(rs));
      expectancyR := Some(Mean(rs));
      var (won, lost) := (Wins(rs), Losses(rs));
      if won != [] {
        averageWinR := Some(Mean(won));
      }
      if lost != [] {
        MeanOfLosses(rs);
        averageLossR := Some(Mean(lost));
        if won != [] {
          payoffRatio := Some(averageWinR.value / Abs(averageLossR.value));
        }
      }
    }

    /** Split realised P&L into the edge and what the broker charged for it. */
    method AddCostEconomics(closed: seq<Position>, costs: CostModel)
      requires Costed(closed) && (expectancyR.Some? <==> WithR(closed) != [])
      modifies this`spreadSlippageCost, this`totalCost, this`pnlBeforeCosts, this`costSharePct, this`frictionR, this`expectancyRBeforeCosts
      ensures spreadSlippageCost == Friction(closed, RoundTrip(costs))
      ensures totalCost == Friction(closed, RoundTrip(costs)) + totalFees && pnlBeforeCosts == netPnl + totalCost
      ensures pnlBeforeCosts > 0.0 ==> costSharePct == Some(100.0 * totalCost / pnlBeforeCosts)
      ensures expectancyR.Some? ==>
                && frictionR == Some(Mean(CostRs(WithR(closed), RoundTrip(costs))))
                && expectancyRBeforeCosts == Some(expectancyR.value + frictionR.value)
      ensures expectancyR.None? ==> frictionR == old(frictionR) && expectancyRBeforeCosts == old(expectancyRBeforeCosts)
    {
      hide Friction, CostRs, Mean, WithR, RoundTrip;
      var roundTrip := RoundTrip(costs);
      spreadSlippageCost := Friction(closed, roundTrip);
      totalCost := spreadSlippageCost + totalFees;
      pnlBeforeCosts := netPnl + totalCost;
      if pnlBeforeCosts > 0.0 {
        costSharePct := Some(Percent(totalCost, pnlBeforeCosts));
      }
      if expectancyR.None? {
        return;
      }
      var shares := CostRs(WithR(closed), roundTrip);
      frictionR := Some(Mean(shares));
      expectancyRBeforeCosts := Some(expectancyR.value + frictionR.value);
    }
  }

  /** Where the equity loop stands. */
  datatype Walk = Walk(curve: seq<real>, equity: real, peak: real, worst: real, worstPct: Option<real>,
                       streak: nat, worstStreak: nat)

  ghost predicate Walked(start: real, pnls: seq<real>, w: Walk) {
    && IsEquityCurve(w.curve, start, pnls) && w.equity == Last(w.curve) && w.peak == Peak(w.curve)
    && IsMaxDrawdown(w.curve, w.worst) && IsMaxDrawdownPct(w.curve, w.worstPct)
    && (w.worstPct.Some? ==> w.worstPct.value >= 0.0)
    && IsOpenRun(pnls, false, w.streak) && IsLongestRun(pnls, false, w.worstStreak) && w.streak <= w.worstStreak
  }

  lemma WalkedMeans(start: real, pnls: seq<real>, w: Walk)
    requires Walked(start, pnls, w)
    ensures IsEquityCurve(w.curve, start, pnls) && w.curve != [] && w.equity == Last(w.curve)
    ensures IsMaxDrawdown(w.curve, w.worst) && IsMaxDrawdownPct(w.curve, w.worstPct)
    ensures IsLongestRun(pnls, false, w.worstStreak)
  {
  }

  lemma WalkStarts(start: real)
    ensures Walked(start, [], Walk([start], start, start, 0.0, if start > 0.0 then Some(0.0) else None, 0, 0))
  {
    var curve := [start];
    assert curve[0] - curve[0] == 0.0;
    assert curve[..1] == curve && PeakAt(curve, 0) == start;
    assert IsRunAt([], 0, 0, false);
    if start > 0.0 {
      assert FallPercent(curve, 0) == 0.0;
    }
  }

  lemma LossIsHit(value: real)
    ensures Hit(value, false) <==> value < 0.0
  {
  }

  lemma WalkStep(start: real, pnls: seq<real>, value: real, w: Walk)
    requires Walked(start, pnls, w)
    ensures var equity := w.equity + value;
            var peak := Max(w.peak, equity);
            var drawdown := peak - equity;
            var streak := if value < 0.0 then w.streak + 1 else 0;
            Walked(start, pnls + [value],
              Walk(w.curve + [equity], equity, peak, if drawdown > w.worst then drawdown else w.worst,
                   if peak > 0.0 then Some(Max(if w.worstPct.Some? then w.worstPct.value else 0.0, Percent(drawdown, peak)))
                                 else w.worstPct,
                   streak, if streak > w.worstStreak then streak else w.worstStreak))
  {
    hide IsEquityCurve, IsMaxDrawdown, IsMaxDrawdownPct, IsOpenRun, IsLongestRun, Peak, Percent, Hit;
    var equity := w.equity + value;
    CurveStep(w.curve, start, pnls, value, equity);
    DrawdownStep(w.curve, w.worst, equity);
    PctStep(w.curve, w.worstPct, equity);
    RunStep(pnls, value, false, w.streak, w.worstStreak);
    assert Hit(value, false) == (value < 0.0) by { LossIsHit(value); }
  }

  lemma CurveStep(curve: seq<real>, start: real, pnls: seq<real>, value: real, equity: real)
    requires IsEquityCurve(curve, start, pnls) && equity == Last(curve) + value
    ensures IsEquityCurve(curve + [equity], start, pnls + [value])
    ensures Peak(curve + [equity]) == Max(Peak(curve), equity)
  {
    assert Front(curve + [equity]) == curve;
  }

  lemma DrawdownStep(curve: seq<real>, worst: real, equity: real)
    requires curve != [] && IsMaxDrawdown(curve, worst)
    ensures var drawdown := Max(Peak(curve), equity) - equity;
            IsMaxDrawdown(curve + [equity], if drawdown > worst then drawdown else worst)
  {
    var all := curve + [equity];
    var n := |curve|;
    var peak := Max(Peak(curve), equity);
    var now := if peak - equity > worst then peak - equity else worst;
    assert forall i :: 0 <= i < n ==> all[i] == curve[i];
    assert curve[0] - curve[0] <= worst;
    if peak - equity > worst {
      var i :| 0 <= i < n && curve[i] == Peak(curve);
      assert all[i] - all[n] == now;
    } else {
      var i, j :| 0 <= i <= j < n && curve[i] - curve[j] == worst;
      assert all[i] - all[j] == now;
    }
  }

  lemma PeakAtPrefix(curve: seq<real>, equity: real, j: nat)
    requires j < |curve|
    ensures PeakAt(curve + [equity], j) == PeakAt(curve, j)
  {
    assert (curve + [equity])[..j + 1] == curve[..j + 1];
  }

  lemma FallIsNotNegative(peak: real, equity: real)
    requires peak > 0.0 && equity <= peak
    ensures Percent(peak - equity, peak) >= 0.0
  {
  }

  lemma NewestPeak(curve: seq<real>, equity: real)
    requires curve != []
    ensures PeakAt(curve + [equity], |curve|) == Max(Peak(curve), equity)
  {
    var all := curve + [equity];
    assert all[..|curve| + 1] == all && Front(all) == curve;
  }

  /** What one more point does to the percentages: the old ones stay, one is added. */
  lemma FallsExtend(curve: seq<real>, equity: real)
    requires curve != []
    ensures var (all, peak) := (curve + [equity], Max(Peak(curve), equity));
            && (forall j :: 0 <= j < |curve| ==>
                  PeakAt(all, j) == PeakAt(curve, j) && (PeakAt(curve, j) > 0.0 ==> FallPercent(all, j) == FallPercent(curve, j)))
            && PeakAt(all, |curve|) == peak
            && (peak > 0.0 ==> FallPercent(all, |curve|) == Percent(peak - equity, peak))
  {
    hide Peak, PeakAt;
    NewestPeak(curve, equity);
    forall j | 0 <= j < |curve|
      ensures PeakAt(curve + [equity], j) == PeakAt(curve, j)
    {
      PeakAtPrefix(curve, equity, j);
    }
  }

  lemma PctStep(curve: seq<real>, worst: Option<real>, equity: real)
    requires curve != [] && IsMaxDrawdownPct(curve, worst) && (worst.Some? ==> worst.value >= 0.0)
    ensures var peak := Max(Peak(curve), equity);
            var fall := if peak > 0.0 then Percent(peak - equity, peak) else 0.0;
            && fall >= 0.0
            && IsMaxDrawdownPct(curve + [equity],
                 if peak > 0.0 then Some(Max(if worst.Some? then worst.value else 0.0, fall)) else worst)
  {
    hide Percent, PeakAt, FallPercent, Peak;
    FallsExtend(curve, equity);
    var peak := Max(Peak(curve), equity);
    if peak > 0.0 {
      FallIsNotNegative(peak, equity);
    }
    if worst.Some? {
      var all := curve + [equity];
      var j :| 0 <= j < |curve| && PeakAt(curve, j) > 0.0 && FallPercent(curve, j) == worst.value;
      assert PeakAt(all, j) > 0.0 && FallPercent(all, j) == worst.value;
    }
  }

  /** What the report says about the results of a non-empty list of trades. */
  ghost predicate ReportsResults(m: BacktestMetrics, closed: seq<Position>)
    requires closed != []
    reads m`trades, m`wins, m`losses, m`winRate, m`grossProfit, m`grossLoss, m`totalFees, m`netPnl, m`expectancy, m`profitFactor
    reads m`returnPct, m`startingEquity, m`endingEquity, m`equityCurve, m`maxDrawdown, m`maxDrawdownPct
    reads m`maxConsecutiveLosses, m`maxConsecutiveWins
  {
    var pnls := NetPnls(closed);
    && m.trades == |closed| > 0 && m.wins == |Wins(pnls)| && m.losses == |Losses(pnls)|
    && m.grossProfit == Sum(Wins(pnls)) && m.grossLoss == Sum(Losses(pnls)) && m.netPnl == Sum(pnls)
    && m.totalFees == TotalFees(closed) && m.expectancy == m.netPnl / (m.trades as real)
    && m.winRate == 100.0 * m.wins as real / m.trades as real
    && (m.profitFactor.Some? <==> Losses(pnls) != [])
    && (m.profitFactor.Some? ==> m.profitFactor.value * -m.grossLoss == m.grossProfit)
    && (m.startingEquity > 0.0 ==> m.returnPct == Some(100.0 * m.netPnl / m.startingEquity))
    && IsEquityCurve(m.equityCurve, m.startingEquity, pnls) && m.endingEquity == Last(m.equityCurve)
    && IsMaxDrawdown(m.equityCurve, m.maxDrawdown) && IsMaxDrawdownPct(m.equityCurve, m.maxDrawdownPct)
    && IsLongestRun(pnls, false, m.maxConsecutiveLosses) && IsLongestRun(pnls, true, m.maxConsecutiveWins)
  }

  /** What it says about them in units of the risk each took. */
  ghost predicate ReportsRisk(m: BacktestMetrics, closed: seq<Position>)
    requires Costed(closed)
    reads m`totalR, m`expectancyR, m`averageWinR, m`averageLossR, m`payoffRatio, m`tradesWithoutStop
  {
    && m.tradesWithoutStop == |closed| - |WithR(closed)|
    && (WithR(closed) == [] ==> m.expectancyR == None)
    && (WithR(closed) != [] ==>
          var rs := RMultiples(WithR(closed));
          && m.totalR == Some(Sum(rs)) && m.expectancyR == Some(Mean(rs))
          && (Wins(rs) != [] ==> m.averageWinR == Some(Mean(Wins(rs))))
          && (Losses(rs) != [] ==> m.averageLossR == Some(Mean(Losses(rs))))
          && (Wins(rs) != [] && Losses(rs) != [] ==>
                m.payoffRatio.Some? && m.payoffRatio.value * -Mean(Losses(rs)) == Mean(Wins(rs))))
  }

  /** And about what trading cost. */
  ghost predicate ReportsCosts(m: BacktestMetrics, closed: seq<Position>, costs: CostModel)
    requires Costed(closed)
    reads m
  {
    && m.spreadSlippageCost == Friction(closed, RoundTrip(costs))
    && m.totalCost == m.spreadSlippageCost + m.totalFees && m.pnlBeforeCosts == m.netPnl + m.totalCost
    && (m.pnlBeforeCosts > 0.0 ==> m.costSharePct == Some(100.0 * m.totalCost / m.pnlBeforeCosts))
    && (WithR(closed) != [] ==>
          && m.frictionR == Some(Mean(CostRs(WithR(closed), RoundTrip(costs))))
          && m.expectancyR == Some(Mean(RMultiples(WithR(closed))))
          && m.expectancyRBeforeCosts == Some(Mean(RMultiples(WithR(closed))) + Mean(CostRs(WithR(closed), RoundTrip(costs)))))
  }

  /** The first half of the report: results, equity and streaks. */
  method FillResults(m: BacktestMetrics, closed: seq<Position>)
    requires closed != [] && m.profitFactor == None
    modifies m
    ensures ReportsResults(m, closed) && m.startingEquity == old(m.startingEquity) && m.expectancyR == old(m.expectancyR)
  {
    hide NetPnls, Wins, Losses, Sum, TotalFees, IsEquityCurve, IsMaxDrawdown, IsMaxDrawdownPct, IsLongestRun;
    var pnls := NetPnls(closed);
    m.AddHeadline(closed, pnls);
    m.WalkEquity(pnls);
    if m.startingEquity > 0.0 {
      m.returnPct := Some(Percent(m.netPnl, m.startingEquity));
    }
    m.maxConsecutiveWins := LongestRun(pnls, true);
  }

  /** The second half: risk and costs. */
  method FillCosts(m: BacktestMetrics, closed: seq<Position>, costs: CostModel)
    requires closed != [] && Costed(closed) && ReportsResults(m, closed) && m.expectancyR == None
    modifies m
    ensures ReportsResults(m, closed) && ReportsRisk(m, closed) && ReportsCosts(m, closed, costs)
    ensures m.startingEquity == old(m.startingEquity)
  {
    hide ReportsResults, ReportsRisk, Friction, RoundTrip, WithR, RMultiples, CostRs, Mean, Sum, Wins, Losses;
    FillRisk(m, closed);
    RiskMeans(m, closed);
    m.AddCostEconomics(closed, costs);
  }

  lemma RiskMeans(m: BacktestMetrics, closed: seq<Position>)
    requires Costed(closed) && ReportsRisk(m, closed)
    ensures m.expectancyR == if WithR(closed) == [] then None else Some(Mean(RMultiples(WithR(closed))))
  {
    hide WithR, RMultiples, Mean, Sum, Wins, Losses;
  }

  method FillRisk(m: BacktestMetrics, closed: seq<Position>)
    requires Costed(closed) && m.expectancyR == None
    modifies m`totalR, m`expectancyR, m`averageWinR, m`averageLossR, m`payoffRatio, m`tradesWithoutStop
    ensures ReportsRisk(m, closed)
  {
    hide Wins, Losses, Sum, WithR, RMultiples, Mean;
    m.AddRiskNormalised(closed);
  }

  /** The whole report over a list of positions. A position that never closed a leg is not a trade. */
  method ComputeMetrics(positions: seq<Position>, startingEquity: real, costs: CostModel) returns (m: BacktestMetrics)
    requires Costed(positions)
    ensures fresh(m) && m.startingEquity == startingEquity
    ensures Traded(positions) == [] ==> m.trades == 0 && m.equityCurve == [] && m.endingEquity == startingEquity
    ensures Traded(positions) != [] ==>
              && ReportsResults(m, Traded(positions)) && ReportsRisk(m, Traded(positions))
              && ReportsCosts(m, Traded(positions), costs)
  {
    hide Traded, ReportsResults, ReportsRisk, ReportsCosts;
    m := new BacktestMetrics(startingEquity);
    var closed := Traded(positions);
    TradesAreCosted(positions);
    if closed != [] {
      FillResults(m, closed);
      FillCosts(m, closed, costs);
    }
  }

  lemma TradesAreCosted(positions: seq<Position>)
    requires Costed(positions)
    ensures Costed(Traded(positions))
  {
  }

  lemma RMultiplesOfSome(usable: seq<Position>)
    requires usable != [] && Costed(usable) && forall p :: p in usable ==> HasR(p)
    ensures RMultiples(usable) != []
  {
    hide RMultiple;
  }

  lemma MeanOfLosses(rs: seq<real>)
    requires Losses(rs) != []
    ensures Mean(Losses(rs)) < 0.0
  {
    hide Losses, Sum;
    LossesLose(rs);
    NegativeShare(Sum(Losses(rs)), |Losses(rs)| as real);
  }

  lemma NegativeShare(sum: real, n: real)
    requires sum < 0.0 && n > 0.0
    ensures sum / n < 0.0
  {
  }

  lemma {:induction false} LossesLose(pnls: seq<real>)
    ensures Sum(Losses(pnls)) <= 0.0 && (Losses(pnls) != [] ==> Sum(Losses(pnls)) < 0.0)
  {
    if pnls != [] {
      LossesLose(Front(pnls));
      SumOfOneMore(Losses(Front(pnls)), Last(pnls));
      assert Losses(Front(pnls)) + [] == Losses(Front(pnls));
    }
  }

  // ------------------------------------------------------------ the edge before costs

  /** A trade as it was played: its entry and everything that happened to it. */
  datatype Trade = Trade(order: Order, events: seq<Event>)

  function Played(costs: CostModel, t: Trade): Position {
    Replay(costs, t.order, t.events)
  }

  /** The entry has a size and a stop away from the price it was filled at. */
  predicate Risked(costs: CostModel, o: Order) {
    o.quantity > 0.0 && o.sl.Some? && costs.EntryFill(o.price, o.side) != o.sl.value
  }

  /** What one R is worth, read off the order. */
  function RiskTaken(costs: CostModel, o: Order): (r: real)
    requires Risked(costs, o) && costs.contractSize != 0.0
    ensures r != 0.0
  {
    var (risk, q) := (Abs(costs.EntryFill(o.price, o.side) - o.sl.value), o.quantity);
    assert risk * q != 0.0;
    risk * q * costs.contractSize
  }

  /** The trade's profit at quoted prices, in units of the risk it took. */
  function RawR(costs: CostModel, t: Trade): real
    requires Risked(costs, t.order) && costs.contractSize != 0.0
  {
    costs.contractSize * RawPnl(AllExits(costs, t.order, t.events), t.order.price, t.order.side) / RiskTaken(costs, t.order)
  }

  /** The round trip charged on what never traded out, in the same units. */
  function LeftR(costs: CostModel, t: Trade): real
    requires Risked(costs, t.order) && costs.contractSize != 0.0
  {
    RoundTrip(costs) * costs.contractSize * Played(costs, t).remaining / RiskTaken(costs, t.order)
  }

  lemma PlayedRisk(costs: CostModel, t: Trade)
    requires t.order.quantity > 0.0
    ensures var p := Played(costs, t);
            && (HasR(p) <==> Risked(costs, t.order)) && p.contractSize == costs.contractSize && p.quantity == t.order.quantity
            && (HasR(p) && costs.contractSize != 0.0 ==>
                  Exposure(p) == RiskTaken(costs, t.order) && CostExposure(p) == RiskTaken(costs, t.order))
  {
    hide Replay, AllExits, Ledger;
    BooksAgree(costs, t.order, t.events);
  }

  /** Net R plus cost R is the R at quoted prices, plus the round trip on what is left. */
  lemma CostRIsWhatCostsTook(costs: CostModel, t: Trade)
    requires costs.contractSize != 0.0 && Risked(costs, t.order)
    ensures var p := Played(costs, t);
            && HasR(p) && p.contractSize == costs.contractSize
            && RMultiple(p) + CostR(p, RoundTrip(costs)) == RawR(costs, t) + LeftR(costs, t)
  {
    hide RoundTrip, Replay, AllExits, Ledger, RawPnl, Position.NetPnl, Position.Fees, Exposure, CostExposure, RiskTaken, HasR, Risked;
    RiskedHasSize(costs, t.order);
    PlayedRisk(costs, t);
    CostsAreRecovered(costs, t.order, t.events);
    var p := Played(costs, t);
    var e := RiskTaken(costs, t.order);
    var (net, cost) := (p.NetPnl(), p.quantity * p.contractSize * RoundTrip(costs) + p.Fees());
    var raw := costs.contractSize * RawPnl(AllExits(costs, t.order, t.events), t.order.price, t.order.side);
    var left := RoundTrip(costs) * costs.contractSize * p.remaining;
    DivideSum(net, cost, e);
    DivideSum(raw, left, e);
  }

  lemma RiskedHasSize(costs: CostModel, o: Order)
    requires Risked(costs, o)
    ensures o.quantity > 0.0
  {
  }

  function AllPlayed(costs: CostModel, trades: seq<Trade>): (ps: seq<Position>)
    ensures |ps| == |trades| && forall i :: 0 <= i < |ps| ==> ps[i] == Played(costs, trades[i])
  {
    if trades == [] then [] else AllPlayed(costs, Front(trades)) + [Played(costs, Last(trades))]
  }

  predicate AllRisked(costs: CostModel, trades: seq<Trade>) {
    costs.contractSize != 0.0 && forall t :: t in trades ==> Risked(costs, t.order)
  }

  function RawRs(costs: CostModel, trades: seq<Trade>): (rs: seq<real>)
    requires AllRisked(costs, trades)
    ensures |rs| == |trades|
  {
    if trades == [] then []
    else
      assert forall t :: t in Front(trades) ==> t in trades;
      RawRs(costs, Front(trades)) + [RawR(costs, Last(trades))]
  }

  function LeftRs(costs: CostModel, trades: seq<Trade>): (rs: seq<real>)
    requires AllRisked(costs, trades)
    ensures |rs| == |trades|
  {
    if trades == [] then []
    else
      assert forall t :: t in Front(trades) ==> t in trades;
      LeftRs(costs, Front(trades)) + [LeftR(costs, Last(trades))]
  }

  /** The trades the R figures are about: those that closed a leg and had a stop. */
  function StopTrades(costs: CostModel, trades: seq<Trade>): (with: seq<Trade>)
    ensures forall t :: t in with ==> t in trades && Risked(costs, t.order)
  {
    if trades == [] then []
    else
      var t := Last(trades);
      assert trades == Front(trades) + [t];
      StopTrades(costs, Front(trades)) + if Played(costs, t).legs != [] && Risked(costs, t.order) then [t] else []
  }

  lemma WithROfOneMore(ps: seq<Position>, p: Position)
    ensures WithR(ps + [p]) == if HasR(p) then WithR(ps) + [p] else WithR(ps)
  {
    hide HasR;
    assert Front(ps + [p]) == ps;
    assert WithR(ps) + [] == WithR(ps);
  }

  /** The report picks its trades with an R out of the positions as this picks them out of the trades. */
  lemma {:induction false} ReportedTrades(costs: CostModel, trades: seq<Trade>)
    requires forall t :: t in trades ==> t.order.quantity > 0.0
    ensures WithR(Traded(AllPlayed(costs, trades))) == AllPlayed(costs, StopTrades(costs, trades))
  {
    hide HasR, Played, Risked, WithR, Traded, AllPlayed, StopTrades, Exposure, CostExposure, RiskTaken;
    NothingTraded(costs);
    if trades != [] {
      var (init, t) := (Front(trades), Last(trades));
      assert t in trades && forall u :: u in init ==> u in trades;
      ReportedTrades(costs, init);
      PlayedRisk(costs, t);
      assert trades == init + [t];
      StopTradesOfOneMore(costs, init, t);
      PlayedOfOneMore(costs, init, t);
      PlayedOfOneMore(costs, StopTrades(costs, init), t);
      var (ps, p) := (AllPlayed(costs, init), Played(costs, t));
      TradedOfOneMore(ps, p);
      WithROfOneMore(Traded(ps), p);
    }
  }

  lemma StopTradesOfOneMore(costs: CostModel, trades: seq<Trade>, t: Trade)
    ensures StopTrades(costs, trades + [t])
         == if Played(costs, t).legs != [] && Risked(costs, t.order) then StopTrades(costs, trades) + [t] else StopTrades(costs, trades)
  {
    hide Played, Risked;
    assert Front(trades + [t]) == trades;
    assert StopTrades(costs, trades) + [] == StopTrades(costs, trades);
  }

  lemma PlayedOfOneMore(costs: CostModel, trades: seq<Trade>, t: Trade)
    ensures AllPlayed(costs, trades + [t]) == AllPlayed(costs, trades) + [Played(costs, t)]
  {
    hide Played;
    assert Front(trades + [t]) == trades;
  }

  lemma TradedOfOneMore(ps: seq<Position>, p: Position)
    ensures Traded(ps + [p]) == if p.legs != [] then Traded(ps) + [p] else Traded(ps)
  {
    assert Front(ps + [p]) == ps;
    assert Traded(ps) + [] == Traded(ps);
  }

  lemma NothingTraded(costs: CostModel)
    ensures WithR([]) == [] && Traded([]) == [] && AllPlayed(costs, []) == [] && StopTrades(costs, []) == []
  {
  }

  lemma EmptySum()
    ensures Sum([]) == 0.0
  {
  }

  lemma PlayedAreRisked(costs: CostModel, trades: seq<Trade>)
    requires AllRisked(costs, trades)
    ensures Costed(AllPlayed(costs, trades)) && forall p :: p in AllPlayed(costs, trades) ==> HasR(p)
  {
    hide HasR, Played, Risked;
    forall i | 0 <= i < |trades| ensures HasR(Played(costs, trades[i])) && Played(costs, trades[i]).contractSize == costs.contractSize {
      assert trades[i] in trades;
      RiskedHasSize(costs, trades[i].order);
      PlayedRisk(costs, trades[i]);
    }
  }

  lemma {:induction false} RSumsAddUp(costs: CostModel, trades: seq<Trade>)
    requires AllRisked(costs, trades)
    ensures var ps := AllPlayed(costs, trades);
            && Costed(ps) && (forall p :: p in ps ==> HasR(p))
            && |RMultiples(ps)| == |CostRs(ps, RoundTrip(costs))| == |trades|
            && Sum(RMultiples(ps)) + Sum(CostRs(ps, RoundTrip(costs))) == Sum(RawRs(costs, trades)) + Sum(LeftRs(costs, trades))
  {
    hide RMultiple, CostR, RawR, LeftR, Played, HasR, RoundTrip, Sum, Risked;
    PlayedAreRisked(costs, trades);
    if trades == [] {
      assert Sum([]) == 0.0 by { EmptySum(); }
    } else {
      var (init, t) := (Front(trades), Last(trades));
      assert forall u :: u in init ==> u in trades;
      assert t in trades;
      RSumsAddUp(costs, init);
      CostRIsWhatCostsTook(costs, t);
      var ps := AllPlayed(costs, trades);
      assert Front(ps) == AllPlayed(costs, init) && Last(ps) == Played(costs, t);
      SumOfOneMore(RMultiples(Front(ps)), RMultiple(Last(ps)));
      SumOfOneMore(CostRs(Front(ps), RoundTrip(costs)), CostR(Last(ps), RoundTrip(costs)));
      SumOfOneMore(RawRs(costs, init), RawR(costs, t));
      SumOfOneMore(LeftRs(costs, init), LeftR(costs, t));
    }
  }

  /** Means of the same length add up as their sums do. */
  lemma MeansAddUp(costs: CostModel, trades: seq<Trade>)
    requires AllRisked(costs, trades) && trades != []
    ensures var ps := AllPlayed(costs, trades);
            && Costed(ps) && (forall p :: p in ps ==> HasR(p))
            && RMultiples(ps) != [] && CostRs(ps, RoundTrip(costs)) != [] && RawRs(costs, trades) != [] && LeftRs(costs, trades) != []
            && Mean(RMultiples(ps)) + Mean(CostRs(ps, RoundTrip(costs))) == Mean(RawRs(costs, trades)) + Mean(LeftRs(costs, trades))
  {
    hide RMultiples, CostRs, RawRs, LeftRs, RoundTrip, AllPlayed, AllRisked, Sum;
    RSumsAddUp(costs, trades);
    var (ps, n) := (AllPlayed(costs, trades), |trades| as real);
    DivideSum(Sum(RMultiples(ps)), Sum(CostRs(ps, RoundTrip(costs))), n);
    DivideSum(Sum(RawRs(costs, trades)), Sum(LeftRs(costs, trades)), n);
  }

  predicate NothingLeft(costs: CostModel, trades: seq<Trade>) {
    forall t :: t in trades ==> Played(costs, t).remaining == 0.0
  }

  lemma {:induction false} NothingLeftCostsNothing(costs: CostModel, trades: seq<Trade>)
    requires AllRisked(costs, trades) && NothingLeft(costs, trades)
    ensures Sum(LeftRs(costs, trades)) == 0.0
  {
    hide Played, RoundTrip, Risked, RiskTaken;
    if trades != [] {
      var (init, t) := (Front(trades), Last(trades));
      assert t in trades && forall u :: u in init ==> u in trades;
      NothingLeftCostsNothing(costs, init);
      assert LeftR(costs, t) == 0.0;
      SumOfOneMore(LeftRs(costs, init), LeftR(costs, t));
    }
  }

  /** The expectancy before costs is the mean R at quoted prices, plus the round trip on what is left. */
  ghost predicate ReportsRawR(m: BacktestMetrics, costs: CostModel, with: seq<Trade>)
    requires with != []
    reads m
  {
    && AllRisked(costs, with)
    && m.expectancyRBeforeCosts == Some(Mean(RawRs(costs, with)) + Mean(LeftRs(costs, with)))
    && (NothingLeft(costs, with) ==> m.expectancyRBeforeCosts == Some(Mean(RawRs(costs, with))))
  }

  /** The report's expectancy before costs, over any list of trades with or without stops: the mean R at
      quoted prices of the trades that had one, plus what the round trip charges on anything they left
      open; exactly the mean R when they left nothing. */
  lemma ExpectancyBeforeCostsIsMeanRawR(m: BacktestMetrics, costs: CostModel, trades: seq<Trade>)
    requires costs.contractSize != 0.0 && forall t :: t in trades ==> t.order.quantity > 0.0
    requires StopTrades(costs, trades) != [] && Costed(Traded(AllPlayed(costs, trades)))
    requires ReportsCosts(m, Traded(AllPlayed(costs, trades)), costs)
    ensures ReportsRawR(m, costs, StopTrades(costs, trades))
  {
    hide RMultiples, CostRs, RawRs, LeftRs, RoundTrip, AllPlayed, Risked, Traded, WithR, Sum, StopTrades, NothingLeft, Friction, Costed;
    var with := StopTrades(costs, trades);
    ReportedTrades(costs, trades);
    MeansAddUp(costs, with);
    PlayedAreAsMany(costs, with);
    if NothingLeft(costs, with) {
      NothingLeftCostsNothing(costs, with);
    }
  }

  lemma PlayedAreAsMany(costs: CostModel, trades: seq<Trade>)
    requires trades != []
    ensures AllPlayed(costs, trades) != []
  {
    hide Played;
  }

  lemma DivideSum(a: real, b: real, n: real)
    requires n != 0.0
    ensures a / n + b / n == (a + b) / n
  {
  }
}
