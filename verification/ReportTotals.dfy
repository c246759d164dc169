/** The totals of a report, computed from nothing but the entries and the prices quoted for their exits. */
module ReportTotals {
  import opened Prelude
  import opened Execution
  import opened ExecutionLaws
  import opened ExecutionFills
  import opened Metrics

  function Exits(costs: CostModel, t: Trade): seq<Exit> {
    AllExits(costs, t.order, t.events)
  }

  predicate Sells(costs: CostModel, t: Trade) {
    Exits(costs, t) != []
  }

  /** The trades that sold something: those the report counts. */
  function Sellers(costs: CostModel, trades: seq<Trade>): (sellers: seq<Trade>)
    ensures forall t :: t in sellers ==> t in trades
  {
    if trades == [] then []
    else
      assert trades == Front(trades) + [Last(trades)];
      Sellers(costs, Front(trades)) + if Sells(costs, Last(trades)) then [Last(trades)] else []
  }

  /** What a trade made. */
  function Result(costs: CostModel, t: Trade): real {
    Made(costs, t.order, Exits(costs, t))
  }

  /** Commission, both ways. */
  function FeePaid(costs: CostModel, t: Trade): real {
    costs.contractSize * costs.commissionPerUnit * (t.order.quantity + Sold(Exits(costs, t)))
  }

  /** The spread crossed once and slippage paid twice, on the size entered. */
  function FrictionPaid(costs: CostModel, t: Trade): real {
    t.order.quantity * costs.contractSize * (costs.spread + 2.0 * costs.slippage)
  }

  /** What it made at quoted prices, and the round trip on what it never sold. */
  function RawResult(costs: CostModel, t: Trade): real {
    costs.contractSize * RawPnl(Exits(costs, t), t.order.price, t.order.side)
    + (costs.spread + 2.0 * costs.slippage) * costs.contractSize * (t.order.quantity - Sold(Exits(costs, t)))
  }

  function Results(costs: CostModel, trades: seq<Trade>): (results: seq<real>)
    ensures |results| == |trades|
  {
    if trades == [] then [] else Results(costs, Front(trades)) + [Result(costs, Last(trades))]
  }

  function FeesPaid(costs: CostModel, trades: seq<Trade>): real {
    if trades == [] then 0.0 else FeesPaid(costs, Front(trades)) + FeePaid(costs, Last(trades))
  }

  function AllFriction(costs: CostModel, trades: seq<Trade>): real {
    if trades == [] then 0.0 else AllFriction(costs, Front(trades)) + FrictionPaid(costs, Last(trades))
  }

  function RawResults(costs: CostModel, trades: seq<Trade>): real {
    if trades == [] then 0.0 else RawResults(costs, Front(trades)) + RawResult(costs, Last(trades))
  }

  predicate NoneNegative(trades: seq<Trade>) {
    forall t :: t in trades ==> t.order.quantity >= 0.0
  }

  lemma {:induction false} SellersAreTraded(costs: CostModel, trades: seq<Trade>)
    requires NoneNegative(trades)
    ensures Traded(AllPlayed(costs, trades)) == AllPlayed(costs, Sellers(costs, trades))
  {
    hide Played, Traded, AllPlayed, Sells, Position.NetPnl, Position.Fees;
    if trades == [] {
      NothingTraded(costs);
    } else {
      var (init, t) := (Front(trades), Last(trades));
      assert t in trades && forall u :: u in init ==> u in trades;
      SellersAreTraded(costs, init);
      PlayedMade(costs, t);
      assert trades == init + [t];
      PlayedOfOneMore(costs, init, t);
      PlayedOfOneMore(costs, Sellers(costs, init), t);
      TradedOfOneMore(AllPlayed(costs, init), Played(costs, t));
      assert Sellers(costs, init) + [] == Sellers(costs, init);
    }
  }

  /** One trade, every figure the report takes from it. */
  lemma PlayedMade(costs: CostModel, t: Trade)
    requires t.order.quantity >= 0.0
    ensures var p := Played(costs, t);
            && (p.legs != [] <==> Sells(costs, t)) && p.NetPnl() == Result(costs, t) && p.Fees() == FeePaid(costs, t)
            && Charged(p, RoundTrip(costs)) == FrictionPaid(costs, t)
  {
    hide Replay, AllExits, Position.NetPnl, Position.Fees, Made;
    NetIsWhatTheExitsMade(costs, t.order, t.events);
    BooksAgree(costs, t.order, t.events);
  }

  lemma {:induction false} TotalsOfPlayed(costs: CostModel, trades: seq<Trade>)
    requires NoneNegative(trades)
    ensures var ps := AllPlayed(costs, trades);
            && NetPnls(ps) == Results(costs, trades)
            && TotalFees(ps) == FeesPaid(costs, trades)
            && Friction(ps, RoundTrip(costs)) == AllFriction(costs, trades)
  {
    hide Position.NetPnl, Position.Fees, Result, FeePaid, FrictionPaid, RoundTrip, Played, Sells, Friction, NetPnls, TotalFees, Charged;
    if trades == [] {
      NoTotals(costs);
    } else {
      var (init, t) := (Front(trades), Last(trades));
      assert t in trades && forall u :: u in init ==> u in trades;
      TotalsOfPlayed(costs, init);
      PlayedMade(costs, t);
      assert trades == init + [t];
      hide AllPlayed, Results, FeesPaid, AllFriction;
      OneMoreTrade(costs, init, t);
      PlayedOfOneMore(costs, init, t);
      OneMorePosition(AllPlayed(costs, init), Played(costs, t), RoundTrip(costs));
    }
  }

  lemma OneMoreTrade(costs: CostModel, trades: seq<Trade>, t: Trade)
    ensures Results(costs, trades + [t]) == Results(costs, trades) + [Result(costs, t)]
    ensures FeesPaid(costs, trades + [t]) == FeesPaid(costs, trades) + FeePaid(costs, t)
    ensures AllFriction(costs, trades + [t]) == AllFriction(costs, trades) + FrictionPaid(costs, t)
  {
    hide Result, FeePaid, FrictionPaid;
    assert Front(trades + [t]) == trades;
  }

  lemma NoTotals(costs: CostModel)
    ensures Results(costs, []) == [] && FeesPaid(costs, []) == 0.0 && AllFriction(costs, []) == 0.0
    ensures AllPlayed(costs, []) == [] && NetPnls([]) == [] && TotalFees([]) == 0.0 && Friction([], RoundTrip(costs)) == 0.0
  {
  }

  function Charged(p: Position, roundTrip: real): real {
    Abs(p.quantity) * p.contractSize * roundTrip
  }

  lemma OneMorePosition(ps: seq<Position>, p: Position, roundTrip: real)
    ensures NetPnls(ps + [p]) == NetPnls(ps) + [p.NetPnl()] && TotalFees(ps + [p]) == TotalFees(ps) + p.Fees()
    ensures Friction(ps + [p], roundTrip) == Friction(ps, roundTrip) + Charged(p, roundTrip)
  {
    assert Front(ps + [p]) == ps && Last(ps + [p]) == p;
    hide Position.NetPnl, Position.Fees;
  }

  /** The balance after the first k results. */
  lemma {:induction false} CurvePoint(curve: seq<real>, start: real, pnls: seq<real>, k: nat)
    requires IsEquityCurve(curve, start, pnls) && k <= |pnls|
    ensures curve[k] == start + Sum(pnls[..k])
  {
    if k > 0 {
      CurvePoint(curve, start, pnls, k - 1);
      assert Front(pnls[..k]) == pnls[..k - 1];
    }
  }

  lemma {:induction false} CostsAddUp(costs: CostModel, trades: seq<Trade>)
    ensures Sum(Results(costs, trades)) + FeesPaid(costs, trades) + AllFriction(costs, trades) == RawResults(costs, trades)
  {
    hide Result, FeePaid, FrictionPaid, RawResult;
    if trades != [] {
      CostsAddUp(costs, Front(trades));
      OneTradesCosts(costs, Last(trades));
      SumOfOneMore(Results(costs, Front(trades)), Result(costs, Last(trades)));
    }
  }

  lemma OneTradesCosts(costs: CostModel, t: Trade)
    ensures Result(costs, t) + FeePaid(costs, t) + FrictionPaid(costs, t) == RawResult(costs, t)
  {
    var exits := Exits(costs, t);
    OneTradeAddsUp(costs.contractSize, costs.commissionPerUnit, costs.spread + 2.0 * costs.slippage, t.order.quantity, Sold(exits),
                   RawPnl(exits, t.order.price, t.order.side));
    hide AllExits, Sold, RawPnl;
  }

  lemma OneTradeAddsUp(cs: real, c: real, f: real, q: real, sold: real, raw: real)
    ensures (cs * (raw - f * sold) - cs * c * (q + sold)) + cs * c * (q + sold) + q * cs * f == cs * raw + f * cs * (q - sold)
  {
    assert cs * (raw - f * sold) == cs * raw - f * cs * sold;
    assert f * cs * (q - sold) == q * cs * f - f * cs * sold;
  }

  /** What a report says of its trades, said of their entries and exits alone. */
  ghost predicate AddsUp(m: BacktestMetrics, costs: CostModel, trades: seq<Trade>)
    reads m
  {
    var results := Results(costs, trades);
    && m.trades == |trades| > 0 && m.netPnl == Sum(results) && m.expectancy == Sum(results) / (|trades| as real)
    && m.wins == |Wins(results)| && m.losses == |Losses(results)| && m.winRate == 100.0 * m.wins as real / |trades| as real
    && m.grossProfit == Sum(Wins(results)) && m.grossLoss == Sum(Losses(results))
    && m.totalFees == FeesPaid(costs, trades) && m.spreadSlippageCost == AllFriction(costs, trades)
    && m.totalCost == m.totalFees + m.spreadSlippageCost && m.pnlBeforeCosts == RawResults(costs, trades)
    && |m.equityCurve| == |trades| + 1
    && (forall k :: 0 <= k <= |trades| ==> m.equityCurve[k] == m.startingEquity + Sum(results[..k]))
    && IsMaxDrawdown(m.equityCurve, m.maxDrawdown) && IsMaxDrawdownPct(m.equityCurve, m.maxDrawdownPct)
    && IsLongestRun(results, false, m.maxConsecutiveLosses) && IsLongestRun(results, true, m.maxConsecutiveWins)
  }

  /** Every total of a report over any list of trades is that of their entries and exits: the net is what they
      made, the fees and the friction what they paid, and with both added back it is what they made at quoted
      prices, plus the round trip on what they never sold. */
  lemma AReportAddsUp(m: BacktestMetrics, costs: CostModel, trades: seq<Trade>)
    requires NoneNegative(trades) && Traded(AllPlayed(costs, trades)) != [] && Costed(Traded(AllPlayed(costs, trades)))
    requires ReportsResults(m, Traded(AllPlayed(costs, trades))) && ReportsCosts(m, Traded(AllPlayed(costs, trades)), costs)
    ensures AddsUp(m, costs, Sellers(costs, trades))
  {
    hide Traded, Costed, AllPlayed, Made, Sum, Wins, Losses, IsMaxDrawdown, IsMaxDrawdownPct, IsLongestRun, NetPnls, TotalFees, Friction,
         WithR, RMultiples, CostRs, Mean, RoundTrip, IsEquityCurve, Results, FeesPaid, AllFriction, RawResults, Sellers;
    var sellers := Sellers(costs, trades);
    SellersAreTraded(costs, trades);
    TotalsOfPlayed(costs, sellers);
    CostsAddUp(costs, sellers);
    PlayedAsMany(costs, sellers);
    var results := Results(costs, sellers);
    CurveIsLong(m.equityCurve, m.startingEquity, results);
    forall k | 0 <= k <= |sellers| ensures m.equityCurve[k] == m.startingEquity + Sum(results[..k]) {
      CurvePoint(m.equityCurve, m.startingEquity, results, k);
    }
  }

  lemma CurveIsLong(curve: seq<real>, start: real, pnls: seq<real>)
    requires IsEquityCurve(curve, start, pnls)
    ensures |curve| == |pnls| + 1
  {
  }

  lemma PlayedAsMany(costs: CostModel, trades: seq<Trade>)
    ensures |AllPlayed(costs, trades)| == |trades|
  {
  }

  /** A trade's R is what it made over the risk it took: the distance from its fill to its stop, on its size. */
  lemma AnRIsTheResultOverTheRisk(costs: CostModel, t: Trade)
    requires costs.contractSize != 0.0 && t.order.quantity > 0.0
    ensures var (p, o) := (Played(costs, t), t.order);
            var fill := if o.side.Long? then o.price + costs.spread / 2.0 + costs.slippage else o.price - costs.spread / 2.0 - costs.slippage;
            && (HasR(p) <==> o.sl.Some? && o.sl.value != fill)
            && (HasR(p) ==> p.contractSize != 0.0
                            && RMultiple(p) * ((if fill > o.sl.value then fill - o.sl.value else o.sl.value - fill) * o.quantity * costs.contractSize)
                               == Result(costs, t))
  {
    hide Replay, AllExits, Position.NetPnl, Result, Exposure;
    PlayedRisk(costs, t);
    PlayedMade(costs, t);
  }
}
