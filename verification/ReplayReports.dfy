/** What a run's report adds up to, from the stories of its positions. */
module ReplayReports {
  import opened Prelude
  import opened Execution
  import opened ExecutionLaws
  import opened Metrics
  import opened ReportTotals
  import opened BacktestReplay
  import opened ReplayLaws
  import opened ReplaySteps
  import opened ReplayStories

  /** Behind each position a run reports, the trade it was and the publication it was entered on. */
  ghost predicate AreTheTrades(setup: Setup, frame: seq<Bar>, f: Engine, trades: seq<Trade>, pubs: seq<Publication>)
    requires setup.warmup >= 1 && frame != []
  {
    && |trades| == |pubs| == |f.positions|
    && forall i :: 0 <= i < |trades| ==>
         Lived(setup, f, f.positions[i], HeldBars(setup, frame, |frame| - 1, i), EntryBar(setup, frame, |frame| - 1, i), trades[i], pubs[i])
  }

  /** Marking out is a close like any other. */
  lemma MarkingOutTells(setup: Setup, e: Engine, bar: Bar, bars: nat -> seq<Bar>, entered: nat -> Bar)
    requires AllStories(setup, e, bars, entered)
    ensures AllStories(setup, MarkedOut(e, setup.costs, bar), bars, entered)
  {
    hide Story, AfterClose;
    var f := MarkedOut(e, setup.costs, bar);
    FillingGrows(e, f);
    forall i | 0 <= i < |e.positions| ensures Story(setup, f, f.positions[i], bars(i), entered(i)) {
      if i in e.open.Values {
        StoryGoesOn(setup, e, e.positions[i], bars(i), entered(i), OnClose(bar.time, bar.ohlc.close, EndOfData, None, None));
        assert bars(i) + [] == bars(i);
      }
      StoryStays(setup, e, f, f.positions[i], bars(i), entered(i));
    }
  }

  lemma {:induction false} TellThemAll(setup: Setup, f: Engine, bars: nat -> seq<Bar>, entered: nat -> Bar, n: nat)
      returns (trades: seq<Trade>, pubs: seq<Publication>)
    requires AllStories(setup, f, bars, entered) && n <= |f.positions|
    ensures |trades| == |pubs| == n
    ensures forall i :: 0 <= i < n ==> Lived(setup, f, f.positions[i], bars(i), entered(i), trades[i], pubs[i])
  {
    hide Lived;
    trades, pubs := [], [];
    if n > 0 {
      var ts, ps := TellThemAll(setup, f, bars, entered, n - 1);
      assert Story(setup, f, f.positions[n - 1], bars(n - 1), entered(n - 1));
      var t: Trade, pub: Publication :| Lived(setup, f, f.positions[n - 1], bars(n - 1), entered(n - 1), t, pub);
      trades, pubs := ts + [t], ps + [pub];
    }
  }

  /** Every position a run reports is the trade of a published entry through exactly the bars it was held. */
  lemma ARunIsItsTrades(setup: Setup, frame: seq<Bar>) returns (trades: seq<Trade>, pubs: seq<Publication>)
    requires setup.warmup >= 1 && RunOver(setup, frame).Success?
    ensures AreTheTrades(setup, frame, RunOver(setup, frame).value, trades, pubs)
  {
    hide StateAfter, AllStories, Lived, HeldBars, EntryBar, MarkedOut;
    var n := |frame| - 1;
    EveryPositionLivesItsBars(setup, frame, n);
    var bars := (i: nat) => HeldBars(setup, frame, n, i);
    var entered := (i: nat) => EntryBar(setup, frame, n, i);
    MarkingOutTells(setup, StateAfter(setup, frame, n), Last(frame), bars, entered);
    var f := MarkedOut(StateAfter(setup, frame, n), setup.costs, Last(frame));
    trades, pubs := TellThemAll(setup, f, bars, entered, |f.positions|);
  }

  lemma PublishedHaveASize(setup: Setup, f: Engine, p: Position, bars: seq<Bar>, entered: Bar, t: Trade, pub: Publication)
    requires Lawful(setup) && Lived(setup, f, p, bars, entered, t, pub)
    ensures t.order.quantity > 0.0
  {
    hide BarsIn, Played;
    assert AcceptableEntry(pub.signal, pub.intent.action);
  }

  lemma PlayedIs(setup: Setup, f: Engine, p: Position, bars: seq<Bar>, entered: Bar, t: Trade, pub: Publication)
    requires Lived(setup, f, p, bars, entered, t, pub)
    ensures Played(setup.costs, t) == p
  {
    hide Played, BarsIn, IsPublished, IsOrderOf;
  }

  lemma TradesArePlayed(setup: Setup, frame: seq<Bar>, f: Engine, trades: seq<Trade>, pubs: seq<Publication>)
    requires setup.warmup >= 1 && frame != [] && Lawful(setup) && AreTheTrades(setup, frame, f, trades, pubs)
    ensures AllPlayed(setup.costs, trades) == f.positions && NoneNegative(trades)
  {
    hide Lived, HeldBars, EntryBar, Played, Lawful;
    var n := |frame| - 1;
    forall i | 0 <= i < |trades| ensures Played(setup.costs, trades[i]) == f.positions[i] && trades[i].order.quantity > 0.0 {
      PublishedHaveASize(setup, f, f.positions[i], HeldBars(setup, frame, n, i), EntryBar(setup, frame, n, i), trades[i], pubs[i]);
      PlayedIs(setup, f, f.positions[i], HeldBars(setup, frame, n, i), EntryBar(setup, frame, n, i), trades[i], pubs[i]);
    }
  }

  /** And the report of a run adds up: its totals are those of these trades, from what they were entered at and
      what was quoted for their exits. */
  lemma ARunAddsUp(setup: Setup, frame: seq<Bar>, m: BacktestMetrics) returns (trades: seq<Trade>, pubs: seq<Publication>)
    requires setup.warmup >= 1 && Lawful(setup) && RunOver(setup, frame).Success?
    requires Traded(RunOver(setup, frame).value.positions) != [] && Costed(Traded(RunOver(setup, frame).value.positions))
    requires ReportsResults(m, Traded(RunOver(setup, frame).value.positions))
    requires ReportsCosts(m, Traded(RunOver(setup, frame).value.positions), setup.costs)
    ensures AreTheTrades(setup, frame, RunOver(setup, frame).value, trades, pubs)
    ensures AddsUp(m, setup.costs, Sellers(setup.costs, trades))
  {
    hide RunOver, Lawful, AreTheTrades, Traded, Costed, ReportsResults, ReportsCosts, AddsUp, Sellers;
    trades, pubs := ARunIsItsTrades(setup, frame);
    HistoryIsThere(setup, frame);
    TradesArePlayed(setup, frame, RunOver(setup, frame).value, trades, pubs);
    AReportAddsUp(m, setup.costs, trades);
  }

  lemma HistoryIsThere(setup: Setup, frame: seq<Bar>)
    requires setup.warmup >= 1 && RunOver(setup, frame).Success?
    ensures frame != []
  {
  }
}
