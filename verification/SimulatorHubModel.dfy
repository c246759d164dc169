/** What the simulator remembers (src/qte_simulator/hub.py). */
module SimulatorHubModel {
  import opened Prelude
  import opened Timeframes
  import opened MarketData

  /** The hub as a value. `sent` is the wire: every tick published, as a client attached from the
      start receives them. */
  datatype HubState = HubState(
    ticksSent: nat, barsSent: nat, lastPrices: map<string, real>, lastTickTs: map<string, nat>,
    cursors: map<Series, nat>, sent: seq<Tick>)

  const EMPTY_HUB := HubState(0, 0, map[], map[], map[], [])

  function Published(h: HubState, tick: Tick): HubState
    requires tick.Price().Success?
  {
    h.(ticksSent := h.ticksSent + 1,
       lastPrices := h.lastPrices[tick.symbol := tick.Price().value],
       lastTickTs := h.lastTickTs[tick.symbol := tick.ts],
       sent := h.sent + [tick])
  }

  predicate AllPriced(ticks: seq<Tick>) {
    forall i :: 0 <= i < |ticks| ==> ticks[i].Price().Success?
  }

  function PublishedAll(h: HubState, ticks: seq<Tick>): HubState
    requires AllPriced(ticks)
  {
    if ticks == [] then h else Published(PublishedAll(h, Front(ticks)), Last(ticks))
  }

  function Moved(cursors: map<Series, nat>, series: Series, openTime: nat): map<Series, nat> {
    if series in cursors && openTime <= cursors[series] then cursors else cursors[series := openTime]
  }

  function CursorAdvanced(h: HubState, series: Series, openTime: nat): HubState {
    h.(cursors := Moved(h.cursors, series, openTime))
  }

  lemma MovedTwice(cursors: map<Series, nat>, series: Series, first: nat, second: nat)
    requires first <= second
    ensures Moved(Moved(cursors, series, first), series, second) == Moved(cursors, series, second)
  {
  }

  /** The last word on every symbol belongs to its last tick, and nothing else is touched. */
  lemma {:induction false} PublishingAppends(h: HubState, ticks: seq<Tick>, symbol: string)
    requires AllPriced(ticks) && forall i :: 0 <= i < |ticks| ==> ticks[i].symbol == symbol
    ensures var g := PublishedAll(h, ticks);
            && g.sent == h.sent + ticks && g.ticksSent == h.ticksSent + |ticks|
            && g.barsSent == h.barsSent && g.cursors == h.cursors
            && g.lastTickTs == (if ticks == [] then h.lastTickTs else h.lastTickTs[symbol := Last(ticks).ts])
            && g.lastPrices == (if ticks == [] then h.lastPrices else h.lastPrices[symbol := Last(ticks).Price().value])
  {
    if ticks != [] {
      PublishingAppends(h, Front(ticks), symbol);
      assert ticks == Front(ticks) + [Last(ticks)];
    }
  }

  /** A cursor is never rewound, and ends no earlier than the bar it was told about. */
  lemma CursorNeverMovesBack(h: HubState, series: Series, openTime: nat)
    ensures var g := CursorAdvanced(h, series, openTime);
            && series in g.cursors && g.cursors[series] >= openTime
            && (series in h.cursors ==> g.cursors[series] >= h.cursors[series])
            && (g.cursors[series] == openTime || (series in h.cursors && g.cursors[series] == h.cursors[series]))
            && (forall other :: other in h.cursors && other != series ==> other in g.cursors && g.cursors[other] == h.cursors[other])
            && g.(cursors := h.cursors) == h
  {
  }

  /** The server's only mutable state. */
  class SimulatorHub {
    var ticksSent: nat
    var barsSent: nat
    var lastPrices: map<string, real>
    var lastTickTs: map<string, nat>
    var cursors: map<Series, nat>
    ghost var sent: seq<Tick>

    constructor ()
      ensures View() == EMPTY_HUB
    {
      ticksSent, barsSent := 0, 0;
      lastPrices, lastTickTs, cursors := map[], map[], map[];
      sent := [];
    }

    ghost function View(): HubState
      reads this
    {
      HubState(ticksSent, barsSent, lastPrices, lastTickTs, cursors, sent)
    }

    method Publish(tick: Tick)
      requires tick.Price().Success?
      modifies this
      ensures View() == Published(old(View()), tick)
    {
      ticksSent := ticksSent + 1;
      lastPrices := lastPrices[tick.symbol := tick.Price().value];
      lastTickTs := lastTickTs[tick.symbol := tick.ts];
      sent := sent + [tick];
    }

    method PublishAll(ticks: seq<Tick>)
      requires AllPriced(ticks)
      modifies this
      ensures View() == PublishedAll(old(View()), ticks)
    {
      for i := 0 to |ticks|
        invariant View() == PublishedAll(old(View()), ticks[..i])
      {
        assert Front(ticks[..i + 1]) == ticks[..i];
        Publish(ticks[i]);
      }
      assert ticks[..|ticks|] == ticks;
    }

    function Cursor(series: Series): Option<nat>
      reads this
    {
      if series in cursors then Some(cursors[series]) else None
    }

    method AdvanceCursor(series: Series, openTime: nat)
      modifies this
      ensures View() == CursorAdvanced(old(View()), series, openTime)
    {
      var current := Cursor(series);
      if current.None? || openTime > current.value {
        cursors := cursors[series := openTime];
      }
    }
  }
}
