/** The durable side of the pipeline (src/qte_shared/cache/redis_state.py): per series a window of
    closed bars and a staging watermark, and one outbox for all of them. */
module CandleStore {
  import opened Prelude
  import opened Timeframes
  import opened MarketData
  import opened ResamplerModel

  /** The fate of one await: it happened, it did not, or it did and the reply was lost. */
  datatype Outcome = Done | Failed | Lost

  datatype Store = Store(
    history: map<Series, seq<Candle>>, outbox: seq<Candle>, staged: map<Series, nat>,
    open: map<Series, Candle>)   // the bars being built, for a restart to resume

  const EMPTY_STORE := Store(map[], [], map[], map[])

  function Window(s: Store, series: Series): seq<Candle> {
    if series in s.history then s.history[series] else []
  }

  /** The watermark takes this bar for one that has been staged. */
  predicate IsDuplicate(s: Store, c: Candle) {
    SeriesOf(c) in s.staged && s.staged[SeriesOf(c)] >= c.openTime
  }

  /** The saved open bar is forgotten with the close of its bucket. */
  function Forgotten(open: map<Series, Candle>, c: Candle): map<Series, Candle> {
    if SeriesOf(c) in open && open[SeriesOf(c)].openTime == c.openTime then open - {SeriesOf(c)} else open
  }

  /** One atomic script: history, outbox and watermark move together or not at all. */
  function Staged(s: Store, c: Candle, limit: nat): Store {
    if IsDuplicate(s, c) then s
    else
      Store(s.history[SeriesOf(c) := Tail(Window(s, SeriesOf(c)) + [c], limit)], s.outbox + [c],
            s.staged[SeriesOf(c) := c.openTime], Forgotten(s.open, c))
  }

  function Saved(s: Store, c: Candle): Store {
    s.(open := s.open[SeriesOf(c) := c])
  }

  function Acked(s: Store): Store {
    if s.outbox == [] then s else s.(outbox := s.outbox[1..])
  }

  /** Swap a merged window in and raise the watermark, if the watermark is still what was read. */
  function Swapped(s: Store, series: Series, expected: Option<nat>, window: seq<Candle>, watermark: nat): Option<Store> {
    if expected != Mark(s, series) then None
    else Some(s.(history := s.history[series := window], staged := s.staged[series := watermark]))
  }

  function Mark(s: Store, series: Series): Option<nat> {
    if series in s.staged then Some(s.staged[series]) else None
  }

  /** A moment beyond a watermark, and one watermark not behind another. */
  predicate IsAbove(t: nat, level: Option<nat>) {
    level.None? || t > level.value
  }

  predicate AtLeast(a: Option<nat>, b: Option<nat>) {
    b.Some? ==> a.Some? && a.value >= b.value
  }

  /** What staging leaves: a bar not newer than its watermark changes nothing; any other ends its window, the
      outbox and the watermark, and takes the place of its own saved open bar but of no other. */
  lemma StagingIsAllOrNothing(s: Store, c: Candle, limit: nat, series: Series)
    ensures var g := Staged(s, c, limit);
            if Mark(s, SeriesOf(c)).Some? && c.openTime <= Mark(s, SeriesOf(c)).value then g == s
            else
              && g.outbox == s.outbox + [c] && Mark(g, SeriesOf(c)) == Some(c.openTime)
              && IsTheNewest(Window(g, SeriesOf(c)), Window(s, SeriesOf(c)) + [c], limit)
              && (series != SeriesOf(c) ==> Window(g, series) == Window(s, series) && Mark(g, series) == Mark(s, series))
              && (series in g.open <==> series in s.open && (series == SeriesOf(c) ==> s.open[series].openTime != c.openTime))
              && (series in g.open ==> g.open[series] == s.open[series])
  {
    TailIsTheNewest(Window(s, SeriesOf(c)) + [c], limit);
  }

  /** The last `limit` items of a list, or all of a shorter one. */
  predicate IsTheNewest(kept: seq<Candle>, all: seq<Candle>, limit: nat) {
    && |kept| == (if |all| <= limit then |all| else limit)
    && forall i :: 0 <= i < |kept| ==> kept[i] == all[|all| - |kept| + i]
  }

  lemma TailIsTheNewest(all: seq<Candle>, limit: nat)
    ensures IsTheNewest(Tail(all, limit), all, limit)
  {
    var kept := Tail(all, limit);
    forall i | 0 <= i < |kept| ensures kept[i] == all[|all| - |kept| + i] {
    }
  }

  class RedisState {
    const limit: nat
    var history: map<Series, seq<Candle>>
    var outbox: seq<Candle>
    var staged: map<Series, nat>
    var open: map<Series, Candle>

    constructor (limit: nat)
      ensures View() == EMPTY_STORE && this.limit == limit
    {
      this.limit := limit;
      history, outbox, staged, open := map[], [], map[], map[];
    }

    function View(): Store
      reads this
    {
      Store(history, outbox, staged, open)
    }

    method StageClosedCandle(c: Candle)
      modifies this
      ensures View() == Staged(old(View()), c, limit)
    {
      var series := SeriesOf(c);
      if series in staged && staged[series] >= c.openTime {
        return;
      }
      var window := if series in history then history[series] else [];
      history := history[series := Tail(window + [c], limit)];
      outbox := outbox + [c];
      staged := staged[series := c.openTime];
      if series in open && open[series].openTime == c.openTime {
        open := open - {series};
      }
    }

    method SetOpenCandle(c: Candle)
      modifies this
      ensures View() == Saved(old(View()), c)
    {
      open := open[SeriesOf(c) := c];
    }

    method PeekPendingCandle() returns (c: Option<Candle>)
      ensures c == if View().outbox == [] then None else Some(View().outbox[0])
    {
      c := if outbox == [] then None else Some(outbox[0]);
    }

    method AckPendingCandle()
      modifies this
      ensures View() == Acked(old(View()))
    {
      if outbox != [] {
        outbox := outbox[1..];
      }
    }
  }
}
