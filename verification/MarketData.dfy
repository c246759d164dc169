/** Ticks and candles: the vocabulary of the pipeline (src/qte_shared/models.py). */
module MarketData {
  import opened Prelude
  import opened Timeframes

  datatype PriceError = NoPrice

  datatype Tick = Tick(
    symbol: string, ts: nat, bid: Option<real>, ask: Option<real>, last: Option<real>, volume: real)
  {
    /** The trade price if there is one, else the mid, else whichever side is quoted. */
    function Price(): Result<real, PriceError> {
      if last.Some? then Success(last.value)
      else if bid.Some? && ask.Some? then Success((bid.value + ask.value) / 2.0)
      else if bid.Some? then Success(bid.value)
      else if ask.Some? then Success(ask.value)
      else Failure(NoPrice)
    }
  }

  /** A trade is the price whatever is quoted; a two-sided quote prices as far above its bid as below its
      ask; a one-sided one at its side; and nothing else has a price. */
  lemma PriceIs(tick: Tick)
    ensures tick.last.Some? ==> tick.Price() == Success(tick.last.value)
    ensures tick.last.None? && tick.bid.Some? && tick.ask.Some? ==>
              tick.Price().Success? && tick.Price().value - tick.bid.value == tick.ask.value - tick.Price().value
    ensures tick.last.None? && tick.bid.Some? && tick.ask.None? ==> tick.Price() == Success(tick.bid.value)
    ensures tick.last.None? && tick.bid.None? && tick.ask.Some? ==> tick.Price() == Success(tick.ask.value)
    ensures tick.Price().Failure? <==> tick.last.None? && tick.bid.None? && tick.ask.None?
  {
  }

  /** One OHLCV bar, keyed by its open time. */
  datatype Candle = Candle(
    symbol: string, timeframe: Timeframe, openTime: nat,
    open: real, high: real, low: real, close: real,
    volume: real, tickCount: nat, isClosed: bool)

  datatype Series = Series(symbol: string, timeframe: Timeframe)

  function SeriesOf(c: Candle): Series {
    Series(c.symbol, c.timeframe)
  }

  /** A tick whose price has been resolved: all a bar keeps of it. */
  datatype Quote = Quote(ts: nat, price: real, volume: real)

  predicate StrictlyNewer(candles: seq<Candle>) {
    forall i, j :: 0 <= i < j < |candles| ==> candles[i].openTime < candles[j].openTime
  }

  function OpenTimes(candles: seq<Candle>): (times: set<nat>)
    ensures forall t :: t in times <==> exists i :: 0 <= i < |candles| && candles[i].openTime == t
  {
    set i | 0 <= i < |candles| :: candles[i].openTime
  }
}
