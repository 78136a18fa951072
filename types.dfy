/** Record types of lib/types.ts: candles, indicator inputs and band points. */
module Types {
  import opened Wrappers

  /** One OHLCV candle; `timestamp` is in epoch milliseconds. */
  datatype Candle = Candle(timestamp: int, open: real, high: real, low: real, close: real, volume: Option<real>)

  /** The only moving-average kind the inputs admit. */
  datatype MaType = SMA

  /** The candle field the bands are computed from; "close" is the only one. */
  datatype PriceSource = Close

  /** Indicator inputs. `length` is the raw user number (the calculator
      floors and clamps it); `offset` is a whole number of bars. */
  datatype BollingerInputs = BollingerInputs(
    length: real,
    maType: MaType,
    source: PriceSource,
    stdDevMultiplier: real,
    offset: int)

  /** One output point; `None` in a band field is the NaN sentinel. */
  datatype BollingerResultPoint = BollingerResultPoint(
    timestamp: int,
    basis: Option<real>,
    upper: Option<real>,
    lower: Option<real>)

  /** The object `{ series }` the calculator returns and the chart receives. */
  datatype BollingerResult = BollingerResult(series: seq<BollingerResultPoint>)

  /** A point with all three band fields undefined. */
  function Undefined(timestamp: int): BollingerResultPoint {
    BollingerResultPoint(timestamp, None, None, None)
  }

  predicate IsUndefined(p: BollingerResultPoint) {
    p.basis == None && p.upper == None && p.lower == None
  }

  /** `d[src]`: the selected price of a candle. */
  function SourceValue(d: Candle, src: PriceSource): real {
    match src
    case Close => d.close
  }
}
