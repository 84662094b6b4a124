/** The pipeline of main.py's `main`: fetch the candles with the default
    retry bound, stop with an error when the fetch gave up, otherwise add
    the indicator columns and the `Indicator` column for the chart.

    RSI, MACD and the MACD signal line come from the `ta` library, whose
    algorithms are not part of this model: each is a parameter that maps the
    close column to a column of the same length. */
module App {
  import opened Wrappers
  import opened Fetcher
  import opened Indicators
  import opened Signals

  /** One row of the frame built from the exchange's OHLCV answer. */
  datatype Candle = Candle(timestamp: int, open: real, high: real, low: real, close: real, volume: real)

  /** The frame after `calculate_technical_indicators`: the candle rows and
      the columns RSI, MACD, MACD_Signal and MA. */
  datatype Frame = Frame(
    candles: seq<Candle>,
    rsi: seq<Option<real>>,
    macd: seq<Option<real>>,
    macdSignal: seq<Option<real>>,
    ma: seq<Option<real>>)

  /** What `main` shows: an error, or the chart's frame and signal column. */
  datatype Report = FetchFailed | Chart(frame: Frame, indicator: seq<Signal>)

  /** A column computed by the indicator library from the close column. */
  type Column = seq<real> -> seq<Option<real>>

  /** The library keeps the frame's index: one value per close. */
  ghost predicate Aligned(column: Column)
  {
    forall closes :: |column(closes)| == |closes|
  }

  /** The `Close` column. */
  function Closes(candles: seq<Candle>): seq<real>
  {
    seq(|candles|, i requires 0 <= i < |candles| => candles[i].close)
  }

  /** `calculate_technical_indicators`: the rows are kept as they are; RSI,
      MACD and MACD_Signal are the library's columns of the closes and MA is
      their 44-period moving average; every new column has one entry per row
      and MA is undefined exactly on the first 43 rows. */
  function CalculateTechnicalIndicators(candles: seq<Candle>, rsiOf: Column, macdOf: Column, macdSignalOf: Column)
    : (frame: Frame)
    requires Aligned(rsiOf) && Aligned(macdOf) && Aligned(macdSignalOf)
    ensures frame.candles == candles
    ensures frame.rsi == rsiOf(Closes(candles)) && frame.macd == macdOf(Closes(candles))
            && frame.macdSignal == macdSignalOf(Closes(candles))
    ensures frame.ma == MovingAverage(Closes(candles))
    ensures |frame.rsi| == |frame.macd| == |frame.macdSignal| == |frame.ma| == |candles|
    ensures forall t :: 0 <= t < |candles| ==> (frame.ma[t].None? <==> t < 43)
  {
    var closes := Closes(candles);
    Frame(candles, rsiOf(closes), macdOf(closes), macdSignalOf(closes), MovingAverage(closes))
  }

  /** `main` without its display: the fetch's log is passed on; the report is
      an error exactly when the fetch gave up, and otherwise holds the frame
      of the fetched candles and one signal per candle, each the rule of
      `Classify` applied to that row. */
  method RunMain(outcomes: seq<Outcome<seq<Candle>>>, rsiOf: Column, macdOf: Column, macdSignalOf: Column)
    returns (report: Report, log: seq<Event>)
    requires DefaultMaxRetries <= |outcomes|
    requires Aligned(rsiOf) && Aligned(macdOf) && Aligned(macdSignalOf)
    ensures log == Fetch(outcomes, DefaultMaxRetries).events
    ensures report.FetchFailed? <==> Fetch(outcomes, DefaultMaxRetries).data.None?
    ensures report.Chart? ==>
              && report.frame == CalculateTechnicalIndicators(
                   Fetch(outcomes, DefaultMaxRetries).data.value, rsiOf, macdOf, macdSignalOf)
              && |report.indicator| == |report.frame.candles|
              && forall t :: 0 <= t < |report.indicator| ==>
                   report.indicator[t] == Classify(report.frame.rsi[t], report.frame.macd[t], report.frame.macdSignal[t])
  {
    var data;
    ghost var attempts;
    data, attempts, log := FetchCryptoData(outcomes, DefaultMaxRetries);
    if data.None? {
      report := FetchFailed;
      return;
    }
    var frame := CalculateTechnicalIndicators(data.value, rsiOf, macdOf, macdSignalOf);
    var indicator := LabelSignals(frame.rsi, frame.macd, frame.macdSignal);
    report := Chart(frame, indicator);
  }
}
