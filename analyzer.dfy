/**
 * `analyze_stock` (app.py:89-163): from one symbol's indicator readings to
 * the record the scanner reports, or nothing when the history is too short.
 *
 * The indicators themselves (ATR, RSI, EMA, VWAP, the 20-day average volume)
 * are computed by pandas and are inputs here.
 */
module Analyzer {
  import opened Wrappers
  import opened Rounding
  import opened Scoring
  import opened EntryExit
  import Tickers

  /** The values `analyze_stock` reads off the last bar and its indicators. */
  datatype Indicators = Indicators(
    close: real, prevClose: real, volume: real, avgVolume: real,
    atr: real, vwap: real, rsi: RsiReading, ema9: real, ema21: real)

  /**
   * Readings the model accepts: the VWAP distance and the price change divide
   * by the VWAP and the previous close without a guard, so both are non-zero.
   */
  type Readings = m: Indicators | m.vwap != 0.0 && m.prevClose != 0.0
    witness Indicators(1.0, 1.0, 0.0, 0.0, 0.0, 1.0, Undefined, 0.0, 0.0)

  /** Fewer bars than this and the symbol is skipped. */
  const MinRows: nat := 20

  /** The row the scanner reports for one symbol. */
  datatype Record = Record(
    ticker: string, ltp: real, changePct: real, volumeRatio: real, atrPct: real,
    rsi: RsiReading, vwap: real, vwapDist: real, trend: Trend, score: int,
    signal: Signal, strategy: Strategy, plan: TradePlan)

  /** ATR as a percentage of the close; 0 when the close is not positive. */
  function AtrPct(close: real, atr: real): (r: real)
    ensures close > 0.0 ==> r * close == atr * 100.0
    ensures close <= 0.0 ==> r == 0.0
    ensures atr >= 0.0 ==> r >= 0.0
  {
    if close > 0.0 then atr / close * 100.0 else 0.0
  }

  /** Today's volume over its 20-day average; 0 when the average is not positive. */
  function VolumeRatio(volume: real, avgVolume: real): (r: real)
    ensures avgVolume > 0.0 ==> r * avgVolume == volume
    ensures avgVolume <= 0.0 ==> r == 0.0
    ensures volume >= 0.0 ==> r >= 0.0
  {
    if avgVolume > 0.0 then volume / avgVolume else 0.0
  }

  /**
   * How far `value` lies from `base`, in percent of `base`: the price change
   * against the previous close, and the distance of the close from the VWAP.
   */
  function PercentFrom(value: real, base: real): (r: real)
    requires base != 0.0
    ensures value == base * (1.0 + r / 100.0)
  {
    (value - base) / base * 100.0
  }

  /** `round(rsi, 1)`, with an undefined reading staying undefined. */
  function RoundRsi(rsi: RsiReading): (r: RsiReading)
    ensures r.Undefined? <==> rsi.Undefined?
    ensures rsi.Defined? ==> -0.05 <= r.value - rsi.value <= 0.05
  {
    match rsi
    case Defined(v) => Defined(Round1(v))
    case Undefined => Undefined
  }

  /** The score `analyze_stock` computes from the readings. */
  function ScoreOf(m: Readings): int {
    FinalScore(m.close, m.ema9, m.ema21, VolumeRatio(m.volume, m.avgVolume), AtrPct(m.close, m.atr), m.rsi)
  }

  /**
   * The record for a symbol with `rows` bars of history, or `None` when there
   * are fewer than 20.  Signal, strategy and plan are computed from the
   * unrounded readings; the reported ratios are rounded.
   */
  function Analyze(rows: nat, ticker: string, m: Readings): (r: Option<Record>)
    ensures r.None? <==> rows < MinRows
    ensures r.Some? ==>
      && r.value.ticker == Tickers.DisplayName(ticker)
      && r.value.score == ScoreOf(m)
      && -3 <= r.value.score <= 8
      && r.value.signal == SignalOf(r.value.score)
      && (r.value.trend == Bullish <==> MomentumScore(m.close, m.ema9, m.ema21) == 2)
      && (r.value.trend == Bearish <==> MomentumScore(m.close, m.ema9, m.ema21) == -2)
      && r.value.strategy == StrategyOf(m.close, m.vwap, m.rsi, VolumeRatio(m.volume, m.avgVolume),
                                        PercentFrom(m.close, m.prevClose), AtrPct(m.close, m.atr))
      && r.value.plan == CalculateEntryExit(m.close, m.atr, m.vwap, r.value.signal, m.rsi)
      && -0.005 <= r.value.ltp - m.close <= 0.005
      && -0.005 <= r.value.changePct - PercentFrom(m.close, m.prevClose) <= 0.005
      && -0.005 <= r.value.volumeRatio - VolumeRatio(m.volume, m.avgVolume) <= 0.005
      && -0.005 <= r.value.atrPct - AtrPct(m.close, m.atr) <= 0.005
      && r.value.rsi == RoundRsi(m.rsi)
      && -0.005 <= r.value.vwap - m.vwap <= 0.005
      && -0.005 <= r.value.vwapDist - PercentFrom(m.close, m.vwap) <= 0.005
  {
    if rows < MinRows then None
    else
      var volumeRatio := VolumeRatio(m.volume, m.avgVolume);
      var atrPct := AtrPct(m.close, m.atr);
      var changePct := PercentFrom(m.close, m.prevClose);
      var score := FinalScore(m.close, m.ema9, m.ema21, volumeRatio, atrPct, m.rsi);
      var signal := SignalOf(score);
      TrendMatchesMomentum(m.close, m.ema9, m.ema21);
      Some(Record(
        ticker := Tickers.DisplayName(ticker),
        ltp := Round2(m.close),
        changePct := Round2(changePct),
        volumeRatio := Round2(volumeRatio),
        atrPct := Round2(atrPct),
        rsi := RoundRsi(m.rsi),
        vwap := Round2(m.vwap),
        vwapDist := Round2(PercentFrom(m.close, m.vwap)),
        trend := TrendOf(m.close, m.ema9, m.ema21),
        score := score,
        signal := signal,
        strategy := StrategyOf(m.close, m.vwap, m.rsi, volumeRatio, changePct, atrPct),
        plan := CalculateEntryExit(m.close, m.atr, m.vwap, signal, m.rsi)))
  }

  /** A series shorter than 20 bars never yields a record, whatever its readings. */
  lemma ShortSeriesSkipped(rows: nat, ticker: string, m: Readings)
    requires rows < MinRows
    ensures Analyze(rows, ticker, m) == None
  {
  }

  /**
   * A worked example: close 100 above EMA9 99.5 above EMA21 99, volume 1.6x
   * its average, ATR 2 (exactly 2% of the close, so the volatility term is +1),
   * VWAP 99 and RSI 50.  The score is 2 + 2 + 1 + 2 = 7: STRONG BUY, a VWAP
   * Breakout, entry 99.80, stop 98.80, targets 101.30 and 102.80.
   */
  lemma StrongBuyBreakoutExample(ticker: string)
    ensures var m := Indicators(100.0, 99.0, 160.0, 100.0, 2.0, 99.0, Defined(50.0), 99.5, 99.0);
      var r := Analyze(25, ticker, m);
      && r.Some?
      && r.value.score == 7
      && r.value.signal == StrongBuy
      && r.value.strategy == VwapBreakout
      && r.value.trend == Bullish
      && r.value.plan == TradePlan(99.8, 98.8, 101.3, 102.8, 1.5)
  {
    var m := Indicators(100.0, 99.0, 160.0, 100.0, 2.0, 99.0, Defined(50.0), 99.5, 99.0);
    assert AtrPct(100.0, 2.0) == 2.0;
    assert VolumeRatio(160.0, 100.0) == 1.6;
    StrongBuyExample(99.0, Defined(50.0));
  }
}
