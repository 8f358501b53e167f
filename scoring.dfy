/**
 * The scoring, signal, strategy and trend rules of `analyze_stock`
 * (app.py:110-139 and app.py:152): threshold logic over indicator readings.
 */
module Scoring {

  /**
   * A 14-period RSI reading.  When the trailing window has neither gains
   * nor losses, pandas computes 0/0 and the reading is NaN; `Undefined`
   * stands for that value, and like NaN it fails every comparison.
   */
  datatype RsiReading = Defined(value: real) | Undefined

  /** `lo < rsi < hi` as Python evaluates it. */
  predicate RsiBetween(rsi: RsiReading, lo: real, hi: real) {
    rsi.Defined? && lo < rsi.value < hi
  }

  /** `rsi < bound` as Python evaluates it. */
  predicate RsiBelow(rsi: RsiReading, bound: real) {
    rsi.Defined? && rsi.value < bound
  }

  /** `rsi > bound` as Python evaluates it. */
  predicate RsiAbove(rsi: RsiReading, bound: real) {
    rsi.Defined? && rsi.value > bound
  }

  /** Reported as "STRONG BUY", "BUY", "NEUTRAL", "SELL" and "STRONG SELL". */
  datatype Signal = StrongBuy | Buy | Neutral | Sell | StrongSell {
    predicate IsBuy() { this == StrongBuy || this == Buy }

    predicate IsSell() { this == StrongSell || this == Sell }
  }

  /** Reported as "VWAP Breakout", "VWAP Support", "Gap Trade", "Momentum Scalp" and "Range Trade". */
  datatype Strategy = VwapBreakout | VwapSupport | GapTrade | MomentumScalp | RangeTrade

  /** Reported as "Bullish", "Bearish" and "Neutral". */
  datatype Trend = Bullish | Bearish | NoTrend

  function Abs(x: real): real {
    if x < 0.0 then -x else x
  }

  /** Price above a rising EMA stack scores +2, below a falling one -2. */
  function MomentumScore(close: real, ema9: real, ema21: real): (s: int)
    ensures s in {-2, 0, 2}
  {
    if close > ema9 > ema21 then 2
    else if close < ema9 < ema21 then -2
    else 0
  }

  /** Volume above 1.5x (resp. 1.2x) its 20-day average scores +2 (resp. +1). */
  function VolumeScore(volumeRatio: real): (s: int)
    ensures s in {0, 1, 2}
  {
    if volumeRatio > 1.5 then 2
    else if volumeRatio > 1.2 then 1
    else 0
  }

  /** ATR above 2% (resp. 1.5%) of the price scores +2 (resp. +1). */
  function VolatilityScore(atrPct: real): (s: int)
    ensures s in {0, 1, 2}
  {
    if atrPct > 2.0 then 2
    else if atrPct > 1.5 then 1
    else 0
  }

  /** RSI strictly inside (40, 60) scores +2, strictly inside (60, 70) or (30, 40) +1, anything else -1. */
  function RsiScore(rsi: RsiReading): (s: int)
    ensures s in {-1, 1, 2}
  {
    if RsiBetween(rsi, 40.0, 60.0) then 2
    else if RsiBetween(rsi, 60.0, 70.0) || RsiBetween(rsi, 30.0, 40.0) then 1
    else -1
  }

  /**
   * `final_score`: the sum of the four sub-scores.  Only the momentum and
   * RSI terms can be negative, so the sum never falls below -3.
   */
  function FinalScore(close: real, ema9: real, ema21: real, volumeRatio: real, atrPct: real, rsi: RsiReading): (s: int)
    ensures -3 <= s <= 8
  {
    MomentumScore(close, ema9, ema21) + VolumeScore(volumeRatio) + VolatilityScore(atrPct) + RsiScore(rsi)
  }

  /** The first-match signal bands on `final_score`. */
  function SignalOf(score: int): (sig: Signal)
    ensures sig == StrongBuy <==> score >= 5
    ensures sig == Buy <==> 3 <= score <= 4
    ensures sig == Neutral <==> -2 <= score <= 2
    ensures sig == Sell <==> -4 <= score <= -3
    ensures sig == StrongSell <==> score <= -5
  {
    if score >= 5 then StrongBuy
    else if score >= 3 then Buy
    else if score <= -5 then StrongSell
    else if score <= -3 then Sell
    else Neutral
  }

  /** The first-match strategy decision tree; it does not look at the signal. */
  function StrategyOf(close: real, vwap: real, rsi: RsiReading, volumeRatio: real,
                      priceChangePct: real, atrPct: real): (r: Strategy)
    ensures r == VwapBreakout <==> close > vwap && RsiBelow(rsi, 70.0) && volumeRatio > 1.2
    ensures r == VwapSupport ==> close < vwap && RsiAbove(rsi, 30.0) && volumeRatio > 1.2
    ensures r == GapTrade ==> Abs(priceChangePct) > 2.0
    ensures r == MomentumScalp ==> atrPct > 2.0 && RsiBetween(rsi, 40.0, 60.0)
  {
    if close > vwap && RsiBelow(rsi, 70.0) && volumeRatio > 1.2 then VwapBreakout
    else if close < vwap && RsiAbove(rsi, 30.0) && volumeRatio > 1.2 then VwapSupport
    else if Abs(priceChangePct) > 2.0 then GapTrade
    else if atrPct > 2.0 && RsiBetween(rsi, 40.0, 60.0) then MomentumScalp
    else RangeTrade
  }

  /** The trend label reported beside the score. */
  function TrendOf(close: real, ema9: real, ema21: real): (r: Trend)
    ensures r == Bullish ==> close > ema21
    ensures r == Bearish ==> close < ema21
    ensures close == ema9 || ema9 == ema21 ==> r == NoTrend
  {
    if close > ema9 > ema21 then Bullish
    else if close < ema9 < ema21 then Bearish
    else NoTrend
  }

  /** The trend label is a renaming of the momentum sub-score. */
  lemma TrendMatchesMomentum(close: real, ema9: real, ema21: real)
    ensures TrendOf(close, ema9, ema21) == Bullish <==> MomentumScore(close, ema9, ema21) == 2
    ensures TrendOf(close, ema9, ema21) == Bearish <==> MomentumScore(close, ema9, ema21) == -2
    ensures TrendOf(close, ema9, ema21) == NoTrend <==> MomentumScore(close, ema9, ema21) == 0
  {
  }

  /** Every RSI band is open: readings of exactly 30, 40, 60 or 70, and an undefined reading, score -1. */
  lemma RsiBoundariesScoreLow(v: real)
    requires v == 30.0 || v == 40.0 || v == 60.0 || v == 70.0
    ensures RsiScore(Defined(v)) == -1
    ensures RsiScore(Undefined) == -1
  {
  }

  /** A higher volume ratio never lowers the volume sub-score. */
  lemma VolumeScoreMonotone(r1: real, r2: real)
    requires r1 <= r2
    ensures VolumeScore(r1) <= VolumeScore(r2)
  {
  }

  /** A higher ATR percentage never lowers the volatility sub-score. */
  lemma VolatilityScoreMonotone(p1: real, p2: real)
    requires p1 <= p2
    ensures VolatilityScore(p1) <= VolatilityScore(p2)
  {
  }

  /** The score bands are never crossed on the sell side: STRONG SELL is unreachable and SELL happens only at -3. */
  lemma SellSignalsAtFloor(close: real, ema9: real, ema21: real, volumeRatio: real, atrPct: real, rsi: RsiReading)
    ensures SignalOf(FinalScore(close, ema9, ema21, volumeRatio, atrPct, rsi)) != StrongSell
    ensures SignalOf(FinalScore(close, ema9, ema21, volumeRatio, atrPct, rsi)) == Sell
        <==> FinalScore(close, ema9, ema21, volumeRatio, atrPct, rsi) == -3
  {
  }

  /** The floor -3 is reached exactly when every sub-score is at its minimum. */
  lemma FloorScoreIff(close: real, ema9: real, ema21: real, volumeRatio: real, atrPct: real, rsi: RsiReading)
    ensures FinalScore(close, ema9, ema21, volumeRatio, atrPct, rsi) == -3
        <==> close < ema9 < ema21 && volumeRatio <= 1.2 && atrPct <= 1.5 && RsiScore(rsi) == -1
  {
    var m, v, a, r := MomentumScore(close, ema9, ema21), VolumeScore(volumeRatio), VolatilityScore(atrPct), RsiScore(rsi);
    assert m == -2 <==> close < ema9 < ema21;
    assert m >= -2 && v >= 0 && a >= 0 && r >= -1;
  }

  /** The ceiling 8 is reached exactly when every sub-score is at its maximum. */
  lemma CeilingScoreIff(close: real, ema9: real, ema21: real, volumeRatio: real, atrPct: real, rsi: RsiReading)
    ensures FinalScore(close, ema9, ema21, volumeRatio, atrPct, rsi) == 8
        <==> close > ema9 > ema21 && volumeRatio > 1.5 && atrPct > 2.0 && RsiBetween(rsi, 40.0, 60.0)
  {
    var m, v, a, r := MomentumScore(close, ema9, ema21), VolumeScore(volumeRatio), VolatilityScore(atrPct), RsiScore(rsi);
    assert m == 2 <==> close > ema9 > ema21;
    assert m <= 2 && v <= 2 && a <= 2 && r <= 2;
  }

  /** A price above VWAP with RSI under 70 and volume above 1.2x is always a VWAP Breakout. */
  lemma BreakoutTakesPrecedence(close: real, vwap: real, rsi: RsiReading, volumeRatio: real,
                                priceChangePct: real, atrPct: real)
    requires close > vwap && RsiBelow(rsi, 70.0) && volumeRatio > 1.2
    ensures StrategyOf(close, vwap, rsi, volumeRatio, priceChangePct, atrPct) == VwapBreakout
  {
  }

  /** Momentum Scalp is reached only after both VWAP rules and the gap rule fail. */
  lemma MomentumScalpConditions(close: real, vwap: real, rsi: RsiReading, volumeRatio: real,
                                priceChangePct: real, atrPct: real)
    ensures StrategyOf(close, vwap, rsi, volumeRatio, priceChangePct, atrPct) == MomentumScalp
        <==> && !(close > vwap && RsiBelow(rsi, 70.0) && volumeRatio > 1.2)
             && !(close < vwap && RsiAbove(rsi, 30.0) && volumeRatio > 1.2)
             && -2.0 <= priceChangePct <= 2.0
             && atrPct > 2.0 && RsiBetween(rsi, 40.0, 60.0)
  {
  }

  /** Range Trade is the answer exactly when all four rules fail. */
  lemma RangeTradeIff(close: real, vwap: real, rsi: RsiReading, volumeRatio: real,
                      priceChangePct: real, atrPct: real)
    ensures StrategyOf(close, vwap, rsi, volumeRatio, priceChangePct, atrPct) == RangeTrade
        <==> && !(close > vwap && RsiBelow(rsi, 70.0) && volumeRatio > 1.2)
             && !(close < vwap && RsiAbove(rsi, 30.0) && volumeRatio > 1.2)
             && !(Abs(priceChangePct) > 2.0)
             && !(atrPct > 2.0 && RsiBetween(rsi, 40.0, 60.0))
  {
  }
}
