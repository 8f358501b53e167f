/**
 * `calculate_entry_exit` (app.py:65-86): entry, stop-loss, two targets and
 * a risk/reward ratio from the closing price, the ATR, the VWAP and the
 * signal.  Every level is rounded to whole cents.
 */
module EntryExit {
  import opened Rounding
  import opened Scoring

  datatype TradePlan = TradePlan(entry: real, stopLoss: real, target1: real, target2: real, riskReward: real)

  /** The risk/reward ratio used whenever the stop distance is not positive. */
  const DefaultRiskReward: real := 1.5

  /**
   * `round(reward / risk, 2)` when the risk is positive, and 1.5 otherwise;
   * never negative when the reward is not.
   */
  function RiskReward(reward: real, risk: real): (r: real)
    ensures IsCents(r)
    ensures risk > 0.0 ==> -0.005 <= r - reward / risk <= 0.005
    ensures risk <= 0.0 ==> r == DefaultRiskReward
    ensures reward >= 0.0 ==> r >= 0.0
  {
    if risk > 0.0 then
      var ratio := reward / risk;
      if reward >= 0.0 then Round2Zero(); Round2Monotone(0.0, ratio); Round2(ratio) else Round2(ratio)
    else DefaultRiskReward
  }

  /** The buy branch: enter 0.2% under the close. */
  function BuyPlan(close: real, atr: real): (p: TradePlan)
    ensures IsCents(p.entry) && IsCents(p.stopLoss) && IsCents(p.target1) && IsCents(p.target2)
    ensures IsCents(p.riskReward)
  {
    var entry := Round2(close * 0.998);
    var stopLoss := Round2(entry - atr * 0.5);
    var target1 := Round2(entry + atr * 0.75);
    TradePlan(entry, stopLoss, target1, Round2(entry + atr * 1.5), RiskReward(target1 - entry, entry - stopLoss))
  }

  /** The sell branch: enter 0.2% over the close. */
  function SellPlan(close: real, atr: real): (p: TradePlan)
    ensures IsCents(p.entry) && IsCents(p.stopLoss) && IsCents(p.target1) && IsCents(p.target2)
    ensures IsCents(p.riskReward)
  {
    var entry := Round2(close * 1.002);
    var stopLoss := Round2(entry + atr * 0.5);
    var target1 := Round2(entry - atr * 0.75);
    TradePlan(entry, stopLoss, target1, Round2(entry - atr * 1.5), RiskReward(entry - target1, stopLoss - entry))
  }

  /** The fallback branch: enter at the VWAP with a fixed risk/reward. */
  function NeutralPlan(vwap: real, atr: real): (p: TradePlan)
    ensures IsCents(p.entry) && IsCents(p.stopLoss) && IsCents(p.target1) && IsCents(p.target2)
    ensures p.riskReward == DefaultRiskReward
  {
    var entry := Round2(vwap);
    TradePlan(entry, Round2(entry - atr * 0.3), Round2(entry + atr * 0.5), Round2(entry + atr * 1.0), DefaultRiskReward)
  }

  /**
   * Buy signals enter just under the close, sell signals just over it, and
   * everything else enters at the VWAP.  `rsi` is accepted and not used.
   */
  function CalculateEntryExit(close: real, atr: real, vwap: real, signal: Signal, rsi: RsiReading): (p: TradePlan)
    ensures IsCents(p.entry) && IsCents(p.stopLoss) && IsCents(p.target1) && IsCents(p.target2)
    ensures IsCents(p.riskReward)
  {
    if signal.IsBuy() then BuyPlan(close, atr)
    else if signal.IsSell() then SellPlan(close, atr)
    else NeutralPlan(vwap, atr)
  }

  /** Rounding a cent value plus a non-negative offset never goes below it. */
  lemma RoundAbove(c: real, d: real)
    requires IsCents(c) && d >= 0.0
    ensures c <= Round2(c + d)
  {
    Round2OfCents(c);
    Round2Monotone(c, c + d);
  }

  /** Rounding a cent value minus a non-negative offset never goes above it. */
  lemma RoundBelow(c: real, d: real)
    requires IsCents(c) && d >= 0.0
    ensures Round2(c - d) <= c
  {
    Round2OfCents(c);
    Round2Monotone(c - d, c);
  }

  /**
   * Buy plans: the entry is within half a cent of 0.998 x close, and with a
   * non-negative ATR the levels are ordered stop <= entry <= target1 <= target2,
   * each within half a cent of entry - 0.5 ATR, entry + 0.75 ATR, entry + 1.5 ATR;
   * the risk/reward is never negative.
   */
  lemma BuyPlanLevels(close: real, atr: real, vwap: real, signal: Signal, rsi: RsiReading)
    requires signal.IsBuy() && atr >= 0.0
    ensures var p := CalculateEntryExit(close, atr, vwap, signal, rsi);
      && -0.005 <= p.entry - close * 0.998 <= 0.005
      && p.stopLoss <= p.entry <= p.target1 <= p.target2
      && -0.005 <= p.stopLoss - (p.entry - atr * 0.5) <= 0.005
      && -0.005 <= p.target1 - (p.entry + atr * 0.75) <= 0.005
      && -0.005 <= p.target2 - (p.entry + atr * 1.5) <= 0.005
      && p.riskReward >= 0.0
  {
    var p := CalculateEntryExit(close, atr, vwap, signal, rsi);
    var e := p.entry;
    RoundBelow(e, atr * 0.5);
    RoundAbove(e, atr * 0.75);
    Round2Monotone(e + atr * 0.75, e + atr * 1.5);
  }

  /** Sell plans mirror buy plans around 1.002 x close: target2 <= target1 <= entry <= stop. */
  lemma SellPlanLevels(close: real, atr: real, vwap: real, signal: Signal, rsi: RsiReading)
    requires signal.IsSell() && atr >= 0.0
    ensures var p := CalculateEntryExit(close, atr, vwap, signal, rsi);
      && -0.005 <= p.entry - close * 1.002 <= 0.005
      && p.target2 <= p.target1 <= p.entry <= p.stopLoss
      && -0.005 <= p.stopLoss - (p.entry + atr * 0.5) <= 0.005
      && -0.005 <= p.target1 - (p.entry - atr * 0.75) <= 0.005
      && -0.005 <= p.target2 - (p.entry - atr * 1.5) <= 0.005
      && p.riskReward >= 0.0
  {
    var p := CalculateEntryExit(close, atr, vwap, signal, rsi);
    var e := p.entry;
    RoundAbove(e, atr * 0.5);
    RoundBelow(e, atr * 0.75);
    Round2Monotone(e - atr * 1.5, e - atr * 0.75);
  }

  /**
   * Neutral plans enter at the VWAP rounded to cents and always report a
   * risk/reward of 1.5; the stop and targets are within half a cent of
   * entry - 0.3 ATR, entry + 0.5 ATR and entry + ATR, and with a non-negative
   * ATR the levels are ordered.
   */
  lemma NeutralPlanLevels(close: real, atr: real, vwap: real, rsi: RsiReading)
    requires atr >= 0.0
    ensures var p := CalculateEntryExit(close, atr, vwap, Neutral, rsi);
      && p.entry == Round2(vwap)
      && -0.005 <= p.stopLoss - (p.entry - atr * 0.3) <= 0.005
      && -0.005 <= p.target1 - (p.entry + atr * 0.5) <= 0.005
      && -0.005 <= p.target2 - (p.entry + atr * 1.0) <= 0.005
      && p.stopLoss <= p.entry <= p.target1 <= p.target2
      && p.riskReward == DefaultRiskReward
  {
    var e := Round2(vwap);
    RoundBelow(e, atr * 0.3);
    RoundAbove(e, atr * 0.5);
    Round2Monotone(e + atr * 0.5, e + atr * 1.0);
  }

  /**
   * With a zero ATR every level collapses onto the entry, the stop distance
   * is zero and the risk/reward falls back to 1.5, whatever the signal.
   */
  lemma ZeroAtrCollapses(close: real, vwap: real, signal: Signal, rsi: RsiReading)
    ensures var p := CalculateEntryExit(close, 0.0, vwap, signal, rsi);
      && p.stopLoss == p.entry && p.target1 == p.entry && p.target2 == p.entry
      && p.riskReward == DefaultRiskReward
  {
    var p := CalculateEntryExit(close, 0.0, vwap, signal, rsi);
    Round2OfCents(p.entry);
    assert p.entry - 0.0 * 0.5 == p.entry + 0.0 * 0.5 == p.entry + 0.0 * 0.75 == p.entry - 0.0 * 0.75;
    assert p.entry + 0.0 * 1.5 == p.entry - 0.0 * 1.5 == p.entry - 0.0 * 0.3 == p.entry + 0.0 * 1.0 == p.entry;
  }

  /**
   * Above a price of 2.5 the entry of a buy plan is strictly under the close
   * and that of a sell plan strictly over it.
   */
  lemma EntrySideOfClose(close: real, atr: real, vwap: real, signal: Signal, rsi: RsiReading)
    requires close > 2.5
    ensures signal.IsBuy() ==> CalculateEntryExit(close, atr, vwap, signal, rsi).entry < close
    ensures signal.IsSell() ==> CalculateEntryExit(close, atr, vwap, signal, rsi).entry > close
  {
  }

  /** At a price of 2.5 the 0.2% discount rounds away: the buy entry equals the close. */
  lemma EntryAtCloseForSmallPrice()
    ensures CalculateEntryExit(2.5, 0.0, 0.0, Buy, Undefined).entry == 2.5
  {
    assert 2.5 * 0.998 * 100.0 == 249.5;
    assert (249.5).Floor == 249;
  }

  /** The RSI argument has no influence on the plan. */
  lemma RsiIsIgnored(close: real, atr: real, vwap: real, signal: Signal, rsi1: RsiReading, rsi2: RsiReading)
    ensures CalculateEntryExit(close, atr, vwap, signal, rsi1) == CalculateEntryExit(close, atr, vwap, signal, rsi2)
  {
  }

  /** A close of 100 with an ATR of 2 under a STRONG BUY: entry 99.80, stop 98.80, targets 101.30 and 102.80. */
  lemma StrongBuyExample(vwap: real, rsi: RsiReading)
    ensures CalculateEntryExit(100.0, 2.0, vwap, StrongBuy, rsi) == TradePlan(99.8, 98.8, 101.3, 102.8, 1.5)
  {
    RoundHalfEvenOfInt(9980);
    RoundHalfEvenOfInt(9880);
    RoundHalfEvenOfInt(10130);
    RoundHalfEvenOfInt(10280);
    RoundHalfEvenOfInt(150);
    assert 100.0 * 0.998 * 100.0 == 9980 as real;
    assert (99.8 - 2.0 * 0.5) * 100.0 == 9880 as real;
    assert (99.8 + 2.0 * 0.75) * 100.0 == 10130 as real;
    assert (99.8 + 2.0 * 1.5) * 100.0 == 10280 as real;
    assert (101.3 - 99.8) / (99.8 - 98.8) * 100.0 == 150 as real;
  }
}
