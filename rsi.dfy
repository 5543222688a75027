/** Wilder-smoothed Relative Strength Index over the closing prices of a candle window. */
module Rsi {
  import opened Market

  /** The look-back period the bot always uses. */
  const RSI_PERIOD: nat := 14
  /** Returned when the window holds no more closes than the period. */
  const NEUTRAL: real := 50.0
  /** Returned as soon as an average loss is zero. */
  const SATURATED: real := 100.0

  /** The i-th gain, max(closes[i+1] - closes[i], 0). */
  function Gain(closes: seq<real>, i: nat): (g: real)
    requires i + 1 < |closes|
    ensures g >= 0.0
  {
    var d := closes[i + 1] - closes[i];
    if d > 0.0 then d else 0.0
  }

  /** The i-th loss, max(closes[i] - closes[i+1], 0). */
  function Loss(closes: seq<real>, i: nat): (l: real)
    requires i + 1 < |closes|
    ensures l >= 0.0
  {
    var d := closes[i + 1] - closes[i];
    if d < 0.0 then -d else 0.0
  }

  /** Sum of the first k gains. */
  function SumGains(closes: seq<real>, k: nat): (r: real)
    requires k < |closes|
    ensures r >= 0.0
  {
    if k == 0 then 0.0 else SumGains(closes, k - 1) + Gain(closes, k - 1)
  }

  /** Sum of the first k losses. */
  function SumLosses(closes: seq<real>, k: nat): (r: real)
    requires k < |closes|
    ensures r >= 0.0
  {
    if k == 0 then 0.0 else SumLosses(closes, k - 1) + Loss(closes, k - 1)
  }

  /** 100 - 100 / (1 + rs) with rs = avgGain / avgLoss; it never reaches 100. */
  function Strength(avgGain: real, avgLoss: real): (r: real)
    requires avgGain >= 0.0 && avgLoss > 0.0
    ensures 0.0 <= r < 100.0
  {
    var rs := avgGain / avgLoss;
    assert rs >= 0.0;
    var q := 100.0 / (1.0 + rs);
    assert q * (1.0 + rs) == 100.0;
    assert 0.0 < q <= 100.0;
    100.0 - q
  }

  /** One Wilder smoothing step: (avg * (period - 1) + x) / period. */
  function Wilder(avg: real, x: real, period: nat): (r: real)
    requires period >= 1 && avg >= 0.0 && x >= 0.0
    ensures r >= 0.0
    ensures period >= 2 && avg > 0.0 ==> r > 0.0
  {
    var p := period as real;
    assert avg * (p - 1.0) >= 0.0;
    assert period >= 2 && avg > 0.0 ==> avg * (p - 1.0) > 0.0;
    (avg * (p - 1.0) + x) / p
  }

  /** The smoothing loop from gain index i on, given the current averages: the RSI of the
      last step, or SATURATED as soon as a smoothed average loss is zero. */
  function Smooth(closes: seq<real>, period: nat, i: nat, avgGain: real, avgLoss: real): (r: real)
    requires period >= 1 && i < |closes|
    requires avgGain >= 0.0 && avgLoss > 0.0
    ensures 0.0 <= r <= 100.0
    decreases |closes| - i
  {
    if i == |closes| - 1 then Strength(avgGain, avgLoss)
    else
      var g := Wilder(avgGain, Gain(closes, i), period);
      var l := Wilder(avgLoss, Loss(closes, i), period);
      if l == 0.0 then SATURATED else Smooth(closes, period, i + 1, g, l)
  }

  /** The RSI of a sequence of closes: NEUTRAL on too little data, SATURATED when the
      seeding average loss is zero, otherwise the smoothed value. */
  function RsiOf(closes: seq<real>, period: nat): (r: real)
    requires period >= 1
    ensures 0.0 <= r <= 100.0
  {
    if |closes| <= period then NEUTRAL
    else
      var avgGain := SumGains(closes, period) / period as real;
      var avgLoss := SumLosses(closes, period) / period as real;
      if avgLoss == 0.0 then SATURATED else Smooth(closes, period, period, avgGain, avgLoss)
  }

  /** calculate_rsi: the imperative smoothing loop, proved to compute RsiOf. */
  method CalculateRsi(candles: seq<Candle>, period: nat) returns (rsi: real)
    requires period >= 1
    ensures rsi == RsiOf(Closes(candles), period)
    ensures |candles| <= period ==> rsi == NEUTRAL
    ensures 0.0 <= rsi <= 100.0
  {
    var closes := Closes(candles);
    if |closes| <= period {
      return NEUTRAL;
    }
    var avgGain := SumGains(closes, period) / period as real;
    var avgLoss := SumLosses(closes, period) / period as real;
    if avgLoss == 0.0 {
      return SATURATED;
    }
    rsi := Strength(avgGain, avgLoss);
    var i := period;
    while i < |closes| - 1
      invariant period <= i <= |closes| - 1
      invariant avgGain >= 0.0 && avgLoss > 0.0
      invariant rsi == Strength(avgGain, avgLoss)
      invariant Smooth(closes, period, i, avgGain, avgLoss) == RsiOf(closes, period)
    {
      avgGain := Wilder(avgGain, Gain(closes, i), period);
      avgLoss := Wilder(avgLoss, Loss(closes, i), period);
      if avgLoss == 0.0 {
        return SATURATED;
      }
      rsi := Strength(avgGain, avgLoss);
      i := i + 1;
    }
  }

  // ---------------------------------------------------------------------------
  // Properties

  /** Closes that never fall have no losses in any prefix. */
  lemma {:induction false} NoFallNoLoss(closes: seq<real>, k: nat)
    requires k < |closes|
    requires forall i :: 0 <= i < |closes| - 1 ==> closes[i] <= closes[i + 1]
    ensures SumLosses(closes, k) == 0.0
  {
    if k > 0 {
      NoFallNoLoss(closes, k - 1);
    }
  }

  /** Closes that only fall have no gains in any prefix. */
  lemma {:induction false} OnlyFallNoGain(closes: seq<real>, k: nat)
    requires k < |closes|
    requires forall i :: 0 <= i < |closes| - 1 ==> closes[i] > closes[i + 1]
    ensures SumGains(closes, k) == 0.0
    ensures k > 0 ==> SumLosses(closes, k) > 0.0
  {
    if k > 0 {
      OnlyFallNoGain(closes, k - 1);
    }
  }

  /** A window whose closes never fall saturates at 100 once it is longer than the period. */
  lemma RsiNonDecreasingSaturates(closes: seq<real>, period: nat)
    requires period >= 1 && |closes| > period
    requires forall i :: 0 <= i < |closes| - 1 ==> closes[i] <= closes[i + 1]
    ensures RsiOf(closes, period) == SATURATED
  {
    NoFallNoLoss(closes, period);
  }

  /** With no gain from index i on and a positive average loss, every step keeps the
      average gain at zero, so the RSI is exactly 0. */
  lemma {:induction false} SmoothOnlyFallIsZero(closes: seq<real>, period: nat, i: nat, avgLoss: real)
    requires period >= 1 && i < |closes| && avgLoss > 0.0
    requires forall j :: 0 <= j < |closes| - 1 ==> closes[j] > closes[j + 1]
    ensures Smooth(closes, period, i, 0.0, avgLoss) == 0.0
    decreases |closes| - i
  {
    if i < |closes| - 1 {
      var l := Wilder(avgLoss, Loss(closes, i), period);
      assert Loss(closes, i) > 0.0;
      assert l > 0.0;
      assert Wilder(0.0, Gain(closes, i), period) == 0.0;
      SmoothOnlyFallIsZero(closes, period, i + 1, l);
    }
  }

  /** A strictly falling window longer than the period has RSI exactly 0. */
  lemma RsiStrictlyFallingIsZero(closes: seq<real>, period: nat)
    requires period >= 1 && |closes| > period
    requires forall i :: 0 <= i < |closes| - 1 ==> closes[i] > closes[i + 1]
    ensures RsiOf(closes, period) == 0.0
  {
    OnlyFallNoGain(closes, period);
    var avgLoss := SumLosses(closes, period) / period as real;
    assert avgLoss > 0.0;
    SmoothOnlyFallIsZero(closes, period, period, avgLoss);
  }

  /** For a period of at least 2 the in-loop saturation test never fires, so the smoothed
      RSI stays strictly below 100. */
  lemma {:induction false} SmoothBelowSaturation(closes: seq<real>, period: nat, i: nat, avgGain: real, avgLoss: real)
    requires period >= 2 && i < |closes|
    requires avgGain >= 0.0 && avgLoss > 0.0
    ensures Smooth(closes, period, i, avgGain, avgLoss) < 100.0
    decreases |closes| - i
  {
    if i < |closes| - 1 {
      var g := Wilder(avgGain, Gain(closes, i), period);
      var l := Wilder(avgLoss, Loss(closes, i), period);
      SmoothBelowSaturation(closes, period, i + 1, g, l);
    }
  }

  /** For a period of at least 2 (the bot uses 14) and enough data, the RSI is 100 exactly
      when the seeding window holds no loss. */
  lemma RsiSaturatesIff(closes: seq<real>, period: nat)
    requires period >= 2 && |closes| > period
    ensures RsiOf(closes, period) == SATURATED <==> SumLosses(closes, period) == 0.0
  {
    var avgGain := SumGains(closes, period) / period as real;
    var avgLoss := SumLosses(closes, period) / period as real;
    if avgLoss != 0.0 {
      SmoothBelowSaturation(closes, period, period, avgGain, avgLoss);
    }
  }
}
