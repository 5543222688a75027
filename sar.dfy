/** Parabolic SAR (stop and reverse) over the highs and lows of a candle window. */
module ParabolicSar {
  import opened Market

  /** The direction reported to the caller. */
  datatype Trend = Uptrend | Downtrend

  /** The direction the loop tracks internally ('up' / 'down'). */
  datatype Direction = Up | Down

  const AF_START: real := 0.02
  const AF_STEP: real := 0.02
  const AF_MAX: real := 0.2

  /** The loop's variables: trend, extreme point, acceleration factor and the SAR list. */
  datatype SarState = SarState(dir: Direction, ep: real, af: real, sar: seq<real>)

  function Min(a: real, b: real): real { if a <= b then a else b }
  function Max(a: real, b: real): real { if a >= b then a else b }

  /** The parabolic move of the previous SAR toward the extreme point. */
  function Candidate(prev: real, af: real, ep: real): real { prev + af * (ep - prev) }

  /** The trend is chosen once, from the first two highs. */
  function InitialDirection(cs: seq<Candle>): Direction
    requires |cs| >= 2
  {
    if cs[1].high > cs[0].high then Up else Down
  }

  /** The state before the loop. */
  function Init(cs: seq<Candle>): SarState
    requires |cs| >= 2
  {
    var dir := InitialDirection(cs);
    SarState(dir, if dir == Up then cs[0].high else cs[0].low, AF_START, [cs[0].low])
  }

  /** One pass of the loop body at candle i, reversal branches included as written. */
  function Step(s: SarState, cs: seq<Candle>, i: nat): SarState
    requires 1 <= i < |cs| && |s.sar| > 0
  {
    var prev := s.sar[|s.sar| - 1];
    var lowI, highI := cs[i].low, cs[i].high;
    var candidate := Candidate(prev, s.af, s.ep);
    if s.dir == Up then
      var next := Min(Min(candidate, cs[i - 1].low), lowI);
      if lowI < next then SarState(Down, lowI, AF_START, s.sar + [lowI])
      else if highI > s.ep then SarState(Up, highI, Min(s.af + AF_STEP, AF_MAX), s.sar + [next])
      else SarState(Up, s.ep, s.af, s.sar + [next])
    else
      var next := Max(Max(candidate, cs[i - 1].high), highI);
      if highI > next then SarState(Up, highI, AF_START, s.sar + [highI])
      else if lowI < s.ep then SarState(Down, lowI, Min(s.af + AF_STEP, AF_MAX), s.sar + [next])
      else SarState(Down, s.ep, s.af, s.sar + [next])
  }

  /** The state after the loop has handled candles 1 .. i-1. */
  function Run(cs: seq<Candle>, i: nat): (s: SarState)
    requires |cs| >= 2 && 1 <= i <= |cs|
    ensures |s.sar| == i
    decreases i
  {
    if i == 1 then Init(cs) else Step(Run(cs, i - 1), cs, i - 1)
  }

  /** calculate_sar's result: the latest SAR and the reported trend. With fewer than two
      candles, the last low and Downtrend. */
  function SarOf(cs: seq<Candle>): (real, Trend)
    requires |cs| > 0
  {
    if |cs| < 2 then (cs[|cs| - 1].low, Downtrend)
    else
      var s := Run(cs, |cs|);
      var latest := s.sar[|s.sar| - 1];
      (latest, if cs[|cs| - 1].close > latest then Uptrend else Downtrend)
  }

  /** calculate_sar: the imperative loop, proved to compute SarOf. The reversal branches of
      the source are unreachable: the candidate is a min that includes low[i] (or a max
      that includes high[i]), so it can never lie beyond that very price. */
  method CalculateSar(candles: seq<Candle>) returns (latest: real, trend: Trend)
    requires |candles| > 0
    ensures (latest, trend) == SarOf(candles)
    ensures |candles| < 2 ==> latest == candles[|candles| - 1].low && trend == Downtrend
    ensures |candles| >= 2 ==> (trend == Uptrend <==> candles[|candles| - 1].close > latest)
  {
    var n := |candles|;
    if n < 2 {
      return candles[n - 1].low, Downtrend;
    }
    var sar := [candles[0].low];
    var dir := if candles[1].high > candles[0].high then Up else Down;
    var ep := if dir == Up then candles[0].high else candles[0].low;
    var af := AF_START;
    var i := 1;
    while i < n
      invariant 1 <= i <= n
      invariant SarState(dir, ep, af, sar) == Run(candles, i)
    {
      assert Run(candles, i + 1) == Step(Run(candles, i), candles, i);
      var prev := sar[|sar| - 1];
      var lowI, highI := candles[i].low, candles[i].high;
      var next;
      if dir == Up {
        next := Min(Min(Candidate(prev, af, ep), candles[i - 1].low), lowI);
        if lowI < next {
          assert false;  // reversal to a downtrend: next <= lowI
        }
        if highI > ep {
          ep, af := highI, Min(af + AF_STEP, AF_MAX);
        }
      } else {
        next := Max(Max(Candidate(prev, af, ep), candles[i - 1].high), highI);
        if highI > next {
          assert false;  // reversal to an uptrend: next >= highI
        }
        if lowI < ep {
          ep, af := lowI, Min(af + AF_STEP, AF_MAX);
        }
      }
      sar := sar + [next];
      i := i + 1;
    }
    latest := sar[|sar| - 1];
    trend := if candles[n - 1].close > latest then Uptrend else Downtrend;
  }

  // ---------------------------------------------------------------------------
  // Properties

  /** Highest high among the first k candles. */
  function MaxHigh(cs: seq<Candle>, k: nat): real
    requires 1 <= k <= |cs|
  {
    if k == 1 then cs[0].high else Max(MaxHigh(cs, k - 1), cs[k - 1].high)
  }

  /** Lowest low among the first k candles. */
  function MinLow(cs: seq<Candle>, k: nat): real
    requires 1 <= k <= |cs|
  {
    if k == 1 then cs[0].low else Min(MinLow(cs, k - 1), cs[k - 1].low)
  }

  /** What holds of the loop state after candles 1 .. i-1: the trend chosen from the first
      two highs, the acceleration factor within [AF_START, AF_MAX], the extreme point the
      running extreme, and every SAR value appended so far on the safe side of its candle. */
  ghost predicate RunInvariant(cs: seq<Candle>, i: nat, s: SarState)
    requires |cs| >= 2 && 1 <= i <= |cs|
  {
    && s.dir == InitialDirection(cs)
    && AF_START <= s.af <= AF_MAX
    && |s.sar| == i
    && (s.dir == Up ==> s.ep == MaxHigh(cs, i))
    && (s.dir == Down ==> s.ep == MinLow(cs, i))
    && (forall j :: 1 <= j < i ==> (s.dir == Up ==> s.sar[j] <= cs[j].low))
    && (forall j :: 1 <= j < i ==> (s.dir == Down ==> s.sar[j] >= cs[j].high))
  }

  /** The reversal branches never fire, so the run keeps the invariant at every step. */
  lemma {:induction false} RunKeepsInvariant(cs: seq<Candle>, i: nat)
    requires |cs| >= 2 && 1 <= i <= |cs|
    ensures RunInvariant(cs, i, Run(cs, i))
    decreases i
  {
    if i > 1 {
      RunKeepsInvariant(cs, i - 1);
      var s := Run(cs, i - 1);
      var t := Run(cs, i);
      assert t == Step(s, cs, i - 1);
      assert t.sar[..i - 1] == s.sar;
    }
  }

  /** The trend never reverses: every state of the run has the initial direction. */
  lemma TrendNeverReverses(cs: seq<Candle>, i: nat)
    requires |cs| >= 2 && 1 <= i <= |cs|
    ensures Run(cs, i).dir == InitialDirection(cs)
  {
    RunKeepsInvariant(cs, i);
  }

  /** The acceleration factor never decreases from one step to the next. */
  lemma AfNeverDecreases(cs: seq<Candle>, i: nat)
    requires |cs| >= 2 && 1 <= i < |cs|
    ensures Run(cs, i).af <= Run(cs, i + 1).af
  {
    RunKeepsInvariant(cs, i);
  }

  /** The latest SAR lies at or below the last low in an uptrend and at or above the last
      high in a downtrend. */
  lemma SarOnSafeSide(cs: seq<Candle>)
    requires |cs| >= 2
    ensures InitialDirection(cs) == Up ==> SarOf(cs).0 <= cs[|cs| - 1].low
    ensures InitialDirection(cs) == Down ==> SarOf(cs).0 >= cs[|cs| - 1].high
  {
    RunKeepsInvariant(cs, |cs|);
  }

  /** Consequence for the reported trend: it is fixed by the first two highs. When they
      start a downtrend, Uptrend is only reported if the last close lies above the last
      high (possible after a live-tick merge); when they start an uptrend, any last close
      above the last low reports Uptrend. */
  lemma ReportedTrendFixedByFirstTwoHighs(cs: seq<Candle>)
    requires |cs| >= 2
    ensures InitialDirection(cs) == Down && SarOf(cs).1 == Uptrend ==> cs[|cs| - 1].close > cs[|cs| - 1].high
    ensures InitialDirection(cs) == Up && cs[|cs| - 1].close > cs[|cs| - 1].low ==> SarOf(cs).1 == Uptrend
  {
    SarOnSafeSide(cs);
  }
}
