/** The indicator and decision engine of the strategy agent: strict simple
    moving averages, an EWMA-smoothed RSI with a neutral fill of 50, the
    priority-ordered rule table and the entry point that applies it to the
    last two rows of a price frame.

    Prices are `real`; a pandas NaN is `None`. The confidence that the
    source draws with random.randint is taken from an injected draw. */
module Strategy {
  import opened Values

  const SmaShortPeriod: nat := 20
  const SmaLongPeriod: nat := 50
  const RsiPeriod: nat := 14
  const RsiOverbought: real := 70.0
  const RsiOversold: real := 30.0

  // ---------------------------------------------------------------------
  // Simple moving average, strict window (rolling(window).mean())
  // ---------------------------------------------------------------------

  function Sum(s: seq<real>): real {
    if s == [] then 0.0 else Sum(s[..|s| - 1]) + s[|s| - 1]
  }

  /** The value at index i of series.rolling(window).mean(): undefined
      before a full window exists, otherwise the window's mean. */
  function SmaAt(closes: seq<real>, window: nat, i: nat): Option<real>
    requires 1 <= window && i < |closes|
  {
    if i + 1 < window then None
    else Some(Sum(closes[i + 1 - window..i + 1]) / window as real)
  }

  /** The average is defined once the window is full, and then it times the
      window length is the window's sum. */
  lemma SmaAtMean(closes: seq<real>, window: nat, i: nat)
    requires 1 <= window && i < |closes|
    ensures SmaAt(closes, window, i).None? <==> i + 1 < window
    ensures SmaAt(closes, window, i).Some? ==>
      SmaAt(closes, window, i).value * window as real == Sum(closes[i + 1 - window..i + 1])
  {
  }

  /** sma(series, window): the whole column. */
  function Sma(closes: seq<real>, window: nat): (r: seq<Option<real>>)
    requires 1 <= window
    ensures |r| == |closes|
  {
    if closes == [] then []
    else Sma(closes[..|closes| - 1], window) + [SmaAt(closes, window, |closes| - 1)]
  }

  /** Row i of the column is the average of the window ending at row i. */
  lemma {:induction false} SmaColumn(closes: seq<real>, window: nat)
    requires 1 <= window
    ensures forall i :: 0 <= i < |closes| ==> Sma(closes, window)[i] == SmaAt(closes, window, i)
  {
    if closes != [] {
      var front := closes[..|closes| - 1];
      SmaColumn(front, window);
      forall i | 0 <= i < |front|
        ensures SmaAt(front, window, i) == SmaAt(closes, window, i)
      {
        if i + 1 >= window {
          assert front[i + 1 - window..i + 1] == closes[i + 1 - window..i + 1];
        }
      }
    }
  }

  lemma {:induction false} SumBounds(s: seq<real>, lo: real, hi: real)
    requires forall k :: 0 <= k < |s| ==> lo <= s[k] <= hi
    ensures |s| as real * lo <= Sum(s) <= |s| as real * hi
  {
    if s != [] {
      SumBounds(s[..|s| - 1], lo, hi);
    }
  }

  /** The sum also peels off from the front. */
  lemma {:induction false} SumFront(s: seq<real>)
    requires s != []
    ensures Sum(s) == s[0] + Sum(s[1..])
  {
    if |s| > 1 {
      SumFront(s[..|s| - 1]);
      assert s[..|s| - 1][1..] == s[1..][..|s| - 2];
    }
  }

  /** Once a full window has passed, each step of the rolling mean adds the
      entering close and drops the leaving one, each divided by the window. */
  lemma SmaSlide(closes: seq<real>, window: nat, i: nat)
    requires 1 <= window <= i < |closes|
    ensures SmaAt(closes, window, i).Some? && SmaAt(closes, window, i - 1).Some?
    ensures SmaAt(closes, window, i).value
      == SmaAt(closes, window, i - 1).value + (closes[i] - closes[i - window]) / window as real
  {
    var both := closes[i - window..i + 1];
    var before := closes[i - window..i];
    var after := closes[i + 1 - window..i + 1];
    assert both[..|both| - 1] == before;
    SumFront(both);
    assert both[1..] == after;
    assert Sum(after) == Sum(before) + closes[i] - closes[i - window];
    var w := window as real;
    assert Sum(after) / w == Sum(before) / w + (closes[i] - closes[i - window]) / w;
  }

  lemma MeanBounds(m: real, n: real, s: real, lo: real, hi: real)
    requires n > 0.0 && m * n == s && n * lo <= s <= n * hi
    ensures lo <= m <= hi
  {
  }

  /** A defined moving average lies between the smallest and the largest
      close of its window. */
  lemma SmaWithinWindow(closes: seq<real>, window: nat, i: nat, lo: real, hi: real)
    requires 1 <= window && window <= i + 1 && i < |closes|
    requires forall k :: i + 1 - window <= k <= i ==> lo <= closes[k] <= hi
    ensures SmaAt(closes, window, i).Some?
    ensures lo <= SmaAt(closes, window, i).value <= hi
  {
    var w := closes[i + 1 - window..i + 1];
    assert forall k :: 0 <= k < |w| ==> w[k] == closes[i + 1 - window + k];
    SumBounds(w, lo, hi);
    SmaAtMean(closes, window, i);
    MeanBounds(SmaAt(closes, window, i).value, window as real, Sum(w), lo, hi);
  }

  // ---------------------------------------------------------------------
  // Exponentially weighted mean (ewm(span, adjust=False).mean())
  // ---------------------------------------------------------------------

  /** a0 = x0 and at = (1 - alpha) * a(t-1) + alpha * xt. */
  function Ewma(xs: seq<real>, alpha: real): (r: seq<real>)
    ensures |r| == |xs|
  {
    if |xs| <= 1 then xs
    else
      var prior := Ewma(xs[..|xs| - 1], alpha);
      prior + [(1.0 - alpha) * prior[|prior| - 1] + alpha * xs[|xs| - 1]]
  }

  lemma {:induction false} EwmaRecurrence(xs: seq<real>, alpha: real, t: nat)
    requires t < |xs|
    ensures t == 0 ==> Ewma(xs, alpha)[0] == xs[0]
    ensures t > 0 ==> Ewma(xs, alpha)[t] == (1.0 - alpha) * Ewma(xs, alpha)[t - 1] + alpha * xs[t]
  {
    if |xs| > 1 && t < |xs| - 1 {
      var front := xs[..|xs| - 1];
      EwmaRecurrence(front, alpha, t);
      if t > 0 {
        assert Ewma(xs, alpha)[t - 1] == Ewma(front, alpha)[t - 1];
      }
    }
  }

  lemma StepNonNegative(alpha: real, p: real, x: real)
    requires 0.0 < alpha <= 1.0 && p >= 0.0 && x >= 0.0
    ensures (1.0 - alpha) * p + alpha * x >= 0.0
    ensures x > 0.0 ==> (1.0 - alpha) * p + alpha * x > 0.0
  {
    assert (1.0 - alpha) * p >= 0.0;
    assert x > 0.0 ==> alpha * x > 0.0;
  }

  lemma {:induction false} EwmaNonNegativeAt(xs: seq<real>, alpha: real, t: nat)
    requires 0.0 < alpha <= 1.0 && t < |xs|
    requires forall k :: 0 <= k < |xs| ==> xs[k] >= 0.0
    ensures Ewma(xs, alpha)[t] >= 0.0
    ensures xs[t] > 0.0 ==> Ewma(xs, alpha)[t] > 0.0
  {
    EwmaRecurrence(xs, alpha, t);
    if t > 0 {
      EwmaNonNegativeAt(xs, alpha, t - 1);
      StepNonNegative(alpha, Ewma(xs, alpha)[t - 1], xs[t]);
    }
  }

  /** Smoothing non-negative observations gives non-negative averages, and
      a positive observation gives a positive average. */
  lemma EwmaNonNegative(xs: seq<real>, alpha: real)
    requires 0.0 < alpha <= 1.0
    requires forall k :: 0 <= k < |xs| ==> xs[k] >= 0.0
    ensures forall t :: 0 <= t < |xs| ==> Ewma(xs, alpha)[t] >= 0.0
    ensures forall t :: 0 <= t < |xs| && xs[t] > 0.0 ==> Ewma(xs, alpha)[t] > 0.0
  {
    forall t | 0 <= t < |xs|
      ensures Ewma(xs, alpha)[t] >= 0.0 && (xs[t] > 0.0 ==> Ewma(xs, alpha)[t] > 0.0)
    {
      EwmaNonNegativeAt(xs, alpha, t);
    }
  }

  lemma StepPositive(alpha: real, p: real, x: real)
    requires 0.0 < alpha < 1.0 && p > 0.0 && x >= 0.0
    ensures (1.0 - alpha) * p + alpha * x > 0.0
  {
    assert (1.0 - alpha) * p > 0.0;
    assert alpha * x >= 0.0;
  }

  /** With alpha below 1 the average never forgets: after one positive
      observation it stays positive on every later row. */
  lemma {:induction false} EwmaStaysPositive(xs: seq<real>, alpha: real, s: nat, t: nat)
    requires 0.0 < alpha < 1.0 && s <= t < |xs|
    requires forall k :: 0 <= k < |xs| ==> xs[k] >= 0.0
    requires xs[s] > 0.0
    ensures Ewma(xs, alpha)[t] > 0.0
  {
    if t == s {
      EwmaNonNegativeAt(xs, alpha, t);
    } else {
      EwmaStaysPositive(xs, alpha, s, t - 1);
      EwmaRecurrence(xs, alpha, t);
      StepPositive(alpha, Ewma(xs, alpha)[t - 1], xs[t]);
    }
  }

  lemma {:induction false} EwmaOfZerosAt(xs: seq<real>, alpha: real, t: nat)
    requires t < |xs|
    requires forall k :: 0 <= k < |xs| ==> xs[k] == 0.0
    ensures Ewma(xs, alpha)[t] == 0.0
  {
    EwmaRecurrence(xs, alpha, t);
    if t > 0 {
      EwmaOfZerosAt(xs, alpha, t - 1);
    }
  }

  /** Smoothing zeros gives zeros. */
  lemma EwmaOfZeros(xs: seq<real>, alpha: real)
    requires forall k :: 0 <= k < |xs| ==> xs[k] == 0.0
    ensures forall t :: 0 <= t < |xs| ==> Ewma(xs, alpha)[t] == 0.0
  {
    forall t | 0 <= t < |xs| ensures Ewma(xs, alpha)[t] == 0.0 {
      EwmaOfZerosAt(xs, alpha, t);
    }
  }

  // ---------------------------------------------------------------------
  // RSI
  // ---------------------------------------------------------------------

  /** series.diff().fillna(0). */
  function Deltas(closes: seq<real>): (d: seq<real>)
    ensures |d| == |closes|
  {
    seq(|closes|, i requires 0 <= i < |closes| => if i == 0 then 0.0 else closes[i] - closes[i - 1])
  }

  /** delta.clip(lower=0). */
  function Gains(d: seq<real>): (g: seq<real>)
    ensures |g| == |d|
  {
    seq(|d|, i requires 0 <= i < |d| => if d[i] > 0.0 then d[i] else 0.0)
  }

  /** -delta.clip(upper=0). */
  function Losses(d: seq<real>): (l: seq<real>)
    ensures |l| == |d|
  {
    seq(|d|, i requires 0 <= i < |d| => if d[i] < 0.0 then -d[i] else 0.0)
  }

  /** The smoothing factor of ewm(span=period): 2 / (period + 1). */
  function Alpha(period: nat): (a: real)
    requires period >= 1
    ensures 0.0 < a <= 1.0
    ensures a * (period as real + 1.0) == 2.0
  {
    2.0 / (period as real + 1.0)
  }

  /** min_periods: NaN until `minPeriods` observations have been seen. */
  function Masked(xs: seq<real>, minPeriods: nat): (r: seq<Option<real>>)
    ensures |r| == |xs|
  {
    seq(|xs|, i requires 0 <= i < |xs| => if i + 1 < minPeriods then None else Some(xs[i]))
  }

  /** gain.ewm(span=period, adjust=False).mean(), before min_periods masks it. */
  function SmoothedGains(closes: seq<real>, period: nat): (r: seq<real>)
    requires period >= 1
    ensures |r| == |closes|
  {
    Ewma(Gains(Deltas(closes)), Alpha(period))
  }

  function SmoothedLosses(closes: seq<real>, period: nat): (r: seq<real>)
    requires period >= 1
    ensures |r| == |closes|
  {
    Ewma(Losses(Deltas(closes)), Alpha(period))
  }

  /** avg_gain: the smoothed gains, NaN before `period` observations. */
  function AvgGain(closes: seq<real>, period: nat): (r: seq<Option<real>>)
    requires period >= 1
    ensures |r| == |closes|
  {
    Masked(SmoothedGains(closes, period), period)
  }

  /** avg_loss: the smoothed losses, NaN before `period` observations. */
  function AvgLoss(closes: seq<real>, period: nat): (r: seq<Option<real>>)
    requires period >= 1
    ensures |r| == |closes|
  {
    Masked(SmoothedLosses(closes, period), period)
  }

  /** 100 - 100 / (1 + gain / loss) where a zero loss is replaced by NaN,
      and a NaN result is filled with 50. */
  function RsiOf(gain: Option<real>, loss: Option<real>): real
    requires gain.Some? ==> gain.value >= 0.0
    requires loss.Some? ==> loss.value >= 0.0
  {
    if gain.Some? && loss.Some? && loss.value != 0.0
    then 100.0 - 100.0 / (1.0 + gain.value / loss.value)
    else 50.0
  }

  lemma RatioRange(g: real, l: real)
    requires g >= 0.0 && l > 0.0
    ensures 0.0 <= 100.0 - 100.0 / (1.0 + g / l) < 100.0
  {
    var rs := g / l;
    assert rs * l == g;
    assert rs >= 0.0;
    var q := 100.0 / (1.0 + rs);
    assert q * (1.0 + rs) == 100.0;
    assert q > 0.0;
    assert q <= 100.0;
  }

  /** Smoothed gains and losses are never negative. */
  lemma AveragesNonNegative(closes: seq<real>, period: nat)
    requires period >= 1
    ensures forall t :: 0 <= t < |closes| && AvgGain(closes, period)[t].Some? ==> AvgGain(closes, period)[t].value >= 0.0
    ensures forall t :: 0 <= t < |closes| && AvgLoss(closes, period)[t].Some? ==> AvgLoss(closes, period)[t].value >= 0.0
  {
    EwmaNonNegative(Gains(Deltas(closes)), Alpha(period));
    EwmaNonNegative(Losses(Deltas(closes)), Alpha(period));
  }

  /** rsi(series, period). */
  function Rsi(closes: seq<real>, period: nat): (r: seq<real>)
    requires period >= 1
    ensures |r| == |closes|
  {
    var g := AvgGain(closes, period);
    var l := AvgLoss(closes, period);
    AveragesNonNegative(closes, period);
    seq(|closes|, i requires 0 <= i < |closes| => RsiOf(g[i], l[i]))
  }

  /** The smoothed gains and losses start at 0, since the first delta is
      0, and are never negative. Past index 0 they follow EwmaRecurrence
      with alpha = Alpha(period). */
  lemma SmoothingStart(closes: seq<real>, period: nat, t: nat)
    requires period >= 1 && t < |closes|
    ensures SmoothedGains(closes, period)[t] >= 0.0 && SmoothedLosses(closes, period)[t] >= 0.0
    ensures t == 0 ==> SmoothedGains(closes, period)[0] == 0.0 && SmoothedLosses(closes, period)[0] == 0.0
  {
    var gs := Gains(Deltas(closes));
    var ls := Losses(Deltas(closes));
    EwmaNonNegativeAt(gs, Alpha(period), t);
    EwmaNonNegativeAt(ls, Alpha(period), t);
    EwmaRecurrence(gs, Alpha(period), t);
    EwmaRecurrence(ls, Alpha(period), t);
  }

  /** avg_gain and avg_loss are undefined exactly for the first period - 1
      indices; afterwards they are the smoothed values, never negative. */
  lemma AverageGainLoss(closes: seq<real>, period: nat, t: nat)
    requires period >= 1 && t < |closes|
    ensures AvgGain(closes, period)[t].None? <==> t + 1 < period
    ensures AvgLoss(closes, period)[t].None? <==> t + 1 < period
    ensures t + 1 >= period ==>
      && AvgGain(closes, period)[t] == Some(SmoothedGains(closes, period)[t])
      && AvgLoss(closes, period)[t] == Some(SmoothedLosses(closes, period)[t])
      && AvgGain(closes, period)[t].value >= 0.0
      && AvgLoss(closes, period)[t].value >= 0.0
  {
    SmoothingStart(closes, period, t);
  }

  /** The RSI is always a number in [0, 100): never NaN, never 100. */
  lemma RsiRange(closes: seq<real>, period: nat)
    requires period >= 1
    ensures forall t :: 0 <= t < |closes| ==> 0.0 <= Rsi(closes, period)[t] < 100.0
  {
    forall t | 0 <= t < |closes|
      ensures 0.0 <= Rsi(closes, period)[t] < 100.0
    {
      AverageGainLoss(closes, period, t);
      var g := AvgGain(closes, period)[t];
      var l := AvgLoss(closes, period)[t];
      if g.Some? && l.Some? && l.value != 0.0 {
        RatioRange(g.value, l.value);
      }
    }
  }

  /** During warm-up the RSI is the neutral 50. */
  lemma RsiWarmup(closes: seq<real>, period: nat, t: nat)
    requires period >= 1 && t < |closes| && t + 1 < period
    ensures Rsi(closes, period)[t] == 50.0
  {
    AverageGainLoss(closes, period, t);
  }

  /** A zero average loss gives 50, not 100: the zero is replaced by NaN,
      which the fill turns into 50. */
  lemma RsiZeroLoss(closes: seq<real>, period: nat, t: nat)
    requires period >= 1 && t < |closes| && AvgLoss(closes, period)[t] == Some(0.0)
    ensures Rsi(closes, period)[t] == 50.0
  {
  }

  /** Once a close has fallen, the average loss is positive on every later
      row past warm-up, however long the series then goes without falling;
      for period >= 2 the RSI then reads 50 only where the smoothed gain
      equals it. */
  lemma LossPersists(closes: seq<real>, period: nat, s: nat, t: nat)
    requires period >= 2 && 1 <= s <= t < |closes| && period <= t + 1
    requires closes[s] < closes[s - 1]
    ensures AvgLoss(closes, period)[t].Some? && AvgLoss(closes, period)[t].value > 0.0
  {
    var ls := Losses(Deltas(closes));
    assert ls[s] > 0.0;
    assert forall k :: 0 <= k < |ls| ==> ls[k] >= 0.0;
    var alpha := Alpha(period);
    assert alpha < 1.0 by {
      assert alpha * (period as real + 1.0) == 2.0;
    }
    EwmaStaysPositive(ls, alpha, s, t);
    AverageGainLoss(closes, period, t);
  }

  /** A series that never falls has no losses, so its RSI is 50 at every
      index; in particular a flat series reads 50 everywhere. */
  lemma RsiNeverFalling(closes: seq<real>, period: nat)
    requires period >= 1
    requires forall i :: 0 < i < |closes| ==> closes[i - 1] <= closes[i]
    ensures forall t :: 0 <= t < |closes| ==> Rsi(closes, period)[t] == 50.0
  {
    var ls := Losses(Deltas(closes));
    assert forall k :: 0 <= k < |ls| ==> ls[k] == 0.0;
    EwmaOfZeros(ls, Alpha(period));
  }

  /** A strictly falling series has no gains and, past warm-up, a positive
      average loss, so its RSI is 0 (oversold). */
  lemma RsiStrictlyFalling(closes: seq<real>, period: nat)
    requires period >= 2
    requires forall i :: 0 < i < |closes| ==> closes[i] < closes[i - 1]
    ensures forall t :: period - 1 <= t < |closes| ==> Rsi(closes, period)[t] == 0.0
  {
    var d := Deltas(closes);
    var gs := Gains(d);
    var ls := Losses(d);
    var a := Alpha(period);
    assert forall k :: 0 <= k < |gs| ==> gs[k] == 0.0;
    EwmaOfZeros(gs, a);
    EwmaNonNegative(ls, a);
  }

  // ---------------------------------------------------------------------
  // Indicators of a frame
  // ---------------------------------------------------------------------

  /** One row of compute_indicators: SMA_S, SMA_L and RSI. */
  datatype Snapshot = Snapshot(smaShort: Option<real>, smaLong: Option<real>, rsi: real)

  /** compute_indicators(df): the SMA_S, SMA_L and RSI columns of a copy. */
  function ComputeIndicators(closes: seq<real>): (snaps: seq<Snapshot>)
    ensures |snaps| == |closes|
  {
    var short := Sma(closes, SmaShortPeriod);
    var long := Sma(closes, SmaLongPeriod);
    var rsi := Rsi(closes, RsiPeriod);
    seq(|closes|, i requires 0 <= i < |closes| => Snapshot(short[i], long[i], rsi[i]))
  }

  /** Each row's averages are defined exactly once their window is full,
      and its RSI is always defined and in [0, 100). */
  lemma IndicatorColumns(closes: seq<real>)
    ensures var snaps := ComputeIndicators(closes);
      forall i :: 0 <= i < |closes| ==>
        && (snaps[i].smaShort.None? <==> i + 1 < SmaShortPeriod)
        && (snaps[i].smaLong.None? <==> i + 1 < SmaLongPeriod)
        && 0.0 <= snaps[i].rsi < 100.0
  {
    SmaColumn(closes, SmaShortPeriod);
    SmaColumn(closes, SmaLongPeriod);
    RsiRange(closes, RsiPeriod);
  }

  // ---------------------------------------------------------------------
  // Decision rules
  // ---------------------------------------------------------------------

  datatype Action = BUY | SELL | HOLD

  function ActionName(a: Action): string {
    match a
    case BUY => "BUY"
    case SELL => "SELL"
    case HOLD => "HOLD"
  }

  datatype Decision = Decision(action: Action, confidence: int, remark: Remark)

  /** a <= b on floats: false when either side is NaN. */
  predicate AtMost(a: Option<real>, b: Option<real>) {
    a.Some? && b.Some? && a.value <= b.value
  }

  /** a < b on floats: false when either side is NaN. */
  predicate Below(a: Option<real>, b: Option<real>) {
    a.Some? && b.Some? && a.value < b.value
  }

  predicate GoldenCross(prevS: Option<real>, prevL: Option<real>, lastS: Option<real>, lastL: Option<real>) {
    AtMost(prevS, prevL) && Below(lastL, lastS)
  }

  predicate DeathCross(prevS: Option<real>, prevL: Option<real>, lastS: Option<real>, lastL: Option<real>) {
    AtMost(prevL, prevS) && Below(lastS, lastL)
  }

  /** random.randint(lo, hi), driven by an injected draw. */
  function RandInt(lo: int, hi: int, draw: nat): (r: int)
    requires lo <= hi
    ensures lo <= r <= hi
  {
    lo + draw % (hi - lo + 1)
  }

  /** The injected draw can produce every value of the band. */
  lemma RandIntCovers(lo: int, hi: int, c: int)
    requires lo <= c <= hi
    ensures RandInt(lo, hi, c - lo) == c
  {
  }

  /** decide_signal: the first rule that matches decides. */
  function DecideSignal(prevS: Option<real>, prevL: Option<real>, lastS: Option<real>, lastL: Option<real>,
                        lastRsi: real, draw: nat): (d: Decision)
    ensures d.action == BUY <==> GoldenCross(prevS, prevL, lastS, lastL) || lastRsi < RsiOversold
    ensures d.action == SELL <==>
      !GoldenCross(prevS, prevL, lastS, lastL) && lastRsi >= RsiOversold &&
      (DeathCross(prevS, prevL, lastS, lastL) || lastRsi > RsiOverbought)
    ensures d.action == HOLD <==>
      !GoldenCross(prevS, prevL, lastS, lastL) && !DeathCross(prevS, prevL, lastS, lastL) &&
      RsiOversold <= lastRsi <= RsiOverbought
    ensures 30 <= d.confidence <= 95
  {
    if GoldenCross(prevS, prevL, lastS, lastL) then
      Decision(BUY, RandInt(80, 95, draw), GoldenCrossNote)
    else if lastRsi < RsiOversold then
      Decision(BUY, RandInt(70, 85, draw), OversoldNote(lastRsi))
    else if DeathCross(prevS, prevL, lastS, lastL) then
      Decision(SELL, RandInt(80, 95, draw), DeathCrossNote)
    else if lastRsi > RsiOverbought then
      Decision(SELL, RandInt(70, 85, draw), OverboughtNote(lastRsi))
    else if RsiOversold < lastRsi < RsiOverbought then
      Decision(HOLD, RandInt(50, 65, draw), ConsolidatingNote)
    else
      Decision(HOLD, RandInt(30, 50, draw), MixedNote)
  }

  /** The confidence band and the rationale of each rule, in priority order. */
  lemma DecisionBands(prevS: Option<real>, prevL: Option<real>, lastS: Option<real>, lastL: Option<real>,
                      lastRsi: real, draw: nat)
    ensures var d := DecideSignal(prevS, prevL, lastS, lastL, lastRsi, draw);
      var golden := GoldenCross(prevS, prevL, lastS, lastL);
      var death := DeathCross(prevS, prevL, lastS, lastL);
      && (golden ==> d.remark == GoldenCrossNote && 80 <= d.confidence <= 95)
      && (!golden && lastRsi < 30.0 ==> d.remark == OversoldNote(lastRsi) && 70 <= d.confidence <= 85)
      && (!golden && lastRsi >= 30.0 && death ==> d.remark == DeathCrossNote && 80 <= d.confidence <= 95)
      && (!golden && !death && lastRsi > 70.0 ==> d.remark == OverboughtNote(lastRsi) && 70 <= d.confidence <= 85)
      && (d.action == HOLD && 30.0 < lastRsi < 70.0 ==> d.remark == ConsolidatingNote && 50 <= d.confidence <= 65)
      && (d.action == HOLD && (lastRsi == 30.0 || lastRsi == 70.0) ==> d.remark == MixedNote && 30 <= d.confidence <= 50)
  {
  }

  /** Tie-breaks: a golden cross beats an overbought RSI, an oversold RSI
      beats a death cross, and the two crosses exclude each other. */
  lemma TieBreaks(prevS: Option<real>, prevL: Option<real>, lastS: Option<real>, lastL: Option<real>,
                  lastRsi: real, draw: nat)
    ensures GoldenCross(prevS, prevL, lastS, lastL) && lastRsi > RsiOverbought ==>
      DecideSignal(prevS, prevL, lastS, lastL, lastRsi, draw).action == BUY
    ensures lastRsi < RsiOversold && DeathCross(prevS, prevL, lastS, lastL) ==>
      DecideSignal(prevS, prevL, lastS, lastL, lastRsi, draw).action == BUY
    ensures !(GoldenCross(prevS, prevL, lastS, lastL) && DeathCross(prevS, prevL, lastS, lastL))
  {
  }

  // ---------------------------------------------------------------------
  // generate_latest_signal
  // ---------------------------------------------------------------------

  /** The dictionary returned when there are too few rows. */
  function InsufficientDataResult(): Dict {
    map[Key.action := Str("HOLD"), Key.AI_Confidence := Int(10), Key.ai_comment := Note(InsufficientDataNote)]
  }

  /** The decision the rule table takes on the last two rows of a frame. */
  function LatestDecision(bars: seq<Bar>, draw: nat): Decision
    requires |bars| >= 2
  {
    var snaps := ComputeIndicators(Closes(bars));
    var prev := snaps[|snaps| - 2];
    var last := snaps[|snaps| - 1];
    DecideSignal(prev.smaShort, prev.smaLong, last.smaShort, last.smaLong, last.rsi, draw)
  }

  /** generate_latest_signal(df). The success dictionary carries `action`;
      it has no `Signal` key. */
  function GenerateLatestSignal(bars: seq<Bar>, draw: nat): Dict {
    if |bars| < SmaLongPeriod then
      InsufficientDataResult()
    else if |bars| < 2 then
      map[Key.action := Str("HOLD"), Key.AI_Confidence := Int(10), Key.ai_comment := Note(TooFewPointsNote)]
    else
      var dec := LatestDecision(bars, draw);
      var last := bars[|bars| - 1];
      map[Key.action := Str(ActionName(dec.action)), Key.AI_Confidence := Int(dec.confidence),
          Key.ai_comment := Note(dec.remark), Key.latest_close := Num(last.close),
          Key.latest_date := Instant(last.date)]
  }

  /** Below 50 rows the answer is the insufficient-data HOLD with
      confidence 10; from 50 rows on it is the rule table's decision on the
      last two rows together with the last close and date. The `len < 2`
      guard is never reached, and there is no `Signal` key. */
  lemma LatestSignalFields(bars: seq<Bar>, draw: nat)
    ensures var d := GenerateLatestSignal(bars, draw);
      && (|bars| < SmaLongPeriod ==> d == InsufficientDataResult())
      && (|bars| >= SmaLongPeriod ==>
            && d[Key.action] == Str(ActionName(LatestDecision(bars, draw).action))
            && d[Key.AI_Confidence] == Int(LatestDecision(bars, draw).confidence)
            && d[Key.ai_comment] == Note(LatestDecision(bars, draw).remark)
            && d[Key.latest_close] == Num(bars[|bars| - 1].close)
            && d[Key.latest_date] == Instant(bars[|bars| - 1].date))
      && Key.Signal !in d
      && d[Key.ai_comment] != Note(TooFewPointsNote)
  {
    if |bars| >= SmaLongPeriod {
      var dec := LatestDecision(bars, draw);
      assert dec.remark != TooFewPointsNote;
    } else {
      assert GenerateLatestSignal(bars, draw) == InsufficientDataResult();
    }
  }

  /** The keys of the answer: the decision's three, and the last close and
      date once there are enough rows. */
  lemma LatestSignalKeys(bars: seq<Bar>, draw: nat)
    ensures GenerateLatestSignal(bars, draw).Keys
         == if |bars| < SmaLongPeriod then {Key.action, Key.AI_Confidence, Key.ai_comment}
            else {Key.action, Key.AI_Confidence, Key.ai_comment, Key.latest_close, Key.latest_date}
  {
    if |bars| < SmaLongPeriod {
      assert GenerateLatestSignal(bars, draw) == InsufficientDataResult();
    }
  }

  /** With exactly 50 rows the previous long SMA is still undefined, so
      neither cross can fire and only the RSI rules can act. */
  lemma ExactlyFiftyRows(bars: seq<Bar>, draw: nat)
    requires |bars| == SmaLongPeriod
    ensures var snaps := ComputeIndicators(Closes(bars));
      var dec := LatestDecision(bars, draw);
      && snaps[|bars| - 2].smaLong.None?
      && (dec.action == BUY <==> snaps[|bars| - 1].rsi < RsiOversold)
      && (dec.action == SELL <==> snaps[|bars| - 1].rsi > RsiOverbought)
  {
    IndicatorColumns(Closes(bars));
  }

  /** The decision of a frame with enough rows is confident: at least 30;
      the insufficient-data answer alone has confidence 10. */
  lemma ConfidenceOfLatestSignal(bars: seq<Bar>, draw: nat)
    ensures var d := GenerateLatestSignal(bars, draw);
      (d[Key.AI_Confidence] == Int(10)) <==> |bars| < SmaLongPeriod
  {
  }
}
