/** The indicator helpers of the scanner: exponential and simple moving
    averages, RSI, MACD, Bollinger bands, true range and ATR, each mapping a
    price series to an aligned series of the same length. Positions a rolling
    window has not yet filled are `None`. */
module Indicators {
  import opened Options

  // ---------------------------------------------------------------------
  // Sums and means
  // ---------------------------------------------------------------------

  function Sum(s: seq<real>): real
  {
    if s == [] then 0.0 else s[0] + Sum(s[1..])
  }

  function Mean(s: seq<real>): real
    requires |s| > 0
  {
    Sum(s) / (|s| as real)
  }

  /** Every element in [lo, hi] puts the sum in [n lo, n hi]. */
  lemma {:induction false} SumBounds(s: seq<real>, lo: real, hi: real)
    requires forall i :: 0 <= i < |s| ==> lo <= s[i] <= hi
    ensures (|s| as real) * lo <= Sum(s) <= (|s| as real) * hi
  {
    if s != [] {
      SumBounds(s[1..], lo, hi);
    }
  }

  /** Every element at least lo puts the sum at least n lo. */
  lemma {:induction false} SumAtLeast(s: seq<real>, lo: real)
    requires forall i :: 0 <= i < |s| ==> lo <= s[i]
    ensures (|s| as real) * lo <= Sum(s)
  {
    if s != [] {
      SumAtLeast(s[1..], lo);
    }
  }

  /** A mean is at least any lower bound of its elements. */
  lemma MeanAtLeast(s: seq<real>, lo: real)
    requires |s| > 0
    requires forall i :: 0 <= i < |s| ==> lo <= s[i]
    ensures lo <= Mean(s)
  {
    SumAtLeast(s, lo);
    var n := |s| as real;
    assert (Sum(s) / n) * n == Sum(s);
  }

  /** A mean lies between any bounds of its elements. */
  lemma MeanBounds(s: seq<real>, lo: real, hi: real)
    requires |s| > 0
    requires forall i :: 0 <= i < |s| ==> lo <= s[i] <= hi
    ensures lo <= Mean(s) <= hi
  {
    SumBounds(s, lo, hi);
    var n := |s| as real;
    assert n * lo <= Sum(s) <= n * hi;
    assert Sum(s) / n >= lo by {
      assert (Sum(s) / n) * n == Sum(s);
    }
    assert Sum(s) / n <= hi by {
      assert (Sum(s) / n) * n == Sum(s);
    }
  }

  lemma {:induction false} SumNonNegative(s: seq<real>)
    requires forall i :: 0 <= i < |s| ==> s[i] >= 0.0
    ensures Sum(s) >= 0.0
  {
    if s != [] {
      SumNonNegative(s[1..]);
    }
  }

  lemma MeanNonNegative(s: seq<real>)
    requires |s| > 0
    requires forall i :: 0 <= i < |s| ==> s[i] >= 0.0
    ensures Mean(s) >= 0.0
  {
    SumNonNegative(s);
  }

  /** The mean of a constant sequence is that constant. */
  lemma MeanConstant(s: seq<real>, c: real)
    requires |s| > 0
    requires forall i :: 0 <= i < |s| ==> s[i] == c
    ensures Mean(s) == c
  {
    MeanBounds(s, c, c);
  }

  // ---------------------------------------------------------------------
  // Simple rolling mean: `series.rolling(length).mean()`
  // ---------------------------------------------------------------------

  /** The `length` values ending at index `i`. */
  function Window(v: seq<real>, length: nat, i: nat): (w: seq<real>)
    requires 1 <= length <= i + 1 <= |v|
    ensures |w| == length
  {
    v[i + 1 - length .. i + 1]
  }

  function RollingMean(v: seq<real>, length: nat): (r: seq<Option<real>>)
    requires length >= 1
    ensures |r| == |v|
    ensures forall i :: 0 <= i < |v| ==> (r[i].Some? <==> length <= i + 1)
  {
    seq(|v|, i requires 0 <= i < |v| =>
      if i + 1 < length then None else Some(Mean(Window(v, length, i))))
  }

  /** Every filled rolling mean lies between bounds of the input. */
  lemma RollingMeanBounds(v: seq<real>, length: nat, lo: real, hi: real)
    requires length >= 1
    requires forall i :: 0 <= i < |v| ==> lo <= v[i] <= hi
    ensures forall i :: 0 <= i < |v| && length <= i + 1 ==>
              lo <= RollingMean(v, length)[i].value <= hi
  {
    forall i | 0 <= i < |v| && length <= i + 1
      ensures lo <= RollingMean(v, length)[i].value <= hi
    {
      MeanBounds(Window(v, length, i), lo, hi);
    }
  }

  // ---------------------------------------------------------------------
  // Exponential moving average: `series.ewm(span=length, adjust=False).mean()`
  // ---------------------------------------------------------------------

  /** The smoothing factor of a span. */
  function Alpha(length: nat): (a: real)
    requires length >= 1
    ensures 0.0 < a <= 1.0
  {
    2.0 / (length as real + 1.0)
  }

  /** The unadjusted recurrence, seeded by the first value. */
  function EmaWith(v: seq<real>, a: real): (e: seq<real>)
    ensures |e| == |v|
  {
    if |v| == 0 then []
    else if |v| == 1 then [v[0]]
    else
      var p := EmaWith(v[..|v| - 1], a);
      p + [a * v[|v| - 1] + (1.0 - a) * p[|p| - 1]]
  }

  function Ema(v: seq<real>, length: nat): (e: seq<real>)
    requires length >= 1
    ensures |e| == |v|
  {
    EmaWith(v, Alpha(length))
  }

  /** The EMA of a prefix is the prefix of the EMA: no value depends on a later one. */
  lemma {:induction false} EmaPrefix(v: seq<real>, a: real, k: nat)
    requires k <= |v|
    ensures EmaWith(v[..k], a) == EmaWith(v, a)[..k]
  {
    if k < |v| {
      var w := v[..|v| - 1];
      assert w[..k] == v[..k];
      EmaPrefix(w, a, k);
      if |v| == 1 {
        assert k == 0;
      }
    } else {
      assert v[..k] == v;
    }
  }

  /** The first EMA value is the first input value. */
  lemma EmaSeed(v: seq<real>, length: nat)
    requires length >= 1 && |v| > 0
    ensures Ema(v, length)[0] == v[0]
  {
    EmaPrefix(v, Alpha(length), 1);
    assert v[..1] == [v[0]];
  }

  /** From index 1 on, e[i] = alpha v[i] + (1 - alpha) e[i-1]. */
  lemma EmaRecurrence(v: seq<real>, length: nat, i: nat)
    requires length >= 1 && 0 < i < |v|
    ensures Ema(v, length)[i] ==
            Alpha(length) * v[i] + (1.0 - Alpha(length)) * Ema(v, length)[i - 1]
  {
    var a := Alpha(length);
    var e := EmaWith(v, a);
    var w := v[..i + 1];
    EmaPrefix(v, a, i + 1);
    EmaPrefix(v, a, i);
    assert w[..|w| - 1] == v[..i];
    assert EmaWith(w, a)[i] == a * w[i] + (1.0 - a) * EmaWith(v[..i], a)[i - 1];
  }

  lemma ConvexBetween(a: real, x: real, y: real, lo: real, hi: real)
    requires 0.0 <= a <= 1.0 && lo <= x <= hi && lo <= y <= hi
    ensures lo <= a * x + (1.0 - a) * y <= hi
  {
    assert a * (x - lo) >= 0.0;
    assert (1.0 - a) * (y - lo) >= 0.0;
    assert a * (hi - x) >= 0.0;
    assert (1.0 - a) * (hi - y) >= 0.0;
  }

  /** The EMA never leaves the range of its input: each value is a convex
      combination of an input value and the previous EMA value. */
  lemma {:induction false} EmaWithBounds(v: seq<real>, a: real, lo: real, hi: real)
    requires 0.0 <= a <= 1.0
    requires forall i :: 0 <= i < |v| ==> lo <= v[i] <= hi
    ensures forall i :: 0 <= i < |v| ==> lo <= EmaWith(v, a)[i] <= hi
  {
    if |v| >= 2 {
      var w := v[..|v| - 1];
      EmaWithBounds(w, a, lo, hi);
      var p := EmaWith(w, a);
      ConvexBetween(a, v[|v| - 1], p[|p| - 1], lo, hi);
    }
  }

  lemma EmaBounds(v: seq<real>, length: nat, lo: real, hi: real)
    requires length >= 1
    requires forall i :: 0 <= i < |v| ==> lo <= v[i] <= hi
    ensures forall i :: 0 <= i < |v| ==> lo <= Ema(v, length)[i] <= hi
  {
    EmaWithBounds(v, Alpha(length), lo, hi);
  }

  /** A constant input yields that constant at every index. */
  lemma EmaConstant(v: seq<real>, length: nat, c: real)
    requires length >= 1
    requires forall i :: 0 <= i < |v| ==> v[i] == c
    ensures forall i :: 0 <= i < |v| ==> Ema(v, length)[i] == c
  {
    EmaBounds(v, length, c, c);
  }

  // ---------------------------------------------------------------------
  // RSI (simple rolling means of gains and losses, not Wilder smoothing)
  // ---------------------------------------------------------------------

  /** `delta.where(delta > 0, 0)`: the undefined first delta counts as 0. */
  function Gains(v: seq<real>): (g: seq<real>)
    ensures |g| == |v|
    ensures forall i :: 0 <= i < |v| ==> g[i] >= 0.0
    ensures |v| > 0 ==> g[0] == 0.0
  {
    seq(|v|, i requires 0 <= i < |v| =>
      if i > 0 && v[i] - v[i - 1] > 0.0 then v[i] - v[i - 1] else 0.0)
  }

  /** `-delta.where(delta < 0, 0)`: the size of each fall, 0 elsewhere. */
  function Losses(v: seq<real>): (l: seq<real>)
    ensures |l| == |v|
    ensures forall i :: 0 <= i < |v| ==> l[i] >= 0.0
  {
    seq(|v|, i requires 0 <= i < |v| =>
      if i > 0 && v[i] - v[i - 1] < 0.0 then -(v[i] - v[i - 1]) else 0.0)
  }

  /** One RSI value from the gain and loss means: 50 where the loss mean is
      missing or zero (`replace(0, nan)` then `fillna(50)`). */
  function RsiValue(gain: Option<real>, loss: Option<real>): (r: real)
    requires gain.Some? ==> gain.value >= 0.0
    requires loss.Some? ==> loss.value >= 0.0
    ensures (loss == None || loss == Some(0.0)) ==> r == 50.0
    ensures 0.0 <= r < 100.0
  {
    match loss
    case None => 50.0
    case Some(l) =>
      if l == 0.0 then 50.0
      else match gain
        case None => 50.0
        case Some(g) => RsiRatioBounds(g, l); 100.0 - 100.0 / (1.0 + g / l)
  }

  lemma RsiRatioBounds(g: real, l: real)
    requires g >= 0.0 && l > 0.0
    ensures 0.0 <= 100.0 - 100.0 / (1.0 + g / l) < 100.0
  {
    var rs := g / l;
    assert rs >= 0.0;
    assert 100.0 / (1.0 + rs) <= 100.0;
    assert 100.0 / (1.0 + rs) > 0.0;
  }

  lemma RollingMeanNonNegative(v: seq<real>, length: nat)
    requires length >= 1
    requires forall i :: 0 <= i < |v| ==> v[i] >= 0.0
    ensures forall i :: 0 <= i < |v| && length <= i + 1 ==> RollingMean(v, length)[i].value >= 0.0
  {
    forall i | 0 <= i < |v| && length <= i + 1
      ensures RollingMean(v, length)[i].value >= 0.0
    {
      MeanNonNegative(Window(v, length, i));
    }
  }

  /** `rsi(series, length)`: 100 - 100 / (1 + gain/loss) over simple rolling
      means, in [0, 100) everywhere. */
  function Rsi(v: seq<real>, length: nat): (r: seq<real>)
    requires length >= 1
    ensures |r| == |v|
    ensures forall i :: 0 <= i < |v| ==> 0.0 <= r[i] < 100.0
  {
    var gain := RollingMean(Gains(v), length);
    var loss := RollingMean(Losses(v), length);
    RollingMeanNonNegative(Gains(v), length);
    RollingMeanNonNegative(Losses(v), length);
    seq(|v|, i requires 0 <= i < |v| => RsiValue(gain[i], loss[i]))
  }

  /** RSI is 50 before the window fills and wherever the loss mean is 0. */
  lemma RsiNeutral(v: seq<real>, length: nat, i: nat)
    requires length >= 1 && i < |v|
    requires i + 1 < length || RollingMean(Losses(v), length)[i] == Some(0.0)
    ensures Rsi(v, length)[i] == 50.0
  {
  }

  /** A series that never falls has no losses, so its RSI is 50 at every
      index: a rising series casts no RSI vote at all. */
  lemma RsiNonDecreasing(v: seq<real>, length: nat)
    requires length >= 1
    requires forall j :: 0 < j < |v| ==> v[j - 1] <= v[j]
    ensures forall i :: 0 <= i < |v| ==> Rsi(v, length)[i] == 50.0
  {
    var loss := Losses(v);
    assert forall j :: 0 <= j < |v| ==> loss[j] == 0.0;
    forall i | 0 <= i < |v| && length <= i + 1
      ensures RollingMean(loss, length)[i] == Some(0.0)
    {
      MeanConstant(Window(loss, length, i), 0.0);
    }
  }

  /** Where the loss mean is positive, RSI = 100 g / (g + l), so the two
      vote thresholds of the scanner are ratio thresholds:
      RSI > 55 iff 9 g > 11 l, and RSI < 45 iff 11 g < 9 l. */
  lemma RsiThresholds(g: real, l: real)
    requires g >= 0.0 && l > 0.0
    ensures RsiValue(Some(g), Some(l)) == 100.0 * g / (g + l)
    ensures RsiValue(Some(g), Some(l)) > 55.0 <==> 9.0 * g > 11.0 * l
    ensures RsiValue(Some(g), Some(l)) < 45.0 <==> 11.0 * g < 9.0 * l
  {
    var t := g + l;
    var rs := g / l;
    var q := 100.0 / (1.0 + rs);
    var r := 100.0 - q;
    assert rs * l == g;
    assert (1.0 + rs) * l == t;
    assert q * (1.0 + rs) == 100.0;
    assert q * t == 100.0 * l by {
      calc {
        q * t;
        q * ((1.0 + rs) * l);
        (q * (1.0 + rs)) * l;
        100.0 * l;
      }
    }
    assert r * t == 100.0 * g;
    assert r == 100.0 * g / t;
    assert RsiValue(Some(g), Some(l)) == r;
    ThresholdsFromProduct(r, g, l);
  }

  lemma ThresholdsFromProduct(r: real, g: real, l: real)
    requires g + l > 0.0 && r * (g + l) == 100.0 * g
    ensures r > 55.0 <==> 9.0 * g > 11.0 * l
    ensures r < 45.0 <==> 11.0 * g < 9.0 * l
  {
    ScaleByPositive(r, 55.0, g + l);
    ScaleByPositive(45.0, r, g + l);
  }

  /** Multiplying both sides by a positive number keeps a strict order. */
  lemma ScaleByPositive(a: real, b: real, t: real)
    requires t > 0.0
    ensures a > b <==> a * t > b * t
  {
    if a > b {
      assert (a - b) * t > 0.0;
    } else {
      assert (b - a) * t >= 0.0;
    }
  }

  // ---------------------------------------------------------------------
  // MACD
  // ---------------------------------------------------------------------

  datatype Macd = Macd(line: seq<real>, signal: seq<real>, hist: seq<real>)

  /** Pointwise difference of two aligned series. */
  function Minus(a: seq<real>, b: seq<real>): (d: seq<real>)
    requires |a| == |b|
    ensures |d| == |a|
  {
    seq(|a|, i requires 0 <= i < |a| => a[i] - b[i])
  }

  /** `macd(series, fast, slow, signal)`: the line is the fast EMA less the
      slow EMA, the signal line the EMA of the line, the histogram their
      difference. */
  function MacdOf(v: seq<real>, fast: nat, slow: nat, signal: nat): (m: Macd)
    requires fast >= 1 && slow >= 1 && signal >= 1
    ensures |m.line| == |v| && |m.signal| == |v| && |m.hist| == |v|
  {
    var line := Minus(Ema(v, fast), Ema(v, slow));
    var sig := Ema(line, signal);
    Macd(line, sig, Minus(line, sig))
  }

  /** A constant series has MACD line, signal and histogram all zero. */
  lemma MacdConstant(v: seq<real>, fast: nat, slow: nat, signal: nat, c: real)
    requires fast >= 1 && slow >= 1 && signal >= 1
    requires forall i :: 0 <= i < |v| ==> v[i] == c
    ensures var m := MacdOf(v, fast, slow, signal);
            forall i :: 0 <= i < |v| ==> m.line[i] == 0.0 && m.signal[i] == 0.0 && m.hist[i] == 0.0
  {
    EmaConstant(v, fast, c);
    EmaConstant(v, slow, c);
    var line := Minus(Ema(v, fast), Ema(v, slow));
    EmaConstant(line, signal, 0.0);
  }

  // ---------------------------------------------------------------------
  // Bollinger bands
  // ---------------------------------------------------------------------

  /** The sum of squared deviations from `m`. */
  function SquaredDeviations(s: seq<real>, m: real): (r: real)
    ensures r >= 0.0
  {
    if s == [] then 0.0
    else
      SquareNonNegative(s[0] - m);
      (s[0] - m) * (s[0] - m) + SquaredDeviations(s[1..], m)
  }

  lemma SquareNonNegative(x: real)
    ensures x * x >= 0.0
  {
    if x < 0.0 {
      assert x * x == (-x) * (-x);
    }
  }

  /** Population variance (divisor = window size, `ddof=0`). */
  function PopVariance(s: seq<real>): (r: real)
    requires |s| > 0
    ensures r >= 0.0
  {
    SquaredDeviations(s, Mean(s)) / (|s| as real)
  }

  /** A constant window has no variance. */
  lemma {:induction false} SquaredDeviationsConstant(s: seq<real>, c: real)
    requires forall i :: 0 <= i < |s| ==> s[i] == c
    ensures SquaredDeviations(s, c) == 0.0
  {
    if s != [] {
      SquaredDeviationsConstant(s[1..], c);
    }
  }

  /** `series.rolling(length).std(ddof=0)`, with the square root taken by
      `root`, which stands for the floating-point square root. */
  function RollingStd(v: seq<real>, length: nat, root: real -> real): (d: seq<Option<real>>)
    requires length >= 1
    ensures |d| == |v|
    ensures forall i :: 0 <= i < |v| ==> (d[i].Some? <==> length <= i + 1)
  {
    seq(|v|, i requires 0 <= i < |v| =>
      if i + 1 < length then None else Some(root(PopVariance(Window(v, length, i)))))
  }

  datatype Bands = Bands(basis: seq<Option<real>>, upper: seq<Option<real>>, lower: seq<Option<real>>)

  /** `basis + k * dev`, missing where either is missing. */
  function Offset(basis: seq<Option<real>>, dev: seq<Option<real>>, k: real): (r: seq<Option<real>>)
    requires |basis| == |dev|
    ensures |r| == |basis|
    ensures forall i :: 0 <= i < |basis| ==> (r[i].Some? <==> basis[i].Some? && dev[i].Some?)
  {
    seq(|basis|, i requires 0 <= i < |basis| =>
      if basis[i].Some? && dev[i].Some? then Some(basis[i].value + k * dev[i].value) else None)
  }

  /** `bollinger(series, length, mult)`. */
  function Bollinger(v: seq<real>, length: nat, mult: real, root: real -> real): (b: Bands)
    requires length >= 1
    ensures |b.basis| == |v| && |b.upper| == |v| && |b.lower| == |v|
    ensures forall i :: 0 <= i < |v| ==>
              (b.basis[i].Some? <==> length <= i + 1) &&
              (b.upper[i].Some? <==> length <= i + 1) &&
              (b.lower[i].Some? <==> length <= i + 1)
  {
    var basis := RollingMean(v, length);
    var dev := RollingStd(v, length, root);
    Bands(basis, Offset(basis, dev, mult), Offset(basis, dev, -mult))
  }

  /** The bands sit symmetrically about the basis, mult deviations away, and
      are ordered lower <= basis <= upper when the root is non-negative. */
  lemma BollingerShape(v: seq<real>, length: nat, mult: real, root: real -> real, i: nat)
    requires length >= 1 && length <= i + 1 <= |v|
    ensures var b := Bollinger(v, length, mult, root);
            var dev := root(PopVariance(Window(v, length, i)));
            b.basis[i].value == Mean(Window(v, length, i)) &&
            b.upper[i].value - b.basis[i].value == mult * dev &&
            b.basis[i].value - b.lower[i].value == mult * dev
    ensures mult >= 0.0 && (forall x :: x >= 0.0 ==> root(x) >= 0.0) ==>
            var b := Bollinger(v, length, mult, root);
            b.lower[i].value <= b.basis[i].value <= b.upper[i].value
  {
    var dev := root(PopVariance(Window(v, length, i)));
    if mult >= 0.0 && (forall x :: x >= 0.0 ==> root(x) >= 0.0) {
      assert dev >= 0.0;
      assert mult * dev >= 0.0;
    }
  }

  /** On a constant series the basis is the constant and the window's
      variance is 0. */
  lemma BollingerConstant(v: seq<real>, length: nat, mult: real, root: real -> real, i: nat, c: real)
    requires length >= 1 && length <= i + 1 <= |v|
    requires forall j :: 0 <= j < |v| ==> v[j] == c
    ensures Bollinger(v, length, mult, root).basis[i] == Some(c)
    ensures PopVariance(Window(v, length, i)) == 0.0
  {
    var w := Window(v, length, i);
    MeanConstant(w, c);
    SquaredDeviationsConstant(w, c);
  }

  // ---------------------------------------------------------------------
  // True range and ATR
  // ---------------------------------------------------------------------

  function Abs(x: real): real { if x < 0.0 then -x else x }

  function Max3(a: real, b: real, c: real): (m: real)
    ensures m >= a && m >= b && m >= c
    ensures m == a || m == b || m == c
  {
    if a >= b && a >= c then a else if b >= c then b else c
  }

  /** `true_range(high, low, close)`: the largest of high - low and the
      distances of high and low from the previous close. Bar 0 has no
      previous close; the NaN terms are skipped, leaving high - low. */
  function TrueRange(high: seq<real>, low: seq<real>, close: seq<real>): (tr: seq<real>)
    requires |high| == |low| == |close|
    ensures |tr| == |high|
  {
    seq(|high|, i requires 0 <= i < |high| =>
      if i == 0 then high[0] - low[0]
      else Max3(high[i] - low[i], Abs(high[i] - close[i - 1]), Abs(low[i] - close[i - 1])))
  }

  /** Bar 0 gives high - low; every bar is at least high - low and at least
      each distance from the previous close, and equals one of the three. */
  lemma TrueRangeBounds(high: seq<real>, low: seq<real>, close: seq<real>, i: nat)
    requires |high| == |low| == |close| && i < |high|
    ensures var tr := TrueRange(high, low, close);
            tr[i] >= high[i] - low[i] &&
            (i == 0 ==> tr[i] == high[i] - low[i]) &&
            (i > 0 ==> tr[i] >= Abs(high[i] - close[i - 1]) && tr[i] >= Abs(low[i] - close[i - 1]) &&
                       (tr[i] == high[i] - low[i] || tr[i] == Abs(high[i] - close[i - 1]) ||
                        tr[i] == Abs(low[i] - close[i - 1])))
  {
  }

  /** `atr(high, low, close, length)`: the rolling mean of true range. */
  function Atr(high: seq<real>, low: seq<real>, close: seq<real>, length: nat): (r: seq<Option<real>>)
    requires |high| == |low| == |close| && length >= 1
    ensures |r| == |high|
    ensures forall i :: 0 <= i < |high| ==> (r[i].Some? <==> length <= i + 1)
  {
    RollingMean(TrueRange(high, low, close), length)
  }

  /** ATR is missing for the first length - 1 bars and is the mean of the
      last `length` true ranges from there on. */
  lemma AtrWindowMean(high: seq<real>, low: seq<real>, close: seq<real>, length: nat, i: nat)
    requires |high| == |low| == |close| && length >= 1 && i < |high|
    ensures i + 1 < length ==> Atr(high, low, close, length)[i] == None
    ensures length <= i + 1 ==>
            Atr(high, low, close, length)[i] == Some(Mean(TrueRange(high, low, close)[i + 1 - length .. i + 1]))
  {
  }

  /** Where every bar has high >= low, ATR is non-negative wherever defined. */
  lemma AtrNonNegative(high: seq<real>, low: seq<real>, close: seq<real>, length: nat)
    requires |high| == |low| == |close| && length >= 1
    requires forall i :: 0 <= i < |high| ==> low[i] <= high[i]
    ensures forall i :: 0 <= i < |high| && length <= i + 1 ==> Atr(high, low, close, length)[i].value >= 0.0
  {
    var tr := TrueRange(high, low, close);
    forall i | 0 <= i < |high| ensures tr[i] >= 0.0 {
      TrueRangeBounds(high, low, close, i);
    }
    RollingMeanNonNegative(tr, length);
  }
}
