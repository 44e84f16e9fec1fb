/**
 * The indicator library of run_new.py: simple rolling means, exponential
 * moving averages (pandas `ewm(adjust=False)`), MACD and RSI, over a
 * price column given as a sequence of reals.
 *
 * Each indicator has a specification function (a recurrence over the
 * sequence) and a method that fills a fresh column array the way the
 * accumulator loops behind pandas do, proved equal to the specification.
 */
module Indicators {
  import opened Common

  const FAST_SPAN: nat := 12
  const SLOW_SPAN: nat := 26
  const SIGNAL_SPAN: nat := 9
  const RSI_PERIOD: nat := 14
  /** What `avg_loss.replace(0, 1e-10)` puts in place of a zero average loss. */
  const LOSS_FLOOR: real := 0.0000000001

  // ---------------------------------------------------------------- sums and means

  function Sum(s: seq<real>): real
    decreases |s|
  {
    if |s| == 0 then 0.0 else Sum(s[..|s| - 1]) + s[|s| - 1]
  }

  lemma SumAppendLast(s: seq<real>, a: nat, b: nat)
    requires a <= b < |s|
    ensures Sum(s[a..b + 1]) == Sum(s[a..b]) + s[b]
  {
    assert s[a..b + 1][..b - a] == s[a..b];
  }

  lemma {:induction false} SumDropFirst(s: seq<real>)
    requires |s| > 0
    ensures Sum(s) == s[0] + Sum(s[1..])
    decreases |s|
  {
    if |s| > 1 {
      SumDropFirst(s[..|s| - 1]);
      assert s[..|s| - 1][1..] == s[1..][..|s| - 2];
    }
  }

  lemma {:induction false} SumConstant(s: seq<real>, c: real)
    requires forall i :: 0 <= i < |s| ==> s[i] == c
    ensures Sum(s) == |s| as real * c
    decreases |s|
  {
    if |s| > 0 {
      SumConstant(s[..|s| - 1], c);
    }
  }

  function Mean(s: seq<real>): real
    requires |s| > 0
  {
    Sum(s) / |s| as real
  }

  lemma MeanConstant(s: seq<real>, c: real)
    requires |s| > 0
    requires forall i :: 0 <= i < |s| ==> s[i] == c
    ensures Mean(s) == c
  {
    SumConstant(s, c);
  }

  /**
   * pandas `rolling(w).mean()`: at each position the mean of the `w`
   * values ending there, and the NaN marker (None) while fewer than `w`
   * values exist.
   */
  function RollingMeans(xs: seq<real>, w: nat): (r: seq<Option<real>>)
    requires w >= 1
    ensures |r| == |xs|
    ensures forall i :: 0 <= i < |xs| ==> (r[i].Some? <==> i + 1 >= w)
  {
    seq(|xs|, i requires 0 <= i < |xs| =>
      if i + 1 < w then None else Some(Mean(xs[i + 1 - w..i + 1])))
  }

  /** The rolling mean at the last bar is the mean of the last `w` values. */
  lemma RollingMeanAtLast(xs: seq<real>, w: nat)
    requires 1 <= w <= |xs|
    ensures RollingMeans(xs, w)[|xs| - 1] == Some(Mean(xs[|xs| - w..]))
  {
    assert xs[|xs| - w..|xs|] == xs[|xs| - w..];
  }

  /** Sliding the window one step adds the new value and, once the window is full, drops the oldest. */
  lemma WindowSumStep(xs: seq<real>, w: nat, i: nat)
    requires w >= 1 && i < |xs|
    ensures Sum(xs[Max(0, i + 1 - w)..i + 1]) == Sum(xs[Max(0, i - w)..i]) + xs[i] - (if i >= w then xs[i - w] else 0.0)
  {
    SumAppendLast(xs, Max(0, i - w), i);
    if i >= w {
      SumDropFirst(xs[i - w..i + 1]);
      assert xs[i - w..i + 1][1..] == xs[i + 1 - w..i + 1];
    }
  }

  /** Fills a rolling-mean column with a running window sum. */
  method RollingMeanColumn(xs: seq<real>, w: nat) returns (col: array<Option<real>>)
    requires w >= 1
    ensures col[..] == RollingMeans(xs, w)
  {
    col := new Option<real>[|xs|](_ => None);
    ghost var means := RollingMeans(xs, w);
    var acc := 0.0;
    var i := 0;
    while i < |xs|
      invariant 0 <= i <= |xs| && col.Length == |xs|
      invariant acc == Sum(xs[Max(0, i - w)..i])
      invariant forall j :: 0 <= j < i ==> col[j] == means[j]
    {
      WindowSumStep(xs, w, i);
      acc := acc + xs[i];
      if i >= w {
        acc := acc - xs[i - w];
      }
      assert acc == Sum(xs[Max(0, i + 1 - w)..i + 1]);
      if i + 1 >= w {
        assert Max(0, i + 1 - w) == i + 1 - w;
        assert |xs[i + 1 - w..i + 1]| == w;
        col[i] := Some(acc / w as real);
      } else {
        col[i] := None;
      }
      i := i + 1;
    }
    assert col[..] == means;
  }

  // ---------------------------------------------------------------- EMA

  /** pandas' smoothing factor for `ewm(span=span)`. */
  function Alpha(span: nat): (a: real)
    requires span >= 1
    ensures 0.0 < a <= 1.0
  {
    2.0 / (span as real + 1.0)
  }

  /**
   * `ewm(alpha, adjust=False).mean()`: seeded with the first value, then
   * each value is `alpha * x + (1 - alpha) * previous`.
   */
  function Ema(xs: seq<real>, alpha: real): (r: seq<real>)
    ensures |r| == |xs|
    decreases |xs|
  {
    if |xs| <= 1 then xs
    else
      var prev := Ema(xs[..|xs| - 1], alpha);
      prev + [alpha * xs[|xs| - 1] + (1.0 - alpha) * prev[|xs| - 2]]
  }

  /** The EMA of a prefix is the prefix of the EMA: the recurrence never looks ahead. */
  lemma {:induction false} EmaPrefix(xs: seq<real>, alpha: real, k: nat)
    requires k <= |xs|
    ensures Ema(xs[..k], alpha) == Ema(xs, alpha)[..k]
    decreases |xs|
  {
    if k < |xs| {
      var init := xs[..|xs| - 1];
      EmaPrefix(init, alpha, k);
      assert init[..k] == xs[..k];
    } else {
      assert xs[..k] == xs;
    }
  }

  lemma EmaFirst(xs: seq<real>, alpha: real)
    requires |xs| > 0
    ensures Ema(xs, alpha)[0] == xs[0]
  {
    EmaPrefix(xs, alpha, 1);
    assert Ema(xs[..1], alpha) == xs[..1];
  }

  lemma EmaStep(xs: seq<real>, alpha: real, k: nat)
    requires 0 < k < |xs|
    ensures Ema(xs, alpha)[k] == alpha * xs[k] + (1.0 - alpha) * Ema(xs, alpha)[k - 1]
  {
    EmaPrefix(xs, alpha, k + 1);
    var p := xs[..k + 1];
    assert p[..k] == xs[..k];
    EmaPrefix(xs, alpha, k);
  }

  /** A constant input gives a constant output. */
  lemma {:induction false} EmaConstant(xs: seq<real>, alpha: real, c: real)
    requires forall i :: 0 <= i < |xs| ==> xs[i] == c
    ensures forall i :: 0 <= i < |xs| ==> Ema(xs, alpha)[i] == c
    decreases |xs|
  {
    if |xs| > 1 {
      EmaConstant(xs[..|xs| - 1], alpha, c);
      assert alpha * c + (1.0 - alpha) * c == c;
    }
  }

  /** With `0 <= alpha <= 1` every EMA value is a convex mix, so a lower bound of the input bounds the output. */
  lemma {:induction false} EmaAtLeast(xs: seq<real>, alpha: real, lo: real)
    requires 0.0 <= alpha <= 1.0
    requires forall i :: 0 <= i < |xs| ==> xs[i] >= lo
    ensures forall i :: 0 <= i < |xs| ==> Ema(xs, alpha)[i] >= lo
    decreases |xs|
  {
    if |xs| > 1 {
      var prev := Ema(xs[..|xs| - 1], alpha);
      EmaAtLeast(xs[..|xs| - 1], alpha, lo);
      var x, p := xs[|xs| - 1], prev[|xs| - 2];
      MixAtLeast(alpha, x, p, lo);
      assert Ema(xs, alpha)[..|xs| - 1] == prev;
      assert forall i :: 0 <= i < |xs| - 1 ==> Ema(xs, alpha)[i] == prev[i];
      assert Ema(xs, alpha)[|xs| - 1] == alpha * x + (1.0 - alpha) * p;
    }
  }

  /** The upper-bound mirror of EmaAtLeast. */
  lemma {:induction false} EmaAtMost(xs: seq<real>, alpha: real, hi: real)
    requires 0.0 <= alpha <= 1.0
    requires forall i :: 0 <= i < |xs| ==> xs[i] <= hi
    ensures forall i :: 0 <= i < |xs| ==> Ema(xs, alpha)[i] <= hi
    decreases |xs|
  {
    if |xs| > 1 {
      var prev := Ema(xs[..|xs| - 1], alpha);
      EmaAtMost(xs[..|xs| - 1], alpha, hi);
      var x, p := xs[|xs| - 1], prev[|xs| - 2];
      MixAtMost(alpha, x, p, hi);
      assert Ema(xs, alpha)[..|xs| - 1] == prev;
      assert forall i :: 0 <= i < |xs| - 1 ==> Ema(xs, alpha)[i] == prev[i];
      assert Ema(xs, alpha)[|xs| - 1] == alpha * x + (1.0 - alpha) * p;
    }
  }

  lemma MixAtLeast(alpha: real, x: real, p: real, lo: real)
    requires 0.0 <= alpha <= 1.0 && x >= lo && p >= lo
    ensures alpha * x + (1.0 - alpha) * p >= lo
  {
    assert alpha * (x - lo) >= 0.0;
    assert (1.0 - alpha) * (p - lo) >= 0.0;
  }

  lemma MixAtMost(alpha: real, x: real, p: real, hi: real)
    requires 0.0 <= alpha <= 1.0 && x <= hi && p <= hi
    ensures alpha * x + (1.0 - alpha) * p <= hi
  {
    assert alpha * (hi - x) >= 0.0;
    assert (1.0 - alpha) * (hi - p) >= 0.0;
  }

  lemma ProductZeroIff(c: real, x: real)
    requires c > 0.0
    ensures c * x == 0.0 <==> x == 0.0
  {
    if x != 0.0 {
      assert x > 0.0 ==> c * x > 0.0;
      assert x < 0.0 ==> c * x < 0.0;
    }
  }

  /**
   * For a non-negative input and `0 < alpha < 1`, the EMA is zero at
   * position `k` exactly when every input up to `k` is zero.
   */
  lemma {:induction false} EmaZeroIff(xs: seq<real>, alpha: real, k: nat)
    requires 0.0 < alpha < 1.0 && k < |xs|
    requires forall i :: 0 <= i < |xs| ==> xs[i] >= 0.0
    ensures Ema(xs, alpha)[k] == 0.0 <==> forall j :: 0 <= j <= k ==> xs[j] == 0.0
    decreases k
  {
    var e := Ema(xs, alpha);
    if k == 0 {
      EmaFirst(xs, alpha);
    } else {
      EmaAtLeast(xs, alpha, 0.0);
      EmaZeroIff(xs, alpha, k - 1);
      EmaStep(xs, alpha, k);
      var a, b := alpha * xs[k], (1.0 - alpha) * e[k - 1];
      ProductZeroIff(alpha, xs[k]);
      ProductZeroIff(1.0 - alpha, e[k - 1]);
      assert a >= 0.0 && b >= 0.0 && e[k] == a + b;
      assert e[k] == 0.0 <==> xs[k] == 0.0 && e[k - 1] == 0.0;
    }
  }

  /** Fills an EMA column with the running accumulator of `ewm(adjust=False)`. */
  method EmaColumn(xs: seq<real>, alpha: real) returns (col: array<real>)
    ensures col[..] == Ema(xs, alpha)
  {
    col := new real[|xs|];
    if |xs| == 0 {
      return;
    }
    EmaFirst(xs, alpha);
    col[0] := xs[0];
    var i := 1;
    while i < |xs|
      invariant 1 <= i <= |xs| && col.Length == |xs|
      invariant forall j :: 0 <= j < i ==> col[j] == Ema(xs, alpha)[j]
    {
      EmaStep(xs, alpha, i);
      col[i] := alpha * xs[i] + (1.0 - alpha) * col[i - 1];
      i := i + 1;
    }
    assert col[..] == Ema(xs, alpha);
  }

  // ---------------------------------------------------------------- MACD

  datatype Macd = Macd(dif: seq<real>, dea: seq<real>, bar: seq<real>)

  /**
   * `_calc_macd`: dif is the fast EMA minus the slow EMA, dea the EMA of
   * dif, bar twice their difference, all aligned with the input.
   */
  function CalcMacd(close: seq<real>, fast: nat, slow: nat, signal: nat): (m: Macd)
    requires fast >= 1 && slow >= 1 && signal >= 1
    ensures |m.dif| == |close| && |m.dea| == |close| && |m.bar| == |close|
    ensures forall i :: 0 <= i < |close| ==> (m.bar[i] > 0.0 <==> m.dif[i] > m.dea[i])
    ensures forall i :: 0 <= i < |close| ==> (m.bar[i] == 0.0 <==> m.dif[i] == m.dea[i])
  {
    var emaFast := Ema(close, Alpha(fast));
    var emaSlow := Ema(close, Alpha(slow));
    var dif := seq(|close|, i requires 0 <= i < |close| => emaFast[i] - emaSlow[i]);
    var dea := Ema(dif, Alpha(signal));
    Macd(dif, dea, seq(|close|, i requires 0 <= i < |close| => (dif[i] - dea[i]) * 2.0))
  }

  /** A constant close series gives dif = dea = bar = 0 at every bar. */
  lemma MacdOfConstant(close: seq<real>, c: real, fast: nat, slow: nat, signal: nat)
    requires fast >= 1 && slow >= 1 && signal >= 1
    requires forall i :: 0 <= i < |close| ==> close[i] == c
    ensures var m := CalcMacd(close, fast, slow, signal);
      forall i :: 0 <= i < |close| ==> m.dif[i] == 0.0 && m.dea[i] == 0.0 && m.bar[i] == 0.0
  {
    EmaConstant(close, Alpha(fast), c);
    EmaConstant(close, Alpha(slow), c);
    var m := CalcMacd(close, fast, slow, signal);
    EmaConstant(m.dif, Alpha(signal), 0.0);
  }

  /** Fills the DIF column: the fast EMA column minus the slow one. */
  method DifColumn(close: seq<real>, fast: nat, slow: nat, signal: nat) returns (dif: array<real>)
    requires fast >= 1 && slow >= 1 && signal >= 1
    ensures dif[..] == CalcMacd(close, fast, slow, signal).dif
  {
    ghost var m := CalcMacd(close, fast, slow, signal);
    var emaFast := EmaColumn(close, Alpha(fast));
    var emaSlow := EmaColumn(close, Alpha(slow));
    dif := new real[|close|];
    for i := 0 to |close|
      modifies dif
      invariant forall j :: 0 <= j < i ==> dif[j] == m.dif[j]
    {
      dif[i] := emaFast[i] - emaSlow[i];
    }
    assert dif[..] == m.dif;
  }

  /** Fills the three MACD columns. */
  method MacdColumns(close: seq<real>, fast: nat, slow: nat, signal: nat)
    returns (dif: array<real>, dea: array<real>, bar: array<real>)
    requires fast >= 1 && slow >= 1 && signal >= 1
    ensures dif[..] == CalcMacd(close, fast, slow, signal).dif
    ensures dea[..] == CalcMacd(close, fast, slow, signal).dea
    ensures bar[..] == CalcMacd(close, fast, slow, signal).bar
  {
    ghost var m := CalcMacd(close, fast, slow, signal);
    dif := DifColumn(close, fast, slow, signal);
    dea := EmaColumn(dif[..], Alpha(signal));
    bar := new real[|close|];
    for i := 0 to |close|
      modifies bar
      invariant forall j :: 0 <= j < i ==> bar[j] == m.bar[j]
    {
      bar[i] := (dif[i] - dea[i]) * 2.0;
    }
    assert bar[..] == m.bar;
  }

  // ---------------------------------------------------------------- RSI

  /** `delta.where(delta > 0, 0.0)`: the first bar's delta is NaN, which the test turns into 0. */
  function Gains(close: seq<real>): (g: seq<real>)
    ensures |g| == |close|
    ensures forall i :: 0 <= i < |close| ==> g[i] >= 0.0
    ensures |close| > 0 ==> g[0] == 0.0
  {
    seq(|close|, i requires 0 <= i < |close| =>
      if i == 0 then 0.0
      else var d := close[i] - close[i - 1]; if d > 0.0 then d else 0.0)
  }

  /** `(-delta).where(delta < 0, 0.0)`. */
  function Losses(close: seq<real>): (l: seq<real>)
    ensures |l| == |close|
    ensures forall i :: 0 <= i < |close| ==> l[i] >= 0.0
    ensures |close| > 0 ==> l[0] == 0.0
  {
    seq(|close|, i requires 0 <= i < |close| =>
      if i == 0 then 0.0
      else var d := close[i] - close[i - 1]; if d < 0.0 then -d else 0.0)
  }

  /** From the second bar on, gain minus loss is the price change and at most one of them is non-zero. */
  lemma GainsLossesSplitDelta(close: seq<real>, i: nat)
    requires 1 <= i < |close|
    ensures Gains(close)[i] - Losses(close)[i] == close[i] - close[i - 1]
    ensures Gains(close)[i] == 0.0 || Losses(close)[i] == 0.0
    ensures Gains(close)[i] > 0.0 <==> close[i] > close[i - 1]
  {
  }

  /**
   * `100 - 100 / (1 + rs)` with `rs = avg_gain / avg_loss` and a zero
   * average loss replaced by LOSS_FLOOR.
   */
  function RsiValue(avgGain: real, avgLoss: real): (r: real)
    requires avgGain >= 0.0 && avgLoss >= 0.0
    ensures 0.0 <= r < 100.0
    ensures r == 0.0 <==> avgGain == 0.0
  {
    var denom := if avgLoss == 0.0 then LOSS_FLOOR else avgLoss;
    var rs := avgGain / denom;
    assert rs >= 0.0 && (rs == 0.0 <==> avgGain == 0.0);
    var q := 100.0 / (1.0 + rs);
    assert 0.0 < q <= 100.0 by {
      assert q * (1.0 + rs) == 100.0;
    }
    assert q == 100.0 <==> rs == 0.0 by {
      assert q * (1.0 + rs) == 100.0;
    }
    100.0 - q
  }

  /** Wilder's smoothing factor `1/period`. */
  function Smoothing(period: nat): (a: real)
    requires period >= 1
    ensures 0.0 < a <= 1.0
    ensures period >= 2 ==> a < 1.0
  {
    1.0 / period as real
  }

  /** `_calc_rsi`: Wilder smoothing with `alpha = 1/period` of gains and losses. */
  function Rsi(close: seq<real>, period: nat): (r: seq<real>)
    requires period >= 1
    ensures |r| == |close|
    ensures forall i :: 0 <= i < |close| ==> 0.0 <= r[i] < 100.0
  {
    var a := Smoothing(period);
    var avgGain := Ema(Gains(close), a);
    var avgLoss := Ema(Losses(close), a);
    EmaAtLeast(Gains(close), a, 0.0);
    EmaAtLeast(Losses(close), a, 0.0);
    seq(|close|, i requires 0 <= i < |close| => RsiValue(avgGain[i], avgLoss[i]))
  }

  /**
   * RSI is exactly 0 at bar `k` iff the close never rose up to `k`; in
   * particular the first bar and every bar of a flat or falling series
   * read 0, not a neutral 50.
   */
  lemma RsiZeroIff(close: seq<real>, period: nat, k: nat)
    requires period >= 2 && k < |close|
    ensures Rsi(close, period)[k] == 0.0 <==> forall j :: 1 <= j <= k ==> close[j] <= close[j - 1]
  {
    var g := Gains(close);
    EmaZeroIff(g, Smoothing(period), k);
    assert forall j :: 1 <= j <= k ==> (g[j] == 0.0 <==> close[j] <= close[j - 1]);
  }

  /** The RSI at one bar, from the two smoothed averages at that bar. */
  lemma RsiAt(close: seq<real>, period: nat, i: nat)
    requires period >= 1 && i < |close|
    ensures var a := Smoothing(period);
      var avgGain, avgLoss := Ema(Gains(close), a)[i], Ema(Losses(close), a)[i];
      avgGain >= 0.0 && avgLoss >= 0.0 && Rsi(close, period)[i] == RsiValue(avgGain, avgLoss)
  {
    var a := Smoothing(period);
    EmaAtLeast(Gains(close), a, 0.0);
    EmaAtLeast(Losses(close), a, 0.0);
  }

  /** Fills the gain and loss columns from the close-to-close deltas. */
  method DeltaColumns(close: seq<real>) returns (gain: array<real>, loss: array<real>)
    ensures gain[..] == Gains(close) && loss[..] == Losses(close)
  {
    var n := |close|;
    ghost var g, l := Gains(close), Losses(close);
    gain := new real[n];
    loss := new real[n];
    for i := 0 to n
      modifies gain, loss
      invariant forall j :: 0 <= j < i ==> gain[j] == g[j] && loss[j] == l[j]
    {
      if i == 0 {
        gain[i], loss[i] := 0.0, 0.0;
      } else {
        var delta := close[i] - close[i - 1];
        gain[i] := if delta > 0.0 then delta else 0.0;
        loss[i] := if delta < 0.0 then -delta else 0.0;
      }
    }
    assert gain[..] == g;
    assert loss[..] == l;
  }

  /**
   * Fills the RSI column as `_calc_rsi` builds it: the gain and loss
   * columns, their smoothed averages, then the RSI of each bar.
   */
  method RsiColumn(close: seq<real>, period: nat) returns (col: array<real>)
    requires period >= 1
    ensures col[..] == Rsi(close, period)
  {
    var n := |close|;
    var gain, loss := DeltaColumns(close);
    var a := Smoothing(period);
    var avgGain := EmaColumn(gain[..], a);
    var avgLoss := EmaColumn(loss[..], a);
    ghost var rsi := Rsi(close, period);
    col := new real[n];
    for i := 0 to n
      modifies col
      invariant forall j :: 0 <= j < i ==> col[j] == rsi[j]
    {
      RsiAt(close, period, i);
      col[i] := RsiValue(avgGain[i], avgLoss[i]);
    }
    assert col[..] == rsi;
  }

  // ---------------------------------------------------------------- the minute-bar trend test

  /** A comparison in which a NaN marker on either side is false, as in pandas. */
  predicate Above(a: Option<real>, b: Option<real>)
  {
    a.Some? && b.Some? && a.value > b.value
  }

  /**
   * The two-indicator test on the last bar: MA5 above MA20 and the close
   * above MA20.
   */
  predicate LastBarUp(closes: seq<real>)
    requires |closes| >= 1
  {
    var n := |closes|;
    var ma20 := RollingMeans(closes, 20)[n - 1];
    Above(RollingMeans(closes, 5)[n - 1], ma20) && Above(Some(closes[n - 1]), ma20)
  }

  /**
   * The test holds iff there are at least 20 closes, the mean of the last
   * 5 exceeds the mean of the last 20 and the last close exceeds that mean
   * too; with fewer than 20 closes it never holds.
   */
  lemma LastBarUpIff(closes: seq<real>)
    requires |closes| >= 1
    ensures var n := |closes|;
      LastBarUp(closes) <==>
        n >= 20
        && Mean(closes[n - 5..]) > Mean(closes[n - 20..])
        && closes[n - 1] > Mean(closes[n - 20..])
  {
    var n := |closes|;
    if n >= 20 {
      RollingMeanAtLast(closes, 5);
      RollingMeanAtLast(closes, 20);
    }
  }
}
