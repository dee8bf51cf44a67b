/**
 * The per-bar part of `calculate_bar_levels`: the peak detector over a
 * range of frequency bins, the clamped log compression, and the exponential
 * smoothing of a bar's level. The Fourier transform, `log` and `pow` are not
 * modelled: the spectrum, the logarithm and the smoothing factor are inputs.
 */
module BarLevels {
  import opened VizConfig

  /** One coefficient of the transform's output (`fftw_complex`). */
  datatype Complex = Complex(re: real, im: real)

  /** Gain applied to the log-compressed peak before blending. */
  const CompressionGain: real := 0.05

  /** Squared magnitude `re*re + im*im` of a coefficient. */
  function Power(c: Complex): (p: real)
    ensures p >= 0.0
  {
    assert c.re * c.re >= 0.0 && c.im * c.im >= 0.0;
    c.re * c.re + c.im * c.im
  }

  /**
   * The running maximum the peak loop holds after scanning the bins
   * `[start, end)` of `row`, starting from 0. It is at least 0 and at least
   * the power of every scanned bin.
   */
  function Peak(row: seq<Complex>, start: int, end: int): (m: real)
    requires 0 <= start && end <= |row|
    ensures m >= 0.0
    ensures forall k :: start <= k < end ==> Power(row[k]) <= m
    decreases end - start
  {
    if end <= start then 0.0
    else
      var prev := Peak(row, start, end - 1);
      var p := Power(row[end - 1]);
      if p > prev then p else prev
  }

  /**
   * The peak is attained: it is 0 for an empty range, and otherwise 0 or
   * the power of one of the scanned bins.
   */
  lemma {:induction false} PeakAttained(row: seq<Complex>, start: int, end: int)
    requires 0 <= start && end <= |row|
    ensures end <= start ==> Peak(row, start, end) == 0.0
    ensures Peak(row, start, end) == 0.0
         || exists k :: start <= k < end && Peak(row, start, end) == Power(row[k])
    decreases end - start
  {
    if start < end {
      var prev := Peak(row, start, end - 1);
      PeakAttained(row, start, end - 1);
      if Power(row[end - 1]) > prev {
        assert Peak(row, start, end) == Power(row[end - 1]);
      } else if prev != 0.0 {
        var k :| start <= k < end - 1 && prev == Power(row[k]);
        assert Peak(row, start, end) == Power(row[k]);
      }
    }
  }

  /** The peak is the least non-negative upper bound of the scanned powers. */
  lemma PeakIsLeastBound(row: seq<Complex>, start: int, end: int, u: real)
    requires 0 <= start && end <= |row|
    requires u >= 0.0
    requires forall k :: start <= k < end ==> Power(row[k]) <= u
    ensures Peak(row, start, end) <= u
  {
    PeakAttained(row, start, end);
  }

  /** A silent range (all coefficients zero) has peak 0. */
  lemma SilentRangeHasZeroPeak(row: seq<Complex>, start: int, end: int)
    requires 0 <= start && end <= |row|
    requires forall k :: start <= k < end ==> row[k] == Complex(0.0, 0.0)
    ensures Peak(row, start, end) == 0.0
  {
    PeakIsLeastBound(row, start, end, 0.0);
  }

  /** The inner loop of `calculate_bar_levels` over the bins of one bar. */
  method BinPeak(row: seq<Complex>, start: int, end: int) returns (modulus: real)
    requires 0 <= start && end <= |row|
    ensures modulus == Peak(row, start, end)
  {
    modulus := 0.0;
    if start < end {
      for k := start to end
        invariant modulus == Peak(row, start, k)
      {
        var p := Power(row[k]);
        if p > modulus {
          modulus := p;
        }
      }
    }
  }

  /** The log of the peak, clamped to 0 where it is negative. */
  function ClampedLog(ln: real -> real, m: real): (c: real)
    ensures c >= 0.0 && c >= ln(m)
    ensures c == 0.0 || c == ln(m)
  {
    var l := ln(m);
    if l < 0.0 then 0.0 else l
  }

  /**
   * One smoothing step. With `0 <= s <= 1` the new level lies between the
   * old level and the target `CompressionGain * input`.
   */
  function Smooth(level: real, input: real, s: real): (r: real)
    ensures 0.0 <= s <= 1.0 ==>
      (level <= r <= CompressionGain * input) || (CompressionGain * input <= r <= level)
  {
    var r := level * s + input * CompressionGain * (1.0 - s);
    if 0.0 <= s <= 1.0 then
      ConvexCombination(level, CompressionGain * input, s, r);
      r
    else
      r
  }

  /** `r = a*s + b*(1-s)` lies between `a` and `b` when `0 <= s <= 1`. */
  lemma ConvexCombination(a: real, b: real, s: real, r: real)
    requires 0.0 <= s <= 1.0
    requires r == a * s + b * (1.0 - s)
    ensures (a <= r <= b) || (b <= r <= a)
  {
    var d := b - a;
    assert r - a == (1.0 - s) * d;
    assert b - r == s * d;
    if d >= 0.0 {
      MulNonnegative(1.0 - s, d);
      MulNonnegative(s, d);
    } else {
      MulNonnegative(1.0 - s, -d);
      MulNonnegative(s, -d);
    }
  }

  lemma MulNonnegative(x: real, y: real)
    requires x >= 0.0 && y >= 0.0
    ensures x * y >= 0.0
  {
  }

  /** A level that starts non-negative stays non-negative. */
  lemma SmoothKeepsNonnegative(level: real, input: real, s: real)
    requires 0.0 <= s <= 1.0
    requires level >= 0.0 && input >= 0.0
    ensures Smooth(level, input, s) >= 0.0
  {
  }

  /** With a zero input the level decays by the factor `s`. */
  lemma SmoothSilenceDecays(level: real, s: real)
    requires 0.0 <= s <= 1.0
    requires level >= 0.0
    ensures Smooth(level, 0.0, s) == s * level
    ensures 0.0 <= Smooth(level, 0.0, s) <= level
  {
    SmoothSilence(level, s);
  }

  lemma SmoothSilence(level: real, s: real)
    ensures Smooth(level, 0.0, s) == s * level
  {
  }

  /** A level already at its target stays there. */
  lemma SmoothFixedPoint(input: real, s: real)
    ensures Smooth(CompressionGain * input, input, s) == CompressionGain * input
  {
  }

  /** `s` raised to the `n`th power. */
  function Pow(s: real, n: nat): (p: real)
    ensures 0.0 <= s <= 1.0 ==> 0.0 <= p <= 1.0
  {
    if n == 0 then 1.0
    else
      var q := Pow(s, n - 1);
      if 0.0 <= s <= 1.0 then
        MulNonnegative(s, q);
        MulNonnegative(1.0 - s, q);
        assert q - s * q == (1.0 - s) * q;
        s * q
      else
        s * q
  }

  /** The level after `n` frames with a zero input. */
  function SilentFrames(level: real, s: real, n: nat): real
  {
    if n == 0 then level else Smooth(SilentFrames(level, s, n - 1), 0.0, s)
  }

  /** After `n` silent frames the level is `s^n * level`. */
  lemma {:induction false} SilentFramesClosedForm(level: real, s: real, n: nat)
    ensures SilentFrames(level, s, n) == Pow(s, n) * level
  {
    if n > 0 {
      SilentFramesClosedForm(level, s, n - 1);
      var q := Pow(s, n - 1);
      SmoothSilence(q * level, s);
      assert s * (q * level) == (s * q) * level;
    }
  }

  /**
   * Repeated silent frames decay the level geometrically: it never goes
   * negative and never increases.
   */
  lemma SilentFramesDecay(level: real, s: real, n: nat)
    requires 0.0 <= s <= 1.0
    requires level >= 0.0
    ensures 0.0 <= SilentFrames(level, s, n + 1) <= SilentFrames(level, s, n) <= level
  {
    SilentFramesClosedForm(level, s, n);
    var p := Pow(s, n);
    MulNonnegative(p, level);
    MulNonnegative(1.0 - p, level);
    SmoothSilenceDecays(p * level, s);
  }

  /**
   * Bin boundaries of the bars: `NumBins + 1` indices, starting at or
   * above 0, non-decreasing, the last at most `NumSamples / 2`.
   */
  ghost predicate ValidBoundaries(bins: seq<int>)
  {
    |bins| == NumBins + 1
    && 0 <= bins[0]
    && (forall i :: 0 <= i < NumBins ==> bins[i] <= bins[i + 1])
    && bins[NumBins] <= NumSamples / 2
  }

  /** Every boundary lies in `[0, NumSamples / 2]`. */
  lemma {:induction false} BoundaryInRange(bins: seq<int>, i: int)
    requires ValidBoundaries(bins)
    requires 0 <= i <= NumBins
    ensures 0 <= bins[i] <= NumSamples / 2
  {
    BoundaryAbove(bins, i);
    BoundaryBelow(bins, i);
  }

  lemma {:induction false} BoundaryAbove(bins: seq<int>, i: int)
    requires ValidBoundaries(bins)
    requires 0 <= i <= NumBins
    ensures 0 <= bins[i]
    decreases i
  {
    if i > 0 {
      BoundaryAbove(bins, i - 1);
    }
  }

  lemma {:induction false} BoundaryBelow(bins: seq<int>, i: int)
    requires ValidBoundaries(bins)
    requires 0 <= i <= NumBins
    ensures bins[i] <= NumSamples / 2
    decreases NumBins - i
  {
    if i < NumBins {
      BoundaryBelow(bins, i + 1);
    }
  }

  /**
   * The new level of bar `i` after one frame: the peak of its bins, clamped
   * log, blended into the old level.
   */
  function BarStep(level: real, row: seq<Complex>, bins: seq<int>, i: int,
                   s: real, ln: real -> real): (r: real)
    requires ValidBoundaries(bins) && 0 <= i < NumBins
    requires |row| >= NumSamples / 2
    ensures 0.0 <= s <= 1.0 && level >= 0.0 ==> r >= 0.0
  {
    BoundaryInRange(bins, i);
    BoundaryInRange(bins, i + 1);
    var m := ClampedLog(ln, Peak(row, bins[i], bins[i + 1]));
    Smooth(level, m, s)
  }

  /**
   * A bar whose bins are all silent decays by exactly the factor `s` when
   * the logarithm of 0 is not positive (the C library's `log(0)` is minus
   * infinity).
   */
  lemma SilentBarDecays(level: real, row: seq<Complex>, bins: seq<int>, i: int,
                        s: real, ln: real -> real)
    requires ValidBoundaries(bins) && 0 <= i < NumBins
    requires |row| >= NumSamples / 2
    requires ln(0.0) <= 0.0
    requires forall k :: 0 <= k < |row| ==> row[k] == Complex(0.0, 0.0)
    ensures BarStep(level, row, bins, i, s, ln) == s * level
  {
    BoundaryInRange(bins, i);
    BoundaryInRange(bins, i + 1);
    SilentRangeHasZeroPeak(row, bins[i], bins[i + 1]);
    SmoothSilence(level, s);
  }
}
