/**
 Peak normalisation of a finished clip.

 A quiet clip is amplified until its loudest sample reads `TARGET`; a near-silent or loud
 one is left alone. Arithmetic is exact: rounding is to the nearest integer, halves away
 from zero, as in the capture loop's gain.
 */
module Loudness {
  import opened Common
  import opened Audio

  const TARGET := 32_440
  const SILENCE_FLOOR := 200

  /** The magnitude of a sample; one more than the largest sample for the smallest. */
  function Size(sample: i16): nat {
    if sample < 0 then -(sample as int) else sample as int
  }

  function Peak(s: seq<i16>): nat {
    if s == [] then 0 else
      var rest, last := Peak(s[..|s| - 1]), Size(s[|s| - 1]);
      if last > rest then last else rest
  }

  /** The peak is the size of some sample and of none exceeded. */
  lemma {:induction false} PeakIsLargest(s: seq<i16>)
    ensures forall i :: 0 <= i < |s| ==> Size(s[i]) <= Peak(s)
    ensures s != [] ==> exists i :: 0 <= i < |s| && Size(s[i]) == Peak(s)
    ensures forall i :: 0 <= i < |s| ==> Size(s[i]) == (if s[i] < 0 then -1 else 1) * s[i] as int
  {
    if s == [] {
    } else {
      var front, last := s[..|s| - 1], |s| - 1;
      PeakIsLargest(front);
      forall i | 0 <= i < |s| ensures Size(s[i]) <= Peak(s) {
        if i < last { assert front[i] == s[i]; }
      }
      if front != [] && Size(s[last]) <= Peak(front) {
        var i :| 0 <= i < |front| && Size(front[i]) == Peak(front);
        assert Size(s[i]) == Peak(s);
      } else {
        assert Size(s[last]) == Peak(s);
      }
    }
  }

  /** Quiet enough to be amplified, and not silence. */
  predicate Amplified(peak: nat) {
    SILENCE_FLOOR < peak < TARGET
  }

  function Factor(peak: nat): real
    requires peak > 0
  {
    TARGET as real / peak as real
  }

  function Scaled(sample: i16, factor: real): i16 {
    Clamp(Round(sample as real * factor))
  }

  function Normalized(s: seq<i16>): seq<i16> {
    var peak := Peak(s);
    if Amplified(peak) then seq(|s|, i requires 0 <= i < |s| => Scaled(s[i], Factor(peak))) else s
  }

  /** `normalize_peak`, in place. */
  method NormalizePeak(buf: array<i16>)
    modifies buf
    ensures buf[..] == Normalized(old(buf[..]))
  {
    var peak := 0;
    for i := 0 to buf.Length
      invariant peak == Peak(buf[..i])
    {
      assert buf[..i + 1][..i] == buf[..i];
      if Size(buf[i]) > peak { peak := Size(buf[i]); }
    }
    ghost var was := buf[..];
    assert buf[..buf.Length] == was;
    if peak <= SILENCE_FLOOR { return; }
    var factor := Factor(peak);
    FactorExceedsOne(peak);
    if factor <= 1.0 { return; }
    for i := 0 to buf.Length
      invariant forall j :: 0 <= j < i ==> buf[j] == Scaled(was[j], factor)
      invariant buf[i..] == was[i..]
    {
      assert buf[i] == was[i..][0];
      buf[i] := Scaled(buf[i], factor);
    }
  }

  lemma FactorExceedsOne(peak: nat)
    requires peak > 0
    ensures Factor(peak) > 1.0 <==> peak < TARGET
    ensures Factor(peak) * peak as real == TARGET as real
  {
  }

  lemma ScalingGrows(x: real, y: real, f: real)
    requires f > 0.0 && x <= y
    ensures x * f <= y * f
  {
  }

  lemma RoundKeepsOrder(x: real, y: real)
    requires x <= y
    ensures Round(x) <= Round(y)
  {
  }

  lemma RoundFixesIntegers(n: int)
    ensures Round(n as real) == n
  {
  }

  /** What amplification does to one sample no larger than the peak. */
  lemma AmplifiesOne(sample: i16, peak: nat, f: real)
    requires f > 1.0 && f * peak as real == TARGET as real && Size(sample) <= peak
    ensures var x, y := sample as int, Round(sample as real * f);
            && -TARGET <= y <= TARGET && Scaled(sample, f) as int == y
            && (x >= 0 ==> y >= x) && (x <= 0 ==> y <= x)
            && (Size(sample) == peak ==> Size(Scaled(sample, f)) == TARGET)
  {
    var x, p: int := sample as int, peak;
    StaysInside(x, p, f);
    NoShrink(x, f);
    RoundFixesIntegers(TARGET);
    RoundFixesIntegers(-TARGET);
  }

  lemma StaysInside(x: int, p: int, f: real)
    requires f > 1.0 && f * p as real == TARGET as real && -p <= x <= p
    ensures -TARGET <= Round(x as real * f) <= TARGET
    ensures x == p ==> x as real * f == TARGET as real
    ensures x == -p ==> x as real * f == (-TARGET) as real
  {
    ScalingGrows(x as real, p as real, f);
    ScalingGrows((-p) as real, x as real, f);
    assert (-p) as real * f == -(p as real * f);
    RoundKeepsOrder(x as real * f, TARGET as real);
    RoundKeepsOrder((-TARGET) as real, x as real * f);
    RoundFixesIntegers(TARGET);
    RoundFixesIntegers(-TARGET);
  }

  lemma RoundsNoLower(x: int, y: real)
    requires x as real <= y
    ensures x <= Round(y)
  {
    RoundFixesIntegers(x);
    RoundKeepsOrder(x as real, y);
  }

  lemma RoundsNoHigher(x: int, y: real)
    requires y <= x as real
    ensures Round(y) <= x
  {
    RoundFixesIntegers(x);
    RoundKeepsOrder(y, x as real);
  }

  lemma NoShrink(x: int, f: real)
    requires f > 1.0
    ensures x >= 0 ==> Round(x as real * f) >= x
    ensures x <= 0 ==> Round(x as real * f) <= x
  {
    var y := x as real * f;
    if x >= 0 {
      ScalingGrows(0.0, x as real, f - 1.0);
      assert y == x as real + x as real * (f - 1.0);
      RoundsNoLower(x, y);
    } else {
      ScalingGrows(x as real, 0.0, f - 1.0);
      assert y == x as real + x as real * (f - 1.0);
      RoundsNoHigher(x, y);
    }
  }

  /** No smaller than before, and of the same sign. */
  predicate Grown(before: i16, after: i16) {
    Size(after) >= Size(before) && (before > 0 <==> after > 0) && (before < 0 <==> after < 0)
  }

  lemma ClampKeepsOrder(x: int, y: int)
    requires x <= y
    ensures Clamp(x) <= Clamp(y)
  {
  }

  lemma ProductsInOrder(x: i16, y: i16, f: real, a: real, b: real)
    requires a == x as real * f && b == y as real * f && a <= b
    ensures Scaled(x, f) <= Scaled(y, f)
  {
    RoundKeepsOrder(a, b);
    ClampKeepsOrder(Round(a), Round(b));
  }

  lemma ScalesInOrder(x: i16, y: i16, f: real)
    requires f > 0.0 && x <= y
    ensures Scaled(x, f) <= Scaled(y, f)
  {
    ScalingGrows(x as real, y as real, f);
    ProductsInOrder(x, y, f, x as real * f, y as real * f);
  }

  /** Samples `n` are samples `s` scaled by a factor that takes the peak to the target. */
  ghost predicate Rescaled(s: seq<i16>, n: seq<i16>, peak: nat, f: real) {
    && f > 1.0 && f * peak as real == TARGET as real && |n| == |s|
    && forall i :: 0 <= i < |s| ==> n[i] == Scaled(s[i], f)
  }

  lemma RescaledOne(s: seq<i16>, n: seq<i16>, peak: nat, f: real, i: nat)
    requires Rescaled(s, n, peak, f) && i < |s| && Size(s[i]) <= peak
    ensures n[i] as int == Round(s[i] as real * f) && Grown(s[i], n[i]) && Size(n[i]) <= TARGET
    ensures Size(s[i]) == peak ==> Size(n[i]) == TARGET
  {
    AmplifiesOne(s[i], peak, f);
  }

  lemma RescaledInOrder(s: seq<i16>, n: seq<i16>, peak: nat, f: real, i: nat, j: nat)
    requires Rescaled(s, n, peak, f) && i < |s| && j < |s| && s[i] <= s[j]
    ensures n[i] <= n[j]
  {
    ScalesInOrder(s[i], s[j], f);
  }

  lemma RescaledPeak(s: seq<i16>, n: seq<i16>, peak: nat, f: real)
    requires Rescaled(s, n, peak, f) && peak == Peak(s) && peak > 0
    ensures Peak(n) == TARGET
  {
    PeakIsLargest(s);
    PeakIsLargest(n);
    forall i: nat | i < |s| ensures Size(n[i]) <= TARGET {
      RescaledOne(s, n, peak, f, i);
    }
    var loudest: nat :| loudest < |s| && Size(s[loudest]) == peak;
    RescaledOne(s, n, peak, f, loudest);
  }

  /**
   Every sample is multiplied by the factor and rounded, nothing more: no clamp acts, no
   sample shrinks or changes sign, and louder stays at least as loud.
   */
  ghost predicate Faithful(s: seq<i16>, n: seq<i16>, f: real) {
    && |n| == |s|
    && (forall i :: 0 <= i < |s| ==> n[i] as int == Round(s[i] as real * f) && Grown(s[i], n[i]))
    && (forall i, j :: 0 <= i < |s| && 0 <= j < |s| && s[i] <= s[j] ==> n[i] <= n[j])
  }

  lemma RescaledIsFaithful(s: seq<i16>, n: seq<i16>, peak: nat, f: real)
    requires Rescaled(s, n, peak, f) && peak == Peak(s) && peak > 0
    ensures Faithful(s, n, f)
  {
    PeakIsLargest(s);
    forall i: nat | i < |s| ensures n[i] as int == Round(s[i] as real * f) && Grown(s[i], n[i]) {
      RescaledOne(s, n, peak, f, i);
    }
    forall i: nat, j: nat | i < |s| && j < |s| && s[i] <= s[j] ensures n[i] <= n[j] {
      RescaledInOrder(s, n, peak, f, i, j);
    }
  }

  lemma NormalizedIsRescaled(s: seq<i16>)
    requires Amplified(Peak(s))
    ensures Rescaled(s, Normalized(s), Peak(s), Factor(Peak(s)))
  {
    FactorExceedsOne(Peak(s));
  }

  /** A clip between the floor and the target comes out with its peak exactly on target. */
  lemma NormalizesToTarget(s: seq<i16>)
    requires Amplified(Peak(s))
    ensures Peak(Normalized(s)) == TARGET && Faithful(s, Normalized(s), Factor(Peak(s)))
  {
    var f := Factor(Peak(s));
    NormalizedIsRescaled(s);
    RescaledPeak(s, Normalized(s), Peak(s), f);
    RescaledIsFaithful(s, Normalized(s), Peak(s), f);
  }

  /** Integer `y` is the nearest to `x` times 32440 over `p`. */
  predicate Nearest(x: int, y: int, p: int) {
    -p <= 2 * (y * p - x * 32_440) <= p
  }

  lemma Halves(d: real, q: real)
    requires q > 0.0 && -0.5 <= d <= 0.5
    ensures -q <= 2.0 * (d * q) <= q
  {
    assert (d + 0.5) * q == d * q + 0.5 * q && (0.5 - d) * q == 0.5 * q - d * q;
    assert (d + 0.5) * q >= 0.0 && (0.5 - d) * q >= 0.0;
  }

  lemma Deviation(x: real, y: real, f: real, q: real, t: real)
    requires f * q == t
    ensures (y - x * f) * q == y * q - x * t
  {
    assert x * f * q == x * (f * q);
  }

  lemma ProductsOfInts(y: int, p: int)
    ensures y as real * p as real == (y * p) as real
  {
  }

  lemma NearQuotient(x: int, p: nat, y: int, f: real)
    requires p > 0 && f * p as real == 32_440.0 && -0.5 <= y as real - x as real * f <= 0.5
    ensures Nearest(x, y, p)
  {
    Halves(y as real - x as real * f, p as real);
    Deviation(x as real, y as real, f, p as real, 32_440.0);
    ProductsOfInts(y, p);
    ProductsOfInts(x, 32_440);
  }

  lemma NormalizedNear(s: seq<i16>, n: seq<i16>, p: nat, f: real, i: nat)
    requires Rescaled(s, n, p, f) && i < |s| && Size(s[i]) <= p && p > 0
    ensures Nearest(s[i] as int, n[i] as int, p)
  {
    RescaledOne(s, n, p, f, i);
    RoundIsNearest(s[i] as real * f);
    NearQuotient(s[i] as int, p, n[i] as int, f);
  }

  /**
   A clip whose peak is above 200 and below 32440 is scaled by 32440 over its peak, each sample to the
   nearest integer, so that its peak becomes 32440; any other is left alone.
   */
  lemma NormalizedMeans(s: seq<i16>)
    ensures var n, p := Normalized(s), Peak(s);
            && |n| == |s|
            && (if 200 < p < 32_440 then Peak(n) == 32_440 && forall i :: 0 <= i < |s| ==> Nearest(s[i] as int, n[i] as int, p)
                else n == s)
  {
    if Amplified(Peak(s)) {
      NormalizesToTarget(s);
      NormalizedIsRescaled(s);
      PeakIsLargest(s);
      forall i: nat | i < |s| ensures Nearest(s[i] as int, Normalized(s)[i] as int, Peak(s)) {
        NormalizedNear(s, Normalized(s), Peak(s), Factor(Peak(s)), i);
      }
    }
  }

  /** Normalising twice is normalising once. */
  lemma NormalizingTwiceIsOnce(s: seq<i16>)
    ensures Normalized(Normalized(s)) == Normalized(s)
  {
    if Amplified(Peak(s)) {
      NormalizesToTarget(s);
    }
  }

  /** The clip handed on when a capture is closed: nothing for a short or silent one. */
  function Finish(cfg: Config, c: Capture): (clip: Option<seq<i16>>)
    ensures clip.Some? <==> c.speechHeard && |c.samples| >= cfg.MinSamples()
    ensures clip.Some? ==> clip.value == Normalized(c.samples) && |clip.value| == |c.samples|
    ensures clip.Some? && 200 < Peak(c.samples) < 32_440 ==> Peak(clip.value) == 32_440
    ensures clip.Some? && !(200 < Peak(c.samples) < 32_440) ==> clip.value == c.samples
  {
    NormalizedMeans(c.samples);
    if |c.samples| < cfg.MinSamples() || !c.speechHeard then None else Some(Normalized(c.samples))
  }
}
