/** The spectrum reduction of `record_while_with_spectrum` (src/audio.rs): grouping the
    FFT magnitude bins into 20 logarithmic bands by maximum, then normalising the bands for
    display. The FFT, the Hann window and `ln` are outside the model: magnitudes arrive as
    a sequence and `ln` as a function parameter. */
module Spectrum {

  import opened Arith

  const FFT_SIZE: nat := 2048
  const NUM_BANDS: nat := 20
  /** The floor on the normalisation divisor. */
  const MIN_DIVISOR: real := 0.001

  predicate NonNegative(s: seq<real>) {
    forall k :: 0 <= k < |s| ==> s[k] >= 0.0
  }

  /** The band of bin i out of n: (ln((i+1)/n) + 5) / 5 scaled to 20 bands, cast to an
      unsigned index (truncating, and saturating negative values at 0), then capped at 19. */
  function BandIndex(i: nat, n: nat, ln: real -> real): (b: nat)
    requires i < n
    ensures b < NUM_BANDS
  {
    var ratio := (i + 1) as real / n as real;
    var raw := (ln(ratio) + 5.0) / 5.0 * NUM_BANDS as real;
    var cast := if raw < 0.0 then 0 else raw.Floor;
    if cast > NUM_BANDS - 1 then NUM_BANDS - 1 else cast
  }

  /** With a monotone logarithm, a higher bin never lands in a lower band. */
  lemma BandIndexMonotone(i: nat, j: nat, n: nat, ln: real -> real)
    requires i <= j < n
    requires forall a: real, b: real :: 0.0 < a <= b ==> ln(a) <= ln(b)
    ensures BandIndex(i, n, ln) <= BandIndex(j, n, ln)
  {
    var ri, rj := (i + 1) as real / n as real, (j + 1) as real / n as real;
    assert 0.0 < ri <= rj by {
      assert ri * n as real == (i + 1) as real;
      assert rj * n as real == (j + 1) as real;
    }
    assert ln(ri) <= ln(rj);
  }

  /** The value of `bands[band]` after the first `upto` bins: the largest magnitude among
      those bins that map to `band`, starting from 0. */
  function Peak(mags: seq<real>, ln: real -> real, band: nat, upto: nat): (p: real)
    requires upto <= |mags|
    ensures p >= 0.0
    ensures forall k :: 0 <= k < upto && BandIndex(k, |mags|, ln) == band ==> mags[k] <= p
    ensures p == 0.0 || exists k :: 0 <= k < upto && BandIndex(k, |mags|, ln) == band && mags[k] == p
  {
    if upto == 0 then 0.0
    else
      var p := Peak(mags, ln, band, upto - 1);
      if BandIndex(upto - 1, |mags|, ln) == band then RealMax(p, mags[upto - 1]) else p
  }

  /** A band no bin maps to stays 0. */
  lemma {:induction false} PeakOfEmptyBand(mags: seq<real>, ln: real -> real, band: nat, upto: nat)
    requires upto <= |mags|
    requires forall k :: 0 <= k < upto ==> BandIndex(k, |mags|, ln) != band
    ensures Peak(mags, ln, band, upto) == 0.0
  {
    if upto > 0 {
      PeakOfEmptyBand(mags, ln, band, upto - 1);
    }
  }

  /** The 20 bands of a magnitude vector. */
  function Bands(mags: seq<real>, ln: real -> real): (r: seq<real>)
    ensures |r| == NUM_BANDS
    ensures NonNegative(r)
  {
    seq(NUM_BANDS, b requires 0 <= b => Peak(mags, ln, b, |mags|))
  }

  /** The band loop: a 20-slot array, each bin raising its band to at least its magnitude. */
  method GroupBands(mags: seq<real>, ln: real -> real) returns (bands: seq<real>)
    ensures bands == Bands(mags, ln)
  {
    var acc := new real[NUM_BANDS](_ => 0.0);
    for i := 0 to |mags|
      invariant forall b :: 0 <= b < NUM_BANDS ==> acc[b] == Peak(mags, ln, b, i)
    {
      var b := BandIndex(i, |mags|, ln);
      acc[b] := RealMax(acc[b], mags[i]);
    }
    bands := acc[..];
  }

  /** The largest band, folding with max from 0. */
  function Largest(s: seq<real>): (m: real)
    ensures m >= 0.0
    ensures forall k :: 0 <= k < |s| ==> s[k] <= m
    ensures m == 0.0 || exists k :: 0 <= k < |s| && s[k] == m
  {
    if s == [] then 0.0 else RealMax(Largest(s[..|s| - 1]), s[|s| - 1])
  }

  /** The normalisation divisor: the largest band, floored at 0.001. */
  function Divisor(bands: seq<real>): (d: real)
    ensures d >= MIN_DIVISOR
    ensures forall k :: 0 <= k < |bands| ==> bands[k] <= d
    ensures d == MIN_DIVISOR || exists k :: 0 <= k < |bands| && bands[k] == d
  {
    RealMax(Largest(bands), MIN_DIVISOR)
  }

  /** Each band over the divisor, tripled and capped at 1. */
  function Normalize(bands: seq<real>): (r: seq<real>)
    ensures |r| == |bands|
    ensures forall k :: 0 <= k < |r| ==> r[k] <= 1.0
    ensures NonNegative(bands) ==> NonNegative(r)
  {
    var d := Divisor(bands);
    seq(|bands|, k requires 0 <= k < |bands| => RealMin(bands[k] / d * 3.0, 1.0))
  }

  /** A band is drawn at full height exactly when it reaches a third of the divisor;
      below that it is drawn at three times its share of the divisor. */
  lemma FullHeightIff(bands: seq<real>, k: nat)
    requires k < |bands|
    ensures Normalize(bands)[k] == 1.0 <==> bands[k] * 3.0 >= Divisor(bands)
    ensures bands[k] * 3.0 < Divisor(bands) ==> Normalize(bands)[k] * Divisor(bands) == bands[k] * 3.0
  {
    var d := Divisor(bands);
    var v := bands[k] / d * 3.0;
    assert Normalize(bands)[k] == RealMin(v, 1.0);
    assert (v - 1.0) * d == bands[k] * 3.0 - d;
    ScaledSign(v - 1.0, d);
  }

  /** When the loudest band reaches the floor, it is drawn at full height. */
  lemma LoudestBandIsFull(bands: seq<real>, k: nat)
    requires k < |bands|
    requires bands[k] == Largest(bands) && bands[k] >= MIN_DIVISOR
    ensures Normalize(bands)[k] == 1.0
  {
    assert Divisor(bands) == bands[k];
    FullHeightIff(bands, k);
  }

  /** Normalising keeps the order of the bands (a louder band is never drawn lower). */
  lemma NormalizeMonotone(bands: seq<real>, i: nat, j: nat)
    requires i < |bands| && j < |bands|
    requires bands[i] <= bands[j]
    ensures Normalize(bands)[i] <= Normalize(bands)[j]
  {
    var d := Divisor(bands);
    DivMonotone(bands[i], bands[j], d);
  }
}
