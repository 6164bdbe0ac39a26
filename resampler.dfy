/** The linear-interpolation resampler `resample` (src/audio.rs), in exact arithmetic:
    the ratio from / to and each source position i * ratio are exact rationals, and the
    casts of these non-negative values to an index are floors. */
module Resampler {

  import opened Arith

  /** The output length, len over the ratio, truncated: floor(len * to / from). */
  function OutputLength(len: nat, from: nat, to: nat): nat
    requires from >= 1
  {
    len * to / from
  }

  /** The source index of output i, its position i * ratio truncated: floor(i * from / to). */
  function SourceIndex(i: nat, from: nat, to: nat): nat
    requires to >= 1
  {
    i * from / to
  }

  /** The interpolation weight: the fractional part of i * from / to. */
  function Fraction(i: nat, from: nat, to: nat): (f: real)
    requires to >= 1
    ensures 0.0 <= f < 1.0
  {
    var m := (i * from) % to;
    DivBounds(m as real, to as real);
    m as real / to as real
  }

  /** Index and fraction together are the exact source position i * ratio. */
  lemma SourcePosition(i: nat, from: nat, to: nat)
    requires to >= 1
    ensures SourceIndex(i, from, to) as real + Fraction(i, from, to) == (i * from) as real / to as real
  {
    var q, m := (i * from) / to, (i * from) % to;
    assert i * from == q * to + m;
    var t := to as real;
    assert (i * from) as real == q as real * t + m as real;
    assert (q as real * t + m as real) / t == q as real + m as real / t;
  }

  /** Output sample i: interpolate between the two neighbours, take the last sample alone,
      or fill with zero past the end. */
  function SampleAt(x: seq<real>, from: nat, to: nat, i: nat): real
    requires to >= 1
  {
    var idx := SourceIndex(i, from, to);
    var frac := Fraction(i, from, to);
    if idx + 1 < |x| then x[idx] * (1.0 - frac) + x[idx + 1] * frac
    else if idx < |x| then x[idx]
    else 0.0
  }

  /** What `resample(x, from, to)` returns. */
  function Resampled(x: seq<real>, from: nat, to: nat): seq<real>
    requires from >= 1 && to >= 1
  {
    seq(OutputLength(|x|, from, to), i requires 0 <= i => SampleAt(x, from, to, i))
  }

  /** The counted loop of `resample`, pushing one sample per output index. */
  method Resample(x: seq<real>, from: nat, to: nat) returns (r: seq<real>)
    requires from >= 1 && to >= 1
    ensures |r| == |x| * to / from
    ensures r == Resampled(x, from, to)
  {
    var newLen := OutputLength(|x|, from, to);
    r := [];
    for i := 0 to newLen
      invariant |r| == i
      invariant forall j :: 0 <= j < i ==> r[j] == SampleAt(x, from, to, j)
    {
      var idx := SourceIndex(i, from, to);
      var frac := Fraction(i, from, to);
      var sample;
      if idx + 1 < |x| {
        sample := x[idx] * (1.0 - frac) + x[idx + 1] * frac;
      } else if idx < |x| {
        sample := x[idx];
      } else {
        sample := 0.0;
      }
      r := r + [sample];
    }
  }

  /** Every output index reads an existing source sample: the zero fill never happens. */
  lemma SourceIndexInRange(len: nat, from: nat, to: nat, i: nat)
    requires from >= 1 && to >= 1
    requires i < OutputLength(len, from, to)
    ensures SourceIndex(i, from, to) < len
  {
    var n := OutputLength(len, from, to);
    var q := SourceIndex(i, from, to);
    assert n * from <= len * to;
    MulLe(i + 1, n, from);
    assert i * from < len * to;
    assert q * to <= i * from;
    if q >= len {
      MulLe(len, q, to);
    }
  }

  /** Each output sample lies between the two source samples it interpolates, and is the
      source sample itself at the last index. */
  lemma SampleBetweenNeighbours(x: seq<real>, from: nat, to: nat, i: nat)
    requires from >= 1 && to >= 1
    requires i < OutputLength(|x|, from, to)
    ensures SourceIndex(i, from, to) < |x|
    ensures var idx := SourceIndex(i, from, to);
            if idx + 1 < |x|
            then RealMin(x[idx], x[idx + 1]) <= Resampled(x, from, to)[i] <= RealMax(x[idx], x[idx + 1])
            else Resampled(x, from, to)[i] == x[idx]
  {
    SourceIndexInRange(|x|, from, to, i);
    var idx := SourceIndex(i, from, to);
    assert Resampled(x, from, to)[i] == SampleAt(x, from, to, i);
    if idx + 1 < |x| {
      Interpolation(x[idx], x[idx + 1], Fraction(i, from, to));
    }
  }

  lemma Interpolation(a: real, b: real, f: real)
    requires 0.0 <= f < 1.0
    ensures RealMin(a, b) <= a * (1.0 - f) + b * f <= RealMax(a, b)
  {
    var v := a * (1.0 - f) + b * f;
    if a <= b {
      // Measured from a, the sample is a fraction f of the way up to b.
      var d := b - a;
      assert b * f == a * f + d * f;
      assert a * (1.0 - f) == a - a * f;
      assert v == a + f * d;
      ScaleDown(f, d);
    } else {
      // Measured from b, the sample is a fraction 1 - f of the way up to a.
      var d := a - b;
      assert a * (1.0 - f) == b * (1.0 - f) + (1.0 - f) * d;
      assert b * (1.0 - f) + b * f == b;
      assert v == b + (1.0 - f) * d;
      ScaleDown(1.0 - f, d);
    }
  }

  lemma ScaleDown(f: real, d: real)
    requires 0.0 <= f <= 1.0 && d >= 0.0
    ensures 0.0 <= f * d <= d
  {
    assert d - f * d == (1.0 - f) * d;
  }

  /** Resampling to the native rate is the identity. */
  lemma ResampleSameRate(x: seq<real>, rate: nat)
    requires rate >= 1
    ensures Resampled(x, rate, rate) == x
  {
    var r := Resampled(x, rate, rate);
    DivisionPins(|x| * rate, rate, |x|);
    forall i | 0 <= i < |x|
      ensures r[i] == x[i]
    {
      DivisionPins(i * rate, rate, i);
    }
  }

  /** Halving the rate gives half as many samples, rounded down. */
  lemma ResampleHalfRateLength(x: seq<real>, to: nat)
    requires to >= 1
    ensures |Resampled(x, 2 * to, to)| == |x| / 2
  {
    var q, m := |x| / 2, |x| % 2;
    assert |x| * to == q * (2 * to) + m * to;
    MulLe(m, 1, to);
    DivisionPins(|x| * to, 2 * to, q);
  }

  /** Halving the rate keeps every second sample. */
  lemma ResampleHalfRate(x: seq<real>, to: nat, i: nat)
    requires to >= 1
    requires i < |x| / 2
    ensures |Resampled(x, 2 * to, to)| == |x| / 2
    ensures Resampled(x, 2 * to, to)[i] == x[2 * i]
  {
    ResampleHalfRateLength(x, to);
    assert i * (2 * to) == (2 * i) * to;
    DivisionPins(i * (2 * to), to, 2 * i);
  }
}
