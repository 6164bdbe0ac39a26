/** Sample conversion and the mono down-mix done in the audio stream callbacks
    (src/audio.rs). Sample values are modelled as exact `real`s. */
module Samples {

  import opened Arith

  /** A 16-bit signed device sample. */
  newtype I16 = x: int | -0x8000 <= x < 0x8000

  /** A 16-bit unsigned device sample. */
  newtype U16 = x: int | 0 <= x < 0x1_0000

  /** One buffer handed to a stream callback, in the device's native format. */
  datatype RawBuffer = F32Data(f: seq<real>) | I16Data(i: seq<I16>) | U16Data(u: seq<U16>)

  predicate InUnitRange(x: real) {
    -1.0 <= x < 1.0
  }

  /** A signed sample over 32768: exact, and the unit value recovers the raw sample. */
  function I16ToUnit(s: I16): (r: real)
    ensures InUnitRange(r)
    ensures r * 32768.0 == s as real
  {
    s as real / 32768.0
  }

  /** An unsigned sample, shifted down by 32768 and scaled by 1/32768: the midpoint maps to 0. */
  function U16ToUnit(s: U16): (r: real)
    ensures InUnitRange(r)
    ensures r * 32768.0 + 32768.0 == s as real
  {
    (s as real - 32768.0) / 32768.0
  }

  function Length(b: RawBuffer): nat {
    match b
    case F32Data(f) => |f|
    case I16Data(i) => |i|
    case U16Data(u) => |u|
  }

  /** The per-sample conversion each callback applies before averaging. */
  function ToUnit(b: RawBuffer): (r: seq<real>)
    ensures |r| == Length(b)
  {
    match b
    case F32Data(f) => f
    case I16Data(i) => seq(|i|, k requires 0 <= k < |i| => I16ToUnit(i[k]))
    case U16Data(u) => seq(|u|, k requires 0 <= k < |u| => U16ToUnit(u[k]))
  }

  /** Integer formats convert sample by sample into [-1, 1); float samples pass through. */
  lemma ToUnitAt(b: RawBuffer, k: nat)
    requires k < Length(b)
    ensures b.F32Data? ==> ToUnit(b)[k] == b.f[k]
    ensures b.I16Data? ==> ToUnit(b)[k] == I16ToUnit(b.i[k])
    ensures b.U16Data? ==> ToUnit(b)[k] == U16ToUnit(b.u[k])
    ensures !b.F32Data? ==> InUnitRange(ToUnit(b)[k])
  {
  }

  function Sum(s: seq<real>): real {
    if s == [] then 0.0 else Sum(s[..|s| - 1]) + s[|s| - 1]
  }

  /** The k-th chunk of `channels` consecutive samples; the last one may be short. */
  function Chunk(data: seq<real>, channels: nat, k: nat): seq<real>
    requires channels >= 1
    requires k * channels < |data|
  {
    data[k * channels .. Min((k + 1) * channels, |data|)]
  }

  /** The mono stream one callback appends: one sample per channel-chunk, equal to the
      chunk's sum divided by the channel count (also for a short final chunk). */
  function DownMix(data: seq<real>, channels: nat): seq<real>
    requires channels >= 1
    decreases |data|
  {
    if data == [] then []
    else
      var n := Min(channels, |data|);
      [Sum(data[..n]) / channels as real] + DownMix(data[n..], channels)
  }

  /** DownMix peels off the first chunk `data[..end]`. */
  lemma DownMixCons(data: seq<real>, channels: nat, i: nat, end: nat)
    requires channels >= 1
    requires i < end <= |data| && end == Min(i + channels, |data|)
    ensures DownMix(data[i..], channels) == [Sum(data[i..end]) / channels as real] + DownMix(data[end..], channels)
  {
    assert data[i..][..end - i] == data[i..end];
    assert data[i..][end - i..] == data[end..];
  }

  /** A callback appends ceil(len / channels) samples. */
  lemma DownMixLength(data: seq<real>, channels: nat)
    requires channels >= 1
    ensures |DownMix(data, channels)| == (|data| + channels - 1) / channels
  {
    var m := |DownMix(data, channels)|;
    DownMixBounds(data, channels);
    DivisionPins(|data| + channels - 1, channels, m);
  }

  /** The count of mono samples, pinned without division: (m-1)*channels < len <= m*channels. */
  lemma {:induction false} DownMixBounds(data: seq<real>, channels: nat)
    requires channels >= 1
    ensures |DownMix(data, channels)| * channels >= |data|
    ensures |data| > |DownMix(data, channels)| * channels - channels
    decreases |data|
  {
    if data != [] {
      var n := Min(channels, |data|);
      var m' := |DownMix(data[n..], channels)|;
      DownMixBounds(data[n..], channels);
      assert |DownMix(data, channels)| == m' + 1;
      MulSucc(m', channels);
    }
  }

  /** The k-th mono sample is the k-th chunk's sum over the channel count: the samples
      come out in the order of their chunks. */
  lemma {:induction false} DownMixAt(data: seq<real>, channels: nat, k: nat)
    requires channels >= 1
    requires k * channels < |data|
    ensures k < |DownMix(data, channels)|
    ensures DownMix(data, channels)[k] == Sum(Chunk(data, channels, k)) / channels as real
    decreases k
  {
    var n := Min(channels, |data|);
    if k == 0 {
      assert Chunk(data, channels, 0) == data[..n];
    } else {
      var rest := data[n..];
      MulSucc(k - 1, channels);
      MulSucc(k, channels);
      assert n == channels;
      DownMixAt(rest, channels, k - 1);
      ChunkShift(data, channels, k);
    }
  }

  lemma MulSucc(k: nat, c: nat)
    ensures (k + 1) * c == k * c + c
  {
  }

  /** Dropping the first chunk shifts every later chunk down by one. */
  lemma ChunkShift(data: seq<real>, channels: nat, k: nat)
    requires channels >= 1 && k >= 1
    requires k * channels < |data|
    ensures (k - 1) * channels < |data[channels..]|
    ensures Chunk(data[channels..], channels, k - 1) == Chunk(data, channels, k)
  {
    var a := (k - 1) * channels;
    MulSucc(k - 1, channels);
    MulSucc(k, channels);
    assert k * channels == a + channels;
    assert (k + 1) * channels == a + channels + channels;
    var rest := data[channels..];
    assert Min(a + channels, |rest|) + channels == Min(a + channels + channels, |data|);
  }

  /** Averaging unit-range samples stays in unit range. */
  lemma {:induction false} DownMixInRange(data: seq<real>, channels: nat)
    requires channels >= 1
    requires forall k :: 0 <= k < |data| ==> InUnitRange(data[k])
    ensures forall k :: 0 <= k < |DownMix(data, channels)| ==> InUnitRange(DownMix(data, channels)[k])
    decreases |data|
  {
    if data != [] {
      var n := Min(channels, |data|);
      SumBounds(data[..n]);
      var c := channels as real;
      var s := Sum(data[..n]);
      assert -c <= s < c;
      DivBounds(s, c);
      DownMixInRange(data[n..], channels);
    }
  }

  lemma {:induction false} SumBounds(s: seq<real>)
    requires forall k :: 0 <= k < |s| ==> InUnitRange(s[k])
    ensures -(|s| as real) <= Sum(s)
    ensures s != [] ==> Sum(s) < |s| as real
    decreases |s|
  {
    if s != [] {
      SumBounds(s[..|s| - 1]);
    }
  }
}
