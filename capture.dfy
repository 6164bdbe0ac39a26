/** Audio capture sessions of `AudioRecorder` (src/audio.rs): the stream callbacks that
    append mono samples, the sliding analysis window of the spectrum variant, and the
    resampling gate applied when the stream stops. A capture is modelled as the sequence
    of callback buffers the driver delivered; the device, the stream, the locks and the
    polling sleeps are outside the model. */
module Capture {

  import opened Wrappers
  import opened Arith
  import opened Samples
  import Resampler
  import Spectrum

  /** The rate the transcriber expects. */
  const TARGET_RATE: nat := 16000

  /** The device's native sample format (cpal's `SampleFormat`). */
  datatype SampleFormat = I8 | I16 | I32 | I64 | U8 | U16 | U32 | U64 | F32 | F64

  /** What `AudioRecorder::new` learns from the default input configuration. */
  datatype RecorderConfig = RecorderConfig(format: SampleFormat, sampleRate: nat, channels: nat)

  datatype CaptureError =
    | UnsupportedFormat   // a format the recorder has no stream arm for
    | StreamFailed        // the device refused to build or start the stream

  /** The formats `record_while` builds a stream for. */
  predicate RecordWhileAccepts(f: SampleFormat) {
    f == F32 || f == I16 || f == U16
  }

  /** The formats `record_while_with_spectrum` builds a stream for: no U16 arm there. */
  predicate SpectrumAccepts(f: SampleFormat) {
    f == F32 || f == I16
  }

  /** What a session returns from its accumulated samples: resampled to 16 kHz unless the
      native rate already is 16 kHz. */
  function Finalized(samples: seq<real>, nativeRate: nat): seq<real>
    requires nativeRate >= 1
  {
    if nativeRate != TARGET_RATE then Resampler.Resampled(samples, nativeRate, TARGET_RATE)
    else samples
  }

  /** The gate only skips work: the result is always the 16 kHz resampling. */
  lemma FinalizedIsResampled(samples: seq<real>, nativeRate: nat)
    requires nativeRate >= 1
    ensures Finalized(samples, nativeRate) == Resampler.Resampled(samples, nativeRate, TARGET_RATE)
    ensures |Finalized(samples, nativeRate)| == |samples| * TARGET_RATE / nativeRate
  {
    if nativeRate == TARGET_RATE {
      Resampler.ResampleSameRate(samples, TARGET_RATE);
    }
  }

  /** The tail of both recording functions. */
  method Finalize(samples: seq<real>, nativeRate: nat) returns (out: seq<real>)
    requires nativeRate >= 1
    ensures out == Finalized(samples, nativeRate)
    ensures nativeRate == TARGET_RATE ==> out == samples
  {
    if nativeRate != TARGET_RATE {
      out := Resampler.Resample(samples, nativeRate, TARGET_RATE);
    } else {
      out := samples;
    }
  }

  /** The mono samples of a sequence of callback buffers, in delivery order. */
  function Captured(buffers: seq<RawBuffer>, channels: nat): seq<real>
    requires channels >= 1
  {
    if buffers == [] then []
    else DownMix(ToUnit(buffers[0]), channels) + Captured(buffers[1..], channels)
  }

  /** The buffer is append-only: later callbacks extend what earlier ones produced. */
  lemma {:induction false} CapturedConcat(a: seq<RawBuffer>, b: seq<RawBuffer>, channels: nat)
    requires channels >= 1
    ensures Captured(a + b, channels) == Captured(a, channels) + Captured(b, channels)
    decreases |a|
  {
    if a == [] {
      assert a + b == b;
    } else {
      assert (a + b)[0] == a[0];
      assert (a + b)[1..] == a[1..] + b;
      CapturedConcat(a[1..], b, channels);
    }
  }

  /** Captured peels off the buffer at position k. */
  lemma CapturedAt(buffers: seq<RawBuffer>, k: nat, channels: nat)
    requires channels >= 1 && k < |buffers|
    ensures Captured(buffers[k..], channels) == DownMix(ToUnit(buffers[k]), channels) + Captured(buffers[k + 1..], channels)
  {
    assert buffers[k..][1..] == buffers[k + 1..];
    assert buffers[k..][0] == buffers[k];
  }

  lemma AppendAssoc<T>(a: seq<T>, b: seq<T>, c: seq<T>)
    ensures (a + b) + c == a + (b + c)
  {
  }

  lemma AppendEmpty<T>(a: seq<T>)
    ensures [] + a == a && a + [] == a
  {
  }

  /** The shared sample vector of `record_while`, filled by the stream callback. */
  class SampleBuffer {
    var samples: seq<real>

    constructor ()
      ensures samples == []
    {
      samples := [];
    }

    /** One callback: each chunk of `channels` samples pushes one averaged sample. */
    method OnData(data: RawBuffer, channels: nat)
      requires channels >= 1
      modifies this
      ensures samples == old(samples) + DownMix(ToUnit(data), channels)
    {
      var unit := ToUnit(data);
      var i := 0;
      while i < |unit|
        invariant 0 <= i <= |unit|
        invariant samples + DownMix(unit[i..], channels) == old(samples) + DownMix(unit, channels)
        decreases |unit| - i
      {
        var end := if i + channels < |unit| then i + channels else |unit|;
        var mono := Sum(unit[i..end]) / channels as real;
        DownMixCons(unit, channels, i, end);
        AppendAssoc(samples, [mono], DownMix(unit[end..], channels));
        samples := samples + [mono];
        i := end;
      }
      assert unit[i..] == [];
    }
  }

  /** `record_while`: build the stream for the native format, collect the callback buffers
      until the condition fails, then resample. */
  method RecordWhile(config: RecorderConfig, streamOk: bool, buffers: seq<RawBuffer>)
    returns (r: Result<seq<real>, CaptureError>)
    requires config.channels >= 1 && config.sampleRate >= 1
    ensures !RecordWhileAccepts(config.format) ==> r == Err(UnsupportedFormat)
    ensures RecordWhileAccepts(config.format) && !streamOk ==> r == Err(StreamFailed)
    ensures RecordWhileAccepts(config.format) && streamOk ==>
              r == Ok(Finalized(Captured(buffers, config.channels), config.sampleRate))
  {
    if !RecordWhileAccepts(config.format) {
      return Err(UnsupportedFormat);
    }
    if !streamOk {
      return Err(StreamFailed);
    }
    var session := new SampleBuffer();
    for k := 0 to |buffers|
      invariant session.samples + Captured(buffers[k..], config.channels) == Captured(buffers, config.channels)
    {
      CapturedAt(buffers, k, config.channels);
      ghost var before := session.samples;
      session.OnData(buffers[k], config.channels);
      AppendAssoc(before, DownMix(ToUnit(buffers[k]), config.channels), Captured(buffers[k + 1..], config.channels));
    }
    assert buffers[|buffers|..] == [];
    assert Captured(buffers[|buffers|..], config.channels) == [];
    var captured := session.samples;
    assert captured == Captured(buffers, config.channels);
    var out := Finalize(captured, config.sampleRate);
    r := Ok(out);
  }

  /** The last min(n, 2048) samples of a capture: what `fft_buf` holds. */
  function Window(s: seq<real>): (w: seq<real>)
    ensures |w| <= Spectrum.FFT_SIZE
    ensures |w| == Min(|s|, Spectrum.FFT_SIZE)
  {
    s[|s| - Min(|s|, Spectrum.FFT_SIZE)..]
  }

  /** Appending, then dropping the oldest sample when over 2048, keeps the window the capture's suffix. */
  lemma WindowPush(s: seq<real>, x: real)
    ensures var w := Window(s) + [x];
            Window(s + [x]) == if |w| > Spectrum.FFT_SIZE then w[1..] else w
  {
    var w := Window(s) + [x];
    if |s| >= Spectrum.FFT_SIZE {
      assert w[1..] == (s + [x])[|s| + 1 - Spectrum.FFT_SIZE..];
    } else {
      assert Window(s) == s;
    }
  }

  /** The two shared vectors of `record_while_with_spectrum`: all samples, and the
      analysis window. */
  class SpectrumBuffers {
    var samples: seq<real>
    var fftBuf: seq<real>

    ghost predicate Valid()
      reads this
    {
      fftBuf == Window(samples)
    }

    constructor ()
      ensures Valid() && samples == [] && fftBuf == []
    {
      samples := [];
      fftBuf := [];
    }

    /** One mono sample goes to the recording and to the window; the window then drops
        its oldest sample if it holds more than 2048. */
    method Push(mono: real)
      requires Valid()
      modifies this
      ensures Valid()
      ensures samples == old(samples) + [mono]
      // Implied by Valid() and Window's length bound; stated for callers' convenience.
      ensures |fftBuf| <= Spectrum.FFT_SIZE
    {
      WindowPush(samples, mono);
      samples := samples + [mono];
      fftBuf := fftBuf + [mono];
      if |fftBuf| > Spectrum.FFT_SIZE {
        fftBuf := fftBuf[1..];
      }
    }

    method OnData(data: RawBuffer, channels: nat)
      requires channels >= 1
      requires Valid()
      modifies this
      ensures Valid()
      ensures samples == old(samples) + DownMix(ToUnit(data), channels)
    {
      var unit := ToUnit(data);
      var i := 0;
      while i < |unit|
        invariant 0 <= i <= |unit|
        invariant Valid()
        invariant samples + DownMix(unit[i..], channels) == old(samples) + DownMix(unit, channels)
        decreases |unit| - i
      {
        var end := if i + channels < |unit| then i + channels else |unit|;
        var mono := Sum(unit[i..end]) / channels as real;
        DownMixCons(unit, channels, i, end);
        ghost var before := samples;
        Push(mono);
        AppendAssoc(before, [mono], DownMix(unit[end..], channels));
        i := end;
      }
      assert unit[i..] == [];
    }

    /** One polling tick: a window that has reached 2048 samples yields one frame of 20
        normalised bands; a shorter one yields nothing. */
    method Poll(magnitudesOf: seq<real> -> seq<real>, ln: real -> real) returns (emitted: seq<seq<real>>)
      requires Valid()
      ensures |samples| < Spectrum.FFT_SIZE ==> emitted == []
      ensures |samples| >= Spectrum.FFT_SIZE ==> emitted == [FrameOf(Window(samples), magnitudesOf, ln)]
      ensures forall k :: 0 <= k < |emitted| ==> UnitFrame(emitted[k])
    {
      var buf := fftBuf;
      if |buf| >= Spectrum.FFT_SIZE {
        var bands := Spectrum.GroupBands(magnitudesOf(buf), ln);
        emitted := [Spectrum.Normalize(bands)];
      } else {
        emitted := [];
      }
    }

    /** One step of the capture: a callback buffer is mixed in, a tick polls the window. */
    method Apply(step: CaptureStep, channels: nat, magnitudesOf: seq<real> -> seq<real>, ln: real -> real)
      returns (emitted: seq<seq<real>>)
      requires channels >= 1
      requires Valid()
      modifies this
      ensures Valid()
      ensures step.Audio? ==> samples == old(samples) + DownMix(ToUnit(step.buffer), channels) && emitted == []
      ensures step.Tick? ==> samples == old(samples) && emitted == TickFrames(old(samples), magnitudesOf, ln)
    {
      match step
      case Audio(b) =>
        OnData(b, channels);
        emitted := [];
      case Tick =>
        emitted := Poll(magnitudesOf, ln);
    }
  }

  /** What happens while `record_while_with_spectrum` waits: a callback delivers a buffer,
      or a polling tick looks at the window. */
  datatype CaptureStep = Audio(buffer: RawBuffer) | Tick

  /** The callback buffers among the steps, in order. */
  function AudioOf(steps: seq<CaptureStep>): (r: seq<RawBuffer>)
    ensures |r| <= |steps|
  {
    if steps == [] then []
    else (if steps[0].Audio? then [steps[0].buffer] else []) + AudioOf(steps[1..])
  }

  /** The frame one tick emits, from the window it copies. */
  function FrameOf(window: seq<real>, magnitudesOf: seq<real> -> seq<real>, ln: real -> real): seq<real> {
    Spectrum.Normalize(Spectrum.Bands(magnitudesOf(window), ln))
  }

  predicate UnitFrame(f: seq<real>) {
    |f| == Spectrum.NUM_BANDS && forall j :: 0 <= j < |f| ==> 0.0 <= f[j] <= 1.0
  }

  /** What one tick emits after `before` has been captured. */
  function TickFrames(before: seq<real>, magnitudesOf: seq<real> -> seq<real>, ln: real -> real): seq<seq<real>> {
    if |Window(before)| >= Spectrum.FFT_SIZE then [FrameOf(Window(before), magnitudesOf, ln)] else []
  }

  /** The frames the remaining steps emit after `before` has been captured: one per tick
      whose window is full. */
  function Frames(steps: seq<CaptureStep>, channels: nat, before: seq<real>,
                  magnitudesOf: seq<real> -> seq<real>, ln: real -> real): (r: seq<seq<real>>)
    requires channels >= 1
    ensures |r| <= |steps|
    decreases |steps|
  {
    if steps == [] then []
    else
      match steps[0]
      case Audio(b) => Frames(steps[1..], channels, before + DownMix(ToUnit(b), channels), magnitudesOf, ln)
      case Tick => TickFrames(before, magnitudesOf, ln) + Frames(steps[1..], channels, before, magnitudesOf, ln)
  }

  /** A tick emits at most one frame, of 20 bands in [0, 1]. */
  lemma TickFramesAreUnit(before: seq<real>, magnitudesOf: seq<real> -> seq<real>, ln: real -> real)
    ensures |TickFrames(before, magnitudesOf, ln)| <= 1
    ensures forall k :: 0 <= k < |TickFrames(before, magnitudesOf, ln)| ==> UnitFrame(TickFrames(before, magnitudesOf, ln)[k])
  {
    if |Window(before)| >= Spectrum.FFT_SIZE {
      var f := FrameOf(Window(before), magnitudesOf, ln);
      assert UnitFrame(f);
    }
  }

  /** Every frame the sink receives has 20 bands in [0, 1]. */
  lemma {:induction false} FramesAreUnit(steps: seq<CaptureStep>, channels: nat, before: seq<real>,
                                         magnitudesOf: seq<real> -> seq<real>, ln: real -> real)
    requires channels >= 1
    ensures forall k :: 0 <= k < |Frames(steps, channels, before, magnitudesOf, ln)| ==>
              UnitFrame(Frames(steps, channels, before, magnitudesOf, ln)[k])
    decreases |steps|
  {
    if steps != [] {
      match steps[0]
      case Audio(b) =>
        FramesAreUnit(steps[1..], channels, before + DownMix(ToUnit(b), channels), magnitudesOf, ln);
      case Tick =>
        TickFramesAreUnit(before, magnitudesOf, ln);
        FramesAreUnit(steps[1..], channels, before, magnitudesOf, ln);
    }
  }

  /** No spectrum is emitted before 2048 samples have been captured. */
  lemma {:induction false} FramesNeedFullWindow(steps: seq<CaptureStep>, channels: nat, before: seq<real>,
                                                magnitudesOf: seq<real> -> seq<real>, ln: real -> real)
    requires channels >= 1
    requires |before| + |Captured(AudioOf(steps), channels)| < Spectrum.FFT_SIZE
    ensures Frames(steps, channels, before, magnitudesOf, ln) == []
    decreases |steps|
  {
    if steps != [] {
      var rest := steps[1..];
      match steps[0]
      case Audio(b) =>
        assert AudioOf(steps) == [b] + AudioOf(rest);
        assert ([b] + AudioOf(rest))[1..] == AudioOf(rest);
        assert Captured(AudioOf(steps), channels) == DownMix(ToUnit(b), channels) + Captured(AudioOf(rest), channels);
        FramesNeedFullWindow(rest, channels, before + DownMix(ToUnit(b), channels), magnitudesOf, ln);
      case Tick =>
        assert AudioOf(steps) == AudioOf(rest);
        FramesNeedFullWindow(rest, channels, before, magnitudesOf, ln);
    }
  }

  /** Captured peels off its first buffer. */
  lemma CapturedCons(b: RawBuffer, rest: seq<RawBuffer>, channels: nat)
    requires channels >= 1
    ensures Captured([b] + rest, channels) == DownMix(ToUnit(b), channels) + Captured(rest, channels)
  {
    assert ([b] + rest)[0] == b;
    assert ([b] + rest)[1..] == rest;
  }

  /** One step's share of the captured samples. */
  lemma CapturedStep(steps: seq<CaptureStep>, i: nat, channels: nat)
    requires channels >= 1 && i < |steps|
    ensures steps[i].Audio? ==>
              Captured(AudioOf(steps[i..]), channels)
              == DownMix(ToUnit(steps[i].buffer), channels) + Captured(AudioOf(steps[i + 1..]), channels)
    ensures steps[i].Tick? ==>
              Captured(AudioOf(steps[i..]), channels) == Captured(AudioOf(steps[i + 1..]), channels)
  {
    var s := steps[i..];
    var rest := steps[i + 1..];
    assert s[1..] == rest;
    assert s[0] == steps[i];
    if steps[i].Audio? {
      assert AudioOf(s) == [steps[i].buffer] + AudioOf(rest);
      CapturedCons(steps[i].buffer, AudioOf(rest), channels);
    } else {
      assert AudioOf(s) == [] + AudioOf(rest) == AudioOf(rest);
    }
  }

  /** One step's share of the emitted frames. */
  lemma FramesStep(steps: seq<CaptureStep>, i: nat, channels: nat, before: seq<real>,
                   magnitudesOf: seq<real> -> seq<real>, ln: real -> real)
    requires channels >= 1 && i < |steps|
    ensures Frames(steps[i..], channels, before, magnitudesOf, ln)
            == match steps[i]
               case Audio(b) => Frames(steps[i + 1..], channels, before + DownMix(ToUnit(b), channels), magnitudesOf, ln)
               case Tick => TickFrames(before, magnitudesOf, ln) + Frames(steps[i + 1..], channels, before, magnitudesOf, ln)
  {
    assert steps[i..][1..] == steps[i + 1..];
    assert steps[i..][0] == steps[i];
  }

  /** The captured-samples half of the waiting loop's invariant survives one step. */
  lemma StepKeepsSamples(steps: seq<CaptureStep>, i: nat, ch: nat, before: seq<real>, after: seq<real>)
    requires ch >= 1 && i < |steps|
    requires before + Captured(AudioOf(steps[i..]), ch) == Captured(AudioOf(steps), ch)
    requires steps[i].Audio? ==> after == before + DownMix(ToUnit(steps[i].buffer), ch)
    requires steps[i].Tick? ==> after == before
    ensures after + Captured(AudioOf(steps[i + 1..]), ch) == Captured(AudioOf(steps), ch)
  {
    CapturedStep(steps, i, ch);
    if steps[i].Audio? {
      AppendAssoc(before, DownMix(ToUnit(steps[i].buffer), ch), Captured(AudioOf(steps[i + 1..]), ch));
    }
  }

  /** The emitted-frames half of the waiting loop's invariant survives one step. */
  lemma StepKeepsFrames(steps: seq<CaptureStep>, i: nat, ch: nat,
                        magnitudesOf: seq<real> -> seq<real>, ln: real -> real,
                        before: seq<real>, done: seq<seq<real>>, after: seq<real>, emitted: seq<seq<real>>)
    requires ch >= 1 && i < |steps|
    requires done + Frames(steps[i..], ch, before, magnitudesOf, ln) == Frames(steps, ch, [], magnitudesOf, ln)
    requires steps[i].Audio? ==> after == before + DownMix(ToUnit(steps[i].buffer), ch) && emitted == []
    requires steps[i].Tick? ==> after == before && emitted == TickFrames(before, magnitudesOf, ln)
    ensures (done + emitted) + Frames(steps[i + 1..], ch, after, magnitudesOf, ln) == Frames(steps, ch, [], magnitudesOf, ln)
  {
    FramesStep(steps, i, ch, before, magnitudesOf, ln);
    if steps[i].Audio? {
      assert done + emitted == done;
    } else {
      AppendAssoc(done, emitted, Frames(steps[i + 1..], ch, after, magnitudesOf, ln));
    }
  }

  /** The waiting loop of `record_while_with_spectrum`: the callback and the polling tick
      share one pair of buffers. */
  method CaptureSteps(steps: seq<CaptureStep>, ch: nat, magnitudesOf: seq<real> -> seq<real>, ln: real -> real)
    returns (captured: seq<real>, frames: seq<seq<real>>)
    requires ch >= 1
    ensures captured == Captured(AudioOf(steps), ch)
    ensures frames == Frames(steps, ch, [], magnitudesOf, ln)
  {
    frames := [];
    var buffers := new SpectrumBuffers();
    assert steps[0..] == steps;
    AppendEmpty(Captured(AudioOf(steps), ch));
    AppendEmpty(Frames(steps, ch, [], magnitudesOf, ln));
    for i := 0 to |steps|
      invariant buffers.Valid()
      invariant buffers.samples + Captured(AudioOf(steps[i..]), ch) == Captured(AudioOf(steps), ch)
      invariant frames + Frames(steps[i..], ch, buffers.samples, magnitudesOf, ln)
                == Frames(steps, ch, [], magnitudesOf, ln)
    {
      ghost var before := buffers.samples;
      ghost var done := frames;
      var emitted := buffers.Apply(steps[i], ch, magnitudesOf, ln);
      frames := frames + emitted;
      StepKeepsSamples(steps, i, ch, before, buffers.samples);
      StepKeepsFrames(steps, i, ch, magnitudesOf, ln, before, done, buffers.samples, emitted);
    }
    assert steps[|steps|..] == [];
    assert Captured(AudioOf(steps[|steps|..]), ch) == [];
    AppendEmpty(buffers.samples);
    AppendEmpty(frames);
    captured := buffers.samples;
  }

  /** `record_while_with_spectrum`: as `record_while`, but without a U16 arm, and with each
      polling tick turning a full window into a 20-band frame for the sink. */
  method RecordWhileWithSpectrum(config: RecorderConfig, streamOk: bool, steps: seq<CaptureStep>,
                                 magnitudesOf: seq<real> -> seq<real>, ln: real -> real)
    returns (r: Result<seq<real>, CaptureError>, frames: seq<seq<real>>)
    requires config.channels >= 1 && config.sampleRate >= 1
    ensures !SpectrumAccepts(config.format) ==> r == Err(UnsupportedFormat) && frames == []
    ensures SpectrumAccepts(config.format) && !streamOk ==> r == Err(StreamFailed) && frames == []
    ensures SpectrumAccepts(config.format) && streamOk ==>
              && r == Ok(Finalized(Captured(AudioOf(steps), config.channels), config.sampleRate))
              && frames == Frames(steps, config.channels, [], magnitudesOf, ln)
  {
    frames := [];
    if !SpectrumAccepts(config.format) {
      return Err(UnsupportedFormat), frames;
    }
    if !streamOk {
      return Err(StreamFailed), frames;
    }
    var captured;
    captured, frames := CaptureSteps(steps, config.channels, magnitudesOf, ln);
    var out := Finalize(captured, config.sampleRate);
    r := Ok(out);
  }
}
