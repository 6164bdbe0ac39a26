# flov push-to-talk core, modelled in Dafny

flov is a Windows push-to-talk dictation tool. Holding Ctrl+Win records the microphone.
Releasing the keys transcribes the capture with Whisper and types the text into the
focused window, optionally after an LLM ("GLM") has polished it. This project models
the three parts of its Rust backend that carry the logic:

- **The hotkey guard** (`hotkey.dfy`, module `Hotkey`). The low-level keyboard hook is a
  state machine over two shared flags, `is_pressed` and `is_recording`.
  - `Decide` is the hook's decision for one event. It gives the new flags and whether the
    event is swallowed.
  - `HotkeyState` is the class holding the flags, with the hook and the orchestrator's
    clear as methods.
  - `Run` applies any interleaving of hook events and clears. The lemmas about it prove
    that `pressed ==> recording` survives every interleaving in which the clear happens
    only after the release has been seen.
- **The capture/transcribe/deliver cycle** (`pipeline.dfy`, module `Pipeline`).
  - `Orchestrator` is a class whose methods are the atomic steps of the four actors: the
    hook thread, the worker thread's polls and passes, the audio callback, and the
    insertion thread.
  - Its invariant `Valid()` is the conjunction of `QueueValid()` and `FlagsValid()`.
    `QueueValid()` covers the one-slot channel and the bookkeeping that the worker's
    skipped and sent cycles match the typed texts; every step keeps it. `FlagsValid()`
    is the flag invariant. With the corrected wait `PollPress`, every step keeps it too,
    so `Valid()` holds after any interleaving. With the as-written wait
    `PollPressAsWritten`, `FlagsValid()` is kept only when the stream opens, and
    `RecorderErrorAsWritten` exhibits a run that breaks it.
  - The bookkeeping is stated with specification functions over a sequence of `Cycle`s:
    `CycleItem`, `Enqueued`, `Transcribed`, `FinalText` and `Delivered`.
- **The sample transforms** (`samples.dfy`, `resampler.dfy`, `spectrum.dfy`,
  `capture.dfy`). This covers:
  - the i16/u16-to-unit conversion and the per-chunk mono down-mix of the stream
    callbacks;
  - the linear-interpolation resampler, in exact rational arithmetic;
  - the sliding 2048-sample analysis window;
  - the 20-band max grouping and the normalisation of the spectrum;
  - the format and resampling gates of `record_while` and `record_while_with_spectrum`.

  A capture is the sequence of callback buffers the driver delivered. For the spectrum
  variant, polling ticks are interleaved with those buffers.

Sample values are exact `real`s. The FFT magnitudes and `ln` are function parameters.
The transcriber's result, the GLM flag, whether an API client exists and the API's
reply are inputs to the steps that consult them. `wrappers.dfy` holds `Option` and
`Result`; `arith.dfy` holds a few nonlinear arithmetic facts that the proofs use.

Two defects of the source showed up while stating the orchestrator's invariant (see
"## Findings"). The orchestrator's `PollPress` models the corrected wait, and the
as-written wait is `PollPressAsWritten`. Each finding has a scenario method for both
versions.

## Model

| member | source | states |
|---|---|---|
| `Samples.I16ToUnit` | src/audio.rs:70 | An i16 sample maps to s/32768, which lies in [-1, 1); multiplying back by 32768 recovers s. |
| `Samples.U16ToUnit` | src/audio.rs:85 | A u16 sample maps to (s-32768)/32768, which lies in [-1, 1); the mapping is invertible. |
| `Samples.ToUnit` | src/audio.rs:51-87 | The per-sample conversion keeps the buffer's length. |
| `Samples.ToUnitAt` | src/audio.rs:51-87 | Element k of a converted buffer is the conversion of sample k; integer formats land in [-1, 1) and float samples pass through. |
| `Samples.DownMix` | src/audio.rs:54-57 | The defining specification of one callback's mono output (no `ensures` of its own): one sample per chunk of `channels` samples, the chunk's sum over the channel count. Its properties are the `DownMix*` lemmas. |
| `Samples.DownMixLength` | src/audio.rs:54-57 | One callback appends ceil(len / channels) mono samples. |
| `Samples.DownMixBounds` | src/audio.rs:54-57 | The mono count m satisfies (m-1)·channels < len ≤ m·channels. |
| `Samples.DownMixAt` | src/audio.rs:54-57 | Mono sample k is the sum of chunk k divided by the channel count (also for a short last chunk), so samples come out in chunk order. |
| `Samples.DownMixInRange` | src/audio.rs:69-72 | Down-mixing samples in [-1, 1) yields samples in [-1, 1). |
| `Resampler.OutputLength` | src/audio.rs:259-260 | The defining specification of `new_len` (no `ensures` of its own): len over the ratio from/to, truncated, i.e. floor(len·to/from) in exact arithmetic. |
| `Resampler.SourceIndex` | src/audio.rs:264-265 | The defining specification of `idx` (no `ensures` of its own): the source position i·from/to, truncated to floor(i·from/to). |
| `Resampler.Fraction` | src/audio.rs:264-266 | The interpolation weight lies in [0, 1). |
| `Resampler.SourcePosition` | src/audio.rs:264-266 | The source index plus the weight is exactly i·from/to. |
| `Resampler.SampleAt` | src/audio.rs:264-274 | The defining specification of output sample i (no `ensures` of its own): interpolate between the two neighbours, take the last sample alone, or fill with zero. |
| `Resampler.Resampled` | src/audio.rs:258-280 | The defining specification of `resample`'s result (no `ensures` of its own): floor(len·to/from) samples, sample i being `SampleAt` i. |
| `Resampler.Resample` | src/audio.rs:258-280 | The loop returns floor(len·to/from) samples, each the interpolation (or copy, or zero fill) for its index. |
| `Resampler.SourceIndexInRange` | src/audio.rs:263-274 | For every output index the source index is below len, so the zero-fill branch is unreachable. |
| `Resampler.SampleBetweenNeighbours` | src/audio.rs:264-271 | Each output sample lies between the min and max of the two source samples it interpolates, and equals the source sample at the last index. |
| `Resampler.ResampleSameRate` | src/audio.rs:258-280 | Resampling from a rate to itself returns the input unchanged. |
| `Resampler.ResampleHalfRateLength` | src/audio.rs:259-260 | Halving the rate gives floor(len/2) samples, for every length. |
| `Resampler.ResampleHalfRate` | src/audio.rs:258-280 | Halving the rate gives floor(len/2) samples, output i being source sample 2i. |
| `Spectrum.BandIndex` | src/audio.rs:223-225 | Every bin's band index, after the saturating cast and the cap, is below 20. |
| `Spectrum.BandIndexMonotone` | src/audio.rs:223-225 | With a monotone logarithm, a higher bin never maps to a lower band. |
| `Spectrum.Peak` | src/audio.rs:220-227 | A band's value is non-negative, at least every magnitude mapped to it, and either 0 or one of those magnitudes. |
| `Spectrum.PeakOfEmptyBand` | src/audio.rs:220-227 | A band that no bin maps to stays 0. |
| `Spectrum.Bands` | src/audio.rs:220-227 | Grouping yields exactly 20 non-negative bands. |
| `Spectrum.GroupBands` | src/audio.rs:220-227 | The in-place array loop over the bins computes exactly the 20 band maxima. |
| `Spectrum.Largest` | src/audio.rs:230 | The fold of max from 0 is non-negative, bounds every band, and is 0 or some band. |
| `Spectrum.Divisor` | src/audio.rs:230 | The divisor is at least 0.001 and at least every band, and it is 0.001 or one of the bands: exactly max(loudest band, 0.001). |
| `Spectrum.Normalize` | src/audio.rs:231-233 | Normalising (band over divisor, tripled, capped) keeps the band count; every value is at most 1, and non-negative bands give non-negative values. |
| `Spectrum.FullHeightIff` | src/audio.rs:231-233 | A band is drawn at 1 iff it is at least a third of the divisor; below that it is drawn at three times its share of the divisor. |
| `Spectrum.LoudestBandIsFull` | src/audio.rs:230-233 | A largest band of at least 0.001 is drawn at exactly 1. |
| `Spectrum.NormalizeMonotone` | src/audio.rs:231-233 | Normalising keeps the order of the bands. |
| `Capture.RecordWhileAccepts` | src/audio.rs:46-93 | The defining specification of `record_while`'s format arms (no `ensures` of its own): F32, I16 and U16 build a stream; any other format is refused. |
| `Capture.SpectrumAccepts` | src/audio.rs:147-189 | The defining specification of `record_while_with_spectrum`'s format arms (no `ensures` of its own): only F32 and I16 build a stream; U16 and the rest are refused. |
| `Capture.Finalized` | src/audio.rs:113-119 | The defining specification of the resampling gate (no `ensures` of its own): the samples as they are at 16 kHz, otherwise resampled to 16 kHz. |
| `Capture.FinalizedIsResampled` | src/audio.rs:113-119 | Skipping the resampler at 16 kHz changes nothing: the result is always the 16 kHz resampling, of length len·16000/rate. |
| `Capture.Finalize` | src/audio.rs:113-119 | The session's tail returns the finalised samples, and the captured samples themselves at a native 16 kHz. |
| `Capture.Captured` | src/audio.rs:51-57 | The defining specification of a session's samples (no `ensures` of its own): the down-mixes of the callback buffers, concatenated in delivery order. |
| `Capture.CapturedConcat` | src/audio.rs:51-57 | The sample vector is append-only: later callbacks extend what earlier ones produced. |
| `Capture.CapturedAt` | src/audio.rs:51-57 | The buffer at position k contributes its mono samples before all later buffers. |
| `Capture.SampleBuffer.constructor` | src/audio.rs:38 | A session starts with no samples. |
| `Capture.SampleBuffer.OnData` | src/audio.rs:51-57 | One callback appends exactly the down-mix of its converted buffer. |
| `Capture.RecordWhile` | src/audio.rs:34-120 | Unsupported format yields UnsupportedFormat. A stream that does not open yields StreamFailed. Otherwise the result is the 16 kHz finalisation of all callback buffers' mono samples, in order. |
| `Capture.Window` | src/audio.rs:155-163 | The analysis window holds min(n, 2048) samples. |
| `Capture.WindowPush` | src/audio.rs:158-162 | Appending then dropping the oldest sample when over 2048 is exactly the window of the extended capture. |
| `Capture.SpectrumBuffers.constructor` | src/audio.rs:135-141 | Both vectors start empty and the window invariant holds. |
| `Capture.SpectrumBuffers.Push` | src/audio.rs:156-162 | One push appends to the samples and keeps the window the last ≤ 2048 of them. |
| `Capture.SpectrumBuffers.OnData` | src/audio.rs:152-164 | A callback appends its down-mix and keeps the window invariant. |
| `Capture.SpectrumBuffers.Poll` | src/audio.rs:200-235 | A tick yields one frame from a full window, and nothing from a shorter one. |
| `Capture.SpectrumBuffers.Apply` | src/audio.rs:152-237 | One step either mixes in a buffer and emits nothing, or leaves the samples alone and emits the tick's frame. |
| `Capture.FrameOf` | src/audio.rs:202-233 | The defining specification of one frame (no `ensures` of its own): the window's magnitudes (a parameter standing for Hann window and FFT), grouped into 20 bands and normalised. Its range is stated in `TickFramesAreUnit`. |
| `Capture.TickFrames` | src/audio.rs:200-236 | The defining specification of one polling tick (no `ensures` of its own): a frame of the current window when it holds 2048 samples, and none otherwise. |
| `Capture.Frames` | src/audio.rs:199-238 | A step sequence emits at most one frame per step. |
| `Capture.TickFramesAreUnit` | src/audio.rs:201-235 | A tick emits at most one frame, of 20 values in [0, 1]. |
| `Capture.FramesAreUnit` | src/audio.rs:199-238 | Every frame sent to the spectrum sink has 20 values in [0, 1]. |
| `Capture.FramesNeedFullWindow` | src/audio.rs:201 | No frame is emitted before 2048 samples have been captured. |
| `Capture.CaptureSteps` | src/audio.rs:199-238 | The shared-buffer loop captures every buffer's mono samples in order and emits exactly the specified frames. |
| `Capture.RecordWhileWithSpectrum` | src/audio.rs:127-254 | As for record_while but U16 is also UnsupportedFormat; on success it also emits exactly the specified frames; on error it emits none. |
| `Hotkey.KindOf` | src/hotkey.rs:35-45 | The defining specification of the message kind (no `ensures` of its own): the message word cut to 32 bits, then keydown, keyup or other. |
| `Hotkey.IsWinKey` | src/hotkey.rs:29-32 | The defining specification of the Win-key test (no `ensures` of its own): the key code cut to 16 bits is one of the two Win keys. |
| `Hotkey.Decide` | src/hotkey.rs:26-58 | A negative code passes untouched. Only a Ctrl+Win keydown while not recording is swallowed, and it sets both flags. The same chord while recording changes nothing. A Win keyup while recording drops only the pressed flag and passes. Every other event changes nothing and passes: a Win keydown without Ctrl, a Win keyup while idle, any other key or message kind. The recording flag is never cleared, and `pressed ==> recording` is kept. |
| `Hotkey.Run` | src/hotkey.rs:26-58 | The defining specification of an interleaving (no `ensures` of its own): hook events update the flags via `Decide`, and a clear lowers only the recording flag, as src/main.rs:99 does. |
| `Hotkey.HotkeyState.constructor` | src/hotkey.rs:16-21 | Both flags start false. |
| `Hotkey.HotkeyState.Hook` | src/hotkey.rs:26-58 | The branch-by-branch hook yields exactly `Decide`'s flags and verdict and keeps the invariant. |
| `Hotkey.HotkeyState.ClearRecording` | src/main.rs:99 | Clearing lowers the recording flag only; it keeps the invariant when the pressed flag was false. |
| `Hotkey.InterleavingKeepsGuard` | src/hotkey.rs:36-51 | Any interleaving of hook events and clears, where each clear comes while pressed is false, keeps `pressed ==> recording`. |
| `Hotkey.InitialInterleavingGuarded` | src/hotkey.rs:16-21 | From the initial flags, every such interleaving ends in a guarded state. |
| `Hotkey.KeysNeverClearRecording` | src/hotkey.rs:36-51 | Hook events alone never lower the recording flag. |
| `Hotkey.ReleasedWhileRecordingIsStuck` | src/hotkey.rs:36-51 | From (pressed = false, recording = true) no sequence of hook events changes either flag. |
| `Pipeline.CycleItem` | src/main.rs:101-125 | A pass sends an item iff it captured ≥ 1600 samples and got a non-empty transcript; the item carries that text and the GLM flag of that moment. |
| `Pipeline.Enqueued` | src/main.rs:80-126 | The passes send at most one item each, every one with non-empty text. |
| `Pipeline.EnqueuedSnoc` | src/main.rs:123-125 | A new pass sends only its own item, after everything sent before. |
| `Pipeline.Transcribed` | src/main.rs:101-108 | Only captures of at least 1600 samples reach the transcriber, at most one per pass. |
| `Pipeline.TranscribedSnoc` | src/main.rs:101-108 | A new pass hands its capture to the transcriber iff it is long enough. |
| `Pipeline.ShortCyclesDoNothing` | src/main.rs:91-104 | Passes with fewer than 1600 samples, including the empty capture of a failed recorder, neither transcribe nor send. |
| `Pipeline.FinalText` | src/main.rs:135-154 | The typed text is the improved one iff GLM is on, an API client exists and it answers Ok; otherwise it is the original text. |
| `Pipeline.Delivered` | src/main.rs:134-157 | One typed text per received item, in order, each its final text. |
| `Pipeline.DeliveredSnoc` | src/main.rs:134-157 | Receiving one more item types exactly its final text after the earlier ones. |
| `Pipeline.TypedFollowsCycles` | src/main.rs:69 | Through the FIFO, the k-th typed text is the final text of the k-th item the passes sent. |
| `Pipeline.Orchestrator.constructor` | src/main.rs:60-69 | Both flags false, worker waiting, session, channel and typed texts empty; the pass history, the received items, the API answers and the transcriber's call record all start empty; invariant established. |
| `Pipeline.Orchestrator.KeyEvent` | src/hotkey.rs:26-58 | A hook event updates the flags as `Decide` says and keeps the invariant. |
| `Pipeline.Orchestrator.PollPress` | src/main.rs:82-84 | Corrected wait: the worker starts exactly when the recording flag is true, with an open stream or a failed one, and a fresh session only then. The queue, typed texts and history are untouched. |
| `Pipeline.Orchestrator.PollPressAsWritten` | src/main.rs:82-93 | As-written wait: the worker starts exactly when the pressed flag is true. A failed recorder yields an empty capture at once. The session is replaced only when a stream opens, and the queue, typed texts and history are untouched. |
| `Pipeline.Orchestrator.OnAudio` | src/audio.rs:51-57 | A callback appends its down-mix to the session. |
| `Pipeline.Orchestrator.PollRelease` | src/audio.rs:99-119 | Capture continues exactly while the pressed flag is true; then the session is finalised (empty if no stream opened). The session, queue, typed texts and history are untouched. |
| `Pipeline.Orchestrator.CompleteCycle` | src/main.rs:99-123 | The recording flag is cleared first in every outcome. The pass is recorded. The transcriber is consulted iff the capture has ≥ 1600 samples. The worker holds the gated item or goes back to waiting. Session, channel, typed texts and received items are untouched. |
| `Pipeline.Orchestrator.Send` | src/main.rs:124-125 | The held item enters the channel iff its one slot is free; otherwise the worker stays blocked. Session, typed texts and history are untouched. |
| `Pipeline.Orchestrator.Deliver` | src/main.rs:134-157 | The oldest item leaves the channel, is recorded as received with its API answer, and its final text is typed once; an empty channel changes nothing. The worker's phase, session and history are untouched in both cases. |
| `Pipeline.ScenarioEvents` | src/hotkey.rs:32-47 | The Ctrl+LWin keydown is the trigger chord and the LWin keyup its release. |
| `Pipeline.TapBetweenPollsAsWritten` | src/main.rs:82-84 | After a press and release between two polls, the as-written worker never starts, whatever keys follow. |
| `Pipeline.StaysIdleAsWritten` | src/main.rs:82-84 | From (pressed = false, recording = true) no later keys get the as-written worker past its wait. |
| `Pipeline.TapBetweenPolls` | src/main.rs:82-99 | With the corrected wait the same tap starts a capture, which stops at once; the next chord is taken. |
| `Pipeline.DeliverDuringCapture` | src/main.rs:131-160 | A delivery by the insertion thread in the middle of a capture leaves the capture alone: the session still holds exactly the callback's mono samples. |
| `Pipeline.ShortPassSkipsTranscriber` | src/main.rs:101-104 | From startup, a press-and-release pass with no audio (fewer than 1600 samples) makes no transcriber call and sends nothing. |
| `Pipeline.RecorderErrorAsWritten` | src/main.rs:91-99 | As written, a failed recorder leaves pressed true and recording false; the keyup is lost and the worker restarts. |
| `Pipeline.RecorderError` | src/main.rs:91-99 | Waiting for the release before clearing: both flags end false and the worker stays idle. |

## Left out

- Device and stream setup (`AudioRecorder::new`, `build_input_stream`, `play`) is reduced to a format and a boolean "the stream opened". The polling sleeps, the mutexes and `Arc::try_unwrap` are left out. The failure of `try_unwrap` is not modelled: the callback's clone is gone once the stream is dropped.
- The FFT, the Hann window, `cos`, `ln` and the magnitude computation are function parameters. f32/f64 rounding is not modelled: samples and weights are exact reals.
- Spectrum.BandIndex: the cast is modelled for finite values only; the float cast's NaN and infinity cases are not represented.
- Threads, the tokio runtime and atomic memory ordering become interleaved atomic steps.
  - `CompleteCycle` takes the clear, the gate and the transcription as one step.
  - `Deliver` takes the receive, the API call and the typing as one step.
  - Finer interleavings inside these steps are not modelled.
- `GetAsyncKeyState` becomes the event's `ctrlHeld` flag. `CallNextHookEx` becomes "not consumed". `SetWindowsHookExW` is not modelled.
- The `HOOK_STATE` empty branch of the hook is not modelled: `install_hook` sets the state before the hook is installed.
- src/transcribe.rs, src/api.rs, src/input.rs, src/overlay.rs, src/tray.rs, src/config.rs and ui/ are not part of this model. Their results enter as inputs: the transcript, the API's reply and the GLM flag. The typed texts are the `typed` sequence. The overlay's show/hide and all logging are omitted.
- Pipeline.Orchestrator.Send: the ignored error of `blocking_send` is not modelled, because the insertion loop never closes the receiver.
- The main message loop and tray events (src/main.rs:162-187) are not modelled.
- Resampler.Resample: requires both rates ≥ 1, so a zero device rate is not modelled. With `from_rate` 0 the ratio at src/audio.rs:259 is 0.0. For a non-empty capture `new_len` at src/audio.rs:260 is then +inf, which the cast saturates to `usize::MAX`, and `Vec::with_capacity` panics. For an empty capture it is NaN, which casts to 0.
- Samples.DownMix: requires channels ≥ 1. `chunks(0)` panics in the source, and a device reports at least one channel. The same precondition is on `Capture.SampleBuffer.OnData`, `Capture.RecordWhile`, `Capture.RecordWhileWithSpectrum` and `Pipeline.Orchestrator.constructor`.
- Capture.RecordWhile: the callback buffers are given as a sequence delivered before the release; buffers that arrive after the condition turns false but before the stream is dropped are not distinguished.
- `record_while_with_spectrum` is modelled, but the orchestrator (like src/main.rs) uses `record_while`.

## Findings

| source | as written | input that shows it | evidently intended | confidence | as-written member | corrected member |
|---|---|---|---|---|---|---|
| src/main.rs:82-84 | The worker waits until it sees `is_pressed` true. | Ctrl+Win down then Win up, both between two polls: a quick tap, or any press made while the previous capture is being transcribed. The flags become (pressed = false, recording = true). The hook then ignores every chord because recording is true, and the worker waits forever. | Each accepted chord starts a capture. Waiting on `is_recording`, which only the hook's trigger raises, achieves this. | not executed | `Pipeline.TapBetweenPollsAsWritten` | `Pipeline.TapBetweenPolls` |
| src/main.rs:91-99 | When `record_while` fails before its wait (unsupported format, stream build or play error), the worker clears `is_recording` at once while the key is still held. | Ctrl+Win down with a stream that fails to open. The flags become (pressed = true, recording = false), which breaks `pressed ==> recording`. The Win keyup is then ignored, so pressed stays true, and the worker restarts with no key held. | The recording flag is cleared only after the release has been seen, which keeps `pressed ==> recording`. | not executed | `Pipeline.RecorderErrorAsWritten` | `Pipeline.RecorderError` |
