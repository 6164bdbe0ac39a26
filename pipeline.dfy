/** The capture/transcribe/deliver cycle: a worker that waits for the hotkey, records
    while it is held, gates and transcribes the capture, and hands the text over a
    one-slot channel to an insertion loop that types it. */
module Pipeline {
  import opened Wrappers
  import opened Hotkey
  import opened Samples
  import Capture

  /** Captures shorter than 0.1 s at 16 kHz are dropped. */
  const MIN_SAMPLES: nat := 1600

  /** The channel between the worker and the insertion loop holds one item. */
  const CHANNEL_CAPACITY: nat := 1

  /** What the worker sends: the transcript and the GLM flag read at that moment. */
  datatype Item = Item(text: string, useGlm: bool)

  /** One pass of the worker: the samples the recorder returned, what the transcriber
      answers for them (consulted only when the capture is long enough), and the GLM
      flag at the end of the pass. */
  datatype Cycle = Cycle(samples: seq<real>, transcript: Result<string, string>, glmEnabled: bool)

  /** The gate: a cycle yields an item exactly when its capture reaches 1600 samples
      and the transcriber returns a non-empty text. */
  function CycleItem(c: Cycle): (r: Option<Item>)
    ensures r.Some? <==> |c.samples| >= MIN_SAMPLES && c.transcript.Ok? && c.transcript.value != ""
    ensures r.Some? ==> r.value.text == c.transcript.value && r.value.useGlm == c.glmEnabled
  {
    if |c.samples| < MIN_SAMPLES then None
    else
      match c.transcript
      case Err(_) => None
      case Ok(text) => if text == "" then None else Some(Item(text, c.glmEnabled))
  }

  /** The items a sequence of cycles sends, in cycle order. */
  function Enqueued(cycles: seq<Cycle>): (r: seq<Item>)
    ensures |r| <= |cycles|
    ensures forall k :: 0 <= k < |r| ==> r[k].text != ""
    decreases |cycles|
  {
    if cycles == [] then []
    else
      var last := cycles[|cycles| - 1];
      Enqueued(cycles[..|cycles| - 1]) + (if CycleItem(last).Some? then [CycleItem(last).value] else [])
  }

  /** Each new cycle sends at most its own item, after everything sent before. */
  lemma EnqueuedSnoc(cycles: seq<Cycle>, c: Cycle)
    ensures Enqueued(cycles + [c]) == Enqueued(cycles) + (if CycleItem(c).Some? then [CycleItem(c).value] else [])
  {
    assert (cycles + [c])[..|cycles|] == cycles;
  }

  /** The captures handed to the transcriber, in cycle order. */
  function Transcribed(cycles: seq<Cycle>): (r: seq<seq<real>>)
    ensures |r| <= |cycles|
    ensures forall k :: 0 <= k < |r| ==> |r[k]| >= MIN_SAMPLES
    decreases |cycles|
  {
    if cycles == [] then []
    else
      var last := cycles[|cycles| - 1];
      Transcribed(cycles[..|cycles| - 1]) + (if |last.samples| >= MIN_SAMPLES then [last.samples] else [])
  }

  lemma TranscribedSnoc(cycles: seq<Cycle>, c: Cycle)
    ensures Transcribed(cycles + [c]) == Transcribed(cycles) + (if |c.samples| >= MIN_SAMPLES then [c.samples] else [])
  {
    assert (cycles + [c])[..|cycles|] == cycles;
  }

  /** Short captures, the empty one of a failed recorder among them, never reach the
      transcriber and never send anything. */
  lemma {:induction false} ShortCyclesDoNothing(cycles: seq<Cycle>)
    requires forall k :: 0 <= k < |cycles| ==> |cycles[k].samples| < MIN_SAMPLES
    ensures Enqueued(cycles) == []
    ensures Transcribed(cycles) == []
    decreases |cycles|
  {
    if cycles != [] {
      var init := cycles[..|cycles| - 1];
      assert forall k :: 0 <= k < |init| ==> init[k] == cycles[k];
      ShortCyclesDoNothing(init);
    }
  }

  /** The text the insertion loop types for one item: the improved text when GLM is on,
      an API client exists and it answers Ok; the original text in every other case. */
  function FinalText(item: Item, apiConfigured: bool, improved: Result<string, string>): (r: string)
    ensures item.useGlm && apiConfigured && improved.Ok? ==> r == improved.value
    ensures !(item.useGlm && apiConfigured && improved.Ok?) ==> r == item.text
  {
    if item.useGlm then
      if apiConfigured then
        match improved
        case Ok(better) => better
        case Err(_) => item.text
      else item.text
    else item.text
  }

  /** The texts typed for the received items, one each, in order; `answers[k]` is what
      the API answered for item k. */
  function Delivered(items: seq<Item>, apiConfigured: bool, answers: seq<Result<string, string>>): (r: seq<string>)
    requires |items| == |answers|
    ensures |r| == |items|
    ensures forall k :: 0 <= k < |r| ==> r[k] == FinalText(items[k], apiConfigured, answers[k])
    decreases |items|
  {
    if items == [] then []
    else
      var n := |items| - 1;
      Delivered(items[..n], apiConfigured, answers[..n]) + [FinalText(items[n], apiConfigured, answers[n])]
  }

  lemma DeliveredSnoc(items: seq<Item>, apiConfigured: bool, answers: seq<Result<string, string>>,
                      item: Item, answer: Result<string, string>)
    requires |items| == |answers|
    ensures Delivered(items + [item], apiConfigured, answers + [answer])
            == Delivered(items, apiConfigured, answers) + [FinalText(item, apiConfigured, answer)]
  {
    assert (items + [item])[..|items|] == items;
    assert (answers + [answer])[..|answers|] == answers;
  }

  /** The k-th text typed is the final text of the k-th item the cycles sent. */
  lemma TypedFollowsCycles(cycles: seq<Cycle>, received: seq<Item>, rest: seq<Item>,
                           apiConfigured: bool, answers: seq<Result<string, string>>, k: nat)
    requires Enqueued(cycles) == received + rest
    requires |answers| == |received|
    requires k < |received|
    ensures k < |Enqueued(cycles)|
    ensures Delivered(received, apiConfigured, answers)[k] == FinalText(Enqueued(cycles)[k], apiConfigured, answers[k])
  {
    assert Enqueued(cycles)[k] == received[k];
  }

  /** Where the worker thread is in its loop. */
  datatype Phase =
    | Waiting                      // polling the hotkey
    | Recording(streamOpen: bool)  // inside record_while, polling for the release
    | Recorded(samples: seq<real>) // record_while has returned these samples
    | Sending(item: Item)          // blocked on the channel with this item

  /** The item the worker holds but has not yet put on the channel. */
  function Pending(p: Phase): seq<Item> {
    if p.Sending? then [p.item] else []
  }

  /** The shared state of the hook, the worker thread, the audio callback and the
      insertion thread. Each method is one atomic step of one of them; any interleaving
      of the steps keeps `Valid()`. */
  class Orchestrator {
    const hotkey: HotkeyState
    const recorder: Capture.RecorderConfig
    const apiConfigured: bool

    var session: Capture.SampleBuffer
    var phase: Phase
    var channel: seq<Item>
    var typed: seq<string>

    ghost var cycles: seq<Cycle>
    ghost var received: seq<Item>
    ghost var answers: seq<Result<string, string>>
    ghost var transcriberCalls: seq<seq<real>>

    /** The hand-over accounting: every item the cycles sent has been received, sits in
        the one-slot channel or is held by the worker, in that order; every received
        item was typed once. */
    ghost predicate QueueValid()
      reads this
    {
      && recorder.channels >= 1 && recorder.sampleRate >= 1
      && |channel| <= CHANNEL_CAPACITY
      && Enqueued(cycles) == received + channel + Pending(phase)
      && transcriberCalls == Transcribed(cycles)
      && |answers| == |received|
      && typed == Delivered(received, apiConfigured, answers)
    }

    /** The flags agree with the worker: `pressed ==> recording`, a capture in progress
        has the recording flag true, and a finished one has the pressed flag false. */
    ghost predicate FlagsValid()
      reads this, hotkey
    {
      && hotkey.Valid()
      && (phase.Recording? || phase.Recorded? ==> hotkey.isRecording)
      && (phase.Recorded? ==> !hotkey.isPressed)
    }

    ghost predicate Valid()
      reads this, hotkey
    {
      QueueValid() && FlagsValid()
    }

    /** Whether record_while gets a running stream: a supported format and a device
        that builds and plays it. */
    predicate StreamOpens(streamOk: bool) {
      streamOk && Capture.RecordWhileAccepts(recorder.format)
    }

    constructor (recorder: Capture.RecorderConfig, apiConfigured: bool)
      requires recorder.channels >= 1 && recorder.sampleRate >= 1
      ensures Valid()
      ensures fresh(hotkey) && !hotkey.isPressed && !hotkey.isRecording
      ensures this.recorder == recorder && this.apiConfigured == apiConfigured
      ensures phase == Waiting && channel == [] && typed == [] && session.samples == []
      ensures cycles == [] && received == [] && answers == [] && transcriberCalls == []
    {
      this.recorder := recorder;
      this.apiConfigured := apiConfigured;
      hotkey := new HotkeyState();
      session := new Capture.SampleBuffer();
      phase := Waiting;
      channel := [];
      typed := [];
      cycles := [];
      received := [];
      answers := [];
      transcriberCalls := [];
    }

    /** The hook thread handles one keyboard event. */
    method KeyEvent(e: Event) returns (consume: bool)
      requires QueueValid()
      modifies hotkey
      ensures QueueValid()
      ensures old(FlagsValid()) ==> FlagsValid()
      ensures Decision(hotkey.Current(), consume) == Decide(old(hotkey.Current()), e)
    {
      consume := hotkey.Hook(e);
    }

    /** One poll of the worker's wait, watching the recording flag; when it is true the
        worker starts record_while. If the stream does not open, the worker still waits
        for the release before it goes on. */
    method PollPress(streamOk: bool) returns (started: bool)
      requires QueueValid() && phase.Waiting?
      modifies this
      ensures QueueValid()
      ensures old(FlagsValid()) ==> FlagsValid()
      ensures started == hotkey.isRecording
      ensures !started ==> phase == Waiting
      ensures started ==> phase == Recording(StreamOpens(streamOk)) && fresh(session) && session.samples == []
      ensures !started ==> session == old(session)
      ensures channel == old(channel) && typed == old(typed)
      ensures cycles == old(cycles) && transcriberCalls == old(transcriberCalls) && received == old(received) && answers == old(answers)
    {
      started := hotkey.isRecording;
      if started {
        session := new Capture.SampleBuffer();
        phase := Recording(StreamOpens(streamOk));
      }
    }

    /** One poll of the worker's wait as the loop at main.rs:82-84 is written: watching
        the pressed flag. A recorder that fails to open returns at once with its error,
        which becomes an empty capture. */
    method PollPressAsWritten(streamOk: bool) returns (started: bool)
      requires QueueValid() && phase.Waiting?
      modifies this
      ensures QueueValid()
      ensures started == hotkey.isPressed
      ensures !started ==> phase == Waiting
      ensures started && StreamOpens(streamOk) ==> phase == Recording(true) && fresh(session) && session.samples == []
      ensures started && !StreamOpens(streamOk) ==> phase == Recorded([])
      ensures old(FlagsValid()) && !(started && !StreamOpens(streamOk)) ==> FlagsValid()
      ensures !(started && StreamOpens(streamOk)) ==> session == old(session)
      ensures channel == old(channel) && typed == old(typed)
      ensures cycles == old(cycles) && transcriberCalls == old(transcriberCalls) && received == old(received) && answers == old(answers)
    {
      started := hotkey.isPressed;
      if started {
        if StreamOpens(streamOk) {
          session := new Capture.SampleBuffer();
          phase := Recording(true);
        } else {
          phase := Recorded([]);
        }
      }
    }

    /** The audio callback delivers one buffer to the running stream. */
    method OnAudio(data: RawBuffer)
      requires QueueValid() && phase == Recording(true)
      modifies session
      ensures QueueValid()
      ensures old(FlagsValid()) ==> FlagsValid()
      ensures session.samples == old(session.samples) + DownMix(ToUnit(data), recorder.channels)
    {
      session.OnData(data, recorder.channels);
    }

    /** One poll of record_while's wait: capture goes on exactly while the pressed flag
        is true; then the samples are resampled to 16 kHz (nothing when no stream opened). */
    method PollRelease() returns (stopped: bool)
      requires QueueValid() && phase.Recording?
      modifies this
      ensures QueueValid()
      ensures old(FlagsValid()) ==> FlagsValid()
      ensures stopped == !hotkey.isPressed
      ensures !stopped ==> phase == old(phase)
      ensures stopped ==> phase == Recorded(if old(phase).streamOpen
                                            then Capture.Finalized(session.samples, recorder.sampleRate)
                                            else [])
      ensures channel == old(channel) && typed == old(typed) && session == old(session)
      ensures cycles == old(cycles) && transcriberCalls == old(transcriberCalls) && received == old(received) && answers == old(answers)
    {
      stopped := !hotkey.isPressed;
      if stopped {
        if phase.streamOpen {
          var out := Capture.Finalize(session.samples, recorder.sampleRate);
          phase := Recorded(out);
        } else {
          phase := Recorded([]);
        }
      }
    }

    /** The rest of the worker's pass: clear the recording flag, drop a short capture,
        transcribe, drop an error or an empty text, and otherwise hold the item for the
        channel with the GLM flag read now. */
    method CompleteCycle(transcript: Result<string, string>, glmEnabled: bool) returns (item: Option<Item>)
      requires QueueValid() && phase.Recorded?
      modifies this, hotkey
      ensures QueueValid()
      ensures old(FlagsValid()) ==> FlagsValid()
      ensures !hotkey.isRecording && hotkey.isPressed == old(hotkey.isPressed)
      ensures cycles == old(cycles) + [Cycle(old(phase).samples, transcript, glmEnabled)]
      ensures item == CycleItem(Cycle(old(phase).samples, transcript, glmEnabled))
      ensures phase == (if item.Some? then Sending(item.value) else Waiting)
      ensures transcriberCalls
              == old(transcriberCalls) + (if |old(phase).samples| >= MIN_SAMPLES then [old(phase).samples] else [])
      ensures channel == old(channel) && typed == old(typed)
      ensures session == old(session) && received == old(received) && answers == old(answers)
    {
      hotkey.ClearRecording();
      var samples := phase.samples;
      ghost var c := Cycle(samples, transcript, glmEnabled);
      EnqueuedSnoc(cycles, c);
      TranscribedSnoc(cycles, c);
      cycles := cycles + [c];
      if |samples| < MIN_SAMPLES {
        phase := Waiting;
        return None;
      }
      transcriberCalls := transcriberCalls + [samples];
      match transcript
      case Err(_) =>
        phase := Waiting;
        item := None;
      case Ok(text) =>
        if text == "" {
          phase := Waiting;
          item := None;
        } else {
          item := Some(Item(text, glmEnabled));
          phase := Sending(item.value);
        }
    }

    /** The worker's blocking send: it hands the item over when the slot is free and
        otherwise keeps waiting. */
    method Send() returns (handedOver: bool)
      requires QueueValid() && phase.Sending?
      modifies this
      ensures QueueValid()
      ensures old(FlagsValid()) ==> FlagsValid()
      ensures handedOver == (|old(channel)| < CHANNEL_CAPACITY)
      ensures handedOver ==> channel == old(channel) + [old(phase).item] && phase == Waiting
      ensures !handedOver ==> channel == old(channel) && phase == old(phase)
      ensures typed == old(typed) && session == old(session)
      ensures cycles == old(cycles) && transcriberCalls == old(transcriberCalls) && received == old(received) && answers == old(answers)
    {
      handedOver := |channel| < CHANNEL_CAPACITY;
      if handedOver {
        channel := channel + [phase.item];
        phase := Waiting;
      }
    }

    /** One turn of the insertion loop: take the oldest item, if any, choose its final
        text with the API's answer, and type it once. */
    method Deliver(improved: Result<string, string>) returns (text: Option<string>)
      requires QueueValid()
      modifies this
      ensures QueueValid()
      ensures old(FlagsValid()) ==> FlagsValid()
      ensures old(channel) == [] ==>
                text == None && channel == old(channel) && typed == old(typed) && received == old(received) && answers == old(answers)
      ensures old(channel) != [] ==>
                && text == Some(FinalText(old(channel)[0], apiConfigured, improved))
                && channel == old(channel)[1..]
                && typed == old(typed) + [text.value]
                && received == old(received) + [old(channel)[0]]
                && answers == old(answers) + [improved]
      ensures phase == old(phase) && session == old(session) && cycles == old(cycles) && transcriberCalls == old(transcriberCalls)
    {
      if channel == [] {
        return None;
      }
      var item := channel[0];
      var finalText := FinalText(item, apiConfigured, improved);
      DeliveredSnoc(received, apiConfigured, answers, item, improved);
      assert received + channel == (received + [item]) + channel[1..];
      received := received + [item];
      answers := answers + [improved];
      channel := channel[1..];
      typed := typed + [finalText];
      text := Some(finalText);
    }
  }

  /** A Ctrl+Win keydown and a Win keyup. */
  const ChordDown: Event := Event(0, WM_KEYDOWN, VK_LWIN, true)
  const WinUp: Event := Event(0, WM_KEYUP, VK_LWIN, false)

  /** The chord is the recording trigger and the keyup its release. */
  lemma ScenarioEvents()
    ensures IsChordDown(ChordDown) && !IsWinUp(ChordDown)
    ensures IsWinUp(WinUp) && !IsChordDown(WinUp)
  {
    assert KindOf(ChordDown.wParam) == Down;
    assert KindOf(WinUp.wParam) == Up;
    assert IsWinKey(VK_LWIN);
  }

  const Microphone: Capture.RecorderConfig := Capture.RecorderConfig(Capture.F32, 16000, 1)

  /** A press and release that both fall between two polls of the as-written wait (a
      quick tap, or any press made while the previous capture is being transcribed)
      leave the flags at (pressed = false, recording = true): the worker never starts,
      whatever keys come later. */
  method TapBetweenPollsAsWritten(later: seq<Event>) returns (started: bool)
    ensures !started
  {
    ScenarioEvents();
    var o := new Orchestrator(Microphone, false);
    var consumed := o.KeyEvent(ChordDown);
    consumed := o.KeyEvent(WinUp);
    started := o.PollPressAsWritten(true);
    var again := StaysIdleAsWritten(o, later);
    started := started || again;
  }

  /** From (pressed = false, recording = true) the as-written wait never ends: no keys
      sent afterwards get the worker past its poll. */
  method StaysIdleAsWritten(o: Orchestrator, later: seq<Event>) returns (started: bool)
    requires o.QueueValid() && o.phase == Waiting
    requires o.hotkey.Current() == Flags(false, true)
    modifies o, o.hotkey
    ensures !started
  {
    started := false;
    for k := 0 to |later|
      invariant o.QueueValid() && o.phase == Waiting
      invariant o.hotkey.Current() == Flags(false, true)
      invariant !started
    {
      ReleasedWhileRecordingIsStuck([Key(later[k])]);
      var consumed := o.KeyEvent(later[k]);
      started := o.PollPressAsWritten(true);
    }
  }

  /** With the wait watching the recording flag, the same tap starts a capture that
      ends at its first poll; the cycle clears the flags and the next chord is taken. */
  method TapBetweenPolls() returns (started: bool, stopped: bool, rearmed: bool)
    ensures started && stopped && rearmed
  {
    ScenarioEvents();
    var o := new Orchestrator(Microphone, false);
    var consumed := o.KeyEvent(ChordDown);
    consumed := o.KeyEvent(WinUp);
    started := o.PollPress(true);
    stopped := o.PollRelease();
    var item := o.CompleteCycle(Err("not consulted"), false);
    rearmed := o.KeyEvent(ChordDown);
  }

  /** A delivery by the insertion thread in the middle of a capture leaves the capture
      alone: the session still holds exactly the callback's mono samples. */
  method DeliverDuringCapture(buffer: RawBuffer, improved: Result<string, string>) returns (samples: seq<real>)
    ensures samples == DownMix(ToUnit(buffer), Microphone.channels)
  {
    ScenarioEvents();
    var o := new Orchestrator(Microphone, false);
    var consumed := o.KeyEvent(ChordDown);
    var started := o.PollPress(true);
    o.OnAudio(buffer);
    var text := o.Deliver(improved);
    samples := o.session.samples;
  }

  /** A pass whose capture is shorter than 1600 samples never reaches the transcriber: from
      startup, a full press-and-release pass with no audio leaves the transcriber's call
      record empty and sends nothing. */
  method ShortPassSkipsTranscriber() returns (ghost calls: nat, sent: bool)
    ensures calls == 0 && !sent
  {
    ScenarioEvents();
    var o := new Orchestrator(Microphone, false);
    var consumed := o.KeyEvent(ChordDown);
    var started := o.PollPress(true);
    consumed := o.KeyEvent(WinUp);
    var stopped := o.PollRelease();
    var item := o.CompleteCycle(Ok("unused"), false);
    calls := |o.transcriberCalls|;
    sent := item.Some?;
  }

  /** As written, a recorder that fails to open makes the worker clear the recording
      flag while the key is still held: `pressed ==> recording` breaks, the Win keyup is
      then ignored, and the worker starts again with no key down. */
  method RecorderErrorAsWritten() returns (pressed: bool, recording: bool, restarted: bool)
    ensures pressed && !recording && restarted
  {
    ScenarioEvents();
    var o := new Orchestrator(Microphone, false);
    var consumed := o.KeyEvent(ChordDown);
    var started := o.PollPressAsWritten(false);
    var item := o.CompleteCycle(Err("not consulted"), false);
    consumed := o.KeyEvent(WinUp);
    restarted := o.PollPressAsWritten(false);
    pressed := o.hotkey.isPressed;
    recording := o.hotkey.isRecording;
  }

  /** Waiting for the release before clearing keeps the invariant through the same
      failure: the keyup is seen, both flags end false and the worker stays idle. */
  method RecorderError() returns (pressed: bool, recording: bool, restarted: bool)
    ensures !pressed && !recording && !restarted
  {
    ScenarioEvents();
    var o := new Orchestrator(Microphone, false);
    var consumed := o.KeyEvent(ChordDown);
    var started := o.PollPress(false);
    consumed := o.KeyEvent(WinUp);
    var stopped := o.PollRelease();
    var item := o.CompleteCycle(Err("not consulted"), false);
    restarted := o.PollPress(false);
    pressed := o.hotkey.isPressed;
    recording := o.hotkey.isRecording;
  }
}
