/** The Ctrl+Win keyboard hook: a two-flag state machine that starts a recording on the
    chord and ends it when a Win key is released. */
module Hotkey {

  const VK_LWIN: nat := 0x5B
  const VK_RWIN: nat := 0x5C

  const WM_KEYDOWN: nat := 0x0100
  const WM_KEYUP: nat := 0x0101
  const WM_SYSKEYDOWN: nat := 0x0104
  const WM_SYSKEYUP: nat := 0x0105

  /** What the hook receives: the hook code, the message word, the virtual-key code of
      the key, and whether Ctrl was down when the event arrived. */
  datatype Event = Event(code: int, wParam: nat, vkCode: nat, ctrlHeld: bool)

  datatype Kind = Down | Up | OtherKind

  /** The message word is cut to 32 bits before it is compared. */
  function KindOf(wParam: nat): Kind {
    var m := wParam % 0x1_0000_0000;
    if m == WM_KEYDOWN || m == WM_SYSKEYDOWN then Down
    else if m == WM_KEYUP || m == WM_SYSKEYUP then Up
    else OtherKind
  }

  /** The key code is cut to 16 bits before it is compared with the two Win keys. */
  predicate IsWinKey(vkCode: nat) {
    var vk := vkCode % 0x1_0000;
    vk == VK_LWIN || vk == VK_RWIN
  }

  /** The chord that starts a recording: a Win keydown with Ctrl held. */
  predicate IsChordDown(e: Event) {
    e.code >= 0 && KindOf(e.wParam) == Down && IsWinKey(e.vkCode) && e.ctrlHeld
  }

  /** A Win key going up. */
  predicate IsWinUp(e: Event) {
    e.code >= 0 && KindOf(e.wParam) == Up && IsWinKey(e.vkCode)
  }

  datatype Flags = Flags(pressed: bool, recording: bool)

  /** The invariant the hook and the orchestrator keep together. */
  predicate Guarded(f: Flags) {
    f.pressed ==> f.recording
  }

  /** The hook's new flags, and whether it swallows the event (returns 1) instead of
      passing it to the next hook. */
  datatype Decision = Decision(next: Flags, consume: bool)

  /** The hook's decision for one event in the given state. */
  function Decide(f: Flags, e: Event): (d: Decision)
    // A negative code is passed on untouched.
    ensures e.code < 0 ==> d == Decision(f, false)
    // Only the chord, and only while not recording, is swallowed.
    ensures d.consume <==> IsChordDown(e) && !f.recording
    // The chord starts a recording: both flags become true.
    ensures d.consume ==> d.next == Flags(true, true)
    // The chord while already recording changes nothing and passes on.
    ensures IsChordDown(e) && f.recording ==> d == Decision(f, false)
    // A Win keyup while recording drops the pressed flag only and passes on.
    ensures IsWinUp(e) && f.recording ==> d == Decision(Flags(false, true), false)
    // Any other key, Ctrl's own keyup among them, changes nothing and passes on.
    ensures !IsWinKey(e.vkCode) ==> d == Decision(f, false)
    // Every other event (a Win keydown without Ctrl, a Win keyup while idle, any other
    // message kind) changes nothing and passes on.
    ensures !(IsChordDown(e) && !f.recording) && !(IsWinUp(e) && f.recording) ==> d == Decision(f, false)
    // The hook never clears the recording flag.
    ensures f.recording ==> d.next.recording
    // The hook keeps the invariant.
    ensures Guarded(f) ==> Guarded(d.next)
  {
    if e.code < 0 then Decision(f, false)
    else
      match KindOf(e.wParam)
      case Down =>
        if IsWinKey(e.vkCode) && e.ctrlHeld && !f.recording then Decision(Flags(true, true), true)
        else Decision(f, false)
      case Up =>
        if IsWinKey(e.vkCode) && f.recording then Decision(Flags(false, f.recording), false)
        else Decision(f, false)
      case OtherKind => Decision(f, false)
  }

  /** The two shared flags. */
  class HotkeyState {
    var isPressed: bool
    var isRecording: bool

    /** Both flags start false; the hook is installed with this state. */
    constructor ()
      ensures !isPressed && !isRecording
      ensures Valid()
    {
      isPressed := false;
      isRecording := false;
    }

    function Current(): Flags
      reads this
    {
      Flags(isPressed, isRecording)
    }

    ghost predicate Valid()
      reads this
    {
      Guarded(Current())
    }

    /** The low-level keyboard hook. */
    method Hook(e: Event) returns (consume: bool)
      modifies this
      ensures Decision(Current(), consume) == Decide(old(Current()), e)
      ensures old(Valid()) ==> Valid()
    {
      consume := false;
      if e.code >= 0 {
        var kind := KindOf(e.wParam);
        var winPressed := IsWinKey(e.vkCode);
        match kind
        case Down =>
          if winPressed && e.ctrlHeld && !isRecording {
            isPressed := true;
            isRecording := true;
            consume := true;
          }
        case Up =>
          if winPressed && isRecording {
            isPressed := false;
          }
        case OtherKind =>
      }
    }

    /** The orchestrator's reset of the recording flag once a capture has returned. It
        keeps the invariant when the pressed flag was already false. */
    method ClearRecording()
      modifies this
      ensures !isRecording && isPressed == old(isPressed)
      ensures !old(isPressed) ==> Valid()
    {
      isRecording := false;
    }
  }

  /** One thing that can happen to the flags: a hook event, or the orchestrator's clear. */
  datatype Action = Key(e: Event) | Clear

  /** The flags after a sequence of actions, in order. */
  function Run(f: Flags, actions: seq<Action>): Flags
    decreases |actions|
  {
    if actions == [] then f
    else
      match actions[0]
      case Key(e) => Run(Decide(f, e).next, actions[1..])
      case Clear => Run(Flags(f.pressed, false), actions[1..])
  }

  /** Every clear in the sequence comes in a state where the pressed flag is false. */
  predicate ClearsOnlyReleased(f: Flags, actions: seq<Action>)
    decreases |actions|
  {
    actions == [] ||
    match actions[0]
    case Key(e) => ClearsOnlyReleased(Decide(f, e).next, actions[1..])
    case Clear => !f.pressed && ClearsOnlyReleased(Flags(f.pressed, false), actions[1..])
  }

  /** Any interleaving of hook events and clears made only while the pressed flag is
      false keeps `pressed ==> recording`. */
  lemma {:induction false} InterleavingKeepsGuard(f: Flags, actions: seq<Action>)
    requires Guarded(f)
    requires ClearsOnlyReleased(f, actions)
    ensures Guarded(Run(f, actions))
    decreases |actions|
  {
    if actions != [] {
      match actions[0]
      case Key(e) => InterleavingKeepsGuard(Decide(f, e).next, actions[1..]);
      case Clear => InterleavingKeepsGuard(Flags(f.pressed, false), actions[1..]);
    }
  }

  /** From the initial flags the invariant holds after any such interleaving. */
  lemma InitialInterleavingGuarded(actions: seq<Action>)
    requires ClearsOnlyReleased(Flags(false, false), actions)
    ensures Guarded(Run(Flags(false, false), actions))
  {
    InterleavingKeepsGuard(Flags(false, false), actions);
  }

  predicate OnlyKeys(actions: seq<Action>) {
    forall k :: 0 <= k < |actions| ==> actions[k].Key?
  }

  /** Hook events alone never clear the recording flag. */
  lemma {:induction false} KeysNeverClearRecording(f: Flags, actions: seq<Action>)
    requires OnlyKeys(actions)
    requires f.recording
    ensures Run(f, actions).recording
    decreases |actions|
  {
    if actions != [] {
      assert actions[0].Key?;
      KeysNeverClearRecording(Decide(f, actions[0].e).next, actions[1..]);
    }
  }

  /** Once the pressed flag is false while the recording flag is still true, no hook
      event changes either flag: nothing but the orchestrator can leave this state. */
  lemma {:induction false} ReleasedWhileRecordingIsStuck(actions: seq<Action>)
    requires OnlyKeys(actions)
    ensures Run(Flags(false, true), actions) == Flags(false, true)
    decreases |actions|
  {
    if actions != [] {
      assert actions[0].Key?;
      ReleasedWhileRecordingIsStuck(actions[1..]);
    }
  }
}
