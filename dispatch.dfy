/**
  `play_midi`: the decision of which key to press or release for one MIDI
  message, and the handling of one batch of pending messages, one message
  after another. Keyboard injection is represented by the actions emitted.
 */
module Dispatch {
  import opened Wrappers
  import opened KeyMap

  /** A MIDI data byte: a note number or a velocity. */
  type DataByte = x: int | 0 <= x < 128

  /** The messages an input port delivers; `Other` is every type but `note_on` and `note_off`. */
  datatype Message =
    | NoteOn(note: DataByte, velocity: DataByte)
    | NoteOff(note: DataByte, velocity: DataByte)
    | Other

  /** A call to the keyboard-injection facility. */
  datatype Action = Press(key: char) | Release(key: char)

  predicate IsNoteMessage(msg: Message)
  {
    msg.NoteOn? || msg.NoteOff?
  }

  /** A note message whose pitch resolves to a bound key: the messages `play_midi` acts on. */
  predicate Actionable(msg: Message, baseOctave: int, masterMode: bool)
  {
    IsNoteMessage(msg) &&
    var key := CalculateKeystroke(msg.note, baseOctave, masterMode);
    key.Some? && key.value != Gap
  }

  /** Whether a note message lets the key go: a note-off, or a note-on with velocity 0. */
  predicate IsRelease(msg: Message)
  {
    msg.NoteOff? || (msg.NoteOn? && msg.velocity == 0)
  }

  /**
    `play_midi`: nothing for a message that is not a note message, nothing
    for a pitch out of the window or on a gap, and otherwise exactly one
    action on the translated key: a release for a note-off or a zero-velocity
    note-on, a press for a note-on with positive velocity.
   */
  function PlayMidi(msg: Message, baseOctave: int, masterMode: bool): (actions: seq<Action>)
    ensures |actions| == if Actionable(msg, baseOctave, masterMode) then 1 else 0
    ensures actions != [] ==> actions[0].key == CalculateKeystroke(msg.note, baseOctave, masterMode).value
    ensures actions != [] ==> (actions[0].Release? <==> IsRelease(msg))
  {
    if !IsNoteMessage(msg) then
      []
    else
      var key := CalculateKeystroke(msg.note, baseOctave, masterMode);
      if key.None? || key.value == Gap then
        []
      else
        (if msg.NoteOff? || (msg.NoteOn? && msg.velocity == 0) then [Release(key.value)] else []) +
        (if msg.NoteOn? && msg.velocity > 0 then [Press(key.value)] else [])
  }

  /** The actions one batch of pending messages produces, message by message, in arrival order. */
  function PlayBatch(pending: seq<Message>, baseOctave: int, masterMode: bool): (actions: seq<Action>)
    ensures |actions| <= |pending|
  {
    if pending == [] then []
    else PlayMidi(pending[0], baseOctave, masterMode) + PlayBatch(pending[1..], baseOctave, masterMode)
  }

  /**
    The loop over `iter_pending()` in `listen_midi`: hands every pending
    message to `play_midi` and collects what it emits.
   */
  method DrainPending(pending: seq<Message>, baseOctave: int, masterMode: bool) returns (emitted: seq<Action>)
    ensures emitted == PlayBatch(pending, baseOctave, masterMode)
  {
    emitted := [];
    for i := 0 to |pending|
      invariant emitted == PlayBatch(pending[..i], baseOctave, masterMode)
    {
      assert pending[..i + 1] == pending[..i] + [pending[i]];
      assert PlayBatch([pending[i]], baseOctave, masterMode) == PlayMidi(pending[i], baseOctave, masterMode) + [];
      PlayBatchAppend(pending[..i], [pending[i]], baseOctave, masterMode);
      emitted := emitted + PlayMidi(pending[i], baseOctave, masterMode);
    }
    assert pending[..|pending|] == pending;
  }

  /** Handling two batches one after the other emits what handling them as one batch does. */
  lemma {:induction false} PlayBatchAppend(first: seq<Message>, second: seq<Message>, baseOctave: int, masterMode: bool)
    ensures PlayBatch(first + second, baseOctave, masterMode)
         == PlayBatch(first, baseOctave, masterMode) + PlayBatch(second, baseOctave, masterMode)
  {
    if first == [] {
      assert first + second == second;
    } else {
      assert (first + second)[1..] == first[1..] + second;
      PlayBatchAppend(first[1..], second, baseOctave, masterMode);
    }
  }

  /**
    Every key a batch presses or releases is an entry of the active table and
    never the gap marker.
   */
  lemma {:induction false} PlayBatchKeysAreBound(pending: seq<Message>, baseOctave: int, masterMode: bool)
    ensures forall a | a in PlayBatch(pending, baseOctave, masterMode) ::
      a.key != Gap && a.key in ActiveTable(masterMode)
  {
    if pending != [] {
      PlayBatchKeysAreBound(pending[1..], baseOctave, masterMode);
    }
  }

  /** A batch of messages that are all actionable emits one action per message. */
  lemma {:induction false} PlayBatchOneActionEach(pending: seq<Message>, baseOctave: int, masterMode: bool)
    requires forall k | 0 <= k < |pending| :: Actionable(pending[k], baseOctave, masterMode)
    ensures |PlayBatch(pending, baseOctave, masterMode)| == |pending|
  {
    if pending != [] {
      assert Actionable(pending[0], baseOctave, masterMode);
      PlayBatchOneActionEach(pending[1..], baseOctave, masterMode);
    }
  }

  /**
    In master mode every note message whose pitch lies in the window is acted
    on, so a batch of such messages emits one action per message.
   */
  lemma MasterModeActsOnEveryNoteInWindow(pending: seq<Message>, baseOctave: int)
    requires forall k | 0 <= k < |pending| ::
      IsNoteMessage(pending[k]) && Origin(baseOctave) <= pending[k].note < Origin(baseOctave) + WindowSize
    ensures |PlayBatch(pending, baseOctave, true)| == |pending|
  {
    PlayBatchOneActionEach(pending, baseOctave, true);
  }

  /** A batch without any note message emits nothing. */
  lemma {:induction false} PlayBatchIgnoresOtherMessages(pending: seq<Message>, baseOctave: int, masterMode: bool)
    requires forall k | 0 <= k < |pending| :: !IsNoteMessage(pending[k])
    ensures PlayBatch(pending, baseOctave, masterMode) == []
  {
    if pending != [] {
      assert !IsNoteMessage(pending[0]);
      PlayBatchIgnoresOtherMessages(pending[1..], baseOctave, masterMode);
    }
  }

  /**
    With base octave 3, pitch 48 is `'z'`: a zero-velocity note-on releases it
    and never presses it, and a press followed by a note-off presses then
    releases it; pitch 47 is out of the window and emits nothing.
   */
  lemma PitchFortyEightExamples()
    ensures PlayMidi(NoteOn(48, 0), 3, false) == [Release('z')]
    ensures PlayBatch([NoteOn(48, 100), NoteOff(48, 0)], 3, false) == [Press('z'), Release('z')]
    ensures PlayMidi(NoteOn(47, 100), 3, true) == []
    ensures PlayMidi(NoteOn(49, 100), 3, false) == []
    ensures PlayMidi(NoteOn(49, 100), 3, true) == [Press('s')]
  {
  }
}
