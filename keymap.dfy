/**
  The note translator of `MainWindow`: the two fixed key tables and the
  function that turns a MIDI note number into the key bound to it, given the
  selected base octave and whether "master mode" (the full-range layout) is on.
 */
module KeyMap {
  import opened Wrappers

  /** Semitones per octave (`OCTAVE_INTERVAL`). */
  const OctaveInterval: int := 12

  /** MIDI note number of the lowest mapped note when the base octave is 1 (`C1_PITCH`). */
  const C1Pitch: int := 24

  /** Number of slots in each table: three octaves of semitones. */
  const WindowSize: int := OctaveInterval * 3

  /** The entry of the compact table for a semitone that has no key. */
  const Gap: char := '?'

  /**
    The compact layout (`KEYTABLE`): three rows of the keyboard, one per
    octave, with `Gap` on the semitones that have no key of their own.
    Every entry of the source's string is one character.
   */
  const KeyTable: seq<char> := "z?x?cv?b?n?m" + "a?s?df?g?h?j" + "q?w?er?t?y?u"

  /**
    The full-range layout (`MASTER_MODE_KEYTABLE`): a key for every semitone.
    The source writes it as three lists of one-character strings.
   */
  const MasterModeKeyTable: seq<char> :=
    ['z', 's', 'x', 'd', 'c', 'v', 'g', 'b', 'h', 'n', 'j', 'm'] +
    [',', 'l', '.', ';', '/', 'q', '2', 'w', '3', 'e', '4', 'r'] +
    ['t', '6', 'y', '7', 'u', 'i', '9', 'o', '0', 'p', '_', '[']

  /** MIDI note number of slot 0 of the window for `baseOctave`. */
  function Origin(baseOctave: int): (origin: int)
  {
    C1Pitch + OctaveInterval * (baseOctave - 1)
  }

  /** Semitone offset of `pitch` from the start of the window (`note_number`). */
  function NoteNumber(pitch: int, baseOctave: int): (offset: int)
  {
    pitch - Origin(baseOctave)
  }

  /** The table that `masterMode` selects. */
  function ActiveTable(masterMode: bool): (table: seq<char>)
    ensures |table| == WindowSize
    ensures masterMode ==> table == MasterModeKeyTable
    ensures !masterMode ==> table == KeyTable
  {
    if masterMode then MasterModeKeyTable else KeyTable
  }

  /**
    `calculate_keystroke`: `None` for a pitch outside the three-octave window
    that starts at the base octave (the source's `IndexError` path), otherwise
    the entry of the active table at the pitch's semitone offset, which may
    be `Gap`.
   */
  function CalculateKeystroke(pitch: int, baseOctave: int, masterMode: bool): (key: Option<char>)
    ensures key.Some? <==> Origin(baseOctave) <= pitch < Origin(baseOctave) + WindowSize
    ensures key.Some? ==> key.value == ActiveTable(masterMode)[pitch - Origin(baseOctave)]
    ensures key.Some? && masterMode ==> key.value != Gap
  {
    var noteNumber := NoteNumber(pitch, baseOctave);
    if noteNumber < 0 || noteNumber > OctaveInterval * 3 - 1 then
      None
    else if !masterMode then
      Some(KeyTable[noteNumber])
    else
      Some(MasterModeKeyTable[noteNumber])
  }

  /** Both tables have one entry per semitone of the three-octave window. */
  lemma TablesHaveThirtySixEntries()
    ensures |KeyTable| == 36 && |MasterModeKeyTable| == 36
  {
  }

  /** The full-range table has no gap: every slot is bound to a key. */
  lemma MasterModeHasNoGap()
    ensures forall i | 0 <= i < |MasterModeKeyTable| :: MasterModeKeyTable[i] != Gap
  {
  }

  /** No key occurs twice in the full-range table. */
  lemma MasterModeKeysDistinct()
    ensures forall i, j | 0 <= i < j < |MasterModeKeyTable| :: MasterModeKeyTable[i] != MasterModeKeyTable[j]
  {
  }

  /** No key other than the gap marker occurs twice in the compact table. */
  lemma CompactKeysDistinct()
    ensures forall i, j | 0 <= i < j < |KeyTable| && KeyTable[i] != Gap :: KeyTable[i] != KeyTable[j]
  {
  }

  /**
    The translator rejects exactly the offsets below 0 and above 35; a
    negative offset never wraps around. A corollary of the first `ensures`
    of `CalculateKeystroke`, restated with the offset instead of the window.
   */
  lemma OutOfRangeExactly(pitch: int, baseOctave: int, masterMode: bool)
    ensures CalculateKeystroke(pitch, baseOctave, masterMode).None?
        <==> NoteNumber(pitch, baseOctave) < 0 || NoteNumber(pitch, baseOctave) > 35
  {
  }

  /** Raising the pitch by an octave and the base octave by one selects the same key. */
  lemma OctaveShiftInvariant(pitch: int, baseOctave: int, masterMode: bool)
    ensures CalculateKeystroke(pitch + OctaveInterval, baseOctave + 1, masterMode)
         == CalculateKeystroke(pitch, baseOctave, masterMode)
  {
  }

  /**
    Two pitches that resolve to the same bound key (not a gap) under one
    configuration are the same pitch: a key press always stands for one note.
   */
  lemma KeyIdentifiesPitch(p: int, q: int, baseOctave: int, masterMode: bool)
    requires CalculateKeystroke(p, baseOctave, masterMode).Some?
    requires CalculateKeystroke(p, baseOctave, masterMode) == CalculateKeystroke(q, baseOctave, masterMode)
    requires CalculateKeystroke(p, baseOctave, masterMode).value != Gap
    ensures p == q
  {
    if masterMode {
      MasterModeKeysDistinct();
    } else {
      CompactKeysDistinct();
    }
  }

  /** With the default base octave 3, pitch 48 is slot 0 (`'z'` in both layouts) and pitch 47 is below the window. */
  lemma DefaultOctaveExamples()
    ensures CalculateKeystroke(48, 3, false) == Some('z')
    ensures CalculateKeystroke(48, 3, true) == Some('z')
    ensures CalculateKeystroke(47, 3, false) == None
    ensures CalculateKeystroke(47, 3, true) == None
    ensures CalculateKeystroke(83, 3, true) == Some('[')
    ensures CalculateKeystroke(84, 3, true) == None
    ensures CalculateKeystroke(49, 3, false) == Some(Gap)
  {
  }
}
