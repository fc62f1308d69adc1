# naraka-midi-connector: note-to-keystroke core in Dafny

The application turns MIDI note events from an input device into keyboard
presses and releases, so that a MIDI controller can play an instrument in a
game that only reads the keyboard. Its core is in `MainWindow`
(`mainwindow.py`). This project models three parts of it:

- **Key tables and translator** (`keymap.dfy`, module `KeyMap`). These are the
  two 36-entry tables: the compact `KEYTABLE`, with `'?'` on semitones that
  have no key, and the full-range `MASTER_MODE_KEYTABLE`. `calculate_keystroke`
  maps a pitch to the key at its semitone offset from
  `24 + 12 * (baseOctave - 1)`. It gives `None` outside the three-octave
  window. The base octave and master mode are parameters.
- **Event dispatcher** (`dispatch.dfy`, module `Dispatch`). `play_midi` is a
  function from a message to a sequence of `Press`/`Release` actions. A batch
  of pending messages is a fold of it over a sequence. `DrainPending` is the
  loop over `iter_pending()` that hands each message to `play_midi`.
- **Lifecycle toggle** (`lifecycle.dfy`, module `Lifecycle`). This is a
  `Controller` class with the port field, the stop flag, and a flag that
  stands for the listener thread. `toggle_midi_listen` and `closeEvent` are
  methods on it. A ghost log of transitions records the starts and stops.

`wrappers.dfy` holds the `Option` type that stands for Python's `None`.

Keys are modelled as `char`, because every entry of both tables is a
one-character string. Messages are `NoteOn`/`NoteOff` with note and velocity
in 0..127 (the input library only delivers such messages) or `Other`, which
stands for every other message type. A note-on with velocity 0 releases the
key, as in the Note On/Note Off convention of the MIDI 1.0 Detailed
Specification (Channel Voice Messages).

The stop sequence follows the code: it closes the port, then sets the stop
flag, then joins the thread.

## Model

| member | source | states |
|---|---|---|
| `KeyMap.CalculateKeystroke` | mainwindow.py:140-158 | The result is present exactly when the pitch lies in the 36-semitone window starting at `24 + 12*(baseOctave-1)`. Otherwise it is `None`. When present, it is the active table's entry at the pitch's offset. In master mode that entry is never the gap `'?'`. |
| `KeyMap.ActiveTable` | mainwindow.py:152 | Master mode selects `MASTER_MODE_KEYTABLE`, otherwise `KEYTABLE`. Either way the table has 36 entries. |
| `KeyMap.TablesHaveThirtySixEntries` | mainwindow.py:22-24 | Both tables have exactly 36 entries (three octaves of 12 semitones). |
| `KeyMap.MasterModeHasNoGap` | mainwindow.py:24 | No entry of `MASTER_MODE_KEYTABLE` is `'?'`. |
| `KeyMap.MasterModeKeysDistinct` | mainwindow.py:24 | No key occurs twice in `MASTER_MODE_KEYTABLE`. |
| `KeyMap.CompactKeysDistinct` | mainwindow.py:23 | No key other than `'?'` occurs twice in `KEYTABLE`. |
| `KeyMap.OutOfRangeExactly` | mainwindow.py:146-149 | The result is `None` exactly when `pitch - (24 + 12*(baseOctave-1))` is below 0 or above 35. A negative offset never wraps around to the end of a table. |
| `KeyMap.OctaveShiftInvariant` | mainwindow.py:146 | `(pitch + 12, baseOctave + 1)` gives the same result as `(pitch, baseOctave)`. |
| `KeyMap.KeyIdentifiesPitch` | mainwindow.py:146-155 | Under one configuration, two pitches that give the same non-gap key are the same pitch. |
| `KeyMap.DefaultOctaveExamples` | mainwindow.py:146-158 | With base octave 3, pitch 48 gives `'z'` in both layouts and pitch 47 gives `None`. Pitch 83 is the last slot (`'['`) and pitch 84 is out of range. Pitch 49 is a gap in the compact layout. |
| `Dispatch.PlayMidi` | mainwindow.py:160-178 | A message that is not a note, or whose key is `None` or `'?'`, emits nothing. Any other message emits exactly one action on the translated key. That action is a release exactly for a note-off or a zero-velocity note-on, and a press otherwise. |
| `Dispatch.PlayBatch` | mainwindow.py:131-132 | Handling a batch of pending messages in order emits at most one action per message. |
| `Dispatch.DrainPending` | mainwindow.py:131-132 | The loop over the pending messages emits exactly the batch fold of `play_midi`. |
| `Dispatch.PlayBatchAppend` | mainwindow.py:131-132 | Handling two batches one after the other emits the same as handling their concatenation. |
| `Dispatch.PlayBatchKeysAreBound` | mainwindow.py:166-178 | Every key a batch presses or releases is an entry of the active table, and never `'?'`. |
| `Dispatch.PlayBatchOneActionEach` | mainwindow.py:166-178 | A batch whose messages all resolve to bound keys emits one action per message. |
| `Dispatch.MasterModeActsOnEveryNoteInWindow` | mainwindow.py:24 | In master mode, every note message with its pitch in the window is acted on. A batch of them emits one action per message. |
| `Dispatch.PlayBatchIgnoresOtherMessages` | mainwindow.py:162-163 | A batch with no note-on or note-off message emits nothing. |
| `Dispatch.PitchFortyEightExamples` | mainwindow.py:166-178 | With base octave 3, `note_on(48, velocity 0)` releases `'z'` and does not press it. `note_on(48, 100)` followed by `note_off(48)` presses and then releases `'z'`. Pitch 47 emits nothing. Pitch 49 emits nothing in the compact layout and presses `'s'` in master mode. |
| `Lifecycle.AlternatingHasNoRepeat` | mainwindow.py:95-123 | In the log of transitions, no start directly follows a start and no stop directly follows a stop. |
| `Lifecycle.Controller.constructor` | mainwindow.py:35-42 | Starts idle: no port, stop flag clear, no listener. |
| `Lifecycle.Controller.Toggle` | mainwindow.py:93-123 | From idle with an available device, it opens a fresh port for that device, clears the stop flag, starts the listener and logs a start. From idle when the open fails, nothing changes. From listening, it closes the open port, forgets it, sets the stop flag, joins the listener and logs a stop. |
| `Lifecycle.Controller.CloseEvent` | mainwindow.py:49-62 | When idle, nothing changes. When listening, it runs the same stop sequence as the toggle. Either way it ends idle with no listener. |
| `Lifecycle.Controller.StopListening` | mainwindow.py:112-120 | Closes the port, sets the port to `None`, sets the stop flag and clears the listener flag. The controller stays valid and ends idle. |
| `Lifecycle.ToggleTwiceReturnsToIdle` | mainwindow.py:95-120 | From idle, a start followed by a toggle returns to idle with the stop flag set. The port the start opened is fresh, belongs to the requested device and is closed at the end. The log gains exactly a start and then a stop. |

## Left out

- Widget setup, `populate_midi_devices`, `populate_base_octave`, button labels and `resource_path`. These are UI and packaging concerns. The octave and master mode come in as parameters instead of being read from widgets.
- The parse of the octave combo box (`int(currentText())`) and its possible `ValueError`. The octave is an integer parameter. The UI offers only 1 to 5, and the translator accepts any integer.
- The `print("Note out of range")` on the out-of-range path. It is console output only.
- Port I/O in the input library (`open_input`, `iter_pending`, `close`, and the `OSError` raised on a closed port). A port is an object with a `closed` flag. Whether opening succeeds is a parameter. In the source, a failed open raises out of `toggle_midi_listen`. Here it is the `DeviceOpenError` result, with the state unchanged.
- Keyboard injection (`keyboard.press` / `keyboard.release`). It appears only as the emitted `Press`/`Release` values.
- The `listen_midi` polling loop, its thread, the stop-flag polling, the 1 ms sleep and `join`. These are about concurrency and timing. Only one drained batch is modelled (`DrainPending`). The thread is the controller's `workerRunning` flag, which the stop sequence clears in place of `join`.
- A listener that exits on its own while the port stays open (for example, after the device disappears) is not modelled. The model assumes a listener runs from start until it is stopped.
- `DrainPending` takes the octave and mode once for the whole batch. The source rereads the widgets for every message, so a change during a batch is not modelled.
