# Step sequencer, piano roll and keyboard synth: a Dafny model

This project models the logic of three panels of a browser music
workstation built on React and Tone.js:

- **Drum grid** (`components/DrumGrid.tsx`): a 4 x 16 matrix of on/off
  cells. The rows are Kick, Snare, HiHat and Clap, with General MIDI
  percussion keys 36, 38, 42 and 39. The columns are sixteen
  sixteenth-note steps. While the panel plays, a Tone `Part` of sixteen
  events triggers, at step k, every voice whose cell in column k is on.
  The pattern exports to a one-track MIDI file, one 0.2 s note per active
  cell at time `step * 0.25`. Importing a file rebuilds the grid from the
  file's first track. At the file's default tempo (120 bpm) 0.25 s is an
  eighth note, while the panel plays its steps as sixteenths (`0:0:k`).
  An exported bar therefore spans two bars of the file. Import divides by
  the same 0.25 s, so the panel's own round trip is unaffected.
- **Piano roll** (`components/PianoRoll.tsx`): the same sequencer with 24
  pitch rows, B5 at the top down to C4. Each row's name is built by
  `midiNote`, and `getAllNotes` produces the list of names. Each row's MIDI
  number comes from Tone's name-to-MIDI conversion.
- **Keyboard synth** (`components/KeyboardSynth.tsx`): 24 keys, C4 to B5.
  A recorder keeps each key press together with the audio-clock time of
  the press. A take can be
  - exported, with times measured from the first press,
  - imported, or
  - replayed through the transport, which is cancelled one second after
    the last cue.

  Each key shows its name with the octave digit removed, and a key is
  black when its name contains `#`.

Modules:

| module | file | contents |
|---|---|---|
| `MidiTrack` | `midi_track.dfy` | Notes, tracks and files as @tonejs/midi presents them. |
| `StepGrid` | `step_grid.dfy` | What the two grid panels share: the grid, the toggle, the Part's events, export and import, and their round trip. The panels differ only in their row labels and row MIDI numbers, so these are parameters here. |
| `DrumGrid`, `PianoRoll` | `drum_grid.dfy`, `piano_roll.dfy` | Each component as a class. The fields are the grid, the `isPlaying` prop, the highlighted step and the scheduled Part. |
| `KeyboardSynth` | `keyboard_synth.dfy` | The synth as a class over the recorded take, plus the key faces. |
| `JsText` | `js_text.dfy` | The JavaScript string operations that note names go through: a template literal, and `/\d/`. |
| `PitchNumbers` | `pitch_numbers.dfy` | The scientific-pitch numbering (C4 = 60). It shows that the round-trip hypotheses about Tone's conversions are met by the standard conversions. |

The central invariant of each grid panel is `Valid()`: while playing, the
scheduled Part is exactly the Part built from the current grid, and while
stopped no Part is scheduled. The source keeps this by listing
`[isPlaying, grid]` as the effect's dependencies. Every state change
(toggle, import, play/stop) is followed by `Replay`, which disposes the old
Part and builds a new one.

The synth has no such invariant: its take is not always in time order. A
freshly recorded take is, because `Tone.now()` never runs backwards. An
imported take is too, because @tonejs/midi keeps every track sorted by time.
But the Import input stays enabled while recording, so key presses can be
appended, stamped with audio-clock times, after a take whose times come
from a file. Such a take can fall out of time order. The synth's contracts
therefore state time order as a conditional:
- `PlayNote` keeps a take in time order when the press is no earlier than
  the last entry.
- `ImportMidi` produces a take in time order.
- `PlaySequence` promises its cue bounds only for a take in time order.

## Model

| member | source | states |
|---|---|---|
| MidiTrack.FirstTrack | components/DrumGrid.tsx:118 | `midi.tracks[0]?.notes`: no notes for a file without tracks, otherwise the notes of track 0. |
| MidiTrack.SingleTrack | components/DrumGrid.tsx:95-96 | A new file with one added track has exactly one track, and its first track gives back the notes in the order they were added (the library's order for notes already in time order; see Left out). |
| StepGrid.EmptyGrid | components/DrumGrid.tsx:49-51 | The initial grid has the panel's number of rows, 16 steps per row, and every cell off. |
| StepGrid.Toggle | components/DrumGrid.tsx:151-155 | A click flips exactly the clicked cell; every other cell and the grid's shape stay as they were. |
| StepGrid.ToggleTwice | components/DrumGrid.tsx:151-155 | Clicking the same cell twice restores the original grid. |
| StepGrid.JsRound | components/DrumGrid.tsx:120 | `Math.round` gives the integer n with n - 0.5 <= x < n + 0.5, so halves round up. |
| StepGrid.JsRoundStepTime | components/DrumGrid.tsx:102-120 | Dividing an exported time `step * 0.25` by 0.25 and rounding gives back the step. |
| StepGrid.ColumnCells | components/DrumGrid.tsx:98-106 | The cells the inner export loop visits and finds on in one column: exactly the active rows, in ascending row order. |
| StepGrid.ActiveCells | components/DrumGrid.tsx:97-107 | The cells the nested export loops emit: exactly the active cells of the first m steps, each once, ordered by step and then by row. |
| StepGrid.Schedule | components/DrumGrid.tsx:63-78 | The Part has 16 events, and event k has transport time `0:0:k` and step k. |
| StepGrid.LabelsOfNextRow | components/DrumGrid.tsx:65-72 | Visiting one more row in the per-event loop adds that row's label exactly when its cell is on. |
| StepGrid.ScheduleTriggers | components/DrumGrid.tsx:63-78 | With distinct labels, event k triggers row r if and only if cell (r, k) is on, and it lists the triggered rows in row order. |
| StepGrid.ExportNotes | components/DrumGrid.tsx:97-107 | Every exported note carries one of the rows' MIDI numbers, lasts 0.2 s, and starts between 0 and 15 x 0.25 s. |
| StepGrid.ExportTimesOnTicks | components/DrumGrid.tsx:100-104 | Every exported time `step * 0.25` is a whole number of MIDI ticks (1/960 s at 480 ticks per quarter note and 120 bpm), so the file stores grid times exactly. |
| StepGrid.ExportMembership | components/DrumGrid.tsx:97-107 | A note is in the exported track if and only if it is the note of an active cell: the row's MIDI number, time `step * 0.25`, duration 0.2. |
| StepGrid.ExportOrdered | components/DrumGrid.tsx:97-107 | The exported notes are in non-decreasing time order, and each lasts 0.2 s. |
| StepGrid.CollectNotes | components/DrumGrid.tsx:94-107 | The nested loops over steps and rows build exactly the track of the active cells' notes, in step-major order. |
| StepGrid.CellRoundTrip | components/DrumGrid.tsx:97-123 | With distinct row MIDI numbers, a cell is hit by some note of the exported track if and only if the cell is on. |
| StepGrid.FindIndex | components/DrumGrid.tsx:119 | `findIndex` returns the first position holding the value, or -1 exactly when the value is absent. |
| StepGrid.FindIndexOfRow | components/DrumGrid.tsx:119 | When no value repeats, the search for row r's value finds row r. |
| StepGrid.Lands | components/DrumGrid.tsx:119-120 | A note resolves to a cell only in the first row whose MIDI number equals the note's; no earlier row has that number. |
| StepGrid.Hit | components/DrumGrid.tsx:118-121 | A cell is hit only when its row exists and some note of the track carries that row's MIDI number. |
| StepGrid.MarkCell | components/DrumGrid.tsx:122 | `newGrid[i][step] = true` switches that cell on, keeps the grid's shape, and leaves every other cell as it was. |
| StepGrid.ImportGrid | components/DrumGrid.tsx:117-123 | The imported grid has the panel's number of rows and 16 steps per row; its cells are given by `Hit`. |
| StepGrid.HitAppend | components/DrumGrid.tsx:118-123 | After one more note, a cell is hit if and only if it was hit before or the new note lands on it. |
| StepGrid.ImportAppend | components/DrumGrid.tsx:118-123 | One import step drops a note whose MIDI number matches no row or whose rounded step is outside [0, 16). Any other note switches on its cell and changes nothing else. |
| StepGrid.ImportDuplicate | components/DrumGrid.tsx:118-123 | Importing the same note twice gives the same grid as importing it once. |
| StepGrid.ImportOrderFree | components/DrumGrid.tsx:117-123 | The imported grid depends only on which notes the track holds, not on their order. |
| StepGrid.RoundTrip | components/DrumGrid.tsx:97-123 | When the row MIDI numbers are distinct, importing the exported track gives back the grid. |
| StepGrid.FillGrid | components/DrumGrid.tsx:117-124 | The import loop writes into a fresh all-off 2-D array. The result is the grid in which a cell is on exactly when some note of the track lands on it. |
| DrumGrid.Pitches | components/DrumGrid.tsx:7-12 | The rows' MIDI numbers are 36, 38, 42 and 39, and they are distinct. |
| DrumGrid.Names | components/DrumGrid.tsx:7-12 | The voice names are Kick, Snare, HiHat and Clap, and they are distinct. |
| DrumGrid.Panel.constructor | components/DrumGrid.tsx:48-52 | On mount the grid is all off, no step is highlighted, and the Part matches the grid. |
| DrumGrid.Panel.Replay | components/DrumGrid.tsx:54-92 | The effect disposes the old Part and resets the step to -1. When playing it schedules the Part of the current grid; when stopped it schedules none. The grid and `isPlaying` are unchanged. |
| DrumGrid.Panel.SetPlaying | components/DrumGrid.tsx:48-92 | A new `isPlaying` value re-runs the effect only when it differs from the old one, and the Part again matches the state. |
| DrumGrid.Panel.ToggleCell | components/DrumGrid.tsx:151-155 | The grid becomes the toggled grid, and the Part is rebuilt from it. |
| DrumGrid.Panel.OnStep | components/DrumGrid.tsx:63-73 | Event k highlights step k and triggers voice i if and only if cell (i, k) is on. |
| DrumGrid.Panel.ExportMidi | components/DrumGrid.tsx:94-110 | The exported file has one track: the notes of the active cells. |
| DrumGrid.Panel.ImportMidi | components/DrumGrid.tsx:112-125 | With no file chosen nothing changes. Otherwise the grid becomes the one rebuilt from the first track, and the Part is rebuilt from it. |
| DrumGrid.DrumRoundTrip | components/DrumGrid.tsx:94-125 | Importing an exported drum pattern gives back the pattern. |
| DrumGrid.LateNoteDropped | components/DrumGrid.tsx:118-123 | A kick at time 100 (step 400) does not change the imported grid. |
| DrumGrid.KickOnlyRoundTrip | components/DrumGrid.tsx:94-155 | A grid holding a single kick on step 0 (the first step) round-trips to exactly that cell. |
| JsText.NumberString | components/PianoRoll.tsx:49 | `${n}` is a non-empty string of decimal digits, and it is one character long exactly when n < 10. |
| JsText.NumberStringInjective | components/PianoRoll.tsx:48-50 | Different octave numbers print differently. |
| JsText.FirstDigitIndex | components/KeyboardSynth.tsx:121 | The match position of `/\d/`: a digit sits there, and no digit comes before it (or there is no match). |
| JsText.FirstDigitAfterPrefix | components/KeyboardSynth.tsx:121 | In a digit-free prefix followed by a digit, `/\d/` matches right after the prefix. |
| PianoRoll.NotesSpelling | components/PianoRoll.tsx:7 | The 12 pitch-class names are distinct, non-empty and free of digits. |
| PianoRoll.MidiNote | components/PianoRoll.tsx:48-50 | `${NOTES[i]}${oct}` is longer than the pitch-class name: the octave adds at least one character. |
| PianoRoll.MidiNoteFirstDigit | components/PianoRoll.tsx:48-50 | A note name starts with its pitch-class name, and its first digit (where `/\d/` matches) sits right after it. |
| PianoRoll.AllNotes | components/PianoRoll.tsx:52-59 | `ALL_NOTES` holds 24 names, one per row. |
| PianoRoll.MidiNoteInjective | components/PianoRoll.tsx:48-50 | Two `midiNote` names are equal if and only if their octaves and pitch classes are equal. |
| PianoRoll.Reversed | components/PianoRoll.tsx:56 | `reverse()` keeps the length and puts element k at position len - 1 - k. |
| PianoRoll.GetAllNotes | components/PianoRoll.tsx:52-57 | The nested push loops followed by `reverse()` produce `AllNotes()`: 24 names, with row r holding the (23 - r)-th name pushed. |
| PianoRoll.AllNotesAt | components/PianoRoll.tsx:52-59 | Row r is pitch class (23 - r) mod 12 of octave 4 (rows 12-23) or octave 5 (rows 0-11). |
| PianoRoll.AllNotesFacts | components/PianoRoll.tsx:52-59 | The 24 row names are distinct, with "B5" in row 0 and "C4" in row 23. |
| PianoRoll.Pitches | components/PianoRoll.tsx:105 | Row r's MIDI number is the conversion of row r's name; when the conversion gives the 24 names different numbers, the rows' numbers are distinct. |
| PianoRoll.Panel.constructor | components/PianoRoll.tsx:61-65 | On mount the 24 x 16 grid is all off, no step is highlighted, and the Part matches the grid. |
| PianoRoll.Panel.Replay | components/PianoRoll.tsx:68-95 | Same as the drum grid: the old Part is disposed and the step reset. The Part of the current grid is scheduled only while playing. |
| PianoRoll.Panel.SetPlaying | components/PianoRoll.tsx:61-95 | The effect re-runs only on a changed `isPlaying`, and the Part matches the state afterwards. |
| PianoRoll.Panel.ToggleCell | components/PianoRoll.tsx:156-160 | The grid becomes the toggled grid, and the Part is rebuilt from it. |
| PianoRoll.Panel.OnStep | components/PianoRoll.tsx:72-80 | Event k highlights step k and plays row r's name if and only if cell (r, k) is on. |
| PianoRoll.Panel.ExportMidi | components/PianoRoll.tsx:98-114 | The exported file has one track: the notes of the active cells. |
| PianoRoll.Panel.ImportMidi | components/PianoRoll.tsx:117-131 | With no file chosen nothing changes. Otherwise the grid becomes the one rebuilt from the first track, and the Part is rebuilt from it. |
| PianoRoll.EventNotes | components/PianoRoll.tsx:76-80 | `ALL_NOTES.filter` for step k keeps row r's name if and only if cell (r, k) is on, in row order. |
| PianoRoll.PianoRoundTrip | components/PianoRoll.tsx:98-131 | When the conversion gives the 24 names distinct numbers, importing an exported pattern gives back the pattern. |
| KeyboardSynth.Rebased | components/KeyboardSynth.tsx:64-71 | The first press moves to time 0, the notes are kept, and the gap between any two presses is unchanged. |
| KeyboardSynth.ExportTrack | components/KeyboardSynth.tsx:61-73 | One 0.2 s note per press, in recording order. Each note's MIDI number is the conversion of the press's name; the first note is at 0 and the spacing is kept. |
| KeyboardSynth.ImportedNotes | components/KeyboardSynth.tsx:83-86 | One press per note of the track; a track in time order gives a take in time order. |
| KeyboardSynth.ExportTrackOrdered | components/KeyboardSynth.tsx:61-73 | A take in time order exports to a track in time order with no negative time, so the library's time-sorted track keeps the recording order. |
| KeyboardSynth.ExportImport | components/KeyboardSynth.tsx:61-88 | For a take in time order, and when naming a converted name gives it back, importing an exported take gives back the take rebased to 0. Times are exact reals (see Left out for the file's tick rounding). |
| KeyboardSynth.RebasedIdempotent | components/KeyboardSynth.tsx:61-88 | Rebasing twice is rebasing once, so exporting an imported take does not shift it again. |
| KeyboardSynth.SequencePlan | components/KeyboardSynth.tsx:90-101 | An empty take schedules nothing. Otherwise cue k plays note k at its offset from the first press, the first cue is at 0, and cancellation comes (last offset + 1) x 1000 ms later. |
| KeyboardSynth.RecordingKeepsTimeOrder | components/KeyboardSynth.tsx:46-50 | Appending a press stamped by a clock that does not run backwards keeps the take in time order. |
| KeyboardSynth.PressAfterImport | components/KeyboardSynth.tsx:46-50 | After importing a track with times 0 and 600 while recording, a press at audio-clock time 60 leaves the take out of time order, and the export puts that press before the previous note. |
| KeyboardSynth.CancelAfterEveryCue | components/KeyboardSynth.tsx:90-101 | For a take in time order, every cue offset is at least 0 and at least one second before the cancellation. |
| KeyboardSynth.IsBlack | components/KeyboardSynth.tsx:119 | A key is black if and only if some position of its name holds `#`. |
| KeyboardSynth.KeyLabel | components/KeyboardSynth.tsx:121 | A name without a digit is its own label. Otherwise the label is one character shorter, and the part before the removed digit has no digit. |
| KeyboardSynth.NameFace | components/KeyboardSynth.tsx:119-121 | For a name of octave 0-9, the key label is the pitch-class name, and the key is black if and only if the pitch class has a sharp. |
| KeyboardSynth.KeysSpelled | components/KeyboardSynth.tsx:7-10 | There are 24 keys, and key k is the k-th name the piano roll's push loops produce: pitch class k mod 12 in octave 4 or 5. |
| KeyboardSynth.KeyFaces | components/KeyboardSynth.tsx:116-121 | The keys are the piano roll's names in ascending order; key k is labelled `NOTES[k mod 12]` and is black exactly when that name has a sharp. |
| KeyboardSynth.SharpKeyExample | components/KeyboardSynth.tsx:119-121 | "C#4" is a black key labelled "C#", and "C4" is a white key labelled "C". |
| KeyboardSynth.Synth.constructor | components/KeyboardSynth.tsx:40-41 | On mount the take is empty and recording is off. |
| KeyboardSynth.Synth.PlayNote | components/KeyboardSynth.tsx:46-50 | While recording, the press is appended to the take with its time. Otherwise the take is unchanged. A take in time order stays in time order when the press is no earlier than its last entry. |
| KeyboardSynth.Synth.StartRecording | components/KeyboardSynth.tsx:52-55 | Recording turns on and the take is emptied. |
| KeyboardSynth.Synth.StopRecording | components/KeyboardSynth.tsx:57-59 | Recording turns off and the take is kept. |
| KeyboardSynth.Synth.ExportMidi | components/KeyboardSynth.tsx:61-76 | The loop over the take writes a one-track file holding `ExportTrack`; an empty take writes an empty track. |
| KeyboardSynth.Synth.ImportMidi | components/KeyboardSynth.tsx:78-88 | With no file chosen nothing changes. Otherwise the take becomes one press per note of the first track, in file order, named by the conversion. Since the library keeps tracks sorted by time, the imported take is in time order. |
| KeyboardSynth.Synth.PlaySequence | components/KeyboardSynth.tsx:90-101 | The loop schedules exactly `SequencePlan` of the take. For a take in time order, every cue offset is at least 0 and at least one second before the cancellation. |
| PitchNumbers.NameToMidi | components/PianoRoll.tsx:105 | Every string numbers either as -1 or as a number from 12 to 131. |
| PitchNumbers.MidiToName | components/KeyboardSynth.tsx:85 | Numbers 12 to 131, and only those, get a non-empty name. |
| PitchNumbers.NameToMidiOfNote | components/KeyboardSynth.tsx:68 | `midiNote(oct, i)` numbers as 12 x (oct + 1) + i. |
| PitchNumbers.NameToMidiOnlyNames | components/PianoRoll.tsx:105 | Only note names get a number: a string that does not number as -1 is `midiNote(oct, i)` for an octave 0-9 and a pitch class i. |
| PitchNumbers.NameRoundTrip | components/KeyboardSynth.tsx:68-85 | Naming the number of a note name of octave 0-9 gives back the name. |
| PitchNumbers.NumberRoundTrip | components/KeyboardSynth.tsx:68-85 | Numbering the name of a number from 12 to 131 gives back the number. |
| PitchNumbers.RowNumbers | components/PianoRoll.tsx:105 | Under the standard numbering, row r of the piano roll is MIDI 83 - r. |
| PitchNumbers.StandardPianoRoundTrip | components/PianoRoll.tsx:98-131 | The piano roll's export/import round trip holds for the standard numbering. |
| PitchNumbers.StandardSynthRoundTrip | components/KeyboardSynth.tsx:61-88 | With the standard numbering, the keys' names and rebased times of a take in time order (which excludes key presses recorded after an import made while recording) come back from export and import, up to the file's tick rounding (see Left out). |

## Left out

- Sound: the Tone.js synths (MembraneSynth, NoiseSynth, MetalSynth, PolySynth, Synth), their envelopes and note lengths (`'8n'`, `'16n'`, `'C1'`), and the audio output.
- The transport's clock: the 120 bpm tempo, starting and stopping the transport, and when the Part's callbacks fire. An event is modelled by its time, its step and the voices or notes it triggers, and `OnStep` is called with the event's step.
- Part teardown is not a separate operation: the effect's cleanup (dispose, stop, cancel, step -1) is folded into `Replay`, which always runs after the cleanup. Unmounting is not modelled.
- The binary Standard MIDI File encoding (`midi.toArray()`, `new Midi(buffer)`), the Blob and `saveAs` download, and reading the chosen file. A file is its list of tracks, and the file input yields a file or none.
- Tone's `Frequency(...).toMidi()` and `.toNote()` are parameters of the model. `PitchNumbers` gives the standard numbering only for octaves 0 to 9; names outside that range are mapped to -1 and "".
- `Tone.now()` is the `now` parameter of `KeyboardSynth.Synth.PlayNote`.
- KeyboardSynth.Synth.PlayNote: keeps time order only when the press is no earlier than the take's last entry. After an import made while recording, the take mixes file times with audio-clock times (`KeyboardSynth.PressAfterImport`). For such a take the model promises no order, the library reorders its export, a press earlier than the first imported time gets a negative export time, and `playSequence` gets a negative offset.
- MidiTrack.SingleTrack: @tonejs/midi's `addNote` inserts each note at its place in time, so a track read back is sorted by time. The model keeps notes in the order they were added. The two agree for notes already in time order: every grid export (`StepGrid.ExportOrdered`), and every synth take in time order (`KeyboardSynth.ExportTrackOrdered`), which excludes key presses recorded after an import made while recording (`KeyboardSynth.PressAfterImport`). For the grid panels the order of imported notes does not matter anyway (`StepGrid.ImportOrderFree`).
- KeyboardSynth.ExportImport: times are exact reals here, while a MIDI file stores each time as a whole number of ticks (1/960 s at the file's default 480 ticks per quarter note and 120 bpm). The program therefore reads back times rounded to a tick, and the lemma describes the program only for takes whose rebased press times fall on ticks. Grid exports always do (`StepGrid.ExportTimesOnTicks`); live key presses generally do not.
- PitchNumbers.StandardSynthRoundTrip: the same tick rounding applies. Note names come back exactly; times come back exactly only for tick-aligned takes.
- Times are exact reals, not IEEE doubles. The values the model produces (`step * 0.25`, differences of press times) are therefore exact, while the program's doubles may round.
- React state updates apply in order and at once. The asynchronous batching of `setNotes`/`setGrid`/`setStep` and stale closures are not modelled.
- The grid copy `grid.map(row => row.slice())` is a value update in the model. Sequences are values, so there is no aliasing to rule out.
- StepGrid.CollectNotes: the inner loop gathers one step's notes and the outer loop appends them. The source appends each note to the track directly; the resulting track is the same.
- `playSequence` creating a new synth on each call, and the `setTimeout` that cancels the transport: the cancellation delay is computed, but not when it fires.
- KeyboardSynth.NameFace: stated only for octaves 0 to 9. For a name with a multi-digit octave, `replace(/\d/, '')` removes only the first digit, so the label is not the pitch-class name; no key has such a name.
- The audio recorder panel, the application shell, the sidebars, the transport controls, styling, colours and the rendering of the grids and keys are not part of this model.
