/** The piano roll: 24 pitches (C4 to B5, highest row first) by sixteen steps. */
module PianoRoll {
  import opened MidiTrack
  import opened StepGrid
  import opened JsText

  /** The twelve pitch classes, spelled with sharps. */
  const NOTES: seq<string> := ["C", "C#", "D", "D#", "E", "F", "F#", "G", "G#", "A", "A#", "B"]

  const OCTAVES: seq<nat> := [4, 5]

  /** Number of rows: every pitch class in every octave. */
  const ROWS: nat := 24

  /** The pitch-class names are distinct, non-empty and contain no digit. */
  lemma NotesSpelling()
    ensures |NOTES| == 12 && Distinct(NOTES)
    ensures forall i :: 0 <= i < |NOTES| ==> |NOTES[i]| >= 1 && NoDigits(NOTES[i])
  {
  }

  /** `midiNote(oct, i)`: the name of pitch class i in octave `oct`, e.g. "C#4". */
  function MidiNote(oct: nat, i: nat): (name: string)
    requires i < |NOTES|
    ensures |NOTES[i]| < |name|
  {
    NOTES[i] + NumberString(oct)
  }

  /** In a note name the pitch class comes first and the octave's first digit
      right after it, so `/\d/` finds the octave. */
  lemma MidiNoteFirstDigit(oct: nat, i: nat)
    requires i < |NOTES|
    ensures MidiNote(oct, i)[..|NOTES[i]|] == NOTES[i]
    ensures FirstDigitIndex(MidiNote(oct, i)) == |NOTES[i]|
  {
    NotesSpelling();
    FirstDigitAfterPrefix(NOTES[i], NumberString(oct));
  }

  /** A note name determines its octave and its pitch class. */
  lemma MidiNoteInjective(o1: nat, i1: nat, o2: nat, i2: nat)
    requires i1 < |NOTES| && i2 < |NOTES|
    ensures MidiNote(o1, i1) == MidiNote(o2, i2) <==> o1 == o2 && i1 == i2
  {
    if MidiNote(o1, i1) == MidiNote(o2, i2) {
      SameName(o1, i1, o2, i2);
    }
  }

  lemma SameName(o1: nat, i1: nat, o2: nat, i2: nat)
    requires i1 < |NOTES| && i2 < |NOTES|
    requires MidiNote(o1, i1) == MidiNote(o2, i2)
    ensures o1 == o2 && i1 == i2
  {
    NotesSpelling();
    var name := MidiNote(o1, i1);
    FirstDigitAfterPrefix(NOTES[i1], NumberString(o1));
    FirstDigitAfterPrefix(NOTES[i2], NumberString(o2));
    var n := |NOTES[i1]|;
    assert NOTES[i1] == name[..n] == NOTES[i2];
    assert NumberString(o1) == name[n..] == NumberString(o2);
    NumberStringInjective(o1, o2);
  }

  /** The p-th name pushed by the nested loops of `getAllNotes` (octave-major, ascending). */
  function PushedName(p: nat): string
    requires p < |OCTAVES| * |NOTES|
  {
    MidiNote(OCTAVES[p / |NOTES|], p % |NOTES|)
  }

  function Reversed<T>(s: seq<T>): (r: seq<T>)
    ensures |r| == |s|
    ensures forall k :: 0 <= k < |s| ==> r[k] == s[|s| - 1 - k]
  {
    seq(|s|, k requires 0 <= k < |s| => s[|s| - 1 - k])
  }

  /** `ALL_NOTES`: the pushed names, reversed so that the highest pitch is row 0. */
  function AllNotes(): (names: seq<string>)
    ensures |names| == ROWS
  {
    Reversed(seq(|OCTAVES| * |NOTES|, p requires 0 <= p < |OCTAVES| * |NOTES| => PushedName(p)))
  }

  /** `getAllNotes`: push every name octave by octave, then reverse. */
  method GetAllNotes() returns (notes: seq<string>)
    ensures notes == AllNotes()
  {
    var pushed: seq<string> := [];
    for o := 0 to |OCTAVES|
      invariant |pushed| == o * |NOTES|
      invariant forall p :: 0 <= p < |pushed| ==> pushed[p] == PushedName(p)
    {
      for i := 0 to |NOTES|
        invariant |pushed| == o * |NOTES| + i
        invariant forall p :: 0 <= p < |pushed| ==> pushed[p] == PushedName(p)
      {
        assert (o * |NOTES| + i) / |NOTES| == o && (o * |NOTES| + i) % |NOTES| == i;
        pushed := pushed + [MidiNote(OCTAVES[o], i)];
      }
    }
    notes := Reversed(pushed);
  }

  /** Row r of `ALL_NOTES` is pitch class (23 - r) mod 12 of octave 4 (lower half) or 5. */
  lemma AllNotesAt(r: nat)
    requires r < ROWS
    ensures AllNotes()[r] == MidiNote(OCTAVES[(ROWS - 1 - r) / 12], (ROWS - 1 - r) % 12)
  {
  }

  /** `ALL_NOTES` has 24 distinct names, from "B5" in row 0 down to "C4" in row 23. */
  lemma AllNotesFacts()
    ensures |AllNotes()| == ROWS && Distinct(AllNotes())
    ensures AllNotes()[0] == "B5" && AllNotes()[ROWS - 1] == "C4"
  {
    forall a, b | 0 <= a < b < ROWS
      ensures AllNotes()[a] != AllNotes()[b]
    {
      RowsDiffer(a, b);
    }
    AllNotesAt(0);
    AllNotesAt(ROWS - 1);
    assert NumberString(5) == "5" && NumberString(4) == "4";
  }

  lemma RowsDiffer(a: nat, b: nat)
    requires a < b < ROWS
    ensures AllNotes()[a] != AllNotes()[b]
  {
    var pa, pb := ROWS - 1 - a, ROWS - 1 - b;
    AllNotesAt(a);
    AllNotesAt(b);
    MidiNoteInjective(OCTAVES[pa / 12], pa % 12, OCTAVES[pb / 12], pb % 12);
    assert pa / 12 != pb / 12 || pa % 12 != pb % 12;
  }

  /** Row r's MIDI number, `Tone.Frequency(ALL_NOTES[r]).toMidi()`, with the
      conversion passed in as `toMidi`. */
  function Pitches(toMidi: string -> int): (p: seq<int>)
    ensures |p| == ROWS
    ensures forall r :: 0 <= r < ROWS ==> p[r] == toMidi(AllNotes()[r])
    ensures (forall a, b :: 0 <= a < b < ROWS ==> toMidi(AllNotes()[a]) != toMidi(AllNotes()[b])) ==> Distinct(p)
  {
    seq(ROWS, r requires 0 <= r < ROWS => toMidi(AllNotes()[r]))
  }

  /** The component's state, as for the drum grid; `toMidi` stands for Tone.js's
      name-to-MIDI conversion. */
  class Panel {
    const toMidi: string -> int
    var grid: Grid
    var isPlaying: bool
    var step: int
    var part: seq<StepEvent>

    /** The scheduled Part always comes from the current grid. */
    ghost predicate Valid()
      reads this
    {
      && IsGrid(grid, ROWS)
      && -1 <= step < STEPS
      && part == (if isPlaying then Schedule(grid, AllNotes()) else [])
    }

    /** Mounting: a 24 x 16 grid with every cell off, no step highlighted. */
    constructor (isPlaying: bool, toMidi: string -> int)
      ensures Valid()
      ensures this.toMidi == toMidi && this.isPlaying == isPlaying
      ensures grid == EmptyGrid(ROWS) && step == -1
    {
      this.toMidi := toMidi;
      grid := EmptyGrid(ROWS);
      this.isPlaying := isPlaying;
      step := -1;
      part := if isPlaying then Schedule(EmptyGrid(ROWS), AllNotes()) else [];
    }

    /** The playback effect: dispose the previous Part, reset the step, and
        build the 16 events from the current grid when playing. */
    method Replay()
      requires IsGrid(grid, ROWS)
      modifies this
      ensures Valid()
      ensures grid == old(grid) && isPlaying == old(isPlaying) && step == -1
    {
      part := [];
      step := -1;
      if isPlaying {
        part := Schedule(grid, AllNotes());
      }
    }

    /** The `isPlaying` prop changes: the effect re-runs only if its value differs. */
    method SetPlaying(playing: bool)
      requires Valid()
      modifies this
      ensures Valid()
      ensures grid == old(grid) && isPlaying == playing
      ensures step == (if playing == old(isPlaying) then old(step) else -1)
    {
      if playing != isPlaying {
        isPlaying := playing;
        Replay();
      }
    }

    /** A cell click: the grid with that one cell flipped becomes the new state. */
    method ToggleCell(row: nat, col: nat)
      requires Valid() && row < ROWS && col < STEPS
      modifies this
      ensures Valid()
      ensures grid == Toggle(old(grid), row, col) && isPlaying == old(isPlaying) && step == -1
    {
      grid := Toggle(grid, row, col);
      Replay();
    }

    /** The Part callback for event k: highlight step k and play the event's notes,
        which are the names of the rows whose cell in column k is on. */
    method OnStep(k: nat) returns (notes: seq<string>)
      requires Valid() && isPlaying && k < STEPS
      modifies this
      ensures Valid()
      ensures grid == old(grid) && isPlaying == old(isPlaying) && step == k
      ensures notes == part[k].names
      ensures forall r :: 0 <= r < ROWS ==> (AllNotes()[r] in notes <==> grid[r][k])
    {
      AllNotesFacts();
      ScheduleTriggers(grid, AllNotes(), k);
      notes := part[k].names;
      step := k;
    }

    /** `exportMidi`: a one-track file holding one note per active cell. */
    method ExportMidi() returns (file: MidiFile)
      requires Valid()
      ensures file == SingleTrack(ExportNotes(grid, Pitches(toMidi)))
    {
      var track := CollectNotes(grid, Pitches(toMidi));
      file := SingleTrack(track);
    }

    /** `importMidi`: with no file chosen nothing happens; otherwise the grid
        is replaced by one rebuilt from the first track. */
    method ImportMidi(selected: Option<MidiFile>)
      requires Valid()
      modifies this
      ensures Valid()
      ensures grid == (if selected.Some? then ImportGrid(FirstTrack(selected.value), Pitches(toMidi)) else old(grid))
      ensures isPlaying == old(isPlaying) && step == (if selected.Some? then -1 else old(step))
    {
      if selected.None? {
        return;
      }
      grid := FillGrid(FirstTrack(selected.value), Pitches(toMidi));
      Replay();
    }
  }

  /** The per-step filter: event k lists the name of row r exactly when cell (r, k) is on,
      in row order. */
  lemma EventNotes(g: Grid, k: nat)
    requires IsGrid(g, ROWS) && k < STEPS
    ensures forall r :: 0 <= r < ROWS ==> (AllNotes()[r] in Schedule(g, AllNotes())[k].names <==> g[r][k])
    ensures Schedule(g, AllNotes())[k].names == LabelsOf(AllNotes(), ColumnCells(g, k, ROWS))
  {
    AllNotesFacts();
    ScheduleTriggers(g, AllNotes(), k);
  }

  /** If the name-to-MIDI conversion tells the 24 names apart, exporting a
      pattern and importing the file gives back the same pattern. */
  lemma PianoRoundTrip(g: Grid, toMidi: string -> int)
    requires IsGrid(g, ROWS)
    requires forall a, b :: 0 <= a < b < ROWS ==> toMidi(AllNotes()[a]) != toMidi(AllNotes()[b])
    ensures ImportGrid(FirstTrack(SingleTrack(ExportNotes(g, Pitches(toMidi)))), Pitches(toMidi)) == g
  {
    RoundTrip(g, Pitches(toMidi));
  }
}
