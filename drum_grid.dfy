/** The drum step sequencer: four percussion voices by sixteen steps. */
module DrumGrid {
  import opened MidiTrack
  import opened StepGrid

  /** A voice of the kit and its General MIDI percussion key number. */
  datatype Drum = Drum(name: string, midi: int)

  const DRUMS: seq<Drum> := [Drum("Kick", 36), Drum("Snare", 38), Drum("HiHat", 42), Drum("Clap", 39)]

  /** The row -> MIDI number table the export writes and the import searches. */
  function Pitches(): (p: seq<int>)
    ensures |p| == |DRUMS| && Distinct(p)
    ensures forall i :: 0 <= i < |DRUMS| ==> p[i] == DRUMS[i].midi
  {
    seq(|DRUMS|, i requires 0 <= i < |DRUMS| => DRUMS[i].midi)
  }

  /** The voice names, which select the synth each Part event triggers. */
  function Names(): (n: seq<string>)
    ensures |n| == |DRUMS| && Distinct(n)
    ensures forall i :: 0 <= i < |DRUMS| ==> n[i] == DRUMS[i].name
  {
    seq(|DRUMS|, i requires 0 <= i < |DRUMS| => DRUMS[i].name)
  }

  /** The component's state: the grid, the `isPlaying` prop, the highlighted
      step (-1 for none) and the events of the Part currently scheduled
      (none while stopped). */
  class Panel {
    var grid: Grid
    var isPlaying: bool
    var step: int
    var part: seq<StepEvent>

    /** The scheduled Part always comes from the current grid: every change of
        grid or of `isPlaying` tears the old Part down and builds a new one. */
    ghost predicate Valid()
      reads this
    {
      && IsGrid(grid, |DRUMS|)
      && -1 <= step < STEPS
      && part == (if isPlaying then Schedule(grid, Names()) else [])
    }

    /** Mounting: a 4 x 16 grid with every cell off, no step highlighted. */
    constructor (isPlaying: bool)
      ensures Valid()
      ensures this.isPlaying == isPlaying && grid == EmptyGrid(|DRUMS|) && step == -1
    {
      grid := EmptyGrid(|DRUMS|);
      this.isPlaying := isPlaying;
      step := -1;
      part := if isPlaying then Schedule(EmptyGrid(|DRUMS|), Names()) else [];
    }

    /** The playback effect, run after `grid` or `isPlaying` changed: the
        previous Part is disposed and the step reset to -1, then a Part is
        built from the current grid when playing. */
    method Replay()
      requires IsGrid(grid, |DRUMS|)
      modifies this
      ensures Valid()
      ensures grid == old(grid) && isPlaying == old(isPlaying) && step == -1
    {
      part := [];
      step := -1;
      if isPlaying {
        part := Schedule(grid, Names());
      }
    }

    /** The `isPlaying` prop changes: the effect re-runs only if its value differs. */
    method SetPlaying(playing: bool)
      requires Valid()
      modifies this
      ensures Valid()
      ensures grid == old(grid) && isPlaying == playing
      ensures step == (if playing == old(isPlaying) then old(step) else -1)
    {
      if playing != isPlaying {
        isPlaying := playing;
        Replay();
      }
    }

    /** A cell click: the grid with that one cell flipped becomes the new state. */
    method ToggleCell(row: nat, col: nat)
      requires Valid() && row < |DRUMS| && col < STEPS
      modifies this
      ensures Valid()
      ensures grid == Toggle(old(grid), row, col) && isPlaying == old(isPlaying) && step == -1
    {
      grid := Toggle(grid, row, col);
      Replay();
    }

    /** The Part callback for event k: highlight step k and trigger every voice
        whose cell in column k is on. */
    method OnStep(k: nat) returns (voices: seq<string>)
      requires Valid() && isPlaying && k < STEPS
      modifies this
      ensures Valid()
      ensures grid == old(grid) && isPlaying == old(isPlaying) && step == k
      ensures voices == part[k].names
      ensures forall i :: 0 <= i < |DRUMS| ==> (DRUMS[i].name in voices <==> grid[i][k])
    {
      var snapshot := grid;
      voices := [];
      for i := 0 to |DRUMS|
        invariant voices == LabelsOf(Names(), ColumnCells(snapshot, k, i))
        modifies {}
      {
        LabelsOfNextRow(snapshot, Names(), k, i);
        if snapshot[i][k] {
          voices := voices + [DRUMS[i].name];
        }
      }
      step := k;
      ScheduleTriggers(snapshot, Names(), k);
    }

    /** `exportMidi`: a one-track file holding one note per active cell. */
    method ExportMidi() returns (file: MidiFile)
      requires Valid()
      ensures file == SingleTrack(ExportNotes(grid, Pitches()))
    {
      var track := CollectNotes(grid, Pitches());
      file := SingleTrack(track);
    }

    /** `importMidi`: with no file chosen nothing happens; otherwise the grid
        is replaced by one rebuilt from the first track. */
    method ImportMidi(selected: Option<MidiFile>)
      requires Valid()
      modifies this
      ensures Valid()
      ensures grid == (if selected.Some? then ImportGrid(FirstTrack(selected.value), Pitches()) else old(grid))
      ensures isPlaying == old(isPlaying) && step == (if selected.Some? then -1 else old(step))
    {
      if selected.None? {
        return;
      }
      grid := FillGrid(FirstTrack(selected.value), Pitches());
      Replay();
    }
  }

  /** Exporting a drum pattern and importing the file gives back the same pattern. */
  lemma DrumRoundTrip(g: Grid)
    requires IsGrid(g, |DRUMS|)
    ensures ImportGrid(FirstTrack(SingleTrack(ExportNotes(g, Pitches()))), Pitches()) == g
  {
    RoundTrip(g, Pitches());
  }

  /** A kick at time 100 (step 400, far past the bar) is dropped on import. */
  lemma LateNoteDropped(notes: seq<Note>, duration: real)
    ensures ImportGrid(notes + [Note(36, 100.0, duration)], Pitches()) == ImportGrid(notes, Pitches())
  {
    ImportAppend(notes, Note(36, 100.0, duration), Pitches());
  }

  /** Only the kick on the first step: export then import switches exactly that cell on. */
  lemma KickOnlyRoundTrip()
    ensures var g := Toggle(EmptyGrid(|DRUMS|), 0, 0);
      forall r, s :: 0 <= r < |DRUMS| && 0 <= s < STEPS ==>
        (ImportGrid(ExportNotes(g, Pitches()), Pitches())[r][s] <==> r == 0 && s == 0)
  {
    RoundTrip(Toggle(EmptyGrid(|DRUMS|), 0, 0), Pitches());
  }
}
