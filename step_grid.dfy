/** The step-grid sequencer shared by the drum grid and the piano roll: a
    boolean matrix whose rows are voices or pitches and whose 16 columns are
    sixteenth-note steps, its single mutation (toggle one cell), the playback
    events derived from it, and its conversion to and from a MIDI track.
    The two panels differ only in their row labels and in the MIDI number of
    each row, which are parameters here (`labels`, `pitches`). */
module StepGrid {
  import opened MidiTrack

  /** Sixteen sixteenth-note steps per bar. */
  const STEPS: nat := 16

  /** Steps are 0.25 s apart in the exported file. */
  const STEP_LENGTH: real := 0.25

  type Grid = seq<seq<bool>>

  /** A cell of the grid: its row (voice or pitch) and its column (step). */
  datatype Cell = Cell(row: nat, step: nat)

  predicate IsGrid(g: Grid, rows: nat)
  {
    |g| == rows && forall r :: 0 <= r < |g| ==> |g[r]| == STEPS
  }

  predicate Distinct<T(==)>(s: seq<T>)
  {
    forall i, j :: 0 <= i < j < |s| ==> s[i] != s[j]
  }

  /** Step-major order: earlier step first, then lower row. */
  predicate Before(a: Cell, b: Cell)
  {
    a.step < b.step || (a.step == b.step && a.row < b.row)
  }

  /** The initial grid, and the grid an import starts from: every cell off. */
  function EmptyGrid(rows: nat): (g: Grid)
    ensures IsGrid(g, rows)
    ensures forall r, s :: 0 <= r < rows && 0 <= s < STEPS ==> !g[r][s]
  {
    seq(rows, _ => seq(STEPS, _ => false))
  }

  /** The cell click handler: a copy of the grid with one cell flipped. */
  function Toggle(g: Grid, row: nat, col: nat): (t: Grid)
    requires IsGrid(g, |g|) && row < |g| && col < STEPS
    ensures IsGrid(t, |g|)
    ensures t[row][col] == !g[row][col]
    ensures forall r, s :: 0 <= r < |g| && 0 <= s < STEPS && (r != row || s != col) ==> t[r][s] == g[r][s]
  {
    g[row := g[row][col := !g[row][col]]]
  }

  /** Clicking the same cell twice gives back the grid one started from. */
  lemma ToggleTwice(g: Grid, row: nat, col: nat)
    requires IsGrid(g, |g|) && row < |g| && col < STEPS
    ensures Toggle(Toggle(g, row, col), row, col) == g
  {
    var t := Toggle(Toggle(g, row, col), row, col);
    assert forall r :: 0 <= r < |g| ==> t[r] == g[r];
  }

  /** JavaScript's `Math.round`: the nearest integer, halves going up
      (so 2.5 rounds to 3 and -0.5 to 0). */
  function JsRound(x: real): (n: int)
    ensures n as real - 0.5 <= x < n as real + 0.5
  {
    (x + 0.5).Floor
  }

  /** Dividing an exported step time by the step length rounds back to the step. */
  lemma JsRoundStepTime(s: int)
    ensures JsRound((s as real * STEP_LENGTH) / STEP_LENGTH) == s
  {
  }

  /** The active cells of column `col` among rows below `n`, by ascending row. */
  function ColumnCells(g: Grid, col: nat, n: nat): (cells: seq<Cell>)
    requires IsGrid(g, |g|) && col < STEPS && n <= |g|
    ensures forall c :: c in cells <==> c.step == col && c.row < n && g[c.row][col]
    ensures forall j, k :: 0 <= j < k < |cells| ==> cells[j].row < cells[k].row
  {
    if n == 0 then []
    else ColumnCells(g, col, n - 1) + (if g[n - 1][col] then [Cell(n - 1, col)] else [])
  }

  predicate StepMajor(cells: seq<Cell>)
  {
    forall j, k :: 0 <= j < k < |cells| ==> Before(cells[j], cells[k])
  }

  /** The active cells of the steps below `m`, step by step and, within a step, by row. */
  function ActiveCells(g: Grid, m: nat): (cells: seq<Cell>)
    requires IsGrid(g, |g|) && m <= STEPS
    ensures forall c :: c in cells <==> c.row < |g| && c.step < m && g[c.row][c.step]
    ensures StepMajor(cells)
  {
    if m == 0 then []
    else
      var prefix, column := ActiveCells(g, m - 1), ColumnCells(g, m - 1, |g|);
      AppendColumn(g, m, prefix, column);
      prefix + column
  }

  /** The active cells of the first m - 1 steps followed by those of step m - 1
      are the active cells of the first m steps, still in step-major order. */
  lemma AppendColumn(g: Grid, m: nat, prefix: seq<Cell>, column: seq<Cell>)
    requires IsGrid(g, |g|) && 0 < m <= STEPS
    requires forall c :: c in prefix <==> c.row < |g| && c.step < m - 1 && g[c.row][c.step]
    requires StepMajor(prefix)
    requires forall c :: c in column <==> c.step == m - 1 && c.row < |g| && g[c.row][m - 1]
    requires forall j, k :: 0 <= j < k < |column| ==> column[j].row < column[k].row
    ensures forall c :: c in prefix + column <==> c.row < |g| && c.step < m && g[c.row][c.step]
    ensures StepMajor(prefix + column)
  {
  }

  // ---------------------------------------------------------------------------
  // Playback: the events of the Tone.Part built from a grid snapshot

  /** One Part event: its transport time (in sixteenths, `0:0:k`), its step,
      and the labels of the rows it triggers. */
  datatype StepEvent = StepEvent(time: nat, step: nat, names: seq<string>)

  function LabelsOf(labels: seq<string>, cells: seq<Cell>): seq<string>
    requires forall j :: 0 <= j < |cells| ==> cells[j].row < |labels|
  {
    seq(|cells|, j requires 0 <= j < |cells| => labels[cells[j].row])
  }

  /** Scanning one more row of a column adds that row's label when its cell is on. */
  lemma LabelsOfNextRow(g: Grid, labels: seq<string>, col: nat, i: nat)
    requires IsGrid(g, |labels|) && col < STEPS && i < |g|
    ensures LabelsOf(labels, ColumnCells(g, col, i + 1))
         == LabelsOf(labels, ColumnCells(g, col, i)) + (if g[i][col] then [labels[i]] else [])
  {
  }

  /** The 16 Part events of one playback run; event k triggers the rows active in column k. */
  function Schedule(g: Grid, labels: seq<string>): (events: seq<StepEvent>)
    requires IsGrid(g, |labels|)
    ensures |events| == STEPS
    ensures forall k :: 0 <= k < STEPS ==> events[k].time == k && events[k].step == k
  {
    seq(STEPS, k requires 0 <= k < STEPS => StepEvent(k, k, LabelsOf(labels, ColumnCells(g, k, |g|))))
  }

  /** With distinct row labels, event k triggers row r exactly when cell (r, k) is on,
      and the triggered labels follow the row order. */
  lemma ScheduleTriggers(g: Grid, labels: seq<string>, k: nat)
    requires IsGrid(g, |labels|) && Distinct(labels) && k < STEPS
    ensures forall r :: 0 <= r < |labels| ==> (labels[r] in Schedule(g, labels)[k].names <==> g[r][k])
    ensures Schedule(g, labels)[k].names == LabelsOf(labels, ColumnCells(g, k, |g|))
  {
    var cells := ColumnCells(g, k, |g|);
    var names := Schedule(g, labels)[k].names;
    forall r | 0 <= r < |labels|
      ensures labels[r] in names <==> g[r][k]
    {
      if g[r][k] {
        var j :| 0 <= j < |cells| && cells[j] == Cell(r, k);
        assert names[j] == labels[r];
      }
      if labels[r] in names {
        var j :| 0 <= j < |names| && names[j] == labels[r];
        assert labels[cells[j].row] == labels[r];
        assert cells[j].row == r;
      }
    }
  }

  // ---------------------------------------------------------------------------
  // Export: one note per active cell

  /** The note exported for a cell: the row's MIDI number, at the step's time, 0.2 s long. */
  function CellNote(pitches: seq<int>, c: Cell): Note
    requires c.row < |pitches|
  {
    Note(pitches[c.row], c.step as real * STEP_LENGTH, NOTE_DURATION)
  }

  function NotesOf(pitches: seq<int>, cells: seq<Cell>): seq<Note>
    requires forall j :: 0 <= j < |cells| ==> cells[j].row < |pitches|
  {
    seq(|cells|, j requires 0 <= j < |cells| => CellNote(pitches, cells[j]))
  }

  lemma NotesOfConcat(pitches: seq<int>, a: seq<Cell>, b: seq<Cell>)
    requires forall j :: 0 <= j < |a| ==> a[j].row < |pitches|
    requires forall j :: 0 <= j < |b| ==> b[j].row < |pitches|
    ensures NotesOf(pitches, a + b) == NotesOf(pitches, a) + NotesOf(pitches, b)
  {
  }

  /** The track an export writes: the active cells' notes, step-major then row order. */
  function ExportNotes(g: Grid, pitches: seq<int>): (track: seq<Note>)
    requires IsGrid(g, |pitches|)
    ensures forall j :: 0 <= j < |track| ==> track[j].midi in pitches && track[j].duration == NOTE_DURATION
    ensures forall j :: 0 <= j < |track| ==> 0.0 <= track[j].time <= (STEPS - 1) as real * STEP_LENGTH
  {
    NotesOf(pitches, ActiveCells(g, STEPS))
  }

  /** A note is exported exactly when it is the note of an active cell. */
  lemma ExportMembership(g: Grid, pitches: seq<int>, n: Note)
    requires IsGrid(g, |pitches|)
    ensures n in ExportNotes(g, pitches) <==>
      exists r, s :: 0 <= r < |pitches| && 0 <= s < STEPS && g[r][s] && n == CellNote(pitches, Cell(r, s))
  {
    if n in ExportNotes(g, pitches) {
      var c := ExportedFrom(g, pitches, n);
      assert g[c.row][c.step] && n == CellNote(pitches, Cell(c.row, c.step));
    }
    if exists r, s :: 0 <= r < |pitches| && 0 <= s < STEPS && g[r][s] && n == CellNote(pitches, Cell(r, s)) {
      var r, s :| 0 <= r < |pitches| && 0 <= s < STEPS && g[r][s] && n == CellNote(pitches, Cell(r, s));
      CellExported(g, pitches, Cell(r, s));
    }
  }

  /** An exported note comes from an active cell. */
  lemma ExportedFrom(g: Grid, pitches: seq<int>, n: Note) returns (c: Cell)
    requires IsGrid(g, |pitches|) && n in ExportNotes(g, pitches)
    ensures c.row < |pitches| && c.step < STEPS && g[c.row][c.step] && n == CellNote(pitches, c)
  {
    var cells := ActiveCells(g, STEPS);
    var j :| 0 <= j < |cells| && NotesOf(pitches, cells)[j] == n;
    c := cells[j];
    assert c in cells;
  }

  /** An active cell's note is exported. */
  lemma CellExported(g: Grid, pitches: seq<int>, c: Cell)
    requires IsGrid(g, |pitches|) && c.row < |pitches| && c.step < STEPS && g[c.row][c.step]
    ensures CellNote(pitches, c) in ExportNotes(g, pitches)
  {
    var cells := ActiveCells(g, STEPS);
    assert c in cells;
    var j :| 0 <= j < |cells| && cells[j] == c;
    assert NotesOf(pitches, cells)[j] == CellNote(pitches, c);
  }

  /** The exported notes come in order of time, and every one lasts 0.2 s. */
  lemma ExportOrdered(g: Grid, pitches: seq<int>)
    requires IsGrid(g, |pitches|)
    ensures forall j, k :: 0 <= j < k < |ExportNotes(g, pitches)| ==>
      ExportNotes(g, pitches)[j].time <= ExportNotes(g, pitches)[k].time
    ensures forall j :: 0 <= j < |ExportNotes(g, pitches)| ==> ExportNotes(g, pitches)[j].duration == NOTE_DURATION
  {
  }

  /** Every exported time, a whole number of sixteenths of 0.25 s, falls on a
      tick of the file's 960-ticks-per-second clock, so the file stores it exactly. */
  lemma ExportTimesOnTicks(g: Grid, pitches: seq<int>)
    requires IsGrid(g, |pitches|)
    ensures forall j :: 0 <= j < |ExportNotes(g, pitches)| ==> OnTick(ExportNotes(g, pitches)[j].time)
  {
    var cells := ActiveCells(g, STEPS);
    forall j | 0 <= j < |cells|
      ensures OnTick(NotesOf(pitches, cells)[j].time)
    {
      var s := cells[j].step;
      assert NotesOf(pitches, cells)[j].time * TICKS_PER_SECOND as real == (240 * s) as real;
    }
  }

  /** `exportMidi`: nested loops over steps and rows appending to the track;
      the notes of one step are gathered and then appended together. */
  method CollectNotes(g: Grid, pitches: seq<int>) returns (track: seq<Note>)
    requires IsGrid(g, |pitches|)
    ensures track == ExportNotes(g, pitches)
  {
    track := [];
    for step := 0 to STEPS
      invariant track == NotesOf(pitches, ActiveCells(g, step))
    {
      var column: seq<Note> := [];
      for i := 0 to |pitches|
        invariant column == NotesOf(pitches, ColumnCells(g, step, i))
      {
        NextRowNotes(g, pitches, step, i);
        if g[i][step] {
          column := column + [CellNote(pitches, Cell(i, step))];
        }
      }
      NextStepNotes(g, pitches, step);
      track := track + column;
    }
  }

  /** The inner export loop's step: row i adds its note when its cell is on. */
  lemma NextRowNotes(g: Grid, pitches: seq<int>, step: nat, i: nat)
    requires IsGrid(g, |pitches|) && step < STEPS && i < |pitches|
    ensures g[i][step] ==>
      NotesOf(pitches, ColumnCells(g, step, i + 1)) == NotesOf(pitches, ColumnCells(g, step, i)) + [CellNote(pitches, Cell(i, step))]
    ensures !g[i][step] ==> ColumnCells(g, step, i + 1) == ColumnCells(g, step, i)
  {
  }

  /** The outer export loop's step: the notes of one more column follow. */
  lemma NextStepNotes(g: Grid, pitches: seq<int>, step: nat)
    requires IsGrid(g, |pitches|) && step < STEPS
    ensures NotesOf(pitches, ActiveCells(g, step + 1))
         == NotesOf(pitches, ActiveCells(g, step)) + NotesOf(pitches, ColumnCells(g, step, |pitches|))
  {
    NotesOfConcat(pitches, ActiveCells(g, step), ColumnCells(g, step, |pitches|));
  }

  // ---------------------------------------------------------------------------
  // Import: rebuild a fresh grid from the notes of a track

  /** `Array.prototype.findIndex` with an equality test: the first position
      holding `x`, or -1 when there is none. */
  function FindIndex<T(==)>(items: seq<T>, x: T): (i: int)
    ensures -1 <= i < |items|
    ensures 0 <= i ==> items[i] == x && forall j :: 0 <= j < i ==> items[j] != x
    ensures i < 0 ==> x !in items
  {
    if |items| == 0 then -1
    else if items[0] == x then 0
    else
      var k := FindIndex(items[1..], x);
      if k < 0 then -1 else k + 1
  }

  /** In a sequence without repeats, the search finds each element at its own position. */
  lemma FindIndexOfRow<T>(items: seq<T>, r: nat)
    requires Distinct(items) && r < |items|
    ensures FindIndex(items, items[r]) == r
  {
  }

  /** The cell an imported note resolves to: the first row with its MIDI number
      and the step `Math.round(time / 0.25)`. */
  predicate Lands(n: Note, pitches: seq<int>, c: Cell)
    ensures Lands(n, pitches, c) ==> c.row < |pitches| && pitches[c.row] == n.midi
    ensures Lands(n, pitches, c) ==> forall r :: 0 <= r < c.row ==> pitches[r] != n.midi
  {
    FindIndex(pitches, n.midi) == c.row && JsRound(n.time / STEP_LENGTH) == c.step
  }

  /** Some note of the track resolves to cell `c`. */
  predicate Hit(notes: seq<Note>, pitches: seq<int>, c: Cell)
    ensures Hit(notes, pitches, c) ==> c.row < |pitches| && exists n :: n in notes && n.midi == pitches[c.row]
  {
    exists n :: n in notes && Lands(n, pitches, c)
  }

  /** `importMidi`'s grid: a cell is on exactly when some note of the track resolves to it. */
  function ImportGrid(notes: seq<Note>, pitches: seq<int>): (g: Grid)
    ensures IsGrid(g, |pitches|)
  {
    seq(|pitches|, r requires 0 <= r < |pitches| =>
      seq(STEPS, s requires 0 <= s < STEPS => Hit(notes, pitches, Cell(r, s))))
  }

  /** `newGrid[i][step] = true`: switch one cell on. */
  function MarkCell(g: Grid, row: nat, col: nat): (m: Grid)
    requires row < |g| && col < |g[row]|
    ensures |m| == |g| && forall r :: 0 <= r < |g| ==> |m[r]| == |g[r]|
    ensures m[row][col]
    ensures forall r, s :: 0 <= r < |g| && 0 <= s < |g[r]| && (r != row || s != col) ==> m[r][s] == g[r][s]
  {
    g[row := g[row][col := true]]
  }

  lemma HitAppend(notes: seq<Note>, n: Note, pitches: seq<int>, c: Cell)
    ensures Hit(notes + [n], pitches, c) <==> Hit(notes, pitches, c) || Lands(n, pitches, c)
  {
  }

  /** One step of the import loop: a note whose MIDI number matches no row, or
      whose rounded step is outside [0, 16), is dropped; any other note switches
      its cell on, and no cell is ever switched off. */
  lemma ImportAppend(notes: seq<Note>, n: Note, pitches: seq<int>)
    ensures ImportGrid(notes + [n], pitches) ==
      var r, s := FindIndex(pitches, n.midi), JsRound(n.time / STEP_LENGTH);
      if 0 <= r && 0 <= s < STEPS then MarkCell(ImportGrid(notes, pitches), r, s)
      else ImportGrid(notes, pitches)
  {
    var before, after := ImportGrid(notes, pitches), ImportGrid(notes + [n], pitches);
    var r, s := FindIndex(pitches, n.midi), JsRound(n.time / STEP_LENGTH);
    var expected := if 0 <= r && 0 <= s < STEPS then MarkCell(before, r, s) else before;
    forall i, t | 0 <= i < |pitches| && 0 <= t < STEPS
      ensures after[i][t] == expected[i][t]
    {
      HitAppend(notes, n, pitches, Cell(i, t));
    }
    assert forall i :: 0 <= i < |pitches| ==> after[i] == expected[i];
  }

  /** Importing the same note twice leaves the grid as importing it once. */
  lemma ImportDuplicate(notes: seq<Note>, n: Note, pitches: seq<int>)
    ensures ImportGrid(notes + [n, n], pitches) == ImportGrid(notes + [n], pitches)
  {
    ImportAppend(notes + [n], n, pitches);
    assert notes + [n, n] == (notes + [n]) + [n];
    var g := ImportGrid(notes + [n], pitches);
    var r, s := FindIndex(pitches, n.midi), JsRound(n.time / STEP_LENGTH);
    if 0 <= r && 0 <= s < STEPS {
      HitAppend(notes, n, pitches, Cell(r, s));
      assert g[r][s];
      assert MarkCell(g, r, s)[r] == g[r];
    }
  }

  /** The imported grid depends only on which notes the track holds, not on their order. */
  lemma ImportOrderFree(a: seq<Note>, b: seq<Note>, pitches: seq<int>)
    requires forall n :: n in a <==> n in b
    ensures ImportGrid(a, pitches) == ImportGrid(b, pitches)
  {
    var ga, gb := ImportGrid(a, pitches), ImportGrid(b, pitches);
    forall r, s | 0 <= r < |pitches| && 0 <= s < STEPS
      ensures ga[r][s] == gb[r][s]
    {
      if Hit(a, pitches, Cell(r, s)) {
        var n :| n in a && Lands(n, pitches, Cell(r, s));
        assert n in b;
      }
      if Hit(b, pitches, Cell(r, s)) {
        var n :| n in b && Lands(n, pitches, Cell(r, s));
        assert n in a;
      }
    }
    assert forall r :: 0 <= r < |pitches| ==> ga[r] == gb[r];
  }

  /** Export followed by import gives back the grid, when rows have distinct MIDI numbers. */
  lemma RoundTrip(g: Grid, pitches: seq<int>)
    requires IsGrid(g, |pitches|) && Distinct(pitches)
    ensures ImportGrid(ExportNotes(g, pitches), pitches) == g
  {
    var h := ImportGrid(ExportNotes(g, pitches), pitches);
    forall r, s | 0 <= r < |pitches| && 0 <= s < STEPS
      ensures h[r][s] == g[r][s]
    {
      CellRoundTrip(g, pitches, r, s);
    }
    assert forall r :: 0 <= r < |pitches| ==> h[r] == g[r];
  }

  /** A cell is hit by the exported track exactly when it is on. */
  lemma CellRoundTrip(g: Grid, pitches: seq<int>, r: nat, s: nat)
    requires IsGrid(g, |pitches|) && Distinct(pitches) && r < |pitches| && s < STEPS
    ensures Hit(ExportNotes(g, pitches), pitches, Cell(r, s)) == g[r][s]
  {
    var track := ExportNotes(g, pitches);
    if g[r][s] {
      var n := CellNote(pitches, Cell(r, s));
      CellExported(g, pitches, Cell(r, s));
      FindIndexOfRow(pitches, r);
      JsRoundStepTime(s);
      assert Lands(n, pitches, Cell(r, s));
    }
    if Hit(track, pitches, Cell(r, s)) {
      var n :| n in track && Lands(n, pitches, Cell(r, s));
      var c := ExportedFrom(g, pitches, n);
      FindIndexOfRow(pitches, c.row);
      JsRoundStepTime(c.step);
    }
  }

  /** `importMidi`: a fresh all-off grid (a 2-D array written in place), one
      note at a time, then handed over as the new grid state. */
  method FillGrid(notes: seq<Note>, pitches: seq<int>) returns (g: Grid)
    ensures g == ImportGrid(notes, pitches)
  {
    var newGrid := new bool[|pitches|, STEPS]((_, _) => false);
    for k := 0 to |notes|
      invariant forall r, s :: 0 <= r < |pitches| && 0 <= s < STEPS ==>
        newGrid[r, s] == Hit(notes[..k], pitches, Cell(r, s))
    {
      var note := notes[k];
      var i := FindIndex(pitches, note.midi);
      var step := JsRound(note.time / STEP_LENGTH);
      if i >= 0 && step >= 0 && step < STEPS {
        newGrid[i, step] := true;
      }
      assert notes[..k + 1] == notes[..k] + [note];
      forall r, s | 0 <= r < |pitches| && 0 <= s < STEPS
        ensures newGrid[r, s] == Hit(notes[..k + 1], pitches, Cell(r, s))
      {
        HitAppend(notes[..k], note, pitches, Cell(r, s));
      }
    }
    assert notes[..|notes|] == notes;
    g := seq(|pitches|, r requires 0 <= r < |pitches| reads newGrid =>
           seq(STEPS, s requires 0 <= s < STEPS reads newGrid => newGrid[r, s]));
    assert forall r :: 0 <= r < |pitches| ==> g[r] == ImportGrid(notes, pitches)[r];
  }
}
