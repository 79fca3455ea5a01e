/** The name <-> MIDI number conversion of scientific pitch notation (C4 = 60),
    which the components obtain from Tone.js's `Frequency`. The components take
    the conversion as a parameter; here it is written out for the names they
    use, to show that the round trips proved under a hypothesis about it hold
    for the standard numbering. */
module PitchNumbers {
  import opened JsText
  import opened StepGrid
  import opened MidiTrack
  import PianoRoll
  import KeyboardSynth

  function DigitValue(c: char): int
  {
    c as int - '0' as int
  }

  /** The number of a name "<pitch class><octave digit>", 12 * (octave + 1) +
      pitch class; -1 for any other string. */
  function NameToMidi(name: string): (m: int)
    ensures m == -1 || 12 <= m < 132
  {
    if |name| >= 2 && IsDigit(name[|name| - 1]) then
      var pc := FindIndex(PianoRoll.NOTES, name[..|name| - 1]);
      if pc < 0 then -1 else 12 * (DigitValue(name[|name| - 1]) + 1) + pc
    else -1
  }

  /** The name of a number in octaves 0 to 9; "" outside them. */
  function MidiToName(m: int): (name: string)
    ensures 12 <= m < 132 <==> name != ""
  {
    if 12 <= m < 132 then PianoRoll.MidiNote(m / 12 - 1, m % 12) else ""
  }

  /** A note name of octave 0 to 9 numbers as 12 * (octave + 1) + pitch class. */
  lemma NameToMidiOfNote(oct: nat, i: nat)
    requires oct < 10 && i < |PianoRoll.NOTES|
    ensures NameToMidi(PianoRoll.MidiNote(oct, i)) == 12 * (oct + 1) + i
  {
    PianoRoll.NotesSpelling();
    var name := PianoRoll.MidiNote(oct, i);
    assert name[..|name| - 1] == PianoRoll.NOTES[i];
    assert name[|name| - 1] == Digit(oct);
    FindIndexOfRow(PianoRoll.NOTES, i);
  }

  /** Only note names get a number: every other string numbers as -1. */
  lemma NameToMidiOnlyNames(name: string)
    requires NameToMidi(name) != -1
    ensures exists oct: nat, i: nat :: oct < 10 && i < |PianoRoll.NOTES| && name == PianoRoll.MidiNote(oct, i)
  {
    var oct, i := NoteOfName(name);
  }

  /** The octave and pitch class a numbered name is spelled from. */
  lemma NoteOfName(name: string) returns (oct: nat, i: nat)
    requires NameToMidi(name) != -1
    ensures oct < 10 && i < |PianoRoll.NOTES| && name == PianoRoll.MidiNote(oct, i)
  {
    var n := |name|;
    assert n >= 2 && IsDigit(name[n - 1]);
    var pc := FindIndex(PianoRoll.NOTES, name[..n - 1]);
    assert 0 <= pc && PianoRoll.NOTES[pc] == name[..n - 1];
    i := pc;
    oct := DigitValue(name[n - 1]);
    DigitOfValue(name[n - 1]);
    SplitLast(name);
    OneDigitName(oct, i);
  }

  lemma DigitOfValue(c: char)
    requires IsDigit(c)
    ensures 0 <= DigitValue(c) < 10 && Digit(DigitValue(c)) == c
  {
  }

  lemma SplitLast(s: string)
    requires |s| >= 1
    ensures s == s[..|s| - 1] + [s[|s| - 1]]
  {
  }

  /** A name of octave 0 to 9 is the pitch-class name followed by one digit. */
  lemma OneDigitName(oct: nat, i: nat)
    requires oct < 10 && i < |PianoRoll.NOTES|
    ensures PianoRoll.MidiNote(oct, i) == PianoRoll.NOTES[i] + [Digit(oct)]
  {
  }

  /** Naming the number of a note name gives back the name. */
  lemma NameRoundTrip(oct: nat, i: nat)
    requires oct < 10 && i < |PianoRoll.NOTES|
    ensures MidiToName(NameToMidi(PianoRoll.MidiNote(oct, i))) == PianoRoll.MidiNote(oct, i)
  {
    NameToMidiOfNote(oct, i);
    var m := 12 * (oct + 1) + i;
    assert m / 12 - 1 == oct && m % 12 == i;
  }

  /** Numbering the name of a number in octaves 0 to 9 gives back the number. */
  lemma NumberRoundTrip(m: int)
    requires 12 <= m < 132
    ensures NameToMidi(MidiToName(m)) == m
  {
    NameToMidiOfNote(m / 12 - 1, m % 12);
  }

  /** Under the standard numbering the piano roll's rows run from B5 = 83 in
      row 0 down to C4 = 60 in row 23. */
  lemma RowNumbers(r: nat)
    requires r < PianoRoll.ROWS
    ensures PianoRoll.Pitches(NameToMidi)[r] == 83 - r
  {
    var p := PianoRoll.ROWS - 1 - r;
    RowOctave(r);
    NameToMidiOfNote(4 + p / 12, p % 12);
  }

  /** Row r holds pitch class p mod 12 of octave 4 + p / 12, where p = 23 - r. */
  lemma RowOctave(r: nat)
    requires r < PianoRoll.ROWS
    ensures var p := PianoRoll.ROWS - 1 - r;
      PianoRoll.AllNotes()[r] == PianoRoll.MidiNote(4 + p / 12, p % 12)
  {
    PianoRoll.AllNotesAt(r);
    var p := PianoRoll.ROWS - 1 - r;
    assert PianoRoll.OCTAVES[p / 12] == 4 + p / 12;
  }

  /** The piano roll's export/import round trip holds for the standard numbering. */
  lemma StandardPianoRoundTrip(g: Grid)
    requires IsGrid(g, PianoRoll.ROWS)
    ensures var pitches := PianoRoll.Pitches(NameToMidi);
      ImportGrid(FirstTrack(SingleTrack(ExportNotes(g, pitches))), pitches) == g
  {
    forall a, b | 0 <= a < b < PianoRoll.ROWS
      ensures NameToMidi(PianoRoll.AllNotes()[a]) != NameToMidi(PianoRoll.AllNotes()[b])
    {
      RowNumbers(a);
      RowNumbers(b);
    }
    PianoRoll.PianoRoundTrip(g, NameToMidi);
  }

  /** A take played on the keyboard (so in time order) survives export and
      import with the standard numbering, rebased to start at 0. */
  lemma StandardSynthRoundTrip(notes: seq<KeyboardSynth.Recorded>)
    requires KeyboardSynth.InTimeOrder(notes)
    requires forall k :: 0 <= k < |notes| ==> notes[k].note in KeyboardSynth.KEYS
    ensures KeyboardSynth.ImportedNotes(FirstTrack(SingleTrack(KeyboardSynth.ExportTrack(notes, NameToMidi))), MidiToName)
      == KeyboardSynth.Rebased(notes)
  {
    KeyboardSynth.KeysSpelled();
    forall k | 0 <= k < |notes|
      ensures MidiToName(NameToMidi(notes[k].note)) == notes[k].note
    {
      var j :| 0 <= j < |KeyboardSynth.KEYS| && KeyboardSynth.KEYS[j] == notes[k].note;
      NameRoundTrip(PianoRoll.OCTAVES[j / 12], j % 12);
    }
    KeyboardSynth.ExportImport(notes, NameToMidi, MidiToName);
  }
}
