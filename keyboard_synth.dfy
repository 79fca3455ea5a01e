/** The keyboard synthesizer: 24 keys, a recorder that captures key presses
    with their audio-clock time, and export, import and replay of the take. */
module KeyboardSynth {
  import opened MidiTrack
  import opened JsText
  import PianoRoll

  const KEYS: seq<string> := [
    "C4", "C#4", "D4", "D#4", "E4", "F4", "F#4", "G4", "G#4", "A4", "A#4", "B4",
    "C5", "C#5", "D5", "D#5", "E5", "F5", "F#5", "G5", "G#5", "A5", "A#5", "B5"
  ]

  /** A recorded key press: the note name and the audio-clock time of the press. */
  datatype Recorded = Recorded(note: string, time: real)

  /** One replay cue: the note and its offset, in seconds, from the start of the replay. */
  datatype Cue = Cue(offset: real, note: string)

  /** What `playSequence` hands to the transport: nothing for an empty take,
      otherwise one cue per note and the time, in milliseconds, after which
      the transport is cancelled. */
  datatype Playback = Silent | Scheduled(cues: seq<Cue>, cancelAfterMs: real)

  /** The take with every time measured from the first note's time. */
  function Rebased(notes: seq<Recorded>): (r: seq<Recorded>)
    ensures |r| == |notes|
    ensures |notes| > 0 ==> r[0].time == 0.0
    ensures forall k :: 0 <= k < |r| ==> r[k].note == notes[k].note
    ensures forall j, k :: 0 <= j < |r| && 0 <= k < |r| ==> r[k].time - r[j].time == notes[k].time - notes[j].time
  {
    if |notes| == 0 then []
    else seq(|notes|, k requires 0 <= k < |notes| => Recorded(notes[k].note, notes[k].time - notes[0].time))
  }

  /** The track `exportMidi` writes: one 0.2 s note per recorded press, in
      recording order, the first at time 0 and the spacing kept;
      `toMidi` stands for `Tone.Frequency(name).toMidi()`. */
  function ExportTrack(notes: seq<Recorded>, toMidi: string -> int): (track: seq<Note>)
    ensures |track| == |notes|
    ensures |notes| > 0 ==> track[0].time == 0.0
    ensures forall k :: 0 <= k < |track| ==> track[k].midi == toMidi(notes[k].note) && track[k].duration == NOTE_DURATION
    ensures forall j, k :: 0 <= j < |track| && 0 <= k < |track| ==> track[k].time - track[j].time == notes[k].time - notes[j].time
  {
    var rebased := Rebased(notes);
    seq(|rebased|, k requires 0 <= k < |rebased| => Note(toMidi(rebased[k].note), rebased[k].time, NOTE_DURATION))
  }

  /** The take `importMidi` builds: one press per note of the track, in file
      order; `toNote` stands for `Tone.Frequency(midi, "midi").toNote()`. */
  function ImportedNotes(track: seq<Note>, toNote: int -> string): (notes: seq<Recorded>)
    ensures |notes| == |track|
    ensures TimeOrdered(track) ==> InTimeOrder(notes)
  {
    seq(|track|, k requires 0 <= k < |track| => Recorded(toNote(track[k].midi), track[k].time))
  }

  /** A take in time order exports to a track in time order with no negative
      time, so the file keeps the notes in recording order. */
  lemma ExportTrackOrdered(notes: seq<Recorded>, toMidi: string -> int)
    requires InTimeOrder(notes)
    ensures TimeOrdered(ExportTrack(notes, toMidi))
    ensures forall k :: 0 <= k < |notes| ==> ExportTrack(notes, toMidi)[k].time >= 0.0
  {
    var track := ExportTrack(notes, toMidi);
    forall k | 0 <= k < |notes|
      ensures track[k].time >= 0.0
    {
      assert track[k].time - track[0].time == notes[k].time - notes[0].time;
    }
  }

  /** Exporting a take in time order and importing the file gives back the take
      rebased to start at 0, when naming a key's MIDI number gives back the
      key's name. */
  lemma ExportImport(notes: seq<Recorded>, toMidi: string -> int, toNote: int -> string)
    requires InTimeOrder(notes)
    requires forall k :: 0 <= k < |notes| ==> toNote(toMidi(notes[k].note)) == notes[k].note
    ensures ImportedNotes(FirstTrack(SingleTrack(ExportTrack(notes, toMidi))), toNote) == Rebased(notes)
  {
  }

  /** A take that already starts at 0 is its own rebasing: a second export of
      an imported take writes the same times. */
  lemma RebasedIdempotent(notes: seq<Recorded>)
    ensures Rebased(Rebased(notes)) == Rebased(notes)
  {
  }

  /** `playSequence`'s plan: silent for an empty take; otherwise cue k at
      the rebased time of note k, and cancellation one second after the last cue. */
  function SequencePlan(notes: seq<Recorded>): (plan: Playback)
    ensures plan.Silent? <==> |notes| == 0
    ensures plan.Scheduled? ==>
      && |plan.cues| == |notes|
      && plan.cues[0].offset == 0.0
      && (forall k :: 0 <= k < |notes| ==> plan.cues[k].note == notes[k].note)
      && (forall j, k :: 0 <= j < |notes| && 0 <= k < |notes| ==>
            plan.cues[k].offset - plan.cues[j].offset == notes[k].time - notes[j].time)
      && plan.cancelAfterMs == (plan.cues[|notes| - 1].offset + 1.0) * 1000.0
  {
    if |notes| == 0 then Silent
    else
      var rebased := Rebased(notes);
      Scheduled(seq(|notes|, k requires 0 <= k < |notes| => Cue(rebased[k].time, rebased[k].note)),
                (rebased[|notes| - 1].time + 1.0) * 1000.0)
  }

  predicate InTimeOrder(notes: seq<Recorded>)
  {
    forall j, k :: 0 <= j < k < |notes| ==> notes[j].time <= notes[k].time
  }

  /** Presses recorded at a clock that does not run backwards stay in time order. */
  lemma RecordingKeepsTimeOrder(notes: seq<Recorded>, note: string, now: real)
    requires InTimeOrder(notes)
    requires |notes| > 0 ==> notes[|notes| - 1].time <= now
    ensures InTimeOrder(notes + [Recorded(note, now)])
  {
  }

  /** Importing while recording and then pressing a key: the audio-clock time
      of the press (60 s) lies before the imported file's last time (600 s), so
      the take is out of time order and its export is too. */
  lemma PressAfterImport(toMidi: string -> int, toNote: int -> string)
    ensures var take := ImportedNotes([Note(60, 0.0, NOTE_DURATION), Note(62, 600.0, NOTE_DURATION)], toNote)
                        + [Recorded("C4", 60.0)];
      && !InTimeOrder(take)
      && ExportTrack(take, toMidi)[2].time < ExportTrack(take, toMidi)[1].time
  {
    var take := ImportedNotes([Note(60, 0.0, NOTE_DURATION), Note(62, 600.0, NOTE_DURATION)], toNote)
                + [Recorded("C4", 60.0)];
    assert take[1].time == 600.0 && take[2].time == 60.0;
  }

  /** For a take in time order, every cue lies in [0, cancel time - 1 s]: the
      transport is cancelled at least a second after the last cue starts. */
  lemma CancelAfterEveryCue(notes: seq<Recorded>)
    requires InTimeOrder(notes)
    ensures SequencePlan(notes).Scheduled? ==>
      forall k :: 0 <= k < |notes| ==>
        0.0 <= SequencePlan(notes).cues[k].offset &&
        (SequencePlan(notes).cues[k].offset + 1.0) * 1000.0 <= SequencePlan(notes).cancelAfterMs
  {
  }

  /** A key is drawn black when its name contains a sharp. */
  predicate IsBlack(key: string)
    ensures IsBlack(key) <==> exists k :: 0 <= k < |key| && key[k] == '#'
  {
    '#' in key
  }

  /** `key.replace(/\d/, '')`: the name with its first digit removed. */
  function KeyLabel(key: string): (face: string)
    ensures FirstDigitIndex(key) == |key| ==> face == key
    ensures FirstDigitIndex(key) < |key| ==> |face| == |key| - 1 && NoDigits(face[..FirstDigitIndex(key)])
  {
    var i := FirstDigitIndex(key);
    if i < |key| then key[..i] + key[i + 1..] else key
  }

  /** For a note name: the label is the pitch-class name, and the key is black
      exactly when the pitch class is a sharp. */
  lemma NameFace(oct: nat, i: nat)
    requires oct < 10 && i < |PianoRoll.NOTES|
    ensures KeyLabel(PianoRoll.MidiNote(oct, i)) == PianoRoll.NOTES[i]
    ensures IsBlack(PianoRoll.MidiNote(oct, i)) <==> '#' in PianoRoll.NOTES[i]
  {
    PianoRoll.NotesSpelling();
    var p, d := PianoRoll.NOTES[i], NumberString(oct);
    var name := p + d;
    FirstDigitAfterPrefix(p, d);
    assert name[..|p|] + name[|p| + 1..] == p;
    assert forall c :: c in d ==> c != '#';
  }

  /** The key list is `midiNote` applied to octaves 4 and 5, pitch class by pitch class. */
  lemma KeysSpelled()
    ensures |KEYS| == PianoRoll.ROWS
    ensures forall k :: 0 <= k < |KEYS| ==> KEYS[k] == PianoRoll.PushedName(k)
  {
  }

  /** The keys are the piano roll's names in ascending order (so `KEYS[k]` is
      `ALL_NOTES[23 - k]`); each is labelled with its pitch-class name, and
      the five sharps of each octave are the black keys. */
  lemma KeyFaces()
    ensures |KEYS| == PianoRoll.ROWS
    ensures forall k :: 0 <= k < |KEYS| ==> KEYS[k] == PianoRoll.AllNotes()[PianoRoll.ROWS - 1 - k]
    ensures forall k :: 0 <= k < |KEYS| ==> KeyLabel(KEYS[k]) == PianoRoll.NOTES[k % 12]
    ensures forall k :: 0 <= k < |KEYS| ==> (IsBlack(KEYS[k]) <==> '#' in PianoRoll.NOTES[k % 12])
  {
    KeysSpelled();
    forall k | 0 <= k < |KEYS|
      ensures KEYS[k] == PianoRoll.AllNotes()[PianoRoll.ROWS - 1 - k]
      ensures KeyLabel(KEYS[k]) == PianoRoll.NOTES[k % 12]
      ensures IsBlack(KEYS[k]) <==> '#' in PianoRoll.NOTES[k % 12]
    {
      PianoRoll.AllNotesAt(PianoRoll.ROWS - 1 - k);
      NameFace(PianoRoll.OCTAVES[k / 12], k % 12);
    }
  }

  /** The example from the component: "C#4" is a black key labelled "C#". */
  lemma SharpKeyExample()
    ensures IsBlack("C#4") && KeyLabel("C#4") == "C#"
    ensures !IsBlack("C4") && KeyLabel("C4") == "C"
  {
  }

  /** The component's state: the recorded take and whether recording is on. */
  class Synth {
    var notes: seq<Recorded>
    var recording: bool

    constructor ()
      ensures notes == [] && !recording
    {
      notes := [];
      recording := false;
    }

    /** A key press at audio-clock time `now`: recorded at the end of the take
        while recording, otherwise only played. A take in time order stays in
        time order when `now` is no earlier than its last press; after an
        import made while recording, the file's times and the audio clock
        need not agree, and the take can fall out of time order. */
    method PlayNote(note: string, now: real)
      modifies this
      ensures recording == old(recording)
      ensures notes == if old(recording) then old(notes) + [Recorded(note, now)] else old(notes)
      ensures InTimeOrder(old(notes)) && (|old(notes)| > 0 ==> old(notes)[|old(notes)| - 1].time <= now) ==>
        InTimeOrder(notes)
    {
      if recording {
        if InTimeOrder(notes) && (|notes| > 0 ==> notes[|notes| - 1].time <= now) {
          RecordingKeepsTimeOrder(notes, note, now);
        }
        notes := notes + [Recorded(note, now)];
      }
    }

    /** Record: recording on, the previous take discarded. */
    method StartRecording()
      modifies this
      ensures recording && notes == []
    {
      recording := true;
      notes := [];
    }

    /** Stop: recording off, the take kept. */
    method StopRecording()
      modifies this
      ensures !recording && notes == old(notes)
    {
      recording := false;
    }

    /** `exportMidi`: a one-track file with one note per recorded press. */
    method ExportMidi(toMidi: string -> int) returns (file: MidiFile)
      ensures file == SingleTrack(ExportTrack(notes, toMidi))
    {
      var track: seq<Note> := [];
      if |notes| > 0 {
        var base := notes[0].time;
        for k := 0 to |notes|
          invariant |track| == k
          invariant forall j :: 0 <= j < k ==> track[j] == Note(toMidi(notes[j].note), notes[j].time - base, NOTE_DURATION)
        {
          track := track + [Note(toMidi(notes[k].note), notes[k].time - base, NOTE_DURATION)];
        }
      }
      assert track == ExportTrack(notes, toMidi);
      file := SingleTrack(track);
    }

    /** `importMidi`: with no file chosen nothing happens; otherwise the take
        is replaced by the notes of the file's first track. */
    method ImportMidi(selected: Option<MidiFile>, toNote: int -> string)
      requires selected.Some? ==> TimeOrdered(FirstTrack(selected.value))
      modifies this
      ensures selected.Some? ==> InTimeOrder(notes)
      ensures notes == (if selected.Some? then ImportedNotes(FirstTrack(selected.value), toNote) else old(notes))
      ensures recording == old(recording)
    {
      if selected.None? {
        return;
      }
      var track := FirstTrack(selected.value);
      var imported: seq<Recorded> := [];
      for k := 0 to |track|
        invariant |imported| == k
        invariant forall j :: 0 <= j < k ==> imported[j] == Recorded(toNote(track[j].midi), track[j].time)
      {
        imported := imported + [Recorded(toNote(track[k].midi), track[k].time)];
      }
      assert imported == ImportedNotes(track, toNote);
      notes := imported;
    }

    /** `playSequence`: one cue per recorded press, then cancellation. */
    method PlaySequence() returns (plan: Playback)
      ensures plan == SequencePlan(notes)
      ensures plan.Scheduled? && InTimeOrder(notes) ==> forall k :: 0 <= k < |plan.cues| ==>
        0.0 <= plan.cues[k].offset && (plan.cues[k].offset + 1.0) * 1000.0 <= plan.cancelAfterMs
    {
      if |notes| == 0 {
        return Silent;
      }
      var base := notes[0].time;
      var cues: seq<Cue> := [];
      for k := 0 to |notes|
        invariant |cues| == k
        invariant forall j :: 0 <= j < k ==> cues[j] == Cue(notes[j].time - base, notes[j].note)
      {
        cues := cues + [Cue(notes[k].time - base, notes[k].note)];
      }
      plan := Scheduled(cues, (notes[|notes| - 1].time - base + 1.0) * 1000.0);
      assert plan == SequencePlan(notes);
      if InTimeOrder(notes) {
        CancelAfterEveryCue(notes);
      }
    }
  }
}
