/** The part of a Standard MIDI File that the three panels read and write
    through @tonejs/midi: tracks of timed notes. The binary encoding is not
    modelled; a file is its list of tracks. */
module MidiTrack {

  /** Every exported note lasts 0.2 seconds. */
  const NOTE_DURATION: real := 0.2

  /** One note of a track: MIDI note number, start time and duration, both in seconds. */
  datatype Note = Note(midi: int, time: real, duration: real)

  /** The resolution of a Standard MIDI File's clock: 480 ticks per quarter
      note at 120 beats per minute, @tonejs/midi's defaults. */
  const TICKS_PER_SECOND: nat := 960

  /** A time the file can hold exactly: a whole number of ticks. */
  predicate OnTick(t: real)
  {
    (t * TICKS_PER_SECOND as real).Floor as real == t * TICKS_PER_SECOND as real
  }

  /** What the file input delivers: a chosen file, or nothing when the choice was cancelled. */
  datatype Option<T> = None | Some(value: T)

  /** A MIDI file as a list of tracks. */
  datatype MidiFile = MidiFile(tracks: seq<seq<Note>>)

  /** `midi.tracks[0]?.notes`: the notes of the first track, none when the file has no track. */
  function FirstTrack(file: MidiFile): (notes: seq<Note>)
    ensures |file.tracks| == 0 ==> notes == []
    ensures |file.tracks| > 0 ==> notes == file.tracks[0]
  {
    if |file.tracks| == 0 then [] else file.tracks[0]
  }

  /** Times never decrease along the track: how @tonejs/midi keeps a track,
      since `addNote` inserts each note in time order. */
  predicate TimeOrdered(notes: seq<Note>)
  {
    forall j, k :: 0 <= j < k < |notes| ==> notes[j].time <= notes[k].time
  }

  /** `new Midi()` followed by one `addTrack()` that receives `notes`. */
  function SingleTrack(notes: seq<Note>): (file: MidiFile)
    ensures |file.tracks| == 1 && FirstTrack(file) == notes
  {
    MidiFile([notes])
  }
}
