/** Pitch arithmetic shared by `play_scale` (music_utils.py) and
    `play_interval` (quiz.py): a root position in the note order plus a
    semitone offset gives the name `NOTE_ORDER[idx % 12]` in octave
    `octave + idx // 12`. Python's `//` and `%` by 12 agree with Dafny's
    Euclidean `/` and `%`, negative offsets included. */
module Scales {
  import opened Outcomes
  import opened PitchTables
  import opened Notes

  /** The absolute pitch of a note-order position in an octave, in semitones above C0. */
  function Semitone(index: int, octave: int): int
  {
    12 * octave + index
  }

  /** The note-order position and octave `offset` semitones above `rootIndex` in `octave`. */
  function Transpose(rootIndex: int, offset: int, octave: int): (r: (nat, int))
    ensures r.0 < 12
    ensures Semitone(r.0, r.1) == Semitone(rootIndex, octave) + offset
  {
    var idx := rootIndex + offset;
    (idx % 12, octave + idx / 12)
  }

  /** A position below 12 and an octave are fixed by their absolute pitch:
      the position is the pitch mod 12 and the octave the pitch div 12. */
  lemma PitchDeterminesSpelling(index: int, octave: int, pitch: int)
    requires 0 <= index < 12 && Semitone(index, octave) == pitch
    ensures index == pitch % 12 && octave == pitch / 12
  {
  }

  /** The absolute pitch of a note with a canonical name. */
  function NotePitch(n: Note): int
    requires n.name in NoteOrder
  {
    Semitone(PitchClassOf(n.name), n.octave)
  }

  /** One note of `play_scale`: `Note(NOTE_ORDER[idx % 12], octave + idx // 12,
      duration=duration)` with the default volume 0.5 and no delay. */
  function ScaleNote(rootIndex: nat, interval: int, octave: int, duration: real): (n: Note)
    requires rootIndex < 12
    ensures WellFormed(n) && n.name in NoteOrder
    ensures NotePitch(n) == Semitone(rootIndex, octave) + interval
    ensures n.volume == 0.5 && n.duration == duration && n.delay == 0.0
  {
    var (index, noteOctave) := Transpose(rootIndex, interval, octave);
    var n := CanonicalNote(index, noteOctave, 0.5, duration, 0.0);
    NoteIndexOfCanonical(index);
    n
  }

  /** The note list `play_scale` builds: one note per interval, in the
      order of the interval list, each `interval` semitones above the start
      note; a start note outside the note order (a flat included) makes
      `NOTE_ORDER.index` raise. */
  function ScaleNotes(intervals: seq<int>, startNote: string, octave: int, duration: real): (r: Result<seq<Note>>)
    ensures r.Ok? <==> startNote in NoteOrder
    ensures r.Err? ==> r.error == NotInList(startNote)
    ensures r.Ok? ==> |r.value| == |intervals|
    ensures r.Ok? ==> forall k :: 0 <= k < |intervals| ==>
      && WellFormed(r.value[k])
      && r.value[k].name in NoteOrder
      && NotePitch(r.value[k]) == Semitone(PitchClassOf(startNote), octave) + intervals[k]
      && r.value[k].volume == 0.5
      && r.value[k].duration == duration
      && r.value[k].delay == 0.0
  {
    var root :- NoteIndex(startNote);
    Ok(seq(|intervals|, k requires 0 <= k < |intervals| => ScaleNote(root, intervals[k], octave, duration)))
  }

  /** The k-th scale note is `NOTE_ORDER[(root + i_k) % 12]` in octave
      `octave + (root + i_k) // 12`. */
  lemma ScaleNoteSpelling(intervals: seq<int>, startNote: string, octave: int, duration: real, k: nat)
    requires startNote in NoteOrder && k < |intervals|
    ensures ScaleNotes(intervals, startNote, octave, duration).Ok?
    ensures var n := ScaleNotes(intervals, startNote, octave, duration).value[k];
      var idx := PitchClassOf(startNote) + intervals[k];
      n.name == NoteOrder[idx % 12] && n.octave == octave + idx / 12
  {
    var n := ScaleNotes(intervals, startNote, octave, duration).value[k];
    var root := PitchClassOf(startNote);
    PitchDeterminesSpelling(PitchClassOf(n.name), n.octave, Semitone(root, octave) + intervals[k]);
  }

  /** Offsets inside one octave keep every scale note in `octave` or the
      octave above, as both interval tables do. */
  lemma ScaleWithinTwoOctaves(intervals: seq<int>, startNote: string, octave: int, duration: real)
    requires startNote in NoteOrder
    requires forall k :: 0 <= k < |intervals| ==> 0 <= intervals[k] < 12
    ensures forall n :: n in ScaleNotes(intervals, startNote, octave, duration).value ==>
      octave <= n.octave <= octave + 1
  {
    var r := ScaleNotes(intervals, startNote, octave, duration).value;
    forall n | n in r
      ensures octave <= n.octave <= octave + 1
    {
      var k :| 0 <= k < |r| && r[k] == n;
      ScaleNoteSpelling(intervals, startNote, octave, duration, k);
    }
  }

  /** Both interval tables give notes in the start octave or the next. */
  lemma TableScalesWithinTwoOctaves(startNote: string, octave: int, duration: real)
    requires startNote in NoteOrder
    ensures forall n :: n in ScaleNotes(MajorScaleIntervals, startNote, octave, duration).value ==>
      octave <= n.octave <= octave + 1
    ensures forall n :: n in ScaleNotes(MinorScaleIntervals, startNote, octave, duration).value ==>
      octave <= n.octave <= octave + 1
  {
    IntervalTablesWithinOctave();
    ScaleWithinTwoOctaves(MajorScaleIntervals, startNote, octave, duration);
    ScaleWithinTwoOctaves(MinorScaleIntervals, startNote, octave, duration);
  }

  /** A note with the given name in the given octave. */
  predicate Spelled(n: Note, name: string, octave: int)
  {
    n.name == name && n.octave == octave
  }

  /** C major from octave 4: C D E F G A B, all in octave 4. */
  lemma CMajorScale()
    ensures ScaleNotes(MajorScaleIntervals, "C", 4, 0.5).Ok?
    ensures var r := ScaleNotes(MajorScaleIntervals, "C", 4, 0.5).value;
      && |r| == 7
      && Spelled(r[0], "C", 4) && Spelled(r[1], "D", 4) && Spelled(r[2], "E", 4)
      && Spelled(r[3], "F", 4) && Spelled(r[4], "G", 4) && Spelled(r[5], "A", 4)
      && Spelled(r[6], "B", 4)
  {
    NoteIndexOfCanonical(0);
    assert PitchClassOf("C") == 0;
    assert MajorScaleIntervals == [0, 2, 4, 5, 7, 9, 11];
    ScaleNoteSpelling(MajorScaleIntervals, "C", 4, 0.5, 0);
    ScaleNoteSpelling(MajorScaleIntervals, "C", 4, 0.5, 1);
    ScaleNoteSpelling(MajorScaleIntervals, "C", 4, 0.5, 2);
    ScaleNoteSpelling(MajorScaleIntervals, "C", 4, 0.5, 3);
    ScaleNoteSpelling(MajorScaleIntervals, "C", 4, 0.5, 4);
    ScaleNoteSpelling(MajorScaleIntervals, "C", 4, 0.5, 5);
    ScaleNoteSpelling(MajorScaleIntervals, "C", 4, 0.5, 6);
  }

  /** F major from octave 4 wraps: offsets 7, 9 and 11 land in octave 5 as
      C, D and E (offset 7 from F gives C5). */
  lemma FMajorScaleWraps()
    ensures ScaleNotes(MajorScaleIntervals, "F", 4, 0.5).Ok?
    ensures var r := ScaleNotes(MajorScaleIntervals, "F", 4, 0.5).value;
      && |r| == 7
      && Spelled(r[4], "C", 5) && Spelled(r[5], "D", 5) && Spelled(r[6], "E", 5)
  {
    NoteIndexOfCanonical(5);
    assert PitchClassOf("F") == 5;
    assert MajorScaleIntervals[4] == 7 && MajorScaleIntervals[5] == 9 && MajorScaleIntervals[6] == 11;
    assert NoteOrder[0] == "C" && NoteOrder[2] == "D" && NoteOrder[4] == "E";
    ScaleNoteSpelling(MajorScaleIntervals, "F", 4, 0.5, 4);
    ScaleNoteSpelling(MajorScaleIntervals, "F", 4, 0.5, 5);
    ScaleNoteSpelling(MajorScaleIntervals, "F", 4, 0.5, 6);
  }

  /** A flat start note builds a valid `Note` but still fails the index
      lookup of `play_scale`. */
  lemma FlatStartNoteFails(flat: string, intervals: seq<int>, octave: int, duration: real)
    requires flat in FlatKey
    ensures MakeNote(flat, octave, 0.5, duration, 0.0).Ok?
    ensures ScaleNotes(intervals, flat, octave, duration) == Err(NotInList(flat))
  {
    FlatTargetHasReference(flat);
  }
}
