/** The constant pitch tables of music_utils.py: the reference octave
    (C4..B4), the canonical sharp spelling order, the flat-to-sharp aliases
    and the two scale interval lists, together with `NOTE_ORDER.index`. */
module PitchTables {
  import opened Outcomes

  /** Frequencies in Hz of the reference octave 4, keyed by sharp name. */
  const ReferenceOctave: map<string, real> := map[
    "C" := 261.63, "C#" := 277.18, "D" := 293.66, "D#" := 311.13,
    "E" := 329.63, "F" := 349.23, "F#" := 369.99, "G" := 392.00,
    "G#" := 415.30, "A" := 440.00, "A#" := 466.16, "B" := 493.88
  ]

  /** The order of the notes in an octave: index 0 is C, index 11 is B. */
  const NoteOrder: seq<string> := ["C", "C#", "D", "D#", "E", "F", "F#", "G", "G#", "A", "A#", "B"]

  /** Flat spellings and the sharp spelling they stand for. */
  const FlatKey: map<string, string> := map[
    "Db" := "C#", "Eb" := "D#", "Gb" := "F#", "Ab" := "G#", "Bb" := "A#"
  ]

  /** Semitone offsets from the root of the major and the minor scale. */
  const MajorScaleIntervals: seq<int> := [0, 2, 4, 5, 7, 9, 11]
  const MinorScaleIntervals: seq<int> := [0, 2, 3, 5, 7, 8, 10]

  /** Python's `list.index`: the position of the first occurrence of `x`,
      or the ValueError raised when there is none. */
  function IndexOf(s: seq<string>, x: string): (r: Result<nat>)
    ensures r.Ok? <==> x in s
    ensures r.Err? ==> r.error == NotInList(x)
    ensures r.Ok? ==> r.value < |s| && s[r.value] == x
    ensures r.Ok? ==> forall j :: 0 <= j < r.value ==> s[j] != x
  {
    IndexFrom(s, x, 0)
  }

  function IndexFrom(s: seq<string>, x: string, from: nat): (r: Result<nat>)
    requires from <= |s|
    requires forall j :: 0 <= j < from ==> s[j] != x
    ensures r.Ok? <==> x in s
    ensures r.Err? ==> r.error == NotInList(x)
    ensures r.Ok? ==> from <= r.value < |s| && s[r.value] == x
    ensures r.Ok? ==> forall j :: 0 <= j < r.value ==> s[j] != x
    decreases |s| - from
  {
    if from == |s| then Err(NotInList(x))
    else if s[from] == x then Ok(from)
    else IndexFrom(s, x, from + 1)
  }

  /** `NOTE_ORDER.index(name)`. */
  function NoteIndex(name: string): (r: Result<nat>)
    ensures r.Ok? <==> name in NoteOrder
    ensures r.Err? ==> r.error == NotInList(name)
    ensures r.Ok? ==> r.value < 12 && NoteOrder[r.value] == name
  {
    IndexOf(NoteOrder, name)
  }

  /** The position of a canonical name in the note order. */
  function PitchClassOf(name: string): (i: nat)
    requires name in NoteOrder
    ensures i < 12 && NoteOrder[i] == name
  {
    NoteIndex(name).value
  }

  /** The twelve names of the note order are pairwise distinct. */
  lemma NoteOrderDistinct()
    ensures |NoteOrder| == 12
    ensures forall i, j :: 0 <= i < j < |NoteOrder| ==> NoteOrder[i] != NoteOrder[j]
  {
  }

  /** The reference table is keyed by exactly the names of the note order. */
  lemma ReferenceKeysAreNoteOrder()
    ensures forall name :: name in ReferenceOctave <==> name in NoteOrder
    ensures |ReferenceOctave| == 12
  {
    NoteOrderDistinct();
    var names := set i | 0 <= i < |NoteOrder| :: NoteOrder[i];
    forall name | name in ReferenceOctave
      ensures name in names
    {
      var i := PitchClassOf(name);
      assert NoteOrder[i] in names;
    }
    assert ReferenceOctave.Keys == names;
    SeqToSetSize(NoteOrder);
  }

  /** A sequence of pairwise distinct elements has as many elements as its set. */
  lemma {:induction false} SeqToSetSize(s: seq<string>)
    requires forall i, j :: 0 <= i < j < |s| ==> s[i] != s[j]
    ensures |set i | 0 <= i < |s| :: s[i]| == |s|
  {
    if |s| > 0 {
      var init := s[..|s| - 1];
      SeqToSetSize(init);
      var a := set i | 0 <= i < |init| :: init[i];
      var b := set i | 0 <= i < |s| :: s[i];
      assert b == a + {s[|s| - 1]};
      assert s[|s| - 1] !in a;
    }
  }

  /** Pointwise forms of the table facts, cheap to use in proofs. */
  lemma CanonicalHasReference(name: string)
    requires name in NoteOrder
    ensures name in ReferenceOctave
    ensures name !in FlatKey
  {
  }

  lemma ReferenceIsCanonical(name: string)
    requires name in ReferenceOctave
    ensures name in NoteOrder
  {
  }

  lemma FlatTargetHasReference(name: string)
    requires name in FlatKey
    ensures FlatKey[name] in NoteOrder
    ensures FlatKey[name] in ReferenceOctave
    ensures name !in ReferenceOctave
  {
  }

  /** Every flat alias resolves to a canonical name, and no alias is itself
      canonical, so resolving a flat never changes a sharp lookup. */
  lemma FlatTargetsCanonical()
    ensures forall f :: f in FlatKey ==> FlatKey[f] in NoteOrder
    ensures forall f :: f in FlatKey ==> f !in NoteOrder
  {
  }

  /** Both interval tables start at the root, rise strictly and stay
      inside one octave. */
  lemma IntervalTablesWithinOctave()
    ensures forall k :: 0 <= k < |MajorScaleIntervals| ==> 0 <= MajorScaleIntervals[k] < 12
    ensures forall k :: 0 <= k < |MinorScaleIntervals| ==> 0 <= MinorScaleIntervals[k] < 12
    ensures MajorScaleIntervals[0] == 0 && MinorScaleIntervals[0] == 0
    ensures forall k :: 0 < k < |MajorScaleIntervals| ==> MajorScaleIntervals[k - 1] < MajorScaleIntervals[k]
    ensures forall k :: 0 < k < |MinorScaleIntervals| ==> MinorScaleIntervals[k - 1] < MinorScaleIntervals[k]
  {
  }

  /** Looking up the name at position k of the note order gives back k. */
  lemma NoteIndexOfCanonical(k: nat)
    requires k < 12
    ensures NoteIndex(NoteOrder[k]) == Ok(k)
  {
    NoteOrderDistinct();
  }
}
