/** Note.py: a note keeps the name it was given, its octave, volume,
    duration and delay, and computes its frequency once at construction
    from the reference octave, resolving a flat spelling first. */
module Notes {
  import opened Outcomes
  import opened PitchTables
  import Sound

  datatype Note = Note(
    name: string,      // the caller's spelling, flats not resolved
    octave: int,
    volume: real,
    duration: real,    // seconds
    delay: real,       // seconds of silence before the tone
    frequency: real)   // Hz

  /** `2 ** k` for an integer exponent, negative ones included. */
  function Pow2(k: int): (r: real)
    ensures r > 0.0
    decreases if k < 0 then -k else k
  {
    if k == 0 then 1.0
    else if k > 0 then 2.0 * Pow2(k - 1)
    else Pow2(k + 1) / 2.0
  }

  lemma Pow2Step(k: int)
    ensures Pow2(k + 1) == 2.0 * Pow2(k)
  {
  }

  /** A flat alias is replaced by its sharp name; any other name is kept. */
  function Resolve(name: string): string
  {
    if name in FlatKey then FlatKey[name] else name
  }

  /** The names `get_frequency` accepts: the twelve canonical ones and the
      five flat aliases. */
  predicate IsNoteName(name: string)
  {
    name in NoteOrder || name in FlatKey
  }

  /** `get_frequency`: the reference frequency of the resolved name, scaled
      by `2 ** (octave - 4)`; an unknown name raises. */
  function GetFrequency(name: string, octave: int): (r: Result<real>)
    ensures r.Ok? <==> IsNoteName(name)
    ensures r.Err? ==> r.error == InvalidNote(name)
    ensures r.Ok? ==> r.value > 0.0
  {
    var resolved := Resolve(name);
    if resolved !in ReferenceOctave then Err(InvalidNote(name))
    else Ok(ReferenceOctave[resolved] * Pow2(octave - 4))
  }

  /** A note whose stored frequency is the one its name and octave give. */
  predicate WellFormed(n: Note)
  {
    GetFrequency(n.name, n.octave) == Ok(n.frequency)
  }

  /** `Note(note, octave, volume, duration, delay)`: the fields as given and
      the computed frequency, or the error an unknown name raises. */
  function MakeNote(name: string, octave: int, volume: real, duration: real, delay: real): (r: Result<Note>)
    ensures r.Ok? <==> IsNoteName(name)
    ensures r.Err? ==> r.error == InvalidNote(name)
    ensures r.Ok? ==> WellFormed(r.value)
    ensures r.Ok? ==> r.value.name == name && r.value.octave == octave
    ensures r.Ok? ==> r.value.volume == volume && r.value.duration == duration && r.value.delay == delay
  {
    var frequency :- GetFrequency(name, octave);
    Ok(Note(name, octave, volume, duration, delay, frequency))
  }

  /** The note at position `index` of the note order, which always constructs. */
  function CanonicalNote(index: nat, octave: int, volume: real, duration: real, delay: real): (n: Note)
    requires index < 12
    ensures WellFormed(n)
    ensures n.name == NoteOrder[index] && n.octave == octave
    ensures n.volume == volume && n.duration == duration && n.delay == delay
  {
    MakeNote(NoteOrder[index], octave, volume, duration, delay).value
  }

  /** A flat and the sharp it aliases sound at the same frequency in every octave. */
  lemma FlatAliasSameFrequency(flat: string, octave: int)
    requires flat in FlatKey
    ensures GetFrequency(flat, octave).Ok?
    ensures GetFrequency(flat, octave) == GetFrequency(FlatKey[flat], octave)
  {
    FlatTargetsCanonical();
  }

  /** "Eb" and "D#" give equal frequencies at every octave. */
  lemma EFlatIsDSharp(octave: int)
    ensures GetFrequency("Eb", octave).Ok?
    ensures GetFrequency("Eb", octave) == GetFrequency("D#", octave)
  {
    FlatAliasSameFrequency("Eb", octave);
  }

  /** Names that are neither canonical nor flat aliases are rejected. */
  lemma UnknownNamesRejected(octave: int)
    ensures GetFrequency("H", octave) == Err(InvalidNote("H"))
    ensures GetFrequency("X#", octave) == Err(InvalidNote("X#"))
    ensures MakeNote("H", octave, 0.5, 0.5, 0.0) == Err(InvalidNote("H"))
  {
  }

  /** A known name resolves to a key of the reference table. */
  lemma KnownNameResolves(name: string, octave: int)
    requires IsNoteName(name)
    ensures Resolve(name) in ReferenceOctave
    ensures GetFrequency(name, octave) == Ok(ReferenceOctave[Resolve(name)] * Pow2(octave - 4))
  {
    if name in FlatKey {
      FlatTargetHasReference(name);
    } else {
      CanonicalHasReference(name);
    }
  }

  /** Octave 4 is the reference octave. */
  lemma ReferenceOctaveIsFour(name: string)
    requires name in NoteOrder
    ensures GetFrequency(name, 4) == Ok(ReferenceOctave[name])
  {
    KnownNameResolves(name, 4);
    FlatTargetsCanonical();
    assert Resolve(name) == name;
  }

  /** Raising the octave by one doubles the frequency. */
  lemma OctaveDoubling(name: string, octave: int)
    requires IsNoteName(name)
    ensures GetFrequency(name, octave + 1).value == 2.0 * GetFrequency(name, octave).value
  {
    KnownNameResolves(name, octave);
    KnownNameResolves(name, octave + 1);
    Pow2Step(octave - 4);
  }

  /** The stored name keeps the flat spelling; only the frequency uses the
      sharp, so the stored name is not in the note order. */
  lemma FlatSpellingKept(flat: string, octave: int)
    requires flat in FlatKey
    ensures MakeNote(flat, octave, 0.5, 0.5, 0.0).Ok?
    ensures MakeNote(flat, octave, 0.5, 0.5, 0.0).value.name == flat
    ensures MakeNote(flat, octave, 0.5, 0.5, 0.0).value.name !in NoteOrder
  {
    FlatTargetsCanonical();
  }

  /** `get_note_waveform` without the sine and the volume gain: `delaySamples`
      zeros followed by the tone samples normalised to the full int16
      amplitude. The tone samples are given; an empty tone makes the
      normalisation fail. */
  function NoteWaveform(delaySamples: nat, tone: seq<real>): (r: Result<seq<real>>)
    ensures r.Ok? <==> |tone| > 0
    ensures r.Err? ==> r.error == EmptyPeak
    ensures r.Ok? ==> |r.value| == delaySamples + |tone|
    ensures r.Ok? ==> forall i :: 0 <= i < delaySamples ==> r.value[i] == 0.0
    ensures r.Ok? ==> r.value[delaySamples..] == Sound.Normalize(tone, Sound.Int16Max).value
    ensures r.Ok? ==> forall i :: 0 <= i < |r.value| ==> Sound.Abs(r.value[i]) <= Sound.Int16Max as real
  {
    var shaped :- Sound.Normalize(tone, Sound.Int16Max);
    Sound.NormalizeFitsInt16(tone, Sound.Int16Max);
    Ok(seq(delaySamples, _ => 0.0) + shaped)
  }
}
