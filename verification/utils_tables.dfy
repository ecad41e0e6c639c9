/** utils.py: a second copy of the pitch tables, plus the scales written as
    the semitone steps between consecutive degrees rather than as offsets
    from the root. */
module UtilsTables {
  import PitchTables

  const ReferenceOctave: map<string, real> := map[
    "C" := 261.63, "C#" := 277.18, "D" := 293.66, "D#" := 311.13,
    "E" := 329.63, "F" := 349.23, "F#" := 369.99, "G" := 392.00,
    "G#" := 415.30, "A" := 440.00, "A#" := 466.16, "B" := 493.88
  ]

  const NoteOrder: seq<string> := ["C", "C#", "D", "D#", "E", "F", "F#", "G", "G#", "A", "A#", "B"]

  const FlatKey: map<string, string> := map[
    "Db" := "C#", "Eb" := "D#", "Gb" := "F#", "Ab" := "G#", "Bb" := "A#"
  ]

  /** Semitones from each scale degree to the next, the last one closing the octave. */
  const MajorScaleSteps: seq<int> := [2, 2, 1, 2, 2, 2, 1]
  const MinorScaleSteps: seq<int> := [2, 1, 2, 2, 1, 2, 2]

  function Sum(s: seq<int>): int
  {
    if |s| == 0 then 0 else Sum(s[..|s| - 1]) + s[|s| - 1]
  }

  /** The offset of each degree from the root: the sum of the steps before it. */
  function PrefixSums(steps: seq<int>): (r: seq<int>)
    ensures |r| == |steps|
  {
    seq(|steps|, k requires 0 <= k < |steps| => Sum(steps[..k]))
  }

  /** The steps between consecutive offsets of an interval list, the last
      step running up to the octave (12 semitones). */
  function Steps(intervals: seq<int>): (r: seq<int>)
    ensures |r| == |intervals|
  {
    seq(|intervals|, k requires 0 <= k < |intervals| =>
      if k + 1 < |intervals| then intervals[k + 1] - intervals[k] else 12 - intervals[k])
  }

  lemma {:induction false} SumOfStepPrefix(intervals: seq<int>, k: nat)
    requires 0 < |intervals| && k <= |intervals|
    ensures Sum(Steps(intervals)[..k]) == (if k < |intervals| then intervals[k] else 12) - intervals[0]
  {
    var steps := Steps(intervals);
    if k > 0 {
      SumOfStepPrefix(intervals, k - 1);
      assert steps[..k][..k - 1] == steps[..k - 1];
    }
  }

  /** Steps and prefix sums are inverse: summing the steps of an interval
      list that starts at the root gives the list back, and all the steps
      together make one octave. */
  lemma StepsRoundTrip(intervals: seq<int>)
    requires 0 < |intervals| && intervals[0] == 0
    ensures PrefixSums(Steps(intervals)) == intervals
    ensures Sum(Steps(intervals)) == 12
  {
    forall k | 0 <= k < |intervals|
      ensures PrefixSums(Steps(intervals))[k] == intervals[k]
    {
      SumOfStepPrefix(intervals, k);
    }
    SumOfStepPrefix(intervals, |intervals|);
    assert Steps(intervals)[..|intervals|] == Steps(intervals);
  }

  /** The major step table is the step form of music_utils' major
      offsets: its exclusive prefix sums are those offsets, and it sums
      to one octave. */
  lemma MajorStepsMatchIntervals()
    ensures PrefixSums(MajorScaleSteps) == PitchTables.MajorScaleIntervals
    ensures Sum(MajorScaleSteps) == 12
  {
    assert Steps(PitchTables.MajorScaleIntervals) == MajorScaleSteps;
    StepsRoundTrip(PitchTables.MajorScaleIntervals);
  }

  /** The same for the minor tables. */
  lemma MinorStepsMatchIntervals()
    ensures PrefixSums(MinorScaleSteps) == PitchTables.MinorScaleIntervals
    ensures Sum(MinorScaleSteps) == 12
  {
    assert Steps(PitchTables.MinorScaleIntervals) == MinorScaleSteps;
    StepsRoundTrip(PitchTables.MinorScaleIntervals);
  }

  /** The duplicated tables are identical to the music_utils.py ones. */
  lemma CopiesAgree()
    ensures ReferenceOctave == PitchTables.ReferenceOctave
    ensures NoteOrder == PitchTables.NoteOrder
    ensures FlatKey == PitchTables.FlatKey
  {
  }
}
