/** quiz.py: the interval table, the quiz modes, the pitch arithmetic of
    `play_interval` and the round loop of `start_interval_quiz`. The random
    choices of each round arrive as a sequence of draws and the typed
    answers as a sequence of lines; playback, sleeping and printing have no
    effect on the outcome and are not modelled. */
module Quiz {
  import opened Outcomes
  import opened PitchTables
  import opened Notes
  import opened Scales
  import opened AnswerText

  /** `INTERVAL_MAP`: semitones to labels. Most entries are a short label
      and a name; the tritone and the minor sixth carry two short labels. */
  const IntervalMap: map<int, seq<string>> := map[
    0 := ["0", "unison"],
    1 := ["2m", "minor 2nd"],
    2 := ["2", "major 2nd"],
    3 := ["3m", "minor 3rd"],
    4 := ["3", "major 3rd"],
    5 := ["4", "perfect 4th"],
    6 := ["4a", "5d", "tritone"],
    7 := ["5", "perfect 5th"],
    8 := ["6m", "5a", "minor 6th"],
    9 := ["6", "major 6th"],
    10 := ["7m", "minor 7th"],
    11 := ["7", "major 7th"],
    12 := ["8", "octave"]
  ]

  /** The quiz's `MAJOR_SCALE_INTERVALS`: the major scale above the root, up to the octave. */
  const QuizMajorIntervals: seq<int> := [2, 4, 5, 7, 9, 11, 12]

  /** `FULL_SINGLE_OCTAVE_INTERVALS`: 1 to 12 semitones. */
  const FullSingleOctaveIntervals: seq<int> := [1, 2, 3, 4, 5, 6, 7, 8, 9, 10, 11, 12]

  datatype QuizMode = QuizMode(description: string, intervals: seq<int>, minOctave: int, maxOctave: int)

  /** `QUIZ_MODES`. */
  const QuizModes: map<string, QuizMode> := map[
    "basic_single_octave" := QuizMode("Major scale intervals (single octave).", QuizMajorIntervals, 4, 4),
    "full_single_octave" := QuizMode("Any interval from 1 to 12 semitones (single octave).", FullSingleOctaveIntervals, 4, 4),
    "basic_multiple_octaves" := QuizMode("Major scale intervals, but can occur in octaves 3 to 5.", QuizMajorIntervals, 3, 5)
  ]

  // ---------------------------------------------------------------------------
  // The interval table
  // ---------------------------------------------------------------------------

  /** `a, b = fields`: unpacking into two names fails unless there are exactly two. */
  function Unpack2(fields: seq<string>): (r: Result<(string, string)>)
    ensures r.Ok? <==> |fields| == 2
    ensures r.Ok? ==> [r.value.0, r.value.1] == fields
    ensures r.Err? ==> r.error == UnpackMismatch(2, |fields|)
  {
    if |fields| == 2 then Ok((fields[0], fields[1])) else Err(UnpackMismatch(2, |fields|))
  }

  /** An interval with an entry of exactly a short label and a name. */
  predicate LabelledPair(semitones: int)
  {
    semitones in IntervalMap && |IntervalMap[semitones]| == 2
  }

  /** `short_label, descriptive_name = INTERVAL_MAP[semitones]`: a missing
      key raises before the unpacking is tried. */
  function IntervalLabels(semitones: int): (r: Result<(string, string)>)
    ensures r.Ok? <==> LabelledPair(semitones)
    ensures r.Ok? ==> r.value.0 == IntervalMap[semitones][0] && r.value.1 == IntervalMap[semitones][1]
    ensures semitones !in IntervalMap ==> r == Err(MissingKey(semitones))
    ensures semitones in IntervalMap && !LabelledPair(semitones) ==> r == Err(UnpackMismatch(2, |IntervalMap[semitones]|))
  {
    if semitones in IntervalMap then Unpack2(IntervalMap[semitones]) else Err(MissingKey(semitones))
  }

  /** Entry `k` is the first interval without a two-field entry. */
  predicate FirstUnlabelled(intervals: seq<int>, k: nat)
    requires k < |intervals|
  {
    !LabelledPair(intervals[k]) && forall j :: 0 <= j < k ==> LabelledPair(intervals[j])
  }

  /** The `valid_inputs` list: the short label of every interval of the
      mode, in order; the first interval without a two-field entry raises. */
  function ValidInputs(intervals: seq<int>): (r: Result<seq<string>>)
    ensures r.Ok? <==> forall k :: 0 <= k < |intervals| ==> LabelledPair(intervals[k])
    ensures r.Ok? ==> |r.value| == |intervals|
    ensures r.Ok? ==> forall k :: 0 <= k < |intervals| ==> r.value[k] == IntervalMap[intervals[k]][0]
    ensures r.Err? ==> (exists k :: 0 <= k < |intervals| && FirstUnlabelled(intervals, k))
    ensures forall k :: 0 <= k < |intervals| && FirstUnlabelled(intervals, k) ==>
      r == Err(IntervalLabels(intervals[k]).error)
  {
    if |intervals| == 0 then Ok([])
    else
      match IntervalLabels(intervals[0])
      case Err(e) => assert FirstUnlabelled(intervals, 0); Err(e)
      case Ok(pair) =>
        match ValidInputs(intervals[1..])
        case Err(e) =>
          FirstUnlabelledShift(intervals);
          Err(e)
        case Ok(rest) => Ok([pair.0] + rest)
  }

  /** The first unlabelled entry of a list whose head is labelled is the
      first unlabelled entry of its tail, one place later. */
  lemma FirstUnlabelledShift(intervals: seq<int>)
    requires 0 < |intervals| && LabelledPair(intervals[0])
    ensures forall k :: 1 <= k < |intervals| ==>
      (FirstUnlabelled(intervals, k) <==> FirstUnlabelled(intervals[1..], k - 1))
    ensures (exists k :: 0 <= k < |intervals[1..]| && FirstUnlabelled(intervals[1..], k)) ==>
      (exists k :: 0 <= k < |intervals| && FirstUnlabelled(intervals, k))
  {
    forall k | 1 <= k < |intervals|
      ensures FirstUnlabelled(intervals, k) <==> FirstUnlabelled(intervals[1..], k - 1)
    {
      assert forall j :: 1 <= j < k ==> intervals[1..][j - 1] == intervals[j];
    }
    if exists k :: 0 <= k < |intervals[1..]| && FirstUnlabelled(intervals[1..], k) {
      var k :| 0 <= k < |intervals[1..]| && FirstUnlabelled(intervals[1..], k);
      assert FirstUnlabelled(intervals, k + 1);
    }
  }

  /** No two intervals share a short label, so an answer names at most one interval. */
  lemma ShortLabelsDistinct(a: int, b: int)
    requires a in IntervalMap && b in IntervalMap
    requires IntervalMap[a][0] == IntervalMap[b][0]
    ensures a == b
  {
  }

  /** The table entries of the major-scale intervals. */
  lemma MajorEntries()
    ensures IntervalMap[2] == ["2", "major 2nd"] && IntervalMap[4] == ["3", "major 3rd"]
    ensures IntervalMap[5] == ["4", "perfect 4th"] && IntervalMap[7] == ["5", "perfect 5th"]
    ensures IntervalMap[9] == ["6", "major 6th"] && IntervalMap[11] == ["7", "major 7th"]
    ensures IntervalMap[12] == ["8", "octave"]
  {
  }

  /** Intervals whose entries all have two fields yield exactly their short
      labels, in order. */
  lemma {:induction false} LabelsFromEntries(intervals: seq<int>, expected: seq<string>)
    requires |expected| == |intervals|
    requires forall k :: 0 <= k < |intervals| ==> LabelledPair(intervals[k]) && IntervalMap[intervals[k]][0] == expected[k]
    ensures ValidInputs(intervals) == Ok(expected)
  {
    var r := ValidInputs(intervals);
    assert r.Ok?;
    assert forall k :: 0 <= k < |intervals| ==> r.value[k] == expected[k];
    assert r.value == expected;
  }

  /** The major-scale modes offer the labels 2, 3, 4, 5, 6, 7 and 8. */
  lemma MajorModeLabels()
    ensures ValidInputs(QuizMajorIntervals) == Ok(["2", "3", "4", "5", "6", "7", "8"])
  {
    MajorEntries();
    LabelsFromEntries(QuizMajorIntervals, ["2", "3", "4", "5", "6", "7", "8"]);
  }

  /** The full-octave mode cannot start: the tritone's entry has three
      fields, so building its labels raises before any round. */
  lemma FullSingleOctaveFails()
    ensures ValidInputs(FullSingleOctaveIntervals) == Err(UnpackMismatch(2, 3))
  {
    assert |IntervalMap[1]| == 2 && |IntervalMap[2]| == 2 && |IntervalMap[3]| == 2;
    assert |IntervalMap[4]| == 2 && |IntervalMap[5]| == 2;
    assert IntervalMap[6] == ["4a", "5d", "tritone"];
    assert FirstUnlabelled(FullSingleOctaveIntervals, 5);
  }

  // ---------------------------------------------------------------------------
  // play_interval
  // ---------------------------------------------------------------------------

  /** The two notes `play_interval` builds: the base note as named, and the
      note `distance` semitones above it, named from the note order. The
      base note object keeps a flat spelling, so looking that spelling up
      in the note order raises. */
  function PlayInterval(baseNote: string, distance: int, octave: int, volume: real, duration: real): (r: Result<(Note, Note)>)
    ensures r.Ok? <==> baseNote in NoteOrder
    ensures !IsNoteName(baseNote) ==> r == Err(InvalidNote(baseNote))
    ensures baseNote in FlatKey ==> r == Err(NotInList(baseNote))
    ensures r.Ok? ==> var (base, upper) := r.value;
      && WellFormed(base) && WellFormed(upper)
      && base.name == baseNote && base.octave == octave
      && upper.name in NoteOrder
      && NotePitch(upper) == NotePitch(base) + distance
      && base.volume == volume == upper.volume
      && base.duration == duration == upper.duration
      && base.delay == 0.0 == upper.delay
  {
    match MakeNote(baseNote, octave, volume, duration, 0.0)
    case Err(e) => Err(e)
    case Ok(base) =>
      match NoteIndex(base.name)
      case Err(e) => FlatSpellingKept(baseNote, octave); Err(e)
      case Ok(baseIndex) =>
        var (index, upperOctave) := Transpose(baseIndex, distance, octave);
        var upper := CanonicalNote(index, upperOctave, volume, duration, 0.0);
        NoteIndexOfCanonical(index);
        Ok((base, upper))
  }

  /** A distance of 0 to 12 semitones puts the second note in the base
      octave or the one above. */
  lemma IntervalSpansOneOctave(baseNote: string, distance: int, octave: int, volume: real, duration: real)
    requires baseNote in NoteOrder && 0 <= distance <= 12
    ensures var upper := PlayInterval(baseNote, distance, octave, volume, duration).value.1;
      octave <= upper.octave <= octave + 1
  {
    var (base, upper) := PlayInterval(baseNote, distance, octave, volume, duration).value;
    PitchDeterminesSpelling(PitchClassOf(upper.name), upper.octave, NotePitch(base) + distance);
  }

  /** An octave is the same name one octave up, at twice the frequency. */
  lemma OctaveIntervalDoubles(baseNote: string, octave: int, volume: real, duration: real)
    requires baseNote in NoteOrder
    ensures var (base, upper) := PlayInterval(baseNote, 12, octave, volume, duration).value;
      upper.name == base.name && upper.octave == octave + 1
      && upper.frequency == 2.0 * base.frequency
  {
    var (base, upper) := PlayInterval(baseNote, 12, octave, volume, duration).value;
    PitchDeterminesSpelling(PitchClassOf(upper.name), upper.octave, NotePitch(base) + 12);
    NoteIndexOfCanonical(PitchClassOf(base.name));
    OctaveDoubling(baseNote, octave);
  }

  // ---------------------------------------------------------------------------
  // The quiz loop
  // ---------------------------------------------------------------------------

  /** The random choices of one round: a base note, a distance and an octave. */
  datatype Draw = Draw(baseNote: string, distance: int, octave: int)

  /** The choices `random.choice` and `random.randint` can make in a mode. */
  predicate ValidDraw(mode: QuizMode, d: Draw)
  {
    d.baseNote in NoteOrder && d.distance in mode.intervals && mode.minOctave <= d.octave <= mode.maxOctave
  }

  /** The state after the loop: the score, how many answers were judged
      (valid or not), and whether an `exit` ended the loop early. */
  datatype Tally = Tally(score: nat, answered: nat, exited: bool)

  /** The cleaned answers to the prompts, in order: `input(...).strip().lower()`
      for each typed line. Cleaning is pure, so cleaning every line up front
      gives the loop the same answers as cleaning each when it is read. */
  function CleanAll(lines: seq<string>): (answers: seq<string>)
    ensures |answers| == |lines|
    ensures forall j :: 0 <= j < |lines| ==> answers[j] == Clean(lines[j])
  {
    seq(|lines|, j requires 0 <= j < |lines| => Clean(lines[j]))
  }

  /** The cleaned `answer` scores in a round with draw `d`: it is a valid
      input and the short label of the drawn distance. */
  predicate Scores(labels: seq<string>, d: Draw, answer: string)
  {
    answer in labels && LabelledPair(d.distance) && answer == IntervalMap[d.distance][0]
  }

  /** How many of the rounds score, each judged on its own. */
  function CountScores(labels: seq<string>, draws: seq<Draw>, answers: seq<string>): (n: nat)
    requires |draws| <= |answers|
    ensures n <= |draws|
  {
    if |draws| == 0 then 0
    else (if Scores(labels, draws[0], answers[0]) then 1 else 0) + CountScores(labels, draws[1..], answers[1..])
  }

  /** What one answer is worth (quiz.py lines 182-190): an answer that is
      not a valid input is worth nothing without looking at the table;
      otherwise the drawn interval's labels are unpacked, which raises for
      an entry without exactly two fields, and the answer is worth one
      point when it is the short label. */
  function RoundPoint(labels: seq<string>, d: Draw, answer: string): (r: Result<nat>)
    ensures r.Ok? <==> answer !in labels || LabelledPair(d.distance)
    ensures r.Err? ==> r == Err(IntervalLabels(d.distance).error)
    ensures r.Ok? ==> r.value == if Scores(labels, d, answer) then 1 else 0
  {
    if answer !in labels then Ok(0)
    else
      match IntervalLabels(d.distance)
      case Err(e) => Err(e)
      case Ok(pair) => Ok(if answer == pair.0 then 1 else 0)
  }

  /** Whether `play_interval` raises for a base note, and with what: the
      note constructor rejects an unknown name and the note-order lookup
      rejects a flat. The two notes it builds do not affect the quiz, so
      the loop below only needs this outcome (see `PlayCheckAgrees`). */
  function PlayCheck(baseNote: string): (r: Result<()>)
    ensures r.Ok? <==> baseNote in NoteOrder
  {
    if !IsNoteName(baseNote) then Err(InvalidNote(baseNote))
    else if baseNote !in NoteOrder then Err(NotInList(baseNote))
    else Ok(())
  }

  /** `PlayCheck` fails exactly when `play_interval` does, with the same error. */
  lemma PlayCheckAgrees(baseNote: string, distance: int, octave: int, volume: real, duration: real)
    ensures PlayCheck(baseNote).Ok? <==> PlayInterval(baseNote, distance, octave, volume, duration).Ok?
    ensures PlayCheck(baseNote).Err? ==>
      PlayCheck(baseNote).error == PlayInterval(baseNote, distance, octave, volume, duration).error
  {
  }

  /** How one round ends: an `exit` stops the loop, any other answer is
      judged and worth `point`. */
  datatype RoundOutcome = Stop | Judged(point: nat)

  /** One round of the loop: play the drawn interval (raising as
      `play_interval` would), take the next
      answer (raising when input has run out), stop on `exit`, and
      otherwise judge the answer. */
  function PlayRound(labels: seq<string>, d: Draw, answers: seq<string>): (r: Result<RoundOutcome>)
    ensures r == Ok(Stop) <==> d.baseNote in NoteOrder && 0 < |answers| && answers[0] == "exit"
    ensures r == Err(EndOfInput) <==> d.baseNote in NoteOrder && |answers| == 0
    ensures r.Ok? && r.value.Judged? ==>
      && 0 < |answers| && answers[0] != "exit"
      && r.value.point == if Scores(labels, d, answers[0]) then 1 else 0
    ensures d.baseNote in NoteOrder && 0 < |answers| && LabelledPair(d.distance) ==> r.Ok?
  {
    match PlayCheck(d.baseNote)
    case Err(e) => Err(e)
    case Ok(_) =>
      if |answers| == 0 then Err(EndOfInput)
      else if answers[0] == "exit" then Ok(Stop)
      else
        match RoundPoint(labels, d, answers[0])
        case Err(e) => Err(e)
        case Ok(point) => Ok(Judged(point))
  }

  /** The loop `for i in range(1, rounds + 1)` with one draw per round:
      each round either raises, stops the loop on `exit`, or adds its
      point to the tally of the rounds after it. */
  function RunRounds(labels: seq<string>, draws: seq<Draw>, answers: seq<string>): (r: Result<Tally>)
    ensures r.Ok? ==> Accounts(labels, draws, answers, r.value)
    ensures r == Err(EndOfInput) ==> |answers| < |draws| && "exit" !in answers
  {
    if |draws| == 0 then Ok(Tally(0, 0, false))
    else
      match PlayRound(labels, draws[0], answers)
      case Err(e) => Err(e)
      case Ok(Stop) =>
        assert draws[..0] == [] && answers[..0] == [];
        Ok(Tally(0, 0, true))
      case Ok(Judged(point)) =>
        match RunRounds(labels, draws[1..], answers[1..])
        case Err(e) =>
          assert answers == [answers[0]] + answers[1..];
          Err(e)
        case Ok(t) => NextRound(labels, draws, answers, t, point)
  }

  /** The tally `t` accounts for the loop over `draws` and `answers`: the
      score is the number of scoring answers among those judged, at most
      one per round; no judged answer was `exit`; and the loop stopped
      early exactly when the next answer was `exit`. */
  predicate Accounts(labels: seq<string>, draws: seq<Draw>, answers: seq<string>, t: Tally)
  {
    && t.score <= t.answered <= |draws|
    && t.answered <= |answers|
    && (t.exited <==> t.answered < |draws|)
    && (t.exited ==> t.answered < |answers| && answers[t.answered] == "exit")
    && "exit" !in answers[..t.answered]
    && t.score == CountScores(labels, draws[..t.answered], answers[..t.answered])
  }

  /** The tally after a judged first round worth `point`, given the tally
      `t` of the remaining rounds. */
  function NextRound(labels: seq<string>, draws: seq<Draw>, answers: seq<string>, t: Tally, point: nat): (r: Result<Tally>)
    requires 0 < |draws| && 0 < |answers| && answers[0] != "exit"
    requires point == if Scores(labels, draws[0], answers[0]) then 1 else 0
    requires Accounts(labels, draws[1..], answers[1..], t)
    ensures r.Ok? && Accounts(labels, draws, answers, r.value)
  {
    var n := t.answered + 1;
    CountScoresStep(labels, draws, answers, n);
    assert answers[..n] == [answers[0]] + answers[1..][..t.answered];
    Ok(Tally(t.score + point, n, t.exited))
  }

  /** Counting the first `n` rounds is judging the first round and
      counting `n - 1` rounds from the second on. */
  lemma CountScoresStep(labels: seq<string>, draws: seq<Draw>, answers: seq<string>, n: nat)
    requires 0 < n <= |draws| && n <= |answers|
    ensures CountScores(labels, draws[..n], answers[..n])
      == (if Scores(labels, draws[0], answers[0]) then 1 else 0) + CountScores(labels, draws[1..][..n - 1], answers[1..][..n - 1])
  {
    assert draws[..n][1..] == draws[1..][..n - 1];
    assert answers[..n][1..] == answers[1..][..n - 1];
  }

  /** An interval of a mode whose labels were built has a two-field entry. */
  lemma ModeIntervalLabelled(intervals: seq<int>, labels: seq<string>, distance: int)
    requires ValidInputs(intervals) == Ok(labels) && distance in intervals
    ensures LabelledPair(distance)
    ensures IntervalMap[distance][0] in labels
  {
    var k :| 0 <= k < |intervals| && intervals[k] == distance;
    assert labels[k] == IntervalMap[distance][0];
  }

  /** With draws the random source can make, the loop fails only by input
      running out: it completes exactly when there is an answer for every
      round or an `exit` is typed before the answers run out. */
  lemma {:induction false} ValidDrawsComplete(mode: QuizMode, labels: seq<string>, draws: seq<Draw>, answers: seq<string>)
    requires ValidInputs(mode.intervals) == Ok(labels)
    requires forall k :: 0 <= k < |draws| ==> ValidDraw(mode, draws[k])
    ensures RunRounds(labels, draws, answers).Ok? <==> |draws| <= |answers| || "exit" in answers
    ensures RunRounds(labels, draws, answers).Err? ==> RunRounds(labels, draws, answers).error == EndOfInput
    decreases |draws|
  {
    if |draws| > 0 && |answers| > 0 {
      assert ValidDraw(mode, draws[0]);
      ModeIntervalLabelled(mode.intervals, labels, draws[0].distance);
      if answers[0] != "exit" {
        assert forall k :: 0 <= k < |draws[1..]| ==> draws[1..][k] == draws[k + 1];
        ValidDrawsComplete(mode, labels, draws[1..], answers[1..]);
        assert answers == [answers[0]] + answers[1..];
      }
    } else if |draws| > 0 {
      assert ValidDraw(mode, draws[0]);
    }
  }

  /** No short label is the word `exit`. */
  lemma ExitIsNoLabel(semitones: int)
    requires semitones in IntervalMap
    ensures IntervalMap[semitones][0] != "exit"
  {
  }

  /** The answer key: every answer is the short label of its round's interval. */
  predicate AnswersKey(draws: seq<Draw>, answers: seq<string>)
  {
    && |draws| <= |answers|
    && forall k :: 0 <= k < |draws| ==>
      draws[k].distance in IntervalMap && |IntervalMap[draws[k].distance]| > 0
      && answers[k] == IntervalMap[draws[k].distance][0]
  }

  /** Rounds that each score count fully. */
  lemma {:induction false} AllScoringCountsFully(labels: seq<string>, draws: seq<Draw>, answers: seq<string>)
    requires |draws| <= |answers|
    requires forall k :: 0 <= k < |draws| ==> Scores(labels, draws[k], answers[k])
    ensures CountScores(labels, draws, answers) == |draws|
    decreases |draws|
  {
    if |draws| > 0 {
      assert forall k :: 0 <= k < |draws[1..]| ==> draws[1..][k] == draws[k + 1] && answers[1..][k] == answers[k + 1];
      AllScoringCountsFully(labels, draws[1..], answers[1..]);
    }
  }

  /** Answering every round with its interval's short label scores every round. */
  lemma PerfectAnswersFullScore(mode: QuizMode, labels: seq<string>, draws: seq<Draw>, answers: seq<string>)
    requires ValidInputs(mode.intervals) == Ok(labels)
    requires forall k :: 0 <= k < |draws| ==> ValidDraw(mode, draws[k])
    requires AnswersKey(draws, answers)
    ensures RunRounds(labels, draws, answers) == Ok(Tally(|draws|, |draws|, false))
  {
    ValidDrawsComplete(mode, labels, draws, answers);
    var t := RunRounds(labels, draws, answers).value;
    forall k | 0 <= k < |draws|
      ensures Scores(labels, draws[k], answers[k])
    {
      assert ValidDraw(mode, draws[k]);
      ModeIntervalLabelled(mode.intervals, labels, draws[k].distance);
    }
    if t.exited {
      ExitIsNoLabel(draws[t.answered].distance);
      assert false;
    }
    assert draws[..t.answered] == draws;
    AllScoringCountsFully(labels, draws, answers[..|draws|]);
  }

  /** `start_interval_quiz(rounds, quiz_mode)`: an unknown mode raises
      before anything is played; otherwise the mode's labels are built and
      the rounds run on the cleaned answer lines, one draw per round and
      none when `rounds` is not positive. */
  function StartIntervalQuiz(rounds: int, modeName: string, draws: seq<Draw>, lines: seq<string>): (r: Result<Tally>)
    requires |draws| == if rounds > 0 then rounds else 0
    ensures modeName !in QuizModes ==> r == Err(InvalidQuizMode(modeName))
    ensures modeName in QuizModes && ValidInputs(QuizModes[modeName].intervals).Err? ==>
      r == Err(ValidInputs(QuizModes[modeName].intervals).error)
    ensures r.Ok? ==> && modeName in QuizModes
                      && r.value.score <= r.value.answered <= |draws|
                      && (!r.value.exited ==> r.value.answered == |draws|)
    ensures r.Ok? ==> && ValidInputs(QuizModes[modeName].intervals).Ok?
                      && Accounts(ValidInputs(QuizModes[modeName].intervals).value, draws, CleanAll(lines), r.value)
  {
    if modeName !in QuizModes then Err(InvalidQuizMode(modeName))
    else
      match ValidInputs(QuizModes[modeName].intervals)
      case Err(e) => Err(e)
      case Ok(labels) =>
        RunRounds(labels, draws, CleanAll(lines))
  }

  /** The full-octave mode raises while listing its labels, whatever the
      rounds and answers. */
  lemma FullSingleOctaveNeverStarts(rounds: int, draws: seq<Draw>, lines: seq<string>)
    requires |draws| == if rounds > 0 then rounds else 0
    ensures StartIntervalQuiz(rounds, "full_single_octave", draws, lines) == Err(UnpackMismatch(2, 3))
  {
    FullSingleOctaveFails();
  }

  /** In both major-scale modes, a quiz whose draws the random source can
      make fails only when the lines run out before the rounds and no line
      asked to exit, and an exit as the first answer ends it with nothing
      scored. */
  lemma MajorModesComplete(rounds: int, modeName: string, draws: seq<Draw>, lines: seq<string>)
    requires modeName == "basic_single_octave" || modeName == "basic_multiple_octaves"
    requires |draws| == if rounds > 0 then rounds else 0
    requires forall k :: 0 <= k < |draws| ==> ValidDraw(QuizModes[modeName], draws[k])
    ensures var r := StartIntervalQuiz(rounds, modeName, draws, lines);
      && (r.Ok? <==> |draws| <= |lines| || "exit" in CleanAll(lines))
      && (r.Err? ==> r.error == EndOfInput)
      && (0 < |draws| && 0 < |lines| && CleanAll(lines)[0] == "exit" ==> r == Ok(Tally(0, 0, true)))
  {
    var mode := QuizModes[modeName];
    assert modeName in QuizModes && mode.intervals == QuizMajorIntervals;
    var labels := ["2", "3", "4", "5", "6", "7", "8"];
    MajorModeLabels();
    assert StartIntervalQuiz(rounds, modeName, draws, lines) == RunRounds(labels, draws, CleanAll(lines));
    ValidDrawsComplete(mode, labels, draws, CleanAll(lines));
    if 0 < |draws| {
      assert ValidDraw(mode, draws[0]);
    }
  }
}
