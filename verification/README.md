# EarTrainer core in Dafny

This project models the core of EarTrainer, a small Python ear-training program. The program plays notes, scales, chords and drones, and runs an interval-recognition quiz. The model covers:

- **Pitch tables.** The reference octave (C4 to B4), the note order, the flat-to-sharp key and the scale tables. These live in `music_utils.py`. `utils.py` repeats the reference octave, the note order and the flat key, and holds the scales as step tables (`MAJOR_SCALE_STEPS`, `MINOR_SCALE_STEPS`) instead of interval tables.
- **Notes.** How a note name and an octave become a frequency (`Note.get_frequency`), and how a note's waveform is laid out (delay samples, then the normalised tone).
- **Normalisation and mixing.** `normalize_waveform`, and the summing of buffers in `play_chord`.
- **Scales and drones.** The note lists `play_scale` and `Drone.__init__` build.
- **The interval quiz.** The interval table, the quiz modes, the pitch arithmetic of `play_interval`, and the round loop of `start_interval_quiz`, modelled as a fold over the random draws and the typed answers.

Python exceptions are modelled as the `Err` case of a `Result` (module `Outcomes`):

| Error | Python source |
|---|---|
| `InvalidNote` | `ValueError("Invalid note")` |
| `NotInList` | `list.index` not finding the value |
| `EmptyPeak` | `np.max` of an empty array |
| `EmptyMax` | `max()` of an empty sequence |
| `InvalidQuizMode` | an unknown quiz mode |
| `MissingKey` | a `KeyError` on the interval table |
| `UnpackMismatch` | a tuple unpacking with the wrong arity |
| `EndOfInput` | `EOFError` from `input()` |

How the arithmetic is modelled:

- Frequencies and samples are exact reals. `2 ** k` is `Pow2(k)`, which also covers negative `k`.
- The float-to-int16 cast truncates toward zero (`Sound.Trunc`).
- Python's `//` and `%` by 12 are floor operations. For a positive divisor they agree with Dafny's Euclidean `/` and `%`, so the note arithmetic uses them directly.

Three behaviours of the code are easy to misread; the model follows what the code does:

- **Three-field interval entries.** The tritone and minor-sixth entries of `INTERVAL_MAP` (quiz.py:23 and quiz.py:25) have three fields, two short labels and a name. The quiz unpacks every entry of the chosen mode into exactly two names (quiz.py:154). So the `full_single_octave` mode raises while listing its labels, before any round is played (`Quiz.FullSingleOctaveFails`).
- **Drone octaves.** `Drone.__init__` (Drone.py:6) uses each entry of `drone_octaves` directly as a note's octave, so the default list `[-6, -4, -2, 0, 2, 4]` gives notes from octave -6 to octave 4.
- **Flat base notes in the quiz.** The `play_interval` docstring (quiz.py:74) names "Db" as a base note, and the comment at quiz.py:89 says the Note class handles flats. But a note keeps the name it was given (Note.py:12), and quiz.py:90 looks that flat name up in `NOTE_ORDER`, which raises (`Quiz.PlayInterval`).

## Model

| member | source | states |
|---|---|---|
| PitchTables.IndexOf | music_utils.py:36 | `list.index`: succeeds exactly when the value occurs, and then gives its first position; otherwise a not-in-list error |
| PitchTables.NoteIndex | quiz.py:90 | a note's position in the note order is below 12 and names that note; a name outside the order (a flat included) is an error |
| PitchTables.NoteOrderDistinct | music_utils.py:8 | the twelve names of the note order are pairwise distinct |
| PitchTables.ReferenceKeysAreNoteOrder | music_utils.py:2-8 | the reference octave has a frequency for exactly the names of the note order |
| PitchTables.FlatTargetsCanonical | music_utils.py:10-16 | every flat resolves to a sharp in the note order, and no flat spelling is itself in the order |
| PitchTables.IntervalTablesWithinOctave | music_utils.py:18-20 | the major and minor interval tables start at 0, strictly increase, and stay below 12 |
| PitchTables.NoteIndexOfCanonical | music_utils.py:8 | looking up the k-th name of the note order gives back k |
| UtilsTables.StepsRoundTrip | utils.py:18-20 | any interval table starting at 0 is the running sum of its successive steps, and those steps add up to an octave |
| UtilsTables.MajorStepsMatchIntervals | utils.py:18 | the running sums of the major step table are the major interval table, and the steps add up to 12 |
| UtilsTables.MinorStepsMatchIntervals | utils.py:20 | the running sums of the minor step table are the minor interval table, and the steps add up to 12 |
| UtilsTables.CopiesAgree | utils.py:2-16 | the tables duplicated in utils.py equal those in music_utils.py |
| Sound.Trunc | Note.py:50 | the int16 cast truncates toward zero: the result has the value's sign, and its magnitude is the value's magnitude rounded down |
| Sound.Peak | sound_utils.py:12 | the peak bounds every sample's magnitude and is reached by some sample |
| Sound.SilentIffPeakZero | sound_utils.py:12-15 | the peak is zero exactly when every sample is zero |
| Sound.Normalize | sound_utils.py:4-16 | an empty buffer fails; a silent buffer comes back unchanged; otherwise every sample becomes an integer of the same sign, within the target magnitude and within 1 of `x / peak * target`, and the peak samples map to plus or minus the target |
| Sound.NormalizeFitsInt16 | sound_utils.py:4-16 | every normalised sample fits the int16 range |
| Sound.NormalizedPeak | sound_utils.py:12-16 | a non-silent buffer normalised to a positive target has exactly that target as its peak |
| Sound.NormalizeFixesPeaked | sound_utils.py:12-16 | integral samples that already peak at the target are left unchanged |
| Sound.NormalizeIdempotent | sound_utils.py:4-16 | normalising twice to a positive target is normalising once |
| Sound.MaxLength | sound_utils.py:26 | the longest buffer length bounds every buffer and is reached by one of them |
| Sound.MixBuffers | sound_utils.py:25-31 | no buffers is an error; otherwise the mix is as long as the longest buffer, and each sample is the sum of the buffers that reach that position |
| Sound.ChordBuffer | sound_utils.py:25-33 | a chord buffer fails when there are no buffers or every buffer is empty; otherwise it is the sample-wise sum of the buffers, zero-padded to the longest, normalised so that it peaks at exactly 32767 unless it is silent, so every sample fits the int16 range |
| Sound.MixSingle | sound_utils.py:30-31 | mixing a single buffer gives that buffer back |
| Sound.ShortBufferAddsNothing | sound_utils.py:30-31 | a buffer shorter than a position contributes nothing at that position |
| Notes.Pow2 | Note.py:33-34 | `2 ** k` is positive for every integer exponent |
| Notes.Pow2Step | Note.py:34 | raising the exponent by one doubles the power |
| Notes.GetFrequency | Note.py:20-34 | a name gives a frequency exactly when it is canonical or a flat, and the frequency is positive; any other name is an invalid-note error |
| Notes.MakeNote | Note.py:11-18 | a note keeps the name, octave, volume, duration and delay it was given, and its frequency is its name's frequency in its octave |
| Notes.FlatAliasSameFrequency | Note.py:26-27 | a flat and the sharp it aliases have the same frequency in every octave |
| Notes.UnknownNamesRejected | Note.py:29-30 | the names `H` and `X#`, neither canonical nor a flat, give an invalid-note error, and so does constructing a note named `H` |
| Notes.KnownNameResolves | Note.py:26-34 | every canonical or flat name resolves to a key of the reference table, so `REFERENCE_OCTAVE[note]` never fails for a name the constructor accepts |
| Notes.ReferenceOctaveIsFour | Note.py:33-34 | in octave 4 a note's frequency is its reference frequency |
| Notes.OctaveDoubling | Note.py:32-34 | one octave up doubles the frequency |
| Notes.FlatSpellingKept | Note.py:12 | a flat note keeps its flat spelling, and that spelling is not in the note order |
| Notes.NoteWaveform | Note.py:42-50 | a waveform is the delay's zero samples followed by the normalised tone; its length is their sum; every sample fits int16; an empty tone fails |
| Scales.Transpose | quiz.py:93-98 | the transposed position is below 12, and its absolute pitch is the root's pitch plus the offset |
| Scales.PitchDeterminesSpelling | music_utils.py:40-41 | a position below 12 and an octave are fixed by their absolute pitch |
| Scales.ScaleNote | music_utils.py:40-42 | each scale note is canonical and well formed, sounds the interval above the root, and has the default volume and the given duration |
| Scales.ScaleNotes | music_utils.py:36-44 | a scale has one note per interval, in order, each the interval above the start note, with volume 0.5 and no delay; a start note outside the note order fails |
| Scales.ScaleNoteSpelling | music_utils.py:40-41 | scale note k is `NOTE_ORDER[(root + i_k) % 12]` in octave `octave + (root + i_k) // 12` |
| Scales.TableScalesWithinTwoOctaves | music_utils.py:18-20 | both interval tables give notes in the start octave or the next |
| Scales.CMajorScale | music_utils.py:36-44 | the C major scale from octave 4 is C D E F G A B, all in octave 4 |
| Scales.FMajorScaleWraps | music_utils.py:40-41 | the F major scale wraps to C, D and E of the next octave |
| Scales.FlatStartNoteFails | music_utils.py:36 | a scale cannot start on a flat spelling |
| Drones.MakeDrone | Drone.py:5-6 | a drone has one note per octave entry, in order, all with the same name, volume, duration and delay, at exactly those octaves; an unknown name fails unless the list is empty |
| Drones.DroneNotes | Drone.py:6 | every drone note shares the name, volume, duration and delay |
| Drones.DefaultDrone | Drone.py:5-6 | the default drone is six C notes at octaves -6 to 4, each a quarter of the frequency of the next |
| AnswerText.Strip | quiz.py:173-175 | `strip()` removes exactly the whitespace at both ends and leaves a part with non-space edges; only an all-whitespace answer strips to the empty string |
| AnswerText.StripIdempotent | quiz.py:175 | stripping twice is stripping once |
| AnswerText.Lower | quiz.py:175 | `lower()` keeps the length and lower-cases each letter |
| AnswerText.Clean | quiz.py:173-175 | a cleaned answer has no capitals and no whitespace at either end |
| AnswerText.CleanIdempotent | quiz.py:173-175 | cleaning a cleaned answer changes nothing |
| AnswerText.ShoutedExit | quiz.py:173-177 | `" EXIT\n"` still reads as an exit request |
| Quiz.Unpack2 | quiz.py:154 | a two-name unpacking succeeds exactly on two fields and gives them in order |
| Quiz.IntervalLabels | quiz.py:154 | an interval's labels are read exactly when its entry has two fields; a missing key and a wrong arity are errors |
| Quiz.ValidInputs | quiz.py:152-156 | the valid inputs are the short labels of the mode's intervals, in order; the first interval without a two-field entry raises its own error |
| Quiz.ShortLabelsDistinct | quiz.py:16-30 | no two intervals share a short label |
| Quiz.MajorModeLabels | quiz.py:152-156 | the major-scale modes accept 2, 3, 4, 5, 6, 7 and 8 |
| Quiz.FullSingleOctaveFails | quiz.py:152-156 | listing the full-octave mode's labels fails on the three-field tritone entry |
| Quiz.PlayInterval | quiz.py:68-106 | both notes are well formed, and the second sounds the distance above the first; a flat base note fails the lookup and an unknown name fails construction |
| Quiz.IntervalSpansOneOctave | quiz.py:93-98 | a distance of 0 to 12 puts the second note in the base octave or the next |
| Quiz.OctaveIntervalDoubles | quiz.py:93-106 | an octave interval gives the same name one octave up, at twice the frequency |
| Quiz.PlayCheckAgrees | quiz.py:68-106 | `play_interval` fails for a base note exactly when the note constructor rejects its name or the note order lacks it, with that same error |
| Quiz.RoundPoint | quiz.py:182-190 | an answer outside the valid inputs is worth nothing; a valid answer is worth one point exactly when it is the drawn interval's short label, and fails when that interval's entry does not have two fields |
| Quiz.PlayRound | quiz.py:161-190 | a round with a playable base note stops exactly when its answer is `exit`, fails with end of input exactly when no answer is left, and otherwise is worth one point exactly when the answer is a valid input equal to the drawn interval's short label |
| Quiz.RunRounds | quiz.py:161-192 | the score counts the judged answers that are valid inputs equal to their round's short label, at most one per round; no judged answer is `exit`; the loop stops early exactly when the next answer is `exit`; running out of input fails only when no answer was `exit` |
| Quiz.ValidDrawsComplete | quiz.py:161-179 | with draws the random source can make, the loop succeeds exactly when every round has an answer or some answer is `exit`, and otherwise fails with end of input |
| Quiz.ExitIsNoLabel | quiz.py:16-30 | no short label is `exit`, so the exit check never hides a correct answer |
| Quiz.PerfectAnswersFullScore | quiz.py:182-190 | answering every round with its interval's short label scores every round |
| Quiz.StartIntervalQuiz | quiz.py:130-192 | an unknown mode fails before any round; a label-listing failure fails the quiz; a finished quiz has score at most answers at most rounds, and all rounds answered unless exited; the score counts the cleaned answers that match their round's short label, up to the first `exit` |
| Quiz.FullSingleOctaveNeverStarts | quiz.py:130-156 | the full-octave quiz always fails with an arity mismatch of 2 against 3 |
| Quiz.MajorModesComplete | quiz.py:130-179 | a major-scale quiz succeeds exactly when there is a line for every round or some line cleans to `exit`, otherwise fails with end of input, and a first line that cleans to `exit` ends it with nothing scored |

## Left out

- Audio output (`sd.play`, `sd.wait`), `time.sleep` and every `print`: they do not affect any value the model computes.
- `random.choice` and `random.randint`: each round's draw is an input. `ValidDraw` states which draws the random source can produce.
- `input()`: the typed lines are an input sequence. End of input is the error `EndOfInput`.
- Sine synthesis (`np.linspace`, `np.sin`) and the sample counts `int(sample_rate * seconds)`: the tone samples and the delay length are parameters of `Notes.NoteWaveform`.
- The in-place `normalized_wave *= self.volume` on an int16 array (Note.py:49): its outcome depends on numpy's casting rules, not on the program's own logic. `Notes.NoteWaveform` does not apply the volume.
- Floating-point rounding: the reference frequencies and all sample arithmetic are exact reals.
- Sound.Normalize: requires a target magnitude of at most 32767, because numpy's cast of out-of-range floats to int16 is platform-dependent. The program only uses 32767.
- AnswerText.Lower: lower-cases ASCII letters only. Every short label and the word `exit` are ASCII. No non-ASCII character lower-cases to one of their letters, so comparisons against them are unaffected.
- Notes.OctaveDoubling: proves only a shift of one octave, not a general rule for `2 ** (a + b)`.
- main.py, a script that plays three notes at different volumes and a drone, `Note.play`, `Drone.play` and `play_scale`'s playback loop: they only sequence the modelled operations and play sound.
