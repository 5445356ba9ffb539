# Melody adaptation core, modelled in Dafny

This project models the melody-adaptation layer of a call-and-response melody
system, together with the small helpers it relies on. A generated base melody
is adapted to the rhythm of a control melody. The adaptation pipeline runs the
registered adaptation operations in order. The rhythm-quantisation operation
(`SameNoteOffsetsOperation`) works in four steps:

- it builds the list of allowed offsets from the control melody's per-beat
  offset histogram (`note_offsets_per_beat`);
- it snaps every base note onto that list;
- it spreads apart notes that end up on the same offset;
- it shortens notes that run into their successor.

Around the operation, the project also models:

- the analysis dispatcher and the melody containers;
- the normalisation front end of the similarity evaluation;
- the melodic-expectancy rating, in its Python form and in its JavaScript
  experiment with the greedy next-pitch prediction loop;
- the splitting of a song's melody track into call/response excerpts;
- the pitch-class and string helpers.

Modules follow the source files:

| module | file | form |
|---|---|---|
| `Outcomes` | – | Python exceptions become `Err` values of a `Result` |
| `Music` | – | notes, parts, scores, analysis and metadata maps |
| `PythonNumbers` | – | `abs`, `int()`, `% 1`, banker's-rounding `round` on reals |
| `Sorting` | – | stable insertion sort by a key, for `sorted` and `list.sort` |
| `Strings` | `strings.py` | functions |
| `Melodies` | `melodies.py` | functions, plus `find_closest` |
| `Metrical` | `metrical.py` | a method with loops |
| `MelodyData` | `melody_data.py` | two classes |
| `AdaptationOperation` | – | an operation as a value with an `execute` function |
| `AdaptationPipeline` | `adaptation_pipeline.py` | a class over a `seq` of operations and a `set` of names |
| `Analysis` | `analysis.py` | methods filling a map in a loop |
| `Evaluation` | `evaluation.py` | a class; normalisation is a loop over the keys |
| `Expectancy` | `expectancy.py` | rating function and a loop building the rating list |
| `MagulisExpectancy` | `magulis-expectancy.js` | JS rating function (with `undefined`/`NaN`) and the prediction loops |
| `SequenceExtraction` | `sequence_extraction.py` | pure helpers and the windowing loop as a method |
| `SameNoteOffsets` | `same_note_offsets_operation.py` | the passes as loops, each proved against a function |

Each loop of the source that updates variables step by step is a `method`
with a `while` loop; the search loop of `get_melody_track`, which only
returns the first match, is the recursive function `GetMelodyTrack`. A
method's `ensures` ties
the result to a specification function, and the properties are proved about
that function as lemmas:

- `BuildAllowedOffsets` against `AllowedOffsets`;
- `SpreadNotesOfPart` against `SpreadPart`;
- `ExtractMelodiesToFolder` against `ExtractMelodies`;
- `RunPrediction` against `RatingsRow` and `Prediction`.

Objects whose fields the source updates are classes with `modifies` clauses:

- `AdaptationMelodyData` and `MelodyData`;
- `Pipeline`;
- `Evaluation`.

Offsets, durations and ratings are `real`. Pitches and counters are `int`.

## Model

| member | source | states |
|---|---|---|
| Strings.RemovePrefix | src/utils/strings.py:7-20 | if `text` starts with `prefix` then `prefix + r == text`, otherwise `r == text`; never longer than `text` |
| Strings.RemoveSuffix | src/utils/strings.py:23-36 | for a non-empty suffix that ends `text`, `r + suffix == text`; an empty suffix gives `""` (`text[:-0]`); otherwise `r == text`; never longer |
| Strings.SliceStop | src/utils/strings.py:35 | Python's slice stop: a non-negative stop is kept, a negative one counts from the end, the result never exceeds the length |
| Melodies.GetPitchClass | src/utils/melodies.py:6-16 | the pitch class lies in 0..11, differs from the pitch by a multiple of 12, and is the pitch itself for 0..11 |
| Melodies.PitchClassOctaveInvariant | src/utils/melodies.py:16 | moving a pitch by whole octaves leaves its pitch class unchanged |
| Melodies.FindClosest | src/adaptation/operations/same_note_offsets_operation.py:49 | `find_closest` returns a member of the non-empty list at minimal distance from the target |
| Melodies.FindClosestOfMember | src/adaptation/operations/same_note_offsets_operation.py:59-60 | a target already in the list is its own closest value (the spreading pass re-finds a snapped offset) |
| Melodies.IndexOf | src/adaptation/operations/same_note_offsets_operation.py:60 | `list.index`: the first position holding the value |
| PythonNumbers.Abs | src/adaptation/operations/same_note_offsets_operation.py:49 | the absolute value used to measure closeness: non-negative and `±x` |
| PythonNumbers.Trunc | src/analysis/metrical.py:62 | `int(x)` truncates toward zero, from below for non-negative and from above for negative `x` |
| PythonNumbers.Frac | src/analysis/metrical.py:63 | `x % 1` lies in [0, 1) and differs from `x` by an integer |
| PythonNumbers.RoundHalfEven | src/adaptation/operations/same_note_offsets_operation.py:33 | `round` is within 0.5 of `x`, and on a tie it is even |
| Sorting.SortBy | src/adaptation/operations/same_note_offsets_operation.py:43 | the result is sorted by the key and is a permutation of the input |
| Sorting.Insert | src/adaptation/operations/same_note_offsets_operation.py:43 | inserting into a sorted list keeps it sorted and adds exactly the new element |
| Sorting.SortByMembers | src/adaptation/operations/same_note_offsets_operation.py:76 | sorting keeps exactly the same members |
| Sorting.SortBySorted | src/adaptation/operations/same_note_offsets_operation.py:76 | sorting a list already in key order returns it unchanged |
| Music.FlatNotes | src/analysis/metrical.py:61 | `stream.flat.notes` holds every note of every part and nothing else |
| Music.HighestTime | src/adaptation/operations/same_note_offsets_operation.py:33 | the stream's length is the latest note end (0 for no notes): no note ends after it |
| Music.Merge | src/datatypes/melody_data.py:30 | `{**a, **b}`: keys are the union, `b` wins on shared keys, `a` keeps the rest |
| Metrical.BeatCount | src/analysis/metrical.py:52-55 | the time-signature numerator, or 4 without one; always at least 1 |
| Metrical.BeatOf | src/analysis/metrical.py:62 | `int(offset) % beat_count` is a valid beat index |
| Metrical.LeastExists | src/analysis/metrical.py:66-67 | a non-empty finite set of offsets has a least element |
| Metrical.SortedFromSet | src/analysis/metrical.py:66-67 | `sorted(set)` is strictly increasing and holds exactly the set's members |
| Metrical.NoteOffsetsPerBeat | src/analysis/metrical.py:38-69 | exactly `beat_count` lists; each strictly increasing; list `b` holds exactly the fractional offsets of the notes whose truncated offset is `b` mod `beat_count` (so no notes gives empty lists) |
| MelodyData.AdaptationMelodyData.constructor | src/datatypes/melody_data.py:9-12 | stores the stream; `analysis` and `meta` start empty |
| MelodyData.AdaptationMelodyData.SetState | src/adaptation/adaptation_pipeline.py:36 | `base` becomes exactly what the operation returned |
| MelodyData.MelodyData.constructor | src/datatypes/melody_data.py:17-22 | stores the arguments; a missing `analysis` or `evaluation` becomes `{}`, a given one is kept |
| MelodyData.MelodyData.ToAdaptationData | src/datatypes/melody_data.py:24-26 | a fresh object holding the converted sequence, with empty analysis and meta whatever `self` holds |
| MelodyData.MelodyData.UpdateSequenceFromAdaptationData | src/datatypes/melody_data.py:28-31 | sequence replaced by the conversion; analysis right-biased merged; `meta['adaptation']` created or updated with `data.meta`, other meta keys untouched; an existing non-dict entry is an `AttributeError`; sequence type and evaluation unchanged |
| AdaptationPipeline.RequiredBy | src/adaptation/adaptation_pipeline.py:15 | a name is required iff some registered operation requires it |
| AdaptationPipeline.RequiredByAppend | src/adaptation/adaptation_pipeline.py:13-15 | the requirements of `a + b` are the union of those of `a` and of `b` |
| AdaptationPipeline.RunAppend | src/adaptation/adaptation_pipeline.py:35-36 | running `a + b` runs `a`, then `b` on its output, stopping at the first exception |
| AdaptationPipeline.RunSingle | src/adaptation/adaptation_pipeline.py:35-36 | a one-operation pipeline is that operation |
| AdaptationPipeline.Pipeline.constructor | src/adaptation/adaptation_pipeline.py:8-10 | no operations and no required analysis |
| AdaptationPipeline.Pipeline.Register | src/adaptation/adaptation_pipeline.py:13-15 | appends exactly one operation, keeps the earlier ones in order, adds its requirements, and keeps the union invariant |
| AdaptationPipeline.Pipeline.RequiredAnalysis | src/adaptation/adaptation_pipeline.py:17-19 | equals the union of the registered operations' requirements |
| AdaptationPipeline.Pipeline.Execute | src/adaptation/adaptation_pipeline.py:22-41 | `base` ends as the operations applied in registration order to the same control and analysis, then `meta['adaptation_duration']` written; with no operations only that key changes; an exception stops the run; the pipeline and control are unchanged |
| Analysis.AnalyzeScore | src/analysis/analysis.py:6-10 | the keys are exactly the method names; each value is the last same-named method applied to the stream |
| Analysis.CollectOne | src/analysis/analysis.py:8-9 | one more loop step keeps the key set and the last-wins values |
| Analysis.Analyze | src/analysis/analysis.py:6-10 | as `AnalyzeScore` on `melody.sequence` |
| Analysis.AnalyzeMd | src/analysis/analysis.py:12-17 | as `AnalyzeScore` on the converted sequence: same key set as `analyze` |
| Evaluation.Normalized | src/evaluation/evaluation.py:38-42 | same keys as the results; each value times its factor gives back the result |
| Evaluation.Evaluation.constructor | src/evaluation/evaluation.py:8-9 | stores the factors |
| Evaluation.Evaluation.SetNormalizationFactors | src/evaluation/evaluation.py:30-31 | replaces the factors wholesale |
| Evaluation.Evaluation.Normalize | src/evaluation/evaluation.py:34-42 | no factors: `None`; with factors: success iff every key has a non-zero factor, and then the per-key quotients; otherwise a `KeyError` or `ZeroDivisionError` for some bad key |
| Evaluation.Evaluation.EvaluateSimilarity | src/evaluation/evaluation.py:12-26 | without features: the distances and their normalisation; with features: a `TypeError` iff a requested feature is among the distances, else empty maps; the factors never change |
| Expectancy.TablesWellFormed | src/analysis/expectancy.py:9-12 | the four rating tables have 13 non-negative entries |
| Expectancy.Cap12 | src/analysis/expectancy.py:24-25 | a capped interval is at most 12, so every lookup is in range |
| Expectancy.CalcExpectancyRatingForPitch | src/analysis/expectancy.py:16-43 | three components iff `single_ratings`; the combined rating is never negative |
| Expectancy.ContinuesIff | src/analysis/expectancy.py:20-28 | continuation holds iff the three pitches move strictly up or strictly down |
| Expectancy.DirectionRatingBounds | src/analysis/expectancy.py:24-35 | `d` lies between 0 and 75, and is at most 20 when the melody continues |
| Expectancy.DirectionRatingRelations | src/analysis/expectancy.py:24-35 | two continuing candidates rate alike, two reversing ones rate alike, and a reversing candidate rates three times a repeated pitch |
| Expectancy.StabilityRatingCases | src/analysis/expectancy.py:30-38 | `s` lies between 2 and 6, and is 6 exactly for the root pitch class or for 9 right after 11 |
| Expectancy.OctaveInvariance | src/analysis/expectancy.py:16-43 | moving all three pitches by whole octaves keeps the rating, away from the raw 11→9 override |
| Expectancy.GetExpectancyRatingsForSequence | src/analysis/expectancy.py:45-57 | no instrument is an `IndexError`; otherwise two `None`s, then entry `n` rates notes `n`, `n-1`, `n-2`; length `max(2, notes)`; every rating non-negative |
| Expectancy.RateNext | src/analysis/expectancy.py:50-55 | one loop step appends the rating of the next note |
| MagulisExpectancy.At | experiments/JS-Expectation/magulis-expectancy.js:15-17 | an array read is a number iff the index is in range (`undefined` otherwise) |
| MagulisExpectancy.AgreesWithPython | experiments/JS-Expectation/magulis-expectancy.js:7-23 | for pitches in 0..12 the JS rating equals the Python combined rating, and with `single_ratings` it is only `d` (comma operator) |
| MagulisExpectancy.ComponentsAgree | experiments/JS-Expectation/magulis-expectancy.js:15-21 | each JS component equals the Python one for pitches in 0..12 |
| MagulisExpectancy.CombinationAgrees | experiments/JS-Expectation/magulis-expectancy.js:22 | `(s * p) + d` on the Python components is the Python combined rating |
| MagulisExpectancy.UncappedInterval | experiments/JS-Expectation/magulis-expectancy.js:15-16 | without capping, candidate 13 after two 0s reads past the tables and yields `NaN` |
| MagulisExpectancy.RatingsRow | experiments/JS-Expectation/magulis-expectancy.js:42-45 | one row rates exactly 13 candidates |
| MagulisExpectancy.Values | experiments/JS-Expectation/magulis-expectancy.js:51 | the numbers of an all-number row, position by position |
| MagulisExpectancy.MaxOf | experiments/JS-Expectation/magulis-expectancy.js:51 | `Math.max` is a member and bounds every entry |
| MagulisExpectancy.Prediction | experiments/JS-Expectation/magulis-expectancy.js:51 | `-1` iff some entry is not a number; otherwise the smallest index holding the maximum |
| MagulisExpectancy.PredictionInRange | experiments/JS-Expectation/magulis-expectancy.js:42-51 | with previous pitches in 0..12 every rating is a number and the prediction is in 0..12 |
| MagulisExpectancy.RateCandidates | experiments/JS-Expectation/magulis-expectancy.js:39-45 | the inner loop builds exactly the row of the 13 candidate ratings |
| MagulisExpectancy.RunPrediction | experiments/JS-Expectation/magulis-expectancy.js:25-59 | `max(2, n)` notes starting with the seeds and `n - 2` rows and predictions; row `i` rates from notes `i+1`, `i`; the prediction is its arg-max; note `i+2` has that pitch, start `(i+2)/2 + 1` and end half a beat later; seeds in 0..12 keep every pitch in 0..12 |
| MagulisExpectancy.PredictStep | experiments/JS-Expectation/magulis-expectancy.js:36-58 | one outer iteration keeps the row/prediction/note correspondence |
| SequenceExtraction.Lower | src/utils/sequence_extraction.py:100 | lower-casing keeps the length |
| SequenceExtraction.LowerProperties | src/utils/sequence_extraction.py:100 | the result has no upper-case ASCII letter, every other character is kept, and lower-casing twice is lower-casing once |
| SequenceExtraction.GetMelodyTrack | src/utils/sequence_extraction.py:98-103 | `None` iff no track is named melody/vocals/mel (any case); otherwise such a track, the first one |
| SequenceExtraction.ConvertTimeStepsToSeconds | src/utils/sequence_extraction.py:106-107 | the result times `bpm/60 * resolution` gives back the time steps; a zero rate is a `ZeroDivisionError` |
| SequenceExtraction.ExtractNote | src/utils/sequence_extraction.py:79-83 | a `ZeroDivisionError` iff `bpm/60 * resolution` is zero; otherwise the new time and duration times that rate give back the note's time after the window start and its duration, with pitch and velocity kept |
| SequenceExtraction.Decimal | src/utils/sequence_extraction.py:50 | at least one character, one below 10 and two from 10 to 99 |
| SequenceExtraction.DecimalDigits | src/utils/sequence_extraction.py:50 | `str(n)` is made of decimal digits, reads back as `n`, and has no leading zero |
| SequenceExtraction.Pad2 | src/utils/sequence_extraction.py:50 | `'{:02d}'` gives at least two characters, exactly two below 100 |
| SequenceExtraction.Pad2Digits | src/utils/sequence_extraction.py:50 | `'{:02d}'.format(n)` is made of decimal digits, reads back as `n`, and starts with a padding zero exactly when `n < 10` |
| SequenceExtraction.Extend | src/utils/sequence_extraction.py:44-45 | a note inside the window writes nothing; when its conversion fails the note is left shifted by the window start and the run stops |
| SequenceExtraction.Cross | src/utils/sequence_extraction.py:47-74 | a note at the window end writes the excerpt and moves the window on by one width; when its conversion fails the note is left shifted by the new window start and the run stops |
| SequenceExtraction.ScanStays | src/utils/sequence_extraction.py:48-59 | once a write fails or an exception is raised, the run stays stopped |
| SequenceExtraction.WindowStartIs | src/utils/sequence_extraction.py:64-66 | after `n` moves the window starts `n` widths (of `length_in_bars` bars) after the starting time |
| SequenceExtraction.StepInv | src/utils/sequence_extraction.py:41-74 | one loop step keeps the names, the untouched notes, pitch and velocity of every note, and the count/window bookkeeping; the written excerpts followed by the current one are the extracted kept notes in order |
| SequenceExtraction.ScanInv | src/utils/sequence_extraction.py:41-74 | the bookkeeping holds after every prefix of the loop |
| SequenceExtraction.LoopEndInv | src/utils/sequence_extraction.py:41-75 | the bookkeeping holds after the loop |
| SequenceExtraction.ExtractMelodies | src/utils/sequence_extraction.py:6-76 | 0 and no files without a melody track; an exception and no files when the setup reads fail; otherwise the loop's files and notes (a note whose conversion raised left shifted by the window start), 1 iff it ran through and -1 iff a write failed |
| SequenceExtraction.ExtractMelodiesToFolder | src/utils/sequence_extraction.py:6-76 | the loop computes `ExtractMelodies`, including the in-place shift of the note whose conversion raised |
| SequenceExtraction.VisitNote | src/utils/sequence_extraction.py:41-74 | one loop body branch by branch is one `Step`, including the note shifted in place when a conversion fails |
| SequenceExtraction.KeptNotesPrefix | src/utils/sequence_extraction.py:41-74 | the kept notes below `k` depend only on the notes below `k` |
| SequenceExtraction.ExtractedNames | src/utils/sequence_extraction.py:25-74 | the `i`-th file is `NN_call` for even `i`, `NN_response` for odd `i`, with `NN = 1 + i/2` |
| SequenceExtraction.LastExcerptDropped | src/utils/sequence_extraction.py:41-75 | on success the written excerpts, concatenated, are a prefix of the extracted kept notes in order, strictly shorter when any note is kept (the last excerpt is never written); every note keeps its pitch and velocity |
| SequenceExtraction.ZeroTempoShiftsNote | src/utils/sequence_extraction.py:79-83 | a zero tempo raises `ZeroDivisionError` after the note at 2000 was shifted to 80 by the window start 1920, and nothing is written |
| SequenceExtraction.FirstNoteDropped | src/utils/sequence_extraction.py:29-43 | a first note past the middle of its bar rounds the start up and is dropped |
| SameNoteOffsets.BucketRunLength | src/adaptation/operations/same_note_offsets_operation.py:39-41 | one beat list contributes `bar_count` offsets per relative offset |
| SameNoteOffsets.BucketRunMembers | src/adaptation/operations/same_note_offsets_operation.py:39-41 | one beat list contributes exactly `i*beat_count + beat + r` for each bar `i` and each `r` in it |
| SameNoteOffsets.CandidatesLength | src/adaptation/operations/same_note_offsets_operation.py:37-42 | `bar_count` × total bucket size offsets are appended |
| SameNoteOffsets.CandidatesOnGrid | src/adaptation/operations/same_note_offsets_operation.py:37-42 | every appended offset is `i*beat_count + b + r` for a bar, beat and relative offset |
| SameNoteOffsets.OnGridCandidates | src/adaptation/operations/same_note_offsets_operation.py:37-42 | every such grid point is appended |
| SameNoteOffsets.CandidatesMembers | src/adaptation/operations/same_note_offsets_operation.py:37-42 | appended offsets are exactly the grid points |
| SameNoteOffsets.AllowedOffsets | src/adaptation/operations/same_note_offsets_operation.py:34-43 | the allowed list is sorted and a permutation of the appended offsets |
| SameNoteOffsets.AllowedOffsetsFacts | src/adaptation/operations/same_note_offsets_operation.py:34-43 | the allowed list has `bar_count` × total bucket size entries and holds exactly the grid points |
| SameNoteOffsets.BuildAllowedOffsets | src/adaptation/operations/same_note_offsets_operation.py:34-43 | the three nested loops and the sort compute `AllowedOffsets` |
| SameNoteOffsets.SnapPart | src/adaptation/operations/same_note_offsets_operation.py:46-50 | same notes in order, each moved to an allowed offset no farther than any other allowed offset; pitch and duration kept |
| SameNoteOffsets.Collide | src/adaptation/operations/same_note_offsets_operation.py:62-69 | comparing with one later note keeps the number of notes |
| SameNoteOffsets.CollideMoves | src/adaptation/operations/same_note_offsets_operation.py:62-69 | on a clash the earlier note moves only to `allowed[idx-1]` (the last one for `idx == 0`), and only if that offset is not taken. Failing that, the later note moves only to `allowed[idx+1]`, only if `idx` is not the last index and that offset is not taken, and the offset is then appended to `taken`. The later note is marked for deletion only when neither move applies. At most one of the three happens; without a clash nothing changes |
| SameNoteOffsets.OthersKeeps | src/adaptation/operations/same_note_offsets_operation.py:61-69 | the inner loop keeps pitches, durations, earlier notes and grid membership, and dooms only later notes |
| SameNoteOffsets.VisitKeeps | src/adaptation/operations/same_note_offsets_operation.py:57-70 | one outer iteration keeps the same |
| SameNoteOffsets.SpreadFromKeeps | src/adaptation/operations/same_note_offsets_operation.py:57-70 | the whole outer loop keeps the same |
| SameNoteOffsets.RemoveDoomed | src/adaptation/operations/same_note_offsets_operation.py:71 | removal never adds a note and keeps every note not scheduled for deletion |
| SameNoteOffsets.SpreadPartFacts | src/adaptation/operations/same_note_offsets_operation.py:54-71 | the spreading pass keeps pitches and durations, never deletes the first note, and keeps offsets on the grid |
| SameNoteOffsets.SpreadPartDistinct | src/adaptation/operations/same_note_offsets_operation.py:54-71 | a part whose offsets are pairwise distinct is unchanged by the spreading pass |
| SameNoteOffsets.SpreadWrapsAround | src/adaptation/operations/same_note_offsets_operation.py:63-64 | a clash at the first allowed offset moves the note to the last one, onto another note |
| SameNoteOffsets.ShortenOverlaps | src/adaptation/operations/same_note_offsets_operation.py:75-82 | the overlap pass keeps the number of notes and leaves them in offset order |
| SameNoteOffsets.TrimmedFacts | src/adaptation/operations/same_note_offsets_operation.py:78-82 | pitches and offsets kept; durations never grow and stay positive; a shortened note ends exactly at the next offset; no note sounds past a strictly later successor |
| SameNoteOffsets.ShortenOverlapsFacts | src/adaptation/operations/same_note_offsets_operation.py:75-82 | the same against the part in offset order |
| SameNoteOffsets.ShortenOverlapsIdempotent | src/adaptation/operations/same_note_offsets_operation.py:75-82 | a second overlap pass changes nothing |
| SameNoteOffsets.ShortenOverlapsFrom | src/adaptation/operations/same_note_offsets_operation.py:75-82 | every note afterwards has the pitch and offset of an input note |
| SameNoteOffsets.Apply | src/adaptation/operations/same_note_offsets_operation.py:24-85 | a missing analysis is a `KeyError`; success keeps the part count, time signature and analysis and records the meta |
| SameNoteOffsets.SnapSpreadPart | src/adaptation/operations/same_note_offsets_operation.py:46-71 | after snapping and spreading: no note added, the first survives, every offset allowed, every pitch from the input |
| SameNoteOffsets.PassesOnPart | src/adaptation/operations/same_note_offsets_operation.py:46-82 | after all three passes: as above, and in offset order |
| SameNoteOffsets.ApplyParts | src/adaptation/operations/same_note_offsets_operation.py:24-85 | every part of a successful run satisfies `PassesOnPart` |
| SameNoteOffsets.SnapAll | src/adaptation/operations/same_note_offsets_operation.py:46-50 | one snapped part per part |
| SameNoteOffsets.SpreadAll | src/adaptation/operations/same_note_offsets_operation.py:54-71 | one spread part per part |
| SameNoteOffsets.ShortenAll | src/adaptation/operations/same_note_offsets_operation.py:75-82 | one shortened part per part |
| SameNoteOffsets.SnapNotes | src/adaptation/operations/same_note_offsets_operation.py:46-50 | the snapping loops compute `SnapAll` |
| SameNoteOffsets.CompareWithLater | src/adaptation/operations/same_note_offsets_operation.py:61-69 | the inner loop computes `Others` |
| SameNoteOffsets.SpreadNotesOfPart | src/adaptation/operations/same_note_offsets_operation.py:55-71 | the spreading loops on one part compute `SpreadPart` |
| SameNoteOffsets.SpreadNotes | src/adaptation/operations/same_note_offsets_operation.py:54-71 | the spreading loop computes `SpreadAll` |
| SameNoteOffsets.ShortenNotes | src/adaptation/operations/same_note_offsets_operation.py:75-82 | the overlap loops compute `ShortenAll` |
| SameNoteOffsets.Execute | src/adaptation/operations/same_note_offsets_operation.py:24-85 | `base` ends as `Apply` says on success, and is unchanged on an exception |

## Left out

- The wall clock (`time.time()` in the pipeline and the operation, `performance.now()` in the JS script) is not modelled. The pipeline's measured duration is a parameter of `Pipeline.Execute`.
- Console output (`print`, `console.log`) is not modelled. The error message that `__normalize` prints when no factors are set is dropped.
- File-system effects in `extract_melodies_to_folder` are modelled as data:
  - `Path.mkdir` is left out;
  - every `muspy.write_midi` call becomes a `Written(path, excerpt)` event;
  - whether a write succeeds is the parameter `canWrite`;
  - the excerpt holds only the extracted notes, not the resolution, tempo and time signature that `__create_new_empty_track` copies.
- `find_closest` is not part of this model's source files. `Melodies.FindClosest` is written here with the contract the operation relies on: a member of the list at minimal distance. Its body takes the earliest such member on a tie, but the contract does not promise which one.
- `SameNoteOffsets.Apply` and `SameNoteOffsets.Execute` assume that `find_closest` raises `ValueError` on an empty list. So when the allowed list is empty and some part has notes, the operation is modelled as failing with `ValueError` before any change.
- `create_meta_and_update_base` is not part of this model's source files. The meta bookkeeping is the opaque parameter `record`, and the adapted sequence is written back to `base`.
- The analysis functions (`note_offsets_per_beat` aside), `analyze_pretty_midi` and `calc_distances` are opaque function values.
- The conversions between music21 streams and pretty_midi objects are modelled as lossless wrappers.
- music21 details are abstracted away:
  - `duration.quarterLength` of the control stream is modelled as the latest note end (`HighestTime`);
  - a part is a plain list of notes, and `p.remove(notes_to_delete)` removes the notes at the recorded positions.
- `SameNoteOffsets.SpreadNotesOfPart`: music21 keeps a part sorted by offset, so moving `note.offset` while iterating can reorder `p.notes` under the loop. The model iterates over the notes in their order at the start of the pass.
- `SameNoteOffsets.ShortenNotes`: `p.sorted` returns a sorted copy. Whether shortening that copy reaches the original notes depends on music21's copy semantics. The model applies the overlap pass to the part in offset order and stores that order back.
- `Pipeline.Execute` requires `base != control`, since an operation must not change the control melody. Aliasing between the two is not modelled.
- Operations are values taking `(base, control, control_analysis)`, the call the pipeline makes. `SameNoteOffsetsOperation.execute` as written accepts only two arguments, which would raise a `TypeError` when called from the pipeline. The model ignores the third argument instead.
- The operation reads `control.analysis[...]` as a list of per-beat lists. Any other stored value is modelled as a `TypeError`.
- `SequenceExtraction.Lower` lower-cases ASCII letters only; Unicode case folding is not modelled.
- Floating point is modelled as exact `real` arithmetic. Rounding in `float(...)`, `/` and the JS number type is not captured.
- The JS script's tables are the Python ones. The two files list identical values.
- `Evaluation.Evaluation.Normalize` models a zero factor as a `ZeroDivisionError`. That is what Python does for `int` and `float` values; for numpy `float64` values (as `calc_distances` may return) the division instead gives `inf` or `nan` with a runtime warning, which is not modelled.
- `Evaluation.Evaluation.EvaluateSimilarity` inherits that modelling of a zero factor from `Normalize`.
- `AdaptationPipeline.Pipeline.Execute` models each operation as updating `base` in place (through `AdaptationMelodyData.SetState`). An operation that returns a different object than the `base` it was given, and the identity of the object `execute` returns (the source returns the last operation's result), are not modelled. Operations are also modelled as all-or-nothing: a failing operation leaves `base` as it found it, so the partial in-place changes an operation could make before raising are not modelled. (`SameNoteOffsetsOperation` raises only before its first change.)
- `MelodyData.AdaptationMelodyData.SetState` is the in-place write-back that stands for rebinding `base` to the returned object; it is not a method of the source.
- `Evaluation.Evaluation.Normalize`: Python walks the dictionary in insertion order, so which bad key raises first is fixed. The model only promises that the error belongs to some bad key.
- Spreading does not guarantee that no two notes of a part share an offset. `SameNoteOffsets.SpreadWrapsAround` shows a part where two notes still share one afterwards; the model follows the code.
