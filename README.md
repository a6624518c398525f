# Fitness-test video service: a Dafny model of its decision logic

The service is a small Flask application. A user uploads an exercise video together
with an age and a gender. The service validates the request, stores the file under a
short random identifier and transcodes anything that is not MP4. It then hands the
video to a push-up counter and answers with a link to a result page. That page shows
the repetition count and a fitness label such as "Excellent" or "Below Average".
Beside the push-up classifier, the code carries three more classifiers driven by
normative tables: vertical jump, sit-and-reach and sit-ups.

The model covers:

- **The four classifiers** (`FitnessLevels`). Each is the source's nested conditional,
  written out, and each is proved equal to a threshold table (`Norms`, `Tiers`). The
  band properties are then proved through that table: thresholds are inclusive, every
  tier holds exactly on its half-open interval, and ratings are monotone. The push-up
  classifier is shown *not* to be monotone.
- **File-type validation** (`Routes.AllowedFile`). This covers the last-dot rule,
  case-insensitive extensions, and Python's `rsplit` and `lower` on the parts the
  rule uses (`Text`).
- **The upload handler** (`Routes.Upload`). It is an imperative method with early
  returns. Its inputs are the request form, the generated UUID text, the sanitised
  file name, the transcoder's outcome and the analyzer's outcome. It returns the
  response and the ordered list of file-system effects. Its contract states:
  - the order of the four 400 checks;
  - that nothing is written before validation passes;
  - the exact sequence of saves, transcodes and analyses;
  - both 500 paths;
  - the success response.
  `Naming` proves that the files one request writes are distinct, and that two
  requests with different identifiers of the same length never write to the same
  path. Every identifier is eight characters long, because `str(uuid4())` has 36.
- **The result pages** of both entry points (`Routes.AppResult`, `Routes.FitnessResult`),
  together with the query arguments the upload hands them (`Routes.ResultArgs`).

`app.py` and `fitness_test.py` have identical `allowed_file`, `get_pushup_level` and
`upload` code, so the model has one copy of each and cites both files. The two
`result` handlers differ, and each has its own function.

Four facts about the code shape the model:

- The push-up classifier is not a descending threshold walk. Its "Average" label
  covers a closed range, and counts between that range and the Excellent threshold
  fall back to "Below Average". `FitnessLevels.PushupNotMonotone` states this.
- Gender is any non-empty string. It is compared with `"male"` and `"female"` after
  lower-casing, and anything else classifies as "N/A".
- Validation rejects only a missing age or an age of 0. A negative age passes
  validation and then classifies as "N/A" (`Routes.NegativeAgeAccepted`).
- The upload handler always runs the push-up counter and the push-up classifier.
  The other three classifiers are never called from a route.

## Model

| member | source | states |
|---|---|---|
| Text.AfterLast | fitness_test.py:28 | `rsplit(".", 1)[1]`: absent exactly when the separator does not occur; otherwise it is the suffix after the last separator and contains no separator |
| Text.LastOccurrence | app.py:24 | a separator at `k` with none after it is the one `rsplit` splits at |
| Routes.AllowedFile | app.py:23-24 | an accepted name always contains a dot |
| Routes.AllowedFileMeans | fitness_test.py:27-28 | a name is accepted iff it has a final dot and the text after it, lower-cased, is one of mp4, mov, avi, webm, mkv |
| Routes.AllowedFileAt | app.py:24 | at the final dot, acceptance is exactly the extension test on the text after it |
| Routes.AllowedFileIgnoresCase | app.py:18-24 | "a.MOV" and "clip.Mp4" are accepted |
| Routes.AllowedFileLastSegment | fitness_test.py:22-28 | only the last extension counts: "holiday.tar.mkv" is accepted, "clip.mp4.exe" is rejected |
| Routes.AllowedFileRejects | fitness_test.py:22-28 | "clip.xyz", "video." and "mp4" are rejected |
| FitnessLevels.PushupLevel | app.py:42-91 | "N/A" exactly when the lower-cased gender is neither male nor female or the age is under 14; "Above Average" and "Poor" never occur |
| FitnessLevels.PushupByNorms | fitness_test.py:46-95 | the conditionals agree everywhere with the push-up table of (Excellent threshold, Average range) per gender and age band |
| Norms.PushupNormsShape | app.py:47-90 | in every push-up band the Average range is non-empty and ends at least two counts below the Excellent threshold |
| FitnessLevels.PushupWithinBand | app.py:47-90 | within a band: Excellent iff count ≥ threshold; Average iff the count is in the closed Average range; Below Average iff below that range or strictly between it and Excellent |
| FitnessLevels.PushupNotMonotone | fitness_test.py:51-94 | in every band, the top of the Average range is "Average" and one more repetition is "Below Average", which ranks lower |
| FitnessLevels.PushupExcellentInclusive | fitness_test.py:53-54 | the Excellent threshold is inclusive: meeting it is "Excellent", one fewer is not |
| FitnessLevels.JumpLevel | fitness_test.py:98-150 | "N/A" exactly when the gender is unrecognised or the age is under 16 |
| FitnessLevels.JumpByNorms | fitness_test.py:103-149 | the conditionals agree everywhere with the jump table (four thresholds, floor "Poor") |
| Norms.JumpScaleDescending | fitness_test.py:104-149 | every jump band has strictly decreasing thresholds and strictly decreasing labels above a "Poor" floor |
| FitnessLevels.JumpMonotone | fitness_test.py:104-149 | within a band, a greater height never earns a lower-ranked label |
| FitnessLevels.JumpTier | fitness_test.py:104-149 | tier i is earned iff threshold_i ≤ height < threshold_(i-1), and "Poor" iff the height is below the lowest threshold |
| FitnessLevels.ReachLevel | fitness_test.py:152-180 | "N/A" exactly when the gender is unrecognised or the age is outside 16..30; never "Poor" |
| FitnessLevels.ReachByNorms | fitness_test.py:157-179 | the conditionals agree everywhere with the reach table (three thresholds, floor "Below Average") |
| Norms.ReachScaleDescending | fitness_test.py:158-179 | every reach band is strictly descending above a "Below Average" floor |
| FitnessLevels.ReachMonotone | fitness_test.py:158-179 | within a band, a greater reach never earns a lower-ranked label |
| FitnessLevels.ReachTier | fitness_test.py:159-179 | tier i is earned iff threshold_i ≤ reach < threshold_(i-1), and "Below Average" iff the reach is below the lowest threshold |
| FitnessLevels.SitupLevel | fitness_test.py:182-221 | "N/A" exactly when the gender is unrecognised or the age is outside 16..39; never "Poor" |
| FitnessLevels.SitupByNorms | fitness_test.py:187-220 | the conditionals agree everywhere with the sit-up table (three thresholds, floor "Below Average") |
| Norms.SitupScaleDescending | fitness_test.py:187-220 | every sit-up band is strictly descending above a "Below Average" floor |
| FitnessLevels.SitupMonotone | fitness_test.py:187-220 | within a band, more sit-ups never earn a lower-ranked label |
| FitnessLevels.SitupTier | fitness_test.py:188-220 | tier i is earned iff threshold_i ≤ count < threshold_(i-1), and "Below Average" iff the count is below the lowest threshold |
| Tiers.StepsDownIsDescending | fitness_test.py:104-149 | a table whose neighbouring thresholds and labels step down is descending for every pair of tiers |
| Tiers.WalkBound | fitness_test.py:104-149 | a descending walk never answers "N/A" and never ranks above its first tier |
| Tiers.WalkSelects | fitness_test.py:104-149 | in a descending table the walk returns tier i iff the measurement meets threshold i and misses threshold i-1 |
| Tiers.WalkFloor | fitness_test.py:104-149 | the walk returns the floor iff the measurement is below every threshold |
| Tiers.WalkMonotone | fitness_test.py:104-149 | in a descending table the label's rank never decreases as the measurement grows |
| Text.Lower | app.py:47 | the model's lower-casing: same length, each character lower-cased on its own (A–Z and U+212A) |
| Text.LowerIdempotent | fitness_test.py:51 | lower-casing an already lower-cased string changes nothing |
| Levels.SexOfSpelling | app.py:47-69 | the gender is male iff it is four characters that lower-case to `m`,`a`,`l`,`e`, and female iff six that lower-case to `f`,`e`,`m`,`a`,`l`,`e` |
| FitnessLevels.GenderSpellings | fitness_test.py:51 | "male", "MALE" and "Male" are male; "female" and "Female" are female; "other", "" and "m" are unrecognised |
| FitnessLevels.DocumentedCases | fitness_test.py:46-221 | worked cases: 40, 35 and 20 push-ups at male 16; 26..34 is "Below Average" there; jump, reach and sit-up age limits |
| Naming.ShortId | app.py:118 | `str(uuid)[:8]`: a prefix of the UUID text, eight characters long when the text has at least eight |
| Naming.Basename | app.py:154 | `os.path.basename` returns text without a separator |
| Naming.ArtifactsDistinct | app.py:116-141 | the upload, converted and output paths of one request are pairwise distinct |
| Naming.DistinctIdsDisjointArtifacts | fitness_test.py:250-273 | two requests with different identifiers of the same length write to disjoint sets of paths |
| Naming.OutputBasename | app.py:139-154 | the result link's video name for the planned output path is `processed_<id>.mp4` |
| Routes.NegativeAgeAccepted | app.py:110-111 | `all([age, gender])` accepts any negative age with a non-empty gender, and the push-up classifier then answers "N/A" |
| Routes.AgeAndGenderRequired | fitness_test.py:242-243 | a missing age, an age of 0, a missing gender and an empty gender are each rejected |
| Routes.NeedsConversionAt | app.py:124-126 | at the sanitised name's final dot, transcoding is needed iff the extension, lower-cased, is not `mp4` |
| Routes.Upload | app.py:98-158 | checks in source order (no file part, empty name, missing age or gender, disallowed type); 400 iff validation fails and nothing is written then; saves, then transcodes non-MP4 uploads; 500 with the ffmpeg message if the transcoder exits non-zero; an escaping exception (fault) after the save if the transcoder cannot be started or the sanitised name has no dot; 500 "Processing error: …" if the analyzer raises; otherwise the basename of the produced file, the count and the push-up label, which is `processed_<id>.mp4` when the analyzer writes where it was asked; every write targets one of the request's own paths |
| Routes.Report | app.py:149-156 | the success answer carries the produced file's basename, the count and that count's push-up label; for the planned output path the name is `processed_<id>.mp4` |
| Routes.ResultArgs | app.py:153-156 | the result link carries exactly `video`, `reps` and `level`, with video and level as computed and `reps` the count's decimal text |
| Text.DecimalText | app.py:155 | `str(reps)`: non-empty, digits with a leading `-` exactly for a negative count, and no leading zero |
| Text.DecimalRoundTrip | app.py:155 | reading the text back as an integer gives the count, so the link carries the number itself |
| Routes.AppResult | app.py:160-170 | 400 "Missing video" iff the video argument is missing or empty; otherwise `reps` defaults to "?" and `level` to "N/A" |
| Routes.FitnessResult | fitness_test.py:295-304 | the same 400 rule; otherwise the page gets `/static/outputs/<video>`, with `reach` defaulting to "?" and `level` to "N/A" |
| Routes.AppResultShowsUpload | app.py:150-170 | app.py's result page shows exactly the count and label a successful upload computed, whenever the video name is non-empty (always, when the analyzer writes where it was asked) |
| Routes.FitnessResultLosesCount | fitness_test.py:285-304 | fitness_test.py's result page always shows "?" for the count, because the upload sends `reps` and the page reads `reach` |

## Left out

- Transcoding (`convert_webm_to_mp4`) is an external `ffmpeg` process. It is modelled
  only by how the process behaves, the `transcoder` parameter of `Routes.Upload`:
  exit 0, a non-zero exit, or failure to start. The failure to start raises an
  `OSError` that the function does not catch. The command line and the hard-coded
  executable path are not modelled.
- The analyzers (`pushup_counter`, and the jump, situp and reach analyzers the second
  entry point imports but never calls) are image processing. Their outcome is the
  `analysis` parameter: a count with an output path, or a raised message.
- `secure_filename`, `uuid.uuid4()`, `jsonify` and `render_template` are library code.
  The sanitised name and the UUID text are parameters. Responses and pages are
  datatypes, not JSON or HTML.
- `url_for` percent-encoding and the URL text are not modelled. The result link is
  modelled as its query map, which is what the result handler reads back.
- Flask request parsing is not modelled. `request.form.get("age", type=int)` is an
  `Option<int>`, with a non-numeric age appearing as absent. A file part whose
  filename is `None` is not modelled: the name is always a string.
- Disk I/O by `file.save` is recorded as an ordered list of effects. Writes that fail
  are not modelled. The start-up folder creation (`os.makedirs`) is not modelled.
- `Naming.Basename`: states only that the result has no separator, not that it is
  the path's final segment.
- The `float()` coercion in the jump and reach classifiers is not modelled. Those
  classifiers take a real measurement, so a value that `float()` rejects has no
  counterpart. Floating-point rounding is not modelled either.
- Paths use `/` as the separator (POSIX `os.path`). The Windows behaviour implied by
  the hard-coded `ffmpeg.exe` path, where `os.path.join` uses `\`, is not modelled.
- `str.lower()` is modelled for A–Z and for the Kelvin sign (U+212A), which is the only
  non-ASCII character whose lower-case form is an ASCII letter. Every comparison in
  the code is against an ASCII literal, so other characters cannot change an outcome.
  Their exact lower-case forms are not modelled.
- The `index` route only renders a template and is not modelled. Concurrency between
  requests is not modelled beyond the disjointness of their paths.
