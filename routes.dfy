/**
 * The request handlers: the upload pipeline (validate, name, transcode, analyse,
 * classify, answer) and the result page. The transcoder, the analyzer, the id
 * generator and `secure_filename` are outside the model: their outcomes arrive as
 * parameters, and what the handler asks of them is recorded as effects.
 */
module Routes {
  import opened Wrappers
  import opened Text
  import opened Levels
  import opened Naming
  import opened FitnessLevels

  // ---------------------------------------------------------------- file types

  const AllowedExtensions: set<string> := {"mp4", "mov", "avi", "webm", "mkv"}

  /** `ext.lower() in ALLOWED_EXTS`. */
  predicate AllowedExtension(ext: string) {
    Lower(ext) in AllowedExtensions
  }

  /** `allowed_file(filename)`: a dot, and the lower-cased text after the last dot is an accepted extension. */
  function AllowedFile(filename: string): (r: bool)
    ensures r ==> '.' in filename
  {
    '.' in filename && AllowedExtension(AfterLast(filename, '.').value)
  }

  /** The extension rule stated without `rsplit`: some dot with no dot after it is followed by an accepted extension. */
  lemma AllowedFileMeans(filename: string)
    ensures AllowedFile(filename) <==>
      exists k :: 0 <= k < |filename| && filename[k] == '.' && '.' !in filename[k + 1..]
        && AllowedExtension(filename[k + 1..])
  {
    if AllowedFile(filename) {
      var last := LastIndex(filename, '.').value;
      AllowedFileAt(filename, last);
    }
    if exists k :: 0 <= k < |filename| && filename[k] == '.' && '.' !in filename[k + 1..]
        && AllowedExtension(filename[k + 1..]) {
      var k :| 0 <= k < |filename| && filename[k] == '.' && '.' !in filename[k + 1..]
        && AllowedExtension(filename[k + 1..]);
      AllowedFileAt(filename, k);
    }
  }

  /** At the final dot, `allowed_file` is the extension test on what follows it. */
  lemma AllowedFileAt(filename: string, k: nat)
    requires k < |filename| && filename[k] == '.' && '.' !in filename[k + 1..]
    ensures AllowedFile(filename) == AllowedExtension(filename[k + 1..])
  {
    LastOccurrence(filename, '.', k);
  }

  /** The extension is compared case-insensitively. */
  lemma AllowedFileIgnoresCase()
    ensures AllowedFile("a.MOV")
    ensures AllowedFile("clip.Mp4")
  {
    AllowedFileAt("a.MOV", 1);
    assert "a.MOV"[2..] == "MOV";
    assert Lower("MOV") == "mov";
    AllowedFileAt("clip.Mp4", 4);
    assert "clip.Mp4"[5..] == "Mp4";
    assert Lower("Mp4") == "mp4";
  }

  /** Only the final dot-segment counts. */
  lemma AllowedFileLastSegment()
    ensures AllowedFile("holiday.tar.mkv")
    ensures !AllowedFile("clip.mp4.exe")
  {
    AllowedFileAt("holiday.tar.mkv", 11);
    assert "holiday.tar.mkv"[12..] == "mkv";
    assert Lower("mkv") == "mkv";
    AllowedFileAt("clip.mp4.exe", 8);
    assert "clip.mp4.exe"[9..] == "exe";
  }

  /** An unknown extension, an empty one, or no dot at all: refused. */
  lemma AllowedFileRejects()
    ensures !AllowedFile("clip.xyz")
    ensures !AllowedFile("video.")
    ensures !AllowedFile("mp4")
  {
    AllowedFileAt("clip.xyz", 4);
    assert "clip.xyz"[5..] == "xyz";
    AllowedFileAt("video.", 5);
  }

  // ---------------------------------------------------------------- upload

  /**
   * The request as the handler sees it: the file name of the `video` part if the
   * part is present, the `age` field parsed as an integer (absent when missing or
   * not a number) and the `gender` field.
   */
  datatype UploadForm = UploadForm(video: Option<string>, age: Option<int>, gender: Option<string>)

  /** What the analyzer does on this request: a count and the path it wrote, or an exception's message. */
  datatype Analysis = Counted(count: int, produced: string) | Raised(message: string)

  /**
   * How the external transcoder behaves on this request: it exits with status 0,
   * exits with another status (`CalledProcessError`, which `convert_webm_to_mp4`
   * turns into `False`), or cannot be started at all (`OSError`, which it does not
   * catch, so the exception escapes the handler).
   */
  datatype Transcoder = ExitsZero | ExitsNonZero | CannotStart

  /** Side effects in the order the handler performs them. */
  datatype Effect =
    | Saved(path: string)                      // the upload written to disk
    | Converted(source: string, target: string)  // transcoding attempted
    | Analyzed(source: string, target: string)   // the analyzer run

  datatype Response =
    | Refused(status: int, message: string)            // an error JSON body with its status
    | Fault                                            // an exception escapes the handler
    | Done(video: string, reps: int, level: string)    // the parameters of the result URL

  const ConversionFailed: string :=
    "Uploaded file is not MP4 and server conversion failed. Make sure ffmpeg path is correct."

  /** `all([age, gender])`: an age other than 0 and a non-empty gender. */
  predicate AgeAndGenderGiven(form: UploadForm) {
    form.age.Some? && form.age.value != 0 && form.gender.Some? && form.gender.value != ""
  }

  /** The form passes every check before the file is saved. */
  predicate Acceptable(form: UploadForm) {
    form.video.Some? && form.video.value != "" && AgeAndGenderGiven(form) && AllowedFile(form.video.value)
  }

  /** The sanitised name has an extension and it is not `mp4` in any case. */
  predicate NeedsConversion(secureName: string) {
    '.' in secureName && Lower(AfterLast(secureName, '.').value) != "mp4"
  }

  /**
   * `all([age, gender])` turns away only a missing or zero age and a missing or empty
   * gender: a negative age is accepted, and the push-up classifier then answers "N/A".
   */
  lemma NegativeAgeAccepted(form: UploadForm, count: int)
    requires form.age.Some? && form.age.value < 0
    requires form.gender.Some? && form.gender.value != ""
    ensures AgeAndGenderGiven(form)
    ensures PushupLevel(count, form.age.value, form.gender.value) == NotApplicable
  {
  }

  /** `all([age, gender])` rejects each of the four falsy cases. */
  lemma AgeAndGenderRequired(video: Option<string>)
    ensures !AgeAndGenderGiven(UploadForm(video, None, Some("male")))
    ensures !AgeAndGenderGiven(UploadForm(video, Some(0), Some("male")))
    ensures !AgeAndGenderGiven(UploadForm(video, Some(25), None))
    ensures !AgeAndGenderGiven(UploadForm(video, Some(25), Some("")))
  {
  }

  /** At the final dot of the sanitised name, transcoding is needed iff the extension is not `mp4` in any case. */
  lemma NeedsConversionAt(secureName: string, k: nat)
    requires k < |secureName| && secureName[k] == '.' && '.' !in secureName[k + 1..]
    ensures NeedsConversion(secureName) <==> Lower(secureName[k + 1..]) != "mp4"
  {
    LastOccurrence(secureName, '.', k);
  }

  /** The file an effect writes. */
  function Writes(e: Effect): string {
    match e
    case Saved(path) => path
    case Converted(_, target) => target
    case Analyzed(_, target) => target
  }

  /** Validation passed, the sanitised name has a dot, and either no transcoding was needed or it worked. */
  predicate ReachesAnalyzer(form: UploadForm, secureName: string, transcoder: Transcoder) {
    Acceptable(form) && '.' in secureName && (!NeedsConversion(secureName) || transcoder == ExitsZero)
  }

  /**
   * `upload()`. `uuid` is the text of the generated UUID, `secureName` what
   * `secure_filename` makes of the file name, `transcoder` how the
   * transcoder would behave if invoked, `analysis` what the push-up analyzer
   * would return or raise.
   */
  method Upload(form: UploadForm, uuid: string, secureName: string, transcoder: Transcoder, analysis: Analysis)
    returns (resp: Response, effects: seq<Effect>)
    // The checks run in this order and the first failure answers 400.
    ensures form.video.None? ==> resp == Refused(400, "No file part")
    ensures form.video == Some("") ==> resp == Refused(400, "No selected file")
    ensures form.video.Some? && form.video.value != "" && !AgeAndGenderGiven(form) ==>
      resp == Refused(400, "Age and gender are required")
    ensures form.video.Some? && form.video.value != "" && AgeAndGenderGiven(form) && !AllowedFile(form.video.value) ==>
      resp == Refused(400, "File type not allowed")
    ensures resp.Refused? && resp.status == 400 <==> !Acceptable(form)
    // Nothing happens before validation passes.
    ensures effects == [] <==> !Acceptable(form)
    // An exception escapes after the save: `rsplit(...)[1]` on a sanitised name
    // without a dot, or a transcoder that cannot be started.
    ensures resp == Fault <==>
      Acceptable(form) && ('.' !in secureName || (NeedsConversion(secureName) && transcoder == CannotStart))
    ensures Acceptable(form) && '.' !in secureName ==>
      resp == Fault && effects == [Saved(InputPath(ShortId(uuid), secureName))]
    // An mp4 upload is analysed where it was saved.
    ensures Acceptable(form) && '.' in secureName && !NeedsConversion(secureName) ==>
      effects == [Saved(InputPath(ShortId(uuid), secureName)), Analyzed(InputPath(ShortId(uuid), secureName), OutputPath(ShortId(uuid)))]
    // Anything else is transcoded first, and analysed only if that worked.
    ensures Acceptable(form) && NeedsConversion(secureName) && transcoder == ExitsZero ==>
      effects == [Saved(InputPath(ShortId(uuid), secureName)),
                  Converted(InputPath(ShortId(uuid), secureName), ConvertedPath(ShortId(uuid))),
                  Analyzed(ConvertedPath(ShortId(uuid)), OutputPath(ShortId(uuid)))]
    ensures Acceptable(form) && NeedsConversion(secureName) && transcoder != ExitsZero ==>
      effects == [Saved(InputPath(ShortId(uuid), secureName)),
                  Converted(InputPath(ShortId(uuid), secureName), ConvertedPath(ShortId(uuid)))]
      && resp == (if transcoder == ExitsNonZero then Refused(500, ConversionFailed) else Fault)
    // The analyzer's outcome decides the answer once it has run.
    ensures ReachesAnalyzer(form, secureName, transcoder) && analysis.Raised? ==>
      resp == Refused(500, "Processing error: " + analysis.message)
    ensures resp.Done? <==> ReachesAnalyzer(form, secureName, transcoder) && analysis.Counted?
    ensures resp.Done? ==>
      resp == Done(Basename(analysis.produced), analysis.count,
                   PushupLevel(analysis.count, form.age.value, form.gender.value).Label())
    // An analyzer that writes where it was asked to yields the link `processed_<id>.mp4`.
    ensures resp.Done? && analysis.produced == OutputPath(ShortId(uuid)) && '/' !in ShortId(uuid) ==>
      resp.video == OutputName(ShortId(uuid))
    // Every file the request writes is one of its own artifacts.
    ensures forall e :: e in effects ==> Writes(e) in Artifacts(ShortId(uuid), secureName)
  {
    effects := [];
    if form.video.None? {
      return Refused(400, "No file part"), effects;
    }
    var filename := form.video.value;
    if filename == "" {
      return Refused(400, "No selected file"), effects;
    }
    if !AgeAndGenderGiven(form) {
      return Refused(400, "Age and gender are required"), effects;
    }
    if !AllowedFile(filename) {
      return Refused(400, "File type not allowed"), effects;
    }

    var id := ShortId(uuid);
    var inputPath := InputPath(id, secureName);
    effects := effects + [Saved(inputPath)];

    var ext := AfterLast(secureName, '.');
    if ext.None? {
      return Fault, effects;
    }
    var processingInput := inputPath;
    if Lower(ext.value) != "mp4" {
      var convertedPath := ConvertedPath(id);
      effects := effects + [Converted(inputPath, convertedPath)];
      match transcoder
      case ExitsZero =>
        processingInput := convertedPath;
      case ExitsNonZero =>
        return Refused(500, ConversionFailed), effects;
      case CannotStart =>
        return Fault, effects;
    }

    var outputPath := OutputPath(id);
    effects := effects + [Analyzed(processingInput, outputPath)];
    match analysis
    case Raised(message) =>
      resp := Refused(500, "Processing error: " + message);
    case Counted(count, produced) =>
      resp := Report(count, produced, form.age.value, form.gender.value, id);
  }

  /**
   * The success answer of `upload()`: the name of the file the analyzer produced,
   * the count and its push-up label, which become the result link's parameters.
   */
  method Report(count: int, produced: string, age: int, gender: string, id: string) returns (resp: Response)
    ensures resp.Done? && resp.reps == count && resp.level == PushupLevel(count, age, gender).Label()
    ensures resp.video == Basename(produced)
    ensures produced == OutputPath(id) && '/' !in id ==> resp.video == OutputName(id)
  {
    if produced == OutputPath(id) && '/' !in id {
      OutputBasename(id);
    }
    var level := PushupLevel(count, age, gender);
    resp := Done(Basename(produced), count, level.Label());
  }


  // ---------------------------------------------------------------- result

  /** What `result()` answers: 400 "Missing video", or the template with the parameters it is given. */
  datatype ResultPage =
    | MissingVideo
    | PushupPage(pushupCount: string, pushupLevel: string)
    | ReachPage(videoUrl: string, maxReach: string, reachLevel: string)

  /** `request.args.get(key, default)`. */
  function Arg(args: map<string, string>, key: string, default: string): string {
    if key in args then args[key] else default
  }

  /** The query arguments of the URL the upload answers with: `url_for("result", video=..., reps=..., level=...)`. */
  function ResultArgs(resp: Response): (args: map<string, string>)
    requires resp.Done?
    ensures args.Keys == {"video", "reps", "level"}
    ensures args["video"] == resp.video && args["level"] == resp.level
    ensures args["reps"] == DecimalText(resp.reps)
  {
    map["video" := resp.video, "reps" := DecimalText(resp.reps), "level" := resp.level]
  }

  /** `url_for("static", filename=f"outputs/{video}")`. */
  function OutputUrl(video: string): string {
    "/static/" + "outputs/" + video
  }

  /** app.py's `result()`: 400 without a (non-empty) video; otherwise `reps` defaults to "?" and `level` to "N/A". */
  function AppResult(args: map<string, string>): (page: ResultPage)
    ensures page == MissingVideo <==> "video" !in args || args["video"] == ""
    ensures page != MissingVideo ==> page.PushupPage?
    ensures page.PushupPage? ==>
      && (page.pushupCount == if "reps" in args then args["reps"] else "?")
      && (page.pushupLevel == if "level" in args then args["level"] else "N/A")
  {
    var video := Arg(args, "video", "");
    if video == "" then MissingVideo
    else PushupPage(Arg(args, "reps", "?"), Arg(args, "level", "N/A"))
  }

  /** fitness_test.py's `result()`: the same check, but it reads `reach` (default "?") and passes the video's URL. */
  function FitnessResult(args: map<string, string>): (page: ResultPage)
    ensures page == MissingVideo <==> "video" !in args || args["video"] == ""
    ensures page != MissingVideo ==> page.ReachPage? && page.videoUrl == OutputUrl(args["video"])
    ensures page.ReachPage? ==>
      && (page.maxReach == if "reach" in args then args["reach"] else "?")
      && (page.reachLevel == if "level" in args then args["level"] else "N/A")
  {
    var video := Arg(args, "video", "");
    if video == "" then MissingVideo
    else ReachPage(OutputUrl(video), Arg(args, "reach", "?"), Arg(args, "level", "N/A"))
  }

  /** app.py's result page shows exactly the count and label a successful upload computed. */
  lemma AppResultShowsUpload(resp: Response)
    requires resp.Done? && resp.video != ""
    ensures AppResult(ResultArgs(resp)) == PushupPage(DecimalText(resp.reps), resp.level)
    ensures AppResult(ResultArgs(resp)).pushupCount != "?"
  {
    var text := DecimalText(resp.reps);
    assert text[0] != '?';
  }

  /**
   * fitness_test.py's result page never receives the count: the upload puts it
   * under `reps`, the page reads `reach`, so it always shows the "?" default.
   */
  lemma FitnessResultLosesCount(resp: Response)
    requires resp.Done? && resp.video != ""
    ensures FitnessResult(ResultArgs(resp)) == ReachPage(OutputUrl(resp.video), "?", resp.level)
    ensures FitnessResult(ResultArgs(resp)).maxReach != DecimalText(resp.reps)
  {
    var text := DecimalText(resp.reps);
    assert text[0] != '?';
    assert "reach" !in ResultArgs(resp);
  }
}
