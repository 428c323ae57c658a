/**
 * The "Transcribe and Classify" scripts: the page run that saves a recording
 * or an upload, and the button action that picks the newest audio file,
 * runs the model stages in a fixed order without catching anything, and
 * writes the transcript sidecar only when every stage returned.
 *
 * `Emotions` is the sequence shared by the emotions script and the blaghkt5
 * notebook checkpoint (transcribe, detect language, department, emotion);
 * `Style` is the style script's shorter one (transcribe, department).
 */
module CallPipeline {
  import opened Wrappers
  import opened Artifacts
  import Timestamp

  datatype Script = Emotions | Style

  datatype Stage = SelectArtifact | Transcribe | DetectLanguage | ClassifyDepartment | ClassifyEmotion

  /** Why a stage stopped the run: no audio file, an exception from the model, or `[0]` of an empty ranking. */
  datatype Reason = NoAudio | Raised | EmptyRanking

  datatype Failure = Failure(stage: Stage, reason: Reason)

  /** One entry of the audio classifier's ranked answer. */
  datatype Scored = Scored(category: string, score: real)

  /**
   * The external models, each a call that returns a value or raises (`None`).
   * `transcribe` is Whisper's `transcribe(path)["text"]`, `detectLanguage` is
   * langdetect's `detect`, `classifyText` the zero-shot pipeline (its labels
   * ranked best first), `classifyEmotion` the audio classifier (ranked best first).
   */
  datatype Adapters = Adapters(
    transcribe: FileData -> Option<string>,
    detectLanguage: string -> Option<string>,
    classifyText: (string, seq<string>, string) -> Option<seq<string>>,
    classifyEmotion: FileData -> Option<seq<Scored>>)

  /** The four departments, in the order they are offered to the zero-shot classifier. */
  const DepartmentLabels: seq<string> := ["الدفاع المدني", "المرور", "الاسعاف", "الشرطة"]
  const HypothesisTemplate := "This is a {} call."

  /** What the page shows after a complete run; `language` and `emotion` are absent in the style script. */
  datatype Report = Report(artifact: string, transcript: string, language: Option<string>,
                           department: string, emotion: Option<Scored>)

  /** The stages a run started, in order, and its report or the failure that ended it. */
  datatype Run = Run(reached: seq<Stage>, outcome: Result<Report, Failure>)

  /**
   * The order the button action runs its stages in: the file selection and
   * the transcription first, the department classification in both
   * sequences, language detection and the emotion classification only in
   * the emotions sequence; no stage twice.
   */
  function StagesOf(script: Script): (order: seq<Stage>)
    ensures |order| >= 3 && order[0] == SelectArtifact && order[1] == Transcribe
    ensures ClassifyDepartment in order
    ensures DetectLanguage in order <==> script == Emotions
    ensures ClassifyEmotion in order <==> script == Emotions
    ensures forall i, j :: 0 <= i < j < |order| ==> order[i] != order[j]
  {
    match script
    case Emotions => [SelectArtifact, Transcribe, DetectLanguage, ClassifyDepartment, ClassifyEmotion]
    case Style => [SelectArtifact, Transcribe, ClassifyDepartment]
  }

  predicate IsPrefix(a: seq<Stage>, b: seq<Stage>)
  {
    |a| <= |b| && b[..|a|] == a
  }

  /**
   * Stages run in the script's order and the first failure ends the run: the
   * started stages are a non-empty prefix of the order, a report needs every
   * stage started, and a failure belongs to the last stage started.
   */
  predicate RunsInOrder(run: Run, order: seq<Stage>)
  {
    1 <= |run.reached| && IsPrefix(run.reached, order) &&
    (run.outcome.Ok? ==> run.reached == order) &&
    (run.outcome.Err? ==> run.outcome.error.stage == run.reached[|run.reached| - 1])
  }

  /** `classify_transcript(text)['labels'][0]`. */
  function Department(text: string, ad: Adapters): (r: Result<string, Reason>)
    ensures r.Ok? <==> ad.classifyText(text, DepartmentLabels, HypothesisTemplate).Some? &&
                       |ad.classifyText(text, DepartmentLabels, HypothesisTemplate).value| > 0
    ensures r.Ok? ==> r.value == ad.classifyText(text, DepartmentLabels, HypothesisTemplate).value[0]
  {
    match ad.classifyText(text, DepartmentLabels, HypothesisTemplate)
    case None => Err(Raised)
    case Some(ranked) => if |ranked| == 0 then Err(EmptyRanking) else Ok(ranked[0])
  }

  /** `classify_emotion(path)[0]`. */
  function Emotion(data: FileData, ad: Adapters): (r: Result<Scored, Reason>)
    ensures r.Ok? <==> ad.classifyEmotion(data).Some? && |ad.classifyEmotion(data).value| > 0
    ensures r.Ok? ==> r.value == ad.classifyEmotion(data).value[0]
  {
    match ad.classifyEmotion(data)
    case None => Err(Raised)
    case Some(ranked) => if |ranked| == 0 then Err(EmptyRanking) else Ok(ranked[0])
  }

  /**
   * The failure of one stage's own call, on the values the earlier stages
   * produced: `None` when the call returns (or when the stage cannot be
   * reached, because an earlier call has no value), otherwise why it failed.
   */
  function StageFailure(stage: Stage, files: map<string, Entry>, listing: seq<string>, ad: Adapters): Option<Reason>
    requires Listed(listing, files)
  {
    match Newest(files, listing)
    case Err(_) => if stage == SelectArtifact then Some(NoAudio) else None
    case Ok(path) =>
      var data := files[path].data;
      match stage
      case SelectArtifact => None
      case Transcribe => if ad.transcribe(data).None? then Some(Raised) else None
      case DetectLanguage =>
        if ad.transcribe(data).Some? && ad.detectLanguage(ad.transcribe(data).value).None? then Some(Raised) else None
      case ClassifyDepartment =>
        if ad.transcribe(data).Some? && Department(ad.transcribe(data).value, ad).Err?
        then Some(Department(ad.transcribe(data).value, ad).error) else None
      case ClassifyEmotion => if Emotion(data, ad).Err? then Some(Emotion(data, ad).error) else None
  }

  /**
   * The button action up to, not including, the sidecar write. Every stage
   * the run started before its last one returned; a failed run failed in its
   * last stage for that stage's reason, and a complete run reports the
   * selected file, what the transcriber returned for it, the language
   * detected in that text (emotions sequence only), the first department of
   * the ranking and the first entry of the emotion ranking (emotions
   * sequence only).
   */
  function Analyse(script: Script, files: map<string, Entry>, listing: seq<string>, ad: Adapters): (run: Run)
    requires Listed(listing, files)
    ensures RunsInOrder(run, StagesOf(script))
    ensures forall i :: 0 <= i < |run.reached| - 1 ==> StageFailure(run.reached[i], files, listing, ad).None?
    ensures run.outcome.Err? ==>
              StageFailure(run.reached[|run.reached| - 1], files, listing, ad) == Some(run.outcome.error.reason)
    ensures run.outcome.Ok? ==> forall i :: 0 <= i < |run.reached| ==> StageFailure(run.reached[i], files, listing, ad).None?
    ensures run.outcome.Ok? ==>
              var report := run.outcome.value;
              Newest(files, listing) == Ok(report.artifact) && report.artifact in files &&
              ad.transcribe(files[report.artifact].data) == Some(report.transcript) &&
              report.language == (if script == Emotions then ad.detectLanguage(report.transcript) else None) &&
              Department(report.transcript, ad) == Ok(report.department) &&
              (script == Emotions ==> report.emotion.Some? && Emotion(files[report.artifact].data, ad) == Ok(report.emotion.value)) &&
              (script == Style ==> report.emotion.None?)
  {
    var order := StagesOf(script);
    match Newest(files, listing)
    case Err(_) => Run(order[..1], Err(Failure(SelectArtifact, NoAudio)))
    case Ok(path) =>
      var data := files[path].data;
      match ad.transcribe(data)
      case None => Run(order[..2], Err(Failure(Transcribe, Raised)))
      case Some(text) =>
        match script
        case Style =>
          (match Department(text, ad)
           case Err(why) => Run(order, Err(Failure(ClassifyDepartment, why)))
           case Ok(dept) => Run(order, Ok(Report(path, text, None, dept, None))))
        case Emotions =>
          match ad.detectLanguage(text)
          case None => Run(order[..3], Err(Failure(DetectLanguage, Raised)))
          case Some(lang) =>
            match Department(text, ad)
            case Err(why) => Run(order[..4], Err(Failure(ClassifyDepartment, why)))
            case Ok(dept) =>
              match Emotion(data, ad)
              case Err(why) => Run(order, Err(Failure(ClassifyEmotion, why)))
              case Ok(emotion) => Run(order, Ok(Report(path, text, Some(lang), dept, Some(emotion))))
  }

  /**
   * The run is decided by the stages' own calls: when every stage of the
   * sequence returns, the run completes; otherwise it stops at the first
   * stage of the sequence whose call fails.
   */
  lemma AnalyseStopsAtFirstFailure(script: Script, files: map<string, Entry>, listing: seq<string>,
                                     ad: Adapters, k: nat)
    requires Listed(listing, files)
    requires k <= |StagesOf(script)|
    requires forall i :: 0 <= i < k ==> StageFailure(StagesOf(script)[i], files, listing, ad).None?
    requires k < |StagesOf(script)| ==> StageFailure(StagesOf(script)[k], files, listing, ad).Some?
    ensures k == |StagesOf(script)| ==> Analyse(script, files, listing, ad).outcome.Ok?
    ensures k < |StagesOf(script)| ==>
              Analyse(script, files, listing, ad) ==
              Run(StagesOf(script)[..k + 1],
                  Err(Failure(StagesOf(script)[k], StageFailure(StagesOf(script)[k], files, listing, ad).value)))
  {
  }

  /**
   * The button action: run the stages, then write the transcript next to the
   * audio file. Nothing is written when any stage fails.
   */
  method TranscribeAndClassify(dir: WorkingDirectory, script: Script, listing: seq<string>,
                               ad: Adapters, ctime: real)
    returns (run: Run)
    requires IsListingOf(listing, dir.files)
    modifies dir
    ensures run == Analyse(script, old(dir.files), listing, ad)
    ensures run.outcome.Ok? ==>
      dir.files == old(dir.files)[TranscriptName(run.outcome.value.artifact) :=
                                  Entry(TranscriptText(run.outcome.value.transcript), ctime)]
    ensures run.outcome.Err? ==> dir.files == old(dir.files)
  {
    run := Analyse(script, dir.files, listing, ad);
    if run.outcome.Ok? {
      var report := run.outcome.value;
      var _ := dir.WriteTranscript(report.artifact, report.transcript, ctime);
    }
  }

  /** An upload as the uploader widget hands it over: its MIME type and contents. */
  datatype Upload = Upload(mimeType: string, bytes: seq<Byte>)

  /** The page stops before the button with the `IndexError` of a MIME type without `/`. */
  datatype PageError = BadMimeType(mimeType: string)

  /** The name a non-empty recording is saved under. */
  function RecordingName(at: Instant): (name: string)
    requires Timestamp.Valid(at.stamp)
    ensures IsCandidate(name)
  {
    ArtifactName(at.stamp, RecordingExtension)
  }

  /** The name an upload is saved under; `None` when its MIME type has no subtype. */
  function UploadName(u: Upload, at: Instant): (name: Option<string>)
    requires Timestamp.Valid(at.stamp)
    ensures name.Some? <==> MimeSubtype(u.mimeType).Some?
    ensures name.Some? ==> name.value == ArtifactName(at.stamp, MimeSubtype(u.mimeType).value)
  {
    match MimeSubtype(u.mimeType)
    case None => None
    case Some(ext) => Some(ArtifactName(at.stamp, ext))
  }

  /** The names the save phase writes. */
  function SavedNames(recording: seq<Byte>, upload: Option<Upload>, recordedAt: Instant, uploadedAt: Instant): set<string>
    requires Timestamp.Valid(recordedAt.stamp) && Timestamp.Valid(uploadedAt.stamp)
  {
    (if |recording| > 0 then {RecordingName(recordedAt)} else {}) +
    (if upload.Some? && UploadName(upload.value, uploadedAt).Some? then {UploadName(upload.value, uploadedAt).value} else {})
  }

  /**
   * The save phase of a page run: a non-empty recording is saved as `wav`,
   * then an upload under its MIME subtype. Only those names are written, an
   * upload keeps its bytes, and a recording keeps its bytes unless the
   * upload was saved under the same name.
   */
  function AfterSaves(files: map<string, Entry>, recording: seq<Byte>, upload: Option<Upload>,
                      recordedAt: Instant, uploadedAt: Instant): (r: Result<map<string, Entry>, PageError>)
    requires Timestamp.Valid(recordedAt.stamp) && Timestamp.Valid(uploadedAt.stamp)
    ensures r.Err? <==> upload.Some? && MimeSubtype(upload.value.mimeType).None?
    ensures r.Err? ==> r.error == BadMimeType(upload.value.mimeType)
    ensures r.Ok? ==> r.value.Keys == files.Keys + SavedNames(recording, upload, recordedAt, uploadedAt)
    ensures r.Ok? ==> forall n :: n in files && n !in SavedNames(recording, upload, recordedAt, uploadedAt) ==>
                                    r.value[n] == files[n]
    ensures r.Ok? && upload.Some? ==>
              var name := UploadName(upload.value, uploadedAt).value;
              name in r.value && r.value[name] == Entry(Audio(upload.value.bytes), uploadedAt.ctime)
    ensures r.Ok? && |recording| > 0 && (upload.None? || UploadName(upload.value, uploadedAt).value != RecordingName(recordedAt)) ==>
              RecordingName(recordedAt) in r.value &&
              r.value[RecordingName(recordedAt)] == Entry(Audio(recording), recordedAt.ctime)
  {
    var recorded :=
      if |recording| > 0
      then files[RecordingName(recordedAt) := Entry(Audio(recording), recordedAt.ctime)]
      else files;
    match upload
    case None => Ok(recorded)
    case Some(u) =>
      match UploadName(u, uploadedAt)
      case None => Err(BadMimeType(u.mimeType))
      case Some(name) => Ok(recorded[name := Entry(Audio(u.bytes), uploadedAt.ctime)])
  }

  /**
   * A recording and a `wav` upload saved in the same second collide: only the
   * upload's bytes remain under the shared name.
   */
  lemma RecordingLostToSameSecondUpload(files: map<string, Entry>, recording: seq<Byte>, u: Upload,
                                        recordedAt: Instant, uploadedAt: Instant)
    requires Timestamp.Valid(recordedAt.stamp) && uploadedAt.stamp == recordedAt.stamp
    requires |recording| > 0 && MimeSubtype(u.mimeType) == Some(RecordingExtension)
    ensures AfterSaves(files, recording, Some(u), recordedAt, uploadedAt).Ok?
    ensures AfterSaves(files, recording, Some(u), recordedAt, uploadedAt).value ==
            files[RecordingName(recordedAt) := Entry(Audio(u.bytes), uploadedAt.ctime)]
  {
  }

  /**
   * When the upload is the latest write of the page run, the button works on
   * the upload: the newest query returns its name.
   */
  lemma UploadIsNewest(files: map<string, Entry>, recording: seq<Byte>, u: Upload,
                       recordedAt: Instant, uploadedAt: Instant, listing: seq<string>)
    requires Timestamp.Valid(recordedAt.stamp) && Timestamp.Valid(uploadedAt.stamp)
    requires MimeSubtype(u.mimeType).Some?
    requires forall n :: n in files ==> files[n].ctime < uploadedAt.ctime
    requires recordedAt.ctime < uploadedAt.ctime
    requires IsListingOf(listing, AfterSaves(files, recording, Some(u), recordedAt, uploadedAt).value)
    ensures Newest(AfterSaves(files, recording, Some(u), recordedAt, uploadedAt).value, listing) ==
            Ok(ArtifactName(uploadedAt.stamp, MimeSubtype(u.mimeType).value))
  {
    var name := ArtifactName(uploadedAt.stamp, MimeSubtype(u.mimeType).value);
    var recorded :=
      if |recording| > 0
      then files[RecordingName(recordedAt) := Entry(Audio(recording), recordedAt.ctime)]
      else files;
    assert AfterSaves(files, recording, Some(u), recordedAt, uploadedAt).value ==
           recorded[name := Entry(Audio(u.bytes), uploadedAt.ctime)];
    NewestAfterWrite(recorded, listing, name, Entry(Audio(u.bytes), uploadedAt.ctime));
  }

  /**
   * One page run (`main`): the saves, then, when the button was pressed, the
   * button action on the directory listing taken after the saves.
   */
  method RunPage(dir: WorkingDirectory, script: Script, recording: seq<Byte>, upload: Option<Upload>,
                 clicked: bool, recordedAt: Instant, uploadedAt: Instant, sidecarCtime: real,
                 listDir: map<string, Entry> -> seq<string>, ad: Adapters)
    returns (r: Result<Option<Run>, PageError>)
    requires Timestamp.Valid(recordedAt.stamp) && Timestamp.Valid(uploadedAt.stamp)
    requires forall m :: IsListingOf(listDir(m), m)
    modifies dir
    ensures var saved := AfterSaves(old(dir.files), recording, upload, recordedAt, uploadedAt);
      match saved
      case Err(e) =>
        r == Err(e) &&
        dir.files == if |recording| > 0
                     then old(dir.files)[RecordingName(recordedAt) :=
                                         Entry(Audio(recording), recordedAt.ctime)]
                     else old(dir.files)
      case Ok(files) =>
        r.Ok? && (r.value.Some? <==> clicked) && IsListingOf(listDir(files), files) &&
        (!clicked ==> dir.files == files) &&
        (clicked ==>
           var run := r.value.value;
           run == Analyse(script, files, listDir(files), ad) &&
           dir.files == if run.outcome.Ok?
                        then files[TranscriptName(run.outcome.value.artifact) :=
                                   Entry(TranscriptText(run.outcome.value.transcript), sidecarCtime)]
                        else files)
  {
    if |recording| > 0 {
      var _ := dir.SaveAudioFile(recording, RecordingExtension, recordedAt);
    }
    if upload.Some? {
      var ext := MimeSubtype(upload.value.mimeType);
      if ext.None? {
        return Err(BadMimeType(upload.value.mimeType));
      }
      var _ := dir.SaveAudioFile(upload.value.bytes, ext.value, uploadedAt);
    }
    if clicked {
      var run := TranscribeAndClassify(dir, script, listDir(dir.files), ad, sidecarCtime);
      return Ok(Some(run));
    }
    return Ok(None);
  }
}
