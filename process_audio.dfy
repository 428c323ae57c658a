/**
 * The untitled checkpoint's `process_audio` and the page around it: decode
 * (by extension), MFCC features, emotion prediction with the 0-based table,
 * transcription and department classification, all inside one `try`. The
 * results are written below the widgets as they are computed; the first
 * exception ends the clip's processing and goes to the one message
 * placeholder created above them, where a later error replaces an earlier one.
 */
module ProcessAudio {
  import opened Wrappers
  import opened Text
  import opened EmotionLabels
  import opened Mfcc
  import Artifacts
  import Selection
  import Spectrogram

  type Byte = Artifacts.Byte

  /** `sf.read` for `wav`, `librosa.load` for everything else. */
  datatype Decoder = SoundFile | Librosa

  datatype Stage = Decode | ExtractFeatures | Predict | SelectIndex | LookupLabel | Transcribe | ClassifyDepartment

  /** A decoded clip: the samples and the sample rate. */
  datatype Decoded = Decoded(audio: Spectrogram.Samples, sampleRate: nat)

  /**
   * The external calls: `sf.read` (a 1-D array for a mono file, frames by
   * channels otherwise), `librosa.load(..., sr=None)` (always mono),
   * `librosa.feature.mfcc` over a mono signal, NumPy's float `mean`,
   * `model.predict`, Whisper's `transcribe(...)["text"]` on the raw bytes,
   * and the zero-shot classifier's ranked labels. `None` means the call raised.
   */
  datatype Models = Models(
    readWav: seq<Byte> -> Option<Decoded>,
    load: seq<Byte> -> Option<(seq<real>, nat)>,
    mfcc: (seq<real>, nat) -> Option<MfccMatrix>,
    mean: seq<real> -> real,
    predict: seq<seq<real>> -> Option<seq<seq<real>>>,
    transcribe: seq<Byte> -> Option<string>,
    classifyText: (string, seq<string>) -> Option<seq<string>>)

  const DepartmentLabels: seq<string> := ["Civil", "Police", "Traffic", "Ambulance"]

  /** Recorded audio is always processed as this extension. */
  const RecordingExtension := "wav"

  /** The decoder branch: exactly `wav` (case-sensitive) takes `sf.read`. */
  function DecoderFor(ext: string): (d: Decoder)
    ensures d == SoundFile <==> ext == "wav"
  {
    if ext == "wav" then SoundFile else Librosa
  }

  /** `uploaded_file.name.split('.')[-1]`: the text after the last dot, or the whole name without one. */
  function UploadExtension(fileName: string): (ext: string)
    ensures '.' !in ext
    ensures '.' !in fileName ==> ext == fileName
  {
    assert '.' !in fileName ==> Split(fileName, '.') == [fileName] by {
      if '.' !in fileName { SplitNoSep(fileName, '.'); }
    }
    AfterLast(fileName, '.')
  }

  lemma UploadExtensionOf(stem: string, ext: string)
    requires '.' !in ext
    ensures UploadExtension(stem + "." + ext) == ext
  {
    AfterLastJoined(stem, '.', ext);
  }

  /**
   * The mono signal and sample rate `extract_mfcc` receives. A multi-channel
   * WAV reaches the MFCC step as a frames-by-channels array, which does not
   * give the 40 pooled coefficients the model takes: it fails there.
   */
  function Signal(audio: seq<Byte>, ext: string, m: Models): (r: Result<(seq<real>, nat), Stage>)
    ensures DecoderFor(ext) == Librosa ==>
              r == if m.load(audio).Some? then Ok(m.load(audio).value) else Err(Decode)
    ensures DecoderFor(ext) == SoundFile ==>
              (r.Err? <==> m.readWav(audio).None? || m.readWav(audio).value.audio.MultiChannel?) &&
              (r.Err? ==> r.error == if m.readWav(audio).None? then Decode else ExtractFeatures) &&
              (r.Ok? ==> r.value == (m.readWav(audio).value.audio.samples, m.readWav(audio).value.sampleRate))
  {
    match DecoderFor(ext)
    case Librosa =>
      (match m.load(audio)
       case None => Err(Decode)
       case Some(signal) => Ok(signal))
    case SoundFile =>
      match m.readWav(audio)
      case None => Err(Decode)
      case Some(Decoded(samples, rate)) =>
        match samples
        case Mono(s) => Ok((s, rate))
        case MultiChannel(_, _) => Err(ExtractFeatures)
  }

  /** The emotion half: decode, features, prediction, flat `argmax`, `emotion_labels[...]`. */
  function PredictEmotion(audio: seq<Byte>, ext: string, m: Models): (r: Result<string, Stage>)
    ensures r.Ok? ==> r.value in EmotionNames
    ensures Signal(audio, ext, m).Err? ==> r == Err(Signal(audio, ext, m).error)
    ensures Signal(audio, ext, m).Ok? ==>
              var (signal, rate) := Signal(audio, ext, m).value;
              (m.mfcc(signal, rate).None? ==> r == Err(ExtractFeatures)) &&
              (m.mfcc(signal, rate).Some? ==>
                 var prediction := m.predict(FeatureRow(m.mfcc(signal, rate).value, m.mean));
                 (prediction.None? ==> r == Err(Predict)) &&
                 (prediction.Some? && |Flatten(prediction.value)| == 0 ==> r == Err(SelectIndex)))
  {
    match Signal(audio, ext, m)
    case Err(stage) => Err(stage)
    case Ok((signal, rate)) =>
      match m.mfcc(signal, rate)
      case None => Err(ExtractFeatures)
      case Some(coefficients) =>
        match m.predict(FeatureRow(coefficients, m.mean))
        case None => Err(Predict)
        case Some(prediction) =>
          match Selection.ArgMax(Flatten(prediction))
          case None => Err(SelectIndex)
          case Some(k) =>
            match ZeroBasedLabel(k)
            case None => Err(LookupLabel)
            case Some(name) => Ok(name)
  }

  /**
   * With the flattened prediction first maximal at `k`, the emotion is class
   * `k` of the 0-based table, and any `k` above 7 is the caught `KeyError`.
   */
  lemma PredictEmotionAt(audio: seq<Byte>, ext: string, m: Models, signal: seq<real>, rate: nat,
                         prediction: seq<seq<real>>, k: nat)
    requires Signal(audio, ext, m) == Ok((signal, rate))
    requires m.mfcc(signal, rate).Some?
    requires m.predict(FeatureRow(m.mfcc(signal, rate).value, m.mean)) == Some(prediction)
    requires Selection.IsFirstMax(Flatten(prediction), k)
    ensures PredictEmotion(audio, ext, m) == if k <= 7 then Ok(EmotionNames[k]) else Err(LookupLabel)
  {
    Selection.FirstMaxUnique(Flatten(prediction), Selection.ArgMax(Flatten(prediction)).value, k);
  }

  /** `department_classifier(text, department_labels)['labels'][0]`; `None` when it raised or ranked nothing. */
  function Department(text: string, m: Models): (r: Option<string>)
    ensures r.Some? <==> m.classifyText(text, DepartmentLabels).Some? &&
                         |m.classifyText(text, DepartmentLabels).value| > 0
    ensures r.Some? ==> r.value == m.classifyText(text, DepartmentLabels).value[0]
  {
    match m.classifyText(text, DepartmentLabels)
    case None => None
    case Some(ranked) => if |ranked| == 0 then None else Some(ranked[0])
  }

  /** One element the page shows below the widgets: an audio player or a line `st.write` prints. */
  datatype Line = ShowEmotion(name: string) | ShowTranscript(text: string) | ShowDepartment(name: string)
                | Player(bytes: seq<Byte>)

  /** The position a result line takes in a clip's output: emotion, then transcript, then department. */
  function Slot(line: Line): nat
  {
    match line
    case ShowEmotion(_) => 0
    case ShowTranscript(_) => 1
    case ShowDepartment(_) => 2
    case Player(_) => 3
  }

  /** What one call of `process_audio` does: the lines it writes, and the error it puts in the placeholder. */
  datatype Clip = Clip(lines: seq<Line>, error: Option<Stage>)

  /**
   * `process_audio(audio_data, file_extension)`. Each result is written as
   * soon as it is known, so the lines are a prefix of emotion, transcript,
   * department holding the calls' results; the error is that of the first
   * step that failed, and there is one exactly when a step failed.
   */
  function Process(audio: seq<Byte>, ext: string, m: Models): (clip: Clip)
    ensures |clip.lines| <= 3 && forall i :: 0 <= i < |clip.lines| ==> Slot(clip.lines[i]) == i
    ensures |clip.lines| >= 1 <==> PredictEmotion(audio, ext, m).Ok?
    ensures |clip.lines| >= 1 ==> clip.lines[0] == ShowEmotion(PredictEmotion(audio, ext, m).value)
    ensures |clip.lines| >= 2 <==> PredictEmotion(audio, ext, m).Ok? && m.transcribe(audio).Some?
    ensures |clip.lines| >= 2 ==> clip.lines[1] == ShowTranscript(m.transcribe(audio).value)
    ensures |clip.lines| == 3 <==> clip.error.None?
    ensures clip.error.None? <==>
              PredictEmotion(audio, ext, m).Ok? && m.transcribe(audio).Some? &&
              Department(m.transcribe(audio).value, m).Some?
    ensures |clip.lines| == 3 ==> clip.lines[2] == ShowDepartment(Department(m.transcribe(audio).value, m).value)
    ensures |clip.lines| == 0 ==> clip.error == Some(PredictEmotion(audio, ext, m).error)
    ensures |clip.lines| == 1 ==> clip.error == Some(Transcribe)
    ensures |clip.lines| == 2 ==> clip.error == Some(ClassifyDepartment)
  {
    match PredictEmotion(audio, ext, m)
    case Err(stage) => Clip([], Some(stage))
    case Ok(emotion) =>
      match m.transcribe(audio)
      case None => Clip([ShowEmotion(emotion)], Some(Transcribe))
      case Some(text) =>
        match Department(text, m)
        case None => Clip([ShowEmotion(emotion), ShowTranscript(text)], Some(ClassifyDepartment))
        case Some(department) => Clip([ShowEmotion(emotion), ShowTranscript(text), ShowDepartment(department)], None)
  }

  /** An upload as the widget hands it over: its file name and contents. */
  datatype NamedUpload = NamedUpload(name: string, bytes: seq<Byte>)

  /**
   * The page after one run: the message placeholder, which sits above the
   * output and holds the last error written to it, and the lines below, in
   * the order they were written.
   */
  datatype View = View(message: Option<Stage>, lines: seq<Line>)

  /** A clip's player followed by what `process_audio` writes for it. */
  function Played(bytes: seq<Byte>, ext: string, m: Models): (lines: seq<Line>)
    ensures |lines| >= 1 && lines[0] == Player(bytes) && lines[1..] == Process(bytes, ext, m).lines
  {
    [Player(bytes)] + Process(bytes, ext, m).lines
  }

  /**
   * One page run: the upload (extension from its name) is played and
   * processed first, then the recording (always `wav`). An error of the
   * recording replaces one of the upload in the placeholder.
   */
  function Page(upload: Option<NamedUpload>, recording: Option<seq<Byte>>, m: Models): (view: View)
    ensures upload.None? && recording.None? ==> view == View(None, [])
    ensures upload.Some? ==>
              var u := Played(upload.value.bytes, UploadExtension(upload.value.name), m);
              |u| <= |view.lines| && view.lines[..|u|] == u
    ensures recording.Some? ==>
              var r := Played(recording.value, RecordingExtension, m);
              |r| <= |view.lines| && view.lines[|view.lines| - |r|..] == r
    ensures |view.lines| ==
              (if upload.Some? then |Played(upload.value.bytes, UploadExtension(upload.value.name), m)| else 0) +
              (if recording.Some? then |Played(recording.value, RecordingExtension, m)| else 0)
    ensures recording.Some? && Process(recording.value, RecordingExtension, m).error.Some? ==>
              view.message == Process(recording.value, RecordingExtension, m).error
    ensures recording.None? || Process(recording.value, RecordingExtension, m).error.None? ==>
              view.message == if upload.Some?
                              then Process(upload.value.bytes, UploadExtension(upload.value.name), m).error
                              else None
  {
    var fromUpload :=
      if upload.Some? then Played(upload.value.bytes, UploadExtension(upload.value.name), m) else [];
    var fromRecording := if recording.Some? then Played(recording.value, RecordingExtension, m) else [];
    var uploadError :=
      if upload.Some? then Process(upload.value.bytes, UploadExtension(upload.value.name), m).error else None;
    var recordingError := if recording.Some? then Process(recording.value, RecordingExtension, m).error else None;
    var lines := fromUpload + fromRecording;
    assert lines[..|fromUpload|] == fromUpload;
    assert lines[|lines| - |fromRecording|..] == fromRecording;
    View(if recordingError.Some? then recordingError else uploadError, lines)
  }

  /**
   * An upload and a recording that both fail leave one error on the page,
   * the recording's, while the lines each wrote before failing stay.
   */
  lemma LastErrorWins(upload: NamedUpload, recording: seq<Byte>, m: Models)
    requires Process(upload.bytes, UploadExtension(upload.name), m).error.Some?
    requires Process(recording, RecordingExtension, m).error.Some?
    ensures Page(Some(upload), Some(recording), m).message == Process(recording, RecordingExtension, m).error
    ensures Page(Some(upload), Some(recording), m).lines ==
            Played(upload.bytes, UploadExtension(upload.name), m) + Played(recording, RecordingExtension, m)
  {
    var u := Played(upload.bytes, UploadExtension(upload.name), m);
    var r := Played(recording, RecordingExtension, m);
    var lines := Page(Some(upload), Some(recording), m).lines;
    assert lines == lines[..|u|] + lines[|u|..];
    assert lines[|u|..] == lines[|lines| - |r|..];
  }
}
