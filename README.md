# Emergency-call audio intake: a Dafny model

The repository is a set of Streamlit scripts for an emergency-call assistant.
A caller's audio is recorded or uploaded. It is saved in the working
directory under a timestamped name. The scripts then run external models on
it: Whisper transcription, language detection, zero-shot classification of
the transcript into a department, and an emotion classifier. The transcript
is written next to the audio file. Two further scripts condition audio
features for a locally trained emotion network and map its predicted class
index to an emotion name.

This project models the deterministic logic around those models:

- **Artifact store** (`artifacts.dfy`, with `timestamp.dfy` and `text.dfy`).
  The working directory is a class holding a map from file name to
  (contents, ctime). The model covers the `audio_<YYYYMMDD_HHMMSS>.<ext>`
  naming, the extension taken from an upload's MIME type, the transcript
  sidecar name, and the "newest audio file" query. Saves and sidecar writes
  are methods that update the map.
- **Call pipeline** (`call_pipeline.dfy`). This is the `main` of the emotions
  script and of the blaghkt5 notebook checkpoint (they share one stage
  sequence), and of the style script. It covers the saves of a page run, the
  stage sequence of the button action, and the sidecar write that happens
  only after every stage has returned.
- **Spectrogram conditioning** (`spectrogram.dfy`) from the app script. It
  covers the mono collapse, padding or cropping to exactly 40 time columns,
  the trailing channel axis, and the flat `argmax` with the 1-based label
  lookup.
- **Label tables and selection** (`emotion_labels.dfy`, `selection.dfy`,
  `mfcc.dfy`). These hold the 1-based and 0-based emotion tables, first-maximum
  selection (NumPy's `argmax` and Python's `max` with a key), and the shape
  of the mean-pooled MFCC row.
- **Checkpoint scripts**. `upload_classifier.dfy` models the app checkpoint:
  the fixed temporary file, and the caught `KeyError`. `process_audio.dfy`
  models the untitled checkpoint: extension dispatch, and one `try` around
  all stages.

The external models are fields of function type in an `Adapters` or `Models`
datatype. Each returns `None` when the call raises. Filesystem listing order
and ctimes are inputs: a `listing` sequence (or a `listDir` function) and the
`ctime` field of each entry. The clock is an `Instant` parameter. Sample
values, scores and ctimes are `real`s that the model only copies and compares.

Facts about the code that shape the model:

- No stage failure is isolated. The emotions, style and blaghkt5 scripts
  catch no exception, and the untitled checkpoint wraps every stage in one
  `try`. Either way the first failure ends the run and no partial report is
  built. `CallPipeline.Analyse` and `ProcessAudio.Process` state this.
- The emotions script calls `detect` inside `transcribe_audio`
  (src/emotions.py:43-47). It therefore has the same five-stage sequence as
  blaghkt5: select, transcribe, detect language, department, emotion.
- `max` over an empty list raises `ValueError`. It is modelled as
  `Err(NoArtifact)`.
- Amplitude normalisation (src/app.py:78) divides by the peak with no zero
  guard. It is float numerics and is left out.
- The newest-file query keeps every name starting with `audio`, so it also
  matches the transcript sidecars the scripts write.
  `Artifacts.SidecarSelectedAsNewest` states the consequence.
- In the untitled checkpoint the error message goes to one placeholder
  created above all output (src/.ipynb_checkpoints/untitled-checkpoint.py:64).
  Result lines stay below in the order they were written, and a later error
  replaces an earlier one. `ProcessAudio.View` keeps the two apart.

## Model

| member | source | states |
|---|---|---|
| `Selection.ArgMax` | src/app.py:105 | `None` exactly for an empty input; otherwise the first position holding the maximum, with every earlier entry strictly smaller |
| `Selection.ScanFrom` | src/.ipynb_checkpoints/app-checkpoint.py:32 | the left-to-right scan, which replaces the best so far only on a strictly greater value, ends at the first maximum |
| `Selection.FirstMaxUnique` | src/.ipynb_checkpoints/untitled-checkpoint.py:84 | at most one position is a first maximum, so the selected index is determined by the scores |
| `Text.Split` | src/emotions.py:78 | `str.split(sep)` always yields at least one piece (with `JoinSplit` and `SplitJoin` it is the unique separator-free decomposition) |
| `Text.JoinSplit` | src/emotions.py:110 | joining the pieces of `str.split(sep)` with `sep` gives back the string; no piece contains `sep` |
| `Text.SplitJoin` | src/emotions.py:110 | pieces without `sep` survive a join followed by a split unchanged |
| `Text.SplitNoSep` | src/emotions.py:78 | a string without the separator splits into itself alone |
| `Text.SplitAt` | src/emotions.py:78 | splitting `a + sep + b` gives the pieces of `a` followed by the pieces of `b` |
| `Text.Before` | src/emotions.py:110 | `split(sep)[0]` contains no `sep` and is a prefix of the string; it ends at the first `sep` when there is one and is the whole string otherwise |
| `Text.AfterLast` | src/.ipynb_checkpoints/untitled-checkpoint.py:110 | `split(sep)[-1]` contains no `sep` |
| `Text.BeforeJoined` | src/style.py:99 | the text before the first `sep` of `a + sep + b` is `a` when `a` has no `sep`, whatever `b` holds |
| `Text.AfterLastJoined` | src/.ipynb_checkpoints/untitled-checkpoint.py:110 | the text after the last `sep` of `a + sep + b` is `b` when `b` has no `sep` |
| `Timestamp.Pad` | src/emotions.py:31 | a number below 10^width is written with exactly `width` decimal digits |
| `Timestamp.DecimalOfPad` | src/emotions.py:31 | reading a zero-padded number back gives the number |
| `Timestamp.PadOfDecimal` | src/emotions.py:31 | re-padding the value of a digit string gives the string |
| `Timestamp.Format` | src/emotions.py:31 | `%Y%m%d_%H%M%S` is 15 characters, `_` at position 8, decimal digits everywhere else |
| `Timestamp.Parse` | src/style.py:27 | accepts only stamp-shaped strings that name a valid instant |
| `Timestamp.ParseFormat` | src/style.py:27 | parsing a formatted stamp recovers the instant |
| `Timestamp.FormatParse` | src/style.py:27 | every string `Parse` accepts is the format of the instant it returns |
| `Timestamp.FormatInjective` | src/.ipynb_checkpoints/blaghkt5-checkpoint.py:30 | two instants get the same stamp exactly when they are the same second |
| `Artifacts.ArtifactName` | src/emotions.py:30-32 | `audio_`, then 15 characters that `Timestamp.Parse` reads back as the save instant, then `.` at position 21 and the extension from 22 on; the name starts with `audio` |
| `Artifacts.ArtifactStem` | src/emotions.py:32 | the 21-character part before the extension contains no `.` |
| `Artifacts.ArtifactNameSplit` | src/emotions.py:32 | an artifact name is its stem, a dot and the extension |
| `Artifacts.ArtifactNameInjective` | src/emotions.py:30-34 | two saves produce the same name iff same second and same extension, so only then does the second overwrite the first |
| `Artifacts.SplitSingle` | src/emotions.py:78 | a split gives one piece exactly when the separator is absent |
| `Artifacts.MimeSubtype` | src/emotions.py:78 | `type.split('/')[1]` fails (`IndexError`) exactly when there is no `/`; the result contains no `/` |
| `Artifacts.MimeSubtypeOfType` | src/style.py:75 | for a `type/subtype` MIME type the saved extension is the subtype (`audio/mpeg` gives `mpeg`) |
| `Artifacts.TranscriptName` | src/emotions.py:110 | sidecar name = the audio name up to (not including) its first `.`, followed by `.txt`; a name without `.` is kept whole, whatever the name looks like |
| `Artifacts.TranscriptNameOfArtifact` | src/emotions.py:110-117 | the sidecar (and download) name of `audio_<stamp>.<ext>` is `audio_<stamp>.txt`, for every extension |
| `Artifacts.TranscriptNameDistinct` | src/.ipynb_checkpoints/blaghkt5-checkpoint.py:138 | the sidecar replaces the audio file itself exactly when the audio extension is `txt` |
| `Artifacts.Candidates` | src/emotions.py:85 | the filtered list holds exactly the listed names starting with `audio` |
| `Artifacts.Newest` | src/emotions.py:84-87 | fails exactly when no listed name starts with `audio`; otherwise returns such a listed name whose ctime is at least every other candidate's |
| `Artifacts.LocateCandidate` | src/emotions.py:85 | the filter keeps listing order: the i-th candidate sits at a listing position before which exactly the first i candidates occur |
| `Artifacts.NewestFirstAmongTies` | src/style.py:81-84 | ties go to the candidate listed first: every candidate listed earlier is strictly older |
| `Artifacts.NewestAfterWrite` | src/.ipynb_checkpoints/blaghkt5-checkpoint.py:112-115 | after writing a candidate name later than every other file, the newest query returns that name |
| `Artifacts.SidecarSelectedAsNewest` | src/emotions.py:84-111 | right after a sidecar is written, the newest query returns the sidecar `audio_<stamp>.txt`, not an audio file |
| `Artifacts.WorkingDirectory.Write` | src/emotions.py:33-34 | opening for write creates or truncates exactly one entry; every other entry is unchanged |
| `Artifacts.WorkingDirectory.SaveAudioFile` | src/style.py:26-31 | returns `ArtifactName(now, ext)` and maps it to exactly the given bytes; nothing else changes |
| `Artifacts.WorkingDirectory.WriteTranscript` | src/.ipynb_checkpoints/blaghkt5-checkpoint.py:138-139 | the sidecar of the audio name maps to exactly the transcript text; nothing else changes |
| `Artifacts.SaveTwiceInOneSecond` | src/.ipynb_checkpoints/blaghkt5-checkpoint.py:29-34 | two saves in one second with one extension give the same name, and only the later bytes remain |
| `CallPipeline.Department` | src/emotions.py:100-102 | the department shown is the first label of the zero-shot ranking over the fixed 4 labels and template; an empty ranking is the `IndexError` |
| `CallPipeline.Emotion` | src/.ipynb_checkpoints/blaghkt5-checkpoint.py:133-135 | the emotion shown is the first entry of the audio classifier's ranking; an empty ranking is the `IndexError` |
| `CallPipeline.StagesOf` | src/emotions.py:84-105 | selection and transcription come first; department classification is in both sequences; language detection and emotion classification exactly in the emotions sequence (style: src/style.py:81-94); no stage repeats |
| `CallPipeline.Analyse` | src/.ipynb_checkpoints/blaghkt5-checkpoint.py:110-135 | stages start in script order; every stage before the last one started returned, and a failed run failed in its last stage for that stage's reason (`StageFailure`); a report holds the newest file, the transcriber's text for it, the language detected in that text (emotions only), the first department and the first emotion entry (emotions only) |
| `CallPipeline.AnalyseStopsAtFirstFailure` | src/emotions.py:82-107 | the run is fixed by the stages' own calls: it completes when every stage returns, and otherwise stops at the first stage of the sequence whose call fails, with that stage's reason |
| `CallPipeline.TranscribeAndClassify` | src/emotions.py:82-119 | the sidecar holding exactly the transcript is written only when every stage returned; a failed run leaves the directory unchanged |
| `CallPipeline.AfterSaves` | src/emotions.py:68-79 | a MIME type without `/` stops the page; otherwise exactly the recording's and the upload's names are added or overwritten, every other entry is unchanged, the upload keeps its bytes and the recording keeps its bytes unless the upload took its name |
| `CallPipeline.RecordingName` | src/emotions.py:70-71 | a recording is saved under a name the newest-file filter keeps |
| `CallPipeline.UploadName` | src/emotions.py:77-79 | an upload has a name exactly when its MIME type has a subtype, and that name is the artifact name with the subtype as extension |
| `CallPipeline.RecordingLostToSameSecondUpload` | src/.ipynb_checkpoints/blaghkt5-checkpoint.py:96-107 | a recording and a `wav` upload saved in the same second leave one file holding the upload's bytes |
| `CallPipeline.UploadIsNewest` | src/style.py:64-84 | when the upload is the page run's latest write, the button action selects the upload's file |
| `CallPipeline.RunPage` | src/emotions.py:62-119 | one page run: the saves (on a bad MIME type the page stops with only the recording saved); without the button the directory is the saved one; with it, the run is the button action on the listing taken after the saves and the directory gains exactly the sidecar on success and is unchanged on failure |
| `EmotionLabels.OneBasedLabel` | src/app.py:109-121 | defined exactly for indices 1..8, index k giving the k-th name (`neutral` … `surprised`); every other index gives `None` |
| `EmotionLabels.ZeroBasedLabel` | src/.ipynb_checkpoints/untitled-checkpoint.py:25-35 | defined exactly for indices 0..7, 0 giving `neutral` and 7 `surprised`; every other index is the `KeyError` |
| `EmotionLabels.ConventionsShift` | src/.ipynb_checkpoints/app-checkpoint.py:9-10 | the 1-based table at k+1 equals the 0-based table at k |
| `EmotionLabels.ConventionsDisagree` | src/.ipynb_checkpoints/untitled-checkpoint.py:25-35 | for every index 0..8 the two tables give different answers |
| `EmotionLabels.Flatten` | src/app.py:105 | flattening a single-row array gives that row; the first row is always a prefix of the flat sequence |
| `EmotionLabels.FlattenLength` | src/app.py:101-105 | a (n, width) prediction array flattens to `n * width` values |
| `EmotionLabels.FlattenEntry` | src/app.py:101-105 | row-major layout: entry `j` of row `i` sits at flat position `i * width + j` |
| `EmotionLabels.FlattenAt` | src/app.py:105 | flat position `k` of a (n, width) array is entry `k % width` of row `k / width` |
| `EmotionLabels.OneRow` | src/.ipynb_checkpoints/app-checkpoint.py:29 | `reshape(1, -1)` gives one row that flattens back to the features |
| `Spectrogram.ToMono` | src/app.py:70-71 | 1-D data is kept; 2-D data becomes column 0 of every frame, with the frame count kept; no channel is an `IndexError` |
| `Spectrogram.FitWidth` | src/app.py:88-95 | any width gives exactly 40 columns and the same row count; column j is the input's column j if it exists, else 0 |
| `Spectrogram.FitWidthPads` | src/app.py:89-92 | narrower input: original columns are a prefix of each row and every appended entry is 0 |
| `Spectrogram.FitWidthCrops` | src/app.py:93-95 | wider input: each row is the first 40 columns |
| `Spectrogram.FitWidthIdempotent` | src/app.py:88-95 | conditioning a conditioned spectrogram changes nothing (width 40 is returned unchanged) |
| `Spectrogram.ExpandDims` | src/app.py:98 | every entry becomes a one-element channel vector; row and column counts kept |
| `Spectrogram.Squeeze` | src/app.py:98 | dropping the channel axis keeps the row count |
| `Spectrogram.SqueezeExpandDims` | src/app.py:98 | dropping the added channel axis gives back the spectrogram |
| `Spectrogram.Condition` | src/app.py:88-98 | any input of R mel bands gives shape (R, 40, 1) with the input's columns, then zeros, in the channel slot |
| `Spectrogram.PredictedEmotion` | src/app.py:101-121 | fails (`ValueError`) exactly when the predictions are empty |
| `Spectrogram.PredictedEmotionAt` | src/app.py:105-121 | the result is the 1-based name of the first maximal flat position; index 0 or above 8 gives `None`, not an error |
| `Spectrogram.PredictedEmotionBatch` | src/app.py:98-105 | the (R, 40, 1) input is a batch of R; the flat `argmax` position `k` is class `k % C` of batch row `k / C`, and that score is the largest of the whole batch |
| `Mfcc.Transpose` | src/.ipynb_checkpoints/untitled-checkpoint.py:14 | `.T` swaps the axes entry by entry |
| `Mfcc.MeanPool` | src/.ipynb_checkpoints/untitled-checkpoint.py:12-15 | one value per coefficient, the mean of that coefficient over all frames: always 40 values |
| `Mfcc.FeatureRow` | src/.ipynb_checkpoints/app-checkpoint.py:12-29 | the classifier input is one row of exactly 40 pooled coefficients, whatever the clip length |
| `UploadClassifier.Classify` | src/.ipynb_checkpoints/app-checkpoint.py:27-38 | only a name from the table is ever shown; an MFCC failure, a predict failure and an empty prediction (or empty row 0) each show the caught error at that stage |
| `UploadClassifier.ClassifyAt` | src/.ipynb_checkpoints/app-checkpoint.py:32-38 | first maximum k of prediction row 0 shows name k of the 1-based table; k = 0 or k > 8 is the caught `KeyError` |
| `UploadClassifier.HandleUpload` | src/.ipynb_checkpoints/app-checkpoint.py:21-38 | the upload overwrites `temp_audio.wav` and nothing else; what is shown is the classification of those bytes |
| `UploadClassifier.UploadTwice` | src/.ipynb_checkpoints/app-checkpoint.py:24-25 | after two uploads only the second one's bytes remain in `temp_audio.wav` |
| `ProcessAudio.DecoderFor` | src/.ipynb_checkpoints/untitled-checkpoint.py:68-73 | `sf.read` is used exactly for the extension `wav`; every other string, `WAV` included, goes to `librosa.load` |
| `ProcessAudio.UploadExtension` | src/.ipynb_checkpoints/untitled-checkpoint.py:110 | the extension contains no `.`; a name without `.` is its own extension |
| `ProcessAudio.UploadExtensionOf` | src/.ipynb_checkpoints/untitled-checkpoint.py:110 | the extension of `stem.ext` is `ext` |
| `ProcessAudio.Signal` | src/.ipynb_checkpoints/untitled-checkpoint.py:67-79 | non-`wav` clips are the `librosa.load` mono signal; `wav` clips are the `sf.read` samples when mono, and a multi-channel WAV fails at feature extraction |
| `ProcessAudio.PredictEmotion` | src/.ipynb_checkpoints/untitled-checkpoint.py:67-85 | only a table name is ever the predicted emotion; a decoding failure or multi-channel WAV, an MFCC failure, a predict failure and an empty prediction each end the clip with an error at that stage |
| `ProcessAudio.PredictEmotionAt` | src/.ipynb_checkpoints/untitled-checkpoint.py:84-85 | first maximal flat position k gives name k of the 0-based table; k above 7 is the `KeyError` |
| `ProcessAudio.Department` | src/.ipynb_checkpoints/untitled-checkpoint.py:97-98 | the department is the first label of the ranking over the four fixed labels; it fails exactly when the call raised or ranked nothing |
| `ProcessAudio.Process` | src/.ipynb_checkpoints/untitled-checkpoint.py:65-104 | the lines are a prefix of emotion, transcript, department, holding the predicted emotion, Whisper's text and the first department; each further line appears exactly when its call returned; an error is reported exactly when a step failed, and it is the first failing step |
| `ProcessAudio.Played` | src/.ipynb_checkpoints/untitled-checkpoint.py:111-117 | a clip's player comes first, followed by exactly the lines `process_audio` writes for it |
| `ProcessAudio.Page` | src/.ipynb_checkpoints/untitled-checkpoint.py:108-117 | the upload's player and lines (extension from its name) come first, the recording's (as `wav`) last, and nothing else is shown; the placeholder holds the recording's error if it has one, else the upload's |
| `ProcessAudio.LastErrorWins` | src/.ipynb_checkpoints/untitled-checkpoint.py:64-117 | an upload and a recording that both fail leave only the recording's error, above the lines both wrote |

## Left out

- Model loading and caching (`st.cache_resource`, `st.cache`, `load_model`) are framework lifecycle. The loaded models appear only as adapter fields.
- The external models are not modelled beyond "returns a value or raises", and for ranked results "the first element is taken". This covers Whisper `transcribe`, `langdetect.detect`, the zero-shot and audio-classification pipelines, and Keras `predict`.
- The transcription adapter receives the selected file's contents, not its path. The path only serves to read that file.
- librosa and soundfile numerics are external or left out: decoding, resampling, `melspectrogram`, `power_to_db`, MFCC coefficients, and NumPy's float `mean` (a parameter of `Mfcc.MeanPool`).
- The app script's steps between the mono collapse and the fixed-width step are not part of this model (src/app.py:73-85). These are resampling, amplitude normalisation (a float division with no zero guard) and the mel spectrogram.
- Selection.ArgMax: scores are `real`s, so NumPy's rule that a NaN counts as the maximum is not modelled.
- Timestamp.Format: years before 1000 are excluded by `Valid`. `%Y` padding for them depends on the platform, and `datetime.now()` does not produce them in practice.
- Artifacts.FileData: transcript files hold text. The text-mode encoding to bytes is not modelled.
- Real filesystem behaviour is not modelled: `os.listdir` order, ctime resolution, and races between sessions. The listing and the ctimes are inputs.
- The Streamlit UI is left out: CSS, tabs, titles, images, headers, score formatting, the download button widget and the recorder widget. The download file name equals the sidecar name: both are `TranscriptName` of the selected file. Only the untitled checkpoint's players, result lines and message placeholder are modelled.
- CallPipeline.Analyse: a failed run carries the stages it reached and the failure, not the values those stages had already written to the page in the emotions and blaghkt5 scripts (src/emotions.py:93-107).
- ProcessAudio.PredictEmotion: a multi-channel WAV is modelled as failing at feature extraction. In the code `librosa.feature.mfcc` runs over the frames-by-channels array and the mis-shaped feature row makes `model.predict` raise; which call raises and its message are not modelled.
- The TLS override at src/style.py:9 is I/O plumbing.
- The second `except` clause at src/.ipynb_checkpoints/untitled-checkpoint.py:106-107 can never run, because the first clause catches every `Exception`. It has no behaviour to model.
