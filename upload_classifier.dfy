/**
 * The app checkpoint: every upload is written over one fixed temporary file,
 * then MFCC features are computed from it, the network predicts, the first
 * maximal class of prediction row 0 is looked up in the 1-based table, and
 * any exception on the way is caught and shown as one error.
 */
module UploadClassifier {
  import opened Wrappers
  import opened Artifacts
  import opened EmotionLabels
  import opened Mfcc
  import Selection

  /** The one file every upload overwrites. */
  const TempName := "temp_audio.wav"

  /** Where the `try` block stopped. */
  datatype Stage = ExtractFeatures | Predict | SelectIndex | LookupLabel

  /** What the page shows: the predicted emotion, or the caught error. */
  datatype Shown = ShowEmotion(name: string) | ShowError(stage: Stage)

  /**
   * The external numerics: `librosa.load` of the temporary file with
   * `librosa.feature.mfcc`, NumPy's float `mean`, and the network's
   * `predict`. `None` means the call raised.
   */
  datatype Models = Models(mfcc: seq<Byte> -> Option<MfccMatrix>,
                           mean: seq<real> -> real,
                           predict: seq<seq<real>> -> Option<seq<seq<real>>>)

  /**
   * The `try` block: `extract_mfcc` as one row of 40 values, prediction, `argmax(axis=1)[0]`,
   * `emotion_labels[...]`. Only a name of the table is ever shown; every
   * other path ends in the caught error.
   */
  function Classify(audio: seq<Byte>, m: Models): (shown: Shown)
    ensures shown.ShowEmotion? ==> shown.name in EmotionNames
    ensures m.mfcc(audio).None? ==> shown == ShowError(ExtractFeatures)
    ensures m.mfcc(audio).Some? ==>
              var prediction := m.predict(FeatureRow(m.mfcc(audio).value, m.mean));
              (prediction.None? ==> shown == ShowError(Predict)) &&
              (prediction.Some? && (|prediction.value| == 0 || |prediction.value[0]| == 0) ==>
                 shown == ShowError(SelectIndex)) &&
              (shown.ShowEmotion? ==> prediction.Some? && |prediction.value| > 0 && |prediction.value[0]| > 0)
  {
    match m.mfcc(audio)
    case None => ShowError(ExtractFeatures)
    case Some(coefficients) =>
      match m.predict(FeatureRow(coefficients, m.mean))
      case None => ShowError(Predict)
      case Some(prediction) =>
        if |prediction| == 0 then ShowError(SelectIndex)
        else
          match Selection.ArgMax(prediction[0])
          case None => ShowError(SelectIndex)
          case Some(k) =>
            match OneBasedLabel(k)
            case None => ShowError(LookupLabel)
            case Some(name) => ShowEmotion(name)
  }

  /**
   * With prediction row 0 first maximal at `k`, the page shows class `k`
   * of the 1-based table, and index 0 or any index above 8 is the caught
   * `KeyError`.
   */
  lemma ClassifyAt(audio: seq<Byte>, m: Models, prediction: seq<seq<real>>, k: nat)
    requires m.mfcc(audio).Some?
    requires m.predict(FeatureRow(m.mfcc(audio).value, m.mean)) == Some(prediction)
    requires |prediction| > 0 && Selection.IsFirstMax(prediction[0], k)
    ensures Classify(audio, m) == if 1 <= k <= 8 then ShowEmotion(EmotionNames[k - 1]) else ShowError(LookupLabel)
  {
    Selection.FirstMaxUnique(prediction[0], Selection.ArgMax(prediction[0]).value, k);
  }

  /** One upload: overwrite the temporary file, then classify what was written. */
  method HandleUpload(dir: WorkingDirectory, upload: seq<Byte>, ctime: real, m: Models)
    returns (shown: Shown)
    modifies dir
    ensures dir.files == old(dir.files)[TempName := Entry(Audio(upload), ctime)]
    ensures shown == Classify(upload, m)
  {
    dir.Write(TempName, Audio(upload), ctime);
    shown := Classify(dir.files[TempName].data.bytes, m);
  }

  /** Two uploads in a row leave only the second one's bytes, under the same name. */
  method UploadTwice(dir: WorkingDirectory, first: seq<Byte>, second: seq<Byte>,
                     ctime1: real, ctime2: real, m: Models)
    returns (shown1: Shown, shown2: Shown)
    modifies dir
    ensures dir.files == old(dir.files)[TempName := Entry(Audio(second), ctime2)]
    ensures shown2 == Classify(second, m)
  {
    shown1 := HandleUpload(dir, first, ctime1, m);
    shown2 := HandleUpload(dir, second, ctime2, m);
  }
}
