/**
 * The app script's conditioning of an uploaded clip for the spectrogram
 * classifier: collapse to mono, force the mel-spectrogram to exactly 40 time
 * columns, add a trailing channel axis; then the flat `argmax` of the
 * predictions and the 1-based label lookup. Values are carried as `real`
 * and only copied or compared here.
 */
module Spectrogram {
  import opened Wrappers
  import opened EmotionLabels
  import Selection

  /** What `sf.read` returns: a 1-D array for a mono file, a frames-by-channels array otherwise. */
  datatype Samples = Mono(samples: seq<real>) | MultiChannel(frames: seq<seq<real>>, channels: nat)

  /** A multi-channel array is rectangular. */
  predicate WellShaped(a: Samples)
  {
    a.MultiChannel? ==> forall i :: 0 <= i < |a.frames| ==> |a.frames[i]| == a.channels
  }

  /** `audio_data[:, 0]` when the array has two dimensions; `None` is its `IndexError` without any channel. */
  function ToMono(a: Samples): (r: Option<seq<real>>)
    requires WellShaped(a)
    ensures a.Mono? ==> r == Some(a.samples)
    ensures a.MultiChannel? ==> (r.Some? <==> a.channels > 0)
    ensures a.MultiChannel? && r.Some? ==>
      |r.value| == |a.frames| && forall i :: 0 <= i < |a.frames| ==> r.value[i] == a.frames[i][0]
  {
    match a
    case Mono(s) => Some(s)
    case MultiChannel(frames, channels) =>
      if channels == 0 then None
      else Some(seq(|frames|, i requires 0 <= i < |frames| => frames[i][0]))
  }

  /** `desired_shape[0]`: the time width the classifier expects. */
  const TargetFrames: nat := 40

  /** `g` has `width` columns in every row (mel band). */
  predicate IsGrid(g: seq<seq<real>>, width: nat)
  {
    forall i :: 0 <= i < |g| ==> |g[i]| == width
  }

  function Zeros(n: nat): (z: seq<real>)
    ensures |z| == n && forall j :: 0 <= j < n ==> z[j] == 0.0
  {
    seq(n, j => 0.0)
  }

  /**
   * Pad on the right with zeros when narrower than 40 columns (`np.pad`),
   * crop on the right when wider (`[:, :40]`), otherwise leave alone. Whatever
   * the branch, column `j` of the result is column `j` of the input when it
   * exists and 0 otherwise.
   */
  function FitWidth(g: seq<seq<real>>, width: nat): (r: seq<seq<real>>)
    requires IsGrid(g, width)
    ensures |r| == |g| && IsGrid(r, TargetFrames)
    ensures forall i, j :: 0 <= i < |g| && 0 <= j < TargetFrames ==>
              r[i][j] == if j < width then g[i][j] else 0.0
  {
    if width < TargetFrames then
      var r := seq(|g|, i requires 0 <= i < |g| => g[i] + Zeros(TargetFrames - width));
      assert forall i :: 0 <= i < |g| ==> r[i] == g[i] + Zeros(TargetFrames - width) && |g[i]| == width;
      assert forall i, j :: 0 <= i < |g| && 0 <= j < TargetFrames ==>
               r[i][j] == if j < width then g[i][j] else Zeros(TargetFrames - width)[j - width];
      r
    else if width > TargetFrames then
      seq(|g|, i requires 0 <= i < |g| => g[i][..TargetFrames])
    else g
  }

  /** A narrower spectrogram keeps its columns as a prefix of every row, followed by zeros only. */
  lemma FitWidthPads(g: seq<seq<real>>, width: nat, i: nat)
    requires IsGrid(g, width) && width <= TargetFrames && i < |g|
    ensures FitWidth(g, width)[i][..width] == g[i]
    ensures forall j :: width <= j < TargetFrames ==> FitWidth(g, width)[i][j] == 0.0
  {
  }

  /** A wider spectrogram keeps exactly its first 40 columns. */
  lemma FitWidthCrops(g: seq<seq<real>>, width: nat, i: nat)
    requires IsGrid(g, width) && width >= TargetFrames && i < |g|
    ensures FitWidth(g, width)[i] == g[i][..TargetFrames]
  {
  }

  /** Conditioning an already conditioned spectrogram changes nothing. */
  lemma FitWidthIdempotent(g: seq<seq<real>>, width: nat)
    requires IsGrid(g, width)
    ensures FitWidth(FitWidth(g, width), TargetFrames) == FitWidth(g, width)
  {
  }

  /** `np.expand_dims(spectrogram, axis=-1)`: every entry becomes a one-element channel vector. */
  function ExpandDims(g: seq<seq<real>>): (t: seq<seq<seq<real>>>)
    ensures |t| == |g| && forall i :: 0 <= i < |g| ==> |t[i]| == |g[i]|
    ensures forall i, j :: 0 <= i < |g| && 0 <= j < |g[i]| ==> t[i][j] == [g[i][j]]
  {
    seq(|g|, i requires 0 <= i < |g| => seq(|g[i]|, j requires 0 <= j < |g[i]| => [g[i][j]]))
  }

  /** A three-dimensional array of shape (a, b, c). */
  predicate HasShape3(t: seq<seq<seq<real>>>, a: nat, b: nat, c: nat)
  {
    |t| == a && forall i :: 0 <= i < a ==> |t[i]| == b && forall j :: 0 <= j < b ==> |t[i][j]| == c
  }

  /** Drops a trailing axis of length 1: the inverse of `ExpandDims`. */
  function Squeeze(t: seq<seq<seq<real>>>): (g: seq<seq<real>>)
    requires forall i, j :: 0 <= i < |t| && 0 <= j < |t[i]| ==> |t[i][j]| == 1
    ensures |g| == |t|
  {
    seq(|t|, i requires 0 <= i < |t| => seq(|t[i]|, j requires 0 <= j < |t[i]| => t[i][j][0]))
  }

  lemma SqueezeExpandDims(g: seq<seq<real>>)
    ensures Squeeze(ExpandDims(g)) == g
  {
    var t := ExpandDims(g);
    forall i | 0 <= i < |g| ensures Squeeze(t)[i] == g[i] {
      assert |Squeeze(t)[i]| == |g[i]|;
    }
  }

  /**
   * The whole conditioning after the decibel conversion: any number of mel
   * bands R and any width give shape (R, 40, 1), holding the input's columns
   * (then zeros) in the channel slot.
   */
  function Condition(g: seq<seq<real>>, width: nat): (t: seq<seq<seq<real>>>)
    requires IsGrid(g, width)
    ensures HasShape3(t, |g|, TargetFrames, 1)
    ensures forall i, j :: 0 <= i < |g| && 0 <= j < TargetFrames ==>
              t[i][j][0] == if j < width then g[i][j] else 0.0
  {
    ExpandDims(FitWidth(g, width))
  }

  /** `emotions.get(np.argmax(predictions))`; `Err` is the `ValueError` of `argmax` on an empty array. */
  function PredictedEmotion(predictions: seq<seq<real>>): (r: Result<Option<string>, string>)
    ensures r.Err? <==> |Flatten(predictions)| == 0
  {
    match Selection.ArgMax(Flatten(predictions))
    case None => Err("attempt to get argmax of an empty sequence")
    case Some(k) => Ok(OneBasedLabel(k))
  }

  /**
   * The label shown is the 1-based name of the first maximal flat position:
   * `None` when that position is 0 or above 8.
   */
  lemma PredictedEmotionAt(predictions: seq<seq<real>>, k: nat)
    requires Selection.IsFirstMax(Flatten(predictions), k)
    ensures PredictedEmotion(predictions) == Ok(OneBasedLabel(k))
    ensures PredictedEmotion(predictions).value.Some? <==> 1 <= k <= 8
  {
    Selection.FirstMaxUnique(Flatten(predictions), Selection.ArgMax(Flatten(predictions)).value, k);
  }

  /** Every score of the batch is at most the flat maximum. */
  lemma BatchEntryAtMost(predictions: seq<seq<real>>, classes: nat, k: nat, i: nat, j: nat)
    requires IsRectangular(predictions, classes) && Selection.IsFirstMax(Flatten(predictions), k)
    requires i < |predictions| && j < classes
    ensures predictions[i][j] <= Flatten(predictions)[k]
  {
    var p := FlattenHas(predictions, classes, i, j);
  }

  /**
   * `model.predict` reads the (R, 40, 1) array as a batch of R inputs and
   * answers one row of `classes` scores per input. The flat `argmax` then
   * ranges over the whole batch: position `k` is class `k % classes` of
   * batch row `k / classes`, and that score is the largest in the batch.
   */
  lemma PredictedEmotionBatch(predictions: seq<seq<real>>, classes: nat, k: nat)
    requires IsRectangular(predictions, classes) && Selection.IsFirstMax(Flatten(predictions), k)
    ensures classes > 0 && k / classes < |predictions| && k % classes < classes
    ensures Flatten(predictions)[k] == predictions[k / classes][k % classes]
    ensures forall i, j :: 0 <= i < |predictions| && 0 <= j < classes ==>
              predictions[i][j] <= predictions[k / classes][k % classes]
  {
    FlattenLength(predictions, classes);
    FlattenAt(predictions, classes, k);
    forall i, j | 0 <= i < |predictions| && 0 <= j < classes
      ensures predictions[i][j] <= Flatten(predictions)[k]
    {
      BatchEntryAtMost(predictions, classes, k, i, j);
    }
  }
}
