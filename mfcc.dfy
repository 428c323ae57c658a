/**
 * The shape side of `extract_mfcc` in both notebook checkpoints:
 * `np.mean(librosa.feature.mfcc(..., n_mfcc=40).T, axis=0)` followed by
 * `reshape(1, -1)`. The coefficients and the float mean are external; what
 * is modelled is that the mean runs over time, once per coefficient, so the
 * classifier always receives one row of 40 values whatever the clip length.
 */
module Mfcc {
  import opened EmotionLabels

  /** `n_mfcc`. */
  const NumMfcc: nat := 40

  /** `librosa.feature.mfcc(..., n_mfcc=40)`: 40 coefficient rows over one common number of frames. */
  type MfccMatrix = m: seq<seq<real>> | |m| == NumMfcc && forall i :: 0 <= i < |m| ==> |m[i]| == |m[0]|
    witness seq(NumMfcc, i => [])

  /** `.T` of a matrix whose rows all have `width` entries. */
  function Transpose(m: seq<seq<real>>, width: nat): (t: seq<seq<real>>)
    requires forall i :: 0 <= i < |m| ==> |m[i]| == width
    ensures |t| == width && forall f :: 0 <= f < width ==> |t[f]| == |m|
    ensures forall f, i :: 0 <= f < width && 0 <= i < |m| ==> t[f][i] == m[i][f]
  {
    seq(width, f requires 0 <= f < width => seq(|m|, i requires 0 <= i < |m| => m[i][f]))
  }

  /** Column `i` of a matrix with `width` columns. */
  function Column(t: seq<seq<real>>, width: nat, i: nat): (col: seq<real>)
    requires i < width && forall f :: 0 <= f < |t| ==> |t[f]| == width
    ensures |col| == |t|
  {
    seq(|t|, f requires 0 <= f < |t| => t[f][i])
  }

  /**
   * `np.mean(mfccs.T, axis=0)` with `mean` standing for NumPy's float mean:
   * one value per coefficient, the mean of that coefficient over all frames.
   */
  function MeanPool(m: MfccMatrix, mean: seq<real> -> real): (features: seq<real>)
    ensures |features| == NumMfcc
    ensures forall i :: 0 <= i < NumMfcc ==> features[i] == mean(m[i])
  {
    var t := Transpose(m, |m[0]|);
    assert forall i :: 0 <= i < NumMfcc ==> Column(t, NumMfcc, i) == m[i] by {
      forall i | 0 <= i < NumMfcc ensures Column(t, NumMfcc, i) == m[i] {
        assert |Column(t, NumMfcc, i)| == |m[i]|;
      }
    }
    seq(NumMfcc, i requires 0 <= i < NumMfcc => mean(Column(t, NumMfcc, i)))
  }

  /** `extract_mfcc(...)` then `reshape(1, -1)`: one row of exactly 40 pooled coefficients. */
  function FeatureRow(m: MfccMatrix, mean: seq<real> -> real): (rows: seq<seq<real>>)
    ensures |rows| == 1 && |rows[0]| == NumMfcc
    ensures Flatten(rows) == MeanPool(m, mean)
  {
    OneRow(MeanPool(m, mean))
  }
}
