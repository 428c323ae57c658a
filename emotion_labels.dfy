/**
 * The class-index tables of the numeric emotion classifier and the index
 * selection in front of them. The scripts disagree on the numbering: the
 * app script and the app checkpoint number the eight classes from 1, the
 * untitled checkpoint from 0.
 */
module EmotionLabels {
  import opened Wrappers
  import Selection

  /** The eight classes, in the order both tables list them. */
  const EmotionNames: seq<string> := ["neutral", "calm", "happy", "sad", "angry", "fearful", "disgust", "surprised"]

  /** The 1-based table (`emotions` in the app script, `emotion_labels` in the app checkpoint). */
  const OneBasedLabels: map<int, string> :=
    map[1 := "neutral", 2 := "calm", 3 := "happy", 4 := "sad",
        5 := "angry", 6 := "fearful", 7 := "disgust", 8 := "surprised"]

  /** The 0-based table (`emotion_labels` in the untitled checkpoint). */
  const ZeroBasedLabels: map<int, string> :=
    map[0 := "neutral", 1 := "calm", 2 := "happy", 3 := "sad",
        4 := "angry", 5 := "fearful", 6 := "disgust", 7 := "surprised"]

  /** A lookup in the 1-based table: `dict.get`, or the `KeyError` of `dict[k]`, is `None`. */
  function OneBasedLabel(k: int): (r: Option<string>)
    ensures r.Some? <==> 1 <= k <= 8
    ensures r.Some? ==> r.value == EmotionNames[k - 1]
  {
    if k in OneBasedLabels then Some(OneBasedLabels[k]) else None
  }

  /** A lookup in the 0-based table; `None` is the `KeyError`. */
  function ZeroBasedLabel(k: int): (r: Option<string>)
    ensures r.Some? <==> 0 <= k <= 7
    ensures r.Some? ==> r.value == EmotionNames[k]
  {
    if k in ZeroBasedLabels then Some(ZeroBasedLabels[k]) else None
  }

  /** The two numberings are one shift apart. */
  lemma ConventionsShift(k: int)
    ensures OneBasedLabel(k + 1) == ZeroBasedLabel(k)
  {
  }

  /** No index in 0..8 is read the same way by both tables. */
  lemma ConventionsDisagree(k: int)
    requires 0 <= k <= 8
    ensures OneBasedLabel(k) != ZeroBasedLabel(k)
  {
    if 1 <= k <= 7 {
      assert EmotionNames[k - 1] != EmotionNames[k];
    }
  }

  /** Row-major flattening: what `np.argmax` without an axis scans. */
  function Flatten(rows: seq<seq<real>>): (flat: seq<real>)
    ensures |rows| == 1 ==> flat == rows[0]
    ensures |rows| > 0 ==> |rows[0]| <= |flat| && flat[..|rows[0]|] == rows[0]
  {
    if |rows| == 0 then [] else rows[0] + Flatten(rows[1..])
  }

  /** Every row has `width` entries: a (|rows|, width) array. */
  predicate IsRectangular(rows: seq<seq<real>>, width: nat)
  {
    forall i :: 0 <= i < |rows| ==> |rows[i]| == width
  }

  /** One more row adds `width` to the product. */
  lemma RowsTimesWidth(n: nat, width: nat)
    requires n > 0
    ensures n * width == width + (n - 1) * width
  {
  }

  /** A (n, width) array flattens to `n * width` values. */
  lemma {:induction false} FlattenLength(rows: seq<seq<real>>, width: nat)
    requires IsRectangular(rows, width)
    ensures |Flatten(rows)| == |rows| * width
  {
    if |rows| > 0 {
      FlattenLength(rows[1..], width);
      RowsTimesWidth(|rows|, width);
    }
  }

  /**
   * The flat layout of a (n, width) array is row after row: entry `j` of
   * row `i` sits at flat position `i * width + j`.
   */
  lemma {:induction false} FlattenEntry(rows: seq<seq<real>>, width: nat, i: nat, j: nat)
    requires IsRectangular(rows, width) && i < |rows| && j < width
    ensures i * width + j < |Flatten(rows)| && Flatten(rows)[i * width + j] == rows[i][j]
  {
    var tail := rows[1..];
    assert Flatten(rows) == rows[0] + Flatten(tail);
    if i > 0 {
      FlattenEntry(tail, width, i - 1, j);
      RowsTimesWidth(i, width);
      var p := (i - 1) * width + j;
      assert i * width + j == |rows[0]| + p;
    }
  }

  /** Every entry of a rectangular array appears somewhere in its flattening. */
  lemma FlattenHas(rows: seq<seq<real>>, width: nat, i: nat, j: nat) returns (p: nat)
    requires IsRectangular(rows, width) && i < |rows| && j < width
    ensures p < |Flatten(rows)| && Flatten(rows)[p] == rows[i][j]
  {
    FlattenEntry(rows, width, i, j);
    p := i * width + j;
  }

  /** Euclidean division by the row width names the row and the column. */
  lemma RowOfPosition(k: nat, width: nat, n: nat)
    requires k < n * width
    ensures width > 0 && k / width < n && k == (k / width) * width + k % width && k % width < width
  {
  }

  /** Flat position `k` of a (n, width) array is entry `k % width` of row `k / width`. */
  lemma FlattenAt(rows: seq<seq<real>>, width: nat, k: nat)
    requires IsRectangular(rows, width) && k < |rows| * width
    ensures width > 0 && k / width < |rows| && k < |Flatten(rows)|
    ensures Flatten(rows)[k] == rows[k / width][k % width]
  {
    RowOfPosition(k, width, |rows|);
    FlattenEntry(rows, width, k / width, k % width);
  }

  /** `features.reshape(1, -1)`: a single row holding every feature, undone by `Flatten`. */
  function OneRow(features: seq<real>): (rows: seq<seq<real>>)
    ensures |rows| == 1 && Flatten(rows) == features
  {
    [features]
  }
}
