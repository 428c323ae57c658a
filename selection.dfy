/**
 * First-maximum selection. NumPy's `argmax` and Python's `max(..., key=...)`
 * both scan left to right and replace the current best only by a strictly
 * greater value, so both return the FIRST position holding the maximum.
 */
module Selection {
  import opened Wrappers

  /** `i` holds a maximum of `s` and every earlier position holds strictly less. */
  ghost predicate IsFirstMax(s: seq<real>, i: nat)
  {
    i < |s| &&
    (forall j :: 0 <= j < |s| ==> s[j] <= s[i]) &&
    (forall j :: 0 <= j < i ==> s[j] < s[i])
  }

  /** Index of the first maximum; `None` for an empty sequence (NumPy and `max` raise there). */
  function ArgMax(s: seq<real>): (r: Option<nat>)
    ensures r.None? <==> |s| == 0
    ensures r.Some? ==> IsFirstMax(s, r.value)
  {
    if |s| == 0 then None else Some(ScanFrom(s, 1, 0))
  }

  /** The scan itself: `best` is the first maximum of the prefix `s[..i]`. */
  function ScanFrom(s: seq<real>, i: nat, best: nat): (r: nat)
    requires best < i <= |s|
    requires forall j :: 0 <= j < i ==> s[j] <= s[best]
    requires forall j :: 0 <= j < best ==> s[j] < s[best]
    ensures IsFirstMax(s, r)
    decreases |s| - i
  {
    if i == |s| then best
    else if s[i] > s[best] then ScanFrom(s, i + 1, i)
    else ScanFrom(s, i + 1, best)
  }

  /** The first maximum is unique, so `ArgMax` is determined by its contract. */
  lemma FirstMaxUnique(s: seq<real>, i: nat, k: nat)
    requires IsFirstMax(s, i) && IsFirstMax(s, k)
    ensures i == k
  {
    assert s[k] <= s[i] && s[i] <= s[k];
    assert !(i < k);
    assert !(k < i);
  }
}
