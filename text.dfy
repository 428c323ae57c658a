/**
 * The string operations the scripts use: Python's `str.startswith` and
 * `str.split(sep)` with a one-character separator, with `Join` (Python's
 * `sep.join`) as the inverse that pins `Split` down.
 */
module Text {

  predicate StartsWith(s: string, prefix: string)
  {
    |prefix| <= |s| && s[..|prefix|] == prefix
  }

  /** Python's `s.split(sep)`: the maximal runs between separators, always at least one piece. */
  function Split(s: string, sep: char): (parts: seq<string>)
    ensures |parts| >= 1
    decreases |s|
  {
    if |s| == 0 then [""]
    else
      var rest := Split(s[1..], sep);
      if s[0] == sep then [""] + rest
      else [[s[0]] + rest[0]] + rest[1..]
  }

  /** Python's `sep.join(parts)`. */
  function Join(parts: seq<string>, sep: char): string
    requires |parts| >= 1
    decreases |parts|
  {
    if |parts| == 1 then parts[0] else parts[0] + [sep] + Join(parts[1..], sep)
  }

  /** No piece produced by `Split` contains the separator. */
  predicate SepFree(parts: seq<string>, sep: char)
  {
    forall k :: 0 <= k < |parts| ==> sep !in parts[k]
  }

  /** Joining the pieces back with the separator gives the original string. */
  lemma {:induction false} JoinSplit(s: string, sep: char)
    ensures Join(Split(s, sep), sep) == s
    ensures SepFree(Split(s, sep), sep)
    decreases |s|
  {
    if |s| > 0 {
      var rest := Split(s[1..], sep);
      JoinSplit(s[1..], sep);
      if s[0] == sep {
        assert Split(s, sep) == [""] + rest;
        assert ([""] + rest)[1..] == rest;
        assert Join([""] + rest, sep) == [sep] + Join(rest, sep);
        assert s == [s[0]] + s[1..];
      } else {
        var parts := Split(s, sep);
        assert parts == [[s[0]] + rest[0]] + rest[1..];
        if |rest| == 1 {
          assert Join(parts, sep) == [s[0]] + rest[0];
        } else {
          assert parts[1..] == rest[1..];
          assert Join(parts, sep) == [s[0]] + rest[0] + [sep] + Join(rest[1..], sep);
          assert Join(rest, sep) == rest[0] + [sep] + Join(rest[1..], sep);
        }
        assert s == [s[0]] + s[1..];
        forall k | 0 <= k < |parts| ensures sep !in parts[k] {
          if k > 0 { assert parts[k] == rest[k]; }
        }
      }
    }
  }

  /** A string without the separator is a single piece. */
  lemma {:induction false} SplitNoSep(s: string, sep: char)
    requires sep !in s
    ensures Split(s, sep) == [s]
    decreases |s|
  {
    if |s| > 0 {
      SplitNoSep(s[1..], sep);
      assert s == [s[0]] + s[1..];
    }
  }

  /** The pieces of `[c] + t` built from the pieces `rest` of `t`: a separator opens a new piece, anything else extends the first. */
  function ConsPieces(c: char, rest: seq<string>, sep: char): seq<string>
    requires |rest| >= 1
  {
    if c == sep then [""] + rest else [[c] + rest[0]] + rest[1..]
  }

  /** One unfolding of `Split` on a string given as first character and rest. */
  lemma SplitCons(c: char, t: string, sep: char)
    ensures Split([c] + t, sep) == ConsPieces(c, Split(t, sep), sep)
  {
    assert ([c] + t)[1..] == t;
  }

  /** Prepending a character only touches the first piece, so it commutes with appending pieces. */
  lemma ConsPiecesAppend(c: char, a: seq<string>, b: seq<string>, sep: char)
    requires |a| >= 1
    ensures ConsPieces(c, a + b, sep) == ConsPieces(c, a, sep) + b
  {
    if c != sep {
      assert (a + b)[0] == a[0];
      assert (a + b)[1..] == a[1..] + b;
    }
  }

  /** Splitting at one separator splits the two sides independently. */
  lemma {:induction false} SplitAt(a: string, sep: char, b: string)
    ensures Split(a + [sep] + b, sep) == Split(a, sep) + Split(b, sep)
    decreases |a|
  {
    if |a| == 0 {
      assert a + [sep] + b == [sep] + b;
      SplitCons(sep, b, sep);
    } else {
      var t := a[1..];
      assert a == [a[0]] + t;
      assert a + [sep] + b == [a[0]] + (t + [sep] + b);
      SplitAt(t, sep, b);
      SplitCons(a[0], t + [sep] + b, sep);
      SplitCons(a[0], t, sep);
      ConsPiecesAppend(a[0], Split(t, sep), Split(b, sep), sep);
    }
  }

  /** Pieces that contain no separator survive a join and a split unchanged. */
  lemma {:induction false} SplitJoin(parts: seq<string>, sep: char)
    requires |parts| >= 1 && SepFree(parts, sep)
    ensures Split(Join(parts, sep), sep) == parts
    decreases |parts|
  {
    SplitNoSep(parts[0], sep);
    if |parts| > 1 {
      SplitJoin(parts[1..], sep);
      SplitAt(parts[0], sep, Join(parts[1..], sep));
      assert [parts[0]] + parts[1..] == parts;
    }
  }

  /** The text before the first separator (`s.split(sep)[0]`). */
  function Before(s: string, sep: char): (r: string)
    ensures sep !in r
    ensures StartsWith(s, r)
    ensures sep in s ==> |r| < |s| && s[|r|] == sep
    ensures sep !in s ==> r == s
  {
    JoinSplit(s, sep);
    var parts := Split(s, sep);
    if |parts| > 1 then
      assert s == parts[0] + [sep] + Join(parts[1..], sep);
      parts[0]
    else
      parts[0]
  }

  /** The text after the last separator (`s.split(sep)[-1]`). */
  function AfterLast(s: string, sep: char): (r: string)
    ensures sep !in r
  {
    JoinSplit(s, sep);
    Split(s, sep)[|Split(s, sep)| - 1]
  }

  /** The first piece of `a + sep + b` is `a`, whatever `b` holds. */
  lemma BeforeJoined(a: string, sep: char, b: string)
    requires sep !in a
    ensures Before(a + [sep] + b, sep) == a
  {
    SplitAt(a, sep, b);
    SplitNoSep(a, sep);
  }

  /** The last piece of `a + sep + b` is `b` when `b` holds no separator. */
  lemma AfterLastJoined(a: string, sep: char, b: string)
    requires sep !in b
    ensures AfterLast(a + [sep] + b, sep) == b
  {
    SplitAt(a, sep, b);
    SplitNoSep(b, sep);
  }
}
