/** Splitting a string on a separator character, with the meaning of the pieces
    that JavaScript's `String.prototype.split` returns. */
module Text {

  /** `s.split(sep)`: the maximal runs of `s` between separators, in order.
      There is always at least one piece, and no piece holds a separator. */
  function Split(s: string, sep: char): (parts: seq<string>)
    ensures |parts| >= 1
    ensures forall i :: 0 <= i < |parts| ==> sep !in parts[i]
    decreases |s|
  {
    if s == [] then [""]
    else if s[0] == sep then [""] + Split(s[1..], sep)
    else
      var rest := Split(s[1..], sep);
      [[s[0]] + rest[0]] + rest[1..]
  }

  /** `parts.join(sep)`. */
  function Join(parts: seq<string>, sep: char): string
    requires |parts| >= 1
    decreases |parts|
  {
    if |parts| == 1 then parts[0] else parts[0] + [sep] + Join(parts[1..], sep)
  }

  /** Splitting and joining again gives back the string. */
  lemma {:induction false} JoinOfSplit(s: string, sep: char)
    ensures Join(Split(s, sep), sep) == s
    decreases |s|
  {
    if s == [] {
    } else if s[0] == sep {
      var rest := Split(s[1..], sep);
      assert ([""] + rest)[1..] == rest;
      JoinOfSplit(s[1..], sep);
      assert s == [sep] + s[1..];
    } else {
      var rest := Split(s[1..], sep);
      var parts := [[s[0]] + rest[0]] + rest[1..];
      JoinOfSplit(s[1..], sep);
      if |rest| == 1 {
        assert Join(parts, sep) == [s[0]] + rest[0];
      } else {
        assert parts[1..] == rest[1..];
        assert Join(parts, sep) == [s[0]] + rest[0] + [sep] + Join(rest[1..], sep);
      }
      assert s == [s[0]] + s[1..];
    }
  }

  /** A string without separators is a single piece. */
  lemma {:induction false} SplitWithoutSeparator(a: string, sep: char)
    requires sep !in a
    ensures Split(a, sep) == [a]
    decreases |a|
  {
    if a != [] {
      SplitWithoutSeparator(a[1..], sep);
      assert a == [a[0]] + a[1..];
    }
  }

  /** A separator-free head followed by a separator splits off as the first piece. */
  lemma {:induction false} SplitAfterSegment(a: string, sep: char, b: string)
    requires sep !in a
    ensures Split(a + [sep] + b, sep) == [a] + Split(b, sep)
    decreases |a|
  {
    var s := a + [sep] + b;
    if a == [] {
      assert s[0] == sep && s[1..] == b;
    } else {
      assert s[0] == a[0] && s[1..] == a[1..] + [sep] + b;
      SplitAfterSegment(a[1..], sep, b);
      assert a == [a[0]] + a[1..];
    }
  }

  /** Joining separator-free pieces and splitting again gives back the pieces. */
  lemma {:induction false} SplitOfJoin(parts: seq<string>, sep: char)
    requires |parts| >= 1
    requires forall i :: 0 <= i < |parts| ==> sep !in parts[i]
    ensures Split(Join(parts, sep), sep) == parts
    decreases |parts|
  {
    if |parts| == 1 {
      SplitWithoutSeparator(parts[0], sep);
    } else {
      SplitOfJoin(parts[1..], sep);
      SplitAfterSegment(parts[0], sep, Join(parts[1..], sep));
      assert parts == [parts[0]] + parts[1..];
    }
  }

  /** `seg` is the text of `s` before its first `sep`, or all of `s` when it has none. */
  ghost predicate IsFirstSegment(seg: string, s: string, sep: char) {
    sep !in seg && seg <= s && (|seg| == |s| || s[|seg|] == sep)
  }

  /** `seg` is the text of `s` after its last `sep`, or all of `s` when it has none. */
  ghost predicate IsLastSegment(seg: string, s: string, sep: char) {
    && sep !in seg
    && |seg| <= |s|
    && s[|s| - |seg|..] == seg
    && (|seg| == |s| || s[|s| - |seg| - 1] == sep)
  }

  /** At most one string is the first segment of `s`. */
  lemma FirstSegmentUnique(x: string, y: string, s: string, sep: char)
    requires IsFirstSegment(x, s, sep) && IsFirstSegment(y, s, sep)
    ensures x == y
  {
  }

  /** At most one string is the last segment of `s`. */
  lemma LastSegmentUnique(x: string, y: string, s: string, sep: char)
    requires IsLastSegment(x, s, sep) && IsLastSegment(y, s, sep)
    ensures x == y
  {
  }

  /** The last piece is joined on after all the others. */
  lemma {:induction false} JoinLast(parts: seq<string>, sep: char)
    requires |parts| >= 2
    ensures Join(parts, sep) == Join(parts[..|parts| - 1], sep) + [sep] + parts[|parts| - 1]
    decreases |parts|
  {
    if |parts| > 2 {
      JoinLast(parts[1..], sep);
      assert parts[1..][..|parts| - 2] == parts[..|parts| - 1][1..];
    }
  }

  /** `s.split(sep)[0]`: the text before the first separator. */
  function FirstSegment(s: string, sep: char): (seg: string)
    ensures IsFirstSegment(seg, s, sep)
  {
    var parts := Split(s, sep);
    JoinOfSplit(s, sep);
    parts[0]
  }

  /** `s.split(sep).pop()`: the text after the last separator. */
  function LastSegment(s: string, sep: char): (seg: string)
    ensures IsLastSegment(seg, s, sep)
  {
    var parts := Split(s, sep);
    JoinOfSplit(s, sep);
    if |parts| >= 2 then JoinLast(parts, sep); parts[|parts| - 1] else parts[0]
  }
}
