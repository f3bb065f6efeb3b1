/**
 * The `--nesting` argument: a slash-separated path such as `/rss/item`.
 * The segment at index 1 of the split names the synthetic root element that
 * wraps every chunk; the last segment names the repeated item element.
 */
module Nesting {
  import opened Wrappers

  const Separator: char := '/'

  /** Joins non-empty `parts` with `sep` between neighbours. */
  function Join(parts: seq<string>, sep: char): string
    requires |parts| >= 1
  {
    if |parts| == 1 then parts[0] else parts[0] + [sep] + Join(parts[1..], sep)
  }

  /**
   * The segments of `s` between occurrences of `sep`, in order, as a string
   * splitter yields them: an empty string has one empty segment, and every
   * separator starts a new segment.
   */
  function Split(s: string, sep: char): (parts: seq<string>)
    ensures |parts| >= 1
    ensures forall i :: 0 <= i < |parts| ==> sep !in parts[i]
    ensures Join(parts, sep) == s
    ensures |parts| == 1 <==> sep !in s
  {
    if s == [] then [[]]
    else
      var rest := Split(s[1..], sep);
      if s[0] == sep then
        assert ([[]] + rest)[1..] == rest;
        [[]] + rest
      else
        var parts := [[s[0]] + rest[0]] + rest[1..];
        assert parts[1..] == rest[1..];
        assert |rest| > 1 ==> Join(rest, sep) == rest[0] + [sep] + Join(rest[1..], sep);
        assert |rest| > 1 ==> Join(parts, sep) == [s[0]] + (rest[0] + [sep] + Join(rest[1..], sep));
        assert s == [s[0]] + s[1..];
        parts
  }

  /** `Split` is the only way to cut `s` at its separators. */
  lemma {:induction false} SplitUnique(s: string, sep: char, parts: seq<string>)
    requires |parts| >= 1
    requires forall i :: 0 <= i < |parts| ==> sep !in parts[i]
    requires Join(parts, sep) == s
    ensures parts == Split(s, sep)
    decreases |parts|
  {
    if |parts| == 1 {
      assert sep !in s;
    } else {
      var tail := Join(parts[1..], sep);
      SplitUnique(tail, sep, parts[1..]);
      SplitAfterSegment(parts[0], tail, sep);
      assert [parts[0]] + parts[1..] == parts;
    }
  }

  /** Splitting a separator-free segment, a separator and a tail. */
  lemma {:induction false} SplitAfterSegment(head: string, tail: string, sep: char)
    requires sep !in head
    ensures Split(head + [sep] + tail, sep) == [head] + Split(tail, sep)
  {
    var s := head + [sep] + tail;
    if head == [] {
      assert s[0] == sep && s[1..] == tail;
    } else {
      assert s[0] == head[0] && s[1..] == head[1..] + [sep] + tail;
      SplitAfterSegment(head[1..], tail, sep);
      assert [head[0]] + head[1..] == head;
    }
  }

  /** The last part is preceded by the join of the others and a separator. */
  lemma {:induction false} JoinLast(parts: seq<string>, sep: char)
    requires |parts| >= 2
    ensures Join(parts, sep) == Join(parts[..|parts| - 1], sep) + [sep] + parts[|parts| - 1]
  {
    if |parts| > 2 {
      JoinLast(parts[1..], sep);
      assert parts[1..][..|parts| - 2] == parts[..|parts| - 1][1..];
    }
  }

  /**
   * `nesting[i]` is the first separator of `nesting`, and `segment` is what
   * follows it up to the next separator or the end.
   */
  predicate FollowsFirstSeparator(nesting: string, i: int, segment: string)
  {
    0 <= i < |nesting| && nesting[i] == Separator && Separator !in nesting[..i]
    && var j := i + 1 + |segment|;
       j <= |nesting| && nesting[i + 1..j] == segment
       && (j == |nesting| || nesting[j] == Separator)
  }

  /**
   * The root element name: the segment at index 1 of the split. A nesting
   * without any separator has no such segment, and the program aborts.
   */
  function RootFromNesting(nesting: string): (root: Option<string>)
    ensures root.None? <==> Separator !in nesting
    ensures root.Some? ==> Separator !in root.value
    ensures root.Some? ==> exists i :: FollowsFirstSeparator(nesting, i, root.value)
  {
    var parts := Split(nesting, Separator);
    if |parts| >= 2 then
      SecondSegmentFollowsFirstSeparator(nesting, parts);
      Some(parts[1])
    else None
  }

  /** The second part of a split sits right after the first separator. */
  lemma SecondSegmentFollowsFirstSeparator(nesting: string, parts: seq<string>)
    requires |parts| >= 2 && Join(parts, Separator) == nesting
    requires forall k :: 0 <= k < |parts| ==> Separator !in parts[k]
    ensures FollowsFirstSeparator(nesting, |parts[0]|, parts[1])
  {
    SecondSegment(parts, Separator);
    var i, j := |parts[0]|, |parts[0]| + 1 + |parts[1]|;
    assert nesting[..i] == parts[0] && nesting[i] == Separator;
    assert nesting[i + 1..j] == parts[1];
    assert j < |nesting| ==> nesting[j] == Separator;
  }

  /** Where the second of at least two parts sits in their join. */
  lemma SecondSegment(parts: seq<string>, sep: char)
    requires |parts| >= 2
    ensures
      var rest := if |parts| == 2 then [] else [sep] + Join(parts[2..], sep);
      Join(parts, sep) == parts[0] + [sep] + parts[1] + rest
  {
    if |parts| > 2 { assert parts[1..][1..] == parts[2..]; }
  }

  /**
   * The item element name: the last segment, that is everything after the
   * last separator, or the whole nesting when it has none. Never fails.
   */
  function ParentFromNesting(nesting: string): (item: string)
    ensures Separator !in item
    ensures |item| <= |nesting| && nesting[|nesting| - |item|..] == item
    ensures |item| == |nesting| || nesting[|nesting| - |item| - 1] == Separator
  {
    var parts := Split(nesting, Separator);
    if |parts| >= 2 then
      JoinLast(parts, Separator);
      parts[|parts| - 1]
    else parts[0]
  }
}
