/**
 * The pieces of Go's `strings` and `unicode` packages that the server relies
 * on, over Dafny strings (sequences of Unicode scalar values):
 * `unicode.IsSpace`, `strings.ToLower`, `strings.Contains`,
 * `strings.TrimSpace` and `strings.Fields`.
 */
module Text {

  /** `unicode.IsSpace`: the Latin-1 spaces plus every other White_Space character. */
  predicate IsSpace(c: char) {
    ('\t' <= c <= '\r') || c == ' ' || c == '\U{85}' || c == '\U{A0}' ||
    c == '\U{1680}' || ('\U{2000}' <= c <= '\U{200A}') ||
    c == '\U{2028}' || c == '\U{2029}' || c == '\U{202F}' || c == '\U{205F}' ||
    c == '\U{3000}'
  }

  predicate NoSpace(s: string) {
    forall i :: 0 <= i < |s| ==> !IsSpace(s[i])
  }

  /**
   * `unicode.ToLower` as far as this server can observe it: ASCII capitals,
   * and the two non-ASCII capitals whose lower case is an ASCII letter
   * (U+0130 and the Kelvin sign U+212A). Every other character is kept.
   */
  function LowerChar(c: char): char {
    if 'A' <= c <= 'Z' then (c as int + 32) as char
    else if c == '\U{130}' then 'i'
    else if c == '\U{212A}' then 'k'
    else c
  }

  /** `strings.ToLower`, character by character. */
  function ToLower(s: string): (r: string)
    ensures |r| == |s|
    ensures forall i :: 0 <= i < |s| ==> r[i] == LowerChar(s[i])
  {
    seq(|s|, i requires 0 <= i < |s| => LowerChar(s[i]))
  }

  predicate OccursAt(s: string, w: string, i: int) {
    0 <= i && i + |w| <= |s| && s[i..i + |w|] == w
  }

  /** `strings.Contains(s, w)`. */
  predicate Contains(s: string, w: string) {
    exists i | 0 <= i <= |s| - |w| :: OccursAt(s, w, i)
  }

  /** The end of the run of white space that starts at `k`. */
  function SpaceRunEnd(s: string, k: int): (n: int)
    requires 0 <= k <= |s|
    decreases |s| - k
    ensures k <= n <= |s|
    ensures forall i :: k <= i < n ==> IsSpace(s[i])
    ensures n < |s| ==> !IsSpace(s[n])
  {
    if k < |s| && IsSpace(s[k]) then SpaceRunEnd(s, k + 1) else k
  }

  /** The start of the run of white space that ends at `k`. */
  function SpaceRunStart(s: string, k: int): (n: int)
    requires 0 <= k <= |s|
    ensures 0 <= n <= k
    ensures forall i :: n <= i < k ==> IsSpace(s[i])
    ensures n > 0 ==> !IsSpace(s[n - 1])
  {
    if k > 0 && IsSpace(s[k - 1]) then SpaceRunStart(s, k - 1) else k
  }

  /** Number of white-space characters at the front of `s`. */
  function LeadingSpaces(s: string): (n: nat)
    ensures n <= |s|
    ensures forall i :: 0 <= i < n ==> IsSpace(s[i])
    ensures n < |s| ==> !IsSpace(s[n])
  {
    SpaceRunEnd(s, 0)
  }

  /** Number of white-space characters at the end of `s`. */
  function TrailingSpaces(s: string): (n: nat)
    ensures n <= |s|
    ensures forall i :: |s| - n <= i < |s| ==> IsSpace(s[i])
    ensures n < |s| ==> !IsSpace(s[|s| - n - 1])
  {
    |s| - SpaceRunStart(s, |s|)
  }

  /** The leading white space is the only run of white space that reaches a non-space or the end. */
  lemma LeadingSpacesIs(s: string, n: int)
    requires 0 <= n <= |s|
    requires forall i :: 0 <= i < n ==> IsSpace(s[i])
    requires n < |s| ==> !IsSpace(s[n])
    ensures LeadingSpaces(s) == n
  {
    var m := LeadingSpaces(s);
    assert m <= n;
    assert n <= m;
  }

  /** The trailing white space is the only run of white space that starts after a non-space or at the start. */
  lemma TrailingSpacesIs(s: string, n: int)
    requires 0 <= n <= |s|
    requires forall i :: |s| - n <= i < |s| ==> IsSpace(s[i])
    requires n < |s| ==> !IsSpace(s[|s| - n - 1])
    ensures TrailingSpaces(s) == n
  {
    var m := TrailingSpaces(s);
    assert m <= n;
    assert n <= m;
  }

  /** `strings.TrimSpace`. */
  function TrimSpace(s: string): string {
    var t := s[LeadingSpaces(s)..];
    t[..|t| - TrailingSpaces(t)]
  }

  /** The ends of an occurrence are the ends of the word. */
  lemma OccurrenceEnds(s: string, w: string, i: int)
    requires w != [] && OccursAt(s, w, i)
    ensures s[i] == w[0] && s[i + |w| - 1] == w[|w| - 1]
  {
    assert s[i] == s[i..i + |w|][0];
    assert s[i + |w| - 1] == s[i..i + |w|][|w| - 1];
  }

  /** A slice of a slice is a slice of the whole. */
  lemma SliceOfSlice(s: string, a: int, b: int, x: int, y: int)
    requires 0 <= a <= b <= |s| && 0 <= x <= y <= b - a
    ensures s[a..b][x..y] == s[a + x..a + y]
  {
    forall k | 0 <= k < y - x
      ensures s[a..b][x..y][k] == s[a + x..a + y][k]
    {
    }
  }

  /** The trailing white space of a suffix is white space of the whole text. */
  lemma TrailingSpacesOfSuffix(s: string, a: int)
    requires 0 <= a <= |s|
    ensures TrailingSpaces(s[a..]) <= |s| - a
    ensures forall k :: |s| - TrailingSpaces(s[a..]) <= k < |s| ==> IsSpace(s[k])
  {
    var t := s[a..];
    var n := TrailingSpaces(t);
    forall k | |s| - n <= k < |s|
      ensures IsSpace(s[k])
    {
      assert s[k] == t[k - a];
    }
  }

  /** A prefix of a suffix is a slice. */
  lemma PrefixOfSuffix(s: string, a: int, n: int)
    requires 0 <= a <= |s| && 0 <= n <= |s| - a
    ensures s[a..][..|s| - a - n] == s[a..|s| - n]
  {
  }

  /** `TrimSpace(s)` is a slice of `s`. */
  lemma TrimSpaceIsSlice(s: string)
    ensures LeadingSpaces(s) <= |s| - TrailingSpaces(s[LeadingSpaces(s)..])
    ensures TrimSpace(s) == s[LeadingSpaces(s)..|s| - TrailingSpaces(s[LeadingSpaces(s)..])]
  {
    PrefixOfSuffix(s, LeadingSpaces(s), TrailingSpaces(s[LeadingSpaces(s)..]));
  }

  /** `TrimSpace(s)` is the slice `s[a..e]` with only white space outside it. */
  lemma TrimSpan(s: string)
    ensures var a := LeadingSpaces(s);
            var e := |s| - TrailingSpaces(s[a..]);
            0 <= a <= e <= |s| && TrimSpace(s) == s[a..e] &&
            (forall k :: 0 <= k < a ==> IsSpace(s[k])) &&
            (forall k :: e <= k < |s| ==> IsSpace(s[k]))
  {
    TrailingSpacesOfSuffix(s, LeadingSpaces(s));
    TrimSpaceIsSlice(s);
  }

  /** An occurrence of a space-free word lies inside a span with only white space outside it. */
  lemma OccurrenceInsideSpan(s: string, w: string, i: int, a: int, e: int)
    requires 0 <= a <= e <= |s|
    requires forall k :: 0 <= k < a ==> IsSpace(s[k])
    requires forall k :: e <= k < |s| ==> IsSpace(s[k])
    requires w != [] && NoSpace(w) && OccursAt(s, w, i)
    ensures a <= i && i + |w| <= e
  {
    OccurrenceEnds(s, w, i);
    assert !IsSpace(w[0]) && !IsSpace(w[|w| - 1]);
  }

  /** Within such a span, a space-free word occurs exactly when it occurs in the whole text. */
  lemma ContainsSpan(s: string, w: string, a: int, e: int)
    requires 0 <= a <= e <= |s|
    requires forall k :: 0 <= k < a ==> IsSpace(s[k])
    requires forall k :: e <= k < |s| ==> IsSpace(s[k])
    requires w != [] && NoSpace(w)
    ensures Contains(s[a..e], w) <==> Contains(s, w)
  {
    if Contains(s, w) {
      var i :| 0 <= i <= |s| - |w| && OccursAt(s, w, i);
      OccurrenceInsideSpan(s, w, i, a, e);
      SliceOfSlice(s, a, e, i - a, i - a + |w|);
      assert OccursAt(s[a..e], w, i - a);
    }
    if Contains(s[a..e], w) {
      var j :| 0 <= j <= |s[a..e]| - |w| && OccursAt(s[a..e], w, j);
      SliceOfSlice(s, a, e, j, j + |w|);
      assert OccursAt(s, w, j + a);
    }
  }

  /**
   * Trimming white space never changes whether a word without white space
   * occurs in a text: the occurrence cannot overlap the trimmed ends.
   */
  lemma ContainsTrimSpace(s: string, w: string)
    requires w != [] && NoSpace(w)
    ensures Contains(TrimSpace(s), w) <==> Contains(s, w)
  {
    TrimSpan(s);
    ContainsSpan(s, w, LeadingSpaces(s), |s| - TrailingSpaces(s[LeadingSpaces(s)..]));
  }

  /** Trimming a space-free word padded with white space on both sides gives the word back. */
  lemma TrimPadded(left: string, w: string, right: string)
    requires w != [] && NoSpace(w)
    requires forall i :: 0 <= i < |left| ==> IsSpace(left[i])
    requires forall i :: 0 <= i < |right| ==> IsSpace(right[i])
    ensures TrimSpace(left + w + right) == w
  {
    var s := left + w + right;
    LeadingSpacesIs(s, |left|);
    var t := s[|left|..];
    assert t == w + right;
    TrailingSpacesIs(t, |right|);
    assert t[..|t| - |right|] == w;
  }

  /** Length of the run of non-space characters at the front of `s`. */
  function WordLength(s: string): (n: nat)
    ensures n <= |s|
    ensures NoSpace(s[..n])
    ensures n < |s| ==> IsSpace(s[n])
  {
    if s != [] && !IsSpace(s[0]) then 1 + WordLength(s[1..]) else 0
  }

  /** `strings.Fields`: the maximal runs of non-space characters, in order. */
  function Fields(s: string): (r: seq<string>)
    decreases |s|
    ensures forall k :: 0 <= k < |r| ==> r[k] != [] && NoSpace(r[k])
  {
    var t := s[LeadingSpaces(s)..];
    if t == [] then []
    else
      var k := WordLength(t);
      [t[..k]] + Fields(t[k..])
  }

  lemma LeadingSpacesAppend(sp: string, s: string)
    requires forall i :: 0 <= i < |sp| ==> IsSpace(sp[i])
    ensures LeadingSpaces(sp + s) == |sp| + LeadingSpaces(s)
    ensures (sp + s)[LeadingSpaces(sp + s)..] == s[LeadingSpaces(s)..]
  {
    var m := LeadingSpaces(s);
    var n := |sp| + m;
    var u := sp + s;
    forall i | 0 <= i < n
      ensures IsSpace(u[i])
    {
      if i >= |sp| {
        assert u[i] == s[i - |sp|];
      }
    }
    if n < |u| {
      assert u[n] == s[m];
    }
    LeadingSpacesIs(u, n);
    assert u[n..] == s[m..];
  }

  /** Leading white space does not change the fields. */
  lemma FieldsSkipSpace(sp: string, s: string)
    requires forall i :: 0 <= i < |sp| ==> IsSpace(sp[i])
    ensures Fields(sp + s) == Fields(s)
  {
    LeadingSpacesAppend(sp, s);
  }

  lemma {:induction false} WordLengthAppend(w: string, rest: string)
    requires NoSpace(w)
    requires rest == [] || IsSpace(rest[0])
    ensures WordLength(w + rest) == |w|
  {
    if w == [] {
      assert w + rest == rest;
    } else {
      assert (w + rest)[0] == w[0];
      assert (w + rest)[1..] == w[1..] + rest;
      WordLengthAppend(w[1..], rest);
    }
  }

  /**
   * A word without white space followed by nothing or by white space is the
   * first field, and the fields of what follows come after it.
   */
  lemma FieldsWordThenRest(w: string, rest: string)
    requires w != [] && NoSpace(w)
    requires rest == [] || IsSpace(rest[0])
    ensures Fields(w + rest) == [w] + Fields(rest)
  {
    var s := w + rest;
    assert s[0] == w[0];
    LeadingSpacesIs(s, 0);
    WordLengthAppend(w, rest);
    assert s[..|w|] == w;
    assert s[|w|..] == rest;
  }
}
