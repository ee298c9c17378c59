/** Python's `str.strip()` without arguments, which the request models apply
    to every free-text field before checking its length. */
module Text {

  /** The characters for which Python's `str.isspace()` holds: the ASCII
      controls TAB..CR and FS..US, SPACE, NEL, NO-BREAK SPACE, and the Unicode
      space separators, line and paragraph separators. */
  predicate IsSpace(c: char) {
    || c == ' '
    || ('\t' <= c <= '\r')
    || ('\U{1C}' <= c <= '\U{1F}')
    || c == '\U{85}'
    || c == '\U{A0}'
    || c == '\U{1680}'
    || ('\U{2000}' <= c <= '\U{200A}')
    || c == '\U{2028}'
    || c == '\U{2029}'
    || c == '\U{202F}'
    || c == '\U{205F}'
    || c == '\U{3000}'
  }

  predicate AllSpace(s: string) {
    forall i :: 0 <= i < |s| ==> IsSpace(s[i])
  }

  /** Every character of `s` at a position in `lo..hi` is whitespace. */
  predicate SpaceBetween(s: string, lo: int, hi: int)
    requires 0 <= lo <= hi <= |s|
  {
    forall k :: lo <= k < hi ==> IsSpace(s[k])
  }

  /** Cutting `s` at `i` and `j` removes exactly its leading and trailing
      whitespace: everything outside `i..j` is whitespace, and the part kept
      neither starts nor ends with it. */
  predicate IsCut(s: string, i: int, j: int) {
    && 0 <= i <= j <= |s|
    && SpaceBetween(s, 0, i)
    && SpaceBetween(s, j, |s|)
    && (i == j || (!IsSpace(s[i]) && !IsSpace(s[j - 1])))
  }

  /** `r` is what remains of `s` once all leading and trailing whitespace is
      cut away. */
  ghost predicate StripsTo(s: string, r: string) {
    exists i, j :: IsCut(s, i, j) && r == s[i..j]
  }

  /** The first position at or after `i` that does not hold whitespace
      (`|s|` when there is none). */
  function TextStart(s: string, i: nat): (j: nat)
    requires i <= |s|
    ensures i <= j <= |s| && SpaceBetween(s, i, j)
    ensures j == |s| || !IsSpace(s[j])
    decreases |s| - i
  {
    if i < |s| && IsSpace(s[i]) then TextStart(s, i + 1) else i
  }

  /** Moving down from `j`, the first end position whose preceding character
      is not whitespace, or `lo` when `lo..j` is all whitespace. */
  function TextEnd(s: string, lo: nat, j: nat): (e: nat)
    requires lo <= j <= |s|
    ensures lo <= e <= j && SpaceBetween(s, e, j)
    ensures e == lo || !IsSpace(s[e - 1])
    decreases j
  {
    if j > lo && IsSpace(s[j - 1]) then TextEnd(s, lo, j - 1) else j
  }

  /** `str.strip()`: scans past the leading whitespace, then back over the
      trailing whitespace, and keeps what lies between. */
  function Strip(s: string): (r: string)
    ensures StripsTo(s, r)
  {
    var i := TextStart(s, 0);
    var j := TextEnd(s, i, |s|);
    assert IsCut(s, i, j);
    s[i..j]
  }

  /** There is only one way to cut a string: whatever cut satisfies `IsCut`
      keeps the same characters, so `Strip` is the one stripped form. */
  lemma CutUnique(s: string, i1: int, j1: int, i2: int, j2: int)
    requires IsCut(s, i1, j1) && IsCut(s, i2, j2)
    ensures s[i1..j1] == s[i2..j2]
  {
  }

  lemma StripsToUnique(s: string, r1: string, r2: string)
    requires StripsTo(s, r1) && StripsTo(s, r2)
    ensures r1 == r2
  {
    var i1, j1 :| IsCut(s, i1, j1) && r1 == s[i1..j1];
    var i2, j2 :| IsCut(s, i2, j2) && r2 == s[i2..j2];
    CutUnique(s, i1, j1, i2, j2);
  }

  /** Stripping twice changes nothing more than stripping once. */
  lemma StripIdempotent(s: string)
    ensures Strip(Strip(s)) == Strip(s)
  {
    var r := Strip(s);
    var i, j :| IsCut(s, i, j) && r == s[i..j];
    assert IsCut(r, 0, |r|) && r[0..|r|] == r;
    StripsToUnique(r, Strip(r), r);
  }

  /** A cut of `s` is still a cut once whitespace is added on both sides,
      shifted by the length of the leading padding. */
  lemma CutOfPadded(before: string, s: string, after: string, i: int, j: int)
    requires AllSpace(before) && AllSpace(after) && IsCut(s, i, j)
    ensures IsCut(before + s + after, |before| + i, |before| + j)
    ensures (before + s + after)[|before| + i..|before| + j] == s[i..j]
  {
    var padded := before + s + after;
    var b := |before|;
    forall k | 0 <= k < b + i
      ensures IsSpace(padded[k])
    {
      if k < b {
        assert padded[k] == before[k];
      } else {
        assert padded[k] == s[k - b];
      }
    }
    forall k | b + j <= k < |padded|
      ensures IsSpace(padded[k])
    {
      if k < b + |s| {
        assert padded[k] == s[k - b];
      } else {
        assert padded[k] == after[k - b - |s|];
      }
    }
    if i < j {
      assert padded[b + i] == s[i] && padded[b + j - 1] == s[j - 1];
    }
    assert padded[b..b + |s|] == s;
    assert padded[b + i..b + j] == padded[b..b + |s|][i..j];
  }

  /** Whitespace added around a string is removed again by `Strip`: padding
      never changes the stripped value. */
  lemma StripIgnoresPadding(before: string, s: string, after: string)
    requires AllSpace(before) && AllSpace(after)
    ensures Strip(before + s + after) == Strip(s)
  {
    var padded := before + s + after;
    var r := Strip(s);
    var i, j :| IsCut(s, i, j) && r == s[i..j];
    CutOfPadded(before, s, after, i, j);
    StripsToUnique(padded, Strip(padded), r);
  }
}
