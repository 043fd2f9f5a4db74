/**
 * The character classes the two patterns use and Python's `str.strip()`.
 * The source is Python 2 code working on byte strings, so `\s` and `strip`
 * mean the six ASCII whitespace characters, `\w` means `[A-Za-z0-9_]` and
 * `\d` means `[0-9]`.
 */
module Text {

  /** `\s`: space, tab, newline, carriage return, form feed, vertical tab. */
  predicate IsSpace(c: char)
  {
    c == ' ' || c == '\t' || c == '\n' || c == '\r' || c == '\U{000C}' || c == '\U{000B}'
  }

  /** `\d` */
  predicate IsDigit(c: char)
  {
    '0' <= c <= '9'
  }

  /** `\w` */
  predicate IsWordChar(c: char)
  {
    'a' <= c <= 'z' || 'A' <= c <= 'Z' || IsDigit(c) || c == '_'
  }

  predicate AllSpace(s: string)
  {
    forall k :: 0 <= k < |s| ==> IsSpace(s[k])
  }

  /** No character of `s` from `lo` up to, not including, `hi` is anything but whitespace. */
  predicate SpaceBetween(s: string, lo: nat, hi: nat)
    requires lo <= hi <= |s|
  {
    forall k :: lo <= k < hi ==> IsSpace(s[k])
  }

  /**
   * Where the run of whitespace starting at `i` ends: what a greedy `\s*`
   * at position `i` consumes.
   */
  function SpaceEnd(s: string, i: nat): (j: nat)
    requires i <= |s|
    ensures i <= j <= |s|
    ensures j < |s| ==> !IsSpace(s[j])
    decreases |s| - i
  {
    if i < |s| && IsSpace(s[i]) then SpaceEnd(s, i + 1) else i
  }

  /** What `SpaceEnd` skips is whitespace. */
  lemma {:induction false} SpaceEndIsSpace(s: string, i: nat)
    requires i <= |s|
    ensures SpaceBetween(s, i, SpaceEnd(s, i))
    decreases |s| - i
  {
    if i < |s| && IsSpace(s[i]) {
      SpaceEndIsSpace(s, i + 1);
    }
  }

  /** A run of whitespace followed by the end or by anything else is exactly what `SpaceEnd` skips. */
  lemma {:induction false} SpaceEndAt(s: string, i: nat, j: nat)
    requires i <= j <= |s| && SpaceBetween(s, i, j)
    requires j == |s| || !IsSpace(s[j])
    ensures SpaceEnd(s, i) == j
    decreases j - i
  {
    if i < j {
      SpaceEndAt(s, i + 1, j);
    }
  }

  /** A greedy `\s*` stops at the first character that is not whitespace. */
  lemma {:induction false} SpaceEndBefore(s: string, i: nat, h: nat)
    requires i <= h < |s| && !IsSpace(s[h])
    ensures SpaceEnd(s, i) <= h
    decreases h - i
  {
    if i < h && IsSpace(s[i]) {
      SpaceEndBefore(s, i + 1, h);
    }
  }

  /**
   * Where the run of whitespace ending at `j` starts: what stripping the
   * right end of `s[..j]` leaves of it.
   */
  function SpaceStart(s: string, j: nat): (i: nat)
    requires j <= |s|
    ensures i <= j
    ensures i > 0 ==> !IsSpace(s[i - 1])
  {
    if j > 0 && IsSpace(s[j - 1]) then SpaceStart(s, j - 1) else j
  }

  /** What `SpaceStart` skips is whitespace. */
  lemma {:induction false} SpaceStartIsSpace(s: string, j: nat)
    requires j <= |s|
    ensures SpaceBetween(s, SpaceStart(s, j), j)
  {
    if j > 0 && IsSpace(s[j - 1]) {
      SpaceStartIsSpace(s, j - 1);
    }
  }

  /** A run of whitespace preceded by the start or by anything else is exactly what `SpaceStart` skips. */
  lemma {:induction false} SpaceStartAt(s: string, i: nat, j: nat)
    requires i <= j <= |s| && SpaceBetween(s, i, j)
    requires i == 0 || !IsSpace(s[i - 1])
    ensures SpaceStart(s, j) == i
    decreases j - i
  {
    if i < j {
      SpaceStartAt(s, i, j - 1);
    }
  }

  /** `s.strip()`: drop the whitespace at the start, then the whitespace at the end. */
  function Strip(s: string): (r: string)
    ensures r != [] ==> !IsSpace(r[0]) && !IsSpace(r[|r| - 1])
  {
    var t := s[SpaceEnd(s, 0)..];
    t[..SpaceStart(t, |t|)]
  }

  /**
   * `strip` keeps exactly the text between an all-whitespace prefix and an
   * all-whitespace suffix that neither starts nor ends with whitespace:
   * whatever such a split of `s` is given, `strip` returns its middle.
   */
  lemma StripUnique(s: string, a: nat, b: nat)
    requires a <= b <= |s| && SpaceBetween(s, 0, a) && SpaceBetween(s, b, |s|)
    requires a < b ==> !IsSpace(s[a]) && !IsSpace(s[b - 1])
    ensures Strip(s) == s[a..b]
  {
    if a < b {
      SpaceEndAt(s, 0, a);
      var t := s[a..];
      assert SpaceBetween(t, b - a, |t|);
      SpaceStartAt(t, b - a, |t|);
    } else {
      SpaceEndAt(s, 0, |s|);
    }
  }

  /** Conversely, what `strip` returns is such a middle part of `s`, starting at `a`. */
  lemma StripIsInfix(s: string) returns (a: nat)
    ensures a + |Strip(s)| <= |s| && Strip(s) == s[a..a + |Strip(s)|]
    ensures SpaceBetween(s, 0, a) && SpaceBetween(s, a + |Strip(s)|, |s|)
  {
    a := SpaceEnd(s, 0);
    SpaceEndIsSpace(s, 0);
    var t := s[a..];
    SpaceStartIsSpace(t, |t|);
    assert forall k :: a + |Strip(s)| <= k < |s| ==> s[k] == t[k - a];
  }

  /** Whitespace in a piece of `s` is whitespace in `s`. */
  lemma SpaceInPiece(s: string, n: nat, t: string, lo: nat, hi: nat)
    requires n + |t| <= |s| && s[n..n + |t|] == t
    requires lo <= hi <= |t| && SpaceBetween(t, lo, hi)
    ensures SpaceBetween(s, n + lo, n + hi)
  {
    forall k | n + lo <= k < n + hi
      ensures IsSpace(s[k])
    {
      assert s[k] == s[n..n + |t|][k - n];
    }
  }

  /** A split of `t` into whitespace, middle and whitespace, seen inside `w1 + t + w2`. */
  lemma PaddedPieces(w1: string, t: string, w2: string, a: nat, b: nat)
    requires AllSpace(w1) && AllSpace(w2)
    requires a <= b <= |t| && SpaceBetween(t, 0, a) && SpaceBetween(t, b, |t|)
    ensures var s := w1 + t + w2;
      && SpaceBetween(s, 0, |w1| + a) && SpaceBetween(s, |w1| + b, |s|)
      && s[|w1| + a..|w1| + b] == t[a..b]
      && forall k :: a <= k < b ==> s[|w1| + k] == t[k]
  {
    var s := w1 + t + w2;
    var n, m := |w1|, |w1| + |t|;
    assert s[n..m] == t;
    assert forall k :: 0 <= k < n ==> s[k] == w1[k];
    assert forall k :: m <= k < |s| ==> s[k] == w2[k - m];
    SpaceInPiece(s, n, t, 0, a);
    SpaceInPiece(s, n, t, b, |t|);
  }

  /** Whitespace around `t` leaves the middle `strip` finds in `t` the middle of the whole. */
  lemma StripPaddedAt(w1: string, t: string, w2: string, a: nat, b: nat)
    requires AllSpace(w1) && AllSpace(w2)
    requires a <= b <= |t| && SpaceBetween(t, 0, a) && SpaceBetween(t, b, |t|)
    requires a < b ==> !IsSpace(t[a]) && !IsSpace(t[b - 1])
    ensures Strip(w1 + t + w2) == t[a..b]
  {
    PaddedPieces(w1, t, w2, a, b);
    StripUnique(w1 + t + w2, |w1| + a, |w1| + b);
  }

  /** Stripping does not depend on how much whitespace surrounds the text. */
  lemma StripPadded(w1: string, t: string, w2: string)
    requires AllSpace(w1) && AllSpace(w2)
    ensures Strip(w1 + t + w2) == Strip(t)
  {
    var a := StripIsInfix(t);
    var b := a + |Strip(t)|;
    if a < b {
      assert t[a] == Strip(t)[0];
      assert t[b - 1] == Strip(t)[b - 1 - a];
    }
    StripPaddedAt(w1, t, w2, a, b);
  }

  /** Text that neither starts nor ends with whitespace is left as it is. */
  lemma StripUnpadded(t: string)
    requires t == [] || (!IsSpace(t[0]) && !IsSpace(t[|t| - 1]))
    ensures Strip(t) == t
  {
    StripUnique(t, 0, |t|);
  }
}
