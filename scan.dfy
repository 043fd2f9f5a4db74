/**
 * `pattern.findall(s)` and `pattern.sub(repl, s)`. Both scan `s` from the
 * left: where the pattern matches they take the match and resume at its
 * end, elsewhere they step over one character. A compiled pattern enters
 * only through its match function, `pattern.match(s, i)` at each position,
 * and neither pattern of main.py matches the empty string, so the library's
 * rule for empty matches never applies.
 *
 * The scans are written from a start position `pos`, as in
 * `pattern.findall(s, pos)`. `FindAllFrom` and `SubFrom` are the
 * specifications; `FindAllScan` and `SubScan` are the scanning loops, proved
 * to compute them. The lemmas relate the scan to `pattern.search`, the
 * leftmost match, which is how the library documents both.
 */
module Scan {
  import opened Wrappers
  import opened Patterns

  /** A compiled pattern, as `pattern.match(s, i)`. */
  type Matcher = (string, nat) -> Option<Match>

  /** Every match ends after the position it is tried at, and within the string. */
  ghost predicate Advances(m: Matcher)
  {
    forall s: string, i: nat :: m(s, i).Some? ==> i < m(s, i).value.end <= |s|
  }

  /** Group 1 of every non-overlapping match from `pos` on, left to right. */
  function FindAllFrom(m: Matcher, s: string, pos: nat): (r: seq<string>)
    requires Advances(m) && pos <= |s|
    ensures |r| <= |s| - pos
    decreases |s| - pos
  {
    if pos == |s| then []
    else match m(s, pos)
      case Some(k) => [k.group] + FindAllFrom(m, s, k.end)
      case None => FindAllFrom(m, s, pos + 1)
  }

  /** `s[pos..]` with every non-overlapping match replaced by `repl`. */
  function SubFrom(m: Matcher, s: string, pos: nat, repl: string): (r: string)
    requires Advances(m) && pos <= |s|
    decreases |s| - pos
  {
    if pos == |s| then []
    else match m(s, pos)
      case Some(k) => repl + SubFrom(m, s, k.end, repl)
      case None => [s[pos]] + SubFrom(m, s, pos + 1, repl)
  }

  /** `pattern.findall(s)` */
  function FindAll(m: Matcher, s: string): seq<string>
    requires Advances(m)
  {
    FindAllFrom(m, s, 0)
  }

  /** `pattern.sub(repl, s)` */
  function Sub(m: Matcher, s: string, repl: string): string
    requires Advances(m)
  {
    SubFrom(m, s, 0, repl)
  }

  /** The scanning loop of `findall`. */
  method FindAllScan(m: Matcher, s: string) returns (groups: seq<string>)
    requires Advances(m)
    ensures groups == FindAll(m, s)
  {
    groups := [];
    var i := 0;
    while i < |s|
      invariant 0 <= i <= |s|
      invariant groups + FindAllFrom(m, s, i) == FindAll(m, s)
      decreases |s| - i
    {
      var r := m(s, i);
      if r.Some? {
        FindAllTakeStep(m, s, i, r.value, groups);
        groups := groups + [r.value.group];
        i := r.value.end;
      } else {
        FindAllSkip(m, s, i);
        i := i + 1;
      }
    }
  }

  /** The scanning loop of `sub`, building the output as it goes. */
  method SubScan(m: Matcher, s: string, repl: string) returns (out: string)
    requires Advances(m)
    ensures out == Sub(m, s, repl)
  {
    out := [];
    var i := 0;
    SubAccFrom(m, s, 0, repl, []);
    ghost var goal := SubAcc(m, s, 0, repl, []);
    while i < |s|
      invariant 0 <= i <= |s|
      invariant SubAcc(m, s, i, repl, out) == goal
      decreases |s| - i
    {
      var r := m(s, i);
      if r.Some? {
        SubAccTake(m, s, i, repl, out, r.value);
        out := out + repl;
        i := r.value.end;
      } else {
        SubAccSkip(m, s, i, repl, out);
        out := out + [s[i]];
        i := i + 1;
      }
    }
  }

  /** `SubFrom` with the output so far carried along, as the loop builds it. */
  function SubAcc(m: Matcher, s: string, pos: nat, repl: string, acc: string): string
    requires Advances(m) && pos <= |s|
    decreases |s| - pos
  {
    if pos == |s| then acc
    else match m(s, pos)
      case Some(k) => SubAcc(m, s, k.end, repl, acc + repl)
      case None => SubAcc(m, s, pos + 1, repl, acc + [s[pos]])
  }

  lemma SubAccTake(m: Matcher, s: string, pos: nat, repl: string, acc: string, k: Match)
    requires Advances(m) && pos < |s| && m(s, pos) == Some(k)
    ensures SubAcc(m, s, pos, repl, acc) == SubAcc(m, s, k.end, repl, acc + repl)
  {
  }

  lemma SubAccSkip(m: Matcher, s: string, pos: nat, repl: string, acc: string)
    requires Advances(m) && pos < |s| && m(s, pos).None?
    ensures SubAcc(m, s, pos, repl, acc) == SubAcc(m, s, pos + 1, repl, acc + [s[pos]])
  {
  }

  /** Carrying the output along builds what `SubFrom` returns, after it. */
  lemma {:induction false} SubAccFrom(m: Matcher, s: string, pos: nat, repl: string, acc: string)
    requires Advances(m) && pos <= |s|
    ensures SubAcc(m, s, pos, repl, acc) == acc + SubFrom(m, s, pos, repl)
    decreases |s| - pos
  {
    if pos < |s| {
      match m(s, pos)
      case Some(k) =>
        SubAccFrom(m, s, k.end, repl, acc + repl);
        Assoc(acc, repl, SubFrom(m, s, k.end, repl));
      case None =>
        SubAccFrom(m, s, pos + 1, repl, acc + [s[pos]]);
        Assoc(acc, [s[pos]], SubFrom(m, s, pos + 1, repl));
    }
  }

  /** Where a match starts, `findall` takes its group and resumes at its end. */
  lemma FindAllTake(m: Matcher, s: string, pos: nat, k: Match)
    requires Advances(m) && pos < |s| && m(s, pos) == Some(k)
    ensures FindAllFrom(m, s, pos) == [k.group] + FindAllFrom(m, s, k.end)
  {
  }

  /** Where no match starts, the scan steps over one character. */
  lemma FindAllSkip(m: Matcher, s: string, pos: nat)
    requires Advances(m) && pos < |s| && m(s, pos).None?
    ensures FindAllFrom(m, s, pos) == FindAllFrom(m, s, pos + 1)
  {
  }

  lemma FindAllTakeStep(m: Matcher, s: string, i: nat, k: Match, groups: seq<string>)
    requires Advances(m) && i < |s| && m(s, i) == Some(k)
    requires groups + FindAllFrom(m, s, i) == FindAll(m, s)
    ensures (groups + [k.group]) + FindAllFrom(m, s, k.end) == FindAll(m, s)
  {
    FindAllTake(m, s, i, k);
    Assoc(groups, [k.group], FindAllFrom(m, s, k.end));
  }

  /** Where a match starts, `sub` puts `repl` in its place and resumes at its end. */
  lemma SubTake(m: Matcher, s: string, pos: nat, repl: string, k: Match)
    requires Advances(m) && pos < |s| && m(s, pos) == Some(k)
    ensures SubFrom(m, s, pos, repl) == repl + SubFrom(m, s, k.end, repl)
  {
  }

  /** Where no match starts, `sub` keeps the character. */
  lemma SubSkip(m: Matcher, s: string, pos: nat, repl: string)
    requires Advances(m) && pos < |s| && m(s, pos).None?
    ensures SubFrom(m, s, pos, repl) == [s[pos]] + SubFrom(m, s, pos + 1, repl)
  {
  }

  lemma Assoc<T>(a: seq<T>, b: seq<T>, c: seq<T>)
    ensures (a + b) + c == a + (b + c)
  {
  }

  /**
   * `pattern.search(s, pos)`: the first position from `pos` on where a
   * match starts, trying each position from the left.
   */
  function Search(m: Matcher, s: string, pos: nat): Option<nat>
    requires pos <= |s|
    decreases |s| - pos
  {
    if pos == |s| then None
    else if m(s, pos).Some? then Some(pos)
    else Search(m, s, pos + 1)
  }

  /** No match starts in `s` at a position from `lo` up to, not including, `hi`. */
  ghost predicate NoMatchIn(m: Matcher, s: string, lo: nat, hi: nat)
  {
    forall j :: lo <= j < hi ==> m(s, j).None?
  }

  /**
   * `search` finds the leftmost match from `pos` on, and finds nothing
   * exactly when no match starts there.
   */
  lemma {:induction false} SearchLeftmost(m: Matcher, s: string, pos: nat)
    requires pos <= |s|
    ensures Search(m, s, pos).Some? ==>
      var i := Search(m, s, pos).value;
      pos <= i < |s| && m(s, i).Some? && NoMatchIn(m, s, pos, i)
    ensures Search(m, s, pos).None? <==> NoMatchIn(m, s, pos, |s|)
    decreases |s| - pos
  {
    if pos < |s| && m(s, pos).None? {
      SearchLeftmost(m, s, pos + 1);
    }
  }

  /**
   * `findall` takes the leftmost match, then goes on after it: the group of
   * the match `search` finds starts the list and the rest is found after
   * that match.
   */
  lemma {:induction false} FindAllSearch(m: Matcher, s: string, pos: nat, i: nat, k: Match)
    requires Advances(m) && pos <= i < |s|
    requires Search(m, s, pos) == Some(i) && m(s, i) == Some(k)
    ensures FindAllFrom(m, s, pos) == [k.group] + FindAllFrom(m, s, k.end)
    decreases |s| - pos
  {
    if m(s, pos).None? {
      FindAllSearch(m, s, pos + 1, i, k);
    }
  }

  /** Where `search` finds nothing, `findall` finds nothing and `sub` changes nothing. */
  lemma {:induction false} SearchNone(m: Matcher, s: string, pos: nat, repl: string)
    requires Advances(m) && pos <= |s|
    requires Search(m, s, pos) == None
    ensures FindAllFrom(m, s, pos) == []
    ensures SubFrom(m, s, pos, repl) == s[pos..]
    decreases |s| - pos
  {
    if pos < |s| {
      SearchNone(m, s, pos + 1, repl);
      ConsSlice(s, pos, |s|, []);
    }
  }

  /**
   * Likewise `sub` keeps the text before the leftmost match, puts `repl`
   * in its place and goes on after it.
   */
  lemma {:induction false} SubSearch(m: Matcher, s: string, pos: nat, repl: string, i: nat, k: Match)
    requires Advances(m) && pos <= i < |s|
    requires Search(m, s, pos) == Some(i) && m(s, i) == Some(k)
    ensures SubFrom(m, s, pos, repl) == s[pos..i] + (repl + SubFrom(m, s, k.end, repl))
    decreases |s| - pos
  {
    if m(s, pos).None? {
      SubSearch(m, s, pos + 1, repl, i, k);
      ConsSlice(s, pos, i, repl + SubFrom(m, s, k.end, repl));
    } else {
      assert s[pos..pos] == [];
    }
  }

  /** Over a stretch where no match starts, `findall` finds nothing and `sub` copies the text. */
  lemma {:induction false} SkipNoMatch(m: Matcher, s: string, lo: nat, hi: nat, repl: string)
    requires Advances(m) && lo <= hi <= |s| && NoMatchIn(m, s, lo, hi)
    ensures FindAllFrom(m, s, lo) == FindAllFrom(m, s, hi)
    ensures SubFrom(m, s, lo, repl) == s[lo..hi] + SubFrom(m, s, hi, repl)
    decreases hi - lo
  {
    if lo < hi {
      SkipNoMatch(m, s, lo + 1, hi, repl);
      ConsSlice(s, lo, hi, SubFrom(m, s, hi, repl));
    } else {
      assert s[lo..hi] == [];
    }
  }

  /** Every match spans more characters than `n`. */
  ghost predicate LongerThan(m: Matcher, n: nat)
  {
    forall s: string, i: nat :: m(s, i).Some? ==> i + n < m(s, i).value.end
  }

  /**
   * When every match is longer than `repl`, each replacement shortens the
   * text by at least one character per group `findall` finds.
   */
  lemma {:induction false} SubShrinks(m: Matcher, s: string, pos: nat, repl: string)
    requires Advances(m) && LongerThan(m, |repl|) && pos <= |s|
    ensures |SubFrom(m, s, pos, repl)| + |FindAllFrom(m, s, pos)| <= |s| - pos
    decreases |s| - pos
  {
    if pos < |s| {
      match m(s, pos)
      case Some(k) =>
        SubShrinks(m, s, k.end, repl);
      case None =>
        SubShrinks(m, s, pos + 1, repl);
    }
  }

  /**
   * With such a `repl`, `sub` leaves the text as it is exactly when
   * `findall` finds nothing.
   */
  lemma {:induction false} SubUnchanged(m: Matcher, s: string, pos: nat, repl: string)
    requires Advances(m) && LongerThan(m, |repl|) && pos <= |s|
    ensures SubFrom(m, s, pos, repl) == s[pos..] <==> FindAllFrom(m, s, pos) == []
    decreases |s| - pos
  {
    SubShrinks(m, s, pos, repl);
    if pos < |s| && FindAllFrom(m, s, pos) == [] {
      SubUnchanged(m, s, pos + 1, repl);
      assert s[pos..] == [s[pos]] + s[pos + 1..];
    }
  }

  lemma ConsSlice(s: string, lo: nat, hi: nat, tail: string)
    requires lo < hi <= |s|
    ensures [s[lo]] + (s[lo + 1..hi] + tail) == s[lo..hi] + tail
  {
    assert s[lo..hi] == [s[lo]] + s[lo + 1..hi];
  }
}
