/**
 * The two compiled patterns of main.py, as hand-written matchers:
 *
 *   STATUS_PAT   = \s*\[\s*(\w)\s*\]\s*                                  (main.py:21)
 *   DATETIME_PAT = \s*([012]?\d:\d\d [0123]\d\.[01]\d\.\d\d\d\d)\s*     (main.py:24)
 *
 * `MatchAt(p, s, i)` is `p.match(s, i)`: the match the regular-expression
 * engine finds when it tries `p` at position `i` of `s`, given as the
 * position just past it and its group 1. Neither pattern has an anchor or a
 * look-behind, so nothing before `i` matters.
 */
module Patterns {
  import opened Wrappers
  import opened Text
  import Timestamp

  datatype Pattern = StatusPat | DateTimePat

  /** A successful match: where it ends and what group 1 captured. */
  datatype Match = Match(end: nat, group: string)

  /**
   * STATUS_PAT at position `i`. Every `\s*` in it is followed by `\[`, `\w`
   * or `\]`, none of which matches whitespace, so backtracking into a `\s*`
   * never helps: each one takes the whole run of whitespace.
   */
  function StatusAt(s: string, i: nat): (r: Option<Match>)
    requires i <= |s|
    ensures r.Some? ==> i < r.value.end <= |s|
  {
    var a := SpaceEnd(s, i);
    if a < |s| && s[a] == '[' then
      var b := SpaceEnd(s, a + 1);
      if b < |s| && IsWordChar(s[b]) then
        var d := SpaceEnd(s, b + 1);
        if d < |s| && s[d] == ']' then Some(Match(SpaceEnd(s, d + 1), [s[b]]))
        else None
      else None
    else None
  }

  /** `:\d\d [0123]\d\.[01]\d\.\d\d\d\d`, the part of a timestamp after the hour, read from `j` on. */
  predicate TailAt(s: string, j: nat)
  {
    && j + 14 <= |s|
    && s[j] == ':' && IsDigit(s[j + 1]) && IsDigit(s[j + 2]) && s[j + 3] == ' '
    && '0' <= s[j + 4] <= '3' && IsDigit(s[j + 5]) && s[j + 6] == '.'
    && '0' <= s[j + 7] <= '1' && IsDigit(s[j + 8]) && s[j + 9] == '.'
    && IsDigit(s[j + 10]) && IsDigit(s[j + 11]) && IsDigit(s[j + 12]) && IsDigit(s[j + 13])
  }

  /**
   * `[012]?\d:\d\d [0123]\d\.[01]\d\.\d\d\d\d` read from `a` on, `n`
   * characters long: 16 with a two-digit hour, 15 with a one-digit hour.
   */
  predicate StampAt(s: string, a: nat, n: nat)
  {
    || (n == 16 && a + 1 < |s| && '0' <= s[a] <= '2' && IsDigit(s[a + 1]) && TailAt(s, a + 2))
    || (n == 15 && a < |s| && IsDigit(s[a]) && TailAt(s, a + 1))
  }

  /** The strings group 1 of DATETIME_PAT captures. */
  predicate IsStampGroup(g: string)
  {
    StampAt(g, 0, |g|)
  }

  /** A timestamp read in place is a timestamp once cut out, and back. */
  lemma StampAtGroup(s: string, a: nat, n: nat)
    requires a + n <= |s|
    ensures StampAt(s, a, n) <==> IsStampGroup(s[a..a + n])
  {
    var g := s[a..a + n];
    assert forall k :: 0 <= k < n ==> g[k] == s[a + k];
  }

  /**
   * DATETIME_PAT at position `i`. After the whitespace the engine first lets
   * `[012]?` take a character, giving a two-digit hour, and if the rest of
   * the group then fails it retries with a one-digit hour.
   */
  function DateTimeAt(s: string, i: nat): (r: Option<Match>)
    requires i <= |s|
    ensures r.Some? ==> i < r.value.end <= |s|
  {
    var a := SpaceEnd(s, i);
    if StampAt(s, a, 16) then Some(Match(SpaceEnd(s, a + 16), s[a..a + 16]))
    else if StampAt(s, a, 15) then Some(Match(SpaceEnd(s, a + 15), s[a..a + 15]))
    else None
  }

  /**
   * `p.match(s, i)`. A start past the end is moved back to the end, where
   * neither pattern matches.
   */
  function MatchAt(p: Pattern, s: string, i: nat): (r: Option<Match>)
    ensures r.Some? ==> i < r.value.end <= |s|
  {
    if i > |s| then None
    else match p
      case StatusPat => StatusAt(s, i)
      case DateTimePat => DateTimeAt(s, i)
  }

  /** What group 1 of `p` can capture: one word character, or a timestamp. */
  predicate IsGroup(p: Pattern, g: string)
  {
    match p
    case StatusPat => |g| == 1 && IsWordChar(g[0])
    case DateTimePat => IsStampGroup(g)
  }

  /**
   * Group 1 of every match is a string the group can capture, and a match
   * spans at least `[c]`, or at least a timestamp with a one-digit hour.
   */
  lemma MatchIsGroup(p: Pattern, s: string, i: nat)
    requires MatchAt(p, s, i).Some?
    ensures IsGroup(p, MatchAt(p, s, i).value.group)
    ensures p == StatusPat ==> i + 3 <= MatchAt(p, s, i).value.end
    ensures p == DateTimePat ==> i + 15 <= MatchAt(p, s, i).value.end
  {
    if p == DateTimePat {
      var a := SpaceEnd(s, i);
      var n := if StampAt(s, a, 16) then 16 else 15;
      StampAtGroup(s, a, n);
    }
  }

  /**
   * `s` from `i` up to `e` reads: whitespace, `[` at `a`, whitespace, a word
   * character at `b`, whitespace, `]` at `d`, whitespace; and no whitespace
   * follows at `e`.
   */
  predicate StatusShape(s: string, i: nat, a: nat, b: nat, d: nat, e: nat)
  {
    && i <= a < b < d < e <= |s|
    && SpaceBetween(s, i, a) && s[a] == '['
    && SpaceBetween(s, a + 1, b) && IsWordChar(s[b])
    && SpaceBetween(s, b + 1, d) && s[d] == ']'
    && SpaceBetween(s, d + 1, e) && (e == |s| || !IsSpace(s[e]))
  }

  /** Every STATUS_PAT match has that shape, and captures the word character at `b`. */
  lemma StatusAtSound(s: string, i: nat) returns (a: nat, b: nat, d: nat)
    requires i <= |s| && StatusAt(s, i).Some?
    ensures StatusShape(s, i, a, b, d, StatusAt(s, i).value.end)
    ensures StatusAt(s, i).value.group == [s[b]]
  {
    a := SpaceEnd(s, i);
    b := SpaceEnd(s, a + 1);
    d := SpaceEnd(s, b + 1);
    SpaceEndIsSpace(s, i);
    SpaceEndIsSpace(s, a + 1);
    SpaceEndIsSpace(s, b + 1);
    SpaceEndIsSpace(s, d + 1);
  }

  /** Conversely, wherever a string has that shape, STATUS_PAT matches it, all of it. */
  lemma StatusAtComplete(s: string, i: nat, a: nat, b: nat, d: nat, e: nat)
    requires StatusShape(s, i, a, b, d, e)
    ensures StatusAt(s, i) == Some(Match(e, [s[b]]))
  {
    SpaceEndAt(s, i, a);
    SpaceEndAt(s, a + 1, b);
    SpaceEndAt(s, b + 1, d);
    SpaceEndAt(s, d + 1, e);
  }

  /**
   * `s` from `i` up to `e` reads: whitespace, a timestamp of `n` characters
   * at `a`, whitespace; and no whitespace follows at `e`.
   */
  predicate DateTimeShape(s: string, i: nat, a: nat, n: nat, e: nat)
  {
    && i <= a && a + n <= e <= |s|
    && SpaceBetween(s, i, a) && StampAt(s, a, n)
    && SpaceBetween(s, a + n, e) && (e == |s| || !IsSpace(s[e]))
  }

  /** Every DATETIME_PAT match has that shape, and captures the timestamp at `a`. */
  lemma DateTimeAtSound(s: string, i: nat) returns (a: nat)
    requires i <= |s| && DateTimeAt(s, i).Some?
    ensures var k := DateTimeAt(s, i).value;
      a + |k.group| <= |s| && DateTimeShape(s, i, a, |k.group|, k.end) && k.group == s[a..a + |k.group|]
  {
    a := SpaceEnd(s, i);
    SpaceEndIsSpace(s, i);
    SpaceEndIsSpace(s, a + |DateTimeAt(s, i).value.group|);
  }

  /**
   * Conversely, wherever a string has that shape, DATETIME_PAT matches it,
   * all of it: a one-digit hour is followed by `:`, so the two-digit try
   * cannot succeed there first.
   */
  lemma DateTimeAtComplete(s: string, i: nat, a: nat, n: nat, e: nat)
    requires DateTimeShape(s, i, a, n, e)
    ensures DateTimeAt(s, i) == Some(Match(e, s[a..a + n]))
  {
    SpaceEndAt(s, i, a);
    SpaceEndAt(s, a + n, e);
  }

  /** The characters a match can start with once its leading whitespace is skipped. */
  predicate Opens(p: Pattern, c: char)
  {
    match p
    case StatusPat => c == '['
    case DateTimePat => IsDigit(c)
  }

  /**
   * Characters that cannot come second in a match: after `[` only
   * whitespace or a word character, after the first digit of the hour only
   * a digit or `:`.
   */
  predicate Blocks(p: Pattern, c: char)
  {
    match p
    case StatusPat => !IsSpace(c) && !IsWordChar(c)
    case DateTimePat => !IsDigit(c) && c != ':'
  }

  /** No match of `p` can start its group at `j`: wrong first character, nothing after it, or a wrong second one. */
  predicate CannotStart(p: Pattern, s: string, j: nat)
    requires j < |s|
  {
    !Opens(p, s[j]) || j + 1 == |s| || Blocks(p, s[j + 1])
  }

  /** No match starts where the first character after the whitespace cannot start one. */
  lemma BlockedNoMatch(p: Pattern, s: string, i: nat)
    requires i <= |s|
    requires SpaceEnd(s, i) == |s| || CannotStart(p, s, SpaceEnd(s, i))
    ensures MatchAt(p, s, i) == None
  {
    var a := SpaceEnd(s, i);
    if p == StatusPat && a < |s| && s[a] == '[' {
      if a + 1 < |s| && Blocks(p, s[a + 1]) {
        assert SpaceEnd(s, a + 1) == a + 1;
      }
    }
  }

  /**
   * No match starts anywhere in a stretch of text where no character can
   * start one and which either runs to the end of `s` or does not end in
   * whitespace.
   */
  lemma PlainNoMatch(p: Pattern, s: string, lo: nat, hi: nat)
    requires lo <= hi <= |s|
    requires forall j :: lo <= j < hi ==> CannotStart(p, s, j)
    requires lo < hi < |s| ==> !IsSpace(s[hi - 1])
    ensures forall j :: lo <= j < hi ==> MatchAt(p, s, j) == None
  {
    forall j | lo <= j < hi
      ensures MatchAt(p, s, j) == None
    {
      if hi < |s| {
        SpaceEndBefore(s, j, hi - 1);
      }
      BlockedNoMatch(p, s, j);
    }
  }

  /** Every string group 1 of DATETIME_PAT captures is in the layout `ts_to_datetime` reads. */
  lemma StampGroupInLayout(g: string)
    requires IsStampGroup(g)
    ensures Timestamp.InLayout(g)
  {
    assert g[|g| - 14..] == if |g| == 16 then g[2..] else g[1..];
  }

  /** Every timestamp notepad.exe writes is a string group 1 of DATETIME_PAT captures. */
  lemma StampIsCaptured(dt: Timestamp.DateTime)
    requires Timestamp.Valid(dt)
    ensures IsStampGroup(Timestamp.Stamp(dt))
  {
    var s := Timestamp.Stamp(dt);
    var j := |Timestamp.HourText(dt.hour)|;
    assert s[j + 4] == Timestamp.Digit(dt.day / 10);
    assert s[j + 7] == Timestamp.Digit(dt.month / 10);
    assert TailAt(s, j);
  }
}
