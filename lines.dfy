/**
 * Subtask lines made of stretches of text in which a pattern cannot
 * start, and timestamps or status flags set off by whitespace. For such
 * lines the scans are worked out once and for all: which groups `findall`
 * returns and what `sub` leaves.
 */
module Lines {
  import opened Wrappers
  import opened Text
  import opened Patterns
  import opened Scan
  import opened Subtask

  /** No match of `p` can start its group anywhere from `lo` up to, not including, `hi`. */
  predicate NoStartIn(p: Pattern, s: string, lo: nat, hi: nat)
    requires lo <= hi <= |s|
  {
    forall j :: lo <= j < hi ==> CannotStart(p, s, j)
  }

  /**
   * A stretch where no match can start that either ends the line or stops
   * before a character that is not whitespace.
   */
  predicate Stretch(p: Pattern, s: string, lo: nat, hi: nat)
  {
    lo <= hi <= |s| && NoStartIn(p, s, lo, hi) && (lo < hi < |s| ==> !IsSpace(s[hi - 1]))
  }

  /** The timestamp `t` at `a`, set off by whitespace from `i` to `e`: what DATETIME_PAT takes at `i`. */
  predicate StampToken(s: string, i: nat, a: nat, t: string, e: nat)
  {
    IsStampGroup(t) && a + |t| <= |s| && s[a..a + |t|] == t && DateTimeShape(s, i, a, |t|, e)
  }

  /** The scans of DATETIME_PAT take a timestamp token whole and go on after it. */
  lemma TakeStamp(s: string, i: nat, a: nat, t: string, e: nat)
    requires StampToken(s, i, a, t, e)
    ensures Advances(DateTimeMatch) && i < e
    ensures FindAllFrom(DateTimeMatch, s, i) == [t] + FindAllFrom(DateTimeMatch, s, e)
    ensures SubFrom(DateTimeMatch, s, i, " ") == " " + SubFrom(DateTimeMatch, s, e, " ")
  {
    MatchersAdvance();
    StampAtGroup(s, a, |t|);
    DateTimeAtComplete(s, i, a, |t|, e);
    FindAllTake(DateTimeMatch, s, i, Match(e, t));
    SubTake(DateTimeMatch, s, i, " ", Match(e, t));
  }

  /** The scans of STATUS_PAT take a flag whole and go on after it. */
  lemma TakeFlag(s: string, i: nat, a: nat, b: nat, d: nat, e: nat)
    requires StatusShape(s, i, a, b, d, e)
    ensures Advances(StatusMatch)
    ensures FindAllFrom(StatusMatch, s, i) == [[s[b]]] + FindAllFrom(StatusMatch, s, e)
    ensures SubFrom(StatusMatch, s, i, " ") == " " + SubFrom(StatusMatch, s, e, " ")
  {
    MatchersAdvance();
    StatusAtComplete(s, i, a, b, d, e);
    FindAllTake(StatusMatch, s, i, Match(e, [s[b]]));
    SubTake(StatusMatch, s, i, " ", Match(e, [s[b]]));
  }

  /**
   * A stretch where no timestamp can start, then a timestamp token: the
   * scans from the start of the stretch find that timestamp first, and
   * `sub` keeps the stretch and puts one space for the timestamp.
   */
  lemma StretchThenStamp(s: string, lo: nat, i: nat, a: nat, t: string, e: nat)
    requires Stretch(DateTimePat, s, lo, i) && StampToken(s, i, a, t, e)
    ensures Advances(DateTimeMatch) && lo <= i < e
    ensures FindAllFrom(DateTimeMatch, s, lo) == [t] + FindAllFrom(DateTimeMatch, s, e)
    ensures SubFrom(DateTimeMatch, s, lo, " ") == s[lo..i] + (" " + SubFrom(DateTimeMatch, s, e, " "))
  {
    PlainSegment(DateTimePat, s, lo, i, " ");
    assert MatcherOf(DateTimePat) == DateTimeMatch;
    TakeStamp(s, i, a, t, e);
  }

  /** A stretch where no timestamp can start runs to the end of the line: the scans find nothing more. */
  lemma StretchToEnd(p: Pattern, s: string, lo: nat)
    requires Stretch(p, s, lo, |s|)
    ensures FindAllFrom(MatcherOf(p), s, lo) == []
    ensures SubFrom(MatcherOf(p), s, lo, " ") == s[lo..]
  {
    PlainSegment(p, s, lo, |s|, " ");
    assert SubFrom(MatcherOf(p), s, |s|, " ") == [];
  }

  /**
   * From `lo` on, one timestamp token between stretches where none can
   * start: the scans find that timestamp alone, and `sub` joins the text
   * on either side with one space.
   */
  lemma LastStamp(s: string, lo: nat, i: nat, a: nat, t: string, e: nat)
    requires Stretch(DateTimePat, s, lo, i) && StampToken(s, i, a, t, e) && Stretch(DateTimePat, s, e, |s|)
    ensures FindAllFrom(DateTimeMatch, s, lo) == [t]
    ensures SubFrom(DateTimeMatch, s, lo, " ") == s[lo..i] + (" " + s[e..])
  {
    StretchThenStamp(s, lo, i, a, t, e);
    StretchToEnd(DateTimePat, s, e);
    assert MatcherOf(DateTimePat) == DateTimeMatch;
  }

  /**
   * A line with one timestamp token, the rest of it stretches where none
   * can start: `findall` finds that timestamp alone, and `sub` joins the
   * text on either side with one space.
   */
  lemma OneStampLine(s: string, i: nat, a: nat, t: string, e: nat)
    requires Stretch(DateTimePat, s, 0, i) && StampToken(s, i, a, t, e) && Stretch(DateTimePat, s, e, |s|)
    ensures Stamps(s) == [t]
    ensures Unstamped(s) == s[..i] + (" " + s[e..])
  {
    LastStamp(s, 0, i, a, t, e);
  }

  /**
   * A line with two timestamp tokens, the text before, between and after
   * them stretches where none can start: `findall` finds both in order,
   * and `sub` leaves the three stretches, one space where each timestamp
   * was.
   */
  lemma TwoStampLine(s: string, i1: nat, a1: nat, t1: string, e1: nat, i2: nat, a2: nat, t2: string, e2: nat)
    requires Stretch(DateTimePat, s, 0, i1) && StampToken(s, i1, a1, t1, e1)
    requires Stretch(DateTimePat, s, e1, i2) && StampToken(s, i2, a2, t2, e2)
    requires Stretch(DateTimePat, s, e2, |s|)
    ensures Stamps(s) == [t1, t2]
    ensures Unstamped(s) == s[..i1] + (" " + (s[e1..i2] + (" " + s[e2..])))
  {
    StretchThenStamp(s, 0, i1, a1, t1, e1);
    LastStamp(s, e1, i2, a2, t2, e2);
  }

  /**
   * A line with one status flag, the rest of it stretches where none can
   * start: `findall` finds its letter alone, and `sub` joins the text on
   * either side with one space.
   */
  lemma OneFlagLine(s: string, i: nat, a: nat, b: nat, d: nat, e: nat)
    requires Stretch(StatusPat, s, 0, i) && StatusShape(s, i, a, b, d, e) && Stretch(StatusPat, s, e, |s|)
    ensures Flags(s) == [[s[b]]]
    ensures Unflagged(s) == s[..i] + (" " + s[e..])
  {
    PlainSegment(StatusPat, s, 0, i, " ");
    TakeFlag(s, i, a, b, d, e);
    StretchToEnd(StatusPat, s, e);
  }

  /** Where no flag starts before `i` and one starts at `i`, its letter is the status. */
  lemma StatusLetterAt(s: string, i: nat, a: nat, b: nat, d: nat, e: nat)
    requires NoMatchIn(StatusMatch, s, 0, i) && StatusShape(s, i, a, b, d, e)
    ensures GetStatusLetter(s) == Some([s[b]])
  {
    MatchersAdvance();
    SkipNoMatch(StatusMatch, s, 0, i, " ");
    TakeFlag(s, i, a, b, d, e);
  }
}
