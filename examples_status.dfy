/** The status letters main.py:33-37 checks. */
module StatusExamples {
  import opened Wrappers
  import opened Text
  import opened Patterns
  import opened Scan
  import opened Subtask
  import opened Lines

  /** Only the first flag counts. */
  lemma StatusExample1()
    ensures GetStatusLetter("[s] [z]") == Some("s")
    ensures GetStatusLetter("[s][z]") == Some("s")
  {
    StatusLetterAt("[s] [z]", 0, 0, 1, 2, 4);
    StatusLetterAt("[s][z]", 0, 0, 1, 2, 3);
  }

  /** Neither `dd` nor the empty brackets hold a flag, whatever follows them. */
  lemma NoFlagInPrefix(t: string)
    ensures NoMatchIn(StatusMatch, "dd [] sdff" + t, 0, 10)
  {
    var s := "dd [] sdff" + t;
    PlainNoMatch(StatusPat, s, 0, 2);
    PlainNoMatch(StatusPat, s, 4, 10);
    SpaceEndAt(s, 2, 3);
    SpaceEndAt(s, 4, 4);
    assert MatchAt(StatusPat, s, 2) == None;
    assert MatchAt(StatusPat, s, 3) == None;
  }

  /** Empty brackets are skipped. */
  lemma StatusExample2()
    ensures GetStatusLetter("dd [] sdff [s]  [z]") == Some("s")
  {
    var s := "dd [] sdff" + " [s]  [z]";
    assert s == "dd [] sdff [s]  [z]";
    NoFlagInPrefix(" [s]  [z]");
    StatusLetterAt(s, 10, 11, 12, 13, 16);
  }

  /** A digit is a word character, so `[1]` is the first flag. */
  lemma StatusExample3()
    ensures GetStatusLetter("dd [1] sdff [s]  [z]") == Some("1")
    ensures GetStatusLetter("dd [1] sdff [s]  [z]") != Some("s")
  {
    var s := "dd [1]" + " sdff [s]  [z]";
    assert s == "dd [1] sdff [s]  [z]";
    PlainNoMatch(StatusPat, s, 0, 2);
    StatusLetterAt(s, 2, 3, 4, 5, 7);
  }

  /** More than one character in the brackets is no flag. */
  lemma StatusExample4()
    ensures GetStatusLetter("[abc]") == None
  {
    var s := "[abc]";
    SpaceEndAt(s, 0, 0);
    SpaceEndAt(s, 1, 1);
    SpaceEndAt(s, 2, 2);
    assert MatchAt(StatusPat, s, 0) == None;
    PlainNoMatch(StatusPat, s, 1, 5);
    MatchersAdvance();
    SkipNoMatch(StatusMatch, s, 0, 5, " ");
  }
}
