/**
 * The records main.py:112-124 checks: the sample record, the three lines
 * it is parsed from, and the line it is not parsed from (main.py:120, where
 * `...` stays in the description). Then a line with an impossible date,
 * on which parsing fails as a whole.
 */
module RecordExamples {
  import opened Wrappers
  import opened Text
  import opened Timestamp
  import opened Patterns
  import opened Scan
  import opened Subtask
  import opened Lines
  import opened TimestampExamples

  /** `subtask_dict_sample` */
  const Sample := Subtask(Some("s"), None, Some(DateTime(2016, 2, 6, 23, 30)), Some(DateTime(2016, 2, 9, 2, 30)), "subtask description 3")

  /** The line main.py:120 checks. */
  const Line120 := "[s]" + " " + T1 + " " + "..." + " " + T3 + " " + "subtask description 3"

  lemma Line120Stretches()
    ensures Stretch(DateTimePat, Line120, 0, 3) && Stretch(DateTimePat, Line120, 21, 24) && Stretch(DateTimePat, Line120, 41, |Line120|)
  {
  }

  lemma Line120Pieces()
    ensures Line120[..3] == "[s]" && Line120[21..24] == "..." && Line120[41..] == "subtask description 3"
  {
  }

  lemma Line120Stamp1()
    ensures StampToken(Line120, 3, 4, T1, 21)
  {
    StampGroups();
    assert Line120[4..20] == T1;
  }

  lemma Line120Stamp2()
    ensures StampToken(Line120, 24, 25, T3, 41)
  {
    StampGroups();
    assert Line120[25..40] == T3;
  }

  /** What is left of Line120 once the timestamps are replaced. */
  const Line120NoStamps := "[s]" + (" " + ("..." + (" " + "subtask description 3")))

  lemma Line120Stamps()
    ensures Stamps(Line120) == [T1, T3]
    ensures Unstamped(Line120) == Line120NoStamps
  {
    Line120Stretches();
    Line120Pieces();
    Line120Stamp1();
    Line120Stamp2();
    TwoStampLine(Line120, 3, 4, T1, 21, 24, 25, T3, 41);
  }

  lemma Line120FlagShape()
    ensures Stretch(StatusPat, Line120NoStamps, 0, 0) && StatusShape(Line120NoStamps, 0, 0, 1, 2, 4) && Stretch(StatusPat, Line120NoStamps, 4, |Line120NoStamps|)
  {
  }

  lemma Line120FlagPieces()
    ensures Line120NoStamps[..0] == "" && Line120NoStamps[4..] == "..." + (" " + "subtask description 3") && Line120NoStamps[1] == 's'
  {
  }

  /** What is left of Line120 once the status flag is replaced as well. */
  const Line120NoFlags := "" + (" " + ("..." + (" " + "subtask description 3")))

  lemma Line120Flags()
    ensures Flags(Line120NoStamps) == ["s"]
    ensures Unflagged(Line120NoStamps) == Line120NoFlags
  {
    Line120FlagShape();
    Line120FlagPieces();
    OneFlagLine(Line120NoStamps, 0, 0, 1, 2, 4);
  }

  lemma Line120Padding()
    ensures SpaceBetween(Line120NoFlags, 0, 1) && SpaceBetween(Line120NoFlags, 26, |Line120NoFlags|)
    ensures !IsSpace(Line120NoFlags[1]) && !IsSpace(Line120NoFlags[25])
  {
  }

  lemma Line120Joined()
    ensures "..." + (" " + "subtask description 3") == "... subtask description 3"
  {
  }

  lemma Line120Middle()
    ensures Line120NoFlags[1..26] == "... subtask description 3"
  {
    Line120Joined();
    assert |Line120NoFlags| == 26 && Line120NoFlags[1..] == "..." + (" " + "subtask description 3");
  }

  lemma Line120Strip()
    ensures Strip(Line120NoFlags) == "... subtask description 3"
  {
    Line120Padding();
    Line120Middle();
    StripUnique(Line120NoFlags, 1, 26);
  }

  lemma Line120Description()
    ensures GetDescription(Line120) == "... subtask description 3"
  {
    Line120Stamps();
    Line120Flags();
    Line120Strip();
  }

  lemma Line120Status()
    ensures GetStatusLetter(Line120) == Some("s")
  {
    assert Line120[1] == 's';
    StatusLetterAt(Line120, 0, 0, 1, 2, 4);
  }

  lemma Line120Dates()
    ensures GetDateTimeList(Line120) == Ok([DateTime(2016, 2, 6, 23, 30), DateTime(2016, 2, 9, 2, 30)])
  {
    Line120Stamps();
    TsT1();
    TsT3();
    MapAllPair(TsToDateTime, T1, T3, DateTime(2016, 2, 6, 23, 30), DateTime(2016, 2, 9, 2, 30));
  }

  lemma Line120Record()
    ensures SubtaskOf(Line120) == Ok(Sample.(desc := "... subtask description 3"))
    ensures SubtaskOf(Line120) != Ok(Sample)
  {
    Line120Status();
    Line120Dates();
    Line120Description();
  }

  /** The line main.py:121 checks. */
  const Line121 := "[s]" + " " + T1 + " " + T3 + " " + "subtask description 3"

  lemma Line121Stretches()
    ensures Stretch(DateTimePat, Line121, 0, 3) && Stretch(DateTimePat, Line121, 21, 21) && Stretch(DateTimePat, Line121, 37, |Line121|)
  {
  }

  lemma Line121Pieces()
    ensures Line121[..3] == "[s]" && Line121[21..21] == "" && Line121[37..] == "subtask description 3"
  {
  }

  lemma Line121Stamp1()
    ensures StampToken(Line121, 3, 4, T1, 21)
  {
    StampGroups();
    assert Line121[4..20] == T1;
  }

  lemma Line121Stamp2()
    ensures StampToken(Line121, 21, 21, T3, 37)
  {
    StampGroups();
    assert Line121[21..36] == T3;
  }

  /** What is left of Line121 once the timestamps are replaced. */
  const Line121NoStamps := "[s]" + (" " + ("" + (" " + "subtask description 3")))

  lemma Line121Stamps()
    ensures Stamps(Line121) == [T1, T3]
    ensures Unstamped(Line121) == Line121NoStamps
  {
    Line121Stretches();
    Line121Pieces();
    Line121Stamp1();
    Line121Stamp2();
    TwoStampLine(Line121, 3, 4, T1, 21, 21, 21, T3, 37);
  }

  lemma Line121FlagShape()
    ensures Stretch(StatusPat, Line121NoStamps, 0, 0) && StatusShape(Line121NoStamps, 0, 0, 1, 2, 5) && Stretch(StatusPat, Line121NoStamps, 5, |Line121NoStamps|)
  {
  }

  lemma Line121FlagPieces()
    ensures Line121NoStamps[..0] == "" && Line121NoStamps[5..] == "subtask description 3" && Line121NoStamps[1] == 's'
  {
  }

  /** What is left of Line121 once the status flag is replaced as well. */
  const Line121NoFlags := "" + (" " + "subtask description 3")

  lemma Line121Flags()
    ensures Flags(Line121NoStamps) == ["s"]
    ensures Unflagged(Line121NoStamps) == Line121NoFlags
  {
    Line121FlagShape();
    Line121FlagPieces();
    OneFlagLine(Line121NoStamps, 0, 0, 1, 2, 5);
  }

  lemma Line121Padding()
    ensures SpaceBetween(Line121NoFlags, 0, 1) && SpaceBetween(Line121NoFlags, 22, |Line121NoFlags|)
    ensures !IsSpace(Line121NoFlags[1]) && !IsSpace(Line121NoFlags[21])
  {
  }

  lemma Line121Middle()
    ensures Line121NoFlags[1..22] == "subtask description 3"
  {
  }

  lemma Line121Strip()
    ensures Strip(Line121NoFlags) == "subtask description 3"
  {
    Line121Padding();
    Line121Middle();
    StripUnique(Line121NoFlags, 1, 22);
  }

  lemma Line121Description()
    ensures GetDescription(Line121) == "subtask description 3"
  {
    Line121Stamps();
    Line121Flags();
    Line121Strip();
  }

  lemma Line121Status()
    ensures GetStatusLetter(Line121) == Some("s")
  {
    assert Line121[1] == 's';
    StatusLetterAt(Line121, 0, 0, 1, 2, 4);
  }

  lemma Line121Dates()
    ensures GetDateTimeList(Line121) == Ok([DateTime(2016, 2, 6, 23, 30), DateTime(2016, 2, 9, 2, 30)])
  {
    Line121Stamps();
    TsT1();
    TsT3();
    MapAllPair(TsToDateTime, T1, T3, DateTime(2016, 2, 6, 23, 30), DateTime(2016, 2, 9, 2, 30));
  }

  lemma Line121Record()
    ensures SubtaskOf(Line121) == Ok(Sample)
  {
    Line121Status();
    Line121Dates();
    Line121Description();
  }

  /** The line main.py:122 checks. */
  const Line122 := "[s] subtask description 3" + " " + T1 + " " + T3

  lemma Line122Stretches()
    ensures Stretch(DateTimePat, Line122, 0, 25) && Stretch(DateTimePat, Line122, 43, 43) && Stretch(DateTimePat, Line122, 58, |Line122|)
  {
  }

  lemma Line122Pieces()
    ensures Line122[..25] == "[s] subtask description 3" && Line122[43..43] == "" && Line122[58..] == ""
  {
  }

  lemma Line122Stamp1()
    ensures StampToken(Line122, 25, 26, T1, 43)
  {
    StampGroups();
    assert Line122[26..42] == T1;
  }

  lemma Line122Stamp2()
    ensures StampToken(Line122, 43, 43, T3, 58)
  {
    StampGroups();
    assert Line122[43..58] == T3;
  }

  /** What is left of Line122 once the timestamps are replaced. */
  const Line122NoStamps := "[s] subtask description 3" + (" " + ("" + (" " + "")))

  lemma Line122Stamps()
    ensures Stamps(Line122) == [T1, T3]
    ensures Unstamped(Line122) == Line122NoStamps
  {
    Line122Stretches();
    Line122Pieces();
    Line122Stamp1();
    Line122Stamp2();
    TwoStampLine(Line122, 25, 26, T1, 43, 43, 43, T3, 58);
  }

  lemma Line122FlagShape()
    ensures Stretch(StatusPat, Line122NoStamps, 0, 0) && StatusShape(Line122NoStamps, 0, 0, 1, 2, 4) && Stretch(StatusPat, Line122NoStamps, 4, |Line122NoStamps|)
  {
  }

  lemma Line122FlagPieces()
    ensures Line122NoStamps[..0] == "" && Line122NoStamps[4..] == "subtask description 3" + (" " + ("" + (" " + ""))) && Line122NoStamps[1] == 's'
  {
  }

  /** What is left of Line122 once the status flag is replaced as well. */
  const Line122NoFlags := "" + (" " + ("subtask description 3" + (" " + ("" + (" " + "")))))

  lemma Line122Flags()
    ensures Flags(Line122NoStamps) == ["s"]
    ensures Unflagged(Line122NoStamps) == Line122NoFlags
  {
    Line122FlagShape();
    Line122FlagPieces();
    OneFlagLine(Line122NoStamps, 0, 0, 1, 2, 4);
  }

  lemma Line122Padding()
    ensures SpaceBetween(Line122NoFlags, 0, 1) && SpaceBetween(Line122NoFlags, 22, |Line122NoFlags|)
    ensures !IsSpace(Line122NoFlags[1]) && !IsSpace(Line122NoFlags[21])
  {
  }

  lemma Line122Middle()
    ensures Line122NoFlags[1..22] == "subtask description 3"
  {
  }

  lemma Line122Strip()
    ensures Strip(Line122NoFlags) == "subtask description 3"
  {
    Line122Padding();
    Line122Middle();
    StripUnique(Line122NoFlags, 1, 22);
  }

  lemma Line122Description()
    ensures GetDescription(Line122) == "subtask description 3"
  {
    Line122Stamps();
    Line122Flags();
    Line122Strip();
  }

  lemma Line122Status()
    ensures GetStatusLetter(Line122) == Some("s")
  {
    assert Line122[1] == 's';
    StatusLetterAt(Line122, 0, 0, 1, 2, 4);
  }

  lemma Line122Dates()
    ensures GetDateTimeList(Line122) == Ok([DateTime(2016, 2, 6, 23, 30), DateTime(2016, 2, 9, 2, 30)])
  {
    Line122Stamps();
    TsT1();
    TsT3();
    MapAllPair(TsToDateTime, T1, T3, DateTime(2016, 2, 6, 23, 30), DateTime(2016, 2, 9, 2, 30));
  }

  lemma Line122Record()
    ensures SubtaskOf(Line122) == Ok(Sample)
  {
    Line122Status();
    Line122Dates();
    Line122Description();
  }

  /** The line main.py:124 checks. */
  const Line124 := "[s]    subtask description 3" + "     " + T1 + "    " + T3 + "   "

  lemma Line124Stretches()
    ensures Stretch(DateTimePat, Line124, 0, 28) && Stretch(DateTimePat, Line124, 53, 53) && Stretch(DateTimePat, Line124, 71, |Line124|)
  {
  }

  lemma Line124Pieces()
    ensures Line124[..28] == "[s]    subtask description 3" && Line124[53..53] == "" && Line124[71..] == ""
  {
  }

  lemma Line124Stamp1()
    ensures StampToken(Line124, 28, 33, T1, 53)
  {
    StampGroups();
    assert Line124[33..49] == T1;
  }

  lemma Line124Stamp2()
    ensures StampToken(Line124, 53, 53, T3, 71)
  {
    StampGroups();
    assert Line124[53..68] == T3;
  }

  /** What is left of Line124 once the timestamps are replaced. */
  const Line124NoStamps := "[s]    subtask description 3" + (" " + ("" + (" " + "")))

  lemma Line124Stamps()
    ensures Stamps(Line124) == [T1, T3]
    ensures Unstamped(Line124) == Line124NoStamps
  {
    Line124Stretches();
    Line124Pieces();
    Line124Stamp1();
    Line124Stamp2();
    TwoStampLine(Line124, 28, 33, T1, 53, 53, 53, T3, 71);
  }

  lemma Line124FlagShape()
    ensures Stretch(StatusPat, Line124NoStamps, 0, 0) && StatusShape(Line124NoStamps, 0, 0, 1, 2, 7) && Stretch(StatusPat, Line124NoStamps, 7, |Line124NoStamps|)
  {
  }

  lemma Line124FlagPieces()
    ensures Line124NoStamps[..0] == "" && Line124NoStamps[7..] == "subtask description 3" + (" " + ("" + (" " + ""))) && Line124NoStamps[1] == 's'
  {
  }

  /** What is left of Line124 once the status flag is replaced as well. */
  const Line124NoFlags := "" + (" " + ("subtask description 3" + (" " + ("" + (" " + "")))))

  lemma Line124Flags()
    ensures Flags(Line124NoStamps) == ["s"]
    ensures Unflagged(Line124NoStamps) == Line124NoFlags
  {
    Line124FlagShape();
    Line124FlagPieces();
    OneFlagLine(Line124NoStamps, 0, 0, 1, 2, 7);
  }

  lemma Line124Padding()
    ensures SpaceBetween(Line124NoFlags, 0, 1) && SpaceBetween(Line124NoFlags, 22, |Line124NoFlags|)
    ensures !IsSpace(Line124NoFlags[1]) && !IsSpace(Line124NoFlags[21])
  {
  }

  lemma Line124Middle()
    ensures Line124NoFlags[1..22] == "subtask description 3"
  {
  }

  lemma Line124Strip()
    ensures Strip(Line124NoFlags) == "subtask description 3"
  {
    Line124Padding();
    Line124Middle();
    StripUnique(Line124NoFlags, 1, 22);
  }

  lemma Line124Description()
    ensures GetDescription(Line124) == "subtask description 3"
  {
    Line124Stamps();
    Line124Flags();
    Line124Strip();
  }

  lemma Line124Status()
    ensures GetStatusLetter(Line124) == Some("s")
  {
    assert Line124[1] == 's';
    StatusLetterAt(Line124, 0, 0, 1, 2, 7);
  }

  lemma Line124Dates()
    ensures GetDateTimeList(Line124) == Ok([DateTime(2016, 2, 6, 23, 30), DateTime(2016, 2, 9, 2, 30)])
  {
    Line124Stamps();
    TsT1();
    TsT3();
    MapAllPair(TsToDateTime, T1, T3, DateTime(2016, 2, 6, 23, 30), DateTime(2016, 2, 9, 2, 30));
  }

  lemma Line124Record()
    ensures SubtaskOf(Line124) == Ok(Sample)
  {
    Line124Status();
    Line124Dates();
    Line124Description();
  }

  /** A line whose second timestamp is 30 February. */
  const LineBad := "    [a]" + " " + T1 + " " + BadDate + " " + "description"

  lemma LineBadStretches()
    ensures Stretch(DateTimePat, LineBad, 0, 7) && Stretch(DateTimePat, LineBad, 25, 25) && Stretch(DateTimePat, LineBad, 42, |LineBad|)
  {
  }

  lemma LineBadPieces()
    ensures LineBad[..7] == "    [a]" && LineBad[25..25] == "" && LineBad[42..] == "description"
  {
  }

  lemma LineBadStamp1()
    ensures StampToken(LineBad, 7, 8, T1, 25)
  {
    StampGroups();
    assert LineBad[8..24] == T1;
  }

  lemma LineBadStamp2()
    ensures StampToken(LineBad, 25, 25, BadDate, 42)
  {
    StampGroups();
    assert LineBad[25..41] == BadDate;
  }

  /** What is left of LineBad once the timestamps are replaced. */
  const LineBadNoStamps := "    [a]" + (" " + ("" + (" " + "description")))

  lemma LineBadStamps()
    ensures Stamps(LineBad) == [T1, BadDate]
    ensures Unstamped(LineBad) == LineBadNoStamps
  {
    LineBadStretches();
    LineBadPieces();
    LineBadStamp1();
    LineBadStamp2();
    TwoStampLine(LineBad, 7, 8, T1, 25, 25, 25, BadDate, 42);
  }

  /** The first timestamp converts, the second does not: its error is the result. */
  lemma LineBadDates()
    ensures GetDateTimeList(LineBad) == Err(DayOutOfRange)
  {
    LineBadStamps();
    TsT1();
    BadFebruary();
    MapAllPairErr(TsToDateTime, T1, BadDate, DayOutOfRange);
  }

  /** And parsing the line fails with that error. */
  lemma LineBadRecord()
    ensures SubtaskOf(LineBad) == Err(DayOutOfRange)
  {
    LineBadDates();
  }

  // The checks as main.py writes them, on the literal lines.

  lemma Line120Joins1()
    ensures "[s]" + " " == "[s] "
    ensures "[s] " + T1 == "[s] 23:30 06.02.2016"
  {
  }

  lemma Line120Joins2()
    ensures "[s] 23:30 06.02.2016" + " " == "[s] 23:30 06.02.2016 "
    ensures "[s] 23:30 06.02.2016 " + "..." == "[s] 23:30 06.02.2016 ..."
  {
  }

  lemma Line120Joins3()
    ensures "[s] 23:30 06.02.2016 ..." + " " == "[s] 23:30 06.02.2016 ... "
    ensures "[s] 23:30 06.02.2016 ... " + T3 == "[s] 23:30 06.02.2016 ... 2:30 09.02.2016"
  {
  }

  lemma Line120Joins4()
    ensures "[s] 23:30 06.02.2016 ... 2:30 09.02.2016" + " " == "[s] 23:30 06.02.2016 ... 2:30 09.02.2016 "
    ensures "[s] 23:30 06.02.2016 ... 2:30 09.02.2016 " + "subtask description 3" == "[s] 23:30 06.02.2016 ... 2:30 09.02.2016 subtask description 3"
  {
  }

  /** Line120 is the line main.py:120 writes. */
  lemma Line120Literal()
    ensures Line120 == "[s] 23:30 06.02.2016 ... 2:30 09.02.2016 subtask description 3"
  {
    Line120Joins1();
    Line120Joins2();
    Line120Joins3();
    Line120Joins4();
  }

  /** main.py:120: the line keeps `...` in its description, so it is not the sample. */
  lemma Example120()
    ensures SubtaskOf("[s] 23:30 06.02.2016 ... 2:30 09.02.2016 subtask description 3") != Ok(Sample)
    ensures SubtaskOf("[s] 23:30 06.02.2016 ... 2:30 09.02.2016 subtask description 3") == Ok(Sample.(desc := "... subtask description 3"))
  {
    Line120Literal();
    Line120Record();
  }

  lemma Line121Joins1()
    ensures "[s]" + " " == "[s] "
    ensures "[s] " + T1 == "[s] 23:30 06.02.2016"
  {
  }

  lemma Line121Joins2()
    ensures "[s] 23:30 06.02.2016" + " " == "[s] 23:30 06.02.2016 "
    ensures "[s] 23:30 06.02.2016 " + T3 == "[s] 23:30 06.02.2016 2:30 09.02.2016"
  {
  }

  lemma Line121Joins3()
    ensures "[s] 23:30 06.02.2016 2:30 09.02.2016" + " " == "[s] 23:30 06.02.2016 2:30 09.02.2016 "
    ensures "[s] 23:30 06.02.2016 2:30 09.02.2016 " + "subtask description 3" == "[s] 23:30 06.02.2016 2:30 09.02.2016 subtask description 3"
  {
  }

  /** Line121 is the line main.py:121 writes. */
  lemma Line121Literal()
    ensures Line121 == "[s] 23:30 06.02.2016 2:30 09.02.2016 subtask description 3"
  {
    Line121Joins1();
    Line121Joins2();
    Line121Joins3();
  }

  /** main.py:121 */
  lemma Example121()
    ensures SubtaskOf("[s] 23:30 06.02.2016 2:30 09.02.2016 subtask description 3") == Ok(Sample)
  {
    Line121Literal();
    Line121Record();
  }

  lemma Line122Joins1()
    ensures "[s] subtask description 3" + " " == "[s] subtask description 3 "
    ensures "[s] subtask description 3 " + T1 == "[s] subtask description 3 23:30 06.02.2016"
  {
  }

  lemma Line122Joins2()
    ensures "[s] subtask description 3 23:30 06.02.2016" + " " == "[s] subtask description 3 23:30 06.02.2016 "
    ensures "[s] subtask description 3 23:30 06.02.2016 " + T3 == "[s] subtask description 3 23:30 06.02.2016 2:30 09.02.2016"
  {
  }

  /** Line122 is the line main.py:122 writes. */
  lemma Line122Literal()
    ensures Line122 == "[s] subtask description 3 23:30 06.02.2016 2:30 09.02.2016"
  {
    Line122Joins1();
    Line122Joins2();
  }

  /** main.py:122 */
  lemma Example122()
    ensures SubtaskOf("[s] subtask description 3 23:30 06.02.2016 2:30 09.02.2016") == Ok(Sample)
  {
    Line122Literal();
    Line122Record();
  }

  lemma Line124Joins1()
    ensures "[s]    subtask description 3" + "     " == "[s]    subtask description 3     "
    ensures "[s]    subtask description 3     " + T1 == "[s]    subtask description 3     23:30 06.02.2016"
  {
  }

  lemma Line124Joins2()
    ensures "[s]    subtask description 3     23:30 06.02.2016" + "    " == "[s]    subtask description 3     23:30 06.02.2016    "
    ensures "[s]    subtask description 3     23:30 06.02.2016    " + T3 == "[s]    subtask description 3     23:30 06.02.2016    2:30 09.02.2016"
  {
  }

  lemma Line124Joins3()
    ensures "[s]    subtask description 3     23:30 06.02.2016    2:30 09.02.2016" + "   " == "[s]    subtask description 3     23:30 06.02.2016    2:30 09.02.2016   "
  {
  }

  /** Line124 is the line main.py:124 writes. */
  lemma Line124Literal()
    ensures Line124 == "[s]    subtask description 3     23:30 06.02.2016    2:30 09.02.2016   "
  {
    Line124Joins1();
    Line124Joins2();
    Line124Joins3();
  }

  /** main.py:124 */
  lemma Example124()
    ensures SubtaskOf("[s]    subtask description 3     23:30 06.02.2016    2:30 09.02.2016   ") == Ok(Sample)
  {
    Line124Literal();
    Line124Record();
  }
}
