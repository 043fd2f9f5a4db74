/**
 * The timestamp lists main.py:44-51 checks and the descriptions
 * main.py:59-67 checks. Each line is written as the pieces the scans cut
 * it into: stretches where no match can start, and the timestamps with
 * the whitespace around them. Its lemmas go the way the scans do: where
 * the stretches and the tokens are, what DATETIME_PAT `sub` leaves, what
 * STATUS_PAT `sub` then leaves, and what `strip` gives.
 */
module LineExamples {
  import opened Wrappers
  import opened Text
  import opened Timestamp
  import opened Patterns
  import opened Scan
  import opened Subtask
  import opened Lines
  import opened TimestampExamples

  /** The line main.py:44 and main.py:59 check. */
  const Line44 := "    some [a]" + " " + T1 + " " + "description"

  lemma Line44Stretches()
    ensures Stretch(DateTimePat, Line44, 0, 12) && Stretch(DateTimePat, Line44, 30, |Line44|)
  {
  }

  lemma Line44Pieces()
    ensures Line44[..12] == "    some [a]" && Line44[30..] == "description"
  {
  }

  lemma Line44Stamp1()
    ensures StampToken(Line44, 12, 13, T1, 30)
  {
    StampGroups();
    assert Line44[13..29] == T1;
  }

  /** What is left of Line44 once the timestamps are replaced. */
  const Line44NoStamps := "    some [a]" + (" " + "description")

  lemma Line44Stamps()
    ensures Stamps(Line44) == [T1]
    ensures Unstamped(Line44) == Line44NoStamps
  {
    Line44Stretches();
    Line44Pieces();
    Line44Stamp1();
    OneStampLine(Line44, 12, 13, T1, 30);
  }

  lemma Line44FlagShape()
    ensures Stretch(StatusPat, Line44NoStamps, 0, 8) && StatusShape(Line44NoStamps, 8, 9, 10, 11, 13) && Stretch(StatusPat, Line44NoStamps, 13, |Line44NoStamps|)
  {
  }

  lemma Line44FlagPieces()
    ensures Line44NoStamps[..8] == "    some" && Line44NoStamps[13..] == "description" && Line44NoStamps[10] == 'a'
  {
  }

  /** What is left of Line44 once the status flag is replaced as well. */
  const Line44NoFlags := "    some" + (" " + "description")

  lemma Line44Flags()
    ensures Flags(Line44NoStamps) == ["a"]
    ensures Unflagged(Line44NoStamps) == Line44NoFlags
  {
    Line44FlagShape();
    Line44FlagPieces();
    OneFlagLine(Line44NoStamps, 8, 9, 10, 11, 13);
  }

  lemma Line44Padding()
    ensures SpaceBetween(Line44NoFlags, 0, 4) && SpaceBetween(Line44NoFlags, 20, |Line44NoFlags|)
    ensures !IsSpace(Line44NoFlags[4]) && !IsSpace(Line44NoFlags[19])
  {
  }

  lemma Line44Middle()
    ensures Line44NoFlags[4..20] == "some description"
  {
  }

  lemma Line44Strip()
    ensures Strip(Line44NoFlags) == "some description"
  {
    Line44Padding();
    Line44Middle();
    StripUnique(Line44NoFlags, 4, 20);
  }

  lemma Line44Description()
    ensures GetDescription(Line44) == "some description"
  {
    Line44Stamps();
    Line44Flags();
    Line44Strip();
  }

  lemma DateTimeList44()
    ensures GetDateTimeList(Line44) == Ok([DateTime(2016, 2, 6, 23, 30)])
  {
    Line44Stamps();
    TsT1();
    MapAllOkValues(TsToDateTime, [T1], [DateTime(2016, 2, 6, 23, 30)]);
  }

  /** The line main.py:50 checks. */
  const Line50 := "    some [a]" + " " + T1 + " " + T2 + " " + "description"

  lemma Line50Stretches()
    ensures Stretch(DateTimePat, Line50, 0, 12) && Stretch(DateTimePat, Line50, 30, 30) && Stretch(DateTimePat, Line50, 47, |Line50|)
  {
  }

  lemma Line50Pieces()
    ensures Line50[..12] == "    some [a]" && Line50[30..30] == "" && Line50[47..] == "description"
  {
  }

  lemma Line50Stamp1()
    ensures StampToken(Line50, 12, 13, T1, 30)
  {
    StampGroups();
    assert Line50[13..29] == T1;
  }

  lemma Line50Stamp2()
    ensures StampToken(Line50, 30, 30, T2, 47)
  {
    StampGroups();
    assert Line50[30..46] == T2;
  }

  /** What is left of Line50 once the timestamps are replaced. */
  const Line50NoStamps := "    some [a]" + (" " + ("" + (" " + "description")))

  lemma Line50Stamps()
    ensures Stamps(Line50) == [T1, T2]
    ensures Unstamped(Line50) == Line50NoStamps
  {
    Line50Stretches();
    Line50Pieces();
    Line50Stamp1();
    Line50Stamp2();
    TwoStampLine(Line50, 12, 13, T1, 30, 30, 30, T2, 47);
  }

  lemma DateTimeList50()
    ensures GetDateTimeList(Line50) == Ok([DateTime(2016, 2, 6, 23, 30), DateTime(2016, 2, 6, 23, 31)])
  {
    Line50Stamps();
    TsT1();
    TsT2();
    MapAllPair(TsToDateTime, T1, T2, DateTime(2016, 2, 6, 23, 30), DateTime(2016, 2, 6, 23, 31));
  }

  /** The line main.py:51 checks. */
  const Line51 := "    some [a]" + " " + T1 + " " + "fd" + " " + T2 + " " + "description"

  lemma Line51Stretches()
    ensures Stretch(DateTimePat, Line51, 0, 12) && Stretch(DateTimePat, Line51, 30, 32) && Stretch(DateTimePat, Line51, 50, |Line51|)
  {
  }

  lemma Line51Pieces()
    ensures Line51[..12] == "    some [a]" && Line51[30..32] == "fd" && Line51[50..] == "description"
  {
  }

  lemma Line51Stamp1()
    ensures StampToken(Line51, 12, 13, T1, 30)
  {
    StampGroups();
    assert Line51[13..29] == T1;
  }

  lemma Line51Stamp2()
    ensures StampToken(Line51, 32, 33, T2, 50)
  {
    StampGroups();
    assert Line51[33..49] == T2;
  }

  /** What is left of Line51 once the timestamps are replaced. */
  const Line51NoStamps := "    some [a]" + (" " + ("fd" + (" " + "description")))

  lemma Line51Stamps()
    ensures Stamps(Line51) == [T1, T2]
    ensures Unstamped(Line51) == Line51NoStamps
  {
    Line51Stretches();
    Line51Pieces();
    Line51Stamp1();
    Line51Stamp2();
    TwoStampLine(Line51, 12, 13, T1, 30, 32, 33, T2, 50);
  }

  lemma DateTimeList51()
    ensures GetDateTimeList(Line51) == Ok([DateTime(2016, 2, 6, 23, 30), DateTime(2016, 2, 6, 23, 31)])
  {
    Line51Stamps();
    TsT1();
    TsT2();
    MapAllPair(TsToDateTime, T1, T2, DateTime(2016, 2, 6, 23, 30), DateTime(2016, 2, 6, 23, 31));
  }

  /** The line main.py:60 checks. */
  const Line60 := "    some [a]" + " " + T1 + " " + T1 + " " + "description"

  lemma Line60Stretches()
    ensures Stretch(DateTimePat, Line60, 0, 12) && Stretch(DateTimePat, Line60, 30, 30) && Stretch(DateTimePat, Line60, 47, |Line60|)
  {
  }

  lemma Line60Pieces()
    ensures Line60[..12] == "    some [a]" && Line60[30..30] == "" && Line60[47..] == "description"
  {
  }

  lemma Line60Stamp1()
    ensures StampToken(Line60, 12, 13, T1, 30)
  {
    StampGroups();
    assert Line60[13..29] == T1;
  }

  lemma Line60Stamp2()
    ensures StampToken(Line60, 30, 30, T1, 47)
  {
    StampGroups();
    assert Line60[30..46] == T1;
  }

  /** What is left of Line60 once the timestamps are replaced. */
  const Line60NoStamps := "    some [a]" + (" " + ("" + (" " + "description")))

  lemma Line60Stamps()
    ensures Stamps(Line60) == [T1, T1]
    ensures Unstamped(Line60) == Line60NoStamps
  {
    Line60Stretches();
    Line60Pieces();
    Line60Stamp1();
    Line60Stamp2();
    TwoStampLine(Line60, 12, 13, T1, 30, 30, 30, T1, 47);
  }

  lemma Line60FlagShape()
    ensures Stretch(StatusPat, Line60NoStamps, 0, 8) && StatusShape(Line60NoStamps, 8, 9, 10, 11, 14) && Stretch(StatusPat, Line60NoStamps, 14, |Line60NoStamps|)
  {
  }

  lemma Line60FlagPieces()
    ensures Line60NoStamps[..8] == "    some" && Line60NoStamps[14..] == "description" && Line60NoStamps[10] == 'a'
  {
  }

  /** What is left of Line60 once the status flag is replaced as well. */
  const Line60NoFlags := "    some" + (" " + "description")

  lemma Line60Flags()
    ensures Flags(Line60NoStamps) == ["a"]
    ensures Unflagged(Line60NoStamps) == Line60NoFlags
  {
    Line60FlagShape();
    Line60FlagPieces();
    OneFlagLine(Line60NoStamps, 8, 9, 10, 11, 14);
  }

  lemma Line60Padding()
    ensures SpaceBetween(Line60NoFlags, 0, 4) && SpaceBetween(Line60NoFlags, 20, |Line60NoFlags|)
    ensures !IsSpace(Line60NoFlags[4]) && !IsSpace(Line60NoFlags[19])
  {
  }

  lemma Line60Middle()
    ensures Line60NoFlags[4..20] == "some description"
  {
  }

  lemma Line60Strip()
    ensures Strip(Line60NoFlags) == "some description"
  {
    Line60Padding();
    Line60Middle();
    StripUnique(Line60NoFlags, 4, 20);
  }

  lemma Line60Description()
    ensures GetDescription(Line60) == "some description"
  {
    Line60Stamps();
    Line60Flags();
    Line60Strip();
  }

  /** The line main.py:61 checks. */
  const Line61 := "    [a] some" + " " + T1 + " " + "description"

  lemma Line61Stretches()
    ensures Stretch(DateTimePat, Line61, 0, 12) && Stretch(DateTimePat, Line61, 30, |Line61|)
  {
  }

  lemma Line61Pieces()
    ensures Line61[..12] == "    [a] some" && Line61[30..] == "description"
  {
  }

  lemma Line61Stamp1()
    ensures StampToken(Line61, 12, 13, T1, 30)
  {
    StampGroups();
    assert Line61[13..29] == T1;
  }

  /** What is left of Line61 once the timestamps are replaced. */
  const Line61NoStamps := "    [a] some" + (" " + "description")

  lemma Line61Stamps()
    ensures Stamps(Line61) == [T1]
    ensures Unstamped(Line61) == Line61NoStamps
  {
    Line61Stretches();
    Line61Pieces();
    Line61Stamp1();
    OneStampLine(Line61, 12, 13, T1, 30);
  }

  lemma Line61FlagShape()
    ensures Stretch(StatusPat, Line61NoStamps, 0, 0) && StatusShape(Line61NoStamps, 0, 4, 5, 6, 8) && Stretch(StatusPat, Line61NoStamps, 8, |Line61NoStamps|)
  {
  }

  lemma Line61FlagPieces()
    ensures Line61NoStamps[..0] == "" && Line61NoStamps[8..] == "some" + (" " + "description") && Line61NoStamps[5] == 'a'
  {
  }

  /** What is left of Line61 once the status flag is replaced as well. */
  const Line61NoFlags := "" + (" " + ("some" + (" " + "description")))

  lemma Line61Flags()
    ensures Flags(Line61NoStamps) == ["a"]
    ensures Unflagged(Line61NoStamps) == Line61NoFlags
  {
    Line61FlagShape();
    Line61FlagPieces();
    OneFlagLine(Line61NoStamps, 0, 4, 5, 6, 8);
  }

  lemma Line61Padding()
    ensures SpaceBetween(Line61NoFlags, 0, 1) && SpaceBetween(Line61NoFlags, 17, |Line61NoFlags|)
    ensures !IsSpace(Line61NoFlags[1]) && !IsSpace(Line61NoFlags[16])
  {
  }

  lemma Line61Joined()
    ensures "some" + (" " + "description") == "some description"
  {
  }

  lemma Line61Middle()
    ensures Line61NoFlags[1..17] == "some description"
  {
    Line61Joined();
    assert |Line61NoFlags| == 17 && Line61NoFlags[1..] == "some" + (" " + "description");
  }

  lemma Line61Strip()
    ensures Strip(Line61NoFlags) == "some description"
  {
    Line61Padding();
    Line61Middle();
    StripUnique(Line61NoFlags, 1, 17);
  }

  lemma Line61Description()
    ensures GetDescription(Line61) == "some description"
  {
    Line61Stamps();
    Line61Flags();
    Line61Strip();
  }

  /** The line main.py:62 checks. */
  const Line62 := "    [a]" + " " + T1 + " " + "some description"

  lemma Line62Stretches()
    ensures Stretch(DateTimePat, Line62, 0, 7) && Stretch(DateTimePat, Line62, 25, |Line62|)
  {
  }

  lemma Line62Pieces()
    ensures Line62[..7] == "    [a]" && Line62[25..] == "some description"
  {
  }

  lemma Line62Stamp1()
    ensures StampToken(Line62, 7, 8, T1, 25)
  {
    StampGroups();
    assert Line62[8..24] == T1;
  }

  /** What is left of Line62 once the timestamps are replaced. */
  const Line62NoStamps := "    [a]" + (" " + "some description")

  lemma Line62Stamps()
    ensures Stamps(Line62) == [T1]
    ensures Unstamped(Line62) == Line62NoStamps
  {
    Line62Stretches();
    Line62Pieces();
    Line62Stamp1();
    OneStampLine(Line62, 7, 8, T1, 25);
  }

  lemma Line62FlagShape()
    ensures Stretch(StatusPat, Line62NoStamps, 0, 0) && StatusShape(Line62NoStamps, 0, 4, 5, 6, 8) && Stretch(StatusPat, Line62NoStamps, 8, |Line62NoStamps|)
  {
  }

  lemma Line62FlagPieces()
    ensures Line62NoStamps[..0] == "" && Line62NoStamps[8..] == "some description" && Line62NoStamps[5] == 'a'
  {
  }

  /** What is left of Line62 once the status flag is replaced as well. */
  const Line62NoFlags := "" + (" " + "some description")

  lemma Line62Flags()
    ensures Flags(Line62NoStamps) == ["a"]
    ensures Unflagged(Line62NoStamps) == Line62NoFlags
  {
    Line62FlagShape();
    Line62FlagPieces();
    OneFlagLine(Line62NoStamps, 0, 4, 5, 6, 8);
  }

  lemma Line62Padding()
    ensures SpaceBetween(Line62NoFlags, 0, 1) && SpaceBetween(Line62NoFlags, 17, |Line62NoFlags|)
    ensures !IsSpace(Line62NoFlags[1]) && !IsSpace(Line62NoFlags[16])
  {
  }

  lemma Line62Middle()
    ensures Line62NoFlags[1..17] == "some description"
  {
  }

  lemma Line62Strip()
    ensures Strip(Line62NoFlags) == "some description"
  {
    Line62Padding();
    Line62Middle();
    StripUnique(Line62NoFlags, 1, 17);
  }

  lemma Line62Description()
    ensures GetDescription(Line62) == "some description"
  {
    Line62Stamps();
    Line62Flags();
    Line62Strip();
  }

  /** The line main.py:63 checks. */
  const Line63 := "    [a]" + " " + T1 + " " + "some description "

  lemma Line63Stretches()
    ensures Stretch(DateTimePat, Line63, 0, 7) && Stretch(DateTimePat, Line63, 25, |Line63|)
  {
  }

  lemma Line63Pieces()
    ensures Line63[..7] == "    [a]" && Line63[25..] == "some description "
  {
  }

  lemma Line63Stamp1()
    ensures StampToken(Line63, 7, 8, T1, 25)
  {
    StampGroups();
    assert Line63[8..24] == T1;
  }

  /** What is left of Line63 once the timestamps are replaced. */
  const Line63NoStamps := "    [a]" + (" " + "some description ")

  lemma Line63Stamps()
    ensures Stamps(Line63) == [T1]
    ensures Unstamped(Line63) == Line63NoStamps
  {
    Line63Stretches();
    Line63Pieces();
    Line63Stamp1();
    OneStampLine(Line63, 7, 8, T1, 25);
  }

  lemma Line63FlagShape()
    ensures Stretch(StatusPat, Line63NoStamps, 0, 0) && StatusShape(Line63NoStamps, 0, 4, 5, 6, 8) && Stretch(StatusPat, Line63NoStamps, 8, |Line63NoStamps|)
  {
  }

  lemma Line63FlagPieces()
    ensures Line63NoStamps[..0] == "" && Line63NoStamps[8..] == "some description " && Line63NoStamps[5] == 'a'
  {
  }

  /** What is left of Line63 once the status flag is replaced as well. */
  const Line63NoFlags := "" + (" " + "some description ")

  lemma Line63Flags()
    ensures Flags(Line63NoStamps) == ["a"]
    ensures Unflagged(Line63NoStamps) == Line63NoFlags
  {
    Line63FlagShape();
    Line63FlagPieces();
    OneFlagLine(Line63NoStamps, 0, 4, 5, 6, 8);
  }

  lemma Line63Padding()
    ensures SpaceBetween(Line63NoFlags, 0, 1) && SpaceBetween(Line63NoFlags, 17, |Line63NoFlags|)
    ensures !IsSpace(Line63NoFlags[1]) && !IsSpace(Line63NoFlags[16])
  {
  }

  lemma Line63Middle()
    ensures Line63NoFlags[1..17] == "some description"
  {
  }

  lemma Line63Strip()
    ensures Strip(Line63NoFlags) == "some description"
  {
    Line63Padding();
    Line63Middle();
    StripUnique(Line63NoFlags, 1, 17);
  }

  lemma Line63Description()
    ensures GetDescription(Line63) == "some description"
  {
    Line63Stamps();
    Line63Flags();
    Line63Strip();
  }

  /** The line main.py:64 checks. */
  const Line64 := "    [a]" + "  " + T1 + " " + "some description "

  lemma Line64Stretches()
    ensures Stretch(DateTimePat, Line64, 0, 7) && Stretch(DateTimePat, Line64, 26, |Line64|)
  {
  }

  lemma Line64Pieces()
    ensures Line64[..7] == "    [a]" && Line64[26..] == "some description "
  {
  }

  lemma Line64Stamp1()
    ensures StampToken(Line64, 7, 9, T1, 26)
  {
    StampGroups();
    assert Line64[9..25] == T1;
  }

  /** What is left of Line64 once the timestamps are replaced. */
  const Line64NoStamps := "    [a]" + (" " + "some description ")

  lemma Line64Stamps()
    ensures Stamps(Line64) == [T1]
    ensures Unstamped(Line64) == Line64NoStamps
  {
    Line64Stretches();
    Line64Pieces();
    Line64Stamp1();
    OneStampLine(Line64, 7, 9, T1, 26);
  }

  lemma Line64FlagShape()
    ensures Stretch(StatusPat, Line64NoStamps, 0, 0) && StatusShape(Line64NoStamps, 0, 4, 5, 6, 8) && Stretch(StatusPat, Line64NoStamps, 8, |Line64NoStamps|)
  {
  }

  lemma Line64FlagPieces()
    ensures Line64NoStamps[..0] == "" && Line64NoStamps[8..] == "some description " && Line64NoStamps[5] == 'a'
  {
  }

  /** What is left of Line64 once the status flag is replaced as well. */
  const Line64NoFlags := "" + (" " + "some description ")

  lemma Line64Flags()
    ensures Flags(Line64NoStamps) == ["a"]
    ensures Unflagged(Line64NoStamps) == Line64NoFlags
  {
    Line64FlagShape();
    Line64FlagPieces();
    OneFlagLine(Line64NoStamps, 0, 4, 5, 6, 8);
  }

  lemma Line64Padding()
    ensures SpaceBetween(Line64NoFlags, 0, 1) && SpaceBetween(Line64NoFlags, 17, |Line64NoFlags|)
    ensures !IsSpace(Line64NoFlags[1]) && !IsSpace(Line64NoFlags[16])
  {
  }

  lemma Line64Middle()
    ensures Line64NoFlags[1..17] == "some description"
  {
  }

  lemma Line64Strip()
    ensures Strip(Line64NoFlags) == "some description"
  {
    Line64Padding();
    Line64Middle();
    StripUnique(Line64NoFlags, 1, 17);
  }

  lemma Line64Description()
    ensures GetDescription(Line64) == "some description"
  {
    Line64Stamps();
    Line64Flags();
    Line64Strip();
  }

  /** The line main.py:65 checks. */
  const Line65 := "    [a]" + " " + T1 + "  " + "some description "

  lemma Line65Stretches()
    ensures Stretch(DateTimePat, Line65, 0, 7) && Stretch(DateTimePat, Line65, 26, |Line65|)
  {
  }

  lemma Line65Pieces()
    ensures Line65[..7] == "    [a]" && Line65[26..] == "some description "
  {
  }

  lemma Line65Stamp1()
    ensures StampToken(Line65, 7, 8, T1, 26)
  {
    StampGroups();
    assert Line65[8..24] == T1;
  }

  /** What is left of Line65 once the timestamps are replaced. */
  const Line65NoStamps := "    [a]" + (" " + "some description ")

  lemma Line65Stamps()
    ensures Stamps(Line65) == [T1]
    ensures Unstamped(Line65) == Line65NoStamps
  {
    Line65Stretches();
    Line65Pieces();
    Line65Stamp1();
    OneStampLine(Line65, 7, 8, T1, 26);
  }

  lemma Line65FlagShape()
    ensures Stretch(StatusPat, Line65NoStamps, 0, 0) && StatusShape(Line65NoStamps, 0, 4, 5, 6, 8) && Stretch(StatusPat, Line65NoStamps, 8, |Line65NoStamps|)
  {
  }

  lemma Line65FlagPieces()
    ensures Line65NoStamps[..0] == "" && Line65NoStamps[8..] == "some description " && Line65NoStamps[5] == 'a'
  {
  }

  /** What is left of Line65 once the status flag is replaced as well. */
  const Line65NoFlags := "" + (" " + "some description ")

  lemma Line65Flags()
    ensures Flags(Line65NoStamps) == ["a"]
    ensures Unflagged(Line65NoStamps) == Line65NoFlags
  {
    Line65FlagShape();
    Line65FlagPieces();
    OneFlagLine(Line65NoStamps, 0, 4, 5, 6, 8);
  }

  lemma Line65Padding()
    ensures SpaceBetween(Line65NoFlags, 0, 1) && SpaceBetween(Line65NoFlags, 17, |Line65NoFlags|)
    ensures !IsSpace(Line65NoFlags[1]) && !IsSpace(Line65NoFlags[16])
  {
  }

  lemma Line65Middle()
    ensures Line65NoFlags[1..17] == "some description"
  {
  }

  lemma Line65Strip()
    ensures Strip(Line65NoFlags) == "some description"
  {
    Line65Padding();
    Line65Middle();
    StripUnique(Line65NoFlags, 1, 17);
  }

  lemma Line65Description()
    ensures GetDescription(Line65) == "some description"
  {
    Line65Stamps();
    Line65Flags();
    Line65Strip();
  }

  /** The line main.py:67 checks. */
  const Line67 := "    some [a]" + " " + T1 + " " + "..." + " " + T1 + " " + "description"

  lemma Line67Stretches()
    ensures Stretch(DateTimePat, Line67, 0, 12) && Stretch(DateTimePat, Line67, 30, 33) && Stretch(DateTimePat, Line67, 51, |Line67|)
  {
  }

  lemma Line67Pieces()
    ensures Line67[..12] == "    some [a]" && Line67[30..33] == "..." && Line67[51..] == "description"
  {
  }

  lemma Line67Stamp1()
    ensures StampToken(Line67, 12, 13, T1, 30)
  {
    StampGroups();
    assert Line67[13..29] == T1;
  }

  lemma Line67Stamp2()
    ensures StampToken(Line67, 33, 34, T1, 51)
  {
    StampGroups();
    assert Line67[34..50] == T1;
  }

  /** What is left of Line67 once the timestamps are replaced. */
  const Line67NoStamps := "    some [a]" + (" " + ("..." + (" " + "description")))

  lemma Line67Stamps()
    ensures Stamps(Line67) == [T1, T1]
    ensures Unstamped(Line67) == Line67NoStamps
  {
    Line67Stretches();
    Line67Pieces();
    Line67Stamp1();
    Line67Stamp2();
    TwoStampLine(Line67, 12, 13, T1, 30, 33, 34, T1, 51);
  }

  lemma Line67FlagShape()
    ensures Stretch(StatusPat, Line67NoStamps, 0, 8) && StatusShape(Line67NoStamps, 8, 9, 10, 11, 13) && Stretch(StatusPat, Line67NoStamps, 13, |Line67NoStamps|)
  {
  }

  lemma Line67FlagPieces()
    ensures Line67NoStamps[..8] == "    some" && Line67NoStamps[13..] == "..." + (" " + "description") && Line67NoStamps[10] == 'a'
  {
  }

  /** What is left of Line67 once the status flag is replaced as well. */
  const Line67NoFlags := "    some" + (" " + ("..." + (" " + "description")))

  lemma Line67Flags()
    ensures Flags(Line67NoStamps) == ["a"]
    ensures Unflagged(Line67NoStamps) == Line67NoFlags
  {
    Line67FlagShape();
    Line67FlagPieces();
    OneFlagLine(Line67NoStamps, 8, 9, 10, 11, 13);
  }

  lemma Line67Padding()
    ensures SpaceBetween(Line67NoFlags, 0, 4) && SpaceBetween(Line67NoFlags, 24, |Line67NoFlags|)
    ensures !IsSpace(Line67NoFlags[4]) && !IsSpace(Line67NoFlags[23])
  {
  }

  lemma Line67Middle()
    ensures Line67NoFlags[4..24] == "some ... description"
  {
  }

  lemma Line67Strip()
    ensures Strip(Line67NoFlags) == "some ... description"
  {
    Line67Padding();
    Line67Middle();
    StripUnique(Line67NoFlags, 4, 24);
  }

  lemma Line67Description()
    ensures GetDescription(Line67) == "some ... description"
  {
    Line67Stamps();
    Line67Flags();
    Line67Strip();
  }

  // The checks as main.py writes them, on the literal lines.

  lemma Line44Joins1()
    ensures "    some [a]" + " " == "    some [a] "
    ensures "    some [a] " + T1 == "    some [a] 23:30 06.02.2016"
  {
  }

  lemma Line44Joins2()
    ensures "    some [a] 23:30 06.02.2016" + " " == "    some [a] 23:30 06.02.2016 "
    ensures "    some [a] 23:30 06.02.2016 " + "description" == "    some [a] 23:30 06.02.2016 description"
  {
  }

  /** Line44 is the line main.py:44 writes. */
  lemma Line44Literal()
    ensures Line44 == "    some [a] 23:30 06.02.2016 description"
  {
    Line44Joins1();
    Line44Joins2();
  }

  /** main.py:44 */
  lemma Example44()
    ensures GetDateTimeList("    some [a] 23:30 06.02.2016 description") == Ok([DateTime(2016, 2, 6, 23, 30)])
  {
    Line44Literal();
    DateTimeList44();
  }

  lemma Line50Joins1()
    ensures "    some [a]" + " " == "    some [a] "
    ensures "    some [a] " + T1 == "    some [a] 23:30 06.02.2016"
  {
  }

  lemma Line50Joins2()
    ensures "    some [a] 23:30 06.02.2016" + " " == "    some [a] 23:30 06.02.2016 "
    ensures "    some [a] 23:30 06.02.2016 " + T2 == "    some [a] 23:30 06.02.2016 23:31 06.02.2016"
  {
  }

  lemma Line50Joins3()
    ensures "    some [a] 23:30 06.02.2016 23:31 06.02.2016" + " " == "    some [a] 23:30 06.02.2016 23:31 06.02.2016 "
    ensures "    some [a] 23:30 06.02.2016 23:31 06.02.2016 " + "description" == "    some [a] 23:30 06.02.2016 23:31 06.02.2016 description"
  {
  }

  /** Line50 is the line main.py:50 writes. */
  lemma Line50Literal()
    ensures Line50 == "    some [a] 23:30 06.02.2016 23:31 06.02.2016 description"
  {
    Line50Joins1();
    Line50Joins2();
    Line50Joins3();
  }

  /** main.py:50 */
  lemma Example50()
    ensures GetDateTimeList("    some [a] 23:30 06.02.2016 23:31 06.02.2016 description") == Ok([DateTime(2016, 2, 6, 23, 30), DateTime(2016, 2, 6, 23, 31)])
  {
    Line50Literal();
    DateTimeList50();
  }

  lemma Line51Joins1()
    ensures "    some [a]" + " " == "    some [a] "
    ensures "    some [a] " + T1 == "    some [a] 23:30 06.02.2016"
  {
  }

  lemma Line51Joins2()
    ensures "    some [a] 23:30 06.02.2016" + " " == "    some [a] 23:30 06.02.2016 "
    ensures "    some [a] 23:30 06.02.2016 " + "fd" == "    some [a] 23:30 06.02.2016 fd"
  {
  }

  lemma Line51Joins3()
    ensures "    some [a] 23:30 06.02.2016 fd" + " " == "    some [a] 23:30 06.02.2016 fd "
    ensures "    some [a] 23:30 06.02.2016 fd " + T2 == "    some [a] 23:30 06.02.2016 fd 23:31 06.02.2016"
  {
  }

  lemma Line51Joins4()
    ensures "    some [a] 23:30 06.02.2016 fd 23:31 06.02.2016" + " " == "    some [a] 23:30 06.02.2016 fd 23:31 06.02.2016 "
    ensures "    some [a] 23:30 06.02.2016 fd 23:31 06.02.2016 " + "description" == "    some [a] 23:30 06.02.2016 fd 23:31 06.02.2016 description"
  {
  }

  /** Line51 is the line main.py:51 writes. */
  lemma Line51Literal()
    ensures Line51 == "    some [a] 23:30 06.02.2016 fd 23:31 06.02.2016 description"
  {
    Line51Joins1();
    Line51Joins2();
    Line51Joins3();
    Line51Joins4();
  }

  /** main.py:51 */
  lemma Example51()
    ensures GetDateTimeList("    some [a] 23:30 06.02.2016 fd 23:31 06.02.2016 description") == Ok([DateTime(2016, 2, 6, 23, 30), DateTime(2016, 2, 6, 23, 31)])
  {
    Line51Literal();
    DateTimeList51();
  }

  /** main.py:59 */
  lemma Example59()
    ensures GetDescription("    some [a] 23:30 06.02.2016 description") == "some description"
  {
    Line44Literal();
    Line44Description();
  }

  lemma Line60Joins1()
    ensures "    some [a]" + " " == "    some [a] "
    ensures "    some [a] " + T1 == "    some [a] 23:30 06.02.2016"
  {
  }

  lemma Line60Joins2()
    ensures "    some [a] 23:30 06.02.2016" + " " == "    some [a] 23:30 06.02.2016 "
    ensures "    some [a] 23:30 06.02.2016 " + T1 == "    some [a] 23:30 06.02.2016 23:30 06.02.2016"
  {
  }

  lemma Line60Joins3()
    ensures "    some [a] 23:30 06.02.2016 23:30 06.02.2016" + " " == "    some [a] 23:30 06.02.2016 23:30 06.02.2016 "
    ensures "    some [a] 23:30 06.02.2016 23:30 06.02.2016 " + "description" == "    some [a] 23:30 06.02.2016 23:30 06.02.2016 description"
  {
  }

  /** Line60 is the line main.py:60 writes. */
  lemma Line60Literal()
    ensures Line60 == "    some [a] 23:30 06.02.2016 23:30 06.02.2016 description"
  {
    Line60Joins1();
    Line60Joins2();
    Line60Joins3();
  }

  /** main.py:60 */
  lemma Example60()
    ensures GetDescription("    some [a] 23:30 06.02.2016 23:30 06.02.2016 description") == "some description"
  {
    Line60Literal();
    Line60Description();
  }

  lemma Line61Joins1()
    ensures "    [a] some" + " " == "    [a] some "
    ensures "    [a] some " + T1 == "    [a] some 23:30 06.02.2016"
  {
  }

  lemma Line61Joins2()
    ensures "    [a] some 23:30 06.02.2016" + " " == "    [a] some 23:30 06.02.2016 "
    ensures "    [a] some 23:30 06.02.2016 " + "description" == "    [a] some 23:30 06.02.2016 description"
  {
  }

  /** Line61 is the line main.py:61 writes. */
  lemma Line61Literal()
    ensures Line61 == "    [a] some 23:30 06.02.2016 description"
  {
    Line61Joins1();
    Line61Joins2();
  }

  /** main.py:61 */
  lemma Example61()
    ensures GetDescription("    [a] some 23:30 06.02.2016 description") == "some description"
  {
    Line61Literal();
    Line61Description();
  }

  lemma Line62Joins1()
    ensures "    [a]" + " " == "    [a] "
    ensures "    [a] " + T1 == "    [a] 23:30 06.02.2016"
  {
  }

  lemma Line62Joins2()
    ensures "    [a] 23:30 06.02.2016" + " " == "    [a] 23:30 06.02.2016 "
    ensures "    [a] 23:30 06.02.2016 " + "some description" == "    [a] 23:30 06.02.2016 some description"
  {
  }

  /** Line62 is the line main.py:62 writes. */
  lemma Line62Literal()
    ensures Line62 == "    [a] 23:30 06.02.2016 some description"
  {
    Line62Joins1();
    Line62Joins2();
  }

  /** main.py:62 */
  lemma Example62()
    ensures GetDescription("    [a] 23:30 06.02.2016 some description") == "some description"
  {
    Line62Literal();
    Line62Description();
  }

  lemma Line63Joins1()
    ensures "    [a]" + " " == "    [a] "
    ensures "    [a] " + T1 == "    [a] 23:30 06.02.2016"
  {
  }

  lemma Line63Joins2()
    ensures "    [a] 23:30 06.02.2016" + " " == "    [a] 23:30 06.02.2016 "
    ensures "    [a] 23:30 06.02.2016 " + "some description " == "    [a] 23:30 06.02.2016 some description "
  {
  }

  /** Line63 is the line main.py:63 writes. */
  lemma Line63Literal()
    ensures Line63 == "    [a] 23:30 06.02.2016 some description "
  {
    Line63Joins1();
    Line63Joins2();
  }

  /** main.py:63 */
  lemma Example63()
    ensures GetDescription("    [a] 23:30 06.02.2016 some description ") == "some description"
  {
    Line63Literal();
    Line63Description();
  }

  lemma Line64Joins1()
    ensures "    [a]" + "  " == "    [a]  "
    ensures "    [a]  " + T1 == "    [a]  23:30 06.02.2016"
  {
  }

  lemma Line64Joins2()
    ensures "    [a]  23:30 06.02.2016" + " " == "    [a]  23:30 06.02.2016 "
    ensures "    [a]  23:30 06.02.2016 " + "some description " == "    [a]  23:30 06.02.2016 some description "
  {
  }

  /** Line64 is the line main.py:64 writes. */
  lemma Line64Literal()
    ensures Line64 == "    [a]  23:30 06.02.2016 some description "
  {
    Line64Joins1();
    Line64Joins2();
  }

  /** main.py:64 */
  lemma Example64()
    ensures GetDescription("    [a]  23:30 06.02.2016 some description ") == "some description"
  {
    Line64Literal();
    Line64Description();
  }

  lemma Line65Joins1()
    ensures "    [a]" + " " == "    [a] "
    ensures "    [a] " + T1 == "    [a] 23:30 06.02.2016"
  {
  }

  lemma Line65Joins2()
    ensures "    [a] 23:30 06.02.2016" + "  " == "    [a] 23:30 06.02.2016  "
    ensures "    [a] 23:30 06.02.2016  " + "some description " == "    [a] 23:30 06.02.2016  some description "
  {
  }

  /** Line65 is the line main.py:65 writes. */
  lemma Line65Literal()
    ensures Line65 == "    [a] 23:30 06.02.2016  some description "
  {
    Line65Joins1();
    Line65Joins2();
  }

  /** main.py:65 */
  lemma Example65()
    ensures GetDescription("    [a] 23:30 06.02.2016  some description ") == "some description"
  {
    Line65Literal();
    Line65Description();
  }

  lemma Line67Joins1()
    ensures "    some [a]" + " " == "    some [a] "
    ensures "    some [a] " + T1 == "    some [a] 23:30 06.02.2016"
  {
  }

  lemma Line67Joins2()
    ensures "    some [a] 23:30 06.02.2016" + " " == "    some [a] 23:30 06.02.2016 "
    ensures "    some [a] 23:30 06.02.2016 " + "..." == "    some [a] 23:30 06.02.2016 ..."
  {
  }

  lemma Line67Joins3()
    ensures "    some [a] 23:30 06.02.2016 ..." + " " == "    some [a] 23:30 06.02.2016 ... "
    ensures "    some [a] 23:30 06.02.2016 ... " + T1 == "    some [a] 23:30 06.02.2016 ... 23:30 06.02.2016"
  {
  }

  lemma Line67Joins4()
    ensures "    some [a] 23:30 06.02.2016 ... 23:30 06.02.2016" + " " == "    some [a] 23:30 06.02.2016 ... 23:30 06.02.2016 "
    ensures "    some [a] 23:30 06.02.2016 ... 23:30 06.02.2016 " + "description" == "    some [a] 23:30 06.02.2016 ... 23:30 06.02.2016 description"
  {
  }

  /** Line67 is the line main.py:67 writes. */
  lemma Line67Literal()
    ensures Line67 == "    some [a] 23:30 06.02.2016 ... 23:30 06.02.2016 description"
  {
    Line67Joins1();
    Line67Joins2();
    Line67Joins3();
    Line67Joins4();
  }

  /** main.py:67 */
  lemma Example67()
    ensures GetDescription("    some [a] 23:30 06.02.2016 ... 23:30 06.02.2016 description") == "some ... description"
  {
    Line67Literal();
    Line67Description();
  }
}
