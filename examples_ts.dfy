/**
 * The conversions main.py:16-18 checks, the other timestamps the example
 * lines use, and impossible dates: the scanner reads them as timestamps,
 * the conversion refuses them.
 */
module TimestampExamples {
  import opened Wrappers
  import opened Text
  import opened Timestamp
  import opened Patterns

  const T1 := "23:30 06.02.2016"
  const T2 := "23:31 06.02.2016"
  const T3 := "2:30 09.02.2016"
  /** 30 February: in the layout, but not a date. */
  const BadDate := "23:30 30.02.2016"

  /** All four are strings group 1 of DATETIME_PAT captures. */
  lemma StampGroups()
    ensures IsStampGroup(T1) && IsStampGroup(T2) && IsStampGroup(T3) && IsStampGroup(BadDate)
  {
  }

  lemma TsExample1()
    ensures TsToDateTime("23:30 06.02.2016") == Ok(DateTime(2016, 2, 6, 23, 30))
  {
    var t := "23:30 06.02.2016";
    assert InLayout(t);
    assert Fields(t) == DateTime(2016, 2, 6, 23, 30);
    assert Strptime(t) == Ok(DateTime(2016, 2, 6, 23, 30));
    StripUnpadded(t);
  }

  lemma TsExample2()
    ensures TsToDateTime("1:10 06.02.2016") == Ok(DateTime(2016, 2, 6, 1, 10))
  {
    var t := "1:10 06.02.2016";
    assert InLayout(t);
    assert Fields(t) == DateTime(2016, 2, 6, 1, 10);
    assert Strptime(t) == Ok(DateTime(2016, 2, 6, 1, 10));
    StripUnpadded(t);
  }

  /** Whitespace around the timestamp is stripped first. */
  lemma TsExample3()
    ensures TsToDateTime(" 23:30 06.02.2016  ") == Ok(DateTime(2016, 2, 6, 23, 30))
  {
    TsExample1();
    assert " 23:30 06.02.2016  " == " " + "23:30 06.02.2016" + "  ";
    TsToDateTimePadded(" ", "23:30 06.02.2016", "  ");
  }

  lemma TsT1()
    ensures TsToDateTime(T1) == Ok(DateTime(2016, 2, 6, 23, 30))
  {
    TsExample1();
  }

  lemma TsT2()
    ensures TsToDateTime(T2) == Ok(DateTime(2016, 2, 6, 23, 31))
  {
    var t := "23:31 06.02.2016";
    assert InLayout(t);
    assert Fields(t) == DateTime(2016, 2, 6, 23, 31);
    assert Strptime(t) == Ok(DateTime(2016, 2, 6, 23, 31));
    StripUnpadded(t);
  }

  lemma TsT3()
    ensures TsToDateTime(T3) == Ok(DateTime(2016, 2, 9, 2, 30))
  {
    var t := "2:30 09.02.2016";
    assert InLayout(t);
    assert Fields(t) == DateTime(2016, 2, 9, 2, 30);
    assert Strptime(t) == Ok(DateTime(2016, 2, 9, 2, 30));
    StripUnpadded(t);
  }

  /** Month 19: the scanner captures it, `%m` does not accept it. */
  lemma BadMonth()
    ensures TsToDateTime("23:30 06.19.2016") == Err(FormatMismatch("23:30 06.19.2016"))
  {
    var t := "23:30 06.19.2016";
    assert InLayout(t);
    assert Fields(t) == DateTime(2016, 19, 6, 23, 30);
    StripUnpadded(t);
  }

  /** Day 39 fails `%d`. */
  lemma BadDay()
    ensures TsToDateTime("23:30 39.02.2016") == Err(FormatMismatch("23:30 39.02.2016"))
  {
    var t := "23:30 39.02.2016";
    assert InLayout(t) && Fields(t).day == 39;
    StripUnpadded(t);
  }

  /** Hour 29 fails `%H`. */
  lemma BadHour()
    ensures TsToDateTime("29:30 06.02.2016") == Err(FormatMismatch("29:30 06.02.2016"))
  {
    var t := "29:30 06.02.2016";
    assert InLayout(t) && Fields(t).hour == 29;
    StripUnpadded(t);
  }

  /** Minute 60 fails `%M`. */
  lemma BadMinute()
    ensures TsToDateTime("23:60 06.02.2016") == Err(FormatMismatch("23:60 06.02.2016"))
  {
    var t := "23:60 06.02.2016";
    assert InLayout(t) && Fields(t).minute == 60;
    StripUnpadded(t);
  }

  /** 30 February passes the directives and fails the calendar check. */
  lemma BadFebruary()
    ensures TsToDateTime(BadDate) == Err(DayOutOfRange)
  {
    var t := "23:30 30.02.2016";
    assert InLayout(t);
    assert Fields(t) == DateTime(2016, 2, 30, 23, 30);
    StripUnpadded(t);
  }
}
