/**
 * The subtask-line parser of main.py: `get_status_letter` (main.py:27-30),
 * `get_datetime_list` (main.py:40-41), `get_description` (main.py:54-57) and
 * `parse_subtask` (main.py:70-93), built on the two patterns and the
 * `findall` / `sub` scans.
 */
module Subtask {
  import opened Wrappers
  import opened Text
  import opened Timestamp
  import opened Patterns
  import opened Scan

  /** `STATUS_PAT.match(s, i)` */
  function StatusMatch(s: string, i: nat): Option<Match>
  {
    MatchAt(StatusPat, s, i)
  }

  /** `DATETIME_PAT.match(s, i)` */
  function DateTimeMatch(s: string, i: nat): Option<Match>
  {
    MatchAt(DateTimePat, s, i)
  }

  function MatcherOf(p: Pattern): Matcher
  {
    match p
    case StatusPat => StatusMatch
    case DateTimePat => DateTimeMatch
  }

  /** Neither pattern matches the empty string. */
  lemma MatchersAdvance()
    ensures Advances(StatusMatch) && Advances(DateTimeMatch)
  {
  }

  /** `STATUS_PAT.findall(s)`: the letters of all status flags, left to right. */
  function Flags(s: string): seq<string>
  {
    MatchersAdvance();
    FindAll(StatusMatch, s)
  }

  /** `get_status_letter`: the first group STATUS_PAT finds, or `None`. */
  function GetStatusLetter(s: string): Option<string>
  {
    var letters := Flags(s);
    if |letters| > 0 then Some(letters[0]) else None
  }

  /** A conversion that may raise, such as `ts_to_datetime`. */
  type Converter = string -> Result<DateTime, TimeError>

  /**
   * `map(f, groups)`: every group converted in order; the first one that
   * fails raises its error and the rest are not looked at.
   */
  function MapAll(f: Converter, groups: seq<string>): Result<seq<DateTime>, TimeError>
  {
    if groups == [] then Ok([])
    else match f(groups[0])
      case Err(e) => Err(e)
      case Ok(d) =>
        match MapAll(f, groups[1..])
        case Err(e) => Err(e)
        case Ok(ds) => Ok([d] + ds)
  }

  /** `DATETIME_PAT.findall(s)`: the timestamps in `s`, left to right. */
  function Stamps(s: string): seq<string>
  {
    MatchersAdvance();
    FindAll(DateTimeMatch, s)
  }

  /** `get_datetime_list` */
  function GetDateTimeList(s: string): Result<seq<DateTime>, TimeError>
  {
    MapAll(TsToDateTime, Stamps(s))
  }

  /** `DATETIME_PAT.sub(' ', s)`: every timestamp, with the whitespace around it, replaced by a space. */
  function Unstamped(s: string): string
  {
    MatchersAdvance();
    Sub(DateTimeMatch, s, " ")
  }

  /** `STATUS_PAT.sub(' ', s)`: every status flag, with the whitespace around it, replaced by a space. */
  function Unflagged(s: string): string
  {
    MatchersAdvance();
    Sub(StatusMatch, s, " ")
  }

  /** `get_description`: timestamps out, then status flags out, then strip. */
  function GetDescription(s: string): string
  {
    Strip(Unflagged(Unstamped(s)))
  }

  /** Every match of either pattern is longer than the one space that replaces it. */
  lemma MatchesOutgrowSpace()
    ensures LongerThan(StatusMatch, 1) && LongerThan(DateTimeMatch, 1)
  {
    forall s: string, i: nat | StatusMatch(s, i).Some?
      ensures i + 1 < StatusMatch(s, i).value.end
    {
      MatchIsGroup(StatusPat, s, i);
    }
    forall s: string, i: nat | DateTimeMatch(s, i).Some?
      ensures i + 1 < DateTimeMatch(s, i).value.end
    {
      MatchIsGroup(DateTimePat, s, i);
    }
  }

  /**
   * Each `sub` of `get_description` changes the text exactly when its
   * pattern is found in it, so a line with neither a timestamp nor a status
   * flag is only stripped.
   */
  lemma DescriptionOfPlainText(s: string)
    ensures Unstamped(s) == s <==> Stamps(s) == []
    ensures Unflagged(s) == s <==> Flags(s) == []
    ensures Stamps(s) == [] && Flags(s) == [] ==> GetDescription(s) == Strip(s)
  {
    MatchersAdvance();
    MatchesOutgrowSpace();
    SubUnchanged(DateTimeMatch, s, 0, " ");
    SubUnchanged(StatusMatch, s, 0, " ");
  }

  /**
   * Over a stretch of text where no match of `p` can start, ending in a
   * non-space or at the end of `s`, the scans of `p` find nothing and copy
   * the text.
   */
  lemma PlainSegment(p: Pattern, s: string, lo: nat, hi: nat, repl: string)
    requires lo <= hi <= |s|
    requires forall j :: lo <= j < hi ==> CannotStart(p, s, j)
    requires lo < hi < |s| ==> !IsSpace(s[hi - 1])
    ensures Advances(MatcherOf(p))
    ensures FindAllFrom(MatcherOf(p), s, lo) == FindAllFrom(MatcherOf(p), s, hi)
    ensures SubFrom(MatcherOf(p), s, lo, repl) == s[lo..hi] + SubFrom(MatcherOf(p), s, hi, repl)
  {
    MatchersAdvance();
    PlainNoMatch(p, s, lo, hi);
    SkipNoMatch(MatcherOf(p), s, lo, hi, repl);
  }

  /** The dictionary `parse_subtask` returns. */
  datatype Subtask = Subtask(
    status: Option<string>,
    lastChecked: Option<DateTime>,
    started: Option<DateTime>,
    ended: Option<DateTime>,
    desc: string)

  /**
   * What `parse_subtask` promises, field by field: the status letter, one
   * timestamp as `last checked`, two as `started` and `ended`, any other
   * number of them in no field; the description; or the error a timestamp
   * raised.
   */
  function SubtaskOf(s: string): Result<Subtask, TimeError>
  {
    match GetDateTimeList(s)
    case Err(e) => Err(e)
    case Ok(ds) =>
      Ok(Subtask(
        GetStatusLetter(s),
        if |ds| == 1 then Some(ds[0]) else None,
        if |ds| == 2 then Some(ds[0]) else None,
        if |ds| == 2 then Some(ds[1]) else None,
        GetDescription(s)))
  }

  /**
   * `parse_subtask`: start from the defaults, then overwrite the status,
   * the dates the count of timestamps selects, and the description.
   */
  method ParseSubtask(s: string) returns (r: Result<Subtask, TimeError>)
    ensures r == SubtaskOf(s)
  {
    var result := Subtask(None, None, None, None, "");
    result := result.(status := GetStatusLetter(s));
    var dates := GetDateTimeList(s);
    if dates.Err? {
      return Err(dates.error);
    }
    var ds := dates.value;
    if |ds| == 1 {
      result := result.(lastChecked := Some(ds[0]));
    } else if |ds| == 2 {
      result := result.(started := Some(ds[0]));
      result := result.(ended := Some(ds[1]));
    }
    result := result.(desc := GetDescription(s));
    return Ok(result);
  }

  /**
   * Only the leftmost status flag counts: the letter is group 1 of the
   * first position where STATUS_PAT matches, and there is none exactly
   * when STATUS_PAT matches nowhere.
   */
  lemma StatusLetterLeftmost(s: string)
    ensures GetStatusLetter(s).None? <==> NoMatchIn(StatusMatch, s, 0, |s|)
    ensures Search(StatusMatch, s, 0).Some? ==>
      var i := Search(StatusMatch, s, 0).value;
      i < |s| && StatusMatch(s, i).Some? && NoMatchIn(StatusMatch, s, 0, i) &&
      GetStatusLetter(s) == Some(StatusMatch(s, i).value.group)
  {
    MatchersAdvance();
    SearchLeftmost(StatusMatch, s, 0);
    match Search(StatusMatch, s, 0)
    case None =>
      SearchNone(StatusMatch, s, 0, " ");
    case Some(i) =>
      FindAllSearch(StatusMatch, s, 0, i, StatusMatch(s, i).value);
  }

  /** Every group `findall` returns is one the pattern's group can capture. */
  lemma {:induction false} FindAllGroups(p: Pattern, s: string, pos: nat)
    requires pos <= |s|
    ensures Advances(MatcherOf(p))
    ensures forall k :: 0 <= k < |FindAllFrom(MatcherOf(p), s, pos)| ==>
      IsGroup(p, FindAllFrom(MatcherOf(p), s, pos)[k])
    decreases |s| - pos
  {
    MatchersAdvance();
    var m := MatcherOf(p);
    if pos < |s| {
      match m(s, pos)
      case Some(k) =>
        MatchIsGroup(p, s, pos);
        FindAllGroups(p, s, k.end);
      case None =>
        FindAllGroups(p, s, pos + 1);
    }
  }

  /** The status letter is always one word character. */
  lemma StatusLetterIsWordChar(s: string)
    ensures GetStatusLetter(s).Some? ==>
      |GetStatusLetter(s).value| == 1 && IsWordChar(GetStatusLetter(s).value[0])
  {
    FindAllGroups(StatusPat, s, 0);
  }

  /**
   * `map` succeeds exactly when every group converts, and then lists the
   * conversions in order, one per group.
   */
  lemma {:induction false} MapAllOk(f: Converter, groups: seq<string>)
    ensures MapAll(f, groups).Ok? <==> forall k :: 0 <= k < |groups| ==> f(groups[k]).Ok?
    ensures MapAll(f, groups).Ok? ==>
      |MapAll(f, groups).value| == |groups| &&
      forall k :: 0 <= k < |groups| ==> f(groups[k]) == Ok(MapAll(f, groups).value[k])
  {
    if groups != [] {
      MapAllOk(f, groups[1..]);
      assert forall k :: 1 <= k < |groups| ==> groups[k] == groups[1..][k - 1];
    }
  }

  /** When `map` fails, it raises the error of the first group that does not convert. */
  lemma {:induction false} MapAllFirstError(f: Converter, groups: seq<string>) returns (k: nat)
    requires MapAll(f, groups).Err?
    ensures k < |groups| && f(groups[k]) == Err(MapAll(f, groups).error)
    ensures forall j :: 0 <= j < k ==> f(groups[j]).Ok?
  {
    if f(groups[0]).Err? {
      k := 0;
    } else {
      var k' := MapAllFirstError(f, groups[1..]);
      k := k' + 1;
      assert forall j :: 1 <= j < k ==> groups[j] == groups[1..][j - 1];
    }
  }

  /** Conversely, when every group converts, `map` returns their values, in order. */
  lemma {:induction false} MapAllOkValues(f: Converter, groups: seq<string>, values: seq<DateTime>)
    requires |values| == |groups|
    requires forall k :: 0 <= k < |groups| ==> f(groups[k]) == Ok(values[k])
    ensures MapAll(f, groups) == Ok(values)
  {
    if groups != [] {
      assert forall k :: 0 <= k < |groups| - 1 ==> groups[1..][k] == groups[k + 1];
      MapAllOkValues(f, groups[1..], values[1..]);
      assert values == [values[0]] + values[1..];
    }
  }

  /** Two groups that convert: `map` returns both values, in order. */
  lemma MapAllPair(f: Converter, g1: string, g2: string, v1: DateTime, v2: DateTime)
    requires f(g1) == Ok(v1) && f(g2) == Ok(v2)
    ensures MapAll(f, [g1, g2]) == Ok([v1, v2])
  {
    MapAllOkValues(f, [g1, g2], [v1, v2]);
  }

  /** And when the groups before `k` convert and group `k` does not, `map` raises its error. */
  lemma {:induction false} MapAllErrAt(f: Converter, groups: seq<string>, k: nat)
    requires k < |groups| && f(groups[k]).Err?
    requires forall j :: 0 <= j < k ==> f(groups[j]).Ok?
    ensures MapAll(f, groups) == Err(f(groups[k]).error)
  {
    if k > 0 {
      assert forall j :: 0 <= j < k - 1 ==> groups[1..][j] == groups[j + 1];
      MapAllErrAt(f, groups[1..], k - 1);
    }
  }

  /** Two groups, the first converts and the second does not: `map` raises the second one's error. */
  lemma MapAllPairErr(f: Converter, g1: string, g2: string, e: TimeError)
    requires f(g1).Ok? && f(g2) == Err(e)
    ensures MapAll(f, [g1, g2]) == Err(e)
  {
    MapAllErrAt(f, [g1, g2], 1);
  }

  /**
   * A captured timestamp has no surrounding whitespace and is in the layout,
   * so `ts_to_datetime` accepts it exactly when its fields form a valid
   * date-time, and then returns those fields.
   */
  lemma StampGroupConverts(g: string)
    requires IsStampGroup(g)
    ensures InLayout(g)
    ensures TsToDateTime(g).Ok? <==> Valid(Fields(g))
    ensures TsToDateTime(g).Ok? ==> TsToDateTime(g).value == Fields(g)
  {
    StampGroupInLayout(g);
    assert IsDigit(g[0]) && IsDigit(g[|g| - 1]);
    StripUnpadded(g);
  }

  /**
   * `get_datetime_list` succeeds exactly when every timestamp found is a
   * real date-time, and then returns their fields in the order found.
   */
  lemma DateTimeListOk(s: string)
    ensures var gs := Stamps(s);
      (GetDateTimeList(s).Ok? <==> forall k :: 0 <= k < |gs| ==> InLayout(gs[k]) && Valid(Fields(gs[k])))
    ensures var gs := Stamps(s);
      GetDateTimeList(s).Ok? ==>
        |GetDateTimeList(s).value| == |gs| &&
        forall k :: 0 <= k < |gs| ==> InLayout(gs[k]) && GetDateTimeList(s).value[k] == Fields(gs[k])
  {
    var gs := Stamps(s);
    FindAllGroups(DateTimePat, s, 0);
    MapAllOk(TsToDateTime, gs);
    forall k | 0 <= k < |gs|
      ensures InLayout(gs[k])
      ensures TsToDateTime(gs[k]).Ok? <==> Valid(Fields(gs[k]))
      ensures TsToDateTime(gs[k]).Ok? ==> TsToDateTime(gs[k]).value == Fields(gs[k])
    {
      StampGroupConverts(gs[k]);
    }
  }

  /**
   * The record by the number of timestamps: one fills `last checked`, two
   * fill `started` and `ended` in the order found, and none or three and
   * more leave all three empty. The status and the description do not
   * depend on the timestamps being valid.
   */
  lemma SubtaskFields(s: string)
    requires SubtaskOf(s).Ok?
    ensures var t, gs := SubtaskOf(s).value, Stamps(s);
      && t.status == GetStatusLetter(s)
      && t.desc == GetDescription(s)
      && (forall k :: 0 <= k < |gs| ==> InLayout(gs[k]) && Valid(Fields(gs[k])))
      && (|gs| == 1 ==> t.lastChecked == Some(Fields(gs[0])) && t.started == None && t.ended == None)
      && (|gs| == 2 ==> t.lastChecked == None && t.started == Some(Fields(gs[0])) && t.ended == Some(Fields(gs[1])))
      && (|gs| != 1 && |gs| != 2 ==> t.lastChecked == None && t.started == None && t.ended == None)
  {
    DateTimeListOk(s);
  }

  /**
   * An impossible timestamp anywhere in the line makes the whole parse
   * raise, with the error of the first one, and only then.
   */
  lemma SubtaskFails(s: string)
    ensures var gs := Stamps(s);
      SubtaskOf(s).Err? <==> exists k :: 0 <= k < |gs| && !(InLayout(gs[k]) && Valid(Fields(gs[k])))
    ensures SubtaskOf(s).Err? ==>
      var gs := Stamps(s);
      exists k :: 0 <= k < |gs| && TsToDateTime(gs[k]) == Err(SubtaskOf(s).error) &&
        forall j :: 0 <= j < k ==> TsToDateTime(gs[j]).Ok?
  {
    DateTimeListOk(s);
    if SubtaskOf(s).Err? {
      var k := MapAllFirstError(TsToDateTime, Stamps(s));
    }
  }
}
