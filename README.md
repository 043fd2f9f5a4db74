# Subtask lines of a notepad.exe todo file, in Dafny

`main.py` of the `txt` repository reads todo notes kept in Windows notepad.exe.
In those notes, F5 inserts a timestamp such as `23:30 06.02.2016`. An indented
line is a subtask. Such a line can carry three things:

- a status flag: one letter in brackets, such as `[s]`;
- no timestamp, one or two;
- free text.

`parse_subtask` turns one such line into a record with five fields:
`status`, `last checked`, `started`, `ended` and `desc`.

This project models that parser and proves what it does:

- `ts_to_datetime`: the timestamp conversion, `strptime` on the stripped
  string.
- `STATUS_PAT` and `DATETIME_PAT`: the two compiled patterns. Each is written
  as the matcher the regular-expression engine amounts to for that pattern.
- `findall` and `sub`: the scans the parser runs those patterns with.
- `get_status_letter`, `get_datetime_list`, `get_description` and
  `parse_subtask`.

The modules follow the layers of the parser:

- `Text`: the character classes `\s`, `\d` and `\w`, and `str.strip()`.
- `Timestamp`: `ts_to_datetime`, the calendar checks of `datetime`, and the
  stamp notepad.exe writes.
- `Patterns`: the two patterns, each with the exact shape of the text it
  matches (soundness and completeness).
- `Scan`: `findall` and `sub` as specification functions, the scanning loops
  proved against them, and their relation to `search`, the leftmost match.
- `Subtask`: the four functions of the parser and the record.
- `Lines`: the scans worked out for any line made of plain stretches and
  tokens.
- `TimestampExamples`, `StatusExamples`, `LineExamples` and `RecordExamples`:
  every check the module makes at import time, on its own literal strings.
  Some further cases are added, such as an impossible date.

`findall` and `sub` are loops in the library, and `parse_subtask` builds its
dictionary step by step. These are methods, proved equal to the specification
functions:

- `Scan.FindAllScan` and `Scan.SubScan` for the two scans;
- `Subtask.ParseSubtask` for the record, against `Subtask.SubtaskOf`.

The rest of the source is expressions and calls, and is modelled as functions.

The source is Python 2, so strings are byte strings:

- `\s` and `strip` mean the six ASCII whitespace characters.
- `\w` means `[A-Za-z0-9_]`.
- `map` returns a list.

Where the code and the repository's documentation differ, the model follows
the code:

- With three or more timestamps, `parse_subtask` fills none of the three date
  fields (main.py:84-88). The rules in the comment at main.py:101-103 name
  only the cases of one and of two timestamps. Reading them as "the first two
  become `started` and `ended`" does not match the code.
- `get_description` is not idempotent. In `[[a]b]` STATUS_PAT matches `[a]`,
  which leaves `[ b]`. A second pass would strip that to an empty string.

## Model

| member | source | states |
|---|---|---|
| Text.SpaceEnd | main.py:21 | a greedy `\s*` at `i` stops within the string, at the end or at a non-whitespace character |
| Text.SpaceEndAt | main.py:21 | a run of whitespace followed by the end or by a non-whitespace character is exactly what `\s*` takes |
| Text.Strip | main.py:57 | what `strip` returns neither starts nor ends with whitespace |
| Text.StripUnique | main.py:57 | for any split of a string into whitespace, a middle with non-whitespace ends, and whitespace, `strip` returns that middle |
| Text.StripIsInfix | main.py:57 | conversely, what `strip` returns is such a middle: a slice of the input with only whitespace before and after it |
| Text.StripPadded | main.py:14 | adding whitespace around a string never changes what `strip` returns |
| Text.StripUnpadded | main.py:14 | text that neither starts nor ends with whitespace is left unchanged |
| Timestamp.Strptime | main.py:14 | `strptime` with `'%H:%M %d.%m.%Y'` succeeds exactly on strings in the layout whose fields form a valid date-time, and then returns those fields |
| Timestamp.TsToDateTime | main.py:13-14 | `ts_to_datetime` succeeds exactly when the stripped string is in the layout and its fields are a valid date-time; the result is that date-time |
| Timestamp.TsToDateTimePadded | main.py:18 | surrounding whitespace never changes the result of `ts_to_datetime`, success or error |
| Timestamp.StampFields | main.py:4 | the stamp notepad.exe writes for a valid date-time is in the layout, and its fields are that date-time |
| Timestamp.StampRoundTrip | main.py:13-14 | every valid date-time, stamped as notepad.exe writes it, is read back unchanged by `ts_to_datetime` |
| Patterns.StatusAtSound | main.py:21 | every STATUS_PAT match is whitespace, `[`, whitespace, one word character, whitespace, `]`, whitespace, running to a non-whitespace character or the end; group 1 is that word character |
| Patterns.StatusAtComplete | main.py:21 | wherever the text has that shape, STATUS_PAT matches all of it and captures the word character |
| Patterns.DateTimeAtSound | main.py:24 | every DATETIME_PAT match is whitespace, a 15- or 16-character timestamp, and whitespace; group 1 is that timestamp |
| Patterns.DateTimeAtComplete | main.py:24 | wherever the text has that shape, DATETIME_PAT matches all of it; a one-digit hour is found even though the two-digit hour is tried first |
| Patterns.MatchIsGroup | main.py:20-24 | group 1 is one word character, or a timestamp; a status match spans at least three characters, a timestamp match at least fifteen |
| Patterns.BlockedNoMatch | main.py:21-24 | no match starts where the first character after the whitespace cannot open one or cannot be followed as found |
| Patterns.PlainNoMatch | main.py:21-24 | no match starts anywhere in a stretch of such characters that ends the text or ends in a non-whitespace character |
| Patterns.StampGroupInLayout | main.py:24 | every string DATETIME_PAT captures is in the layout `ts_to_datetime` reads |
| Patterns.StampIsCaptured | main.py:23-24 | every timestamp notepad.exe writes is a string DATETIME_PAT captures |
| Scan.FindAllFrom | main.py:28 | `findall` returns at most one group per character of the text |
| Scan.FindAllScan | main.py:28 | the scanning loop of `findall` returns the groups `FindAll` specifies |
| Scan.SubScan | main.py:55-56 | the scanning loop of `sub` builds the text `Sub` specifies |
| Scan.SearchLeftmost | main.py:28 | `search` finds a match start with no match start before it, and finds nothing exactly when no match starts anywhere |
| Scan.FindAllSearch | main.py:28 | `findall` lists the group of the leftmost match first, then what it finds after that match |
| Scan.SearchNone | main.py:28 | where no match starts, `findall` finds nothing and `sub` returns the text unchanged |
| Scan.SubSearch | main.py:55 | `sub` keeps the text before the leftmost match, puts the replacement in its place and goes on after it |
| Scan.SkipNoMatch | main.py:55 | over a stretch where no match starts, `findall` finds nothing and `sub` copies the text |
| Scan.SubShrinks | main.py:55-56 | when every match is longer than the replacement, each group found shortens the text by at least one character |
| Scan.SubUnchanged | main.py:55-56 | with such a replacement, `sub` leaves the text unchanged exactly when `findall` finds nothing |
| Subtask.MatchersAdvance | main.py:21-24 | neither pattern matches the empty string: each match ends after where it starts, within the text |
| Subtask.MatchesOutgrowSpace | main.py:55-56 | every match of either pattern is longer than the single space `get_description` puts in its place |
| Subtask.DescriptionOfPlainText | main.py:54-57 | each `sub` of `get_description` changes the line exactly when its pattern is found; a line without flags and timestamps is only stripped |
| Subtask.PlainSegment | main.py:54-56 | over a stretch where no match of a pattern can start, its scans find nothing and copy the text |
| Subtask.StatusLetterLeftmost | main.py:27-32 | the status is group 1 of the leftmost STATUS_PAT match; there is none exactly when STATUS_PAT matches nowhere; later flags are skipped |
| Subtask.FindAllGroups | main.py:28 | every group `findall` returns is one the pattern's group can capture |
| Subtask.StatusLetterIsWordChar | main.py:20-30 | a status letter is always exactly one word character |
| Subtask.MapAllOk | main.py:41 | `map` succeeds exactly when every group converts, and then returns one value per group, in order |
| Subtask.MapAllFirstError | main.py:41 | when `map` fails it raises the error of the first group that does not convert, every group before it converting |
| Subtask.MapAllOkValues | main.py:41 | when every group converts to a given value, `map` returns those values in order |
| Subtask.MapAllErrAt | main.py:41 | when the groups before one convert and that one fails, `map` raises its error |
| Subtask.StampGroupConverts | main.py:41 | a captured timestamp converts exactly when its fields are a valid date-time, and to those fields |
| Subtask.DateTimeListOk | main.py:40-41 | `get_datetime_list` succeeds exactly when every timestamp in the line is a real date-time, and then returns their fields in the order found |
| Subtask.ParseSubtask | main.py:70-93 | `parse_subtask` returns the record `SubtaskOf` gives, or the error raised while converting a timestamp |
| Subtask.SubtaskFields | main.py:79-91 | the record holds the status letter and the description; one timestamp fills `last checked` only, two fill `started` and `ended` in order, any other count fills none |
| Subtask.SubtaskFails | main.py:83 | parsing fails exactly when some timestamp in the line is not a real date-time; the error is that of the first timestamp that fails |
| Lines.TakeStamp | main.py:41 | the scans of DATETIME_PAT take a timestamp and its surrounding whitespace whole, then go on after it |
| Lines.TakeFlag | main.py:56 | the scans of STATUS_PAT take a flag and its surrounding whitespace whole, then go on after it |
| Lines.OneStampLine | main.py:41-55 | in a line with one timestamp between plain stretches, `findall` finds that timestamp alone; `sub` joins the two sides with one space |
| Lines.TwoStampLine | main.py:41-55 | with two such timestamps, `findall` finds both in order; `sub` leaves the three stretches, one space in place of each timestamp |
| Lines.OneFlagLine | main.py:56 | in a line with one flag between plain stretches, `findall` finds its letter alone; `sub` joins the two sides with one space |
| Lines.StatusLetterAt | main.py:27-30 | where no flag starts before a flag, that flag's letter is the status |
| TimestampExamples.StampGroups | main.py:24 | the four timestamps of the examples, 30 February included, are strings DATETIME_PAT captures |
| TimestampExamples.TsExample1 | main.py:16 | `ts_to_datetime('23:30 06.02.2016')` is 6 February 2016, 23:30 |
| TimestampExamples.TsExample2 | main.py:17 | `ts_to_datetime('1:10 06.02.2016')` is 6 February 2016, 1:10 |
| TimestampExamples.TsExample3 | main.py:18 | `ts_to_datetime(' 23:30 06.02.2016  ')` is 6 February 2016, 23:30 |
| TimestampExamples.BadMonth | main.py:14 | month 19 fails to match the format |
| TimestampExamples.BadDay | main.py:14 | day 39 fails to match the format |
| TimestampExamples.BadHour | main.py:14 | hour 29 fails to match the format |
| TimestampExamples.BadMinute | main.py:14 | minute 60 fails to match the format |
| TimestampExamples.BadFebruary | main.py:14 | 30 February matches the format, then fails as a day out of range for its month |
| StatusExamples.StatusExample1 | main.py:33-34 | `[s] [z]` and `[s][z]` have status `s`: only the first flag counts |
| StatusExamples.StatusExample2 | main.py:35 | `dd [] sdff [s]  [z]` has status `s`: empty brackets are no flag |
| StatusExamples.StatusExample3 | main.py:36 | `dd [1] sdff [s]  [z]` has status `1`, not `s`: a digit is a word character |
| StatusExamples.StatusExample4 | main.py:37 | `[abc]` has no status: more than one character in brackets is no flag |
| LineExamples.Example44 | main.py:44 | one timestamp in the line gives a one-element list |
| LineExamples.Example50 | main.py:50 | two adjacent timestamps give both, in order |
| LineExamples.Example51 | main.py:51 | two timestamps with text between them give both, in order |
| LineExamples.Example59 | main.py:59 | the flag and the timestamp come out, and the words on either side are joined by one space |
| LineExamples.Example60 | main.py:60 | two adjacent timestamps come out as well |
| LineExamples.Example61 | main.py:61 | a flag at the start of the text comes out |
| LineExamples.Example62 | main.py:62 | a flag followed by a timestamp comes out |
| LineExamples.Example63 | main.py:63 | trailing whitespace is stripped |
| LineExamples.Example64 | main.py:64 | extra whitespace before the timestamp goes with it |
| LineExamples.Example65 | main.py:65 | extra whitespace after the timestamp goes with it |
| LineExamples.Example67 | main.py:67 | text between two timestamps, `...`, stays in the description |
| RecordExamples.Example120 | main.py:120 | the line with `...` between its timestamps is not parsed to the sample record; its description keeps `...` |
| RecordExamples.Example121 | main.py:121 | the line with status, two timestamps and text is parsed to the sample record |
| RecordExamples.Example122 | main.py:122 | with the text before the timestamps, it is parsed to the sample record |
| RecordExamples.Example124 | main.py:124 | with extra whitespace throughout, it is parsed to the sample record |
| RecordExamples.LineBadDates | main.py:41 | a line whose second timestamp is 30 February: `get_datetime_list` raises the day-out-of-range error |
| RecordExamples.LineBadRecord | main.py:83 | and parsing that line fails with that error |

## Left out

- A general regular-expression engine. Only the two patterns of main.py are
  modelled, each as the matcher the engine amounts to for it.
- The pattern parameters are not modelled as parameters. `get_status_letter`,
  `get_datetime_list` and `get_description` take their patterns as default
  arguments, and the model fixes them to STATUS_PAT and DATETIME_PAT. `Scan`
  itself works for any matcher that never matches the empty string.
- The library's rule for empty matches in `findall` and `sub`. Neither
  pattern can match the empty string, so the rule never applies.
- Timestamp.Strptime: accepts only the fixed digit layout of DATETIME_PAT's
  group. Python's `strptime` also accepts forms such as a one-digit minute or
  month. `get_datetime_list` never passes such a string, because DATETIME_PAT
  captures only the fixed layout.
- The text of the `ValueError` messages. An error keeps only its kind and,
  for a format mismatch, the string.
- Unicode strings and locales. The code runs on Python 2 byte strings, so the
  character classes are ASCII.
- The parsing rules written as comments and the `doc2` sample (main.py:96-109).
  Title lines and grouping subtasks under titles are not part of this model.
- The YAML part at the end of main.py, after main.py:128. It is marked for
  deletion and is not part of this model.
- Reading files and any other I/O. The parser only works on strings it is
  given.
- The example lines are defined as joins of their pieces, which is the form
  the scan lemmas work on. A lemma per line proves each join equal to the
  literal string main.py writes, and the `Example` lemmas state each check on
  that literal.
