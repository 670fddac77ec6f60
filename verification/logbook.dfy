/** The log file the dashboards' job runners write and their history views
    read back. `logging.basicConfig(format="%(asctime)s [%(levelname)s]
    %(message)s")` renders each message as one line; the instants of the
    two log calls are inputs. */
module Logbook {
  import opened Base
  import opened Text
  import opened Clock
  import opened History
  import opened JobService

  /** The two levels the runners log at: `logging.info` and `logging.error`. */
  datatype Level = Info | Failure

  function LevelName(l: Level): string {
    match l
    case Info => "INFO"
    case Failure => "ERROR"
  }

  predicate IsDigit(c: char) {
    '0' <= c <= '9'
  }

  /** `%(asctime)s`: the date-time to the second, a comma, the milliseconds. */
  function AscTime(d: DateTime, millis: int): (r: string)
    requires 0 <= millis < 1000
    ensures |r| == 23 && r[19] == ','
    ensures r[..19] == FormatSeconds(d) && r[20..] == Pad3(millis)
  {
    FormatSeconds(d) + "," + Pad3(millis)
  }

  /** Everything before the message on a line. */
  function Prefix(d: DateTime, millis: int, level: Level): (r: string)
    requires 0 <= millis < 1000
    ensures |r| == 27 + |LevelName(level)| && r[..23] == AscTime(d, millis)
  {
    AscTime(d, millis) + " [" + LevelName(level) + "] "
  }

  /** The line one log call appends to the file. */
  function LogLine(d: DateTime, millis: int, level: Level, msg: string): string
    requires 0 <= millis < 1000
  {
    Prefix(d, millis, level) + msg + "\n"
  }

  /** A log line holds the timestamp in its first 23 characters, then the
      level tag, then the message up to the final newline; a message
      without line breaks makes it one record of `readlines()`. */
  lemma LogLineShape(d: DateTime, millis: int, level: Level, msg: string)
    requires 0 <= millis < 1000
    ensures var r := LogLine(d, millis, level, msg);
      && |r| == 28 + |LevelName(level)| + |msg|
      && r[..23] == AscTime(d, millis) && r[23..27 + |LevelName(level)|] == " [" + LevelName(level) + "] "
      && r[27 + |LevelName(level)|..|r| - 1] == msg && r[|r| - 1] == '\n'
      && (NoBreak(msg) ==> SingleRecord(r))
  {
    var r := LogLine(d, millis, level, msg);
    var p := Prefix(d, millis, level);
    PrefixNoBreak(d, millis, level);
    assert r[..|r| - 1] == p + msg;
    assert r[..23] == p[..23];
    assert r[23..27 + |LevelName(level)|] == p[23..];
  }

  /** No character of `m` ends a line when the file is read back in text
      mode, where `\r` counts as a line end too. */
  predicate NoBreak(m: string) {
    '\n' !in m && '\r' !in m
  }

  /** A text that `readlines()` returns whole: it ends with the only line
      break it holds. */
  predicate SingleRecord(line: string) {
    |line| > 0 && line[|line| - 1] == '\n' && NoBreak(line[..|line| - 1])
  }

  /** The records, joined back together. */
  function Concat(lines: seq<string>): string {
    if |lines| == 0 then [] else lines[0] + Concat(lines[1..])
  }

  /** The index of the first `\n` of `s`, or its last index when it has
      none. */
  function LineEnd(s: string): (i: nat)
    requires |s| > 0
    ensures i < |s| && '\n' !in s[..i]
    ensures s[i] == '\n' || i == |s| - 1
  {
    if s[0] == '\n' || |s| == 1 then 0
    else
      var j := LineEnd(s[1..]);
      assert s[..j + 1] == [s[0]] + s[1..][..j];
      j + 1
  }

  /** `f.readlines()`: each record runs up to and including a `\n`; the last
      one may lack it. The text is taken as read in text mode, with every
      line end already a `\n`. */
  function ReadLines(s: string): (lines: seq<string>)
    decreases |s|
    ensures Concat(lines) == s
    ensures forall k :: 0 <= k < |lines| ==> |lines[k]| > 0
  {
    if |s| == 0 then []
    else
      var i := LineEnd(s);
      assert s == s[..i + 1] + s[i + 1..];
      [s[..i + 1]] + ReadLines(s[i + 1..])
  }

  /** A single record at the front of a text is read as one record, and the
      rest of the text is read on its own. */
  lemma ReadLinesRecord(line: string, rest: string)
    requires SingleRecord(line)
    ensures ReadLines(line + rest) == [line] + ReadLines(rest)
  {
    var s := line + rest;
    var i := LineEnd(s);
    var n := |line| - 1;
    assert s[n] == '\n';
    assert s[..i + 1] == line;
    assert s[i + 1..] == rest;
  }

  /** A text that ends where a record ends: empty, or closed by a line
      break. */
  predicate EndsLine(s: string) {
    |s| == 0 || s[|s| - 1] == '\n'
  }

  /** A `\n` before which the text holds none is where the first record
      ends. */
  lemma LineEndAt(s: string, j: nat)
    requires j < |s| && s[j] == '\n' && '\n' !in s[..j]
    ensures LineEnd(s) == j
  {
    var k := LineEnd(s);
    assert forall i :: 0 <= i < j ==> s[..j][i] == s[i];
    assert forall i :: 0 <= i < k ==> s[..k][i] == s[i];
  }

  /** The first record of a text closed by a line break ends inside it,
      whatever follows, and what is left of it is still closed. */
  lemma LineEndJoin(a: string, b: string)
    requires |a| > 0 && EndsLine(a)
    ensures var i := LineEnd(a);
      && LineEnd(a + b) == i
      && (a + b)[..i + 1] == a[..i + 1] && (a + b)[i + 1..] == a[i + 1..] + b
      && EndsLine(a[i + 1..])
  {
    var s := a + b;
    var i := LineEnd(a);
    assert s[..i] == a[..i];
    LineEndAt(s, i);
    assert s[..i + 1] == a[..i + 1];
    assert s[i + 1..] == a[i + 1..] + b;
    assert |a[i + 1..]| > 0 ==> a[i + 1..][|a[i + 1..]| - 1] == a[|a| - 1];
  }

  /** One record taken off the front. */
  lemma ReadLinesStep(s: string)
    requires |s| > 0
    ensures ReadLines(s) == [s[..LineEnd(s) + 1]] + ReadLines(s[LineEnd(s) + 1..])
  {
  }

  /** Reading a text closed by a line break and then another is reading
      each on its own. */
  lemma {:induction false} ReadLinesAppend(a: string, b: string)
    requires EndsLine(a)
    ensures ReadLines(a + b) == ReadLines(a) + ReadLines(b)
    decreases |a|
  {
    if |a| == 0 {
      assert a + b == b;
    } else {
      var i := LineEnd(a);
      LineEndJoin(a, b);
      ReadLinesAppend(a[i + 1..], b);
      ReadLinesStep(a);
      ReadLinesStep(a + b);
      ConsAssoc(a[..i + 1], ReadLines(a[i + 1..]), ReadLines(b));
    }
  }

  lemma ConsAssoc<T>(x: T, p: seq<T>, q: seq<T>)
    ensures [x] + (p + q) == ([x] + p) + q
  {
  }

  /** What a run logs between its journal's start and end lines, as far as
      the history views are concerned: whole records, none of which
      mentions a job marker. */
  predicate Quiet(text: string) {
    EndsLine(text) && forall k :: 0 <= k < |ReadLines(text)| ==> !Listed(ReadLines(text)[k])
  }

  /** A line whose prefix holds no 'J' and no line break, and whose message
      holds no line break and no job marker, is quiet. */
  lemma QuietLine(pre: string, msg: string)
    requires 'J' !in pre && NoBreak(pre) && NoBreak(msg) && !Listed(msg)
    ensures Quiet(pre + msg + "\n")
  {
    var r := pre + msg + "\n";
    assert r[..|r| - 1] == pre + msg;
    ReadOne(r);
    assert r == pre + (msg + "\n");
    UnmarkedLine(pre, msg, "Job Started");
    UnmarkedLine(pre, msg, "Job Completed Successfully");
    UnmarkedLine(pre, msg, "Job Failed");
  }

  /** A single record is read as itself. */
  lemma ReadOne(r: string)
    requires SingleRecord(r)
    ensures ReadLines(r) == [r] && EndsLine(r)
  {
    ReadLinesRecord(r, []);
    assert r + [] == r;
  }

  /** Whatever the run logs through the root logger, at any of the levels
      it uses, is quiet when its message holds no line break and no job
      marker. */
  lemma QuietRunLine(d: DateTime, millis: int, levelName: string, msg: string)
    requires 0 <= millis < 1000 && levelName in {"INFO", "WARNING", "ERROR", "CRITICAL"}
    requires NoBreak(msg) && !Listed(msg)
    ensures Quiet(AscTime(d, millis) + " [" + levelName + "] " + msg + "\n")
  {
    var a := AscTime(d, millis);
    AscTimeShape(d, millis);
    assert 'J' !in a && NoBreak(a);
    assert 'J' !in levelName && NoBreak(levelName);
    var pre := a + " [" + levelName + "] ";
    assert 'J' !in pre && NoBreak(pre);
    QuietLine(pre, msg);
  }

  lemma UnmarkedLine(pre: string, msg: string, marker: string)
    requires 'J' !in pre && !Contains(msg, marker) && |marker| > 0 && marker[0] == 'J' && '\n' !in marker
    ensures !Contains(pre + (msg + "\n"), marker)
  {
    NotContainsBeforeBreak(msg, marker);
    NotContainsAfterFree(pre, msg + "\n", marker);
  }

  /** Quiet texts logged one after the other stay quiet. */
  lemma QuietJoin(a: string, b: string)
    requires Quiet(a) && Quiet(b)
    ensures Quiet(a + b)
  {
    ReadLinesAppend(a, b);
    UnlistedJoin(ReadLines(a), ReadLines(b));
    EndsLineJoin(a, b);
  }

  lemma UnlistedJoin(p: seq<string>, q: seq<string>)
    requires forall k :: 0 <= k < |p| ==> !Listed(p[k])
    requires forall k :: 0 <= k < |q| ==> !Listed(q[k])
    ensures forall k :: 0 <= k < |p + q| ==> !Listed((p + q)[k])
  {
    forall k | 0 <= k < |p + q|
      ensures !Listed((p + q)[k])
    {
      if k >= |p| {
        assert (p + q)[k] == q[k - |p|];
      }
    }
  }

  lemma EndsLineJoin(a: string, b: string)
    requires EndsLine(a) && EndsLine(b)
    ensures EndsLine(a + b)
  {
    if |b| == 0 {
      assert a + b == a;
    } else {
      assert (a + b)[|a + b| - 1] == b[|b| - 1];
    }
  }

  /** The part of a line before the message holds no line break. */
  lemma PrefixNoBreak(d: DateTime, millis: int, level: Level)
    requires 0 <= millis < 1000
    ensures NoBreak(Prefix(d, millis, level))
  {
    var a := AscTime(d, millis);
    AscTimeShape(d, millis);
    assert '\n' !in a && '\r' !in a;
    assert NoBreak(LevelName(level));
    assert Prefix(d, millis, level) == a + " [" + LevelName(level) + "] ";
  }

  /** A clock type as the dashboards pass it: a non-empty lower-case word. */
  predicate PlainWord(w: string) {
    |w| > 0 && forall i :: 0 <= i < |w| ==> 'a' <= w[i] <= 'z'
  }

  /** An error text the history views read back, up to surrounding
      whitespace: no line break that would split it over two records, and
      no job marker that would make them take its line for a start, a
      completion, or a failure whose text ends earlier. */
  predicate Readable(m: string) {
    NoBreak(m) && !Contains(m, "Job Started") && !Contains(m, "Job Completed Successfully")
    && !Contains(m, "Job Failed:")
  }

  /** The characters of a timestamp: digits and the separators `-`, ` `,
      `:` and `,`; the comma comes only before the milliseconds. */
  lemma AscTimeShape(d: DateTime, millis: int)
    requires 0 <= millis < 1000
    ensures forall c :: c in AscTime(d, millis) ==> IsDigit(c) || c in "-: ,"
    ensures IsDigit(AscTime(d, millis)[0]) && IsDigit(AscTime(d, millis)[22])
    ensures forall j :: 0 <= j < 23 && j != 19 ==> AscTime(d, millis)[j] != ','
  {
    var a := AscTime(d, millis);
    var secs := FormatSeconds(d);
    assert forall c :: c in Pad2(d.month) ==> IsDigit(c);
    assert forall c :: c in Pad4(d.year) ==> IsDigit(c);
    assert forall c :: c in Pad3(millis) ==> IsDigit(c);
    assert forall c :: c in secs ==> IsDigit(c) || c in "-: ";
    assert a[0] == Pad4(d.year)[0];
    assert a[22] == Pad3(millis)[2];
    Lone(a, 19, ',');
  }

  /** The first `[` of a line opens the level tag. */
  lemma LevelTagSplit(d: DateTime, millis: int, level: Level, msg: string)
    requires 0 <= millis < 1000
    ensures Split(LogLine(d, millis, level, msg), "[")[0] == AscTime(d, millis) + " "
  {
    var a := AscTime(d, millis);
    var tail := "[" + LevelName(level) + "] " + msg + "\n";
    AscTimeShape(d, millis);
    assert LogLine(d, millis, level, msg) == (a + " ") + tail;
    SplitAtHead(a + " ", tail, "[");
  }

  /** A timestamp is already stripped. */
  lemma StampTrimmed(d: DateTime, millis: int)
    requires 0 <= millis < 1000
    ensures Strip(AscTime(d, millis) + " ") == AscTime(d, millis)
  {
    var a := AscTime(d, millis);
    AscTimeShape(d, millis);
    assert !IsSpace(a[0]) && !IsSpace(a[22]);
    StripAround("", a, " ");
    assert "" + a + " " == a + " ";
  }

  /** Both views find the timestamp in front of the level tag. */
  lemma TimestampOfLine(d: DateTime, millis: int, level: Level, msg: string)
    requires 0 <= millis < 1000
    ensures TimestampText(LogLine(d, millis, level, msg)) == AscTime(d, millis)
  {
    LevelTagSplit(d, millis, level, msg);
    StampTrimmed(d, millis);
  }

  /** The text before the timestamp's comma is the instant to the second. */
  lemma SecondsOfTimestamp(d: DateTime, millis: int)
    requires 0 <= millis < 1000
    ensures Split(AscTime(d, millis), ",")[0] == FormatSeconds(d)
  {
    AscTimeShape(d, millis);
    SplitAtOnly(AscTime(d, millis), ",", 19);
  }

  /** The aggregator parses back the instant of the log call, to the second. */
  lemma StampReadsBack(d: DateTime, millis: int, level: Level, msg: string, parse: StampParser)
    requires 0 <= millis < 1000 && ReadsBackFormat(parse)
    ensures LineStamp(LogLine(d, millis, level, msg), parse) == Some(d.(micro := 0))
  {
    TimestampOfLine(d, millis, level, msg);
    SecondsOfTimestamp(d, millis);
  }

  /** The part of a line before the message holds no 'J'. */
  lemma PrefixFree(d: DateTime, millis: int, level: Level)
    requires 0 <= millis < 1000
    ensures 'J' !in Prefix(d, millis, level)
  {
    var a := AscTime(d, millis);
    AscTimeShape(d, millis);
    assert 'J' !in a;
    assert 'J' !in LevelName(level);
    assert Prefix(d, millis, level) == a + " [" + LevelName(level) + "] ";
  }

  /** A marker that opens the message is found, and splits the line into
      what comes before the message and what follows the marker. The only
      'J' of the line must be the marker's. */
  lemma MarkerOpens(pre: string, marker: string, rest: string)
    requires |marker| > 0 && marker[0] == 'J'
    requires 'J' !in pre && 'J' !in marker[1..] && 'J' !in rest
    ensures Contains(pre + marker + rest + "\n", marker)
    ensures Split(pre + marker + rest + "\n", marker) == [pre, rest + "\n"]
  {
    var line := pre + marker + rest + "\n";
    assert line[..|pre|] == pre;
    assert line[|pre| + 1..] == marker[1..] + rest + "\n";
    assert line[|pre|..|pre| + |marker|] == marker;
    Lone(line, |pre|, 'J');
    SplitAtOnly(line, marker, |pre|);
    assert line[..|pre|] == pre;
    assert line[|pre| + |marker|..] == rest + "\n";
  }

  /** The same, for a message given whole. */
  lemma MarkerFound(pre: string, msg: string, marker: string, rest: string)
    requires msg == marker + rest && |marker| > 0 && marker[0] == 'J'
    requires 'J' !in pre && 'J' !in marker[1..] && 'J' !in rest
    ensures Contains(pre + msg + "\n", marker)
    ensures Split(pre + msg + "\n", marker) == [pre, rest + "\n"]
  {
    LineRegroups(pre, marker, rest);
    MarkerOpens(pre, marker, rest);
  }

  /** Regrouping a line around the message's first part. */
  lemma LineRegroups(pre: string, marker: string, rest: string)
    ensures pre + (marker + rest) + "\n" == pre + marker + rest + "\n"
  {
  }

  /** A marker that differs from the message at position `k` is not found
      anywhere on a line whose only 'J' opens the message. */
  lemma MarkerMissing(pre: string, msg: string, marker: string, k: nat)
    requires |msg| > 0 && msg[0] == 'J' && 'J' !in pre && 'J' !in msg[1..]
    requires |marker| > 0 && marker[0] == 'J'
    requires k < |marker| && k < |msg| && msg[k] != marker[k]
    ensures !Contains(pre + msg + "\n", marker)
  {
    var line := pre + msg + "\n";
    assert line[..|pre|] == pre;
    assert line[|pre| + 1..] == msg[1..] + "\n";
    Lone(line, |pre|, 'J');
    assert line[|pre| + k] == msg[k];
    NotContainsExcept(line, marker, |pre|);
  }

  /** `f" {clock_type} (Dry={is_dry_run})"` after the start marker. */
  function Desc(w: string, dryRun: bool): string {
    w + " (Dry=" + PyBool(dryRun) + ")"
  }

  /** The description, stripped of the space after the colon and of the
      newline, comes back unchanged. */
  lemma DescTrimmed(w: string, dryRun: bool)
    requires PlainWord(w)
    ensures Strip(" " + Desc(w, dryRun) + "\n") == Desc(w, dryRun)
  {
    var desc := Desc(w, dryRun);
    assert !IsSpace(desc[0]) && !IsSpace(desc[|desc| - 1]);
    StripAround(" ", desc, "\n");
  }

  /** A start message opens a job. */
  lemma StartLineOpens(pre: string, w: string, dryRun: bool)
    requires 'J' !in pre && PlainWord(w)
    ensures Contains(pre + StartMessage(w, dryRun) + "\n", "Job Started")
  {
    var desc := Desc(w, dryRun);
    DescHasNoJ(w, dryRun);
    StartHeadsDesc(w, dryRun);
    assert "Job Started: " + desc == "Job Started" + (": " + desc);
    MarkerFound(pre, "Job Started: " + desc, "Job Started", ": " + desc);
  }

  /** The pieces of a start line around its colon marker. */
  lemma StartLinePieces(pre: string, w: string, dryRun: bool)
    requires 'J' !in pre && PlainWord(w)
    ensures Split(pre + StartMessage(w, dryRun) + "\n", "Job Started:") == [pre, " " + Desc(w, dryRun) + "\n"]
  {
    DescHasNoJ(w, dryRun);
    StartHeadsDesc(w, dryRun);
    StartPieces(pre, Desc(w, dryRun));
  }

  /** The start marker with its colon splits a start line into the prefix
      and the description after it. */
  lemma StartPieces(pre: string, desc: string)
    requires 'J' !in pre && 'J' !in desc
    ensures Split(pre + ("Job Started: " + desc) + "\n", "Job Started:") == [pre, " " + desc + "\n"]
  {
    assert "Job Started: " + desc == "Job Started:" + (" " + desc);
    MarkerFound(pre, "Job Started: " + desc, "Job Started:", " " + desc);
  }

  /** A start message is its fixed head followed by the description. */
  lemma StartHeadsDesc(w: string, dryRun: bool)
    ensures StartMessage(w, dryRun) == "Job Started: " + Desc(w, dryRun)
  {
    Regroup("Job Started: ", w, " (Dry=", PyBool(dryRun), ")");
  }

  lemma Regroup<T>(h: seq<T>, w: seq<T>, t1: seq<T>, p: seq<T>, t2: seq<T>)
    ensures h + w + t1 + p + t2 == h + (w + t1 + p + t2)
  {
  }

  /** A description holds no 'J': the clock type is lower case. */
  lemma DescHasNoJ(w: string, dryRun: bool)
    requires PlainWord(w)
    ensures 'J' !in Desc(w, dryRun)
  {
    var tail := " (Dry=" + PyBool(dryRun) + ")";
    assert 'J' !in tail;
    assert Desc(w, dryRun) == w + tail;
  }

  /** The description of a start message is the clock type with the dry-run
      marker. */
  lemma StartLineReads(pre: string, w: string, dryRun: bool)
    requires 'J' !in pre && PlainWord(w)
    ensures StartedDesc(pre + StartMessage(w, dryRun) + "\n") == Ok(Desc(w, dryRun))
  {
    StartLinePieces(pre, w, dryRun);
    DescTrimmed(w, dryRun);
  }

  /** The completion message is no start and is a completion. */
  lemma CompletedLineReads(pre: string)
    requires 'J' !in pre
    ensures !Contains(pre + CompletedMessage + "\n", "Job Started")
    ensures Contains(pre + CompletedMessage + "\n", "Job Completed Successfully")
  {
    CompletedShape();
    MarkerMissing(pre, CompletedMessage, "Job Started", 4);
    MarkerFound(pre, CompletedMessage, "Job Completed Successfully", ".");
  }

  /** The completion message: its only 'J' opens it, and it is the
      completion marker and a full stop. */
  lemma CompletedShape()
    ensures CompletedMessage == "Job Completed Successfully" + "."
    ensures CompletedMessage[0] == 'J' && 'J' !in CompletedMessage[1..] && CompletedMessage[4] == 'C'
  {
    assert CompletedMessage[1..] == "ob Comp" + "leted " + "Succes" + "sfully.";
    assert 'J' !in "ob Comp" && 'J' !in "leted " && 'J' !in "Succes" && 'J' !in "sfully.";
  }

  /** A failure message is neither a start nor a completion; the text after
      its marker is the error, stripped, whatever the fallback. */
  lemma FailedLineReads(pre: string, m: string, fallback: string)
    requires 'J' !in pre && Readable(m)
    ensures !Contains(pre + ("Job Failed: " + m) + "\n", "Job Started")
    ensures !Contains(pre + ("Job Failed: " + m) + "\n", "Job Completed Successfully")
    ensures Contains(pre + ("Job Failed: " + m) + "\n", "Job Failed")
    ensures TextAfter(pre + ("Job Failed: " + m) + "\n", "Job Failed:", fallback) == Strip(m)
  {
    var line := pre + ("Job Failed: " + m) + "\n";
    FailedLineSplits(pre, m);
    FailedHeadSkips(pre, m, "Job Started");
    FailedHeadSkips(pre, m, "Job Completed Successfully");
    assert line[|pre|..|pre| + 10] == "Job Failed";
    assert OccursAt(line, "Job Failed", |pre|);
    ContainsIff(line, "Job Failed");
    FailedErrorText(pre, m, fallback);
  }

  /** The text after the failure marker is the error, stripped. */
  lemma FailedErrorText(pre: string, m: string, fallback: string)
    requires 'J' !in pre && Readable(m)
    ensures TextAfter(pre + ("Job Failed: " + m) + "\n", "Job Failed:", fallback) == Strip(m)
  {
    var line := pre + ("Job Failed: " + m) + "\n";
    FailedLineSplits(pre, m);
    FailedMarkerFirst(pre, m);
    PaddedUnmarked(m);
    TextAfterOnly(line, "Job Failed:", fallback, |pre|);
    StripPadded(" ", m, "\n");
    assert " " + (m + "\n") == " " + m + "\n";
  }

  /** The error between the space after the marker and the line break does
      not bring the marker back. */
  lemma PaddedUnmarked(m: string)
    requires !Contains(m, "Job Failed:")
    ensures !Contains(" " + (m + "\n"), "Job Failed:")
  {
    var rest := " " + (m + "\n");
    NotContainsBeforeBreak(m, "Job Failed:");
    assert |rest| >= 11 ==> rest[0..11][0] == rest[0] == ' ';
    NotContainsJoined(" ", m + "\n", "Job Failed:");
  }

  /** A failure line is its prefix and marker, then the error and the line
      break. */
  lemma FailedLineSplits(pre: string, m: string)
    ensures pre + ("Job Failed: " + m) + "\n" == (pre + "Job Failed: ") + (m + "\n")
    ensures (pre + ("Job Failed: " + m) + "\n")[|pre|..|pre| + 12] == "Job Failed: "
    ensures (pre + ("Job Failed: " + m) + "\n")[|pre| + 11..] == " " + (m + "\n")
  {
  }

  /** No marker that differs from the failure marker at its fifth
      character is found on a failure line whose error does not hold it. */
  lemma FailedHeadSkips(pre: string, m: string, sub: string)
    requires 'J' !in pre && NoBreak(m) && !Contains(m, sub)
    requires |sub| > 4 && sub[0] == 'J' && sub[4] != 'F' && '\n' !in sub
    ensures !Contains(pre + ("Job Failed: " + m) + "\n", sub)
  {
    var head := pre + "Job Failed: ";
    var line := pre + ("Job Failed: " + m) + "\n";
    FailedLineSplits(pre, m);
    forall j | 0 <= j < |head|
      ensures !OccursAt(line, sub, j)
    {
      if j + |sub| <= |line| {
        assert line[j..j + |sub|][0] == line[j];
        assert line[j..j + |sub|][4] == line[j + 4];
        if j < |pre| {
          assert line[j] == pre[j];
        } else if j == |pre| {
          assert line[j + 4] == line[|pre|..|pre| + 12][4];
        } else {
          assert line[j] == line[|pre|..|pre| + 12][j - |pre|];
        }
      }
    }
    NotContainsBeforeBreak(m, sub);
    NotContainsJoined(head, m + "\n", sub);
  }

  /** The failure marker of a failure line is its first. */
  lemma FailedMarkerFirst(pre: string, m: string)
    requires 'J' !in pre
    ensures Find(pre + ("Job Failed: " + m) + "\n", "Job Failed:") == Some(|pre|)
  {
    var line := pre + ("Job Failed: " + m) + "\n";
    FailedLineSplits(pre, m);
    assert line[|pre|..|pre| + 11] == line[|pre|..|pre| + 12][..11];
    assert OccursAt(line, "Job Failed:", |pre|);
    forall j | 0 <= j < |pre|
      ensures !OccursAt(line, "Job Failed:", j)
    {
      assert line[j] == pre[j];
      if j + 11 <= |line| {
        assert line[j..j + 11][0] == line[j];
      }
    }
  }

  /** A pattern that opens `tail`, whose head character stands nowhere
      else, is found once: `(w + tail).replace(pat, "")` drops it. */
  lemma ReplaceOnce(w: string, tail: string, pat: string)
    requires |pat| > 0 && |pat| <= |tail| && tail[..|pat|] == pat
    requires pat[0] !in w && pat[0] !in tail[1..]
    ensures Split(w + tail, pat) == [w, tail[|pat|..]]
  {
    var s := w + tail;
    assert s[..|w|] == w && s[|w| + 1..] == tail[1..];
    assert s[|w|..|w| + |pat|] == tail[..|pat|];
    Lone(s, |w|, pat[0]);
    SplitAtOnly(s, pat, |w|);
    assert s[|w| + |pat|..] == tail[|pat|..];
  }

  /** A pattern that differs from `tail` at position `k` is nowhere in
      `w + tail` when its head character stands only at the front of `tail`. */
  lemma AbsentOnce(w: string, tail: string, pat: string, k: nat)
    requires |pat| > 0 && |tail| > 0 && tail[0] == pat[0]
    requires pat[0] !in w && pat[0] !in tail[1..]
    requires k < |pat| && k < |tail| && tail[k] != pat[k]
    ensures !Contains(w + tail, pat)
  {
    var s := w + tail;
    assert s[..|w|] == w && s[|w| + 1..] == tail[1..];
    Lone(s, |w|, pat[0]);
    assert s[|w| + k] == tail[k];
    NotContainsExcept(s, pat, |w|);
  }

  /** A dry-run description is read as a test, and loses its marker. */
  lemma DryDescReads(w: string)
    requires PlainWord(w)
    ensures ModeOf(Desc(w, true)) == Test
    ensures CleanDetail(Desc(w, true)) == w
  {
    var desc := Desc(w, true);
    assert desc == w + " (Dry=True)";
    assert desc == (w + " (") + "Dry=True)";
    assert OccursAt(desc, "Dry=True", |w| + 2);
    ReplaceOnce(w, " (Dry=True)", " (Dry=True)");
    assert Join([w, ""], "") == w;
    NotContainsWithoutHead(w, " (Dry=False)");
    SplitAbsent(w, " (Dry=False)");
  }

  /** A live description is read as live, and loses its marker. */
  lemma LiveDescReads(w: string)
    requires PlainWord(w)
    ensures ModeOf(Desc(w, false)) == Live
    ensures CleanDetail(Desc(w, false)) == w
  {
    var desc := Desc(w, false);
    assert desc == w + " (Dry=False)";
    assert desc == (w + " (") + "Dry=False)";
    AbsentOnce(w + " (", "Dry=False)", "Dry=True", 4);
    assert OccursAt(desc, "Dry=False", |w| + 2);
    AbsentOnce(w, " (Dry=False)", " (Dry=True)", 6);
    SplitAbsent(desc, " (Dry=True)");
    ReplaceOnce(w, " (Dry=False)", " (Dry=False)");
    assert Join([w, ""], "") == w;
  }

  function ModeFor(dryRun: bool): Mode {
    if dryRun then Test else Live
  }

  /** The description of a start message reads back as its mode and clock
      type. */
  lemma DescReads(w: string, dryRun: bool)
    requires PlainWord(w)
    ensures ModeOf(Desc(w, dryRun)) == ModeFor(dryRun)
    ensures CleanDetail(Desc(w, dryRun)) == w
  {
    if dryRun {
      DryDescReads(w);
    } else {
      LiveDescReads(w);
    }
  }

  /** The message a job's journal ends with. */
  function EndMessage(result: Result<()>): string {
    if result.Ok? then CompletedMessage else FailedMessage(result.error)
  }

  function EndLevel(result: Result<()>): Level {
    if result.Ok? then Info else Failure
  }

  /** The text a dashboard runner's journal appends to the log file: the
      start, logged at `t1`; then `middle`, what the run itself logs in the
      meantime through the same root logger; then the completion or failure,
      logged at `t2`. */
  function JournalText(clockType: string, dryRun: bool, result: Result<()>,
                       t1: DateTime, m1: int, middle: string, t2: DateTime, m2: int): string
    requires 0 <= m1 < 1000 && 0 <= m2 < 1000
  {
    var log := Journal(clockType, dryRun, result);
    LogLine(t1, m1, Info, log[0]) + middle + LogLine(t2, m2, EndLevel(result), log[1])
  }

  /** The records `readlines()` returns for that text. They join back into
      it, and they are the start line, the records of the middle, and the
      end line, whenever the middle ends with a line break and neither the
      clock type nor the error text holds one. */
  function JournalLines(clockType: string, dryRun: bool, result: Result<()>,
                        t1: DateTime, m1: int, middle: string, t2: DateTime, m2: int): (lines: seq<string>)
    requires 0 <= m1 < 1000 && 0 <= m2 < 1000
    ensures Concat(lines) == JournalText(clockType, dryRun, result, t1, m1, middle, t2, m2)
    ensures NoBreak(clockType) && (result.Err? ==> NoBreak(result.error.Message())) && EndsLine(middle) ==>
      lines == [LogLine(t1, m1, Info, StartMessage(clockType, dryRun))] + ReadLines(middle)
               + [LogLine(t2, m2, EndLevel(result), EndMessage(result))]
  {
    var text := JournalText(clockType, dryRun, result, t1, m1, middle, t2, m2);
    if NoBreak(clockType) && (result.Err? ==> NoBreak(result.error.Message())) && EndsLine(middle) then
      JournalReadsBack(clockType, dryRun, result, t1, m1, middle, t2, m2);
      ReadLines(text)
    else ReadLines(text)
  }

  /** The two log lines of a journal without line breaks are read back as
      two records around the records of the middle. */
  lemma JournalReadsBack(clockType: string, dryRun: bool, result: Result<()>,
                         t1: DateTime, m1: int, middle: string, t2: DateTime, m2: int)
    requires 0 <= m1 < 1000 && 0 <= m2 < 1000
    requires NoBreak(clockType) && (result.Err? ==> NoBreak(result.error.Message())) && EndsLine(middle)
    ensures ReadLines(JournalText(clockType, dryRun, result, t1, m1, middle, t2, m2)) ==
      [LogLine(t1, m1, Info, StartMessage(clockType, dryRun))] + ReadLines(middle)
      + [LogLine(t2, m2, EndLevel(result), EndMessage(result))]
  {
    StartNoBreak(clockType, dryRun);
    EndNoBreak(result);
    LogLineShape(t1, m1, Info, StartMessage(clockType, dryRun));
    LogLineShape(t2, m2, EndLevel(result), EndMessage(result));
    ReadAround(LogLine(t1, m1, Info, StartMessage(clockType, dryRun)), middle,
               LogLine(t2, m2, EndLevel(result), EndMessage(result)));
  }

  /** A single record, a text closed by a line break, and another single
      record are read as the first, the records of the text, and the last. */
  lemma ReadAround(l1: string, middle: string, l2: string)
    requires SingleRecord(l1) && SingleRecord(l2) && EndsLine(middle)
    ensures ReadLines(l1 + middle + l2) == [l1] + ReadLines(middle) + [l2]
  {
    assert l1 + middle + l2 == l1 + (middle + l2);
    ReadLinesRecord(l1, middle + l2);
    ReadLinesAppend(middle, l2);
    ReadLinesRecord(l2, []);
    assert l2 + [] == l2;
  }

  /** A journal whose clock type is a plain word, whose error text is
      readable and whose middle ends with a line break is read back as its
      two log lines around the records of the middle. */
  lemma PlainJournalLines(clockType: string, dryRun: bool, result: Result<()>,
                          t1: DateTime, m1: int, middle: string, t2: DateTime, m2: int)
    requires 0 <= m1 < 1000 && 0 <= m2 < 1000
    requires PlainWord(clockType) && EndsLine(middle)
    requires result.Err? ==> Readable(result.error.Message())
    ensures JournalLines(clockType, dryRun, result, t1, m1, middle, t2, m2) ==
      [LogLine(t1, m1, Info, StartMessage(clockType, dryRun))] + ReadLines(middle)
      + [LogLine(t2, m2, EndLevel(result), EndMessage(result))]
  {
  }

  /** A start message breaks no line when its clock type does not. */
  lemma StartNoBreak(w: string, dryRun: bool)
    requires NoBreak(w)
    ensures NoBreak(StartMessage(w, dryRun))
  {
    var tail := " (Dry=" + PyBool(dryRun) + ")";
    assert NoBreak("Job Started: ") && NoBreak(tail);
    StartHeadsDesc(w, dryRun);
    assert Desc(w, dryRun) == w + tail;
  }

  /** An end message breaks no line when its error text does not. */
  lemma EndNoBreak(result: Result<()>)
    requires result.Err? ==> NoBreak(result.error.Message())
    ensures NoBreak(EndMessage(result))
  {
    if result.Ok? {
      CompletedShape();
      assert NoBreak("Job Completed Successfully") && NoBreak(".");
    } else {
      assert NoBreak("Job Failed: ");
    }
  }

  /** The status the summary table shows for a job that ended with
      `result`: the error text, stripped, when it failed. */
  function EndStatus(result: Result<()>): Status {
    if result.Ok? then Succeeded else FailedWith(Strip(result.error.Message()))
  }

  /** The aggregator opens a job on the start line. */
  lemma FeedStart(t: DateTime, millis: int, w: string, dryRun: bool, parse: StampParser)
    requires 0 <= millis < 1000 && PlainWord(w) && ReadsBackFormat(parse)
    ensures Feed(LogLine(t, millis, Info, StartMessage(w, dryRun)), parse, Acc(None, [])) ==
      Ok(Acc(Some(Row(FormatDate(t), FormatClock(t), "-", ModeFor(dryRun), w, Status.Running)), []))
  {
    var pre := Prefix(t, millis, Info);
    StampReadsBack(t, millis, Info, StartMessage(w, dryRun), parse);
    PrefixFree(t, millis, Info);
    StartLineOpens(pre, w, dryRun);
    StartLineReads(pre, w, dryRun);
    DescReads(w, dryRun);
    assert FormatDate(t.(micro := 0)) == FormatDate(t);
    assert FormatClock(t.(micro := 0)) == FormatClock(t);
  }

  /** The aggregator closes the open job on the end line. */
  lemma FeedEnd(t: DateTime, millis: int, result: Result<()>, row: Row, parse: StampParser)
    requires 0 <= millis < 1000 && ReadsBackFormat(parse)
    requires result.Err? ==> Readable(result.error.Message())
    ensures Feed(LogLine(t, millis, EndLevel(result), EndMessage(result)), parse, Acc(Some(row), [])) ==
      Ok(Acc(None, [row.(end := FormatClock(t), status := EndStatus(result))]))
  {
    var pre := Prefix(t, millis, EndLevel(result));
    StampReadsBack(t, millis, EndLevel(result), EndMessage(result), parse);
    PrefixFree(t, millis, EndLevel(result));
    if result.Ok? {
      CompletedLineReads(pre);
    } else {
      FailedLineReads(pre, result.error.Message(), "Error");
    }
    assert FormatClock(t.(micro := 0)) == FormatClock(t);
  }

  /** A dashboard runner's journal reads back, in the summary table, as
      exactly one row: the day and second it started, the second it ended,
      its mode, its clock type and how it ended, whatever the run logged in
      between. */
  lemma JournalAggregates(clockType: string, dryRun: bool, result: Result<()>,
                          t1: DateTime, m1: int, middle: string, t2: DateTime, m2: int, parse: StampParser)
    requires 0 <= m1 < 1000 && 0 <= m2 < 1000
    requires PlainWord(clockType) && ReadsBackFormat(parse) && Quiet(middle)
    requires result.Err? ==> Readable(result.error.Message())
    ensures Aggregate(JournalLines(clockType, dryRun, result, t1, m1, middle, t2, m2), parse) ==
      Ok([Row(FormatDate(t1), FormatClock(t1), FormatClock(t2), ModeFor(dryRun), clockType, EndStatus(result))])
  {
    var open := Row(FormatDate(t1), FormatClock(t1), "-", ModeFor(dryRun), clockType, Status.Running);
    var l1 := LogLine(t1, m1, Info, StartMessage(clockType, dryRun));
    var l2 := LogLine(t2, m2, EndLevel(result), EndMessage(result));
    FeedStart(t1, m1, clockType, dryRun, parse);
    FeedEnd(t2, m2, result, open, parse);
    var row := open.(end := FormatClock(t2), status := EndStatus(result));
    PlainJournalLines(clockType, dryRun, result, t1, m1, middle, t2, m2);
    FoldAround(l1, ReadLines(middle), l2, parse, Acc(None, []), Acc(Some(open), []), Acc(None, [row]));
    assert Flush(Acc(None, [row])) == [row];
    assert Reverse([row]) == [row];
  }

  /** The flat table's record of a start line. */
  lemma StartRecord(t: DateTime, millis: int, w: string, dryRun: bool)
    requires 0 <= millis < 1000 && PlainWord(w)
    ensures RecordOf(LogLine(t, millis, Info, StartMessage(w, dryRun))) ==
      Ok(Some(Record(AscTime(t, millis), ModeText(ModeFor(dryRun)), "開始", w, "Started")))
  {
    var pre := Prefix(t, millis, Info);
    TimestampOfLine(t, millis, Info, StartMessage(w, dryRun));
    PrefixFree(t, millis, Info);
    StartLineOpens(pre, w, dryRun);
    StartLineReads(pre, w, dryRun);
    DescReads(w, dryRun);
  }

  /** The flat table's record of an end line. */
  lemma EndRecord(t: DateTime, millis: int, result: Result<()>)
    requires 0 <= millis < 1000
    requires result.Err? ==> Readable(result.error.Message())
    ensures RecordOf(LogLine(t, millis, EndLevel(result), EndMessage(result))) ==
      Ok(Some(if result.Ok? then Record(AscTime(t, millis), "", "完了", "-", "Success")
              else Record(AscTime(t, millis), "", "失敗", Strip(result.error.Message()), "Error")))
  {
    var pre := Prefix(t, millis, EndLevel(result));
    TimestampOfLine(t, millis, EndLevel(result), EndMessage(result));
    PrefixFree(t, millis, EndLevel(result));
    if result.Ok? {
      CompletedLineReads(pre);
    } else {
      FailedLineReads(pre, result.error.Message(), "Unknown Error");
    }
  }

  /** A dashboard runner's journal, appended to any log the flat table can
      show, adds two records on top of it: the end above the start, each
      stamped with the time of its log call to the millisecond, whatever the
      run logged in between. */
  lemma JournalFlattens(log: seq<string>, clockType: string, dryRun: bool, result: Result<()>,
                        t1: DateTime, m1: int, middle: string, t2: DateTime, m2: int)
    requires 0 <= m1 < 1000 && 0 <= m2 < 1000
    requires PlainWord(clockType) && Quiet(middle)
    requires result.Err? ==> Readable(result.error.Message())
    requires FlatHistory(log).Ok?
    ensures FlatHistory(log + JournalLines(clockType, dryRun, result, t1, m1, middle, t2, m2)) ==
      Ok([if result.Ok? then Record(AscTime(t2, m2), "", "完了", "-", "Success")
          else Record(AscTime(t2, m2), "", "失敗", Strip(result.error.Message()), "Error"),
          Record(AscTime(t1, m1), ModeText(ModeFor(dryRun)), "開始", clockType, "Started")]
         + FlatHistory(log).value)
  {
    var l1 := LogLine(t1, m1, Info, StartMessage(clockType, dryRun));
    var l2 := LogLine(t2, m2, EndLevel(result), EndMessage(result));
    StartRecord(t1, m1, clockType, dryRun);
    EndRecord(t2, m2, result);
    var first, last := RecordOf(l1).value.value, RecordOf(l2).value.value;
    FlatAround(log, l1, ReadLines(middle), l2, first, last);
    PlainJournalLines(clockType, dryRun, result, t1, m1, middle, t2, m2);
    AppendAround(log, JournalLines(clockType, dryRun, result, t1, m1, middle, t2, m2), l1, ReadLines(middle), l2);
    ConsPair(last, first, FlatHistory(log).value);
  }
}
