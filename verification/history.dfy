/** The dashboards' execution-history views: the paired aggregator of
    src/interfaces/web/app.py, which joins a "Job Started" line with the
    "Job Completed" or "Job Failed" line after it, and the flat parser of
    src/web_ui.py, which lists every such line on its own. Both read the
    lines the job runners log; `strptime` is an input. */
module History {
  import opened Base
  import opened Text
  import opened Clock

  /** `datetime.strptime(text, "%Y-%m-%d %H:%M:%S")`: None when it raises. */
  type StampParser = string -> Option<DateTime>

  /** A parser that reads back whatever `%Y-%m-%d %H:%M:%S` writes. */
  ghost predicate ReadsBackFormat(parse: StampParser) {
    forall d: DateTime :: parse(FormatSeconds(d)) == Some(d.(micro := 0))
  }

  /** `line.split("[")[0].strip()`: the text before the level tag. */
  function TimestampText(line: string): string {
    Strip(Split(line, "[")[0])
  }

  /** The aggregator's timestamp: the text before the first comma, parsed. */
  function LineStamp(line: string, parse: StampParser): Option<DateTime> {
    parse(Split(TimestampText(line), ",")[0])
  }

  /** How a start line says the job was run. */
  datatype Mode = Test | Live | Unmarked

  function ModeOf(desc: string): Mode {
    if Contains(desc, "Dry=True") then Test
    else if Contains(desc, "Dry=False") then Live
    else Unmarked
  }

  function ModeText(m: Mode): string {
    match m
    case Test => "\U{1F9EA} Test"
    case Live => "\U{1F534} Live"
    case Unmarked => "-"
  }

  /** The description with the dry-run marker taken out. */
  function CleanDetail(desc: string): string {
    Replace(Replace(desc, " (Dry=True)", ""), " (Dry=False)", "")
  }

  /** `line.split("Job Started:")[1].strip()`, which raises IndexError when
      the line mentions "Job Started" without the colon. */
  function StartedDesc(line: string): (r: Result<string>)
    ensures r.Ok? <==> Contains(line, "Job Started:")
    ensures r.Err? ==> r.error == IndexError
  {
    SplitHasSecond(line, "Job Started:");
    var parts := Split(line, "Job Started:");
    if |parts| < 2 then Err(IndexError) else Ok(Strip(parts[1]))
  }

  /** `parts[1].strip()` of `line.split(marker)`: the text between the first
      `marker` and the next one (or the end of the line), stripped; or
      `fallback` when the marker is absent. */
  function TextAfter(line: string, marker: string, fallback: string): (r: string)
    requires |marker| > 0
    ensures !Contains(line, marker) ==> r == fallback
    ensures Contains(line, marker) ==>
      var rest := line[Find(line, marker).value + |marker|..];
      r == Strip(if Contains(rest, marker) then rest[..Find(rest, marker).value] else rest)
  {
    SplitHasSecond(line, marker);
    var parts := Split(line, marker);
    if |parts| > 1 then Strip(parts[1]) else fallback
  }

  /** When the marker occurs once, at `i`, the text after it is the rest of
      the line, stripped. */
  lemma TextAfterOnly(line: string, marker: string, fallback: string, i: nat)
    requires |marker| > 0 && Find(line, marker) == Some(i)
    requires !Contains(line[i + |marker|..], marker)
    ensures TextAfter(line, marker, fallback) == Strip(line[i + |marker|..])
  {
    assert Contains(line, marker);
    var rest := line[Find(line, marker).value + |marker|..];
    assert rest == line[i + |marker|..];
  }

  // ---------------------------------------------------------------------
  // The paired aggregator (src/interfaces/web/app.py)

  datatype Status = Running | Succeeded | FailedWith(err: string)

  function StatusText(s: Status): string {
    match s
    case Running => "Running..."
    case Succeeded => "✅ Success"
    case FailedWith(err) => "❌ Error: " + err
  }

  /** One row of the summary table; `end` is "-" while the job is open. */
  datatype Row = Row(date: string, start: string, end: string, mode: Mode, detail: string, status: Status)

  /** The aggregator's state between lines: the open job, if any, and the
      rows pushed so far. */
  datatype Acc = Acc(pending: Option<Row>, rows: seq<Row>)

  /** The rows the state stands for once the open job is pushed too. */
  function Flush(acc: Acc): (rows: seq<Row>)
    ensures |rows| == |acc.rows| + (if acc.pending.Some? then 1 else 0)
  {
    acc.rows + (if acc.pending.Some? then [acc.pending.value] else [])
  }

  /** A line that opens a job in the aggregator. */
  predicate OpensJob(line: string, parse: StampParser) {
    LineStamp(line, parse).Some? && Contains(line, "Job Started")
  }

  /** A line on which the aggregator raises. */
  predicate BadStart(line: string, parse: StampParser) {
    OpensJob(line, parse) && !Contains(line, "Job Started:")
  }

  function CountOpens(lines: seq<string>, parse: StampParser): nat {
    if lines == [] then 0
    else (if OpensJob(lines[0], parse) then 1 else 0) + CountOpens(lines[1..], parse)
  }

  /** One pass of the aggregator's loop. A line without a readable
      timestamp is skipped. A start line pushes the open job, as it stands,
      and opens a new one; a completion or failure line closes the open job
      with its time and outcome, and is ignored when no job is open. */
  function Feed(line: string, parse: StampParser, acc: Acc): (r: Result<Acc>)
    ensures r.Ok? ==> |Flush(r.value)| == |Flush(acc)| + (if OpensJob(line, parse) then 1 else 0)
    ensures r.Ok? ==> |r.value.rows| >= |acc.rows| && r.value.rows[..|acc.rows|] == acc.rows
    ensures r.Err? <==> BadStart(line, parse)
    ensures r.Err? ==> r.error == IndexError
  {
    match LineStamp(line, parse)
    case None => Ok(acc)
    case Some(ts) =>
      if Contains(line, "Job Started") then
        match StartedDesc(line)
        case Err(e) => Err(e)
        case Ok(desc) =>
          Ok(Acc(Some(Row(FormatDate(ts), FormatClock(ts), "-", ModeOf(desc), CleanDetail(desc), Running)), Flush(acc)))
      else if acc.pending.None? then Ok(acc)
      else if Contains(line, "Job Completed Successfully") then
        Ok(Acc(None, acc.rows + [acc.pending.value.(end := FormatClock(ts), status := Succeeded)]))
      else if Contains(line, "Job Failed") then
        var err := TextAfter(line, "Job Failed:", "Error");
        Ok(Acc(None, acc.rows + [acc.pending.value.(end := FormatClock(ts), status := FailedWith(err))]))
      else Ok(acc)
  }

  /** The open job, if any, has no end time and is still running. */
  predicate PendingOpen(acc: Acc) {
    acc.pending.Some? ==> acc.pending.value.end == "-" && acc.pending.value.status == Running
  }

  /** A line without a readable timestamp leaves the state alone. */
  lemma UnstampedLineSkipped(line: string, parse: StampParser, acc: Acc)
    requires LineStamp(line, parse).None?
    ensures Feed(line, parse, acc) == Ok(acc)
  {
  }

  /** A start line pushes the open job exactly as it stands, so an unfinished
      job is listed as still running, and opens a job stamped with the line's
      date and time. */
  lemma StartPushesPending(line: string, parse: StampParser, acc: Acc)
    requires OpensJob(line, parse) && Contains(line, "Job Started:")
    ensures Feed(line, parse, acc).Ok?
    ensures var next := Feed(line, parse, acc).value;
      var ts := LineStamp(line, parse).value;
      && next.rows == Flush(acc)
      && next.pending.Some? && PendingOpen(next)
      && next.pending.value.date == FormatDate(ts)
      && next.pending.value.start == FormatClock(ts)
    ensures acc.pending.Some? && PendingOpen(acc) ==>
      Feed(line, parse, acc).value.rows[|acc.rows|].status == Running
  {
  }

  /** A line that is not a start line changes nothing unless a job is open
      and the line reports a completion or a failure. */
  lemma OtherLinesIgnored(line: string, parse: StampParser, acc: Acc)
    requires !Contains(line, "Job Started")
    requires acc.pending.None? || !(Contains(line, "Job Completed Successfully") || Contains(line, "Job Failed"))
    ensures Feed(line, parse, acc) == Ok(acc)
  {
  }

  /** A completion or failure line closes the open job: the row keeps its
      date, start, mode and detail, gains the line's time as its end, and
      takes the outcome; a completion wins over a failure on the same line,
      and a failure reads its text after "Job Failed:", or "Error". */
  lemma EndClosesPending(line: string, parse: StampParser, acc: Acc)
    requires LineStamp(line, parse).Some? && acc.pending.Some? && !Contains(line, "Job Started")
    requires Contains(line, "Job Completed Successfully") || Contains(line, "Job Failed")
    ensures var p := acc.pending.value;
      var outcome := if Contains(line, "Job Completed Successfully") then Succeeded
                     else FailedWith(TextAfter(line, "Job Failed:", "Error"));
      Feed(line, parse, acc) ==
        Ok(Acc(None, acc.rows + [Row(p.date, p.start, FormatClock(LineStamp(line, parse).value), p.mode, p.detail, outcome)]))
  {
  }

  /** Every state the loop reaches keeps its open job open. */
  lemma FeedKeepsPendingOpen(line: string, parse: StampParser, acc: Acc)
    requires PendingOpen(acc)
    ensures Feed(line, parse, acc).Ok? ==> PendingOpen(Feed(line, parse, acc).value)
  {
  }

  /** The aggregator's loop over `lines` from state `acc`, then the push of
      whatever job is still open. */
  function Fold(lines: seq<string>, parse: StampParser, acc: Acc): (r: Result<seq<Row>>)
    decreases |lines|
    ensures r.Ok? ==> |r.value| == |Flush(acc)| + CountOpens(lines, parse)
    ensures r.Ok? ==> |r.value| >= |acc.rows| && r.value[..|acc.rows|] == acc.rows
    ensures r.Err? <==> exists i :: 0 <= i < |lines| && BadStart(lines[i], parse)
    ensures r.Err? ==> r.error == IndexError
  {
    if lines == [] then Ok(Flush(acc))
    else
      match Feed(lines[0], parse, acc)
      case Err(e) => Err(e)
      case Ok(next) =>
        var r := Fold(lines[1..], parse, next);
        assert forall i :: 1 <= i < |lines| ==> lines[i] == lines[1..][i - 1];
        assert r.Ok? ==> r.value[..|acc.rows|] == r.value[..|next.rows|][..|acc.rows|];
        r
  }

  /** One line consumed: the aggregator goes on from the state it left. */
  lemma FoldCons(line: string, rest: seq<string>, parse: StampParser, acc: Acc, next: Acc)
    requires Feed(line, parse, acc) == Ok(next)
    ensures Fold([line] + rest, parse, acc) == Fold(rest, parse, next)
  {
    var lines := [line] + rest;
    assert lines[0] == line && lines[1..] == rest;
  }

  /** Lines that mention no job marker leave the aggregator's state alone,
      whatever their timestamps. */
  lemma {:induction false} FoldSkipsUnlisted(quiet: seq<string>, rest: seq<string>, parse: StampParser, acc: Acc)
    requires forall k :: 0 <= k < |quiet| ==> !Listed(quiet[k])
    ensures Fold(quiet + rest, parse, acc) == Fold(rest, parse, acc)
    decreases |quiet|
  {
    if |quiet| == 0 {
      assert quiet + rest == rest;
    } else {
      var tail := quiet[1..];
      assert quiet == [quiet[0]] + tail;
      FoldSkipsOne(quiet[0], tail, rest, parse, acc);
      assert forall k :: 0 <= k < |tail| ==> tail[k] == quiet[k + 1];
      FoldSkipsUnlisted(tail, rest, parse, acc);
    }
  }

  /** A line that mentions no job marker, in front of others, is skipped. */
  lemma FoldSkipsOne(line: string, tail: seq<string>, rest: seq<string>, parse: StampParser, acc: Acc)
    requires !Listed(line)
    ensures Fold([line] + tail + rest, parse, acc) == Fold(tail + rest, parse, acc)
  {
    OtherLinesIgnored(line, parse, acc);
    assert [line] + tail + rest == [line] + (tail + rest);
    FoldCons(line, tail + rest, parse, acc, acc);
  }

  /** Two lines consumed in turn, with lines that mention no job marker
      between them. */
  lemma FoldAround(l1: string, quiet: seq<string>, l2: string, parse: StampParser, a0: Acc, a1: Acc, a2: Acc)
    requires Feed(l1, parse, a0) == Ok(a1) && Feed(l2, parse, a1) == Ok(a2)
    requires forall k :: 0 <= k < |quiet| ==> !Listed(quiet[k])
    ensures Fold([l1] + quiet + [l2], parse, a0) == Ok(Flush(a2))
  {
    Nest(l1, quiet, l2);
    FoldCons(l1, quiet + [l2], parse, a0, a1);
    FoldSkipsUnlisted(quiet, [l2], parse, a1);
    FoldOne(l2, parse, a1, a2);
  }

  /** One line consumed, and the open job pushed. */
  lemma FoldOne(line: string, parse: StampParser, acc: Acc, next: Acc)
    requires Feed(line, parse, acc) == Ok(next)
    ensures Fold([line], parse, acc) == Ok(Flush(next))
  {
    FoldCons(line, [], parse, acc, next);
    assert [line] + [] == [line];
  }

  lemma Nest<T>(a: T, mid: seq<T>, b: T)
    ensures [a] + mid + [b] == [a] + (mid + [b])
  {
  }

  /** The summary table, newest first, or the error that stops the view. */
  function Aggregate(lines: seq<string>, parse: StampParser): (r: Result<seq<Row>>)
    ensures r.Ok? ==> |r.value| == CountOpens(lines, parse)
    ensures r.Ok? ==> Fold(lines, parse, Acc(None, [])).Ok? && r.value == Reverse(Fold(lines, parse, Acc(None, [])).value)
    ensures r.Err? <==> exists i :: 0 <= i < |lines| && BadStart(lines[i], parse)
  {
    var rows :- Fold(lines, parse, Acc(None, []));
    Ok(Reverse(rows))
  }

  // ---------------------------------------------------------------------
  // The flat parser (src/web_ui.py)

  /** One row of the flat table. */
  datatype Record = Record(time: string, mode: string, event: string, detail: string, status: string)

  /** A line the flat parser lists. */
  predicate Listed(line: string) {
    Contains(line, "Job Started") || Contains(line, "Job Completed Successfully") || Contains(line, "Job Failed")
  }

  /** The record for one line, if it is listed; a start line without the
      colon raises. The timestamp is taken as it is, unparsed. */
  function RecordOf(line: string): (r: Result<Option<Record>>)
    ensures r.Err? <==> Contains(line, "Job Started") && !Contains(line, "Job Started:")
    ensures r.Ok? ==> (r.value.Some? <==> Listed(line))
    ensures r.Ok? && r.value.Some? ==> r.value.value.time == TimestampText(line)
  {
    var ts := TimestampText(line);
    if Contains(line, "Job Started") then
      var desc :- StartedDesc(line);
      Ok(Some(Record(ts, ModeText(ModeOf(desc)), "開始", CleanDetail(desc), "Started")))
    else if Contains(line, "Job Completed Successfully") then
      Ok(Some(Record(ts, "", "完了", "-", "Success")))
    else if Contains(line, "Job Failed") then
      Ok(Some(Record(ts, "", "失敗", TextAfter(line, "Job Failed:", "Unknown Error"), "Error")))
    else Ok(None)
  }

  /** Which record a line gets: a start line wins over a completion, and a
      completion over a failure; a failure without the colon reads
      "Unknown Error". */
  lemma RecordPrecedence(line: string)
    ensures Contains(line, "Job Started:") ==>
      RecordOf(line).Ok? && RecordOf(line).value.Some?
      && RecordOf(line).value.value.event == "開始" && RecordOf(line).value.value.status == "Started"
    ensures !Contains(line, "Job Started") && Contains(line, "Job Completed Successfully") ==>
      RecordOf(line) == Ok(Some(Record(TimestampText(line), "", "完了", "-", "Success")))
    ensures !Contains(line, "Job Started") && !Contains(line, "Job Completed Successfully")
            && Contains(line, "Job Failed") && !Contains(line, "Job Failed:") ==>
      RecordOf(line) == Ok(Some(Record(TimestampText(line), "", "失敗", "Unknown Error", "Error")))
  {
    if Contains(line, "Job Started:") {
      ContainsPrefixOf(line, "Job Started:", "Job Started");
    }
  }

  function Optional<T>(o: Option<T>): seq<T> {
    if o.Some? then [o.value] else []
  }

  function CountListed(lines: seq<string>): nat {
    if lines == [] then 0
    else CountListed(lines[..|lines| - 1]) + (if Listed(lines[|lines| - 1]) then 1 else 0)
  }

  /** The records of `lines` in file order: one per listed line. */
  function Records(lines: seq<string>): (r: Result<seq<Record>>)
    decreases |lines|
    ensures r.Ok? ==> |r.value| == CountListed(lines)
    ensures r.Err? <==> exists i :: 0 <= i < |lines| && RecordOf(lines[i]).Err?
  {
    if lines == [] then Ok([])
    else
      var init := lines[..|lines| - 1];
      var last := lines[|lines| - 1];
      assert forall i :: 0 <= i < |init| ==> init[i] == lines[i];
      match Records(init)
      case Err(e) => Err(e)
      case Ok(earlier) =>
        match RecordOf(last)
        case Err(e) => Err(e)
        case Ok(rec) =>
          assert rec.Some? <==> Listed(last);
          assert CountListed(lines) == CountListed(init) + (if Listed(last) then 1 else 0);
          Ok(earlier + Optional(rec))
  }

  /** One more listed line adds its record at the end. */
  lemma RecordsSnoc(lines: seq<string>, line: string, earlier: seq<Record>, rec: Record)
    requires Records(lines) == Ok(earlier) && RecordOf(line) == Ok(Some(rec))
    ensures Records(lines + [line]) == Ok(earlier + [rec])
  {
    var all := lines + [line];
    assert all[..|all| - 1] == lines && all[|all| - 1] == line;
  }

  /** The flat table, newest first. */
  function FlatHistory(lines: seq<string>): (r: Result<seq<Record>>)
    ensures r.Ok? ==> Records(lines).Ok? && r.value == Reverse(Records(lines).value)
    ensures r.Err? <==> exists i :: 0 <= i < |lines| && RecordOf(lines[i]).Err?
  {
    var recs :- Records(lines);
    Ok(Reverse(recs))
  }

  /** A listed line appended to a file shows on top of the records before
      it. */
  lemma FlatSnoc(lines: seq<string>, line: string, rec: Record)
    requires Records(lines).Ok? && RecordOf(line) == Ok(Some(rec))
    ensures FlatHistory(lines + [line]) == Ok([rec] + FlatHistory(lines).value)
  {
    var earlier := Records(lines).value;
    RecordsSnoc(lines, line, earlier, rec);
    ReverseSnoc(earlier, rec);
  }

  lemma ReverseSnoc<T>(xs: seq<T>, x: T)
    ensures Reverse(xs + [x]) == [x] + Reverse(xs)
  {
    var a, b := Reverse(xs + [x]), [x] + Reverse(xs);
    assert forall i :: 0 <= i < |a| ==> a[i] == b[i];
  }

  /** Lines that mention no job marker add no record, wherever they are
      appended. */
  lemma {:induction false} RecordsSkipUnlisted(lines: seq<string>, quiet: seq<string>)
    requires forall k :: 0 <= k < |quiet| ==> !Listed(quiet[k])
    ensures Records(lines + quiet) == Records(lines)
    decreases |quiet|
  {
    if |quiet| == 0 {
      assert lines + quiet == lines;
    } else {
      var init := quiet[..|quiet| - 1];
      assert quiet == init + [quiet[|quiet| - 1]];
      assert lines + quiet == (lines + init) + [quiet[|quiet| - 1]];
      RecordsSkipOne(lines + init, quiet[|quiet| - 1]);
      assert forall k :: 0 <= k < |init| ==> init[k] == quiet[k];
      RecordsSkipUnlisted(lines, init);
    }
  }

  /** A line that mentions no job marker, appended, adds no record. */
  lemma RecordsSkipOne(lines: seq<string>, line: string)
    requires !Listed(line)
    ensures Records(lines + [line]) == Records(lines)
  {
    var all := lines + [line];
    assert all[..|all| - 1] == lines && all[|all| - 1] == line;
    assert RecordOf(line) == Ok(None);
    if Records(lines).Ok? {
      assert Records(lines).value + [] == Records(lines).value;
    }
  }

  /** Two listed lines appended to a file, with lines that mention no job
      marker between them, show on top of it, the second above the first. */
  lemma FlatAround(lines: seq<string>, l1: string, quiet: seq<string>, l2: string, r1: Record, r2: Record)
    requires Records(lines).Ok? && RecordOf(l1) == Ok(Some(r1)) && RecordOf(l2) == Ok(Some(r2))
    requires forall k :: 0 <= k < |quiet| ==> !Listed(quiet[k])
    ensures FlatHistory(lines + [l1] + quiet + [l2]) == Ok([r2] + ([r1] + FlatHistory(lines).value))
  {
    var earlier := Records(lines).value;
    RecordsSnoc(lines, l1, earlier, r1);
    RecordsSkipUnlisted(lines + [l1], quiet);
    ReverseSnoc(earlier, r1);
    FlatSnoc(lines + [l1] + quiet, l2, r2);
  }

  /** Regrouping helper: appending a list that a line opens and another
      closes is appending its parts one by one. */
  lemma AppendAround<T>(xs: seq<T>, around: seq<T>, a: T, mid: seq<T>, b: T)
    requires around == [a] + mid + [b]
    ensures xs + around == xs + [a] + mid + [b]
  {
  }

  /** Regrouping helper: two elements put in front one by one. */
  lemma ConsPair<T>(a: T, b: T, xs: seq<T>)
    ensures [a] + ([b] + xs) == [a, b] + xs
  {
  }

  /** The loop as written: one pass appending to a list, then a reversal. */
  method ParseFlat(lines: seq<string>) returns (r: Result<seq<Record>>)
    ensures r == FlatHistory(lines)
  {
    var acc: seq<Record> := [];
    var i := 0;
    while i < |lines|
      invariant 0 <= i <= |lines|
      invariant Records(lines[..i]) == Ok(acc)
    {
      assert lines[..i + 1][..i] == lines[..i];
      var rec := RecordOf(lines[i]);
      if rec.Err? {
        assert Records(lines[..i + 1]).Err?;
        RecordsErrPersists(lines, i + 1);
        return Err(rec.error);
      }
      acc := acc + Optional(rec.value);
      i := i + 1;
    }
    assert lines[..i] == lines;
    r := Ok(Reverse(acc));
  }

  /** An error in a prefix is an error of the whole file. */
  lemma RecordsErrPersists(lines: seq<string>, k: nat)
    requires k <= |lines|
    requires Records(lines[..k]).Err?
    ensures Records(lines).Err? && Records(lines).error == IndexError
  {
    var i :| 0 <= i < k && RecordOf(lines[..k][i]).Err?;
    assert lines[i] == lines[..k][i];
    ErrIsIndexError(lines);
  }

  lemma {:induction false} ErrIsIndexError(lines: seq<string>)
    ensures Records(lines).Err? ==> Records(lines).error == IndexError
    decreases |lines|
  {
    if lines != [] {
      ErrIsIndexError(lines[..|lines| - 1]);
    }
  }
}
