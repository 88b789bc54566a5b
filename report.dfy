/** The report-building part of `main`: classify each expectation's most
    recent validation, count the passes, build one record and one table row
    per expectation, and assemble the overview table and the collapsible
    details block into one markdown string.

    The HTTP fetches are replaced by their results, given as inputs;
    `format_run_time` is the caller-supplied `formatRunTime`, and
    `str(round(x, 5))` is `show` (see ValidationResult). */
module Report {
  import opened Wrappers
  import opened Text
  import opened ValidationResult

  /** One entry of an expectation's history. */
  datatype ValidationRun = ValidationRun(
    success: bool,
    exceptionMessage: Option<string>,   // None is JSON null
    result: RunResult,
    runTime: string)

  /** One expectation as the API returns it; a missing `expectation_type` or
      `documentation` is None, a missing `kwargs` is None. */
  datatype Expectation = Expectation(
    expectationType: Option<string>,
    resultType: string,
    kwargs: Option<map<string, string>>,
    documentation: Option<string>,
    validations: seq<ValidationRun>)   // most recent first

  datatype Dataset = Dataset(engine: string, datasourceName: string, database: string, datasetName: string)

  /** The three statuses and their icons. */
  datatype Status = Errored | Passed | Failed

  const ErrorIcon := '❗'
  const PassIcon := '✅'
  const FailIcon := '❌'

  function Icon(s: Status): char {
    match s
    case Errored => ErrorIcon
    case Passed => PassIcon
    case Failed => FailIcon
  }

  /** Python truthiness of `exception_message`: neither null nor the empty string. */
  predicate HasException(run: ValidationRun)
    ensures HasException(run) <==> run.exceptionMessage != None && run.exceptionMessage != Some("")
  {
    run.exceptionMessage.Some? && run.exceptionMessage.value != ""
  }

  /** Status of a run: a non-empty exception message means error whatever
      `success` says; otherwise `success` decides between pass and fail. */
  function Classify(run: ValidationRun): (s: Status)
    ensures s == Errored <==> HasException(run)
    ensures s == Passed <==> !HasException(run) && run.success
    ensures s == Failed <==> !HasException(run) && !run.success
  {
    if HasException(run) then Errored
    else if run.success then Passed
    else Failed
  }

  /** Every expectation has at least one validation (the code reads `[0]`). */
  predicate HasHistory(exps: seq<Expectation>) {
    forall i :: 0 <= i < |exps| ==> |exps[i].validations| > 0
  }

  function Latest(e: Expectation): ValidationRun
    requires |e.validations| > 0
  {
    e.validations[0]
  }

  function StatusOf(e: Expectation): Status
    requires |e.validations| > 0
  {
    Classify(Latest(e))
  }

  /** The number of expectations whose latest run passed. */
  function PassCount(exps: seq<Expectation>): (n: nat)
    requires HasHistory(exps)
    ensures n <= |exps|
    ensures n == |exps| ==> forall i :: 0 <= i < |exps| ==> StatusOf(exps[i]) == Passed
    decreases |exps|
  {
    if exps == [] then 0
    else
      var init := exps[..|exps| - 1];
      assert forall i :: 0 <= i < |init| ==> init[i] == exps[i];
      PassCount(init) + (if StatusOf(exps[|exps| - 1]) == Passed then 1 else 0)
  }

  /** If every latest run passed, the count is the total: with the bound of
      PassCount, the overall status is "pass" exactly when all passed. */
  lemma {:induction false} AllPassedCount(exps: seq<Expectation>)
    requires HasHistory(exps)
    requires forall i :: 0 <= i < |exps| ==> StatusOf(exps[i]) == Passed
    ensures PassCount(exps) == |exps|
    decreases |exps|
  {
    if exps != [] {
      var init := exps[..|exps| - 1];
      assert forall i :: 0 <= i < |init| ==> init[i] == exps[i];
      AllPassedCount(init);
    }
  }

  lemma AllPassedIff(exps: seq<Expectation>)
    requires HasHistory(exps)
    ensures PassCount(exps) == |exps| <==> forall i :: 0 <= i < |exps| ==> StatusOf(exps[i]) == Passed
  {
    if forall i :: 0 <= i < |exps| ==> StatusOf(exps[i]) == Passed {
      AllPassedCount(exps);
    }
  }

  /** An expectation with an exception message is never counted, so the
      summary cannot say that everything passed. */
  lemma ErrorPreventsFullPass(exps: seq<Expectation>, i: nat)
    requires HasHistory(exps)
    requires i < |exps| && HasException(Latest(exps[i]))
    ensures PassCount(exps) < |exps|
  {
  }

  /** `kwargs.get("column", '')`, with a missing `kwargs` read as `{}`. */
  function ColumnOf(kwargs: Option<map<string, string>>): (c: string)
    ensures kwargs.Some? && "column" in kwargs.value ==> c == kwargs.value["column"]
    ensures !(kwargs.Some? && "column" in kwargs.value) ==> c == ""
  {
    match kwargs
    case None => ""
    case Some(m) => if "column" in m then m["column"] else ""
  }

  /** The dict built for one expectation (its unused `kwargs` entry left out). */
  datatype Record = Record(
    column: string,
    expectationType: Option<string>,
    status: Status,
    value: Value,
    documentation: Option<string>)

  /** The record of one expectation, or the error `process_validation_result` raises. */
  function RecordOf(e: Expectation): (r: Result<Record, Error>)
    requires |e.validations| > 0
    ensures r.Ok? <==> ProcessValidationResult(Latest(e).result, e.resultType).Ok?
    ensures r.Err? ==> r.error == ProcessValidationResult(Latest(e).result, e.resultType).error
    ensures r.Ok? ==>
      r.value.value == ProcessValidationResult(Latest(e).result, e.resultType).value
      && r.value.status == StatusOf(e) && r.value.column == ColumnOf(e.kwargs)
      && r.value.expectationType == e.expectationType && r.value.documentation == e.documentation
  {
    match ProcessValidationResult(Latest(e).result, e.resultType)
    case Ok(v) => Ok(Record(ColumnOf(e.kwargs), e.expectationType, StatusOf(e), v, e.documentation))
    case Err(err) => Err(err)
  }

  /** The records of all expectations in input order, or the error of the
      first expectation whose value cannot be processed. */
  function Records(exps: seq<Expectation>): (r: Result<seq<Record>, Error>)
    requires HasHistory(exps)
    ensures r.Ok? ==>
      |r.value| == |exps|
      && forall i :: 0 <= i < |exps| ==> RecordOf(exps[i]) == Ok(r.value[i])
    ensures r.Err? ==>
      exists k :: 0 <= k < |exps| && RecordOf(exps[k]) == Err(r.error)
                  && forall i :: 0 <= i < k ==> RecordOf(exps[i]).Ok?
    decreases |exps|
  {
    if exps == [] then Ok([])
    else
      var init := exps[..|exps| - 1];
      assert forall i :: 0 <= i < |init| ==> init[i] == exps[i];
      match Records(init)
      case Err(err) => Err(err)
      case Ok(acc) =>
        match RecordOf(exps[|exps| - 1])
        case Err(err) => Err(err)
        case Ok(rec) => Ok(acc + [rec])
  }

  /** Once a prefix has failed, the rest of the list is not looked at. */
  lemma {:induction false} RecordsKeepFirstError(exps: seq<Expectation>, n: nat)
    requires HasHistory(exps) && n <= |exps|
    requires HasHistory(exps[..n]) && Records(exps[..n]).Err?
    ensures Records(exps) == Records(exps[..n])
    decreases |exps|
  {
    if n == |exps| {
      assert exps[..n] == exps;
    } else {
      var init := exps[..|exps| - 1];
      assert init[..n] == exps[..n];
      RecordsKeepFirstError(init, n);
    }
  }

  /** The prefix of length i + 1 is the prefix of length i and element i. */
  lemma PrefixStep(exps: seq<Expectation>, i: nat)
    requires i < |exps| && HasHistory(exps)
    ensures exps[..i + 1][..i] == exps[..i] && exps[..i + 1][i] == exps[i]
    ensures HasHistory(exps[..i]) && HasHistory(exps[..i + 1])
  {
  }

  lemma PassCountStep(exps: seq<Expectation>, i: nat)
    requires i < |exps| && HasHistory(exps)
    ensures HasHistory(exps[..i]) && HasHistory(exps[..i + 1])
    ensures PassCount(exps[..i + 1]) == PassCount(exps[..i]) + (if StatusOf(exps[i]) == Passed then 1 else 0)
  {
    PrefixStep(exps, i);
  }

  /** A processing error at position i, after i processable expectations,
      is the error of the whole list. */
  lemma RecordsStepErr(exps: seq<Expectation>, i: nat, results: seq<Record>, err: Error)
    requires i < |exps| && HasHistory(exps)
    requires HasHistory(exps[..i]) && Records(exps[..i]) == Ok(results)
    requires RecordOf(exps[i]) == Err(err)
    ensures HasHistory(exps[..i + 1]) && Records(exps[..i + 1]) == Err(err)
  {
    PrefixStep(exps, i);
    var p := exps[..i + 1];
    assert p[..|p| - 1] == exps[..i];
    RecordsLastErr(p, err);
  }

  lemma RecordsLastErr(p: seq<Expectation>, err: Error)
    requires |p| > 0 && HasHistory(p)
    requires Records(p[..|p| - 1]).Ok? && RecordOf(p[|p| - 1]) == Err(err)
    ensures Records(p) == Err(err)
  {
  }

  /** A processable expectation at position i extends the records by its own. */
  lemma RecordsStepOk(exps: seq<Expectation>, i: nat, results: seq<Record>, rec: Record)
    requires i < |exps| && HasHistory(exps)
    requires HasHistory(exps[..i]) && Records(exps[..i]) == Ok(results)
    requires RecordOf(exps[i]) == Ok(rec)
    ensures HasHistory(exps[..i + 1]) && Records(exps[..i + 1]) == Ok(results + [rec])
  {
    PrefixStep(exps, i);
  }

  /** The `for expectation in validations` loop: builds the records and
      counts the passes; raises (here: returns the error) at the first
      expectation whose value cannot be processed. */
  method CollectResults(exps: seq<Expectation>) returns (records: Result<seq<Record>, Error>, passed: nat)
    requires HasHistory(exps)
    ensures records == Records(exps)
    ensures records.Ok? ==> passed == PassCount(exps) && passed <= |exps|
  {
    var results: seq<Record> := [];
    passed := 0;
    var i := 0;
    while i < |exps|
      invariant 0 <= i <= |exps|
      invariant HasHistory(exps[..i])
      invariant Records(exps[..i]) == Ok(results)
      invariant passed == PassCount(exps[..i])
    {
      var e := exps[i];
      var run := e.validations[0];
      var status: Status;
      if HasException(run) {
        status := Errored;
      } else if run.success {
        status := Passed;
        passed := passed + 1;
      } else {
        status := Failed;
      }
      var value := ProcessValidationResult(run.result, e.resultType);
      PassCountStep(exps, i);
      assert status == StatusOf(e);
      if value.Err? {
        records := Err(value.error);
        RecordsStepErr(exps, i, results, value.error);
        RecordsKeepFirstError(exps, i + 1);
        return;
      }
      var rec := Record(ColumnOf(e.kwargs), e.expectationType, status, value.value, e.documentation);
      RecordsStepOk(exps, i, results, rec);
      results := results + [rec];
      i := i + 1;
    }
    assert exps[..i] == exps;
    records := Ok(results);
  }

  /** Python's f-string of a value that may be None. */
  function PyStr(s: Option<string>): (r: string)
    ensures s.None? ==> r == "None"
    ensures s.Some? ==> r == s.value
  {
    match s
    case None => "None"
    case Some(t) => t
  }

  /** The cells of a details row between its `|` separators, padded by one
      space each, with an empty cell at either end. */
  function RowCells(r: Record, show: real -> string): seq<string> {
    ["", " " + r.column + " ", " " + PyStr(r.expectationType) + " ", " " + [Icon(r.status)] + " ",
     " " + ValueText(r.value, show) + " ", " " + PyStr(r.documentation) + " ", ""]
  }

  predicate NoBar(cells: seq<string>) {
    forall i :: 0 <= i < |cells| ==> NoSep(cells[i], '|')
  }

  /** One row of the details table,
      `| <column> | <expectation type> | <icon> | <value> | <documentation> |`,
      built as its cells joined by `|`; when no cell holds a `|`, splitting
      the row on `|` gives the cells back. */
  function RowText(r: Record, show: real -> string): (s: string)
    ensures NoBar(RowCells(r, show)) ==> Split(s, '|') == RowCells(r, show)
  {
    SplitJoinWhenNoSep(RowCells(r, show), '|');
    Join(RowCells(r, show), '|')
  }

  /** The row is the f-string `| {column} | {expectation_type} | {success} | {result_value} | {documentation} |`. */
  lemma RowTextIsFString(r: Record, show: real -> string)
    ensures RowText(r, show) ==
      "| " + r.column + " | " + PyStr(r.expectationType) + " | " + [Icon(r.status)]
      + " | " + ValueText(r.value, show) + " | " + PyStr(r.documentation) + " |"
  {
    var c, t, i, v, d := r.column, PyStr(r.expectationType), [Icon(r.status)], ValueText(r.value, show), PyStr(r.documentation);
    assert RowCells(r, show) == ["", " " + c + " ", " " + t + " ", " " + i + " ", " " + v + " ", " " + d + " ", ""];
    PaddedRowJoin(c, t, i, v, d);
    PaddedRowShape(c, t, i, v, d);
  }

  /** The joined padded cells, nested to the right. */
  lemma PaddedRowJoin(c: string, t: string, i: string, v: string, d: string)
    ensures Join(["", " " + c + " ", " " + t + " ", " " + i + " ", " " + v + " ", " " + d + " ", ""], '|')
      == "| " + (c + (" | " + (t + (" | " + (i + (" | " + (v + (" | " + (d + " |")))))))))
  {
    var cells := ["", " " + c + " ", " " + t + " ", " " + i + " ", " " + v + " ", " " + d + " ", ""];
    JoinSeven(cells, '|');
    var e5 := d + " |";
    PaddedCellLast(d);
    var e4 := v + (" | " + e5);
    PaddedCellThenBar(v, e5);
    var e3 := i + (" | " + e4);
    PaddedCellThenBar(i, e4);
    var e2 := t + (" | " + e3);
    PaddedCellThenBar(t, e3);
    var e1 := c + (" | " + e2);
    PaddedCellThenBar(c, e2);
    assert "" + ("|" + (" " + e1)) == "| " + e1;
  }

  lemma PaddedRowShape(c: string, t: string, i: string, v: string, d: string)
    ensures "| " + (c + (" | " + (t + (" | " + (i + (" | " + (v + (" | " + (d + " |")))))))))
      == "| " + c + " | " + t + " | " + i + " | " + v + " | " + d + " |"
  {
  }

  lemma PaddedCellThenBar(x: string, y: string)
    ensures (" " + x + " ") + ("|" + (" " + y)) == " " + (x + (" | " + y))
  {
  }

  lemma PaddedCellLast(x: string)
    ensures (" " + x + " ") + ("|" + "") == " " + (x + " |")
  {
  }

  lemma SplitJoinWhenNoSep(parts: seq<string>, sep: char)
    requires |parts| >= 1
    ensures (forall i :: 0 <= i < |parts| ==> NoSep(parts[i], sep)) ==> Split(Join(parts, sep), sep) == parts
  {
    if forall i :: 0 <= i < |parts| ==> NoSep(parts[i], sep) {
      SplitJoin(parts, sep);
    }
  }

  /** `table_rows`: one row per record, row i rendered from record i. */
  function TableRows(records: seq<Record>, show: real -> string): (rows: seq<string>)
    ensures |rows| == |records|
    ensures forall i :: 0 <= i < |records| ==> rows[i] == RowText(records[i], show)
    decreases |records|
  {
    if records == [] then [] else [RowText(records[0], show)] + TableRows(records[1..], show)
  }

  /** One row per expectation, in input order: row i is built from
      expectation i, and its Column cell is that expectation's column. */
  lemma RowsFollowExpectations(exps: seq<Expectation>, show: real -> string, i: nat)
    requires HasHistory(exps) && Records(exps).Ok? && i < |exps|
    ensures |TableRows(Records(exps).value, show)| == |exps|
    ensures exists rec ::
      RecordOf(exps[i]) == Ok(rec)
      && rec.column == ColumnOf(exps[i].kwargs)
      && rec.status == StatusOf(exps[i])
      && TableRows(Records(exps).value, show)[i] == RowText(rec, show)
  {
    var rec := Records(exps).value[i];
    assert RecordOf(exps[i]) == Ok(rec);
  }

  /** The overall icon: pass exactly when every expectation passed. */
  function SummaryIcon(passed: nat, total: nat): (c: char)
    ensures c == PassIcon <==> passed == total
    ensures c == FailIcon <==> passed != total
  {
    if total == passed then PassIcon else FailIcon
  }

  const SummaryTitle := "Validation Results — "
  const SummaryTail := " expectations passed"

  /** "Validation Results — <icon> <passed> of <total> expectations passed";
      it holds no newline. */
  function SummaryText(passed: nat, total: nat): (s: string)
    ensures SummaryTitle + [SummaryIcon(passed, total), ' '] <= s
    ensures NoNewline(s)
  {
    var icon := SummaryIcon(passed, total);
    var counts := NatToString(passed) + (" of " + (NatToString(total) + SummaryTail));
    SummaryNoNewline(icon, passed, total);
    SummaryTitle + ([icon] + (" " + counts))
  }

  lemma SummaryNoNewline(icon: char, passed: nat, total: nat)
    requires icon == PassIcon || icon == FailIcon
    ensures NoNewline(SummaryTitle + ([icon] + (" " + (NatToString(passed) + (" of " + (NatToString(total) + SummaryTail))))))
  {
    DigitsHaveNoNewline(NatToString(passed));
    DigitsHaveNoNewline(NatToString(total));
    NoSepAppend(NatToString(total), SummaryTail, '\n');
    NoSepAppend(" of ", NatToString(total) + SummaryTail, '\n');
    NoSepAppend(NatToString(passed), " of " + (NatToString(total) + SummaryTail), '\n');
    var counts := NatToString(passed) + (" of " + (NatToString(total) + SummaryTail));
    NoSepAppend(" ", counts, '\n');
    NoSepAppend([icon], " " + counts, '\n');
    NoSepAppend(SummaryTitle, [icon] + (" " + counts), '\n');
  }

  /** The summary determines the counts: different counts give different text. */
  lemma SummaryTextDeterminesCounts(p1: nat, t1: nat, p2: nat, t2: nat)
    requires SummaryText(p1, t1) == SummaryText(p2, t2)
    ensures p1 == p2 && t1 == t2
  {
    var n := |SummaryTitle| + 2;
    var u1 := " of " + (NatToString(t1) + SummaryTail);
    var u2 := " of " + (NatToString(t2) + SummaryTail);
    CountsAfterTitle(p1, t1);
    CountsAfterTitle(p2, t2);
    NatToStringPrefixUnique(p1, p2, u1, u2);
    assert NatToString(t1) + SummaryTail == u1[4..];
    assert NatToString(t2) + SummaryTail == u2[4..];
    NatToStringPrefixUnique(t1, t2, SummaryTail, SummaryTail);
  }

  lemma CountsAfterTitle(p: nat, t: nat)
    ensures SummaryText(p, t)[|SummaryTitle| + 2..] == NatToString(p) + (" of " + (NatToString(t) + SummaryTail))
  {
    var counts := NatToString(p) + (" of " + (NatToString(t) + SummaryTail));
    assert SummaryText(p, t) == (SummaryTitle + [SummaryIcon(p, t), ' ']) + counts;
  }

  /** The header lines of the two tables, each spelled in short pieces. */
  const TableTitles := "| Column | Expectation " + "| Success | Result " + "| Documentation |"
  const TableRule := "| --- | --- | " + "--- | --- | --- |"
  const OverviewTitles := "| Engine | Datasource Name " + "| Database " + "| Dataset Name | Run Time |"
  const OverviewRule := "|---|---|---|---|---|"

  lemma TableHeaderHasNoNewline()
    ensures NoNewline(TableTitles) && NoNewline(TableRule)
  {
    NoSepAppend("| Column | Expectation ", "| Success | Result ", '\n');
    NoSepAppend("| Column | Expectation " + "| Success | Result ", "| Documentation |", '\n');
    NoSepAppend("| --- | --- | ", "--- | --- | --- |", '\n');
  }

  lemma OverviewHeaderHasNoNewline()
    ensures NoNewline(OverviewTitles) && NoNewline(OverviewRule)
  {
    NoSepAppend("| Engine | Datasource Name ", "| Database ", '\n');
    NoSepAppend("| Engine | Datasource Name " + "| Database ", "| Dataset Name | Run Time |", '\n');
  }

  /** The `<summary>` line of the details block. */
  function SummaryLine(passed: nat, total: nat): (line: string)
    ensures NoNewline(line)
  {
    NoSepAppend(SummaryText(passed, total), "</summary>", '\n');
    NoSepAppend("<summary>", SummaryText(passed, total) + "</summary>", '\n');
    "<summary>" + (SummaryText(passed, total) + "</summary>")
  }

  /** The collapsible block: `<details>`, the summary line, `<br/>`, the
      table header, the rows joined by newlines, and `</details>`, each
      separated by a newline. When there is at least one row and no row holds
      a newline, its lines are exactly those, one line per row in order. */
  function DetailsBlock(rows: seq<string>, passed: nat, total: nat): (block: string)
    ensures |rows| >= 1 && (forall i :: 0 <= i < |rows| ==> NoNewline(rows[i])) ==>
      Split(block, '\n')
        == ["<details>", SummaryLine(passed, total), "<br/>", TableTitles, TableRule] + rows + ["</details>"]
  {
    var tail := Join(rows, '\n') + "\n" + "</details>";
    var block := "<details>" + "\n" + (SummaryLine(passed, total) + "\n" + ("<br/>" + "\n"
      + (TableTitles + "\n" + (TableRule + "\n" + tail))));
    TableHeaderHasNoNewline();
    DetailsBlockLines(rows, SummaryLine(passed, total), TableTitles, TableRule, tail);
    block
  }

  lemma DetailsBlockLines(rows: seq<string>, summary: string, titles: string, rule: string, tail: string)
    requires NoNewline(summary) && NoNewline(titles) && NoNewline(rule)
    requires tail == Join(rows, '\n') + "\n" + "</details>"
    ensures |rows| >= 1 && (forall i :: 0 <= i < |rows| ==> NoNewline(rows[i])) ==>
      Split("<details>" + "\n" + (summary + "\n" + ("<br/>" + "\n"
        + (titles + "\n" + (rule + "\n" + tail)))), '\n')
      == ["<details>", summary, "<br/>", titles, rule] + rows + ["</details>"]
  {
    if |rows| >= 1 && (forall i :: 0 <= i < |rows| ==> NoNewline(rows[i])) {
      ClosedRows(rows, tail);
      TagsHaveNoNewline();
      FiveLinesThen("<details>", summary, "<br/>", titles, rule, tail, rows + ["</details>"]);
      FiveConsed("<details>", summary, "<br/>", titles, rule, rows, ["</details>"]);
    }
  }

  lemma TagsHaveNoNewline()
    ensures NoNewline("<details>") && NoNewline("<br/>")
  {
  }

  /** The rows followed by the closing tag split into the rows and the tag. */
  lemma ClosedRows(rows: seq<string>, tail: string)
    requires |rows| >= 1 && forall i :: 0 <= i < |rows| ==> NoNewline(rows[i])
    requires tail == Join(rows, '\n') + "\n" + "</details>"
    ensures Split(tail, '\n') == rows + ["</details>"]
  {
    SplitJoinThen(rows, "</details>", '\n');
    SplitNoSep("</details>", '\n');
  }

  /** Five newline-free lines put in front of `rest` add themselves to its
      lines. */
  lemma FiveLinesThen(a: string, b: string, c: string, d: string, e: string, rest: string, tail: seq<string>)
    requires NoNewline(a) && NoNewline(b) && NoNewline(c) && NoNewline(d) && NoNewline(e)
    requires Split(rest, '\n') == tail
    ensures Split(a + "\n" + (b + "\n" + (c + "\n" + (d + "\n" + (e + "\n" + rest)))), '\n')
      == [a] + ([b] + ([c] + ([d] + ([e] + tail))))
  {
    var l4 := e + "\n" + rest;
    var l3 := d + "\n" + l4;
    var l2 := c + "\n" + l3;
    var l1 := b + "\n" + l2;
    SplitConsThen(e, rest, '\n', tail);
    SplitConsThen(d, l4, '\n', [e] + tail);
    SplitConsThen(c, l3, '\n', [d] + ([e] + tail));
    SplitConsThen(b, l2, '\n', [c] + ([d] + ([e] + tail)));
    SplitConsThen(a, l1, '\n', [b] + ([c] + ([d] + ([e] + tail))));
  }

  lemma FiveConsed<T>(a: T, b: T, c: T, d: T, e: T, xs: seq<T>, ys: seq<T>)
    ensures [a] + ([b] + ([c] + ([d] + ([e] + (xs + ys))))) == [a, b, c, d, e] + xs + ys
  {
  }

  /** The data row of the overview table,
      `|<engine>|<datasource name>|<database>|<dataset name>|<run time>|`,
      built as its cells joined by `|`; when no field holds a `|`, splitting
      the row on `|` gives the fields back. */
  function OverviewRow(d: Dataset, runTime: string): (row: string)
    ensures NoBar(OverviewCells(d, runTime)) ==> Split(row, '|') == OverviewCells(d, runTime)
  {
    SplitJoinWhenNoSep(OverviewCells(d, runTime), '|');
    Join(OverviewCells(d, runTime), '|')
  }

  /** The row is the f-string `|{engine}|{datasource_name}|{database}|{dataset_name}|{run_time}|`. */
  lemma OverviewRowIsFString(d: Dataset, runTime: string)
    ensures OverviewRow(d, runTime) ==
      "|" + d.engine + "|" + d.datasourceName + "|" + d.database + "|" + d.datasetName + "|" + runTime + "|"
  {
    BarRowJoin(d.engine, d.datasourceName, d.database, d.datasetName, runTime);
    BarRowShape(d.engine, d.datasourceName, d.database, d.datasetName, runTime);
  }

  lemma BarRowJoin(a: string, b: string, c: string, e: string, f: string)
    ensures Join(["", a, b, c, e, f, ""], '|')
      == "" + ("|" + (a + ("|" + (b + ("|" + (c + ("|" + (e + ("|" + (f + ("|" + "")))))))))))
  {
    JoinSeven(["", a, b, c, e, f, ""], '|');
  }

  lemma BarRowShape(a: string, b: string, c: string, e: string, f: string)
    ensures "" + ("|" + (a + ("|" + (b + ("|" + (c + ("|" + (e + ("|" + (f + ("|" + "")))))))))))
      == "|" + a + "|" + b + "|" + c + "|" + e + "|" + f + "|"
  {
  }

  function OverviewCells(d: Dataset, runTime: string): seq<string> {
    ["", d.engine, d.datasourceName, d.database, d.datasetName, runTime, ""]
  }

  /** The overview table: the two header lines, then its one data row. */
  function OverviewTable(d: Dataset, runTime: string): (table: string)
    ensures NoNewline(OverviewRow(d, runTime)) ==>
      Split(table, '\n') == [OverviewTitles, OverviewRule, OverviewRow(d, runTime)]
  {
    var row := OverviewRow(d, runTime);
    OverviewLines(row, "");
    OverviewTitles + "\n" + (OverviewRule + "\n" + row)
  }

  lemma OverviewLines(row: string, rest: string)
    ensures NoNewline(row) ==>
      Split(OverviewTitles + "\n" + (OverviewRule + "\n" + row), '\n') == [OverviewTitles, OverviewRule, row]
  {
    if NoNewline(row) {
      OverviewHeaderHasNoNewline();
      SplitNoSep(row, '\n');
      SplitCons(OverviewRule, row, '\n');
      SplitCons(OverviewTitles, OverviewRule + "\n" + row, '\n');
    }
  }

  /** The comment body: overview table, blank line, details block. When the
      overview row holds no newline, the three lines of the overview table
      come first, then a blank line, then the lines of the details block. */
  function Markdown(d: Dataset, runTime: string, rows: seq<string>, passed: nat, total: nat): (md: string)
    ensures NoNewline(OverviewRow(d, runTime)) ==>
      Split(md, '\n')
        == [OverviewTitles, OverviewRule, OverviewRow(d, runTime), ""] + Split(DetailsBlock(rows, passed, total), '\n')
  {
    var row := OverviewRow(d, runTime);
    var details := DetailsBlock(rows, passed, total);
    MarkdownLines(row, details);
    OverviewTable(d, runTime) + "\n\n" + details
  }

  lemma MarkdownLines(row: string, details: string)
    ensures NoNewline(row) ==>
      Split(OverviewTitles + "\n" + (OverviewRule + "\n" + row) + "\n\n" + details, '\n')
        == [OverviewTitles, OverviewRule, row, ""] + Split(details, '\n')
  {
    if NoNewline(row) {
      OverviewHeaderHasNoNewline();
      ThreeLinesBlankThen(OverviewTitles, OverviewRule, row, details);
    }
  }

  /** Lines `a`, `b`, `c`, a blank line, then the lines of `rest`. */
  lemma ThreeLinesBlankThen(a: string, b: string, c: string, rest: string)
    requires NoNewline(a) && NoNewline(b) && NoNewline(c)
    ensures Split(a + "\n" + (b + "\n" + c) + "\n\n" + rest, '\n') == [a, b, c, ""] + Split(rest, '\n')
  {
    var tail := Split(rest, '\n');
    var l3 := "" + "\n" + rest;
    var l2 := c + "\n" + l3;
    var l1 := b + "\n" + l2;
    SplitConsThen("", rest, '\n', tail);
    SplitConsThen(c, l3, '\n', [""] + tail);
    SplitConsThen(b, l2, '\n', [c] + ([""] + tail));
    SplitConsThen(a, l1, '\n', [b] + ([c] + ([""] + tail)));
    ThreeLinesBlankShape(a, b, c, rest);
    FourConsed(a, b, c, "", tail);
  }

  lemma ThreeLinesBlankShape(a: string, b: string, c: string, rest: string)
    ensures a + "\n" + (b + "\n" + c) + "\n\n" + rest == a + "\n" + (b + "\n" + (c + "\n" + ("" + "\n" + rest)))
  {
  }

  lemma FourConsed<T>(a: T, b: T, c: T, d: T, tail: seq<T>)
    ensures [a] + ([b] + ([c] + ([d] + tail))) == [a, b, c, d] + tail
  {
  }

  /** The rest of `main` after the fetches: the markdown comment, or the error
      raised while processing a result value. Needs a non-empty list
      (`validations[0]` is read for the run time). */
  method BuildReport(
    dataset: Dataset, exps: seq<Expectation>,
    show: real -> string, formatRunTime: string -> string)
    returns (markdown: Result<string, Error>)
    requires |exps| > 0 && HasHistory(exps)
    ensures markdown.Ok? <==> Records(exps).Ok?
    ensures markdown.Err? ==> markdown.error == Records(exps).error
    ensures markdown.Ok? ==>
      markdown.value == Markdown(dataset, formatRunTime(exps[0].validations[0].runTime),
                                 TableRows(Records(exps).value, show), PassCount(exps), |exps|)
  {
    var records, passed := CollectResults(exps);
    if records.Err? {
      return Err(records.error);
    }
    var total := |exps|;
    var rows := TableRows(records.value, show);
    var runTime := formatRunTime(exps[0].validations[0].runTime);
    markdown := Ok(Markdown(dataset, runTime, rows, passed, total));
  }

  /** The end-to-end case of three expectations, two passing and one with an
      exception message: two of three passed, and the overall icon is fail. */
  lemma ThreeWithOneError(a: Expectation, b: Expectation, c: Expectation)
    requires |a.validations| > 0 && |b.validations| > 0 && |c.validations| > 0
    requires StatusOf(a) == Passed && StatusOf(b) == Passed && HasException(Latest(c))
    ensures PassCount([a, b, c]) == 2
    ensures SummaryText(PassCount([a, b, c]), 3) == SummaryTitle + [FailIcon] + " 2 of 3" + SummaryTail
  {
    assert [a][..0] == [];
    assert PassCount([a]) == 1;
    assert [a, b][..1] == [a];
    assert PassCount([a, b]) == 2;
    assert [a, b, c][..2] == [a, b];
    TwoOfThreeText();
  }

  lemma TwoOfThreeText()
    ensures SummaryText(2, 3) == SummaryTitle + [FailIcon] + " 2 of 3" + SummaryTail
  {
    assert NatToString(2) == "2" && NatToString(3) == "3";
    assert SummaryIcon(2, 3) == FailIcon;
    assert SummaryTitle + ([FailIcon] + (" " + ("2" + (" of " + ("3" + SummaryTail)))))
      == SummaryTitle + [FailIcon] + " 2 of 3" + SummaryTail;
  }
}
