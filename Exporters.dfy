/** The in-memory structures the exporters of exporters.py build from the
    duplicate groups: the CSV rows, the JSON efficiency report, the two Excel
    sheets and the Markdown sections. Writing them to files is not modelled. */
module Exporters {
  import opened SpanModel
  import opened SpanAnalyzer
  import opened TimeGrouping
  import opened GroupAggregates
  import opened Efficiency

  const AnalyzerVersion: string := "1.0.0"

  /** One row of the CSV file, and of the Excel 'Detailed Data' sheet, which has
      the same columns in the same order. */
  datatype CallRow = CallRow(
    groupNumber: nat,
    callNumber: nat,
    startTime: Timestamp,
    model: Field<Value>,
    promptTokens: Field<Value>,
    completionTokens: Field<Value>,
    totalTokens: Field<Value>,
    durationUs: Field<int>,
    temperature: Field<Value>,
    maxTokens: Field<Value>,
    cost: Field<Value>,
    status: Field<Value>)

  function CallRowOf(groupNumber: nat, callNumber: nat, startTime: Timestamp, d: CallDetails): CallRow {
    CallRow(groupNumber, callNumber, startTime, d.model, d.promptTokens, d.completionTokens,
            d.totalTokens, d.durationUs, d.temperature, d.maxTokens, d.cost, d.status)
  }

  /** The rows of the group numbered `groupNumber`, one per call, numbered from 1. */
  function GroupRows(groupNumber: nat, startTime: Timestamp, cs: seq<CallDetails>): (rows: seq<CallRow>)
    ensures |rows| == |cs|
  {
    seq(|cs|, j requires 0 <= j < |cs| => CallRowOf(groupNumber, j + 1, startTime, cs[j]))
  }

  /** The rows of all groups, group after group. */
  function CsvRows(groups: seq<Group>): seq<CallRow> {
    if |groups| == 0 then []
    else
      var last := groups[|groups| - 1];
      CsvRows(groups[..|groups| - 1]) + GroupRows(|groups|, last.key, CallsOf(last))
  }

  /** The number of calls over all groups. */
  function TotalCalls(groups: seq<Group>): nat {
    if |groups| == 0 then 0 else TotalCalls(groups[..|groups| - 1]) + |groups[|groups| - 1].entries|
  }

  /** One row per call: the row count is the sum of the group sizes, and the
      j-th call of the i-th group sits after the calls of the earlier groups,
      numbered (i + 1, j + 1). */
  lemma {:induction false} CsvRowsLayout(groups: seq<Group>, i: nat, j: nat)
    requires i < |groups| && j < |groups[i].entries|
    ensures |CsvRows(groups)| == TotalCalls(groups)
    ensures TotalCalls(groups[..i]) + j < |CsvRows(groups)|
    ensures CsvRows(groups)[TotalCalls(groups[..i]) + j] ==
            CallRowOf(i + 1, j + 1, groups[i].key, Normalize(groups[i].entries[j].span))
  {
    var init := groups[..|groups| - 1];
    CsvRowCount(init);
    if i == |groups| - 1 {
      assert groups[..i] == init;
    } else {
      CsvRowsLayout(init, i, j);
      assert init[..i] == groups[..i];
    }
  }

  lemma {:induction false} CsvRowCount(groups: seq<Group>)
    ensures |CsvRows(groups)| == TotalCalls(groups)
  {
    if |groups| > 0 {
      CsvRowCount(groups[..|groups| - 1]);
    }
  }

  /** The nested loops of `export_grouped_calls_to_csv`. */
  method ExportGroupedCallsToCsv(groups: seq<Group>) returns (rows: seq<CallRow>)
    ensures rows == CsvRows(groups)
  {
    rows := [];
    var i := 0;
    while i < |groups|
      invariant 0 <= i <= |groups|
      invariant rows == CsvRows(groups[..i])
    {
      var groupNum := i + 1;
      var g := groups[i];
      var j := 0;
      while j < |g.entries|
        invariant 0 <= j <= |g.entries|
        invariant rows == CsvRows(groups[..i]) + GroupRows(groupNum, g.key, CallsOf(g))[..j]
      {
        var callNum := j + 1;
        var d := Normalize(g.entries[j].span);
        rows := rows + [CallRow(groupNum, callNum, g.key, d.model, d.promptTokens, d.completionTokens,
                                d.totalTokens, d.durationUs, d.temperature, d.maxTokens, d.cost, d.status)];
        var groupRows := GroupRows(groupNum, g.key, CallsOf(g));
        assert groupRows[..j + 1] == groupRows[..j] + [groupRows[j]];
        j := j + 1;
      }
      assert GroupRows(groupNum, g.key, CallsOf(g))[..j] == GroupRows(groupNum, g.key, CallsOf(g));
      assert groups[..i + 1][..i] == groups[..i];
      i := i + 1;
    }
    assert groups[..|groups|] == groups;
  }

  // ---------------------------------------------------------------------------
  // JSON efficiency report

  /** One entry of `calls`; the nested `tokens` and `performance` objects are flattened. */
  datatype CallData = CallData(
    callId: nat,
    model: Field<Value>,
    promptTokens: Field<Value>,
    completionTokens: Field<Value>,
    totalTokens: Field<Value>,
    durationUs: Field<int>,
    temperature: Field<Value>,
    maxTokens: Field<Value>,
    cost: Field<Value>,
    status: Field<Value>)

  function CallDataOf(callId: nat, d: CallDetails): CallData {
    CallData(callId, d.model, d.promptTokens, d.completionTokens, d.totalTokens, d.durationUs,
             d.temperature, d.maxTokens, d.cost, d.status)
  }

  datatype Summary = Summary(
    totalCalls: nat,
    modelsUsed: seq<Field<Value>>,
    totalTokens: int,
    averageDurationMs: real)

  datatype GroupData = GroupData(groupId: nat, startTime: Timestamp, calls: seq<CallData>, summary: Summary)

  /** One entry of the analysis results, keyed by group id. */
  datatype AnalysisEntry = AnalysisEntry(groupId: nat, text: string)

  datatype Report = Report(
    totalGroups: nat,
    analyzerVersion: string,
    groups: seq<GroupData>,
    openaiAnalysis: Option<seq<AnalysisEntry>>)

  /** What the report says about the group numbered `groupId` with key
      `startTime` and normalised calls `cs`: every call in
      order, the call count, each model once in first-seen order, the token
      total and the average duration over all calls. */
  predicate JsonGroupOf(gd: GroupData, groupId: nat, startTime: Timestamp, cs: seq<CallDetails>) {
    && gd.groupId == groupId
    && gd.startTime == startTime
    && |gd.calls| == |cs|
    && (forall j :: 0 <= j < |cs| ==> gd.calls[j] == CallDataOf(j + 1, cs[j]))
    && gd.summary.totalCalls == |cs|
    && gd.summary.modelsUsed == Distinct(ModelsOf(cs))
    && gd.summary.totalTokens == GroupTokens(cs)
    && gd.summary.averageDurationMs == AverageDurationMs(GroupDurationUs(cs), |cs|)
  }

  /** The try block both exporters run per call: add `int(total_tokens)` unless
      it is 'N/A', then the duration unless it is 'N/A'; a failed conversion
      abandons the rest of the block. */
  method AddToTotals(d: CallDetails, tokens: int, durationUs: int)
    returns (tokens': int, durationUs': int, raised: bool)
    ensures raised <==> TokenStepOf(d).Raised?
    ensures tokens' == tokens + TokensAdded(d)
    ensures durationUs' == durationUs + DurationAdded(d)
  {
    tokens', durationUs', raised := tokens, durationUs, false;
    if !IsNA(d.totalTokens) {
      match PyInt(d.totalTokens.v) {
        case Some(n) => tokens' := tokens + n;
        case None => return tokens, durationUs, true;
      }
    }
    if d.durationUs.Val? {
      durationUs' := durationUs + d.durationUs.v;
    }
  }

  /** The inner loop of `export_efficiency_report`: the model dedup runs for
      every call, while the token and duration sums share one try block. */
  method AccumulateGroup(cs: seq<CallDetails>)
    returns (calls: seq<CallData>, modelsUsed: seq<Field<Value>>, totalTokens: int, totalDuration: int)
    ensures |calls| == |cs|
    ensures forall k :: 0 <= k < |cs| ==> calls[k] == CallDataOf(k + 1, cs[k])
    ensures modelsUsed == Distinct(ModelsOf(cs))
    ensures totalTokens == GroupTokens(cs)
    ensures totalDuration == GroupDurationUs(cs)
  {
    calls, modelsUsed, totalTokens, totalDuration := [], [], 0, 0;
    var j := 0;
    while j < |cs|
      invariant 0 <= j <= |cs|
      invariant |calls| == j
      invariant forall k :: 0 <= k < j ==> calls[k] == CallDataOf(k + 1, cs[k])
      invariant modelsUsed == Distinct(ModelsOf(cs[..j]))
      invariant totalTokens == GroupTokens(cs[..j])
      invariant totalDuration == GroupDurationUs(cs[..j])
    {
      var d := cs[j];
      TotalsStep(cs, j);
      ModelsStep(cs, j);
      calls := calls + [CallDataOf(j + 1, d)];
      if d.model !in modelsUsed {
        modelsUsed := modelsUsed + [d.model];
      }
      var raised;
      totalTokens, totalDuration, raised := AddToTotals(d, totalTokens, totalDuration);
      j := j + 1;
    }
    assert cs[..|cs|] == cs;
  }

  /** One group of the report: its calls and its summary, the average duration
      taken over all calls. */
  method JsonGroup(groupId: nat, startTime: Timestamp, cs: seq<CallDetails>) returns (gd: GroupData)
    ensures JsonGroupOf(gd, groupId, startTime, cs)
  {
    var calls, modelsUsed, totalTokens, totalDuration := AccumulateGroup(cs);
    var average := if |cs| > 0 then totalDuration as real / (1000.0 * |cs| as real) else 0.0;
    gd := GroupData(groupId, startTime, calls, Summary(|cs|, modelsUsed, totalTokens, average));
  }

  /** The report of `export_efficiency_report`: the group count, the version,
      one entry per group numbered from 1, and the analysis results only when
      there are any. */
  predicate EfficiencyReportOf(report: Report, groups: seq<Group>, analysis: seq<AnalysisEntry>) {
    && report.totalGroups == |groups| && report.analyzerVersion == AnalyzerVersion
    && |report.groups| == |groups|
    && (forall i :: 0 <= i < |groups| ==>
          JsonGroupOf(report.groups[i], i + 1, groups[i].key, CallsOf(groups[i])))
    && report.openaiAnalysis == if |analysis| > 0 then Some(analysis) else None
  }

  method ExportEfficiencyReport(groups: seq<Group>, analysis: seq<AnalysisEntry>) returns (report: Report)
    ensures EfficiencyReportOf(report, groups, analysis)
  {
    var gs: seq<GroupData> := [];
    var i := 0;
    while i < |groups|
      invariant 0 <= i <= |groups|
      invariant |gs| == i
      invariant forall k :: 0 <= k < i ==> JsonGroupOf(gs[k], k + 1, groups[k].key, CallsOf(groups[k]))
    {
      var gd := JsonGroup(i + 1, groups[i].key, CallsOf(groups[i]));
      gs := gs + [gd];
      i := i + 1;
    }
    report := Report(|groups|, AnalyzerVersion, gs, None);
    if |analysis| > 0 {
      report := report.(openaiAnalysis := Some(analysis));
    }
  }

  // ---------------------------------------------------------------------------
  // Excel workbook

  datatype SummaryRow = SummaryRow(
    group: nat,
    startTime: Timestamp,
    numberOfCalls: nat,
    modelsUsed: string,
    totalTokens: int,
    averageDurationMs: real)

  /** The 'Summary' and 'Detailed Data' sheets. */
  datatype Workbook = Workbook(summary: seq<SummaryRow>, detailed: seq<CallRow>)

  /** A model as `str.join` accepts it: the sentinel and stored strings are
      strings; anything else makes the join raise. */
  function ModelText(m: Field<Value>): Option<string> {
    match m
    case NA => Some(Sentinel)
    case Val(VStr(s)) => Some(s)
    case Val(_) => None
  }

  /** `', '.join(models)`, or None when an element is not a string. */
  function JoinModels(ms: seq<Field<Value>>): Option<string> {
    if |ms| == 0 then Some("")
    else
      match (JoinModels(ms[..|ms| - 1]), ModelText(ms[|ms| - 1]))
      case (Some(init), Some(last)) => Some(if |ms| == 1 then last else init + ", " + last)
      case _ => None
  }

  /** The join fails exactly when some model is not a string. */
  lemma {:induction false} JoinModelsFailsIffNonString(ms: seq<Field<Value>>)
    ensures JoinModels(ms).None? <==> exists k :: 0 <= k < |ms| && ModelText(ms[k]).None?
  {
    if |ms| > 0 {
      var init := ms[..|ms| - 1];
      JoinModelsFailsIffNonString(init);
      if JoinModels(init).None? {
        var k :| 0 <= k < |init| && ModelText(init[k]).None?;
        assert ms[k] == init[k];
      }
      if exists k :: 0 <= k < |ms| && ModelText(ms[k]).None? {
        var k :| 0 <= k < |ms| && ModelText(ms[k]).None?;
        if k < |init| {
          assert init[k] == ms[k];
        }
      }
    }
  }

  /** Two names joined with a comma and a space; a numeric model breaks the join. */
  lemma JoinModelsExamples()
    ensures JoinModels([Val(VStr("gpt-4o")), NA]) == Some("gpt-4o, N/A")
    ensures JoinModels([Val(VStr("gpt-4o")), Val(VInt(4))]).None?
  {
    var ms := [Val(VStr("gpt-4o")), NA];
    assert ms[..1] == [Val(VStr("gpt-4o"))];
    assert [Val(VStr("gpt-4o"))][..0] == [];
    assert JoinModels(ms[..1]) == Some("gpt-4o");
    assert ModelText(NA) == Some("N/A");
    assert "gpt-4o" + ", " + "N/A" == "gpt-4o, N/A";
    var bad := [Val(VStr("gpt-4o")), Val(VInt(4))];
    assert bad[..1] == [Val(VStr("gpt-4o"))];
  }

  /** What the 'Summary' sheet says about the group numbered `groupNumber`
      with key `startTime` and normalised calls `cs`: the call count, the
      joined model list, the token total and the average duration. */
  predicate ExcelSummaryOf(row: SummaryRow, groupNumber: nat, startTime: Timestamp, cs: seq<CallDetails>) {
    && row.group == groupNumber
    && row.startTime == startTime
    && row.numberOfCalls == |cs|
    && JoinModels(Distinct(CountedModels(cs))) == Some(row.modelsUsed)
    && row.totalTokens == GroupTokens(cs)
    && row.averageDurationMs == AverageDurationMs(GroupDurationUs(cs), |cs|)
  }

  /** The models of a group that reach the Excel summary, deduplicated. */
  function ExcelModels(g: Group): seq<Field<Value>> {
    Distinct(CountedModels(CallsOf(g)))
  }

  /** The models of the group join into one string. */
  predicate Joinable(g: Group) {
    JoinModels(ExcelModels(g)).Some?
  }

  /** Every group of the list is joinable. */
  predicate AllJoinable(groups: seq<Group>) {
    |groups| == 0 || (AllJoinable(groups[..|groups| - 1]) && Joinable(groups[|groups| - 1]))
  }

  /** A list is joinable exactly when each of its groups is, and then so is each prefix. */
  lemma {:induction false} AllJoinableIff(groups: seq<Group>)
    ensures AllJoinable(groups) <==> forall i :: 0 <= i < |groups| ==> Joinable(groups[i])
  {
    if |groups| > 0 {
      var init := groups[..|groups| - 1];
      AllJoinableIff(init);
      assert forall i :: 0 <= i < |init| ==> init[i] == groups[i];
    }
  }

  /** A list with an unjoinable prefix is unjoinable. */
  lemma AllJoinablePrefix(groups: seq<Group>, n: nat)
    requires n <= |groups|
    ensures AllJoinable(groups) ==> AllJoinable(groups[..n])
  {
    AllJoinableIff(groups);
    AllJoinableIff(groups[..n]);
  }

  /** The inner loop of `export_to_excel`: detail rows for every call; tokens,
      duration and the model dedup all in one try block, so a call whose token
      count fails to convert adds none of them. */
  method ExcelGroup(groupNum: nat, startTime: Timestamp, cs: seq<CallDetails>)
    returns (detail: seq<CallRow>, groupTokens: int, groupDurationUs: int, modelsInGroup: seq<Field<Value>>)
    ensures detail == GroupRows(groupNum, startTime, cs)
    ensures groupTokens == GroupTokens(cs) && groupDurationUs == GroupDurationUs(cs)
    ensures modelsInGroup == Distinct(CountedModels(cs))
  {
    detail := [];
    groupTokens := 0;
    groupDurationUs := 0;
    modelsInGroup := [];
    var j := 0;
    while j < |cs|
      invariant 0 <= j <= |cs|
      invariant detail == GroupRows(groupNum, startTime, cs)[..j]
      invariant groupTokens == GroupTokens(cs[..j])
      invariant groupDurationUs == GroupDurationUs(cs[..j])
      invariant modelsInGroup == Distinct(CountedModels(cs[..j]))
    {
      var d := cs[j];
      detail := detail + [CallRowOf(groupNum, j + 1, startTime, d)];
      var rows := GroupRows(groupNum, startTime, cs);
      assert rows[..j + 1] == rows[..j] + [rows[j]];
      var raised;
      groupTokens, groupDurationUs, raised := AddToTotals(d, groupTokens, groupDurationUs);
      if !raised && d.model !in modelsInGroup {
        modelsInGroup := modelsInGroup + [d.model];
      }
      TotalsStep(cs, j);
      CountedModelsStep(cs, j);
      j := j + 1;
    }
    assert cs[..|cs|] == cs;
    assert GroupRows(groupNum, startTime, cs)[..j] == GroupRows(groupNum, startTime, cs);
  }

  /** One pass of the outer loop of `export_to_excel`: the group's detail rows
      and, unless its model list fails to join, its summary row. */
  method ExcelSheetsOfGroup(groupNum: nat, g: Group) returns (detail: seq<CallRow>, row: Option<SummaryRow>)
    ensures detail == GroupRows(groupNum, g.key, CallsOf(g))
    ensures row.Some? <==> Joinable(g)
    ensures row.Some? ==> ExcelSummaryOf(row.value, groupNum, g.key, CallsOf(g))
  {
    var cs := CallsOf(g);
    var groupTokens, groupDurationUs, modelsInGroup;
    detail, groupTokens, groupDurationUs, modelsInGroup := ExcelGroup(groupNum, g.key, cs);
    var joined := JoinModels(modelsInGroup);
    if joined.None? {
      return detail, None;
    }
    var n := |cs|;
    var average := if n > 0 then groupDurationUs as real / (1000.0 * n as real) else 0.0;
    row := Some(SummaryRow(groupNum, g.key, n, joined.value, groupTokens, average));
  }

  /** The CSV rows of one more group follow those of the earlier ones. */
  lemma CsvRowsStep(groups: seq<Group>, i: nat)
    requires i < |groups|
    ensures CsvRows(groups[..i + 1]) == CsvRows(groups[..i]) + GroupRows(i + 1, groups[i].key, CallsOf(groups[i]))
  {
    assert groups[..i + 1][..i] == groups[..i];
  }

  /** The workbook of `export_to_excel`: the detail sheet holds exactly the
      CSV rows and the summary one row per group, numbered from 1. */
  predicate WorkbookOf(wb: Workbook, groups: seq<Group>) {
    && wb.detailed == CsvRows(groups)
    && |wb.summary| == |groups|
    && forall i :: 0 <= i < |groups| ==>
         ExcelSummaryOf(wb.summary[i], i + 1, groups[i].key, CallsOf(groups[i]))
  }

  /** `export_to_excel`: fails when the model list of some group cannot be
      joined, and otherwise builds the workbook. */
  method ExportToExcel(groups: seq<Group>) returns (r: Result<Workbook>)
    ensures r.Failure? <==> !AllJoinable(groups)
    ensures r.Success? ==> WorkbookOf(r.value, groups)
  {
    var summaryData: seq<SummaryRow> := [];
    var detailedData: seq<CallRow> := [];
    var i := 0;
    while i < |groups|
      invariant 0 <= i <= |groups|
      invariant AllJoinable(groups[..i])
      invariant detailedData == CsvRows(groups[..i])
      invariant |summaryData| == i
      invariant forall k :: 0 <= k < i ==>
                  ExcelSummaryOf(summaryData[k], k + 1, groups[k].key, CallsOf(groups[k]))
    {
      var detail, row := ExcelSheetsOfGroup(i + 1, groups[i]);
      CsvRowsStep(groups, i);
      detailedData := detailedData + detail;
      if row.None? {
        AllJoinablePrefix(groups, i + 1);
        return Failure("sequence item: expected str instance");
      }
      assert groups[..i + 1][..i] == groups[..i];
      summaryData := summaryData + [row.value];
      i := i + 1;
    }
    assert groups[..|groups|] == groups;
    return Success(Workbook(summaryData, detailedData));
  }

  // ---------------------------------------------------------------------------
  // Markdown report

  /** One table row; the variant column is the letter with code point `variantCode`. */
  datatype MdRow = MdRow(
    variantCode: int,
    model: Field<Value>,
    promptTokens: Field<Value>,
    completionTokens: Field<Value>,
    totalTokens: Field<Value>,
    durationUs: Field<int>)

  datatype MdSection = MdSection(groupNum: nat, startTime: Timestamp, numberOfCalls: nat, rows: seq<MdRow>)

  /** The header count, the group sections, and the analysis section (absent when empty). */
  datatype MdReport = MdReport(totalGroups: nat, sections: seq<MdSection>, analysis: seq<AnalysisEntry>)

  function MdRowOf(k: nat, d: CallDetails): MdRow {
    MdRow(VariantCode(k), d.model, d.promptTokens, d.completionTokens, d.totalTokens, d.durationUs)
  }

  /** The section of group `g` numbered `groupNum`: its calls lettered from 'A'. */
  predicate MdSectionOf(sec: MdSection, groupNum: nat, g: Group) {
    && sec.groupNum == groupNum
    && sec.startTime == g.key
    && sec.numberOfCalls == |g.entries|
    && |sec.rows| == |g.entries|
    && forall k :: 0 <= k < |g.entries| ==>
         sec.rows[k] == MdRowOf(k + 1, Normalize(g.entries[k].span)) &&
         sec.rows[k].variantCode == 'A' as int + k
  }

  method MarkdownSection(groupNum: nat, g: Group) returns (sec: MdSection)
    ensures MdSectionOf(sec, groupNum, g)
  {
    var rows: seq<MdRow> := [];
    var k := 0;
    while k < |g.entries|
      invariant 0 <= k <= |g.entries|
      invariant |rows| == k
      invariant forall c :: 0 <= c < k ==>
                  rows[c] == MdRowOf(c + 1, Normalize(g.entries[c].span)) && rows[c].variantCode == 'A' as int + c
    {
      var d := Normalize(g.entries[k].span);
      rows := rows + [MdRow(VariantCode(k + 1), d.model, d.promptTokens, d.completionTokens,
                            d.totalTokens, d.durationUs)];
      k := k + 1;
    }
    sec := MdSection(groupNum, g.key, |g.entries|, rows);
  }

  /** The document of `generate_markdown_report`: the group count, one section
      per group numbered from 1, then the analysis results when there are any. */
  predicate MarkdownReportOf(doc: MdReport, groups: seq<Group>, analysis: seq<AnalysisEntry>) {
    && doc.totalGroups == |groups| && |doc.sections| == |groups|
    && (forall i :: 0 <= i < |groups| ==> MdSectionOf(doc.sections[i], i + 1, groups[i]))
    && doc.analysis == analysis
  }

  method GenerateMarkdownReport(groups: seq<Group>, analysis: seq<AnalysisEntry>) returns (doc: MdReport)
    ensures MarkdownReportOf(doc, groups, analysis)
  {
    var sections: seq<MdSection> := [];
    var i := 0;
    while i < |groups|
      invariant 0 <= i <= |groups|
      invariant |sections| == i
      invariant forall k :: 0 <= k < i ==> MdSectionOf(sections[k], k + 1, groups[k])
    {
      var sec := MarkdownSection(i + 1, groups[i]);
      sections := sections + [sec];
      i := i + 1;
    }
    var results: seq<AnalysisEntry> := [];
    if |analysis| > 0 {
      results := analysis;
    }
    doc := MdReport(|groups|, sections, results);
  }
}
