/** src/generateMarkdownComment.ts: the pull-request comment, a Markdown
    document grown section by section, with `|` escaped as `\|` inside table
    cells as GitHub Flavored Markdown requires (section 4.10, "Tables"). */
module Markdown {
  import opened Wrappers
  import opened Strings
  import opened Prompt
  import opened TopIssues
  import opened Report

  /** `Number.prototype.toFixed`: a number and a count of decimals to text.
      Floating-point formatting is not modelled; the renderer takes it as a
      parameter. */
  type Fixed = (real, nat) -> string

  /** The TypeErrors that stop rendering: `score.toFixed` on a file without a
      score, and `tests.forEach` on a file without tests. */
  datatype RenderError = MissingScore(file: string) | MissingTests(file: string)

  // ---------------------------------------------------------------------
  // The pipe escape `text.replace(/\|/g, "\\|")`

  function Escape(s: string): string
  {
    if s == [] then ""
    else (if s[0] == '|' then "\\|" else [s[0]]) + Escape(s[1..])
  }

  /** Reads a cell back: `\|` is a pipe, every other character itself. */
  function Unescape(s: string): string
  {
    if s == [] then ""
    else if |s| >= 2 && s[0] == '\\' && s[1] == '|' then "|" + Unescape(s[2..])
    else [s[0]] + Unescape(s[1..])
  }

  /** Every pipe of `s` is written `\|`, so none of them ends a cell. */
  predicate PipesEscaped(s: string)
  {
    forall i :: 0 <= i < |s| && s[i] == '|' ==> 0 < i && s[i - 1] == '\\'
  }

  lemma EscapeNeverStartsWithPipe(s: string)
    ensures Escape(s) == "" || Escape(s)[0] != '|'
  {
  }

  /** The escape loses nothing: reading the cell back gives the text. */
  lemma {:induction false} EscapeRoundTrip(s: string)
    ensures Unescape(Escape(s)) == s
  {
    if s != [] {
      EscapeRoundTrip(s[1..]);
      EscapeNeverStartsWithPipe(s[1..]);
      if s[0] == '|' {
        assert Escape(s)[2..] == Escape(s[1..]);
      } else {
        assert Escape(s)[1..] == Escape(s[1..]);
      }
    }
  }

  /** Each pipe gains one backslash, and nothing else changes length. */
  lemma {:induction false} EscapeLength(s: string)
    ensures |Escape(s)| == |s| + Count(s, '|')
  {
    if s != [] {
      EscapeLength(s[1..]);
    }
  }

  lemma {:induction false} EscapeEscapesPipes(s: string)
    ensures PipesEscaped(Escape(s))
  {
    if s != [] {
      EscapeEscapesPipes(s[1..]);
      EscapeNeverStartsWithPipe(s[1..]);
      var head := if s[0] == '|' then "\\|" else [s[0]];
      var e := Escape(s);
      assert e == head + Escape(s[1..]);
      forall i | 0 <= i < |e| && e[i] == '|'
        ensures 0 < i && e[i - 1] == '\\'
      {
        if i >= |head| {
          assert e[i] == Escape(s[1..])[i - |head|];
          if i > |head| {
            assert e[i - 1] == Escape(s[1..])[i - |head| - 1];
          }
        }
      }
    }
  }

  /** Text without pipes goes into a cell unchanged. */
  lemma {:induction false} EscapeKeepsPipeFreeText(s: string)
    requires '|' !in s
    ensures Escape(s) == s
  {
    if s != [] {
      EscapeKeepsPipeFreeText(s[1..]);
    }
  }

  // ---------------------------------------------------------------------
  // The pieces of the document, each a chunk the source appends with `+=`

  const Title: string := "# \U{1F4CA} Test Quality Analysis\n\n"
  const SummaryHeading: string := "## Summary\n\n"
  const MetricHeader: string := "| Metric | Value |\n"
  const TwoColumnRule: string := "| --- | --- |\n"
  const AssessmentHeading: string := "## Overall Assessment\n\n"
  const TopIssuesHeading: string := "## Top Issues\n\n"
  const IssueHeader: string := "| File | Issue |\n"
  const DetailedReportHeading: string := "## Detailed Report\n\n"
  const ReportHeader: string := "| File | Score | Summary |\n"
  const ThreeColumnRule: string := "| --- | --- | --- |\n"
  const TestDetailsHeading: string := "## Test Details\n\n"
  const TestHeader: string := "| Test | Score | Meaningful | Suggestions |\n"
  const FourColumnRule: string := "| --- | --- | --- | --- |\n"
  const Meaningful: string := "✅"
  const NotMeaningful: string := "❌"

  function TotalFilesRow(totalFiles: nat): string
  {
    "| Total Files Analyzed | " + Decimal(totalFiles) + " |\n"
  }

  function AverageRow(averageScore: real, toFixed: Fixed): string
  {
    "| Average Score | " + toFixed(averageScore, 2) + "/100 |\n\n"
  }

  function Assessment(summary: FinalSummary): string
  {
    AssessmentHeading + summary.summary + "\n\n"
  }

  /** Title, summary table and overall assessment: always present. */
  function Opening(summary: FinalSummary, toFixed: Fixed): string
  {
    Title + SummaryHeading + MetricHeader + TwoColumnRule + TotalFilesRow(summary.totalFiles)
      + AverageRow(summary.averageScore, toFixed) + Assessment(summary)
  }

  /** The text of an example's cell: `test: reason` for a test, the reason
      for a file. */
  function ExampleText(e: Example): string
  {
    match e
    case NotMeaningfulTest(_, test, reason) => test + ": " + reason
    case LowScoringFile(_, _, reason) => reason
  }

  function ExampleRow(e: Example): string
  {
    "| `" + e.file + "` | " + Escape(ExampleText(e)) + " |\n"
  }

  function ExampleRowList(examples: seq<Example>): (r: seq<string>)
    ensures |r| == |examples|
    ensures forall k :: 0 <= k < |examples| ==> r[k] == ExampleRow(examples[k])
  {
    seq(|examples|, k requires 0 <= k < |examples| => ExampleRow(examples[k]))
  }

  function ExampleRows(examples: seq<Example>): string
  {
    Concat(ExampleRowList(examples))
  }

  function GroupHeading(g: IssueGroup): string
  {
    "### " + g.kind + " (" + Decimal(g.count) + ")\n\n"
  }

  /** A group: its heading, then a File/Issue table only if it has examples. */
  function GroupBlock(g: IssueGroup): string
  {
    if |g.examples| > 0 then GroupHeading(g) + IssueHeader + TwoColumnRule + ExampleRows(g.examples) + "\n"
    else GroupHeading(g)
  }

  function GroupBlockList(groups: seq<IssueGroup>): (r: seq<string>)
    ensures |r| == |groups|
    ensures forall k :: 0 <= k < |groups| ==> r[k] == GroupBlock(groups[k])
  {
    seq(|groups|, k requires 0 <= k < |groups| => GroupBlock(groups[k]))
  }

  function GroupBlocks(groups: seq<IssueGroup>): string
  {
    Concat(GroupBlockList(groups))
  }

  function TopIssuesSection(groups: seq<IssueGroup>): string
  {
    if |groups| > 0 then TopIssuesHeading + GroupBlocks(groups) else ""
  }

  predicate AllScored(report: seq<File>)
  {
    forall i :: 0 <= i < |report| ==> report[i].score.Some?
  }

  /** The first file without a score: where `score.toFixed` throws. */
  function FirstUnscored(report: seq<File>): (i: nat)
    requires !AllScored(report)
    ensures i < |report| && report[i].score.None?
    ensures forall k :: 0 <= k < i ==> report[k].score.Some?
  {
    if report[0].score.None? then 0 else 1 + FirstUnscored(report[1..])
  }

  function ReportRow(f: File, toFixed: Fixed): string
    requires f.score.Some?
  {
    "| `" + f.file + "` | " + toFixed(f.score.value, 1) + "/100 | " + Escape(f.summary) + " |\n"
  }

  function ReportRowList(report: seq<File>, toFixed: Fixed): (r: seq<string>)
    requires AllScored(report)
    ensures |r| == |report|
    ensures forall k :: 0 <= k < |report| ==> r[k] == ReportRow(report[k], toFixed)
  {
    seq(|report|, k requires 0 <= k < |report| && report[k].score.Some? => ReportRow(report[k], toFixed))
  }

  function ReportRows(report: seq<File>, toFixed: Fixed): string
    requires AllScored(report)
  {
    Concat(ReportRowList(report, toFixed))
  }

  /** `test.meaningful ? "✅" : "❌"`: only a present `true` is truthy. */
  function Glyph(meaningful: Option<bool>): string
  {
    if meaningful == Some(true) then Meaningful else NotMeaningful
  }

  function TestRow(t: Test, toFixed: Fixed): string
  {
    "| " + t.name + " | " + toFixed(t.score, 1) + "/100 | " + Glyph(t.meaningful) + " | " + Escape(t.suggestions) + " |\n"
  }

  function TestRowList(tests: seq<Test>, toFixed: Fixed): (r: seq<string>)
    ensures |r| == |tests|
    ensures forall k :: 0 <= k < |tests| ==> r[k] == TestRow(tests[k], toFixed)
  {
    seq(|tests|, k requires 0 <= k < |tests| => TestRow(tests[k], toFixed))
  }

  function TestRows(tests: seq<Test>, toFixed: Fixed): string
  {
    Concat(TestRowList(tests, toFixed))
  }

  function FileHeading(f: File): string
  {
    "### " + f.file + "\n\n"
  }

  /** A file's test table; a file without `tests` gets an empty table. */
  function FileDetails(f: File, toFixed: Fixed): string
  {
    FileHeading(f) + TestHeader + FourColumnRule + TestRows(TestsOf(f), toFixed) + "\n"
  }

  function FileDetailsList(report: seq<File>, toFixed: Fixed): (r: seq<string>)
    ensures |r| == |report|
    ensures forall k :: 0 <= k < |report| ==> r[k] == FileDetails(report[k], toFixed)
  {
    seq(|report|, k requires 0 <= k < |report| => FileDetails(report[k], toFixed))
  }

  function AllFileDetails(report: seq<File>, toFixed: Fixed): string
  {
    Concat(FileDetailsList(report, toFixed))
  }

  /** The report table up to the line that ends it. */
  function ReportTable(report: seq<File>, toFixed: Fixed): string
    requires AllScored(report)
  {
    DetailedReportHeading + ReportHeader + ThreeColumnRule + ReportRows(report, toFixed) + "\n"
  }

  function DetailSections(report: seq<File>, toFixed: Fixed): string
    requires AllScored(report)
  {
    if |report| > 0 then ReportTable(report, toFixed) + TestDetailsHeading + AllFileDetails(report, toFixed)
    else ""
  }

  /** `generateMarkdownComment(summary, detailedReport)`, a file without
      `tests` rendering as an empty table. */
  function Markdown(summary: FinalSummary, report: seq<File>, toFixed: Fixed): Result<string, RenderError>
  {
    if AllScored(report) then
      Success(Opening(summary, toFixed) + TopIssuesSection(summary.topIssues) + DetailSections(report, toFixed))
    else Failure(MissingScore(report[FirstUnscored(report)].file))
  }

  // ---------------------------------------------------------------------
  // The renderer

  lemma ExampleRowsSnoc(examples: seq<Example>, e: Example)
    ensures ExampleRows(examples + [e]) == ExampleRows(examples) + ExampleRow(e)
  {
    assert ExampleRowList(examples + [e]) == ExampleRowList(examples) + [ExampleRow(e)];
    ConcatSnoc(ExampleRowList(examples), ExampleRow(e));
  }

  /** One more pass of the issue-group loop extends its invariant. */
  lemma GroupBlocksStep(markdown: string, groups: seq<IssueGroup>, g: nat)
    requires g < |groups|
    ensures markdown + GroupBlocks(groups[..g]) + GroupBlock(groups[g]) == markdown + GroupBlocks(groups[..g + 1])
  {
    GroupBlocksPrefix(groups, g);
    Regroup(markdown, GroupBlocks(groups[..g]), GroupBlock(groups[g]));
  }

  lemma GroupBlocksPrefix(groups: seq<IssueGroup>, g: nat)
    requires g < |groups|
    ensures GroupBlocks(groups[..g + 1]) == GroupBlocks(groups[..g]) + GroupBlock(groups[g])
  {
    var prev := GroupBlockList(groups[..g]);
    assert GroupBlockList(groups[..g + 1]) == prev + [GroupBlock(groups[g])];
    ConcatSnoc(prev, GroupBlock(groups[g]));
  }

  /** One more pass of the example loop extends its invariant. */
  lemma ExampleRowsStep(markdown: string, examples: seq<Example>, e: nat)
    requires e < |examples|
    ensures markdown + ExampleRows(examples[..e]) + ExampleRow(examples[e]) == markdown + ExampleRows(examples[..e + 1])
  {
    Regroup(markdown, ExampleRows(examples[..e]), ExampleRow(examples[e]));
    ExampleRowsSnoc(examples[..e], examples[e]);
    assert examples[..e + 1] == examples[..e] + [examples[e]];
  }

  /** One more pass of the report loop extends its invariants. */
  lemma ReportRowsStep(markdown: string, report: seq<File>, i: nat, toFixed: Fixed)
    requires i < |report| && AllScored(report[..i]) && report[i].score.Some?
    ensures AllScored(report[..i + 1])
    ensures markdown + ReportRows(report[..i], toFixed) + ReportRow(report[i], toFixed) == markdown + ReportRows(report[..i + 1], toFixed)
  {
    Regroup(markdown, ReportRows(report[..i], toFixed), ReportRow(report[i], toFixed));
    ReportRowsSnoc(report[..i], report[i], toFixed);
    assert report[..i + 1] == report[..i] + [report[i]];
  }

  /** One more pass of the test loop extends its invariant. */
  lemma TestRowsStep(markdown: string, tests: seq<Test>, j: nat, toFixed: Fixed)
    requires j < |tests|
    ensures markdown + TestRows(tests[..j], toFixed) + TestRow(tests[j], toFixed) == markdown + TestRows(tests[..j + 1], toFixed)
  {
    Regroup(markdown, TestRows(tests[..j], toFixed), TestRow(tests[j], toFixed));
    TestRowsSnoc(tests[..j], tests[j], toFixed);
    assert tests[..j + 1] == tests[..j] + [tests[j]];
  }

  /** One more pass of the files' loop extends its invariant. */
  lemma FileDetailsStep(markdown: string, report: seq<File>, i: nat, toFixed: Fixed)
    requires i < |report|
    ensures markdown + AllFileDetails(report[..i], toFixed) + FileDetails(report[i], toFixed) == markdown + AllFileDetails(report[..i + 1], toFixed)
  {
    Regroup(markdown, AllFileDetails(report[..i], toFixed), FileDetails(report[i], toFixed));
    AllFileDetailsSnoc(report[..i], report[i], toFixed);
    assert report[..i + 1] == report[..i] + [report[i]];
  }

  lemma ReportRowsSnoc(report: seq<File>, f: File, toFixed: Fixed)
    requires AllScored(report) && f.score.Some?
    ensures AllScored(report + [f])
    ensures ReportRows(report + [f], toFixed) == ReportRows(report, toFixed) + ReportRow(f, toFixed)
  {
    assert ReportRowList(report + [f], toFixed) == ReportRowList(report, toFixed) + [ReportRow(f, toFixed)];
    ConcatSnoc(ReportRowList(report, toFixed), ReportRow(f, toFixed));
  }

  lemma TestRowsSnoc(tests: seq<Test>, t: Test, toFixed: Fixed)
    ensures TestRows(tests + [t], toFixed) == TestRows(tests, toFixed) + TestRow(t, toFixed)
  {
    assert TestRowList(tests + [t], toFixed) == TestRowList(tests, toFixed) + [TestRow(t, toFixed)];
    ConcatSnoc(TestRowList(tests, toFixed), TestRow(t, toFixed));
  }

  lemma AllFileDetailsSnoc(report: seq<File>, f: File, toFixed: Fixed)
    ensures AllFileDetails(report + [f], toFixed) == AllFileDetails(report, toFixed) + FileDetails(f, toFixed)
  {
    assert FileDetailsList(report + [f], toFixed) == FileDetailsList(report, toFixed) + [FileDetails(f, toFixed)];
    ConcatSnoc(FileDetailsList(report, toFixed), FileDetails(f, toFixed));
  }

  /** One example row: the file, and the escaped reason (prefixed with the
      test's name for a test example). */
  method AppendExampleRow(markdown: string, example: Example) returns (md: string)
    ensures md == markdown + ExampleRow(example)
  {
    var reason := if example.NotMeaningfulTest? then example.test + ": " + example.reason else example.reason;
    var sanitizedReason := Escape(reason);
    md := markdown + ("| `" + example.file + "` | " + sanitizedReason + " |\n");
  }

  /** The inner `forEach` over a group's examples. */
  method AppendExampleRows(markdown: string, examples: seq<Example>) returns (md: string)
    ensures md == markdown + ExampleRows(examples)
  {
    md := markdown;
    for e := 0 to |examples|
      invariant md == markdown + ExampleRows(examples[..e])
    {
      md := AppendExampleRow(md, examples[e]);
      ExampleRowsStep(markdown, examples, e);
    }
    assert examples[..|examples|] == examples;
  }

  /** One issue group: its heading, and a File/Issue table when it has
      examples. */
  method AppendIssueGroup(markdown: string, issueGroup: IssueGroup) returns (md: string)
    ensures md == markdown + GroupBlock(issueGroup)
  {
    md := markdown + ("### " + issueGroup.kind + " (" + Decimal(issueGroup.count) + ")\n\n");
    if |issueGroup.examples| > 0 {
      md := md + IssueHeader;
      md := md + TwoColumnRule;
      md := AppendExampleRows(md, issueGroup.examples);
      md := md + "\n";
      Regroup5(markdown, GroupHeading(issueGroup), IssueHeader, TwoColumnRule, ExampleRows(issueGroup.examples), "\n");
    }
  }

  /** The `forEach` over the issue groups. */
  method AppendIssueGroups(markdown: string, groups: seq<IssueGroup>) returns (md: string)
    ensures md == markdown + GroupBlocks(groups)
  {
    md := markdown;
    for g := 0 to |groups|
      invariant md == markdown + GroupBlocks(groups[..g])
    {
      md := AppendIssueGroup(md, groups[g]);
      GroupBlocksStep(markdown, groups, g);
    }
    assert groups[..|groups|] == groups;
  }

  /** The `forEach` over the report rows; `score.toFixed` throws on the first
      file without a score. */
  method AppendReportRows(markdown: string, detailedReport: seq<File>, toFixed: Fixed)
    returns (r: Result<string, RenderError>)
    ensures AllScored(detailedReport) ==> r == Success(markdown + ReportRows(detailedReport, toFixed))
    ensures !AllScored(detailedReport) ==> r == Failure(MissingScore(detailedReport[FirstUnscored(detailedReport)].file))
  {
    var md := markdown;
    for i := 0 to |detailedReport|
      invariant AllScored(detailedReport[..i])
      invariant md == markdown + ReportRows(detailedReport[..i], toFixed)
    {
      var report := detailedReport[i];
      if report.score.None? {
        assert forall k :: 0 <= k < i ==> detailedReport[..i][k] == detailedReport[k];
        FirstUnscoredIsFirst(detailedReport, i);
        return Failure(MissingScore(report.file));
      }
      var sanitizedSummary := Escape(report.summary);
      md := md + ("| `" + report.file + "` | " + toFixed(report.score.value, 1) + "/100 | " + sanitizedSummary + " |\n");
      ReportRowsStep(markdown, detailedReport, i, toFixed);
    }
    assert detailedReport[..|detailedReport|] == detailedReport;
    return Success(md);
  }

  /** The inner `forEach` over a file's tests. */
  method AppendTestRows(markdown: string, tests: seq<Test>, toFixed: Fixed) returns (md: string)
    ensures md == markdown + TestRows(tests, toFixed)
  {
    md := markdown;
    for j := 0 to |tests|
      invariant md == markdown + TestRows(tests[..j], toFixed)
    {
      var test := tests[j];
      var sanitizedSuggestions := Escape(test.suggestions);
      md := md + ("| " + test.name + " | " + toFixed(test.score, 1) + "/100 | "
        + (if test.meaningful == Some(true) then Meaningful else NotMeaningful) + " | " + sanitizedSuggestions + " |\n");
      TestRowsStep(markdown, tests, j, toFixed);
    }
    assert tests[..|tests|] == tests;
  }

  /** One pass of the files' loop: the heading, the table header, the rows
      and a blank line. */
  method AppendFileDetail(markdown: string, report: File, toFixed: Fixed) returns (md: string)
    ensures md == markdown + FileDetails(report, toFixed)
  {
    md := markdown + ("### " + report.file + "\n\n");
    md := md + TestHeader;
    md := md + FourColumnRule;
    md := AppendTestRows(md, TestsOf(report), toFixed);
    md := md + "\n";
    Regroup5(markdown, FileHeading(report), TestHeader, FourColumnRule, TestRows(TestsOf(report), toFixed), "\n");
  }

  /** The `forEach` over the files' test tables. */
  method AppendFileDetails(markdown: string, detailedReport: seq<File>, toFixed: Fixed) returns (md: string)
    ensures md == markdown + AllFileDetails(detailedReport, toFixed)
  {
    md := markdown;
    for i := 0 to |detailedReport|
      invariant md == markdown + AllFileDetails(detailedReport[..i], toFixed)
    {
      md := AppendFileDetail(md, detailedReport[i], toFixed);
      FileDetailsStep(markdown, detailedReport, i, toFixed);
    }
    assert detailedReport[..|detailedReport|] == detailedReport;
  }

  /** The source's renderer: one string grown with `+=`, stopping with the
      TypeError of the first file without a score. */
  method GenerateMarkdownComment(summary: FinalSummary, detailedReport: seq<File>, toFixed: Fixed)
    returns (r: Result<string, RenderError>)
    ensures r == Markdown(summary, detailedReport, toFixed)
  {
    var markdown := WriteOpening(summary, toFixed);
    ghost var opening := markdown;
    if |summary.topIssues| > 0 {
      markdown := markdown + TopIssuesHeading;
      markdown := AppendIssueGroups(markdown, summary.topIssues);
      Regroup(opening, TopIssuesHeading, GroupBlocks(summary.topIssues));
    }
    assert markdown == opening + TopIssuesSection(summary.topIssues);
    r := AppendDetailSections(markdown, detailedReport, toFixed);
  }

  /** The title, the summary table and the overall assessment. */
  method WriteOpening(summary: FinalSummary, toFixed: Fixed) returns (markdown: string)
    ensures markdown == Opening(summary, toFixed)
  {
    markdown := Title;
    markdown := markdown + SummaryHeading;
    markdown := markdown + MetricHeader;
    markdown := markdown + TwoColumnRule;
    markdown := markdown + ("| Total Files Analyzed | " + Decimal(summary.totalFiles) + " |\n");
    markdown := markdown + ("| Average Score | " + toFixed(summary.averageScore, 2) + "/100 |\n\n");
    markdown := markdown + (AssessmentHeading + summary.summary + "\n\n");
  }

  /** The detailed report table and the per-file test tables, written only
      when the report has files; the first file without a score aborts. */
  method AppendDetailSections(markdown: string, detailedReport: seq<File>, toFixed: Fixed)
    returns (r: Result<string, RenderError>)
    ensures AllScored(detailedReport) ==> r == Success(markdown + DetailSections(detailedReport, toFixed))
    ensures !AllScored(detailedReport) ==> r == Failure(MissingScore(detailedReport[FirstUnscored(detailedReport)].file))
  {
    if |detailedReport| == 0 {
      assert markdown + DetailSections(detailedReport, toFixed) == markdown;
      return Success(markdown);
    }
    var md := markdown + DetailedReportHeading;
    md := md + ReportHeader;
    md := md + ThreeColumnRule;
    var rows := AppendReportRows(md, detailedReport, toFixed);
    if rows.Failure? {
      return Failure(rows.error);
    }
    md := rows.value;
    md := md + "\n";
    Regroup5(markdown, DetailedReportHeading, ReportHeader, ThreeColumnRule, ReportRows(detailedReport, toFixed), "\n");
    md := md + TestDetailsHeading;
    md := AppendFileDetails(md, detailedReport, toFixed);
    Regroup3(markdown, ReportTable(detailedReport, toFixed), TestDetailsHeading, AllFileDetails(detailedReport, toFixed));
    return Success(md);
  }

  // ---------------------------------------------------------------------
  // What the document promises

  lemma FirstUnscoredIsFirst(report: seq<File>, i: nat)
    requires i < |report| && report[i].score.None?
    requires forall k :: 0 <= k < i ==> report[k].score.Some?
    ensures !AllScored(report) && FirstUnscored(report) == i
  {
  }

  /** Rendering fails exactly when some file has no score, and the error
      names the first such file. */
  lemma RenderFailsIffScoreMissing(summary: FinalSummary, report: seq<File>, toFixed: Fixed, i: nat)
    ensures Markdown(summary, report, toFixed).Failure?
      <==> exists k :: 0 <= k < |report| && report[k].score.None?
    ensures i < |report| && report[i].score.None? && (forall k :: 0 <= k < i ==> report[k].score.Some?)
      ==> Markdown(summary, report, toFixed) == Failure(MissingScore(report[i].file))
  {
    if !AllScored(report) {
      var j := FirstUnscored(report);
      assert report[j].score.None?;
    }
    if i < |report| && report[i].score.None? && (forall k :: 0 <= k < i ==> report[k].score.Some?) {
      FirstUnscoredIsFirst(report, i);
    }
  }

  /** A rendered document is the opening, the issues and the details. */
  lemma MarkdownParts(summary: FinalSummary, report: seq<File>, toFixed: Fixed)
    requires Markdown(summary, report, toFixed).Success?
    ensures AllScored(report)
    ensures Markdown(summary, report, toFixed).value
      == Opening(summary, toFixed) + TopIssuesSection(summary.topIssues) + DetailSections(report, toFixed)
  {
  }

  /** What occurs in the opening occurs at the same place in the document. */
  lemma InOpening(summary: FinalSummary, report: seq<File>, toFixed: Fixed, x: string, at: nat)
    requires Markdown(summary, report, toFixed).Success?
    requires OccursAt(Opening(summary, toFixed), x, at)
    ensures OccursAt(Markdown(summary, report, toFixed).value, x, at)
  {
    MarkdownParts(summary, report, toFixed);
    Extend(Opening(summary, toFixed), TopIssuesSection(summary.topIssues), x, at);
    Extend(Opening(summary, toFixed) + TopIssuesSection(summary.topIssues), DetailSections(report, toFixed), x, at);
  }

  /** The document opens with the title and the summary table (files
      analysed, average score), then the overall assessment with the summary
      text inserted as it is. */
  lemma DocumentOpening(summary: FinalSummary, report: seq<File>, toFixed: Fixed)
    requires Markdown(summary, report, toFixed).Success?
    ensures OccursAt(Markdown(summary, report, toFixed).value,
                     Title + SummaryHeading + MetricHeader + TwoColumnRule + TotalFilesRow(summary.totalFiles)
                       + AverageRow(summary.averageScore, toFixed) + AssessmentHeading + summary.summary, 0)
  {
    var head := Title + SummaryHeading + MetricHeader + TwoColumnRule + TotalFilesRow(summary.totalFiles)
      + AverageRow(summary.averageScore, toFixed);
    var text := head + AssessmentHeading + summary.summary;
    Regroup3(head, AssessmentHeading, summary.summary, "\n\n");
    Starts(text, "\n\n");
    InOpening(summary, report, toFixed, text, 0);
  }

  lemma TopIssuesHeadingPresent(summary: FinalSummary, report: seq<File>, toFixed: Fixed)
    requires Markdown(summary, report, toFixed).Success? && |summary.topIssues| > 0
    ensures OccursAt(Markdown(summary, report, toFixed).value, TopIssuesHeading, |Opening(summary, toFixed)|)
  {
    IssuesStartWithHeading(summary.topIssues);
    MarkdownParts(summary, report, toFixed);
    StartsMiddle(Markdown(summary, report, toFixed).value, Opening(summary, toFixed),
                 TopIssuesSection(summary.topIssues), DetailSections(report, toFixed), TopIssuesHeading);
  }

  /** A non-empty top-issues section opens with "## Top Issues". */
  lemma IssuesStartWithHeading(groups: seq<IssueGroup>)
    requires |groups| > 0
    ensures OccursAt(TopIssuesSection(groups), TopIssuesHeading, 0)
  {
    Starts(TopIssuesHeading, GroupBlocks(groups));
  }

  /** The detail sections open with "## Detailed Report". */
  lemma DetailsStartWithHeading(report: seq<File>, toFixed: Fixed)
    requires AllScored(report) && |report| > 0
    ensures OccursAt(DetailSections(report, toFixed), DetailedReportHeading, 0)
  {
    var t1 := DetailedReportHeading + ReportHeader;
    var t2 := t1 + ThreeColumnRule;
    var t3 := t2 + ReportRows(report, toFixed);
    var table := ReportTable(report, toFixed);
    assert OccursAt(DetailedReportHeading, DetailedReportHeading, 0);
    Extend(DetailedReportHeading, ReportHeader, DetailedReportHeading, 0);
    Extend(t1, ThreeColumnRule, DetailedReportHeading, 0);
    Extend(t2, ReportRows(report, toFixed), DetailedReportHeading, 0);
    Extend(t3, "\n", DetailedReportHeading, 0);
    Extend(table, TestDetailsHeading, DetailedReportHeading, 0);
    Extend(table + TestDetailsHeading, AllFileDetails(report, toFixed), DetailedReportHeading, 0);
  }

  lemma DetailedReportHeadingPresent(summary: FinalSummary, report: seq<File>, toFixed: Fixed)
    requires Markdown(summary, report, toFixed).Success? && |report| > 0
    ensures OccursAt(Markdown(summary, report, toFixed).value, DetailedReportHeading,
                     |Opening(summary, toFixed) + TopIssuesSection(summary.topIssues)|)
  {
    MarkdownParts(summary, report, toFixed);
    DetailsStartWithHeading(report, toFixed);
    Shift(Opening(summary, toFixed) + TopIssuesSection(summary.topIssues), DetailSections(report, toFixed), DetailedReportHeading, 0);
  }

  lemma TestDetailsHeadingPresent(summary: FinalSummary, report: seq<File>, toFixed: Fixed)
    requires Markdown(summary, report, toFixed).Success? && |report| > 0
    ensures AllScored(report)
    ensures OccursAt(Markdown(summary, report, toFixed).value, TestDetailsHeading,
                     |Opening(summary, toFixed) + TopIssuesSection(summary.topIssues)| + |ReportTable(report, toFixed)|)
  {
    MarkdownParts(summary, report, toFixed);
    var before := Opening(summary, toFixed) + TopIssuesSection(summary.topIssues);
    var table := ReportTable(report, toFixed);
    Ends(table, TestDetailsHeading);
    Extend(table + TestDetailsHeading, AllFileDetails(report, toFixed), TestDetailsHeading, |table|);
    Shift(before, DetailSections(report, toFixed), TestDetailsHeading, |table|);
  }

  /** Without issues, the detail sections follow the opening directly:
      "## Detailed Report" starts right where the opening ends, and
      "## Top Issues" does not. */
  lemma DetailsFollowOpening(summary: FinalSummary, report: seq<File>, toFixed: Fixed)
    requires Markdown(summary, report, toFixed).Success? && |summary.topIssues| == 0 && |report| > 0
    ensures OccursAt(Markdown(summary, report, toFixed).value, DetailedReportHeading, |Opening(summary, toFixed)|)
    ensures !OccursAt(Markdown(summary, report, toFixed).value, TopIssuesHeading, |Opening(summary, toFixed)|)
  {
    DetailedReportAfterOpening(summary, report, toFixed);
    MarkdownParts(summary, report, toFixed);
    DetailsStartWithHeading(report, toFixed);
    NotAfter(Opening(summary, toFixed), TopIssuesSection(summary.topIssues), DetailSections(report, toFixed),
             DetailedReportHeading, TopIssuesHeading, 3);
  }

  lemma DetailedReportAfterOpening(summary: FinalSummary, report: seq<File>, toFixed: Fixed)
    requires Markdown(summary, report, toFixed).Success? && |summary.topIssues| == 0 && |report| > 0
    ensures OccursAt(Markdown(summary, report, toFixed).value, DetailedReportHeading, |Opening(summary, toFixed)|)
  {
    DetailedReportHeadingPresent(summary, report, toFixed);
    assert |TopIssuesSection(summary.topIssues)| == 0;
  }

  /** Without issues or files, the document ends after the opening. */
  lemma OpeningOnly(summary: FinalSummary, report: seq<File>, toFixed: Fixed)
    requires Markdown(summary, report, toFixed).Success? && |summary.topIssues| == 0 && |report| == 0
    ensures Markdown(summary, report, toFixed).value == Opening(summary, toFixed)
  {
  }

  lemma TopIssuesHeadingAbsent(summary: FinalSummary, report: seq<File>, toFixed: Fixed)
    requires Markdown(summary, report, toFixed).Success? && |summary.topIssues| == 0
    ensures !OccursAt(Markdown(summary, report, toFixed).value, TopIssuesHeading, |Opening(summary, toFixed)|)
  {
    if |report| > 0 {
      DetailsFollowOpening(summary, report, toFixed);
    } else {
      OpeningOnly(summary, report, toFixed);
      Differs(Opening(summary, toFixed), TopIssuesHeading, |Opening(summary, toFixed)|, 0);
    }
  }

  /** "## Top Issues" follows the opening exactly when there are issue groups. */
  lemma TopIssuesHeadingIffIssues(summary: FinalSummary, report: seq<File>, toFixed: Fixed)
    requires Markdown(summary, report, toFixed).Success?
    ensures OccursAt(Markdown(summary, report, toFixed).value, TopIssuesHeading, |Opening(summary, toFixed)|)
      <==> |summary.topIssues| > 0
  {
    if |summary.topIssues| > 0 {
      TopIssuesHeadingPresent(summary, report, toFixed);
    } else {
      TopIssuesHeadingAbsent(summary, report, toFixed);
    }
  }

  /** "## Detailed Report" follows the issues, and "## Test Details" follows
      the report table, exactly when the detailed report has files. */
  lemma DetailHeadingsIffFiles(summary: FinalSummary, report: seq<File>, toFixed: Fixed)
    requires Markdown(summary, report, toFixed).Success?
    ensures AllScored(report)
    ensures var doc := Markdown(summary, report, toFixed).value;
      var at := |Opening(summary, toFixed) + TopIssuesSection(summary.topIssues)|;
      (OccursAt(doc, DetailedReportHeading, at) <==> |report| > 0)
      && (OccursAt(doc, TestDetailsHeading, at + |ReportTable(report, toFixed)|) <==> |report| > 0)
  {
    MarkdownParts(summary, report, toFixed);
    if |report| > 0 {
      DetailedReportHeadingPresent(summary, report, toFixed);
      TestDetailsHeadingPresent(summary, report, toFixed);
    } else {
      var doc := Markdown(summary, report, toFixed).value;
      var at := |Opening(summary, toFixed) + TopIssuesSection(summary.topIssues)|;
      assert |doc| == at;
      Differs(doc, DetailedReportHeading, at, 0);
      Differs(doc, TestDetailsHeading, at + |ReportTable(report, toFixed)|, 0);
    }
  }

  /** The groups appear in their order, each right after those before it. */
  lemma IssueGroupsInOrder(groups: seq<IssueGroup>, k: nat)
    requires k < |groups|
    ensures OccursAt(TopIssuesSection(groups), GroupBlock(groups[k]), |TopIssuesHeading| + |GroupBlocks(groups[..k])|)
  {
    ConcatPieceAt(GroupBlockList(groups), k);
    assert GroupBlockList(groups)[..k] == GroupBlockList(groups[..k]);
    Shift(TopIssuesHeading, GroupBlocks(groups), GroupBlock(groups[k]), |GroupBlocks(groups[..k])|);
  }

  /** A group opens with "### type (count)"; it has a table only if it has
      examples, with one row per example in example order. */
  lemma GroupBlockLayout(g: IssueGroup, k: nat)
    ensures OccursAt(GroupBlock(g), "### " + g.kind + " (" + Decimal(g.count) + ")\n\n", 0)
    ensures |g.examples| == 0 ==> GroupBlock(g) == GroupHeading(g)
    ensures |g.examples| > 0 ==> OccursAt(GroupBlock(g), IssueHeader + TwoColumnRule, |GroupHeading(g)|)
    ensures k < |g.examples| ==>
      OccursAt(GroupBlock(g), ExampleRow(g.examples[k]),
               |GroupHeading(g) + IssueHeader + TwoColumnRule| + |ExampleRows(g.examples[..k])|)
  {
    GroupHeadingFirst(g);
    if |g.examples| > 0 {
      GroupTableHeaderAt(g);
      if k < |g.examples| {
        GroupExampleRowAt(g, k);
      }
    }
  }

  lemma GroupHeadingFirst(g: IssueGroup)
    ensures OccursAt(GroupBlock(g), GroupHeading(g), 0)
  {
    var h := GroupHeading(g);
    if |g.examples| > 0 {
      Regroup4(h, IssueHeader, TwoColumnRule, ExampleRows(g.examples), "\n");
      Starts(h, IssueHeader + TwoColumnRule + ExampleRows(g.examples) + "\n");
    } else {
      Starts(h, "");
      assert h + "" == h;
    }
  }

  lemma GroupTableHeaderAt(g: IssueGroup)
    requires |g.examples| > 0
    ensures OccursAt(GroupBlock(g), IssueHeader + TwoColumnRule, |GroupHeading(g)|)
  {
    var h := GroupHeading(g);
    var t := IssueHeader + TwoColumnRule;
    var rows := ExampleRows(g.examples);
    Regroup(h, IssueHeader, TwoColumnRule);
    Regroup(h + t, rows, "\n");
    Sits(h, t, rows + "\n");
  }

  lemma ExampleRowListPrefix(examples: seq<Example>, k: nat)
    requires k <= |examples|
    ensures ExampleRowList(examples)[..k] == ExampleRowList(examples[..k])
  {
  }

  lemma GroupExampleRowAt(g: IssueGroup, k: nat)
    requires k < |g.examples|
    ensures OccursAt(GroupBlock(g), ExampleRow(g.examples[k]),
                     |GroupHeading(g) + IssueHeader + TwoColumnRule| + |ExampleRows(g.examples[..k])|)
  {
    var h2 := GroupHeading(g) + IssueHeader + TwoColumnRule;
    var rows := ExampleRows(g.examples);
    ConcatPieceAt(ExampleRowList(g.examples), k);
    ExampleRowListPrefix(g.examples, k);
    OccursInContext(h2, rows, "\n", ExampleRow(g.examples[k]), |ExampleRows(g.examples[..k])|);
  }

  /** An example's cell holds `test: reason` for a test and the reason for a
      file, with every pipe escaped and nothing lost. */
  lemma ExampleCell(e: Example)
    ensures exists cell ::
      ExampleRow(e) == "| `" + e.file + "` | " + cell + " |\n"
      && PipesEscaped(cell)
      && Unescape(cell) == (if e.NotMeaningfulTest? then e.test + ": " + e.reason else e.reason)
  {
    var cell := Escape(ExampleText(e));
    EscapeEscapesPipes(ExampleText(e));
    EscapeRoundTrip(ExampleText(e));
    assert ExampleRow(e) == "| `" + e.file + "` | " + cell + " |\n";
  }

  /** The files of the detailed report appear in report order, one row each. */
  lemma ReportRowsInOrder(report: seq<File>, toFixed: Fixed, k: nat)
    requires AllScored(report) && k < |report|
    ensures AllScored(report[..k])
    ensures OccursAt(ReportRows(report, toFixed), ReportRow(report[k], toFixed), |ReportRows(report[..k], toFixed)|)
  {
    ConcatPieceAt(ReportRowList(report, toFixed), k);
    assert ReportRowList(report, toFixed)[..k] == ReportRowList(report[..k], toFixed);
  }

  /** A report row shows the file, its score to one decimal out of 100 and
      its summary with every pipe escaped and nothing lost. */
  lemma ReportRowCells(f: File, toFixed: Fixed)
    requires f.score.Some?
    ensures exists cell ::
      ReportRow(f, toFixed) == "| `" + f.file + "` | " + toFixed(f.score.value, 1) + "/100 | " + cell + " |\n"
      && PipesEscaped(cell) && Unescape(cell) == f.summary
  {
    EscapeEscapesPipes(f.summary);
    EscapeRoundTrip(f.summary);
    var cell := Escape(f.summary);
    assert ReportRow(f, toFixed) == "| `" + f.file + "` | " + toFixed(f.score.value, 1) + "/100 | " + cell + " |\n";
  }

  /** The files' test tables appear in report order. */
  lemma FileDetailsInOrder(report: seq<File>, toFixed: Fixed, k: nat)
    requires k < |report|
    ensures OccursAt(AllFileDetails(report, toFixed), FileDetails(report[k], toFixed), |AllFileDetails(report[..k], toFixed)|)
  {
    ConcatPieceAt(FileDetailsList(report, toFixed), k);
    assert FileDetailsList(report, toFixed)[..k] == FileDetailsList(report[..k], toFixed);
  }

  /** A file's table opens with "### file" and the header, then one row per
      test in test order. */
  lemma TestRowsInOrder(f: File, toFixed: Fixed, k: nat)
    requires k < |TestsOf(f)|
    ensures OccursAt(FileDetails(f, toFixed), FileHeading(f) + TestHeader + FourColumnRule, 0)
    ensures OccursAt(FileDetails(f, toFixed), TestRow(TestsOf(f)[k], toFixed),
                     |FileHeading(f) + TestHeader + FourColumnRule| + |TestRows(TestsOf(f)[..k], toFixed)|)
  {
    FileHeadFirst(f, toFixed);
    FileTestRowAt(f, toFixed, k);
  }

  lemma FileHeadFirst(f: File, toFixed: Fixed)
    ensures OccursAt(FileDetails(f, toFixed), FileHeading(f) + TestHeader + FourColumnRule, 0)
  {
    var head := FileHeading(f) + TestHeader + FourColumnRule;
    Starts(head, TestRows(TestsOf(f), toFixed) + "\n");
    assert head + (TestRows(TestsOf(f), toFixed) + "\n") == FileDetails(f, toFixed);
  }

  lemma TestRowListPrefix(tests: seq<Test>, toFixed: Fixed, k: nat)
    requires k <= |tests|
    ensures TestRowList(tests, toFixed)[..k] == TestRowList(tests[..k], toFixed)
  {
  }

  lemma FileTestRowAt(f: File, toFixed: Fixed, k: nat)
    requires k < |TestsOf(f)|
    ensures OccursAt(FileDetails(f, toFixed), TestRow(TestsOf(f)[k], toFixed),
                     |FileHeading(f) + TestHeader + FourColumnRule| + |TestRows(TestsOf(f)[..k], toFixed)|)
  {
    var tests := TestsOf(f);
    var head := FileHeading(f) + TestHeader + FourColumnRule;
    ConcatPieceAt(TestRowList(tests, toFixed), k);
    TestRowListPrefix(tests, toFixed, k);
    OccursInContext(head, TestRows(tests, toFixed), "\n", TestRow(tests[k], toFixed), |TestRows(tests[..k], toFixed)|);
  }

  /** A test row shows the name as it is, ✅ exactly when the test is
      meaningful and ❌ otherwise, and the suggestions escaped. */
  lemma TestRowCells(t: Test, toFixed: Fixed)
    ensures exists glyph, cell ::
      TestRow(t, toFixed) == "| " + t.name + " | " + toFixed(t.score, 1) + "/100 | " + glyph + " | " + cell + " |\n"
      && (glyph == "✅" <==> t.meaningful == Some(true))
      && (glyph == "❌" <==> t.meaningful != Some(true))
      && PipesEscaped(cell) && Unescape(cell) == t.suggestions
  {
    EscapeEscapesPipes(t.suggestions);
    EscapeRoundTrip(t.suggestions);
    var glyph := Glyph(t.meaningful);
    var cell := Escape(t.suggestions);
    assert TestRow(t, toFixed) == "| " + t.name + " | " + toFixed(t.score, 1) + "/100 | " + glyph + " | " + cell + " |\n";
  }

  /** A file without `tests` gets its heading and an empty table. */
  lemma FileWithoutTestsHasEmptyTable(f: File, toFixed: Fixed)
    requires f.tests.None?
    ensures FileDetails(f, toFixed) == "### " + f.file + "\n\n" + TestHeader + FourColumnRule + "\n"
  {
    assert TestRowList([], toFixed) == [];
  }

  /** The summary of the first example of the source's tests: five files,
      an average of 75.5, no issues. */
  function MinimalSummary(): FinalSummary
  {
    FinalSummary(5, 75.5, "Overall good test quality", [])
  }

  /** With no issues and no files the document has the two metric rows and
      the assessment... */
  lemma MinimalDocumentRows(toFixed: Fixed)
    requires toFixed(75.5, 2) == "75.50"
    ensures Markdown(MinimalSummary(), [], toFixed).Success?
    ensures var doc := Markdown(MinimalSummary(), [], toFixed).value;
      Contains(doc, "| Total Files Analyzed | 5 |")
      && Contains(doc, "| Average Score | 75.50/100 |")
      && Contains(doc, "Overall good test quality")
  {
    var summary := MinimalSummary();
    OpeningOnly(summary, [], toFixed);
    MinimalRowsText(toFixed);
    RowsInOpening(Title + SummaryHeading + MetricHeader + TwoColumnRule,
      "| Total Files Analyzed | 5 |", "| Average Score | 75.50/100 |", summary.summary);
  }

  lemma MinimalRowsText(toFixed: Fixed)
    requires toFixed(75.5, 2) == "75.50"
    ensures TotalFilesRow(5) == "| Total Files Analyzed | 5 |" + "\n"
    ensures AverageRow(75.5, toFixed) == "| Average Score | 75.50/100 |" + "\n\n"
  {
    assert Decimal(5) == "5";
  }

  /** Whatever the rows hold, the opening shows both rows and the assessment text. */
  lemma RowsInOpening(head: string, rows: string, avg: string, text: string)
    ensures var doc := head + (rows + "\n") + (avg + "\n\n") + (AssessmentHeading + text + "\n\n");
      Contains(doc, rows) && Contains(doc, avg) && Contains(doc, text)
  {
    var o1 := head + (rows + "\n");
    var o2 := o1 + (avg + "\n\n");
    var tail := AssessmentHeading + text + "\n\n";
    Regroup(head, rows, "\n");
    Sits(head, rows, "\n");
    Extend(o1, avg + "\n\n", rows, |head|);
    Extend(o2, tail, rows, |head|);
    Sits(o1, avg, "\n\n");
    Regroup(o1, avg, "\n\n");
    Extend(o2, tail, avg, |o1|);
    Sits(o2 + AssessmentHeading, text, "\n\n");
    Regroup3(o2, AssessmentHeading, text, "\n\n");
  }

  /** The fixed text of the opening has no `p` and no `D`, two letters that
      the optional headings have. */
  lemma OpeningTextLacksPAndD()
    ensures 'p' !in Title && 'D' !in Title
    ensures 'p' !in SummaryHeading + MetricHeader + TwoColumnRule
    ensures 'D' !in SummaryHeading + MetricHeader + TwoColumnRule
    ensures 'p' !in AssessmentHeading && 'D' !in AssessmentHeading
  {
    TitleLacksPAndD();
    MetricTableLacksP();
    MetricTableLacksD();
    AssessmentHeadingLacksPAndD();
  }

  lemma TitleLacksPAndD()
    ensures 'p' !in Title && 'D' !in Title
  {
  }

  lemma MetricTableLacksP()
    ensures 'p' !in SummaryHeading + MetricHeader + TwoColumnRule
  {
  }

  lemma MetricTableLacksD()
    ensures 'D' !in SummaryHeading + MetricHeader + TwoColumnRule
  {
  }

  lemma AssessmentHeadingLacksPAndD()
    ensures 'p' !in AssessmentHeading && 'D' !in AssessmentHeading
  {
  }

  /** The two metric rows and the assessment text of the minimal summary
      have no `p` and no `D`. */
  lemma MinimalRowsLackPAndD()
    ensures 'p' !in "| Total Files Analyzed | 5 |" && 'D' !in "| Total Files Analyzed | 5 |"
    ensures 'p' !in "| Average Score | 75.50/100 |" && 'D' !in "| Average Score | 75.50/100 |"
    ensures 'p' !in "Overall good test quality" && 'D' !in "Overall good test quality"
  {
    TotalFilesRowLacksPAndD();
    AverageRowLacksPAndD();
  }

  lemma TotalFilesRowLacksPAndD()
    ensures 'p' !in "| Total Files Analyzed | 5 |" && 'D' !in "| Total Files Analyzed | 5 |"
  {
  }

  lemma AverageRowLacksPAndD()
    ensures 'p' !in "| Average Score | 75.50/100 |" && 'D' !in "| Average Score | 75.50/100 |"
  {
  }

  lemma MinimalOpeningLacksPAndD(toFixed: Fixed)
    requires toFixed(75.5, 2) == "75.50"
    ensures 'p' !in Opening(MinimalSummary(), toFixed) && 'D' !in Opening(MinimalSummary(), toFixed)
  {
    MinimalRowsText(toFixed);
    OpeningTextLacksPAndD();
    MinimalRowsLackPAndD();
    assert Opening(MinimalSummary(), toFixed)
      == Title + (SummaryHeading + MetricHeader + TwoColumnRule) + ("| Total Files Analyzed | 5 |" + "\n")
         + ("| Average Score | 75.50/100 |" + "\n\n") + (AssessmentHeading + "Overall good test quality" + "\n\n");
  }

  /** ...and none of the optional sections. */
  lemma MinimalDocumentSections(toFixed: Fixed)
    requires toFixed(75.5, 2) == "75.50"
    ensures Markdown(MinimalSummary(), [], toFixed).Success?
    ensures var doc := Markdown(MinimalSummary(), [], toFixed).value;
      !Contains(doc, "## Top Issues") && !Contains(doc, "## Detailed Report") && !Contains(doc, "## Test Details")
  {
    OpeningOnly(MinimalSummary(), [], toFixed);
    MinimalOpeningLacksPAndD(toFixed);
    NoOptionalHeadings(Opening(MinimalSummary(), toFixed));
  }

  /** A text without `p` and `D` holds none of the optional headings. */
  lemma NoOptionalHeadings(doc: string)
    requires 'p' !in doc && 'D' !in doc
    ensures !Contains(doc, "## Top Issues") && !Contains(doc, "## Detailed Report") && !Contains(doc, "## Test Details")
  {
    MissingCharRulesOut(doc, "## Top Issues", 5);
    MissingCharRulesOut(doc, "## Detailed Report", 3);
    MissingCharRulesOut(doc, "## Test Details", 8);
  }

  // ---------------------------------------------------------------------
  // The renderer as written: `report.tests.forEach` on a file without tests

  predicate AllHaveTests(report: seq<File>)
  {
    forall i :: 0 <= i < |report| ==> report[i].tests.Some?
  }

  function FirstWithoutTests(report: seq<File>): (i: nat)
    requires !AllHaveTests(report)
    ensures i < |report| && report[i].tests.None?
    ensures forall k :: 0 <= k < i ==> report[k].tests.Some?
  {
    if report[0].tests.None? then 0 else 1 + FirstWithoutTests(report[1..])
  }

  /** The source as written: once every row of the report table is out, the
      test tables throw on the first file without `tests`. It succeeds only
      when every file has both a score and tests; an unscored file still
      fails first, and a success is the corrected document. */
  function MarkdownAsWritten(summary: FinalSummary, report: seq<File>, toFixed: Fixed): (r: Result<string, RenderError>)
    ensures r.Success? <==> AllScored(report) && AllHaveTests(report)
    ensures !AllScored(report) ==> r == Failure(MissingScore(report[FirstUnscored(report)].file))
    ensures r.Success? ==> r == Markdown(summary, report, toFixed)
  {
    RenderFailsIffScoreMissing(summary, report, toFixed, if AllScored(report) then 0 else FirstUnscored(report));
    if AllScored(report) && !AllHaveTests(report) then Failure(MissingTests(report[FirstWithoutTests(report)].file))
    else Markdown(summary, report, toFixed)
  }

  /** A scored file whose model answer has no `tests` breaks the comment as
      written, while the corrected renderer gives it an empty table. */
  lemma AsWrittenThrowsOnFileWithoutTests(toFixed: Fixed)
    ensures var summary := FinalSummary(1, 30.0, "Weak tests", []);
      var report := [File("a.test.ts", "No assertions", Some(3.0), None)];
      MarkdownAsWritten(summary, report, toFixed) == Failure(MissingTests("a.test.ts"))
      && Markdown(summary, report, toFixed).Success?
  {
    var report := [File("a.test.ts", "No assertions", Some(3.0), None)];
    assert report[0].tests.None?;
    assert FirstWithoutTests(report) == 0;
  }

  /** The two renderers agree whenever every file has its tests. */
  lemma AsWrittenAgreesWhenTestsPresent(summary: FinalSummary, report: seq<File>, toFixed: Fixed)
    requires AllHaveTests(report)
    ensures MarkdownAsWritten(summary, report, toFixed) == Markdown(summary, report, toFixed)
  {
  }
}
