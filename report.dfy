/** `generateSummary` of src/generateReport.ts: the final summary of a run. */
module Report {
  import opened Prompt
  import opened Strings
  import Average
  import TopIssues
  import Batches

  /** The source's `FinalSummary`. */
  datatype FinalSummary = FinalSummary(totalFiles: nat, averageScore: real, summary: string, topIssues: seq<TopIssues.IssueGroup>)

  /** `generateSummary`: the count of submitted files (not of reported ones),
      the average and the issue groups of the detailed report, and the batch
      summaries joined by single spaces. */
  function GenerateSummary(testFiles: seq<string>, overallSummary: seq<string>, detailedReport: seq<File>): (r: FinalSummary)
    ensures r.totalFiles == |testFiles|
    ensures r.averageScore == Average.CalculateAverageScore(detailedReport)
    ensures r.summary == Join(overallSummary, " ")
    ensures r.topIssues == TopIssues.TopIssues(detailedReport)
  {
    FinalSummary(|testFiles|, Average.CalculateAverageScore(detailedReport), Join(overallSummary, " "), TopIssues.TopIssues(detailedReport))
  }

  /** No batch summary gives the empty summary text, and no files give a
      count of 0, an average of 0 and no issues. */
  lemma EmptyRunSummary()
    ensures GenerateSummary([], [], []) == FinalSummary(0, 0.0, "", [])
  {
    TopIssues.EmptyReportHasNoIssues();
  }

  /** The summary text holds each batch summary verbatim, and splitting it on
      spaces gives the batch summaries back when none of them has a space. */
  lemma SummaryTextKeepsBatchSummaries(testFiles: seq<string>, overallSummary: seq<string>, detailedReport: seq<File>)
    ensures var text := GenerateSummary(testFiles, overallSummary, detailedReport).summary;
      (forall k :: 0 <= k < |overallSummary| ==> Contains(text, overallSummary[k]))
      && (|overallSummary| > 0 && (forall k :: 0 <= k < |overallSummary| ==> ' ' !in overallSummary[k])
          ==> Split(text, ' ') == overallSummary)
  {
    var text := Join(overallSummary, " ");
    forall k | 0 <= k < |overallSummary|
      ensures Contains(text, overallSummary[k])
    {
      JoinPieceAt(overallSummary, " ", k);
    }
    if |overallSummary| > 0 && (forall k :: 0 <= k < |overallSummary| ==> ' ' !in overallSummary[k]) {
      SplitJoin(overallSummary, ' ');
    }
  }

  /** Every truthy batch summary of a run reaches the summary text. */
  lemma EveryBatchSummaryReachesTheText(testFiles: seq<string>, results: seq<ResponseJson>, detailedReport: seq<File>, k: nat)
    requires k < |results| && Batches.HasSummary(results[k])
    ensures Contains(GenerateSummary(testFiles, Batches.Summaries(results), detailedReport).summary, results[k].overallSummary.value)
  {
    var summaries := Batches.Summaries(results);
    Batches.SummariesAreTheTruthyOnes(results);
    var s := results[k].overallSummary.value;
    assert s in summaries;
    var j :| 0 <= j < |summaries| && summaries[j] == s;
    SummaryTextKeepsBatchSummaries(testFiles, summaries, detailedReport);
  }
}
