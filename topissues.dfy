/** The issue groups of src/identifyTopIssues.ts: files scored below 5 and
    tests the model judged not meaningful, each group with its total and its
    first three examples. */
module TopIssues {
  import opened Wrappers
  import opened Prompt
  import Strings

  const LowScoreType: string := "Low scoring test files"
  const ImplementationDetailsType: string := "Tests of implementation details"
  const LowScoreThreshold: real := 5.0
  const MaxExamples: nat := 3

  /** An example of an issue: a low-scoring file `{file, score, reason}`, or a
      test that is not meaningful `{file, test, reason}`. */
  datatype Example =
    | LowScoringFile(file: string, score: real, reason: string)
    | NotMeaningfulTest(file: string, test: string, reason: string)

  /** One group of issues `{type, count, examples}`. */
  datatype IssueGroup = IssueGroup(kind: string, count: nat, examples: seq<Example>)

  /** `file.score < 5`; a missing score compares false and is never low. */
  predicate IsLowScoring(f: File)
  {
    f.score.Some? && f.score.value < LowScoreThreshold
  }

  function LowExample(f: File): Example
    requires IsLowScoring(f)
  {
    LowScoringFile(f.file, f.score.value, f.summary)
  }

  /** `lowScoringFiles`: the low-scoring files, in report order, as examples. */
  function LowScoringFiles(report: seq<File>): (r: seq<Example>)
    ensures |r| <= |report|
    ensures forall k :: 0 <= k < |r| ==> r[k].LowScoringFile? && r[k].score < LowScoreThreshold
  {
    if report == [] then []
    else (if IsLowScoring(report[0]) then [LowExample(report[0])] else []) + LowScoringFiles(report[1..])
  }

  /** `test.meaningful === false`: only an explicit `false` counts. */
  predicate IsNotMeaningful(t: Test)
  {
    t.meaningful == Some(false)
  }

  /** The flagged tests of one file, in test order. */
  function FlaggedTests(file: string, tests: seq<Test>): seq<Example>
  {
    if tests == [] then []
    else
      var last := tests[|tests| - 1];
      FlaggedTests(file, tests[..|tests| - 1])
        + (if IsNotMeaningful(last) then [NotMeaningfulTest(file, last.name, last.summary)] else [])
  }

  /** The tests of a file; an absent `tests` field contributes none. */
  function TestsOf(f: File): seq<Test>
  {
    f.tests.GetOr([])
  }

  /** `meaninglessTests` after the nested `forEach`: file order, then test order. */
  function MeaninglessTests(report: seq<File>): seq<Example>
  {
    if report == [] then []
    else
      var last := report[|report| - 1];
      MeaninglessTests(report[..|report| - 1]) + FlaggedTests(last.file, TestsOf(last))
  }

  /** A group with its total and `examples.slice(0, 3)`. */
  function Group(kind: string, items: seq<Example>): IssueGroup
  {
    IssueGroup(kind, |items|, items[..Strings.Min(MaxExamples, |items|)])
  }

  /** The value of `identifyTopIssues(report)`. */
  function TopIssues(report: seq<File>): seq<IssueGroup>
  {
    var low := LowScoringFiles(report);
    var meaningless := MeaninglessTests(report);
    (if |low| > 0 then [Group(LowScoreType, low)] else [])
      + (if |meaningless| > 0 then [Group(ImplementationDetailsType, meaningless)] else [])
  }

  /** `identifyTopIssues`, with its `issues.push` and its nested loops. */
  method IdentifyTopIssues(report: seq<File>) returns (issues: seq<IssueGroup>)
    ensures issues == TopIssues(report)
  {
    issues := [];
    var lowScoringFiles := LowScoringFiles(report);
    if |lowScoringFiles| > 0 {
      issues := issues + [IssueGroup(LowScoreType, |lowScoringFiles|, lowScoringFiles[..Strings.Min(MaxExamples, |lowScoringFiles|)])];
    }

    var meaninglessTests: seq<Example> := [];
    for i := 0 to |report|
      invariant meaninglessTests == MeaninglessTests(report[..i])
    {
      var file := report[i];
      if file.tests.Some? {
        var tests := file.tests.value;
        for j := 0 to |tests|
          invariant meaninglessTests == MeaninglessTests(report[..i]) + FlaggedTests(file.file, tests[..j])
        {
          assert tests[..j + 1][..j] == tests[..j];
          if tests[j].meaningful == Some(false) {
            meaninglessTests := meaninglessTests + [NotMeaningfulTest(file.file, tests[j].name, tests[j].summary)];
          }
        }
        assert tests[..|tests|] == tests;
      } else {
        assert FlaggedTests(file.file, TestsOf(file)) == [];
      }
      assert report[..i + 1][..i] == report[..i];
    }
    assert report[..|report|] == report;

    if |meaninglessTests| > 0 {
      issues := issues + [IssueGroup(ImplementationDetailsType, |meaninglessTests|, meaninglessTests[..Strings.Min(MaxExamples, |meaninglessTests|)])];
    }
  }

  /** An empty report has no issues. */
  lemma EmptyReportHasNoIssues()
    ensures TopIssues([]) == []
  {
  }

  /** The low-scoring examples are exactly the files scored below 5 (so a
      score of 5 is not flagged, nor is a missing one), each as `{file, score,
      reason = summary}`. */
  lemma {:induction false} LowScoringFilesAreTheLowOnes(report: seq<File>)
    ensures forall e :: e in LowScoringFiles(report) <==>
      exists i :: 0 <= i < |report| && IsLowScoring(report[i]) && e == LowExample(report[i])
  {
    if report != [] {
      LowScoringFilesAreTheLowOnes(report[1..]);
      forall e | e in LowScoringFiles(report)
        ensures exists i :: 0 <= i < |report| && IsLowScoring(report[i]) && e == LowExample(report[i])
      {
        if e !in LowScoringFiles(report[1..]) {
          assert IsLowScoring(report[0]) && e == LowExample(report[0]);
        } else {
          var i :| 0 <= i < |report[1..]| && IsLowScoring(report[1..][i]) && e == LowExample(report[1..][i]);
          assert report[i + 1] == report[1..][i];
        }
      }
      forall e | exists i :: 0 <= i < |report| && IsLowScoring(report[i]) && e == LowExample(report[i])
        ensures e in LowScoringFiles(report)
      {
        var i :| 0 <= i < |report| && IsLowScoring(report[i]) && e == LowExample(report[i]);
        if i > 0 {
          assert report[1..][i - 1] == report[i];
        }
      }
    }
  }

  /** Low-scoring files keep report order: the examples of a report split in
      two are those of the first part, then those of the second. */
  lemma {:induction false} LowScoringFilesAppend(a: seq<File>, b: seq<File>)
    ensures LowScoringFiles(a + b) == LowScoringFiles(a) + LowScoringFiles(b)
    decreases |a|
  {
    if a != [] {
      LowScoringFilesAppend(a[1..], b);
      assert (a + b)[1..] == a[1..] + b;
    } else {
      assert a + b == b;
    }
  }

  /** Within one file, flagged tests keep test order: the flags of two runs
      of tests are the flags of the first run, then those of the second. */
  lemma {:induction false} FlaggedTestsAppend(file: string, a: seq<Test>, b: seq<Test>)
    ensures FlaggedTests(file, a + b) == FlaggedTests(file, a) + FlaggedTests(file, b)
  {
    if b == [] {
      assert a + b == a;
    } else {
      Strings.SplitLast(a, b);
      assert (a + b)[..|a + b| - 1] == a + b[..|b| - 1];
      FlaggedTestsAppend(file, a, b[..|b| - 1]);
    }
  }

  lemma {:induction false} FlaggedTestsAreTheFalseOnes(file: string, tests: seq<Test>)
    ensures forall e :: e in FlaggedTests(file, tests) <==>
      exists j :: 0 <= j < |tests| && IsNotMeaningful(tests[j]) && e == NotMeaningfulTest(file, tests[j].name, tests[j].summary)
    decreases |tests|
  {
    if tests != [] {
      var init := tests[..|tests| - 1];
      FlaggedTestsAreTheFalseOnes(file, init);
      forall e | exists j :: 0 <= j < |tests| && IsNotMeaningful(tests[j]) && e == NotMeaningfulTest(file, tests[j].name, tests[j].summary)
        ensures e in FlaggedTests(file, tests)
      {
        var j :| 0 <= j < |tests| && IsNotMeaningful(tests[j]) && e == NotMeaningfulTest(file, tests[j].name, tests[j].summary);
        if j < |tests| - 1 {
          assert init[j] == tests[j];
        }
      }
    }
  }

  /** Test `j` of file `i` is flagged, and `e` is its example. */
  predicate FlaggedAt(report: seq<File>, i: int, j: int, e: Example)
  {
    0 <= i < |report| && 0 <= j < |TestsOf(report[i])| && IsNotMeaningful(TestsOf(report[i])[j])
    && e == NotMeaningfulTest(report[i].file, TestsOf(report[i])[j].name, TestsOf(report[i])[j].summary)
  }

  /** Reading one more file adds its flagged tests at the end. */
  lemma MeaninglessTestsSnoc(report: seq<File>, f: File)
    ensures MeaninglessTests(report + [f]) == MeaninglessTests(report) + FlaggedTests(f.file, TestsOf(f))
  {
    assert (report + [f])[..|report|] == report;
  }

  /** The implementation-details examples are exactly the tests with
      `meaningful === false`, as `{file, test = name, reason = summary}`;
      files without `tests` contribute none. */
  lemma {:induction false} MeaninglessTestsAreTheFlaggedOnes(report: seq<File>)
    ensures forall e :: e in MeaninglessTests(report) <==>
      exists i, j :: FlaggedAt(report, i, j, e)
    decreases |report|
  {
    if report != [] {
      var init, last := report[..|report| - 1], report[|report| - 1];
      MeaninglessTestsAreTheFlaggedOnes(init);
      assert report == init + [last];
      FlaggedInLastStep(init, last);
    }
  }

  /** The induction step of the lemma above: if it holds for `init`, it
      holds once `last` is read. */
  lemma FlaggedInLastStep(init: seq<File>, last: File)
    requires forall e :: e in MeaninglessTests(init) <==> exists i, j :: FlaggedAt(init, i, j, e)
    ensures forall e :: e in MeaninglessTests(init + [last]) <==> exists i, j :: FlaggedAt(init + [last], i, j, e)
  {
    var report := init + [last];
    MeaninglessTestsSnoc(init, last);
    FlaggedTestsAreTheFalseOnes(last.file, TestsOf(last));
    forall e | e in MeaninglessTests(report)
      ensures exists i, j :: FlaggedAt(report, i, j, e)
    {
      if e in MeaninglessTests(init) {
        var i, j :| FlaggedAt(init, i, j, e);
        assert report[i] == init[i];
        assert FlaggedAt(report, i, j, e);
      } else {
        var j :| 0 <= j < |TestsOf(last)| && IsNotMeaningful(TestsOf(last)[j]) && e == NotMeaningfulTest(last.file, TestsOf(last)[j].name, TestsOf(last)[j].summary);
        assert FlaggedAt(report, |report| - 1, j, e);
      }
    }
    forall e | exists i, j :: FlaggedAt(report, i, j, e)
      ensures e in MeaninglessTests(report)
    {
      var i, j :| FlaggedAt(report, i, j, e);
      if i < |init| {
        assert init[i] == report[i];
        assert FlaggedAt(init, i, j, e);
      } else {
        assert report[i] == last;
      }
    }
  }

  /** Flagged tests keep file order: a report split in two gives the flagged
      tests of the first part, then those of the second. */
  lemma {:induction false} MeaninglessTestsAppend(a: seq<File>, b: seq<File>)
    ensures MeaninglessTests(a + b) == MeaninglessTests(a) + MeaninglessTests(b)
    decreases |b|
  {
    if b == [] {
      assert a + b == a;
    } else {
      MeaninglessTestsAppend(a, b[..|b| - 1]);
      MeaninglessTestsAppendStep(a, b[..|b| - 1], b[|b| - 1]);
      Strings.SplitLast(a, b);
    }
  }

  lemma MeaninglessTestsAppendStep(a: seq<File>, b: seq<File>, x: File)
    requires MeaninglessTests(a + b) == MeaninglessTests(a) + MeaninglessTests(b)
    ensures MeaninglessTests(a + b + [x]) == MeaninglessTests(a) + MeaninglessTests(b + [x])
  {
    MeaninglessTestsSnoc(a + b, x);
    MeaninglessTestsSnoc(b, x);
  }

  /** A file whose `tests` is absent adds no implementation-details example,
      yet it is still judged on its score. */
  lemma MissingTestsAddNoFlaggedTest(before: seq<File>, f: File, after: seq<File>)
    requires f.tests.None?
    ensures MeaninglessTests(before + [f] + after) == MeaninglessTests(before + after)
    ensures LowScoringFiles(before + [f] + after)
         == LowScoringFiles(before) + (if IsLowScoring(f) then [LowExample(f)] else []) + LowScoringFiles(after)
  {
    MissingTestsFlagNothing(before, f, after);
    LowScoringFilesAppend(before + [f], after);
    LowScoringFilesAppend(before, [f]);
    assert [f][1..] == [];
  }

  lemma MissingTestsFlagNothing(before: seq<File>, f: File, after: seq<File>)
    requires f.tests.None?
    ensures MeaninglessTests(before + [f] + after) == MeaninglessTests(before + after)
  {
    MeaninglessTestsSnoc(before, f);
    assert MeaninglessTests(before + [f]) == MeaninglessTests(before);
    MeaninglessTestsAppend(before + [f], after);
    MeaninglessTestsAppend(before, after);
  }

  /** At most two groups, the low-score group first; it is present exactly
      when some file scores below 5, and the implementation-details group
      exactly when some test is flagged. Each group's count is its full
      total and its examples are the first min(count, 3) items. */
  lemma GroupsShape(report: seq<File>)
    ensures var issues := TopIssues(report);
      var low := LowScoringFiles(report);
      var meaningless := MeaninglessTests(report);
      |issues| <= 2
      && ((exists i :: 0 <= i < |report| && IsLowScoring(report[i])) <==> |issues| > 0 && issues[0].kind == LowScoreType)
      && (|meaningless| > 0 <==> |issues| > 0 && issues[|issues| - 1].kind == ImplementationDetailsType)
      && (|low| > 0 ==> issues[0] == IssueGroup(LowScoreType, |low|, low[..Strings.Min(3, |low|)]))
      && (|meaningless| > 0 ==> issues[|issues| - 1] == IssueGroup(ImplementationDetailsType, |meaningless|, meaningless[..Strings.Min(3, |meaningless|)]))
      && (forall g :: g in issues ==> g.count > 0 && |g.examples| == Strings.Min(3, g.count))
  {
    SomeLowIffLowExamples(report);
    KindsDiffer();
  }

  lemma SomeLowIffLowExamples(report: seq<File>)
    ensures (exists i :: 0 <= i < |report| && IsLowScoring(report[i])) <==> |LowScoringFiles(report)| > 0
  {
    var low := LowScoringFiles(report);
    LowScoringFilesAreTheLowOnes(report);
    if exists i :: 0 <= i < |report| && IsLowScoring(report[i]) {
      var i :| 0 <= i < |report| && IsLowScoring(report[i]);
      assert LowExample(report[i]) in low;
    }
    if |low| > 0 {
      assert low[0] in low;
    }
  }

  lemma KindsDiffer()
    ensures LowScoreType != ImplementationDetailsType
  {
    assert LowScoreType[0] != ImplementationDetailsType[0];
  }
}
