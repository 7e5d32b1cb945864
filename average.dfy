/** The average score of src/calculateAverageScore.ts, in exact arithmetic. */
module Average {
  import opened Wrappers
  import opened Prompt

  /** `file.score || 0`: a missing score counts as 0. */
  function ScoreOrZero(f: File): real
  {
    f.score.GetOr(0.0)
  }

  /** The `reduce` total, taken left to right. */
  function Sum(report: seq<File>): real
  {
    if report == [] then 0.0 else Sum(report[..|report| - 1]) + ScoreOrZero(report[|report| - 1])
  }

  /** `calculateAverageScore`: 0 for an empty report, else the mean score
      scaled by 10 (a 1-10 score becomes a 0-100 figure). */
  function CalculateAverageScore(report: seq<File>): (r: real)
    ensures |report| == 0 ==> r == 0.0
    ensures |report| > 0 ==> r * (|report| as real) == 10.0 * Sum(report)
  {
    if |report| == 0 then 0.0 else (Sum(report) / (|report| as real)) * 10.0
  }

  lemma {:induction false} SumAppend(a: seq<File>, b: seq<File>)
    ensures Sum(a + b) == Sum(a) + Sum(b)
    decreases |b|
  {
    if b == [] {
      assert a + b == a;
    } else {
      SumAppend(a, b[..|b| - 1]);
      assert (a + b)[..|a + b| - 1] == a + b[..|b| - 1];
    }
  }

  lemma SumOne(f: File)
    ensures Sum([f]) == ScoreOrZero(f)
  {
    assert [f][..0] == [];
  }

  /** The total does not depend on the order of the files. */
  lemma {:induction false} SumPermutation(a: seq<File>, b: seq<File>)
    requires multiset(a) == multiset(b)
    ensures Sum(a) == Sum(b)
    decreases |a|
  {
    if a != [] {
      var x := a[|a| - 1];
      var init := a[..|a| - 1];
      assert a == init + [x];
      assert x in multiset(b);
      var j :| 0 <= j < |b| && b[j] == x;
      var rest := b[..j] + b[j + 1..];
      assert b == b[..j] + [x] + b[j + 1..];
      assert multiset(b) == multiset(b[..j]) + multiset{x} + multiset(b[j + 1..]);
      assert multiset(rest) == multiset(b[..j]) + multiset(b[j + 1..]);
      assert multiset(a) == multiset(init) + multiset{x};
      assert multiset(init) + multiset{x} == multiset(rest) + multiset{x};
      assert multiset(init) == multiset(init) + multiset{x} - multiset{x};
      assert multiset(rest) == multiset(rest) + multiset{x} - multiset{x};
      SumPermutation(init, rest);
      SumAppend(b[..j] + [x], b[j + 1..]);
      SumAppend(b[..j], [x]);
      SumAppend(b[..j], b[j + 1..]);
      SumOne(x);
    }
  }

  /** Reordering the detailed report leaves the average unchanged. */
  lemma AverageIgnoresOrder(a: seq<File>, b: seq<File>)
    requires multiset(a) == multiset(b)
    ensures CalculateAverageScore(a) == CalculateAverageScore(b)
  {
    SumPermutation(a, b);
    assert |a| == |multiset(a)| == |multiset(b)| == |b|;
  }

  predicate ScoreInRange(f: File)
  {
    f.score.Some? ==> 0.0 <= f.score.value <= 10.0
  }

  lemma {:induction false} SumBounds(report: seq<File>)
    requires forall i :: 0 <= i < |report| ==> ScoreInRange(report[i])
    ensures 0.0 <= Sum(report) <= 10.0 * (|report| as real)
    decreases |report|
  {
    if report != [] {
      SumBounds(report[..|report| - 1]);
    }
  }

  /** Scores on the 0-10 scale give an average on the 0-100 scale. */
  lemma AverageInRange(report: seq<File>)
    requires forall i :: 0 <= i < |report| ==> ScoreInRange(report[i])
    ensures 0.0 <= CalculateAverageScore(report) <= 100.0
  {
    SumBounds(report);
    if |report| > 0 {
      var n := |report| as real;
      var mean := Sum(report) / n;
      assert mean * n == Sum(report);
      assert 0.0 <= mean <= 10.0;
    }
  }

  /** A file without a score weighs exactly like one scored 0. */
  lemma MissingScoreIsZero(before: seq<File>, f: File, after: seq<File>)
    requires f.score.None?
    ensures CalculateAverageScore(before + [f] + after) == CalculateAverageScore(before + [f.(score := Some(0.0))] + after)
  {
    var g := f.(score := Some(0.0));
    SumAppend(before + [f], after);
    SumAppend(before, [f]);
    SumAppend(before + [g], after);
    SumAppend(before, [g]);
    SumOne(f);
    SumOne(g);
  }

  /** Scores 6, 0 and a missing one average to 2, reported as 20. */
  lemma SixZeroMissingGivesTwenty()
    ensures CalculateAverageScore([File("test1.ts", "Test summary 1", Some(6.0), None),
                                   File("test2.ts", "Test summary 2", Some(0.0), None),
                                   File("test3.ts", "Test summary 3", None, None)]) == 20.0
  {
    var report := [File("test1.ts", "Test summary 1", Some(6.0), None),
                   File("test2.ts", "Test summary 2", Some(0.0), None),
                   File("test3.ts", "Test summary 3", None, None)];
    assert report[..2][..1] == [report[0]];
    SumOne(report[0]);
    assert Sum(report[..2]) == 6.0;
    assert Sum(report) == 6.0;
  }
}
