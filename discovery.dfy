/** How the action finds the test files to grade: the glob pattern list,
    and the narrowing to files changed in the pull request. The glob
    engine, the GitHub lookup of changed files and `path.relative` against
    the working directory are parameters. */
module Discovery {
  import opened Wrappers
  import opened Strings

  /** Directories never searched, as negated glob patterns. */
  const Exclusions: seq<string> := ["!**/node_modules/**", "!**/dist/**", "!**/build/**"]

  /** A JavaScript string is truthy when it is present and not empty. */
  predicate Truthy(s: Option<string>)
  {
    s.Some? && s.value != ""
  }

  /** The pattern list: the space-separated user patterns, when there are
      any, put in front of the exclusions. */
  function Patterns(testPatterns: string): (r: seq<string>)
    ensures |r| >= |Exclusions| && r[|r| - |Exclusions|..] == Exclusions
    ensures testPatterns == "" ==> r == Exclusions
  {
    if testPatterns != "" then Split(testPatterns, ' ') + Exclusions else Exclusions
  }

  /** The text handed to the glob engine: one pattern per line. */
  function GlobInput(patterns: seq<string>): string
  {
    Join(patterns, "\n")
  }

  /** The changed paths, made relative to the working directory. */
  function Relatives(files: seq<string>, relative: string -> string): (r: seq<string>)
    ensures |r| == |files|
    ensures forall i :: 0 <= i < |files| ==> r[i] == relative(files[i])
  {
    seq(|files|, i requires 0 <= i < |files| => relative(files[i]))
  }

  /** The glob results whose relative path is one of the changed paths. */
  function FilterChanged(all: seq<string>, changed: seq<string>, relative: string -> string): (r: seq<string>)
    ensures |r| <= |all|
    ensures forall f :: f in r <==> f in all && relative(f) in Relatives(changed, relative)
  {
    if all == [] then []
    else
      var rest := FilterChanged(all[1..], changed, relative);
      assert all == [all[0]] + all[1..];
      if relative(all[0]) in Relatives(changed, relative) then [all[0]] + rest else rest
  }

  /** `findTestFiles`: in changed-files mode with a token, the glob results
      narrowed to the changed files; otherwise every glob result. */
  method FindTestFiles(testPatterns: string, onlyChangedFiles: bool, githubToken: Option<string>,
                       glob: string -> seq<string>, getChangedFiles: string -> seq<string>,
                       relative: string -> string)
    returns (testFiles: seq<string>)
    ensures onlyChangedFiles && Truthy(githubToken) ==>
      testFiles == FilterChanged(glob(GlobInput(Patterns(testPatterns))), getChangedFiles(githubToken.value), relative)
    ensures !(onlyChangedFiles && Truthy(githubToken)) ==>
      testFiles == glob(GlobInput(Patterns(testPatterns)))
  {
    var patterns := Exclusions;
    if testPatterns != "" {
      patterns := Split(testPatterns, ' ') + patterns;
    }
    testFiles := [];
    if onlyChangedFiles && Truthy(githubToken) {
      var changedFiles := getChangedFiles(githubToken.value);
      var allTestFiles := glob(GlobInput(patterns));
      testFiles := FilterChanged(allTestFiles, changedFiles, relative);
    } else {
      testFiles := glob(GlobInput(patterns));
    }
  }

  /** The user patterns are the pieces between single spaces: one more than
      there are spaces, none holding a space, and joined back with " " they
      give the option text again. */
  lemma UserPatternsRejoin(testPatterns: string)
    requires testPatterns != ""
    ensures var user := Patterns(testPatterns)[..|Patterns(testPatterns)| - |Exclusions|];
      && |user| == Count(testPatterns, ' ') + 1
      && (forall i :: 0 <= i < |user| ==> ' ' !in user[i])
      && Join(user, " ") == testPatterns
  {
    var user := Patterns(testPatterns)[..|Patterns(testPatterns)| - |Exclusions|];
    assert user == Split(testPatterns, ' ');
    JoinSplit(testPatterns, ' ');
  }

  lemma NoExclusionHoldsNewline()
    ensures forall i :: 0 <= i < |Exclusions| ==> '\n' !in Exclusions[i]
  {
  }

  /** The glob engine can recover the pattern list line by line, as long as
      the option text has no line break. */
  lemma GlobInputListsPatterns(testPatterns: string)
    requires '\n' !in testPatterns
    ensures Split(GlobInput(Patterns(testPatterns)), '\n') == Patterns(testPatterns)
  {
    var r := Patterns(testPatterns);
    NoExclusionHoldsNewline();
    if testPatterns != "" {
      var user := Split(testPatterns, ' ');
      SplitPiecesAvoid(testPatterns, ' ', '\n');
      assert r == user + Exclusions;
      forall i | 0 <= i < |r|
        ensures '\n' !in r[i]
      {
        if i >= |user| {
          assert r[i] == Exclusions[i - |user|];
        }
      }
    }
    SplitJoin(r, '\n');
  }

  /** Every pattern, the three exclusions included, is written into the
      glob input verbatim. */
  lemma GlobInputHoldsEveryPattern(testPatterns: string, k: nat)
    requires k < |Patterns(testPatterns)|
    ensures Contains(GlobInput(Patterns(testPatterns)), Patterns(testPatterns)[k])
  {
    var r := Patterns(testPatterns);
    JoinPieceAt(r, "\n", k);
    var at := PieceOffset(r, 1, k);
    assert at <= |GlobInput(r)| && OccursAt(GlobInput(r), r[k], at);
  }

  /** The narrowing keeps report order: filtering a concatenation filters
      each part in turn. */
  lemma {:induction false} FilterChangedDistributes(a: seq<string>, b: seq<string>, changed: seq<string>,
                                                    relative: string -> string)
    ensures FilterChanged(a + b, changed, relative)
         == FilterChanged(a, changed, relative) + FilterChanged(b, changed, relative)
  {
    if a != [] {
      assert (a + b)[1..] == a[1..] + b;
      FilterChangedDistributes(a[1..], b, changed, relative);
    } else {
      assert a + b == b;
    }
  }

  /** A single glob result survives exactly when its relative path was changed. */
  lemma FilterChangedSingle(f: string, changed: seq<string>, relative: string -> string)
    ensures FilterChanged([f], changed, relative)
         == (if relative(f) in Relatives(changed, relative) then [f] else [])
  {
    assert [f][1..] == [];
  }

  /** When every glob result was changed, nothing is dropped. */
  lemma {:induction false} AllChangedKeepsEverything(all: seq<string>, changed: seq<string>,
                                                     relative: string -> string)
    requires forall f :: f in all ==> relative(f) in Relatives(changed, relative)
    ensures FilterChanged(all, changed, relative) == all
  {
    if all != [] {
      assert all[0] in all;
      forall f | f in all[1..]
        ensures relative(f) in Relatives(changed, relative)
      {
        assert f in all;
      }
      AllChangedKeepsEverything(all[1..], changed, relative);
      assert all == [all[0]] + all[1..];
    }
  }

  /** With no changed files (the GitHub lookup gives none outside a pull
      request, or on an API error), changed-files mode finds no tests. */
  lemma {:induction false} NoChangesFindNothing(all: seq<string>, relative: string -> string)
    ensures FilterChanged(all, [], relative) == []
  {
    if all != [] {
      NoChangesFindNothing(all[1..], relative);
    }
  }

  /** Two space-separated patterns come first, in order, then the exclusions. */
  lemma TwoPatternsThenExclusions(w: string, t: string)
    requires ' ' !in w && ' ' !in t
    ensures Patterns(w + " " + t) == [w, t] + Exclusions
  {
    assert w + " " + t == w + [' '] + t;
    SplitAfterPiece(w, t, ' ');
    SplitNoSeparator(t, ' ');
  }

  /** Of three glob results, only the one whose relative path is among the
      changed paths survives; a changed file that is not among the glob
      results is ignored. */
  lemma OnlyChangedTestFileSurvives(f1: string, f2: string, f3: string, other: string,
                                    relative: string -> string)
    requires relative(f2) != relative(f1) && relative(f2) != relative(other)
    requires relative(f3) != relative(f1) && relative(f3) != relative(other)
    ensures FilterChanged([f1, f2, f3], [f1, other], relative) == [f1]
  {
    var changed := [f1, other];
    var rel := Relatives(changed, relative);
    assert rel == [relative(f1), relative(other)];
    assert relative(f1) in rel && relative(f2) !in rel && relative(f3) !in rel;
    FilterChangedSingle(f1, changed, relative);
    FilterChangedSingle(f2, changed, relative);
    FilterChangedSingle(f3, changed, relative);
    assert FilterChanged([f2, f3], changed, relative) == [] by {
      assert [f2, f3] == [f2] + [f3];
      FilterChangedDistributes([f2], [f3], changed, relative);
    }
    assert [f1, f2, f3] == [f1] + [f2, f3];
    FilterChangedDistributes([f1], [f2, f3], changed, relative);
  }
}
