/** The batch orchestrator of src/processBatches.ts (and its identical copy
    in src/processBatch.ts): cut the file list into consecutive batches, send
    them one after the other to the model, and fold the per-batch results
    into the detailed report and the list of batch summaries. */
module Batches {
  import opened Wrappers
  import opened Prompt
  import Strings

  /** One request to the model: the batch's number, its loaded content and
      the model settings passed through unchanged. */
  datatype Call = Call(batch: nat, content: seq<PromptFile>, model: string, temperature: real)

  /** The batches `testFiles.slice(i, i + size)` for i = 0, size, 2 size, ... */
  function Chunks(files: seq<string>, size: nat): seq<seq<string>>
    requires size > 0
    decreases |files|
  {
    if |files| == 0 then []
    else if |files| <= size then [files]
    else [files[..size]] + Chunks(files[size..], size)
  }

  function Flatten<T>(parts: seq<seq<T>>): seq<T>
  {
    if parts == [] then [] else parts[0] + Flatten(parts[1..])
  }

  /** The files a batch result contributes: its `files` when present. */
  function FilesOf(result: ResponseJson): seq<File>
  {
    if result.files.Some? then result.files.value else []
  }

  /** `result.overallSummary` is truthy: present and not the empty string. */
  predicate HasSummary(result: ResponseJson)
  {
    result.overallSummary.Some? && result.overallSummary.value != ""
  }

  /** The detailed report after folding `results` in order. */
  function ReportedFiles(results: seq<ResponseJson>): seq<File>
  {
    if results == [] then []
    else ReportedFiles(results[..|results| - 1]) + FilesOf(results[|results| - 1])
  }

  /** The summaries after folding `results` in order. */
  function Summaries(results: seq<ResponseJson>): seq<string>
  {
    if results == [] then []
    else
      var last := results[|results| - 1];
      Summaries(results[..|results| - 1]) + (if HasSummary(last) then [last.overallSummary.value] else [])
  }

  /** The model calls made for `batches`, in order: batch k's loaded content
      goes to call k. */
  function Calls(batches: seq<seq<string>>, load: seq<string> -> seq<PromptFile>, model: string, temperature: real): (r: seq<Call>)
    ensures |r| == |batches|
  {
    seq(|batches|, k requires 0 <= k < |batches| => Call(k, load(batches[k]), model, temperature))
  }

  function Results(calls: seq<Call>, respond: Call -> ResponseJson): (r: seq<ResponseJson>)
    ensures |r| == |calls|
  {
    seq(|calls|, k requires 0 <= k < |calls| => respond(calls[k]))
  }

  /** The batching loop of `processBatches`: consecutive slices of
      `batchSize` files, the last one possibly shorter. */
  method SliceBatches(testFiles: seq<string>, batchSize: int) returns (batches: seq<seq<string>>)
    requires batchSize > 0
    ensures batches == Chunks(testFiles, batchSize)
  {
    batches := [];
    var i := 0;
    while i < |testFiles|
      invariant 0 <= i
      invariant i <= |testFiles| ==> Chunks(testFiles, batchSize) == batches + Chunks(testFiles[i..], batchSize)
      invariant i > |testFiles| ==> Chunks(testFiles, batchSize) == batches
      decreases |testFiles| - i
    {
      var rest := testFiles[i..];
      var batch := testFiles[i..Strings.Min(i + batchSize, |testFiles|)];
      if |rest| > batchSize {
        assert batch == rest[..batchSize];
        assert rest[batchSize..] == testFiles[i + batchSize..];
        assert Chunks(rest, batchSize) == [batch] + Chunks(testFiles[i + batchSize..], batchSize);
      } else {
        assert batch == rest;
        assert Chunks(rest, batchSize) == [batch];
        assert i + batchSize == |testFiles| ==> testFiles[i + batchSize..] == [];
      }
      batches := batches + [batch];
      i := i + batchSize;
    }
    if i == |testFiles| {
      assert testFiles[i..] == [];
    }
  }

  /** `processBatches`: `load` stands for reading and de-importing one
      batch's files, `respond` for the model call and its JSON parsing. A
      `batchSize` of zero or less never advances the loop, so it is ruled out. */
  method ProcessBatches(testFiles: seq<string>, batchSize: int, model: string, temperature: real,
                        load: seq<string> -> seq<PromptFile>, respond: Call -> ResponseJson)
    returns (overallSummary: seq<string>, detailedReport: seq<File>)
    requires batchSize > 0
    ensures var results := Results(Calls(Chunks(testFiles, batchSize), load, model, temperature), respond);
      overallSummary == Summaries(results) && detailedReport == ReportedFiles(results)
  {
    var batches := SliceBatches(testFiles, batchSize);
    ghost var results := Results(Calls(batches, load, model, temperature), respond);
    overallSummary := [];
    detailedReport := [];
    for k := 0 to |batches|
      invariant overallSummary == Summaries(results[..k])
      invariant detailedReport == ReportedFiles(results[..k])
    {
      var batchContent := load(batches[k]);
      var result := respond(Call(k, batchContent, model, temperature));
      assert results[k] == result;
      assert results[..k + 1] == results[..k] + [result];
      ReportedFilesSnoc(results[..k], result);
      SummariesSnoc(results[..k], result);
      if result.files.Some? {
        detailedReport := detailedReport + result.files.value;
      }
      if result.overallSummary.Some? && result.overallSummary.value != "" {
        overallSummary := overallSummary + [result.overallSummary.value];
      }
    }
    assert results[..|batches|] == results;
  }

  /** The batches, put back together, are the file list: nothing is lost,
      repeated or reordered. */
  lemma {:induction false} ChunksCover(files: seq<string>, size: nat)
    requires size > 0
    ensures Flatten(Chunks(files, size)) == files
    decreases |files|
  {
    if |files| > size {
      ChunksCover(files[size..], size);
      assert files[..size] + files[size..] == files;
    } else if |files| > 0 {
      assert Flatten([files]) == files + [];
    }
  }

  /** Every batch but the last holds exactly `size` files, and the last one
      between 1 and `size`. */
  lemma {:induction false} ChunkSizes(files: seq<string>, size: nat)
    requires size > 0
    ensures var r := Chunks(files, size);
      (forall k :: 0 <= k < |r| - 1 ==> |r[k]| == size)
      && (|r| > 0 ==> 1 <= |r[|r| - 1]| <= size)
    decreases |files|
  {
    if |files| > size {
      ChunkSizes(files[size..], size);
      var r := Chunks(files, size);
      var tail := Chunks(files[size..], size);
      assert r == [files[..size]] + tail;
      assert forall k :: 1 <= k < |r| ==> r[k] == tail[k - 1];
    }
  }

  /** There are ceil(n / size) batches for n files: the least count whose
      batches of `size` can hold them all. */
  lemma {:induction false} ChunkCount(files: seq<string>, size: nat)
    requires size > 0
    ensures var count := |Chunks(files, size)|;
      (|files| == 0 ==> count == 0)
      && (|files| > 0 ==> (count - 1) * size < |files| <= count * size)
    decreases |files|
  {
    if |files| > size {
      ChunkCount(files[size..], size);
      var count := |Chunks(files[size..], size)|;
      assert |Chunks(files, size)| == count + 1;
      assert (count + 1) * size == count * size + size;
    }
  }

  /** Five files in batches of two give batches of 2, 2 and 1 files. */
  lemma FiveFilesInPairs()
    ensures Chunks(["file1.ts", "file2.ts", "file3.ts", "file4.ts", "file5.ts"], 2)
         == [["file1.ts", "file2.ts"], ["file3.ts", "file4.ts"], ["file5.ts"]]
  {
    var files := ["file1.ts", "file2.ts", "file3.ts", "file4.ts", "file5.ts"];
    assert files[2..][2..] == ["file5.ts"];
    assert Chunks(["file5.ts"], 2) == [["file5.ts"]];
    assert files[2..][..2] == ["file3.ts", "file4.ts"];
    assert Chunks(files[2..], 2) == [["file3.ts", "file4.ts"], ["file5.ts"]];
    assert files[..2] == ["file1.ts", "file2.ts"];
  }

  /** No files: no batches, no model call, and both accumulators empty. */
  lemma NoFilesNoCalls(size: nat, load: seq<string> -> seq<PromptFile>, model: string, temperature: real, respond: Call -> ResponseJson)
    requires size > 0
    ensures var results := Results(Calls(Chunks([], size), load, model, temperature), respond);
      results == [] && Summaries(results) == [] && ReportedFiles(results) == []
  {
  }

  /** Folding one more result appends its files. */
  lemma ReportedFilesSnoc(results: seq<ResponseJson>, result: ResponseJson)
    ensures ReportedFiles(results + [result]) == ReportedFiles(results) + FilesOf(result)
  {
    assert (results + [result])[..|results|] == results;
  }

  /** Folding one more result appends its summary when it is truthy. */
  lemma SummariesSnoc(results: seq<ResponseJson>, result: ResponseJson)
    ensures Summaries(results + [result]) == Summaries(results) + (if HasSummary(result) then [result.overallSummary.value] else [])
  {
    assert (results + [result])[..|results|] == results;
  }

  /** Folding two runs of batch results one after the other concatenates
      their files: the detailed report keeps batch order. */
  lemma {:induction false} ReportedFilesAppend(a: seq<ResponseJson>, b: seq<ResponseJson>)
    ensures ReportedFiles(a + b) == ReportedFiles(a) + ReportedFiles(b)
    decreases |b|
  {
    if b == [] {
      assert a + b == a;
    } else {
      ReportedFilesAppend(a, b[..|b| - 1]);
      ReportedFilesAppendStep(a, b[..|b| - 1], b[|b| - 1]);
      Strings.SplitLast(a, b);
    }
  }

  lemma ReportedFilesAppendStep(a: seq<ResponseJson>, b: seq<ResponseJson>, x: ResponseJson)
    requires ReportedFiles(a + b) == ReportedFiles(a) + ReportedFiles(b)
    ensures ReportedFiles(a + b + [x]) == ReportedFiles(a) + ReportedFiles(b + [x])
  {
    ReportedFilesSnoc(a + b, x);
    ReportedFilesSnoc(b, x);
  }

  /** The same for the summaries. */
  lemma {:induction false} SummariesAppend(a: seq<ResponseJson>, b: seq<ResponseJson>)
    ensures Summaries(a + b) == Summaries(a) + Summaries(b)
    decreases |b|
  {
    if b == [] {
      assert a + b == a;
    } else {
      SummariesAppend(a, b[..|b| - 1]);
      SummariesAppendStep(a, b[..|b| - 1], b[|b| - 1]);
      Strings.SplitLast(a, b);
    }
  }

  lemma SummariesAppendStep(a: seq<ResponseJson>, b: seq<ResponseJson>, x: ResponseJson)
    requires Summaries(a + b) == Summaries(a) + Summaries(b)
    ensures Summaries(a + b + [x]) == Summaries(a) + Summaries(b + [x])
  {
    SummariesSnoc(a + b, x);
    SummariesSnoc(b, x);
  }

  /** A batch that returned `{}` (or only an empty summary and no files)
      leaves both accumulators as they would be without it. */
  lemma SilentBatchChangesNothing(before: seq<ResponseJson>, result: ResponseJson, after: seq<ResponseJson>)
    requires result.files.None? && !HasSummary(result)
    ensures ReportedFiles(before + [result] + after) == ReportedFiles(before + after)
    ensures Summaries(before + [result] + after) == Summaries(before + after)
  {
    SilentBatchKeepsFiles(before, result, after);
    SilentBatchKeepsSummaries(before, result, after);
  }

  lemma SilentBatchKeepsFiles(before: seq<ResponseJson>, result: ResponseJson, after: seq<ResponseJson>)
    requires result.files.None?
    ensures ReportedFiles(before + [result] + after) == ReportedFiles(before + after)
  {
    ReportedFilesAppend(before, [result]);
    assert [result][..0] == [];
    assert ReportedFiles([result]) == [];
    assert ReportedFiles(before + [result]) == ReportedFiles(before);
    ReportedFilesAppend(before + [result], after);
    ReportedFilesAppend(before, after);
  }

  lemma SilentBatchKeepsSummaries(before: seq<ResponseJson>, result: ResponseJson, after: seq<ResponseJson>)
    requires !HasSummary(result)
    ensures Summaries(before + [result] + after) == Summaries(before + after)
  {
    SummariesAppend(before, [result]);
    assert [result][..0] == [];
    assert Summaries([result]) == [];
    assert Summaries(before + [result]) == Summaries(before);
    SummariesAppend(before + [result], after);
    SummariesAppend(before, after);
  }

  /** The detailed report is the concatenation, in batch order, of every
      result's files. */
  lemma {:induction false} ReportedFilesConcatenates(results: seq<ResponseJson>)
    ensures ReportedFiles(results) == Flatten(seq(|results|, k requires 0 <= k < |results| => FilesOf(results[k])))
  {
    if results != [] {
      ReportedFilesConcatenates(results[1..]);
      ReportedFilesAppend([results[0]], results[1..]);
      assert [results[0]] + results[1..] == results;
      assert [results[0]][..0] == [];
      var parts := seq(|results|, k requires 0 <= k < |results| => FilesOf(results[k]));
      assert parts[1..] == seq(|results[1..]|, k requires 0 <= k < |results[1..]| => FilesOf(results[1..][k]));
    }
  }

  /** The summaries are exactly the truthy batch summaries, at most one per
      batch. */
  lemma {:induction false} SummariesAreTheTruthyOnes(results: seq<ResponseJson>)
    ensures |Summaries(results)| <= |results|
    ensures forall s :: s in Summaries(results) <==>
      exists k :: 0 <= k < |results| && HasSummary(results[k]) && results[k].overallSummary.value == s
  {
    if results != [] {
      var init := results[..|results| - 1];
      SummariesAreTheTruthyOnes(init);
      forall s | (exists k :: 0 <= k < |results| && HasSummary(results[k]) && results[k].overallSummary.value == s)
        ensures s in Summaries(results)
      {
        var k :| 0 <= k < |results| && HasSummary(results[k]) && results[k].overallSummary.value == s;
        if k < |results| - 1 {
          assert init[k] == results[k];
        }
      }
    }
  }
}
