/** The prompt builder of src/getPrompt.ts and the shapes it declares: the
    (path, content) pairs sent to the model and the per-file report the model
    is asked to return. */
module Prompt {
  import opened Wrappers
  import opened Strings

  /** One test file as sent to the model: its relative path and its text. */
  datatype PromptFile = PromptFile(file: string, content: string)

  /** One test as the model reports it. `meaningful` is whatever the reply
      held: `true`, `false` or nothing. */
  datatype Test = Test(name: string, summary: string, meaningful: Option<bool>, score: real, suggestions: string)

  /** One file as the model reports it (the source's `File`). The reply may
      leave out `score` and `tests`. */
  datatype File = File(file: string, summary: string, score: Option<real>, tests: Option<seq<Test>>)

  /** What one batch yields (the source's `ResponseJson`); either field is
      absent when the model call or its JSON failed. */
  datatype ResponseJson = ResponseJson(files: Option<seq<File>>, overallSummary: Option<string>)

  const Intro: string := "You are a senior software engineer."
  const ScaleLine: string := "- A score from 1-10 for its value."
  const FormatRequest: string := "Please provide your analysis in JSON format"

  /** The text before the first file block, as pieces of at most 45
      characters: the verifier reads each literal piece on its own. */
  const PreamblePieces: seq<string> := [
    "\n", Intro, " Evaluate the following TypeScript unit", " tests for usefulness and quality.\n",
    "For each test, provide:\n",
    "- Summary of what it's testing.\n",
    "- Whether it's meaningful or just", " testing implementation details.\n",
    ScaleLine, "\n",
    "- Suggestions if it's weak.\n",
    "\n",
    "Here are the test files to evaluate:\n",
    "\n"
  ]

  /** The text after the last file block: the request for JSON and its
      skeleton, cut into pieces the same way. */
  const TrailerPieces: seq<string> := [
    "\n\n", FormatRequest, " with the following structure:\n",
    "{\n",
    "  \"files\": [\n",
    "    {\n",
    "      \"file\": \"path/to/file.test.ts\",\n",
    "      \"summary\":", " \"Overall assessment of the test file\",\n",
    "      \"score\": 7,\n",
    "      \"tests\": [\n",
    "        {\n",
    "          \"name\":", " \"test name or description\",\n",
    "          \"summary\":", " \"What this test is checking\",\n",
    "          \"meaningful\": true/false,\n",
    "          \"score\": 8,\n",
    "          \"suggestions\":", " \"Any improvement suggestions\"\n",
    "        }\n",
    "      ]\n",
    "    }\n",
    "  ],\n",
    "  \"overallSummary\":", " \"Brief summary of all test files", " analyzed in this batch\"\n",
    "}\n"
  ]

  const Preamble: string := Join(PreamblePieces, "")
  const Trailer: string := Join(TrailerPieces, "")

  const FileLabel: string := "\nFILE: "
  const FenceOpen: string := "\n```typescript\n"
  const FenceClose: string := "\n```\n"

  /** The fenced section of one file. */
  function Block(f: PromptFile): string
  {
    FileLabel + f.file + FenceOpen + f.content + FenceClose
  }

  function Blocks(files: seq<PromptFile>): (r: seq<string>)
    ensures |r| == |files|
    ensures forall k :: 0 <= k < |files| ==> r[k] == Block(files[k])
  {
    seq(|files|, k requires 0 <= k < |files| => Block(files[k]))
  }

  /** `getPrompt(testFiles)`: the preamble, the blocks joined by "\n", the
      JSON skeleton. */
  function GetPrompt(files: seq<PromptFile>): (r: string)
    ensures OccursAt(r, Preamble, 0)
    ensures |r| >= |Preamble| + |Trailer| && OccursAt(r, Trailer, |r| - |Trailer|)
  {
    Preamble + Join(Blocks(files), "\n") + Trailer
  }

  /** Where the block of `files[k]` starts in the prompt. */
  function BlockOffset(files: seq<PromptFile>, k: nat): nat
    requires k < |files|
  {
    |Preamble| + PieceOffset(Blocks(files), 1, k)
  }

  /** Every file's block is in the prompt, verbatim, at its offset; a
      single "\n" separates it from the next block, and the last block is
      followed directly by the trailer. */
  lemma BlockAt(files: seq<PromptFile>, k: nat)
    requires k < |files|
    ensures OccursAt(GetPrompt(files), Block(files[k]), BlockOffset(files, k))
    ensures k + 1 < |files| ==>
      OccursAt(GetPrompt(files), "\n", BlockOffset(files, k) + |Block(files[k])|)
      && BlockOffset(files, k + 1) == BlockOffset(files, k) + |Block(files[k])| + 1
    ensures k + 1 == |files| ==>
      BlockOffset(files, k) + |Block(files[k])| == |GetPrompt(files)| - |Trailer|
  {
    FramedBlock(Preamble, files, Trailer, k);
    if k + 1 < |files| {
      FramedSeparator(Preamble, files, Trailer, k);
      PieceOffsetNext(Blocks(files), 1, k);
    } else {
      LastPieceEnds(Blocks(files), "\n");
    }
  }

  /** The prompt's length: preamble, every block, one "\n" between each two
      blocks, trailer. */
  lemma PromptLength(files: seq<PromptFile>)
    ensures |files| > 0 ==>
      |GetPrompt(files)| == |Preamble| + TotalLength(Blocks(files)) + (|files| - 1) + |Trailer|
    ensures |files| == 0 ==> |GetPrompt(files)| == |Preamble| + |Trailer|
  {
    if |files| > 0 {
      JoinLength(Blocks(files), "\n");
    }
  }

  lemma FramedSeparator(pre: string, files: seq<PromptFile>, post: string, k: nat)
    requires k + 1 < |files|
    ensures OccursAt(pre + Join(Blocks(files), "\n") + post, "\n", |pre| + PieceOffset(Blocks(files), 1, k) + |Block(files[k])|)
  {
    var at := PieceOffset(Blocks(files), 1, k) + |Block(files[k])|;
    JoinSeparatorAt(Blocks(files), "\n", k);
    OccursInContext(pre, Join(Blocks(files), "\n"), post, "\n", at);
  }

  lemma FramedBlock(pre: string, files: seq<PromptFile>, post: string, k: nat)
    requires k < |files|
    ensures OccursAt(pre + Join(Blocks(files), "\n") + post, Block(files[k]), |pre| + PieceOffset(Blocks(files), 1, k))
  {
    JoinPieceAt(Blocks(files), "\n", k);
    OccursInContext(pre, Join(Blocks(files), "\n"), post, Block(files[k]), PieceOffset(Blocks(files), 1, k));
  }

  /** Blocks come in input order: an earlier file's block ends, and a "\n"
      follows, before a later file's block starts. */
  lemma BlocksInInputOrder(files: seq<PromptFile>, j: nat, k: nat)
    requires j < k < |files|
    ensures BlockOffset(files, j) + |Block(files[j])| + 1 <= BlockOffset(files, k)
  {
    PieceOffsetsIncrease(Blocks(files), 1, j, k);
  }

  /** Where the content of a file starts inside its block. */
  function ContentOffset(f: PromptFile): nat
  {
    |FileLabel| + |f.file| + |FenceOpen|
  }

  /** A block reads "\nFILE: <path>\n```typescript\n<content>\n```\n". */
  lemma BlockParts(f: PromptFile)
    ensures OccursAt(Block(f), FileLabel + f.file + FenceOpen, 0)
    ensures OccursAt(Block(f), f.content, ContentOffset(f))
    ensures OccursAt(Block(f), FenceClose, ContentOffset(f) + |f.content|)
  {
    var head := FileLabel + f.file + FenceOpen;
    Regroup(head, f.content, FenceClose);
    Starts(head, f.content + FenceClose);
    Sits(head, f.content, FenceClose);
    Ends(head + f.content, FenceClose);
  }

  /** In the prompt, each file's path and content are inserted verbatim,
      quotes and backslashes included, inside its fenced block. */
  lemma BlockLayout(files: seq<PromptFile>, k: nat)
    requires k < |files|
    ensures var at := BlockOffset(files, k);
      var p := GetPrompt(files);
      var f := files[k];
      OccursAt(p, FileLabel + f.file + FenceOpen, at)
      && OccursAt(p, f.content, at + ContentOffset(f))
      && OccursAt(p, FenceClose, at + ContentOffset(f) + |f.content|)
  {
    LabelInPrompt(files, k);
    ContentInPrompt(files, k);
    FenceCloseInPrompt(files, k);
  }

  lemma LabelInPrompt(files: seq<PromptFile>, k: nat)
    requires k < |files|
    ensures OccursAt(GetPrompt(files), FileLabel + files[k].file + FenceOpen, BlockOffset(files, k))
  {
    BlockParts(files[k]);
    FramedPart(Preamble, files, Trailer, k, FileLabel + files[k].file + FenceOpen, 0);
  }

  lemma ContentInPrompt(files: seq<PromptFile>, k: nat)
    requires k < |files|
    ensures OccursAt(GetPrompt(files), files[k].content, BlockOffset(files, k) + ContentOffset(files[k]))
  {
    BlockParts(files[k]);
    FramedPart(Preamble, files, Trailer, k, files[k].content, ContentOffset(files[k]));
  }

  lemma FenceCloseInPrompt(files: seq<PromptFile>, k: nat)
    requires k < |files|
    ensures OccursAt(GetPrompt(files), FenceClose, BlockOffset(files, k) + ContentOffset(files[k]) + |files[k].content|)
  {
    BlockParts(files[k]);
    FramedPart(Preamble, files, Trailer, k, FenceClose, ContentOffset(files[k]) + |files[k].content|);
  }

  /** Whatever text comes before and after the joined blocks, a word inside
      block k sits at the block's offset plus its own. */
  lemma FramedPart(pre: string, files: seq<PromptFile>, post: string, k: nat, t: string, at: nat)
    requires k < |files|
    requires OccursAt(Block(files[k]), t, at)
    ensures OccursAt(pre + Join(Blocks(files), "\n") + post, t, |pre| + PieceOffset(Blocks(files), 1, k) + at)
  {
    JoinPieceAt(Blocks(files), "\n", k);
    PartWithin(pre, Join(Blocks(files), "\n"), post, Block(files[k]), t, PieceOffset(Blocks(files), 1, k), at);
  }

  /** The prompt always opens with "You are a senior software engineer.". */
  lemma IntroPresent(files: seq<PromptFile>)
    ensures OccursAt(GetPrompt(files), Intro, 1)
  {
    IntroOpensPreamble();
    OccursWithin(GetPrompt(files), Preamble, Intro, 0, 1);
  }

  lemma IntroOpensPreamble()
    ensures OccursAt(Preamble, Intro, 1)
  {
    JoinPieceAt(PreamblePieces, "", 1);
    assert PieceOffset(PreamblePieces, 0, 1) == 1;
  }

  /** The prompt asks for a score from 1 to 10. */
  lemma ScaleLinePresent(files: seq<PromptFile>)
    ensures Contains(GetPrompt(files), ScaleLine)
  {
    var at := PieceOffset(PreamblePieces, 0, 8);
    ScaleLineInPreamble();
    OccursWithin(GetPrompt(files), Preamble, ScaleLine, 0, at);
  }

  lemma ScaleLineInPreamble()
    ensures OccursAt(Preamble, ScaleLine, PieceOffset(PreamblePieces, 0, 8))
  {
    JoinPieceAt(PreamblePieces, "", 8);
  }

  /** The request for a JSON answer is always present. */
  lemma FormatRequestPresent(files: seq<PromptFile>)
    ensures Contains(GetPrompt(files), FormatRequest)
  {
    var head := Preamble + Join(Blocks(files), "\n");
    JoinPieceAt(TrailerPieces, "", 1);
    var at := PieceOffset(TrailerPieces, 0, 1);
    OccursInContext(head, Trailer, [], FormatRequest, at);
    assert head + Trailer + [] == GetPrompt(files);
    assert OccursAt(GetPrompt(files), FormatRequest, |head| + at);
  }

  lemma {:induction false} JoinLacks(parts: seq<string>, c: char)
    requires forall k :: 0 <= k < |parts| ==> c !in parts[k]
    ensures c !in Join(parts, "")
  {
    if |parts| > 1 {
      JoinLacks(parts[1..], c);
    }
  }

  /** Each preamble piece is free of the letter I; the pieces are checked
      a few at a time. */
  lemma PreamblePiecesLackCapitalI()
    ensures forall k :: 0 <= k < |PreamblePieces| ==> 'I' !in PreamblePieces[k]
  {
    PreamblePiecesFrom0LackCapitalI();
    PreamblePiecesFrom2LackCapitalI();
    PreamblePiecesFrom4LackCapitalI();
    PreamblePiecesFrom5LackCapitalI();
    PreamblePiecesFrom7LackCapitalI();
    PreamblePiecesFrom11LackCapitalI();
  }

  lemma PreamblePiecesFrom0LackCapitalI()
    ensures forall k :: 0 <= k < 2 ==> 'I' !in PreamblePieces[k]
  {}

  lemma PreamblePiecesFrom2LackCapitalI()
    ensures forall k :: 2 <= k < 4 ==> 'I' !in PreamblePieces[k]
  {}

  lemma PreamblePiecesFrom4LackCapitalI()
    ensures forall k :: 4 <= k < 5 ==> 'I' !in PreamblePieces[k]
  {}

  lemma PreamblePiecesFrom5LackCapitalI()
    ensures forall k :: 5 <= k < 7 ==> 'I' !in PreamblePieces[k]
  {}

  lemma PreamblePiecesFrom7LackCapitalI()
    ensures forall k :: 7 <= k < 11 ==> 'I' !in PreamblePieces[k]
  {}

  lemma PreamblePiecesFrom11LackCapitalI()
    ensures forall k :: 11 <= k < |PreamblePieces| ==> 'I' !in PreamblePieces[k]
  {}

  lemma PreambleLacksCapitalI()
    ensures 'I' !in Preamble
  {
    PreamblePiecesLackCapitalI();
    JoinLacks(PreamblePieces, 'I');
  }

  /** The same for the trailer. */
  lemma TrailerPiecesLackCapitalI()
    ensures forall k :: 0 <= k < |TrailerPieces| ==> 'I' !in TrailerPieces[k]
  {
    TrailerPiecesFrom0LackCapitalI();
    TrailerPiecesFrom2LackCapitalI();
    TrailerPiecesFrom4LackCapitalI();
    TrailerPiecesFrom8LackCapitalI();
    TrailerPiecesFrom10LackCapitalI();
    TrailerPiecesFrom12LackCapitalI();
    TrailerPiecesFrom16LackCapitalI();
    TrailerPiecesFrom20LackCapitalI();
    TrailerPiecesFrom24LackCapitalI();
    TrailerPiecesFrom28LackCapitalI();
  }

  lemma TrailerPiecesFrom0LackCapitalI()
    ensures forall k :: 0 <= k < 2 ==> 'I' !in TrailerPieces[k]
  {}

  lemma TrailerPiecesFrom2LackCapitalI()
    ensures forall k :: 2 <= k < 4 ==> 'I' !in TrailerPieces[k]
  {}

  lemma TrailerPiecesFrom4LackCapitalI()
    ensures forall k :: 4 <= k < 8 ==> 'I' !in TrailerPieces[k]
  {}

  lemma TrailerPiecesFrom8LackCapitalI()
    ensures forall k :: 8 <= k < 10 ==> 'I' !in TrailerPieces[k]
  {}

  lemma TrailerPiecesFrom10LackCapitalI()
    ensures forall k :: 10 <= k < 12 ==> 'I' !in TrailerPieces[k]
  {}

  lemma TrailerPiecesFrom12LackCapitalI()
    ensures forall k :: 12 <= k < 16 ==> 'I' !in TrailerPieces[k]
  {}

  lemma TrailerPiecesFrom16LackCapitalI()
    ensures forall k :: 16 <= k < 20 ==> 'I' !in TrailerPieces[k]
  {}

  lemma TrailerPiecesFrom20LackCapitalI()
    ensures forall k :: 20 <= k < 24 ==> 'I' !in TrailerPieces[k]
  {}

  lemma TrailerPiecesFrom24LackCapitalI()
    ensures forall k :: 24 <= k < 28 ==> 'I' !in TrailerPieces[k]
  {}

  lemma TrailerPiecesFrom28LackCapitalI()
    ensures forall k :: 28 <= k < |TrailerPieces| ==> 'I' !in TrailerPieces[k]
  {}

  lemma TrailerLacksCapitalI()
    ensures 'I' !in Trailer
  {
    TrailerPiecesLackCapitalI();
    JoinLacks(TrailerPieces, 'I');
  }

  /** With no files there is no "FILE:" anywhere in the prompt. */
  lemma EmptyPromptHasNoFileLabel()
    ensures !Contains(GetPrompt([]), "FILE:")
  {
    PreambleLacksCapitalI();
    TrailerLacksCapitalI();
    assert GetPrompt([]) == Preamble + Trailer;
    MissingCharRulesOut(GetPrompt([]), "FILE:", 1);
  }
}
