# Test quality analysis action, modelled in Dafny

The action finds a repository's test files and sends them to a language model in batches. The model grades each file and each test, and the action folds the answers into one report. From that report it computes an average score and the top issues, and renders a Markdown comment for the pull request. This project models the logic of that pipeline and proves what it promises:

- **Discovery** (`findTestFiles`): the glob pattern list, and the narrowing to files changed in the pull request.
- **Temperature** (`formatTemperature`): clamping to [0, 2] and rounding to one decimal, plus the temperature `getConfig` reads.
- **Prompt** (`getPrompt`): the prompt text, and the shapes of the model's reply (`File`, `ResponseJson`).
- **Batches** (`processBatches`, in both copies): chunking the file list, and folding each batch's answer in batch order.
- **Average** (`calculateAverageScore`): the mean score scaled to 0–100.
- **TopIssues** (`identifyTopIssues`): the low-score group and the "tests of implementation details" group.
- **Report** (`generateSummary`): assembling the final summary.
- **Markdown** (`generateMarkdownComment`): the Markdown document, and the escaping of pipe characters in its cells.

What the model takes as parameters:

- **Effects** are function parameters. These are the model call and file loading (`respond`, `load`), the glob engine, the GitHub changed-file lookup, `path.relative`, JavaScript's `Number`, and `Number.prototype.toFixed` (`toFixed`).
- **Numbers** are exact `real`s.
- **Optional reply fields** are `Option`s. This covers a file's `score` and `tests` and a test's `meaningful`. JavaScript truthiness is stated explicitly:
  - `score || 0` counts a missing score as 0;
  - `undefined < 5` is false, so a file without a score is never low-scoring;
  - `meaningful === false` flags only an explicit `false`;
  - ✅ is shown only for an explicit `true`.

`generateMarkdownComment` throws a TypeError in two cases, and the model returns `Failure` for both:

- **Missing score** (src/generateMarkdownComment.ts:62). This is modelled as written: `Markdown.Markdown` returns `Failure(MissingScore(file))` for the first file without a score.
- **Missing `tests`** (src/generateMarkdownComment.ts:73). The reply format allows `tests` to be absent, and an absent list is meant to count as empty. `identifyTopIssues` does treat it that way (src/identifyTopIssues.ts:26). So the corrected renderer gives such a file an empty test table. `Markdown.MarkdownAsWritten` keeps the throwing behaviour (see Findings).

Some unit tests contradict the code, and the model follows the code in each case:

- `__tests__/calculateAverageScore.test.ts` expects unscaled averages, but src/calculateAverageScore.ts:11 multiplies by 10.
- `__tests__/getPrompt.test.ts` expects "0-100" in the prompt, but src/getPrompt.ts:29 says "1-10". The test also expects the `suggestions` example to read "Any improvement suggestions if score below 70". The field does exist (src/getPrompt.ts:58), but its example text is "Any improvement suggestions".

## Model

| member | source | states |
|---|---|---|
| Discovery.Patterns | src/findTestFiles.ts:11-15 | The pattern list always ends with the three exclusions, node_modules, dist and build. An empty option gives exactly those three. |
| Discovery.UserPatternsRejoin | src/findTestFiles.ts:13-14 | A non-empty option gives one user pattern more than it has spaces. No user pattern holds a space, and joining them with " " gives the option back. |
| Discovery.TwoPatternsThenExclusions | __tests__/findTestFiles.test.ts:84-106 | "a b" gives the patterns [a, b] and then the exclusions. |
| Discovery.GlobInputListsPatterns | src/findTestFiles.ts:18 | If the option has no line break, splitting the glob input on "\n" gives back exactly the pattern list. |
| Discovery.GlobInputHoldsEveryPattern | src/findTestFiles.ts:18 | Every pattern, each exclusion included, appears verbatim in the text handed to the glob engine. |
| Discovery.FilterChanged | src/findTestFiles.ts:33-36 | A glob result is kept iff its relative path is among the relative changed paths. The result is never longer than the glob results. |
| Discovery.FilterChangedDistributes | src/findTestFiles.ts:33-36 | The filter preserves order: filtering a concatenation filters each part in turn. |
| Discovery.FilterChangedSingle | src/findTestFiles.ts:33-36 | One glob result survives exactly when its relative path was changed. |
| Discovery.AllChangedKeepsEverything | src/findTestFiles.ts:33-36 | When every glob result was changed, the filter returns the glob results unchanged. |
| Discovery.NoChangesFindNothing | src/findTestFiles.ts:26-36 | With no changed files, changed-files mode finds no test files. |
| Discovery.OnlyChangedTestFileSurvives | __tests__/findTestFiles.test.ts:48-82 | Of three glob results, only the changed one is kept. A changed file outside the glob results is ignored. |
| Discovery.FindTestFiles | src/findTestFiles.ts:6-46 | With the flag set and a truthy token, the result is the glob results filtered by the changed files. Otherwise it is the glob results unchanged. The glob engine always receives the patterns joined by "\n". |
| Temperature.Clamp | src/formatTemperature.ts:1-5 | The result lies in [0, 2]. Inputs below 0 give 0, inputs above 2 give 2, and inputs in range are unchanged. |
| Temperature.Round | src/formatTemperature.ts:5 | `Math.round` gives the integer within one half of its input, halves going up. |
| Temperature.FormatTemperature | src/formatTemperature.ts:4-6 | The result lies in [0, 2] and is a whole number of tenths. It is the nearest tenth to the clamped input, halves going up. |
| Temperature.TenthsInRangeAreFixed | src/formatTemperature.ts:4-6 | An in-range whole number of tenths is returned unchanged. |
| Temperature.FormatTemperatureIdempotent | src/formatTemperature.ts:4-6 | Formatting twice equals formatting once. |
| Temperature.FormatTemperatureMonotone | src/formatTemperature.ts:4-6 | A larger input never gives a smaller temperature. |
| Temperature.FormatTemperatureExamples | __tests__/config.test.ts:35-66 | 0.555 gives 0.6, 2.5 gives 2 and -0.5 gives 0. 0.5 and 0.7 pass through. |
| Temperature.TemperatureText | src/config.ts:18-20 | The text to convert is the input, or "0.5" when the input is empty. |
| Temperature.ConfigTemperatureAsWritten | src/config.ts:18-20 | As written, the configured temperature is the converted text, with no clamping or rounding. |
| Temperature.AsWrittenConfigKeepsOutOfRange | src/config.ts:18-20 | As written, an input of "2.5" yields 2.5, which is above the maximum of 2. |
| Temperature.ConfigTemperature | src/config.ts:18-20 | Corrected: the configured temperature lies in [0, 2], is a whole number of tenths, and is the nearest tenth to the clamped converted input. |
| Temperature.ConfigTemperatureMeetsItsTests | __tests__/config.test.ts:16-66 | The corrected reading gives the default 0.5, 0.555 as 0.6, 2.5 as 2 and -0.5 as 0. |
| Prompt.GetPrompt | src/getPrompt.ts:24-65 | The prompt starts with the fixed preamble and ends with the fixed JSON-format trailer. |
| Prompt.BlockAt | src/getPrompt.ts:34-43 | File k's block appears verbatim in the prompt at its offset after the preamble. Exactly one "\n" follows it, and block k+1 starts right after that. The last block ends where the trailer begins. |
| Prompt.PromptLength | src/getPrompt.ts:24-65 | The prompt is as long as the preamble, every block, one "\n" between each two blocks, and the trailer. |
| Prompt.BlocksInInputOrder | src/getPrompt.ts:34-43 | Blocks appear in input order without overlapping, with at least one separating character between them. |
| Prompt.BlockParts | src/getPrompt.ts:36-41 | A block is "\nFILE: " + path + the opening fence, then the content verbatim, then the closing fence. |
| Prompt.BlockLayout | src/getPrompt.ts:36-41 | In the whole prompt, file k's label, its verbatim content and its closing fence sit at consecutive offsets. |
| Prompt.IntroPresent | src/getPrompt.ts:25 | "You are a senior software engineer." opens the prompt, after its leading newline. |
| Prompt.ScaleLinePresent | src/getPrompt.ts:29 | The prompt asks for a score from 1-10. |
| Prompt.FormatRequestPresent | src/getPrompt.ts:45 | The prompt always contains "Please provide your analysis in JSON format". |
| Prompt.EmptyPromptHasNoFileLabel | src/getPrompt.ts:34-43 | With no files, "FILE:" appears nowhere in the prompt. |
| Batches.SliceBatches | src/processBatches.ts:13-16 | For batchSize > 0, the batching loop produces exactly the consecutive slices of batchSize files, the last one possibly shorter. |
| Batches.ProcessBatches | src/processBatches.ts:6-41 | For batchSize > 0, the two accumulators equal the in-order fold of the model's answers. The answers are for the consecutive chunks of testFiles, and call k receives batch k's loaded content, model and temperature. |
| Batches.ChunksCover | src/processBatch.ts:69-72 | The batches, concatenated, give back the file list. |
| Batches.ChunkSizes | src/processBatches.ts:13-16 | Every batch except the last has exactly batchSize files. The last has between 1 and batchSize. |
| Batches.ChunkCount | src/processBatches.ts:14-15 | There are ceil(n / batchSize) batches, and none for an empty list. |
| Batches.FiveFilesInPairs | __tests__/processBatches.test.ts:78-87 | Five files in batches of 2 give batches of sizes 2, 2 and 1, in order. |
| Batches.NoFilesNoCalls | src/processBatch.ts:74-75 | An empty file list makes no model call and returns two empty accumulators. |
| Batches.ReportedFilesSnoc | src/processBatches.ts:31-33 | Folding one more answer appends that answer's files, or nothing when it has none. |
| Batches.SummariesSnoc | src/processBatches.ts:35-37 | Folding one more answer appends its summary exactly when the summary is present and not empty. |
| Batches.ReportedFilesAppend | src/processBatches.ts:31-33 | The detailed report of a run is the reports of its earlier batches followed by those of its later batches. |
| Batches.SummariesAppend | src/processBatches.ts:35-37 | The summary list of a run is the summaries of its earlier batches followed by those of its later batches. |
| Batches.SilentBatchChangesNothing | src/processBatches.ts:31-37 | A batch with neither `files` nor a truthy summary leaves both accumulators unchanged. |
| Batches.ReportedFilesConcatenates | src/processBatch.ts:87-89 | The detailed report is the concatenation, in batch order, of every present `files`. |
| Batches.SummariesAreTheTruthyOnes | src/processBatch.ts:91-93 | A summary is listed iff some batch returned it truthy. There are at most as many summaries as batches. |
| Average.CalculateAverageScore | src/calculateAverageScore.ts:3-12 | An empty report gives 0. Otherwise result × length = 10 × the sum of scores, with a missing score counting as 0. |
| Average.SumAppend | src/calculateAverageScore.ts:6-9 | The score sum is additive over concatenation. |
| Average.SumOne | src/calculateAverageScore.ts:7 | One file contributes its score, or 0 when the score is missing. |
| Average.SumPermutation | src/calculateAverageScore.ts:6-9 | Reports with the same multiset of files have the same sum. |
| Average.AverageIgnoresOrder | src/calculateAverageScore.ts:6-11 | The average does not depend on the order of the report. |
| Average.SumBounds | src/calculateAverageScore.ts:6-9 | If every score lies in [0, 10], the sum lies in [0, 10 × length]. |
| Average.AverageInRange | src/calculateAverageScore.ts:10-11 | If every score lies in [0, 10], the average lies in [0, 100]. |
| Average.MissingScoreIsZero | src/calculateAverageScore.ts:7 | A file without a score affects the average exactly as the same file with score 0. |
| Average.SixZeroMissingGivesTwenty | src/calculateAverageScore.ts:6-11 | The scores [6, 0, missing] average to 20. |
| TopIssues.LowScoringFiles | src/identifyTopIssues.ts:7-13 | Every low-score example has a score below 5. There are never more examples than files. |
| TopIssues.LowScoringFilesAreTheLowOnes | src/identifyTopIssues.ts:7-13 | An example is listed iff some file has a present score below 5. Its fields are that file's path, score and summary. |
| TopIssues.LowScoringFilesAppend | src/identifyTopIssues.ts:7-13 | Low-score examples keep report order. |
| TopIssues.FlaggedTestsAreTheFalseOnes | src/identifyTopIssues.ts:27-35 | A test is flagged iff its `meaningful` is exactly false. The flag records the file, the test name and the test summary. |
| TopIssues.MeaninglessTestsAreTheFlaggedOnes | src/identifyTopIssues.ts:24-37 | The not-meaningful entries are exactly the flagged tests of every file. |
| TopIssues.MeaninglessTestsAppend | src/identifyTopIssues.ts:25-37 | Not-meaningful entries follow file order: those of earlier files come before those of later files. |
| TopIssues.FlaggedTestsAppend | src/identifyTopIssues.ts:27-35 | Within one file, flagged tests follow test order: flags from earlier tests come before flags from later ones. |
| TopIssues.MissingTestsAddNoFlaggedTest | src/identifyTopIssues.ts:26 | A file without `tests` adds no not-meaningful entry, but may still be low-scoring. |
| TopIssues.GroupsShape | src/identifyTopIssues.ts:15-45 | There are at most two groups. The low-score group exists iff some file scores below 5, and comes first. The implementation-details group exists iff some test is flagged, and comes last. Each group's count is the full number of matches, and its examples are the first min(count, 3) of them. |
| TopIssues.IdentifyTopIssues | src/identifyTopIssues.ts:3-47 | The pushed groups equal the grouping that GroupsShape characterises. |
| TopIssues.EmptyReportHasNoIssues | src/identifyTopIssues.ts:3-47 | An empty report has no issue groups. |
| Report.GenerateSummary | src/generateReport.ts:15-26 | totalFiles is the number of submitted files, not the report's length. The average and the top issues are those of the detailed report. The summary is the batch summaries joined by single spaces. |
| Report.EmptyRunSummary | src/generateReport.ts:20-25 | An empty run gives 0 files, average 0, an empty summary and no issues. |
| Report.SummaryTextKeepsBatchSummaries | src/generateReport.ts:23 | Every batch summary appears in the text. Splitting on " " gives the summaries back when none holds a space. |
| Report.EveryBatchSummaryReachesTheText | src/generateReport.ts:23 | Every truthy batch summary ends up in the summary text. |
| Markdown.EscapeRoundTrip | src/generateMarkdownComment.ts:45 | Unescaping an escaped cell gives the original text back, so no character is lost or reordered. |
| Markdown.EscapeLength | src/generateMarkdownComment.ts:45 | Escaping grows the text by exactly its number of pipes. |
| Markdown.EscapeEscapesPipes | src/generateMarkdownComment.ts:61 | Every pipe in escaped text is immediately preceded by a backslash. |
| Markdown.EscapeKeepsPipeFreeText | src/generateMarkdownComment.ts:75 | Text without pipes is unchanged by escaping. |
| Markdown.EscapeNeverStartsWithPipe | src/generateMarkdownComment.ts:45 | Escaped text never starts with a bare pipe. |
| Markdown.FirstUnscored | src/generateMarkdownComment.ts:59-62 | Finds the first file whose score is missing, which is where `score.toFixed` throws. |
| Markdown.AppendExampleRow | src/generateMarkdownComment.ts:38-46 | One pass of the example loop appends exactly that example's table row. |
| Markdown.AppendExampleRows | src/generateMarkdownComment.ts:37-47 | The example loop appends exactly the example rows, in order. |
| Markdown.AppendIssueGroup | src/generateMarkdownComment.ts:31-50 | One pass of the issue-group loop appends exactly that group's heading, its table header when it has examples, and its rows. |
| Markdown.AppendIssueGroups | src/generateMarkdownComment.ts:30-51 | The issue-group loop appends exactly the group blocks, in order. |
| Markdown.AppendReportRows | src/generateMarkdownComment.ts:59-63 | The report loop appends every file's row. It fails, naming the file, at the first file without a score. |
| Markdown.AppendTestRows | src/generateMarkdownComment.ts:73-77 | The test loop appends exactly the test rows, in order. |
| Markdown.AppendFileDetail | src/generateMarkdownComment.ts:69-79 | Corrected: a file without `tests` gets an empty test table, where the source throws. One pass of the per-file loop appends exactly that file's heading, table header, test rows in order, and a blank line. |
| Markdown.AppendFileDetails | src/generateMarkdownComment.ts:68-80 | Corrected: a file without `tests` gets an empty test table, where the source throws. The per-file loop appends exactly the file blocks, in order. |
| Markdown.GenerateMarkdownComment | src/generateMarkdownComment.ts:4-84 | Corrected: a scored file without `tests` gets an empty test table, where the source throws. The `+=`-built comment equals the document that the lemmas below describe, or the error for the first unscored file. |
| Markdown.WriteOpening | src/generateMarkdownComment.ts:13-24 | The first seven appends produce exactly the title, the two-row summary table and the assessment. |
| Markdown.AppendDetailSections | src/generateMarkdownComment.ts:54-81 | Corrected: a file without `tests` gets an empty test table, where the source throws. With files, it appends the report table, then "## Test Details" and the per-file tables. With none, it appends nothing. It fails, naming the first unscored file, when some file has no score. |
| Markdown.FirstUnscoredIsFirst | src/generateMarkdownComment.ts:59-62 | The error names the first file in report order without a score. |
| Markdown.RenderFailsIffScoreMissing | src/generateMarkdownComment.ts:62 | Rendering fails iff some file lacks a score, and then names the first such file. |
| Markdown.DocumentOpening | src/generateMarkdownComment.ts:14-24 | The document starts with the title, the Summary table (total files, then the average with two decimals), and "## Overall Assessment" followed by the summary text, unescaped. |
| Markdown.TopIssuesHeadingPresent | src/generateMarkdownComment.ts:27-28 | With issues, "## Top Issues" follows the opening. |
| Markdown.TopIssuesHeadingAbsent | src/generateMarkdownComment.ts:27 | Without issues, "## Top Issues" does not follow the opening. |
| Markdown.TopIssuesHeadingIffIssues | src/generateMarkdownComment.ts:27-28 | "## Top Issues" follows the opening iff there are issue groups. |
| Markdown.DetailsStartWithHeading | src/generateMarkdownComment.ts:55-56 | For a non-empty report, the detail sections start with "## Detailed Report". |
| Markdown.DetailedReportHeadingPresent | src/generateMarkdownComment.ts:55-56 | For a non-empty report, "## Detailed Report" follows the top-issues section. |
| Markdown.TestDetailsHeadingPresent | src/generateMarkdownComment.ts:64-67 | For a non-empty report, "## Test Details" follows the Detailed Report table. |
| Markdown.DetailsFollowOpening | src/generateMarkdownComment.ts:27-56 | Without issues and with files, "## Detailed Report" starts exactly where the opening ends, and "## Top Issues" does not. |
| Markdown.OpeningOnly | src/generateMarkdownComment.ts:27-81 | With no issues and an empty report, the document is exactly the opening. |
| Markdown.DetailHeadingsIffFiles | src/generateMarkdownComment.ts:55-67 | "## Detailed Report" and "## Test Details" sit at their places iff the report is non-empty. |
| Markdown.IssueGroupsInOrder | src/generateMarkdownComment.ts:30-51 | Group k's block sits after the heading and the blocks of groups 0..k-1. |
| Markdown.GroupBlockLayout | src/generateMarkdownComment.ts:31-50 | A block opens with "### type (count)", with the type unescaped. The File/Issue table appears only if the group has examples. Example k's row sits after the rows of earlier examples. |
| Markdown.ExampleCell | src/generateMarkdownComment.ts:38-46 | An example row's cell is pipe-escaped, and unescapes to "test: reason" for a test example and to the reason otherwise. |
| Markdown.ReportRowsInOrder | src/generateMarkdownComment.ts:59-63 | File k's row sits after the rows of files 0..k-1. |
| Markdown.ReportRowCells | src/generateMarkdownComment.ts:61-62 | A report row holds the path, the score with one decimal and "/100", and a pipe-escaped cell that unescapes to the summary. |
| Markdown.FileDetailsInOrder | src/generateMarkdownComment.ts:68-80 | File k's test block sits after the blocks of files 0..k-1. |
| Markdown.TestRowsInOrder | src/generateMarkdownComment.ts:69-77 | A file's block opens with its heading and table header. Test k's row sits after the rows of earlier tests. |
| Markdown.TestRowCells | src/generateMarkdownComment.ts:75-76 | A test row holds the name unescaped and the score with one decimal. Its glyph is ✅ iff `meaningful` is true and ❌ otherwise. Its suggestions cell is pipe-escaped and unescapes to the suggestions. |
| Markdown.FileWithoutTestsHasEmptyTable | src/generateMarkdownComment.ts:68-80 | Corrected: a file without `tests` gets its heading and an empty test table. |
| Markdown.MinimalDocumentRows | __tests__/generateMarkdownComment.test.ts:6-29 | The minimal summary renders the Total Files row, the Average Score row as 75.50/100, and the summary text. |
| Markdown.MinimalDocumentSections | __tests__/generateMarkdownComment.test.ts:6-29 | The minimal summary renders none of "## Top Issues", "## Detailed Report" or "## Test Details". |
| Markdown.FirstWithoutTests | src/generateMarkdownComment.ts:73 | Finds the first file without `tests`, which is where `report.tests.forEach` throws as written. |
| Markdown.MarkdownAsWritten | src/generateMarkdownComment.ts:4-84 | As written, rendering succeeds iff every file has a score and `tests`. An unscored file still fails first, naming the first unscored file. A success is the corrected document. |
| Markdown.AsWrittenThrowsOnFileWithoutTests | src/generateMarkdownComment.ts:73 | As written, a scored file without `tests` makes rendering fail, while the corrected renderer succeeds. |
| Markdown.AsWrittenAgreesWhenTestsPresent | src/generateMarkdownComment.ts:68-80 | When every file has `tests`, the as-written and the corrected renderers agree. |

## Left out

- Reading and de-importing test files (src/processBatchContent.ts and its copy in src/processBatch.ts): these are file I/O and a regular expression. The loaded content is the `load` parameter.
- The OpenAI call and `JSON.parse` (src/processOpenAIResponse.ts and its copy): network I/O. Each batch's answer is the `respond` parameter, with optional `files` and `overallSummary`.
- src/getChangedFiles.ts and src/postCommentToPr.ts: GitHub API calls. Changed files are the `getChangedFiles` parameter, and nothing is posted.
- `outputResults`, src/main.ts and src/wait.ts: action outputs, logging, driver wiring and a timer.
- `getConfig` apart from the temperature: reading inputs and JavaScript `Number`/`||` parsing. `Number` is a parameter returning a real, so NaN is not modelled.
- Logging through `core.info` and `core.warning` in every function: it changes no result.
- `toFixed` number formatting: a parameter from (real, digits) to string.
- IEEE-754 floating point: every score, average and temperature is an exact real. The rounding of 0.555 is therefore exact, and the average has no rounding error.
- Discovery.FindTestFiles: does not model the order of the two awaits (changed files first, then the glob) or the `unshift` mutation in place. The pattern list is built as a value.
- Batches.ProcessBatches: requires batchSize > 0. With 0 or a negative size the source loop never ends on non-empty input.
- Batches.SliceBatches: requires batchSize > 0, for the same reason: this is that loop.
- Markdown.GenerateMarkdownComment: a test's `score` and `suggestions`, and a file's `summary`, are assumed present. The source would also throw on those, but that is not modelled.
- Glob matching itself and `path.relative`: both are parameters.
- A JSON `null` score: `File.score` is an optional real, so a reply with `"score": null` is read as a missing score. In the source `null < 5` is true (src/identifyTopIssues.ts:7-13), so such a file becomes a low-scoring example. In the model it never does.
- A fractional `batch_size`: `batchSize` is an integer, but `Number(...) || 5` (src/config.ts:15-16) can be a fraction, and `slice` truncates its bounds. So 2.5 gives batches of 2 and 3 in turn, and 0.5 gives batches of 0 and 1 file in turn. Every batch is still sent to the model, the empty ones included. None of this is modelled.

## Findings

| source | as written | input that shows it | evidently intended | confidence | as-written member | corrected member |
|---|---|---|---|---|---|---|
| src/config.ts:18-20 | The temperature input is converted and passed on, with no clamping and no rounding. `formatTemperature` is never called. | temperature input "2.5" gives 2.5, above the maximum of 2 | the input passed through `formatTemperature`, as __tests__/config.test.ts:35-66 expects (0.555 to 0.6, 2.5 to 2, -0.5 to 0) | not executed | Temperature.AsWrittenConfigKeepsOutOfRange | Temperature.ConfigTemperature |
| src/generateMarkdownComment.ts:73 | `report.tests.forEach` runs for every file, but the model's reply may omit `tests` | one file {file "a.test.ts", score 3, no `tests`} makes rendering throw a TypeError | a file without tests gets an empty test table, as src/identifyTopIssues.ts:26 already guards | not executed | Markdown.AsWrittenThrowsOnFileWithoutTests | Markdown.FileWithoutTestsHasEmptyTable |
