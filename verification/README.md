# reorderfuncs: a verified model of the test-function reordering engine

`reorderfuncs` rewrites a Go test file so that its `Test…` functions appear
in alphabetical order. The parser reports each test function as a 1-based
`[start, end]` line pair. From there on, the program works on plain lines of
text in four stages:

- **Classify lines.** Decide whether a line is blank, a comment, package/import
  boilerplate (including the lines of a multi-line `import ( … )` block) or
  real code.
- **Resolve boundaries.** Walk up from each function over its run of comment
  and blank lines (`findCommentStart`), and down over its trailing blank lines
  (`findCommentEnd`). Decide whether a comment cut off by blank lines still
  belongs to the function below it.
- **Partition.** Mark every line claimed by some function's span. Cut out each
  function's block from its comment start to its last line, and keep every
  unclaimed line as "other" content.
- **Reassemble.** Sort the blocks by name. Trim blank lines where they would pile
  up, put one empty line between parts, and make sure the text ends with a
  newline.

This project models that engine in Dafny, module by module:

| module | file | models |
|---|---|---|
| `Text` | `text.dfy` | `strings.TrimSpace`, `strings.Split`/`Join` on `"\n"`, Go's byte-wise `<` on strings |
| `Classify` | `classify.dfy` | `isCommentOrEmpty`, `isBoilerplateCode`, `isEndOfImportBlock`, `isInImportBlock`, `handleSpecialCases`, `hasActualCodeAt` |
| `Boundary` | `boundary.dfy` | `findCommentStart`, `findCommentEnd` (loops, proved against their characterising functions), `isCommentBeforeTestFunction` |
| `FuncPositions` | `positions.dfy` | the position map, `funcPos`, `TestFunction`, Go's map iteration order |
| `Membership` | `membership.dfy` | `isLinePartOfTestFunction`, `isEmptyLinePrecedingComment`, `hasCommentBeforeTest`, `isLastContentBeforeTest`, `findTestFunctionAtLine` |
| `Extract` | `extract.dfy` | `createSortedFuncPositions`, `markProcessedLines`, `extractTestFunctionWithComments`, `extractAllTestFunctions`, `collectNonTestLines`, `separateTestAndNonTestContent` |
| `Assemble` | `assemble.dfy` | `BuildOutputContent` and the whole pass of `Exec` from file text to file text |

Modelling choices:

- **The position map** is a `map<string, (int, int)>`.
- **Go's iteration order over a map** is an explicit parameter `order`: a list holding every key exactly once (`Enumerates`). The model is proved for every such order.
- **Loops and in-place updates.** Functions that update variables step by step are `method`s with loops; `createSortedFuncPositions` swaps elements of an `array`, and `BuildOutputContent` sorts the caller's array in place. Each method is proved against a specification function.
- **A Go index-out-of-range panic** is the `None` of an `Option` result.

## Model

| member | source | states |
|---|---|---|
| Text.TrimSpaceMeaning | reorderfuncs.go:190 | A line trims to empty exactly when all its characters are whitespace; otherwise what is left starts and ends with a non-space character |
| Text.TrimLeftMeaning | reorderfuncs.go:190 | What is left after dropping leading whitespace is a suffix of the line, everything dropped is whitespace, and it does not start with whitespace |
| Text.TrimRightMeaning | reorderfuncs.go:190 | What is left after dropping trailing whitespace is a prefix of the line, everything dropped is whitespace, and it does not end with whitespace |
| Text.SplitLines | reorderfuncs.go:123 | Splitting on newlines always gives at least one piece, and no piece contains a newline |
| Text.JoinSplit | reorderfuncs.go:123 | Joining the pieces of a split with newlines gives the original text back |
| Text.SplitJoin | reorderfuncs.go:67 | Splitting the join of newline-free lines gives the lines back |
| Text.SplitNoNewline | reorderfuncs.go:123 | A text without a newline splits into itself alone |
| Text.SplitAtFirstNewline | reorderfuncs.go:123 | Splitting `a + "\n" + b` cuts right after `a` when `a` holds no newline |
| Text.JoinAppendEmpty | reorderfuncs.go:67 | Appending one empty line to a non-empty list appends exactly one newline to its join |
| Text.LessIrreflexive | reorderfuncs.go:33 | No name is less than itself in Go's string order |
| Text.LessAsymmetric | reorderfuncs.go:33 | Of two names, at most one is less than the other |
| Text.LessTransitive | reorderfuncs.go:33 | Go's string order is transitive |
| Text.LessTotal | reorderfuncs.go:33 | Any two different names are ordered one way or the other |
| Classify.CommentOrEmptyCases | reorderfuncs.go:364-366 | The empty line and lines starting with `//` or `/*` qualify; whitespace alone does not (no trimming), nor does a line of code with a comment marker inside it |
| Classify.IsCommentOrEmpty | reorderfuncs.go:364-366 | Definition of isCommentOrEmpty: empty, or starting with `//` or `/*`, without trimming; cases in CommentOrEmptyCases |
| Classify.IsBoilerplateCode | reorderfuncs.go:280-295 | Definition of isBoilerplateCode on a trimmed line: blank, a `//` or `/*` comment, a `package ` or `import ` line, or `import (`; its meaning as code is stated in HasActualCodeAtMeaning |
| Classify.IsEndOfImportBlock | reorderfuncs.go:320-339 | Definition of isEndOfImportBlock by the upward scan EndOfImportScan; meaning in EndOfImportScanMeaning |
| Classify.IsInImportBlock | reorderfuncs.go:342-361 | Definition of isInImportBlock by the upward scan InImportScan; agreement with isEndOfImportBlock in ImportScansAgree |
| Classify.HandleSpecialCases | reorderfuncs.go:298-317 | Definition of handleSpecialCases: a `)` is code unless it ends an import block, a quoted line is code unless it lies in one, anything else is code; meaning in HasActualCodeAtMeaning |
| Classify.HasActualCodeAt | reorderfuncs.go:269-277 | Definition of hasActualCodeAt: not boilerplate, then handleSpecialCases; meaning in HasActualCodeAtMeaning |
| Classify.HasActualCodeAtMeaning | reorderfuncs.go:269-361 | A line is real code exactly when, trimmed, it is not boilerplate and it is not a `)` or quoted line below an `import (` with only blank, `//` or quoted lines in between |
| Classify.ImportOpenAboveStep | reorderfuncs.go:320-339 | One step of the upward scan: an import block is open above line k + 1 exactly when line k opens it, or line k is filler and one is open above k |
| Classify.EndOfImportScanMeaning | reorderfuncs.go:320-339 | isEndOfImportBlock holds exactly when, scanning upwards over blank, `//` and quoted lines, the first other line is `import (`; a `package` line, any other line, or the top of the file gives false |
| Classify.ImportScansAgree | reorderfuncs.go:320-361 | isEndOfImportBlock and isInImportBlock give the same answer on every line |
| Classify.ImportBlockIsNotCode | reorderfuncs.go:269-317 | Every line of a well-formed multi-line import block, from `import (` through `)`, is not real code |
| Boundary.CommentStart | reorderfuncs.go:185-199 | From start s ≥ 0 the walk stops at c with 0 ≤ c ≤ s, every line in [c, s) is blank or a comment, and line c − 1, if any, is not: the run is maximal |
| Boundary.CommentEnd | reorderfuncs.go:202-216 | From end e the walk stops at r ≥ e, every line in (e, r] is blank, and line r + 1, if any, is not; r stays inside the file when e does |
| Boundary.FindCommentStart | reorderfuncs.go:185-199 | The decrementing loop stops exactly where CommentStart says, within [0, s] for s ≥ 0 |
| Boundary.FindCommentEnd | reorderfuncs.go:202-216 | The incrementing loop stops exactly where CommentEnd says, inside the file when the end line is |
| Boundary.BlankBetween | reorderfuncs.go:250-254 | The loop answers true exactly when every line in the range trims to empty |
| Boundary.CodeAbove | reorderfuncs.go:258-262 | The backward loop answers true exactly when some line above holds real code |
| Boundary.IsCommentBeforeTestFunction | reorderfuncs.go:219-266 | Definition of isCommentBeforeTestFunction, allowed on exactly the calls on which Go reads no line outside the file; meaning in CommentOwnership |
| Boundary.CommentOwnership | reorderfuncs.go:219-266 | A line at or below the function's start, or with start ≤ 0, is never an owned comment; otherwise it is owned exactly when it is a non-blank comment that sits right above the function, or when the function's 0-based start is at most the number of lines, only blank lines follow the comment down to it and no line above the comment is real code |
| Boundary.OrphanCommentAfterBoilerplate | reorderfuncs.go:219-266 | In this example file, a comment behind a blank line after only package and import lines is owned by the test below it, and the upward walk reaches past it |
| Boundary.OwnershipPastEnd | reorderfuncs.go:225-254 | For a function starting past the end of the file, both calls are allowed and give false: a line that is not a comment returns before any scan, and a comment followed by a non-blank line stops the blank-line scan at that line without reading past the file |
| Boundary.OwnershipStartAtEnd | reorderfuncs.go:242-265 | A comment followed by a blank last line owns a function whose 0-based start is just past the last line: the blank-line scan ends at the end of the file without reading past it |
| Boundary.OwnershipAfterImportBlock | reorderfuncs_test.go:649-654 | In the golden file with a multi-line import block, the comment at index 7, separated by a blank line from the function starting at line 10, is owned |
| Boundary.NoCodeAboveImportComment | reorderfuncs.go:256-262 | In that file no line above index 7 is real code: the package line, the blank lines and the whole import block are boilerplate |
| Boundary.ImportLinesNotCode | reorderfuncs.go:269-317 | In that file the lines of the import block, indices 2 to 5, are not real code |
| Boundary.OwnershipDirect | reorderfuncs_test.go:661-666 | In that file the comment at index 14, directly above the function starting at line 16, is owned |
| Boundary.OwnershipAfterOtherFunction | reorderfuncs_test.go:667-672 | In that file the comment at index 20, after another function and a blank line, is not owned by the function starting at line 23 |
| Boundary.OwnershipOtherLines | reorderfuncs_test.go:655-684 | In that file the blank line at index 8 and the lines at indices 11 and 12, after the function's start, are not owned by the function starting at line 10 |
| Boundary.CommentAfterOtherCode | reorderfuncs.go:185-266 | A comment after another function is not owned by the test below it, yet the upward walk of findCommentStart still takes it into the test's block |
| Membership.IsLastContentBeforeTest | reorderfuncs.go:434-442 | Definition of isLastContentBeforeTest, allowed on exactly the calls on which Go reads no line outside the file; it is the blank-line check inside CommentScan |
| Membership.HasCommentBeforeTest | reorderfuncs.go:411-431 | Definition of hasCommentBeforeTest by the scan CommentScan, allowed on exactly the calls on which Go reads no line outside the file (including those where the loop never runs); meaning in CommentScanMeaning |
| Membership.ScanNeverRuns | reorderfuncs.go:411-431 | For every line index, file and start with lineIndex + 1 >= startIdx, hasCommentBeforeTest reads nothing and answers false, even for a line index outside the file |
| Membership.IsEmptyLinePrecedingComment | reorderfuncs.go:394-408 | Definition of isEmptyLinePrecedingComment: a blank line above the function from which hasCommentBeforeTest succeeds; meaning in LinePartMeaning |
| Membership.IsLinePartOfTestFunction | reorderfuncs.go:369-391 | Definition of isLinePartOfTestFunction as some entry's span or blank line above its lone comment; meaning in LinePartMeaning |
| Membership.CommentScanMeaning | reorderfuncs.go:411-442 | hasCommentBeforeTest's scan succeeds exactly when the lines down to the function are blank except for exactly one comment |
| Membership.LinePartMeaning | reorderfuncs.go:369-442 | A line belongs to a test function exactly when it lies in some entry's 0-based [start − 1, end − 1], or it is a blank line above a function whose 0-based start is at most the number of lines, and the lines down to it are blank except for a single comment |
| Membership.LinePartExample | reorderfuncs_test.go:748-824 | In the golden file, the blank line before the comment and each of the function's lines (indices 3 to 5) belong; the comment itself, the blank line after the function and a regular function do not |
| Membership.StartPastEnd | reorderfuncs.go:369-442 | In these example files, for a function starting past the end of the file, a non-blank line does not belong to it, nor does a blank line followed by code; both calls are allowed, as Go stops before reading past the file |
| Membership.FindTestFunctionAtLine | reorderfuncs.go:174-182 | A non-empty answer names a function starting at that line; if some function starts there one is found; if none does the answer is "" |
| Membership.FindTestFunctionAtLineOrderFree | reorderfuncs.go:174-182 | When no two functions share a start line, the answer does not depend on the map's iteration order |
| Extract.SwapEarliestTo | reorderfuncs.go:474-478 | One pass of the inner loop leaves the earliest start of the rest at position i, keeps the prefix sorted, and permutes the array |
| Extract.SortByStart | reorderfuncs.go:472-480 | The nested swap loop leaves the records sorted by start line, as a permutation of the input |
| Extract.CreateSortedFuncPositions | reorderfuncs.go:462-482 | The result is sorted by start line and is a permutation of the map's entries converted to 0-based lines |
| Extract.SortedRecords | reorderfuncs.go:462-482 | The sorted records are exactly the map's entries, each once |
| Extract.ClaimedStep | reorderfuncs.go:485-505 | A line is claimed by the first idx + 1 records exactly when it is claimed by the first idx or by record idx |
| Extract.MarkSpan | reorderfuncs.go:497-499 | The inner loop adds exactly the lines from `from` through `to` that lie in the file |
| Extract.MarkProcessedLines | reorderfuncs.go:485-505 | The map's keys are exactly the lines claimed by a record inside the file, from its comment start to its comment end; every value is true and every key is a line of the file |
| Extract.MarkStep | reorderfuncs.go:487-502 | Each iteration keeps "the keys are the lines claimed so far" |
| Extract.UnmarkedIndicesMeaning | reorderfuncs.go:523-538 | The unmarked indices are strictly increasing and are exactly the indices below n that the map does not mark |
| Extract.CollectNonTestLines | reorderfuncs.go:523-538 | The result is the unmarked lines in file order, followed by one empty line when there is any |
| Extract.PanicsInside | reorderfuncs.go:151-171 | For a function starting inside the file, extraction panics exactly when its end line is past the last line |
| Extract.BlockShape | reorderfuncs.go:151-171 | A block is the function's maximal run of comment/blank lines directly above it followed by its own lines start..end; the trailing blank padding is not in it |
| Extract.CopyLines | reorderfuncs.go:163-165 | The copy loop yields lines[from..to] (empty when from > to), or panics exactly when an index it reads lies outside the file |
| Extract.ExtractTestFunctionWithComments | reorderfuncs.go:151-171 | Returns the end line; panics exactly when Panics says so for the looked-up entry (a missing name reads as position (0, 0)); otherwise returns the block from the comment start through the end line |
| Extract.StartingMembers | reorderfuncs.go:508-520 | Extraction visits exactly the records whose start line is inside the file |
| Extract.StartingSorted | reorderfuncs.go:508-520 | The visited records stay in start order |
| Extract.StartingDistinct | reorderfuncs.go:508-520 | No record is visited twice |
| Extract.ExtractAllTestFunctions | reorderfuncs.go:508-520 | Panics exactly when some visited record's extraction panics; otherwise returns, position by position, the block of each visited record |
| Extract.VisitedRecords | reorderfuncs.go:508-520 | The visited records are exactly the map's entries that start inside the file, each once, in start order |
| Extract.ClaimEquiv | reorderfuncs.go:485-505 | A line is claimed by some sorted record exactly when some entry of the map claims it |
| Extract.MarksAreClaims | reorderfuncs.go:485-538 | The unmarked lines after marking are those no entry of the map claims, whatever the iteration order |
| Extract.SeparateTestAndNonTestContent | reorderfuncs.go:452-459 | Panics exactly when some function starts inside the file but ends past its last line; otherwise yields one block per function starting inside the file, in start-line order, each from its comment start through its end line, and the unclaimed lines in order plus one empty line |
| Extract.ClaimedLineInBlock | reorderfuncs.go:151-171 | A non-blank line that a record claims appears in that record's block at its offset from the comment start |
| Extract.BlockLineClaimed | reorderfuncs.go:452-538 | Conversely, a line shown in the block of a function starting inside the file is claimed by it, so it is marked and never kept among the other lines: the blocks and the other lines do not overlap |
| Extract.NoContentLost | reorderfuncs.go:452-538 | Every non-blank line some test function claims appears in that function's block: only trailing blank lines are dropped |
| Extract.SeparateExample | reorderfuncs_test.go:827-891 | The golden file separates into the two expected blocks (Test_alpha with its comment and the blank line above it, Test_beta with the blank line above it) and the expected seven other lines |
| Assemble.TrimTrailingBlankMeaning | reorderfuncs.go:44-46 | Trimming keeps a prefix, everything cut off is blank, and what is left does not end with a blank line |
| Assemble.DropLeadingBlankMeaning | reorderfuncs.go:58-61 | Dropping keeps a suffix, everything dropped is blank, and what is left does not start with a blank line |
| Assemble.BlockLinesStep | reorderfuncs.go:51-63 | Loop-step unfolding of BlockLines at a prefix: one more function adds a separator (unless it is the first) and its lines without leading blanks; it carries BuildOutputContent's loop invariant |
| Assemble.Render | reorderfuncs.go:66-70 | The output always ends with a newline, and is the join of the lines with at most one newline added |
| Assemble.JoinEndsWithNewline | reorderfuncs.go:66-70 | The join of newline-free lines ends with a newline exactly when there are at least two lines and the last is empty |
| Assemble.RenderSplit | reorderfuncs.go:66-70 | Splitting the output gives back the output lines, plus one empty piece unless the last line already was that empty piece |
| Assemble.SortedUnique | reorderfuncs.go:32-34 | Two name-sorted lists holding the same functions, with no name repeated, are equal: any sort gives the same order |
| Assemble.SortedHeads | reorderfuncs.go:32-34 | Two such lists start with the same function |
| Assemble.SwapLeastTo | reorderfuncs.go:32-34 | One exchange pass leaves the least name of the rest at position i and permutes the array |
| Assemble.SortByName | reorderfuncs.go:32-34 | The array ends up sorted by name in Go's string order, as a permutation of its old contents |
| Assemble.BuildOutputContent | reorderfuncs.go:30-73 | Sorts the caller's array by name in place (a permutation) and returns the rendered lines: the other lines (trimmed of trailing blanks and followed by one "" when there are both test functions and other lines), then each function's lines without leading blanks, with one "" between functions |
| Assemble.DistinctNamesPermutation | reorderfuncs.go:32-34 | Reordering a list whose names are all different keeps them different |
| Assemble.SeparatedBlockShared | reorderfuncs.go:452-459 | A block one separation extracts is extracted by any other separation of the same file and positions |
| Assemble.SeparatedSame | reorderfuncs.go:452-459 | Two separations of one file with one position map give the same blocks (up to order) and the same other lines |
| Assemble.OrderIndependent | reorderfuncs.go:30-73 | The output text depends neither on Go's map iteration order nor on the sorting algorithm: two runs on the same file and positions render the same text |
| Assemble.NoTestFunctions | reorderfuncs.go:523-538 | With no test functions nothing is extracted, and the other lines are the whole file plus one empty line |
| Assemble.Reorder | reorderfuncs.go:76-104 | Panics exactly when separation does; otherwise the output is the rendering of the name-sorted blocks after the other lines; a file with no test functions comes out as its text followed by one extra newline |
| Assemble.ExampleSorted | examples_test.go:100-133 | Sorting Test_beta, Test_alpha gives Test_alpha, Test_beta |
| Assemble.SortedPair | reorderfuncs.go:32-34 | Sorting two functions whose names are in order gives them in that order |
| Assemble.ExampleRendered | examples_test.go:100-133 | The example's output splits into 12 pieces, the first "package main" |
| Assemble.ExampleBuildOutput | examples_test.go:100-133 | The documented example: Test_alpha comes before Test_beta; the output has 12 pieces when split, the first "package main" |
| Assemble.ExampleOutputLines | examples_test.go:100-133 | The example's output lines are the three other lines, "", Test_alpha's lines, "", Test_beta's lines |

## Notes on the code

- **`findCommentStart` does not use `isCommentBeforeTestFunction`.** The comments of `isCommentBeforeTestFunction` (reorderfuncs.go:242-264) and its test of a comment after another function (reorderfuncs_test.go:667-672) say that a comment separated from a test by blank lines belongs to it only when no real code precedes it. `isCommentBeforeTestFunction` decides exactly that. But the extraction path never calls it: the upward walk of `findCommentStart` takes every comment and blank line above the function, whatever precedes them. The model follows the code. `Boundary.CommentAfterOtherCode` shows a comment that `isCommentBeforeTestFunction` rejects, yet `findCommentStart` still takes it into the block.
- **A file with no test functions gains a newline.** One might expect such a file to be left unchanged apart from newline normalisation. In the code, `collectNonTestLines` appends an empty line whenever any line is kept (reorderfuncs.go:533-534), and `BuildOutputContent` trims trailing blanks only when there are both test functions and other lines (reorderfuncs.go:42-48). So the output is the text plus one newline, and a file that already ends in a newline gains a blank line on every run. The Go tests expect this: 12 other lines for an 11-line file (reorderfuncs_test.go:290-306). `Assemble.Reorder` states it for the code as written.

## Left out

- `Exec`'s and `ParseGoFile`'s file reading and writing and their error wrapping: I/O. `Assemble.Reorder` takes the file text and returns the output text.
- `buildTestFunctionPositions` and `ExtractTestFunctions`' call to it: they walk the `go/ast` tree and use `token.FileSet`, which are not part of this model. The position map is an input.
- `cmd/reorderfuncs/main.go`: command-line flags, exit codes and stderr.
- `strings.TrimSpace` on Unicode whitespace: only the ASCII set (space, `\t`, `\n`, `\v`, `\f`, `\r`) is trimmed; U+0085, U+00A0 and the other Unicode spaces are not.
- `sort.Slice` in `BuildOutputContent` is modelled by an exchange sort. `Assemble.SortedUnique` shows that with distinct names every sort gives the same order, so the instability of `sort.Slice` does not show.
- Go's `nil` slices are modelled as empty sequences.
- Idempotence (running the tool twice gives the same file as running it once) is not proved. For a file without test functions it does not hold (see the notes above).
- Membership.IsLinePartOfTestFunction requires that the check against every entry of the map read no line outside the file. Go returns at the first entry that matches, so a call whose later entries would read outside the file is allowed by Go when an earlier entry, in the map's iteration order, already matches; the model leaves those calls out. Boundary.IsCommentBeforeTestFunction, Membership.IsEmptyLinePrecedingComment, Membership.HasCommentBeforeTest and Membership.IsLastContentBeforeTest require exactly what Go needs to run without panicking.
- Membership.FindTestFunctionAtLine: when two functions share a start line, Go may return either of them depending on iteration order; the model returns the first in `order`.
