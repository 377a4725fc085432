/** The boundary resolver: how far a test function's block reaches upwards
    through comments and blank lines, how far its trailing blank padding
    reaches downwards, and whether a comment stranded behind blank lines
    still belongs to the function below it. */
module Boundary {
  import opened Text
  import opened Classify

  /** A line that, once trimmed, is empty. */
  predicate IsBlank(line: string) {
    TrimSpace(line) == ""
  }

  /** The line test of findCommentStart: once trimmed, empty or a comment. */
  predicate IsLeading(line: string) {
    IsCommentOrEmpty(TrimSpace(line))
  }

  /** Where findCommentStart stops: the start of the maximal run of
      comment/blank lines ending just above line `s`. */
  function CommentStart(lines: seq<string>, s: int): (c: int)
    requires s <= |lines|
    ensures c <= s
    ensures s <= 0 ==> c == s
    ensures 0 <= s ==> 0 <= c
    ensures forall k :: c <= k < s ==> IsLeading(lines[k])
    ensures 0 < c ==> !IsLeading(lines[c - 1])
    decreases s
  {
    if s > 0 && IsLeading(lines[s - 1]) then CommentStart(lines, s - 1) else s
  }

  /** Where findCommentEnd stops: the end of the run of blank lines right
      after line `e`. */
  function CommentEnd(lines: seq<string>, e: int): (r: int)
    requires -1 <= e
    ensures e <= r
    ensures e < r ==> r < |lines|
    ensures forall k :: e < k <= r ==> IsBlank(lines[k])
    ensures r < |lines| - 1 ==> !IsBlank(lines[r + 1])
    decreases |lines| - e
  {
    if e < |lines| - 1 && IsBlank(lines[e + 1]) then CommentEnd(lines, e + 1) else e
  }

  /** findCommentStart: walk upwards from the function's first line while the
      line above trims to empty or starts a comment. */
  method FindCommentStart(lines: seq<string>, functionStartLine: int) returns (commentStart: int)
    requires functionStartLine <= |lines|
    ensures commentStart == CommentStart(lines, functionStartLine)
    ensures 0 <= functionStartLine ==> 0 <= commentStart <= functionStartLine
  {
    commentStart := functionStartLine;
    while commentStart > 0
      invariant commentStart <= functionStartLine
      invariant CommentStart(lines, commentStart) == CommentStart(lines, functionStartLine)
    {
      var prevLine := TrimSpace(lines[commentStart - 1]);
      if "//" <= prevLine || "/*" <= prevLine || prevLine == "" {
        commentStart := commentStart - 1;
      } else {
        break;
      }
    }
  }

  /** findCommentEnd: walk downwards from the function's last line while the
      next line trims to empty. */
  method FindCommentEnd(lines: seq<string>, functionEndLine: int) returns (commentEnd: int)
    requires -1 <= functionEndLine
    ensures commentEnd == CommentEnd(lines, functionEndLine)
    ensures functionEndLine < |lines| ==> functionEndLine <= commentEnd < |lines|
  {
    commentEnd := functionEndLine;
    while commentEnd < |lines| - 1
      invariant functionEndLine <= commentEnd
      invariant CommentEnd(lines, commentEnd) == CommentEnd(lines, functionEndLine)
    {
      var nextLine := TrimSpace(lines[commentEnd + 1]);
      if nextLine == "" {
        commentEnd := commentEnd + 1;
      } else {
        break;
      }
    }
  }

  /** The loop "every line in [lo, hi) trims to empty". */
  function BlankBetween(lines: seq<string>, lo: int, hi: int): (r: bool)
    requires 0 <= lo && hi <= |lines|
    ensures r <==> forall k :: lo <= k < hi ==> IsBlank(lines[k])
    decreases hi - lo
  {
    if lo >= hi then true else IsBlank(lines[lo]) && BlankBetween(lines, lo + 1, hi)
  }

  /** The backward loop of isCommentBeforeTestFunction: some line above `n`
      is real code. */
  function CodeAbove(lines: seq<string>, n: int): (r: bool)
    requires n <= |lines|
    ensures r <==> exists j :: 0 <= j < n && HasActualCodeAt(lines, j)
    decreases n
  {
    if n <= 0 then false else HasActualCodeAt(lines, n - 1) || CodeAbove(lines, n - 1)
  }

  /** The inputs on which isCommentBeforeTestFunction reads no line outside
      the file: the line it classifies exists, and its forward scan over
      blank lines meets a non-blank line or the function before the end of
      the file. */
  predicate OwnershipInFile(lineIndex: int, lines: seq<string>, testFuncStartLine: int) {
    0 < testFuncStartLine && lineIndex < testFuncStartLine - 1 ==>
      && 0 <= lineIndex < |lines|
      && (IsLeading(lines[lineIndex]) && !IsBlank(lines[lineIndex]) && lineIndex + 1 < testFuncStartLine - 1 ==>
            testFuncStartLine - 1 <= |lines| || !BlankBetween(lines, lineIndex + 1, |lines|))
  }

  /** isCommentBeforeTestFunction, with the test function's start given as a
      1-based line number. The forward scan stops at the function or at the
      end of the file; the precondition rules out Go's panic of running past
      the end. */
  predicate IsCommentBeforeTestFunction(lineIndex: int, lines: seq<string>, testFuncStartLine: int)
    requires OwnershipInFile(lineIndex, lines, testFuncStartLine)
  {
    if testFuncStartLine <= 0 then false
    else
      var testStartIdx := testFuncStartLine - 1;
      if lineIndex >= testStartIdx then false
      else
        var trimmed := TrimSpace(lines[lineIndex]);
        if !IsCommentOrEmpty(trimmed) then false
        else if trimmed == "" then false
        else if lineIndex + 1 == testStartIdx then true
        else if !BlankBetween(lines, lineIndex + 1, if testStartIdx <= |lines| then testStartIdx else |lines|) then false
        else !CodeAbove(lines, lineIndex)
  }

  /** A start line past the end of the file gives false without reading past
      the end: for a line that is not a comment Go returns before any scan,
      and for a comment followed by a non-blank line the blank-line scan stops
      at that line. */
  lemma OwnershipPastEnd()
    ensures OwnershipInFile(0, ["x"], 5) && !IsCommentBeforeTestFunction(0, ["x"], 5)
    ensures OwnershipInFile(0, ["// c", "x"], 5) && !IsCommentBeforeTestFunction(0, ["// c", "x"], 5)
  {
    assert ["x"][0][0] == 'x';
    TrimSpaceMeaning(["x"][0]);
    Untrimmed(["// c", "x"][0]);
    Untrimmed(["// c", "x"][1]);
  }

  /** A function whose 0-based start is one past the last line still owns
      the comment above the blank last line: the blank-line scan stops at the
      end of the file. */
  lemma OwnershipStartAtEnd()
    ensures OwnershipInFile(0, ["// c", ""], 3) && IsCommentBeforeTestFunction(0, ["// c", ""], 3)
  {
    Untrimmed(["// c", ""][0]);
    assert IsBlank(["// c", ""][1]);
  }

  /** Comment ownership: a non-blank comment above the function belongs to it
      when it sits directly above, or when only blank lines separate the two
      and no real code (package and import lines excepted) precedes it. */
  lemma CommentOwnership(lineIndex: int, lines: seq<string>, testFuncStartLine: int)
    requires OwnershipInFile(lineIndex, lines, testFuncStartLine)
    ensures testFuncStartLine <= 0 || lineIndex >= testFuncStartLine - 1 ==>
      !IsCommentBeforeTestFunction(lineIndex, lines, testFuncStartLine)
    ensures 0 < testFuncStartLine && lineIndex < testFuncStartLine - 1 ==>
      (IsCommentBeforeTestFunction(lineIndex, lines, testFuncStartLine) <==>
        !IsBlank(lines[lineIndex]) && IsLeading(lines[lineIndex]) &&
        (lineIndex == testFuncStartLine - 2 ||
          (testFuncStartLine - 1 <= |lines| &&
           (forall k :: lineIndex < k < testFuncStartLine - 1 ==> IsBlank(lines[k])) &&
           (forall j :: 0 <= j < lineIndex ==> !HasActualCodeAt(lines, j)))))
  {
  }

  /** An orphan comment after nothing but a package line and a single-line
      import belongs to the test function below it, and the upward walk from
      that function reaches past it to the blank line under the import. */
  lemma OrphanCommentAfterBoilerplate()
    ensures var lines := ["package main", "import \"testing\"", "", "// doc", "",
                          "func Test_x(t *testing.T) {", "}"];
      IsCommentBeforeTestFunction(3, lines, 6) && CommentStart(lines, 5) == 2
  {
  }

  /** The file of the golden test of isCommentBeforeTestFunction. */
  const OwnershipLines: seq<string> :=
    ["package main", "", "import (", "    \"testing\"", "    \"fmt\"", ")", "",
     "// Comment for test", "", "func Test_ex() {", "}", "", "regular line", "",
     "// Direct comment", "func Test_direct() {", "}", "", "func otherFunc() {", "}",
     "// After other func", "", "func Test_after() {", "}"]

  /** The golden case with a multi-line import: the comment at index 7,
      behind a blank line under the import block, is owned by Test_ex. */
  lemma OwnershipAfterImportBlock()
    ensures IsCommentBeforeTestFunction(7, OwnershipLines, 10)
  {
    Untrimmed(OwnershipLines[7]);
    assert IsBlank(OwnershipLines[8]);
    NoCodeAboveImportComment();
  }

  /** Nothing above index 7 of the golden file is real code: a package line,
      blank lines and a multi-line import block. */
  lemma NoCodeAboveImportComment()
    ensures !CodeAbove(OwnershipLines, 7)
  {
    ImportLinesNotCode();
    Untrimmed(OwnershipLines[0]);
    assert IsBlank(OwnershipLines[1]) && IsBlank(OwnershipLines[6]);
    assert !HasActualCodeAt(OwnershipLines, 0);
  }

  /** The golden file's import block, lines 2 to 5, is not code. */
  lemma ImportLinesNotCode()
    ensures forall j :: 2 <= j <= 5 ==> !HasActualCodeAt(OwnershipLines, j)
  {
    Untrimmed(OwnershipLines[2]);
    Untrimmed(OwnershipLines[5]);
    assert OwnershipLines[3][4] == '"' && OwnershipLines[4][4] == '"';
    NonSpaceKept(OwnershipLines[3], 4);
    NonSpaceKept(OwnershipLines[4], 4);
    ImportBlockIsNotCode(OwnershipLines, 2, 5);
  }

  /** The golden case of a comment right above its test: owned. */
  lemma OwnershipDirect()
    ensures IsCommentBeforeTestFunction(14, OwnershipLines, 16)
  {
    Unspaced(OwnershipLines[14]);
  }

  /** The golden case of a comment after another function: not owned, since
      `func otherFunc() {` above it is real code. */
  lemma OwnershipAfterOtherFunction()
    ensures !IsCommentBeforeTestFunction(20, OwnershipLines, 23)
  {
    Unspaced(OwnershipLines[20]);
    Unspaced(OwnershipLines[18]);
    assert IsBlank(OwnershipLines[21]);
    assert HasActualCodeAt(OwnershipLines, 18);
    assert CodeAbove(OwnershipLines, 20);
  }

  /** The golden cases that are not comments above the function: a blank
      line above it, and two lines below its start. */
  lemma OwnershipOtherLines()
    ensures !IsCommentBeforeTestFunction(8, OwnershipLines, 10)
    ensures !IsCommentBeforeTestFunction(11, OwnershipLines, 10)
    ensures !IsCommentBeforeTestFunction(12, OwnershipLines, 10)
  {
    assert IsBlank(OwnershipLines[8]);
  }

  /** A line that neither starts nor ends with whitespace trims to itself. */
  lemma Untrimmed(line: string)
    requires |line| > 0 && !IsSpace(line[0]) && !IsSpace(line[|line| - 1])
    ensures TrimSpace(line) == line
  {
    TrimLeftMeaning(line);
    TrimRightMeaning(TrimLeft(line));
  }

  /** Trimming keeps every character that is not whitespace. */
  lemma NonSpaceKept(line: string, k: int)
    requires 0 <= k < |line| && !IsSpace(line[k])
    ensures line[k] in TrimSpace(line)
  {
    var l := TrimLeft(line);
    TrimLeftMeaning(line);
    TrimRightMeaning(l);
    var r := TrimRight(l);
    var d := |line| - |l|;
    assert l[k - d] == line[k];
    assert r[k - d] == line[k];
  }

  /** A line whose first character is not whitespace trims to a line with
      the same first character. */
  lemma Unspaced(line: string)
    requires |line| > 0 && !IsSpace(line[0])
    ensures TrimSpace(line) != "" && TrimSpace(line)[0] == line[0]
  {
    TrimLeftMeaning(line);
    TrimRightMeaning(TrimLeft(line));
  }

  /** A comment after another declaration, separated from the test by a blank
      line, is not owned by the test function; the upward walk of
      findCommentStart still reaches it. */
  lemma CommentAfterOtherCode()
    ensures var lines := ["package main", "", "func helper() {", "}", "// doc", "",
                          "func Test_x(t *testing.T) {", "}"];
      !IsCommentBeforeTestFunction(4, lines, 7) && CommentStart(lines, 6) == 4
  {
  }
}
