/** Line membership: whether a line belongs to some test function (its body,
    or a blank line leading to the one comment right above it), and which
    test function starts at a given line. */
module Membership {
  import opened Text
  import opened Boundary
  import opened FuncPositions

  /** A line that, once trimmed, opens a line or block comment. */
  predicate IsComment(line: string) {
    var t := TrimSpace(line);
    "//" <= t || "/*" <= t
  }

  /** isLastContentBeforeTest: only blank lines follow the comment up to the
      function. The scan stops at the function or at the end of the file; the
      precondition rules out Go's panic of reading outside the file. */
  predicate IsLastContentBeforeTest(commentIndex: int, lines: seq<string>, startIdx: int)
    requires commentIndex + 1 < startIdx ==>
      0 <= commentIndex + 1 && (startIdx <= |lines| || !BlankBetween(lines, commentIndex + 1, |lines|))
  {
    commentIndex + 1 >= startIdx ||
    BlankBetween(lines, commentIndex + 1, if startIdx <= |lines| then startIdx else |lines|)
  }

  /** The loop of hasCommentBeforeTest, from line `f` onwards: skip blanks;
      the first other line must be a comment that is the last content
      before the function. */
  function CommentScan(lines: seq<string>, f: int, startIdx: int): bool
    requires 0 <= f && startIdx <= |lines|
    decreases startIdx - f
  {
    if f >= startIdx then false
    else
      var nextLine := TrimSpace(lines[f]);
      if nextLine == "" then CommentScan(lines, f + 1, startIdx)
      else if !("//" <= nextLine) && !("/*" <= nextLine) then false
      else if IsLastContentBeforeTest(f, lines, startIdx) then true
      else false
  }

  /** The inputs on which the forward scans of hasCommentBeforeTest and
      isLastContentBeforeTest read no line past the end of the file: the
      function starts inside it, or the lines from `f` to the end are not
      all blank but for one comment. */
  predicate ForwardScanInFile(lines: seq<string>, f: int, startIdx: int)
    requires 0 <= f <= |lines|
  {
    startIdx <= |lines| || !(BlankBetween(lines, f, |lines|) || CommentScan(lines, f, |lines|))
  }

  /** hasCommentBeforeTest: the scan stops at the function or at the end of
      the file; when the function starts right below the line it reads nothing. */
  predicate HasCommentBeforeTest(lineIndex: int, lines: seq<string>, startIdx: int)
    requires lineIndex + 1 < startIdx ==>
      0 <= lineIndex + 1 <= |lines| && ForwardScanInFile(lines, lineIndex + 1, startIdx)
  {
    lineIndex + 1 < startIdx &&
    CommentScan(lines, lineIndex + 1, if startIdx <= |lines| then startIdx else |lines|)
  }

  /** Exactly one line in [f, startIdx) is not blank, and it is a comment. */
  ghost predicate LoneCommentBetween(lines: seq<string>, f: int, startIdx: int)
    requires 0 <= f && startIdx <= |lines|
  {
    exists k :: f <= k < startIdx && IsComment(lines[k]) &&
      forall j :: f <= j < startIdx && j != k ==> IsBlank(lines[j])
  }

  /** The scan succeeds exactly when the lines from `f` up to the function
      are blank except for one comment. */
  lemma {:induction false} CommentScanMeaning(lines: seq<string>, f: int, startIdx: int)
    requires 0 <= f && startIdx <= |lines|
    ensures CommentScan(lines, f, startIdx) <==> LoneCommentBetween(lines, f, startIdx)
    decreases startIdx - f
  {
    if f < startIdx {
      CommentScanMeaning(lines, f + 1, startIdx);
      var t := TrimSpace(lines[f]);
      if t == "" {
        if LoneCommentBetween(lines, f, startIdx) {
          var k :| f <= k < startIdx && IsComment(lines[k]) &&
            forall j :: f <= j < startIdx && j != k ==> IsBlank(lines[j]);
          assert k != f;
          assert LoneCommentBetween(lines, f + 1, startIdx);
        }
        if LoneCommentBetween(lines, f + 1, startIdx) {
          var k :| f + 1 <= k < startIdx && IsComment(lines[k]) &&
            forall j :: f + 1 <= j < startIdx && j != k ==> IsBlank(lines[j]);
          assert LoneCommentBetween(lines, f, startIdx);
        }
      } else if IsComment(lines[f]) {
        if LoneCommentBetween(lines, f, startIdx) {
          var k :| f <= k < startIdx && IsComment(lines[k]) &&
            forall j :: f <= j < startIdx && j != k ==> IsBlank(lines[j]);
          assert k == f;
        }
      } else {
        forall k | f <= k < startIdx && IsComment(lines[k])
          ensures !forall j :: f <= j < startIdx && j != k ==> IsBlank(lines[j])
        {
          assert k != f;
          assert !IsBlank(lines[f]);
        }
      }
    }
  }

  /** isEmptyLinePrecedingComment: a blank line above the function from which
      only one comment, then blank lines, lead down to the function. */
  predicate IsEmptyLinePrecedingComment(lineIndex: int, lines: seq<string>, startIdx: int)
    requires EmptyLineCheckInFile(lineIndex, lines, startIdx)
  {
    if lineIndex >= startIdx then false
    else if TrimSpace(lines[lineIndex]) != "" then false
    else HasCommentBeforeTest(lineIndex, lines, startIdx)
  }

  /** The inputs on which isEmptyLinePrecedingComment reads no line outside
      the file: the line it looks at exists and, when it is blank, the
      forward scan stays inside the file. */
  predicate EmptyLineCheckInFile(lineIndex: int, lines: seq<string>, startIdx: int) {
    lineIndex < startIdx ==>
      0 <= lineIndex < |lines| &&
      (IsBlank(lines[lineIndex]) ==> ForwardScanInFile(lines, lineIndex + 1, startIdx))
  }

  /** The check against every test function of the map stays inside the file. */
  predicate StartsWithin(lineIndex: int, lines: seq<string>, testFuncPos: Positions) {
    forall name :: name in testFuncPos ==> EmptyLineCheckInFile(lineIndex, lines, testFuncPos[name].0 - 1)
  }

  /** isLinePartOfTestFunction: the line is inside some function's 1-based
      [start, end] range, or is a blank line leading to its lone comment. */
  predicate IsLinePartOfTestFunction(lineIndex: int, lines: seq<string>, testFuncPos: Positions)
    requires StartsWithin(lineIndex, lines, testFuncPos)
  {
    exists name :: name in testFuncPos &&
      var startIdx := testFuncPos[name].0 - 1;
      var endIdx := testFuncPos[name].1 - 1;
      (lineIndex >= startIdx && lineIndex <= endIdx) ||
      IsEmptyLinePrecedingComment(lineIndex, lines, startIdx)
  }

  /** A line belongs to a test function exactly when it lies in some entry's
      0-based [start - 1, end - 1] range, or it is a blank line above the
      function and the lines between it and the function are blank except for
      a single comment. The comment itself is not such a line. */
  lemma LinePartMeaning(lineIndex: int, lines: seq<string>, testFuncPos: Positions)
    requires StartsWithin(lineIndex, lines, testFuncPos)
    ensures IsLinePartOfTestFunction(lineIndex, lines, testFuncPos) <==>
      exists name :: name in testFuncPos &&
        ((testFuncPos[name].0 - 1 <= lineIndex <= testFuncPos[name].1 - 1) ||
         (lineIndex < testFuncPos[name].0 - 1 && IsBlank(lines[lineIndex]) &&
          testFuncPos[name].0 - 1 <= |lines| &&
          LoneCommentBetween(lines, lineIndex + 1, testFuncPos[name].0 - 1)))
  {
    forall name | name in testFuncPos && lineIndex < testFuncPos[name].0 - 1 && IsBlank(lines[lineIndex])
      ensures HasCommentBeforeTest(lineIndex, lines, testFuncPos[name].0 - 1) <==>
        testFuncPos[name].0 - 1 <= |lines| && LoneCommentBetween(lines, lineIndex + 1, testFuncPos[name].0 - 1)
    {
      if testFuncPos[name].0 - 1 <= |lines| {
        CommentScanMeaning(lines, lineIndex + 1, testFuncPos[name].0 - 1);
      }
    }
  }

  /** A test function whose start lies past the end of the file: a line
      that is not blank is never part of it, and a blank line followed by code
      is not either, since both checks stop before reading past the file. */
  lemma StartPastEnd()
    ensures StartsWithin(0, ["x"], map["TestA" := (10, 12)])
    ensures !IsLinePartOfTestFunction(0, ["x"], map["TestA" := (10, 12)])
    ensures EmptyLineCheckInFile(0, ["", "x"], 9) && !IsEmptyLinePrecedingComment(0, ["", "x"], 9)
  {
    assert ["x"][0][0] == 'x';
    TrimSpaceMeaning(["x"][0]);
    var lines := ["", "x"];
    assert lines[1][0] == 'x';
    TrimSpaceMeaning(lines[1]);
    assert !BlankBetween(lines, 1, |lines|);
    assert !CommentScan(lines, 1, |lines|);
  }

  /** When the function starts right below the line, or above it, the scan
      reads no line and finds no comment, wherever the line lies. */
  lemma ScanNeverRuns(lineIndex: int, lines: seq<string>, startIdx: int)
    requires lineIndex + 1 >= startIdx
    ensures !HasCommentBeforeTest(lineIndex, lines, startIdx)
  {
  }

  /** findTestFunctionAtLine, iterating the map in the order `order`: the
      first name whose 1-based start line is `lineNumber`, or "" if none. */
  function FindTestFunctionAtLine(lineNumber: int, testFuncPos: Positions, order: seq<string>): (name: string)
    requires forall k :: 0 <= k < |order| ==> order[k] in testFuncPos
    ensures name != "" ==> name in order && testFuncPos[name].0 == lineNumber
    ensures (exists k :: 0 <= k < |order| && testFuncPos[order[k]].0 == lineNumber) ==>
      name in order && testFuncPos[name].0 == lineNumber
    ensures (forall k :: 0 <= k < |order| ==> testFuncPos[order[k]].0 != lineNumber) ==> name == ""
    decreases |order|
  {
    if |order| == 0 then ""
    else if testFuncPos[order[0]].0 == lineNumber then order[0]
    else FindTestFunctionAtLine(lineNumber, testFuncPos, order[1..])
  }

  /** When no two test functions start on the same line, the answer does not
      depend on the order Go happens to iterate the map in. */
  lemma FindTestFunctionAtLineOrderFree(lineNumber: int, testFuncPos: Positions, o1: seq<string>, o2: seq<string>)
    requires Enumerates(o1, testFuncPos) && Enumerates(o2, testFuncPos)
    requires forall a, b :: a in testFuncPos && b in testFuncPos && testFuncPos[a].0 == testFuncPos[b].0 ==> a == b
    ensures FindTestFunctionAtLine(lineNumber, testFuncPos, o1) == FindTestFunctionAtLine(lineNumber, testFuncPos, o2)
  {
    var r1 := FindTestFunctionAtLine(lineNumber, testFuncPos, o1);
    var r2 := FindTestFunctionAtLine(lineNumber, testFuncPos, o2);
    if exists k :: 0 <= k < |o1| && testFuncPos[o1[k]].0 == lineNumber {
      var k :| 0 <= k < |o1| && testFuncPos[o1[k]].0 == lineNumber;
      assert o1[k] in o2;
      var k2 :| 0 <= k2 < |o2| && o2[k2] == o1[k];
      assert r1 in testFuncPos && r2 in testFuncPos;
    } else {
      forall k | 0 <= k < |o2| ensures testFuncPos[o2[k]].0 != lineNumber {
        assert o2[k] in o1;
      }
    }
  }

  /** A file with one commented test function: the blank line above the
      comment and the function's own lines belong to it; the comment itself,
      the blank line after the function and a regular function do not. */
  lemma LinePartExample()
    ensures var lines := ["package main", "", "// Comment for test", "func Test_alpha() {",
                          "\t// test body", "}", "", "func regularFunc() {", "}"];
      var pos := map["Test_alpha" := (4, 6)];
      StartsWithin(1, lines, pos) &&
      IsLinePartOfTestFunction(1, lines, pos) && !IsLinePartOfTestFunction(2, lines, pos) &&
      IsLinePartOfTestFunction(3, lines, pos) && IsLinePartOfTestFunction(4, lines, pos) &&
      IsLinePartOfTestFunction(5, lines, pos) &&
      !IsLinePartOfTestFunction(6, lines, pos) && !IsLinePartOfTestFunction(7, lines, pos)
  {
    var lines := ["package main", "", "// Comment for test", "func Test_alpha() {",
                  "\t// test body", "}", "", "func regularFunc() {", "}"];
    var pos := map["Test_alpha" := (4, 6)];
    assert pos["Test_alpha"] == (4, 6);
    assert IsEmptyLinePrecedingComment(1, lines, 3);
    assert !IsEmptyLinePrecedingComment(2, lines, 3);
  }
}
