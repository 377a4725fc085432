/** The line classifier: predicates that say whether a line is blank, a
    comment, package/import boilerplate or real code, including the backward
    scans that recognise the lines of a multi-line `import ( … )` block. */
module Classify {
  import opened Text

  /** The line that opens a multi-line import block. */
  const ImportBlockStart := "import ("

  /** isCommentOrEmpty: empty, or starting with a line-comment or block-comment marker. It does not trim. */
  predicate IsCommentOrEmpty(line: string) {
    line == "" || "//" <= line || "/*" <= line
  }

  /** The classifier looks only at the start of the line and does not trim:
      whitespace alone is not empty, and a comment marker inside a line of
      code does not make it a comment. */
  lemma CommentOrEmptyCases()
    ensures IsCommentOrEmpty("") && IsCommentOrEmpty("// This is a comment")
    ensures IsCommentOrEmpty("/* This is a multi-line comment")
    ensures !IsCommentOrEmpty("func TestExample(t *testing.T) {")
    ensures !IsCommentOrEmpty("   \t  ")
    ensures !IsCommentOrEmpty("string := \"// not a comment\"")
  {
    assert "func TestExample(t *testing.T) {"[0] == 'f';
    assert "   \t  "[0] == ' ';
    assert "string := \"// not a comment\""[0] == 's';
  }

  /** isBoilerplateCode, on an already trimmed line. */
  predicate IsBoilerplateCode(line: string) {
    if line == "" then true
    else if "//" <= line || "/*" <= line then true
    else if "package " <= line then true
    else if "import " <= line then true
    else line == ImportBlockStart
  }

  /** A trimmed line the import-block scans step over: blank, a `//` comment,
      or a line holding a double quote (an import path). */
  predicate IsImportFiller(t: string) {
    t == "" || "//" <= t || '"' in t
  }

  /** The loop of isEndOfImportBlock, from line `k` upwards. */
  function EndOfImportScan(lines: seq<string>, k: int): bool
    requires k < |lines|
    decreases k + 1
  {
    if k < 0 then false
    else
      var prev := TrimSpace(lines[k]);
      if prev == "" || "//" <= prev then EndOfImportScan(lines, k - 1)
      else if '"' in prev then EndOfImportScan(lines, k - 1)
      else if prev == ImportBlockStart then true
      else if "package " <= prev then false
      else false
  }

  /** isEndOfImportBlock: is the `)` at `idx` the end of an import block? */
  predicate IsEndOfImportBlock(lines: seq<string>, idx: int)
    requires idx <= |lines|
  {
    EndOfImportScan(lines, idx - 1)
  }

  /** The loop of isInImportBlock, from line `k` upwards. */
  function InImportScan(lines: seq<string>, k: int): bool
    requires k < |lines|
    decreases k + 1
  {
    if k < 0 then false
    else
      var prev := TrimSpace(lines[k]);
      if prev == "" || "//" <= prev then InImportScan(lines, k - 1)
      else if '"' in prev then InImportScan(lines, k - 1)
      else if prev == ImportBlockStart then true
      else if "package " <= prev then false
      else false
  }

  /** isInImportBlock: is the quoted line at `idx` inside an import block? */
  predicate IsInImportBlock(lines: seq<string>, idx: int)
    requires idx <= |lines|
  {
    InImportScan(lines, idx - 1)
  }

  /** Line `j` is, once trimmed, the opening of an import block. */
  predicate OpensImportBlock(lines: seq<string>, j: int)
    requires 0 <= j < |lines|
  {
    TrimSpace(lines[j]) == ImportBlockStart
  }

  /** Every line in [lo, hi) is filler the import scans step over. */
  predicate FillerBetween(lines: seq<string>, lo: int, hi: int)
    requires 0 <= lo && hi <= |lines|
  {
    forall m :: lo <= m < hi ==> IsImportFiller(TrimSpace(lines[m]))
  }

  /** There is an `import (` line at some j < idx, and every line strictly
      between it and idx is filler. */
  ghost predicate ImportOpenAbove(lines: seq<string>, idx: int)
    requires idx <= |lines|
  {
    exists j :: 0 <= j < idx && OpensImportBlock(lines, j) && FillerBetween(lines, j + 1, idx)
  }

  /** One step of the backward scan: an import block is open above k + 1
      when line k opens it, or line k is filler and one is open above k. */
  lemma ImportOpenAboveStep(lines: seq<string>, k: int)
    requires 0 <= k < |lines|
    ensures ImportOpenAbove(lines, k + 1) <==>
      OpensImportBlock(lines, k) || (IsImportFiller(TrimSpace(lines[k])) && ImportOpenAbove(lines, k))
  {
    if ImportOpenAbove(lines, k + 1) && !OpensImportBlock(lines, k) {
      var j :| 0 <= j < k + 1 && OpensImportBlock(lines, j) && FillerBetween(lines, j + 1, k + 1);
      assert j != k;
      assert FillerBetween(lines, j + 1, k);
    }
    if OpensImportBlock(lines, k) {
      assert FillerBetween(lines, k + 1, k + 1);
    }
    if IsImportFiller(TrimSpace(lines[k])) && ImportOpenAbove(lines, k) {
      var j :| 0 <= j < k && OpensImportBlock(lines, j) && FillerBetween(lines, j + 1, k);
      forall m | j + 1 <= m < k + 1
        ensures IsImportFiller(TrimSpace(lines[m]))
      {
        if m < k {
          assert FillerBetween(lines, j + 1, k);
        }
      }
      assert FillerBetween(lines, j + 1, k + 1);
    }
  }

  /** The scan answers true exactly when the first non-filler line above
      is `import (`; a `package` line, any other line, or running off the top
      of the file gives false. */
  lemma {:induction false} EndOfImportScanMeaning(lines: seq<string>, k: int)
    requires k < |lines|
    ensures EndOfImportScan(lines, k) <==> ImportOpenAbove(lines, k + 1)
    decreases k + 1
  {
    if k >= 0 {
      EndOfImportScanMeaning(lines, k - 1);
      ImportOpenAboveStep(lines, k);
      var prev := TrimSpace(lines[k]);
      if IsImportFiller(prev) {
        assert EndOfImportScan(lines, k) == EndOfImportScan(lines, k - 1);
        assert !IsImportFiller(ImportBlockStart) by {
          assert ImportBlockStart[0] == 'i' && "//"[0] == '/';
          assert forall i :: 0 <= i < |ImportBlockStart| ==> ImportBlockStart[i] != '"';
        }
        assert !OpensImportBlock(lines, k);
      } else {
        assert EndOfImportScan(lines, k) == (prev == ImportBlockStart);
      }
    }
  }

  /** isEndOfImportBlock and isInImportBlock scan the same way and always agree. */
  lemma {:induction false} ImportScansAgree(lines: seq<string>, idx: int)
    requires idx <= |lines|
    ensures IsEndOfImportBlock(lines, idx) == IsInImportBlock(lines, idx)
    decreases idx
  {
    if idx > 0 {
      ImportScansAgree(lines, idx - 1);
    }
  }

  /** handleSpecialCases: a `)` or a quoted line is code unless the scan
      finds it inside an import block; anything else reaching here is code. */
  predicate HandleSpecialCases(lines: seq<string>, idx: int, line: string)
    requires idx <= |lines|
  {
    if line == ")" then !IsEndOfImportBlock(lines, idx)
    else if '"' in line then !IsInImportBlock(lines, idx)
    else true
  }

  /** hasActualCodeAt: the line at `idx` is real code, not package/import
      boilerplate, a comment, a blank, or part of a multi-line import block. */
  predicate HasActualCodeAt(lines: seq<string>, idx: int)
    requires 0 <= idx < |lines|
  {
    var line := TrimSpace(lines[idx]);
    if IsBoilerplateCode(line) then false
    else HandleSpecialCases(lines, idx, line)
  }

  /** A line is real code exactly when, trimmed, it is not boilerplate, and
      it is neither a `)` nor a quoted line sitting below an open import
      block with only filler in between. */
  lemma HasActualCodeAtMeaning(lines: seq<string>, idx: int)
    requires 0 <= idx < |lines|
    ensures var t := TrimSpace(lines[idx]);
      HasActualCodeAt(lines, idx) <==>
        !IsBoilerplateCode(t) && !((t == ")" || '"' in t) && ImportOpenAbove(lines, idx))
  {
    EndOfImportScanMeaning(lines, idx - 1);
    ImportScansAgree(lines, idx);
  }

  /** Every line of a well-formed multi-line import block — the opening
      `import (`, the quoted paths, blanks and `//` comments inside it, and
      the closing `)` — is boilerplate, not code. */
  lemma ImportBlockIsNotCode(lines: seq<string>, open: int, close: int)
    requires 0 <= open < close < |lines|
    requires TrimSpace(lines[open]) == ImportBlockStart
    requires forall m :: open < m < close ==> IsImportFiller(TrimSpace(lines[m]))
    requires TrimSpace(lines[close]) == ")"
    ensures forall j :: open <= j <= close ==> !HasActualCodeAt(lines, j)
  {
    forall j | open < j <= close
      ensures !HasActualCodeAt(lines, j)
    {
      assert OpensImportBlock(lines, open) && FillerBetween(lines, open + 1, j);
      assert ImportOpenAbove(lines, j);
      EndOfImportScanMeaning(lines, j - 1);
      ImportScansAgree(lines, j);
    }
  }
}
