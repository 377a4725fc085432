/** The assembler: sorts the extracted blocks by name, strips blank lines
    where the output would otherwise pile them up, and renders the final
    text; plus the whole reordering pass from file text to file text. */
module Assemble {
  import opened Text
  import opened Boundary
  import opened FuncPositions
  import opened Extract

  /** The list without its trailing blank lines. */
  function TrimTrailingBlank(lines: seq<string>): seq<string>
    decreases |lines|
  {
    if |lines| > 0 && IsBlank(lines[|lines| - 1]) then TrimTrailingBlank(lines[..|lines| - 1]) else lines
  }

  /** What is trimmed is a prefix, everything cut off is blank, and what is
      left does not end with a blank line. */
  lemma {:induction false} TrimTrailingBlankMeaning(lines: seq<string>)
    ensures var r := TrimTrailingBlank(lines);
      && |r| <= |lines| && r == lines[..|r|]
      && (forall k :: |r| <= k < |lines| ==> IsBlank(lines[k]))
      && (r == [] || !IsBlank(r[|r| - 1]))
    decreases |lines|
  {
    if |lines| > 0 && IsBlank(lines[|lines| - 1]) {
      TrimTrailingBlankMeaning(lines[..|lines| - 1]);
    }
  }

  /** The list without its leading blank lines. */
  function DropLeadingBlank(lines: seq<string>): seq<string>
    decreases |lines|
  {
    if |lines| > 0 && IsBlank(lines[0]) then DropLeadingBlank(lines[1..]) else lines
  }

  /** What is kept is a suffix, everything dropped is blank, and what is left
      does not start with a blank line. */
  lemma {:induction false} DropLeadingBlankMeaning(lines: seq<string>)
    ensures var r := DropLeadingBlank(lines);
      && |r| <= |lines| && r == lines[|lines| - |r|..]
      && (forall k :: 0 <= k < |lines| - |r| ==> IsBlank(lines[k]))
      && (r == [] || !IsBlank(r[0]))
    decreases |lines|
  {
    if |lines| > 0 && IsBlank(lines[0]) {
      DropLeadingBlankMeaning(lines[1..]);
    }
  }

  /** Names never decrease along the list, in Go's byte-wise string order. */
  predicate SortedByName(tfs: seq<TestFunction>) {
    forall p, q :: 0 <= p < q < |tfs| ==> !Less(tfs[q].name, tfs[p].name)
  }

  /** No two functions share a name. */
  predicate DistinctNames(tfs: seq<TestFunction>) {
    forall p, q :: 0 <= p < q < |tfs| ==> tfs[p].name != tfs[q].name
  }

  /** One more function appends a separator (unless it is the first) and its
      lines without leading blanks. */
  lemma BlockLinesStep(tfs: seq<TestFunction>, i: int)
    requires 0 <= i < |tfs|
    ensures BlockLines(tfs[..i + 1]) ==
      BlockLines(tfs[..i]) + (if i > 0 then [""] else []) + DropLeadingBlank(tfs[i].lines)
  {
    assert tfs[..i + 1][..i] == tfs[..i];
  }

  /** Regrouping the output lines, proved apart from BuildOutputContent: in
      the loop's context the same step is far more expensive. */
  lemma LinesRegroup(a: seq<string>, b: seq<string>, c: seq<string>, d: seq<string>)
    ensures a + b + c + d == a + (b + c + d)
  {
  }

  /** What the loop over the sorted functions appends: each function's lines
      without leading blanks, with one empty line between consecutive ones. */
  function BlockLines(tfs: seq<TestFunction>): seq<string>
    decreases |tfs|
  {
    if |tfs| == 0 then []
    else
      BlockLines(tfs[..|tfs| - 1]) + (if |tfs| > 1 then [""] else []) +
      DropLeadingBlank(tfs[|tfs| - 1].lines)
  }

  /** The output lines of BuildOutputContent for already sorted functions:
      when there are both functions and other lines, the other lines lose
      their trailing blanks and get one empty separator line. */
  function OutputLines(testFuncs: seq<TestFunction>, nonTestLines: seq<string>): seq<string> {
    (if |testFuncs| > 0 && |nonTestLines| > 0 then TrimTrailingBlank(nonTestLines) + [""] else nonTestLines) +
    BlockLines(testFuncs)
  }

  /** The lines joined with newlines, with a newline added unless the text
      already ends with one. */
  function Render(outputLines: seq<string>): (output: string)
    ensures |output| > 0 && output[|output| - 1] == '\n'
    ensures output == JoinLines(outputLines) || output == JoinLines(outputLines) + "\n"
  {
    var joined := JoinLines(outputLines);
    if |joined| > 0 && joined[|joined| - 1] == '\n' then joined else joined + "\n"
  }

  /** The last line of a join is the text after its last newline. */
  lemma {:induction false} JoinLast(lines: seq<string>)
    requires |lines| >= 2
    ensures JoinLines(lines) == JoinLines(lines[..|lines| - 1]) + "\n" + lines[|lines| - 1]
    decreases |lines|
  {
    if |lines| > 2 {
      JoinLast(lines[1..]);
      assert lines[1..][..|lines| - 2] == lines[..|lines| - 1][1..];
    }
  }

  /** Joined lines without newlines of their own end with a newline exactly
      when there are at least two and the last is empty. */
  lemma JoinEndsWithNewline(lines: seq<string>)
    requires forall k :: 0 <= k < |lines| ==> '\n' !in lines[k]
    ensures var j := JoinLines(lines);
      (|j| > 0 && j[|j| - 1] == '\n') <==> (|lines| >= 2 && lines[|lines| - 1] == "")
  {
    if |lines| >= 2 {
      JoinLast(lines);
      var last := lines[|lines| - 1];
      if last != "" {
        assert last[|last| - 1] in last;
      }
    } else if |lines| == 1 {
      if |lines[0]| > 0 {
        assert lines[0][|lines[0]| - 1] in lines[0];
      }
    }
  }

  /** Splitting the rendered output gives back its lines, followed by one
      empty piece unless the last line already was that empty piece. */
  lemma RenderSplit(lines: seq<string>)
    requires |lines| >= 1
    requires forall k :: 0 <= k < |lines| ==> '\n' !in lines[k]
    ensures SplitLines(Render(lines)) ==
      if |lines| >= 2 && lines[|lines| - 1] == "" then lines else lines + [""]
  {
    JoinEndsWithNewline(lines);
    if |lines| >= 2 && lines[|lines| - 1] == "" {
      SplitJoin(lines);
    } else {
      JoinAppendEmpty(lines);
      assert forall k :: 0 <= k < |lines| + 1 ==> '\n' !in (lines + [""])[k];
      SplitJoin(lines + [""]);
    }
  }

  /** Two name-sorted lists of the same functions, with no name repeated, are
      the same list: the order sort.Slice produces does not depend on the
      sorting algorithm. */
  lemma {:induction false} SortedUnique(a: seq<TestFunction>, b: seq<TestFunction>)
    requires SortedByName(a) && SortedByName(b) && DistinctNames(a)
    requires multiset(a) == multiset(b)
    ensures a == b
    decreases |a|
  {
    assert |a| == |multiset(a)| == |multiset(b)| == |b|;
    if |a| > 0 {
      SortedHeads(a, b);
      assert a == [a[0]] + a[1..] && b == [b[0]] + b[1..];
      assert multiset(a[1..]) == multiset(a) - multiset{a[0]};
      assert multiset(b[1..]) == multiset(b) - multiset{b[0]};
      SortedUnique(a[1..], b[1..]);
    }
  }

  /** Two such lists start with the same function: the one of least name. */
  lemma SortedHeads(a: seq<TestFunction>, b: seq<TestFunction>)
    requires SortedByName(a) && SortedByName(b) && DistinctNames(a)
    requires multiset(a) == multiset(b) && |a| > 0 && |b| > 0
    ensures a[0] == b[0]
  {
    assert b[0] in multiset(a);
    assert a[0] in multiset(b);
    if a[0] != b[0] {
      var k :| 0 <= k < |a| && a[k] == b[0];
      var m :| 0 <= m < |b| && b[m] == a[0];
      assert k > 0 && m > 0;
      LessTotal(a[0].name, a[k].name);
      assert false;
    }
  }

  /** One pass of an exchange sort: leave the least name of a[i..] at i. */
  method SwapLeastTo(a: array<TestFunction>, i: int)
    requires 0 <= i < a.Length
    requires forall p, q :: 0 <= p < i && p < q < a.Length ==> !Less(a[q].name, a[p].name)
    modifies a
    ensures forall p, q :: 0 <= p <= i && p < q < a.Length ==> !Less(a[q].name, a[p].name)
    ensures multiset(a[..]) == multiset(old(a[..]))
  {
    var j := i + 1;
    while j < a.Length
      invariant i + 1 <= j <= a.Length
      invariant forall p, q :: 0 <= p < i && p < q < a.Length ==> !Less(a[q].name, a[p].name)
      invariant forall q :: i < q < j ==> !Less(a[q].name, a[i].name)
      invariant multiset(a[..]) == multiset(old(a[..]))
    {
      if Less(a[j].name, a[i].name) {
        forall q | i < q < j ensures !Less(a[q].name, a[j].name) {
          if Less(a[q].name, a[j].name) {
            LessTransitive(a[q].name, a[j].name, a[i].name);
          }
        }
        LessAsymmetric(a[j].name, a[i].name);
        a[i], a[j] := a[j], a[i];
      }
      j := j + 1;
    }
  }

  /** The sort.Slice call of BuildOutputContent: sort the caller's slice in
      place by name. */
  method SortByName(a: array<TestFunction>)
    modifies a
    ensures SortedByName(a[..])
    ensures multiset(a[..]) == multiset(old(a[..]))
  {
    var i := 0;
    while i < a.Length
      invariant 0 <= i <= a.Length
      invariant forall p, q :: 0 <= p < i && p < q < a.Length ==> !Less(a[q].name, a[p].name)
      invariant multiset(a[..]) == multiset(old(a[..]))
    {
      SwapLeastTo(a, i);
      i := i + 1;
    }
  }

  /** BuildOutputContent: sort the functions by name (in place, as Go's
      sort.Slice does to the caller's slice), then lay out the other lines,
      one separator and the functions, and render the text. */
  method BuildOutputContent(testFuncs: array<TestFunction>, nonTestLines: seq<string>) returns (output: string)
    modifies testFuncs
    ensures SortedByName(testFuncs[..])
    ensures multiset(testFuncs[..]) == multiset(old(testFuncs[..]))
    ensures output == Render(OutputLines(testFuncs[..], nonTestLines))
  {
    SortByName(testFuncs);
    var outputLines := nonTestLines;
    if testFuncs.Length > 0 && |nonTestLines| > 0 {
      while |outputLines| > 0 && TrimSpace(outputLines[|outputLines| - 1]) == ""
        invariant TrimTrailingBlank(outputLines) == TrimTrailingBlank(nonTestLines)
        decreases |outputLines|
      {
        outputLines := outputLines[..|outputLines| - 1];
      }
      outputLines := outputLines + [""];
    }
    ghost var head := outputLines;
    ghost var sorted := testFuncs[..];
    for i := 0 to testFuncs.Length
      invariant testFuncs[..] == sorted
      invariant outputLines == head + BlockLines(sorted[..i])
    {
      ghost var sep: seq<string> := if i > 0 then [""] else [];
      ghost var lead := DropLeadingBlank(sorted[i].lines);
      ghost var prev := outputLines;
      if i > 0 {
        outputLines := outputLines + [""];
      }
      var funcLines := testFuncs[i].lines;
      while |funcLines| > 0 && TrimSpace(funcLines[0]) == ""
        invariant DropLeadingBlank(funcLines) == lead
        decreases |funcLines|
      {
        funcLines := funcLines[1..];
      }
      assert funcLines == lead;
      outputLines := outputLines + funcLines;
      assert outputLines == prev + sep + lead;
      BlockLinesStep(sorted, i);
      LinesRegroup(head, BlockLines(sorted[..i]), sep, lead);
    }
    assert sorted[..testFuncs.Length] == sorted;
    output := JoinLines(outputLines);
    if !(|output| > 0 && output[|output| - 1] == '\n') {
      output := output + "\n";
    }
  }

  /** A value of a list whose names are all different occurs in it once. */
  lemma NamesMakeDistinct(tfs: seq<TestFunction>)
    requires DistinctNames(tfs)
    ensures Distinct(tfs)
  {
  }

  /** Reordering a list whose names are all different keeps them different. */
  lemma DistinctNamesPermutation(s: seq<TestFunction>, b: seq<TestFunction>)
    requires multiset(s) == multiset(b) && DistinctNames(b)
    ensures DistinctNames(s)
  {
    NamesMakeDistinct(b);
    forall p, q | 0 <= p < q < |s|
      ensures s[p].name != s[q].name
    {
      assert s[p] in multiset(b) && s[q] in multiset(b);
      var i :| 0 <= i < |b| && b[i] == s[p];
      var j :| 0 <= j < |b| && b[j] == s[q];
      if s[p].name == s[q].name {
        assert i == j;
        RepeatCount(s, p, q);
        DistinctCount(b, s[p]);
        assert false;
      }
    }
  }

  /** A block one separation extracts is also extracted by another
      separation of the same file with the same positions. */
  lemma SeparatedBlockShared(lines: seq<string>, pos: Positions,
                             b1: seq<TestFunction>, n1: seq<string>,
                             b2: seq<TestFunction>, n2: seq<string>, x: TestFunction)
    requires Separated(lines, pos, b1, n1) && Separated(lines, pos, b2, n2)
    requires x in b1
    ensures x in b2
  {
    var k :| 0 <= k < |b1| && b1[k] == x;
    assert x.name in pos && 0 <= pos[x.name].0 - 1 < |lines|;
    var k2 :| 0 <= k2 < |b2| && b2[k2].name == x.name;
    assert b2[k2] == x;
  }

  /** Two separations of the same file with the same positions extract the
      same blocks, possibly in another order, and keep the same other lines. */
  lemma SeparatedSame(lines: seq<string>, pos: Positions,
                      b1: seq<TestFunction>, n1: seq<string>,
                      b2: seq<TestFunction>, n2: seq<string>)
    requires Separated(lines, pos, b1, n1) && Separated(lines, pos, b2, n2)
    ensures multiset(b1) == multiset(b2) && n1 == n2
  {
    forall x | x in b1 ensures x in b2 {
      SeparatedBlockShared(lines, pos, b1, n1, b2, n2, x);
    }
    forall x | x in b2 ensures x in b1 {
      SeparatedBlockShared(lines, pos, b2, n2, b1, n1, x);
    }
    NamesMakeDistinct(b1);
    NamesMakeDistinct(b2);
    forall x ensures multiset(b1)[x] == multiset(b2)[x] {
      DistinctCount(b1, x);
      DistinctCount(b2, x);
    }
  }

  /** The output does not depend on the order in which Go happens to iterate
      the position map, nor on how sort.Slice orders the blocks: any two
      separations of one file with one position map, each sorted by name,
      render the same text. */
  lemma OrderIndependent(lines: seq<string>, pos: Positions,
                         b1: seq<TestFunction>, n1: seq<string>, sorted1: seq<TestFunction>,
                         b2: seq<TestFunction>, n2: seq<string>, sorted2: seq<TestFunction>)
    requires Separated(lines, pos, b1, n1) && SortedByName(sorted1) && multiset(sorted1) == multiset(b1)
    requires Separated(lines, pos, b2, n2) && SortedByName(sorted2) && multiset(sorted2) == multiset(b2)
    ensures sorted1 == sorted2
    ensures Render(OutputLines(sorted1, n1)) == Render(OutputLines(sorted2, n2))
  {
    SeparatedSame(lines, pos, b1, n1, b2, n2);
    DistinctNamesPermutation(sorted1, b1);
    SortedUnique(sorted1, sorted2);
  }

  /** A map that marks none of the indices below n leaves them all, in order. */
  lemma {:induction false} AllUnmarked(m: map<int, bool>, n: nat)
    requires forall i :: 0 <= i < n ==> !Marked(m, i)
    ensures UnmarkedIndices(m, n) == seq(n, i => i)
    decreases n
  {
    if n > 0 {
      AllUnmarked(m, n - 1);
      assert seq(n, i => i) == seq(n - 1, i => i) + [n - 1];
    }
  }

  /** Every separated block belongs to a function of the map; stated as a
      lemma so that a caller holding an empty map can conclude that there are
      no blocks. */
  lemma SeparatedFirstName(lines: seq<string>, pos: Positions, blocks: seq<TestFunction>, nonTest: seq<string>)
    requires Separated(lines, pos, blocks, nonTest) && |blocks| > 0
    ensures blocks[0].name in pos
  {
  }

  /** With no test functions nothing is extracted and every line is kept,
      followed by the empty line collectNonTestLines appends. */
  lemma NoTestFunctions(lines: seq<string>, blocks: seq<TestFunction>, nonTest: seq<string>)
    requires |lines| >= 1
    requires Separated(lines, map[], blocks, nonTest)
    ensures blocks == [] && nonTest == lines + [""]
  {
    if |blocks| > 0 {
      SeparatedFirstName(lines, map[], blocks, nonTest);
      assert false;
    }
    AllUnmarked(ClaimMap(lines, map[]), |lines|);
    assert Select(lines, seq(|lines|, i => i)) == lines;
  }

  /** Exec without the file system: split the text into lines, separate the
      test functions from the rest, sort and assemble them. None stands for
      the panic of separateTestAndNonTestContent. The blocks and other lines
      it separates, and the blocks in the order it sorts them into, come out
      as ghost values. */
  method Reorder(text: string, testFuncPos: Positions, order: seq<string>)
    returns (r: Option<string>, ghost blocks: seq<TestFunction>, ghost nonTest: seq<string>,
             ghost sorted: seq<TestFunction>)
    requires Enumerates(order, testFuncPos)
    ensures r.None? <==>
      (exists n :: n in testFuncPos &&
        0 <= testFuncPos[n].0 - 1 < |SplitLines(text)| && testFuncPos[n].1 - 1 >= |SplitLines(text)|)
    ensures r.Some? ==>
      && Separated(SplitLines(text), testFuncPos, blocks, nonTest)
      && SortedByName(sorted) && multiset(sorted) == multiset(blocks)
      && r.value == Render(OutputLines(sorted, nonTest))
    ensures testFuncPos == map[] ==> r == Some(text + "\n")
  {
    var lines := SplitLines(text);
    var separated := SeparateTestAndNonTestContent(lines, testFuncPos, order);
    if separated.None? {
      return None, [], [], [];
    }
    var testFuncList, nonTestLines := separated.value.0, separated.value.1;
    var testFuncs := new TestFunction[|testFuncList|](k requires 0 <= k < |testFuncList| => testFuncList[k]);
    assert testFuncs[..] == testFuncList;
    var output := BuildOutputContent(testFuncs, nonTestLines);
    r, blocks, nonTest, sorted := Some(output), testFuncList, nonTestLines, testFuncs[..];
    if testFuncPos == map[] {
      NoTestFunctions(lines, blocks, nonTest);
      assert |sorted| == |multiset(sorted)| == 0;
      assert OutputLines(sorted, nonTest) == lines + [""];
      JoinAppendEmpty(lines);
      JoinSplit(text);
    }
  }

  const Alpha := TestFunction("Test_alpha", ["func Test_alpha() {", "\t// alpha test", "}"])
  const Beta := TestFunction("Test_beta", ["func Test_beta() {", "\t// beta test", "}"])
  const ExampleNonTest := ["package main", "", "import \"testing\""]

  /** The documented example of BuildOutputContent: Test_beta and Test_alpha,
      given in that order, come out alphabetically after the package and
      import lines and one separator; the text splits into twelve pieces, the
      first "package main". */
  lemma ExampleBuildOutput(sorted: seq<TestFunction>)
    requires SortedByName(sorted) && multiset(sorted) == multiset([Beta, Alpha])
    ensures sorted == [Alpha, Beta]
    ensures var out := SplitLines(Render(OutputLines(sorted, ExampleNonTest)));
      |out| == 12 && out[0] == "package main"
  {
    ExampleSorted(sorted);
    ExampleRendered();
  }

  /** Sorting the example's two functions puts Test_alpha first. */
  lemma ExampleSorted(sorted: seq<TestFunction>)
    requires SortedByName(sorted) && multiset(sorted) == multiset([Beta, Alpha])
    ensures sorted == [Alpha, Beta]
  {
    assert Less(Alpha.name, Beta.name);
    SortedPair(Alpha, Beta, sorted);
  }

  /** Sorting two functions whose names are in order gives them in that order. */
  lemma SortedPair(x: TestFunction, y: TestFunction, sorted: seq<TestFunction>)
    requires Less(x.name, y.name)
    requires SortedByName(sorted) && multiset(sorted) == multiset([y, x])
    ensures sorted == [x, y]
  {
    LessAsymmetric(x.name, y.name);
    LessIrreflexive(x.name);
    assert multiset([x, y]) == multiset([y, x]);
    SortedUnique([x, y], sorted);
  }

  /** The example's output splits into twelve pieces, the first "package main". */
  lemma ExampleRendered()
    ensures var out := SplitLines(Render(OutputLines([Alpha, Beta], ExampleNonTest)));
      |out| == 12 && out[0] == "package main"
  {
    var lines := ExampleNonTest + [""] + Alpha.lines + [""] + Beta.lines;
    ExampleOutputLines(lines);
    ExampleLinesHaveNoNewline(lines);
    RenderSplit(lines);
  }

  /** The lines BuildOutputContent lays out for the example. */
  lemma ExampleOutputLines(lines: seq<string>)
    requires lines == ExampleNonTest + [""] + Alpha.lines + [""] + Beta.lines
    ensures OutputLines([Alpha, Beta], ExampleNonTest) == lines
  {
    Unblank(Alpha.lines[0]);
    Unblank(Beta.lines[0]);
    Unblank(ExampleNonTest[2]);
    assert BlockLines([Alpha]) == Alpha.lines;
    BlockLinesStep([Alpha, Beta], 1);
    assert [Alpha, Beta][..1] == [Alpha];
  }

  lemma ExampleLinesHaveNoNewline(lines: seq<string>)
    requires lines == ExampleNonTest + [""] + Alpha.lines + [""] + Beta.lines
    ensures |lines| == 11 && lines[10] != ""
    ensures forall k :: 0 <= k < |lines| ==> '\n' !in lines[k]
  {
    assert '\n' !in ExampleNonTest[0] && '\n' !in ExampleNonTest[2];
    assert '\n' !in Alpha.lines[0] && '\n' !in Alpha.lines[1] && '\n' !in Alpha.lines[2];
    assert '\n' !in Beta.lines[0] && '\n' !in Beta.lines[1] && '\n' !in Beta.lines[2];
  }

  /** A line whose first character is not whitespace is not blank. */
  lemma Unblank(line: string)
    requires |line| > 0 && !IsSpace(line[0])
    ensures !IsBlank(line)
  {
    TrimSpaceMeaning(line);
  }
}
