/** The extraction engine: turns the position map into start-ordered
    records, marks the lines each test function claims (its leading comments
    and blanks, its body and its trailing blanks), cuts out each function's
    block and keeps every other line in its original order. */
module Extract {
  import opened Boundary
  import opened FuncPositions

  /** The 0-based record for a name of the position map. */
  function EntryOf(pos: Positions, n: string): FuncPos
    requires n in pos
  {
    FuncPos(n, pos[n].0 - 1, pos[n].1 - 1)
  }

  /** The records of the map, in the iteration order `order`. */
  function Entries(pos: Positions, order: seq<string>): seq<FuncPos>
    requires forall k :: 0 <= k < |order| ==> order[k] in pos
  {
    seq(|order|, k requires 0 <= k < |order| => EntryOf(pos, order[k]))
  }

  /** Start lines never decrease along `fs`. */
  predicate SortedByStart(fs: seq<FuncPos>) {
    forall p, q :: 0 <= p < q < |fs| ==> fs[p].startLine <= fs[q].startLine
  }

  /** One pass of the inner loop of createSortedFuncPositions: compare a[i]
      with every later record and swap whenever the later one starts
      earlier, leaving the earliest start at i. */
  method SwapEarliestTo(a: array<FuncPos>, i: int)
    requires 0 <= i < a.Length
    requires forall p, q :: 0 <= p < i && p < q < a.Length ==> a[p].startLine <= a[q].startLine
    modifies a
    ensures forall p, q :: 0 <= p <= i && p < q < a.Length ==> a[p].startLine <= a[q].startLine
    ensures multiset(a[..]) == multiset(old(a[..]))
  {
    var j := i + 1;
    while j < a.Length
      invariant i + 1 <= j <= a.Length
      invariant forall p, q :: 0 <= p < i && p < q < a.Length ==> a[p].startLine <= a[q].startLine
      invariant forall q :: i < q < j ==> a[i].startLine <= a[q].startLine
      invariant multiset(a[..]) == multiset(old(a[..]))
    {
      if a[i].startLine > a[j].startLine {
        a[i], a[j] := a[j], a[i];
      }
      j := j + 1;
    }
  }

  /** The nested exchange loop of createSortedFuncPositions. */
  method SortByStart(a: array<FuncPos>)
    modifies a
    ensures SortedByStart(a[..])
    ensures multiset(a[..]) == multiset(old(a[..]))
  {
    var i := 0;
    while i < a.Length
      invariant 0 <= i <= a.Length
      invariant forall p, q :: 0 <= p < i && p < q < a.Length ==> a[p].startLine <= a[q].startLine
      invariant multiset(a[..]) == multiset(old(a[..]))
    {
      SwapEarliestTo(a, i);
      i := i + 1;
    }
  }

  /** createSortedFuncPositions: one record per map entry, in map iteration
      order, then sorted by start line. */
  method CreateSortedFuncPositions(testFuncPos: Positions, order: seq<string>) returns (sortedFuncs: seq<FuncPos>)
    requires Enumerates(order, testFuncPos)
    ensures SortedByStart(sortedFuncs)
    ensures multiset(sortedFuncs) == multiset(Entries(testFuncPos, order))
  {
    var a := new FuncPos[|order|];
    var k := 0;
    while k < |order|
      invariant 0 <= k <= |order|
      invariant a[..k] == Entries(testFuncPos, order)[..k]
    {
      a[k] := EntryOf(testFuncPos, order[k]);
      k := k + 1;
    }
    assert a[..] == Entries(testFuncPos, order);
    SortByStart(a);
    sortedFuncs := a[..];
  }

  /** Both 0-based lines of the record lie inside the file: the guard of markProcessedLines. */
  predicate InBounds(lines: seq<string>, f: FuncPos) {
    0 <= f.startLine < |lines| && 0 <= f.endLine < |lines|
  }

  /** Line i lies in the span the record claims: from where the upward walk
      stops to where the downward walk over trailing blanks stops. */
  predicate ClaimedBy(lines: seq<string>, f: FuncPos, i: int) {
    InBounds(lines, f) && CommentStart(lines, f.startLine) <= i <= CommentEnd(lines, f.endLine)
  }

  /** Some record of `fs` claims line i. */
  predicate Claimed(lines: seq<string>, fs: seq<FuncPos>, i: int) {
    exists k :: 0 <= k < |fs| && ClaimedBy(lines, fs[k], i)
  }

  lemma ClaimedStep(lines: seq<string>, fs: seq<FuncPos>, idx: int)
    requires 0 <= idx < |fs|
    ensures forall x :: Claimed(lines, fs[..idx + 1], x) <==>
      Claimed(lines, fs[..idx], x) || ClaimedBy(lines, fs[idx], x)
  {
    forall x
      ensures Claimed(lines, fs[..idx + 1], x) <==> Claimed(lines, fs[..idx], x) || ClaimedBy(lines, fs[idx], x)
    {
      if Claimed(lines, fs[..idx + 1], x) {
        var k :| 0 <= k < idx + 1 && ClaimedBy(lines, fs[..idx + 1][k], x);
        if k < idx {
          assert fs[..idx][k] == fs[k];
        }
      }
      if Claimed(lines, fs[..idx], x) {
        var k :| 0 <= k < idx && ClaimedBy(lines, fs[..idx][k], x);
        assert fs[..idx + 1][k] == fs[k];
      }
      if ClaimedBy(lines, fs[idx], x) {
        assert fs[..idx + 1][idx] == fs[idx];
      }
    }
  }

  /** The inner loop of markProcessedLines: mark every line from `from`
      through `to` that lies before line n. */
  method MarkSpan(processed: map<int, bool>, from: int, to: int, n: int) returns (m: map<int, bool>)
    requires 0 <= from
    requires forall x :: x in processed ==> processed[x] && 0 <= x < n
    ensures forall x :: x in m ==> m[x] && 0 <= x < n
    ensures forall x :: x in m <==> x in processed || (from <= x <= to && x < n)
  {
    m := processed;
    var i := from;
    while i <= to && i < n
      invariant from <= i
      invariant i == from || i <= to + 1
      invariant i == from || i <= n
      invariant forall x :: x in m ==> m[x] && 0 <= x < n
      invariant forall x :: x in m <==> x in processed || from <= x < i
    {
      m := m[i := true];
      i := i + 1;
    }
  }

  /** markProcessedLines: for every record inside the file, mark each line
      from its comment start to its comment end. */
  method MarkProcessedLines(lines: seq<string>, sortedFuncs: seq<FuncPos>) returns (processedLines: map<int, bool>)
    ensures forall i :: i in processedLines ==> processedLines[i] && 0 <= i < |lines|
    ensures forall i :: i in processedLines <==> Claimed(lines, sortedFuncs, i)
  {
    processedLines := map[];
    var idx := 0;
    forall x ensures !Claimed(lines, sortedFuncs[..0], x) {
    }
    while idx < |sortedFuncs|
      invariant 0 <= idx <= |sortedFuncs|
      invariant forall x :: x in processedLines ==> processedLines[x] && 0 <= x < |lines|
      invariant forall x :: x in processedLines <==> Claimed(lines, sortedFuncs[..idx], x)
    {
      var funcInfo := sortedFuncs[idx];
      var startLine := funcInfo.startLine;
      var endLine := funcInfo.endLine;
      ghost var before := processedLines;
      if startLine >= 0 && startLine < |lines| && endLine >= 0 && endLine < |lines| {
        var commentStart := FindCommentStart(lines, startLine);
        var commentEnd := FindCommentEnd(lines, endLine);
        processedLines := MarkSpan(processedLines, commentStart, commentEnd, |lines|);
      }
      MarkStep(lines, sortedFuncs, idx, before, processedLines);
      idx := idx + 1;
    }
    assert sortedFuncs[..idx] == sortedFuncs;
  }

  /** One iteration of markProcessedLines: the keys after marking the span
      of record idx are the lines claimed by the first idx + 1 records. */
  lemma MarkStep(lines: seq<string>, fs: seq<FuncPos>, idx: int, before: map<int, bool>, after: map<int, bool>)
    requires 0 <= idx < |fs|
    requires forall x :: x in before <==> Claimed(lines, fs[..idx], x)
    requires InBounds(lines, fs[idx]) ==>
      forall x :: x in after <==>
        (x in before ||
         (CommentStart(lines, fs[idx].startLine) <= x <= CommentEnd(lines, fs[idx].endLine) && x < |lines|))
    requires !InBounds(lines, fs[idx]) ==> after == before
    ensures forall x :: x in after <==> Claimed(lines, fs[..idx + 1], x)
  {
    ClaimedStep(lines, fs, idx);
    forall x
      ensures x in after <==> Claimed(lines, fs[..idx + 1], x)
    {
      if InBounds(lines, fs[idx]) {
        var ce := CommentEnd(lines, fs[idx].endLine);
        assert ce < |lines|;
        assert ClaimedBy(lines, fs[idx], x) <==> CommentStart(lines, fs[idx].startLine) <= x <= ce;
      } else {
        assert !ClaimedBy(lines, fs[idx], x);
      }
    }
  }

  /** Whether the map marks line i; Go reads a missing key as false. */
  predicate Marked(processed: map<int, bool>, i: int) {
    i in processed && processed[i]
  }

  /** The indices below n the map does not mark, in increasing order. */
  function UnmarkedIndices(processed: map<int, bool>, n: int): (ix: seq<int>)
    ensures forall k :: 0 <= k < |ix| ==> 0 <= ix[k] < n
    decreases n
  {
    if n <= 0 then []
    else UnmarkedIndices(processed, n - 1) + (if Marked(processed, n - 1) then [] else [n - 1])
  }

  /** The unmarked indices are increasing, and they are exactly the
      indices below n that the map does not mark. */
  lemma {:induction false} UnmarkedIndicesMeaning(processed: map<int, bool>, n: int)
    ensures var ix := UnmarkedIndices(processed, n);
      && (forall p, q :: 0 <= p < q < |ix| ==> ix[p] < ix[q])
      && (forall i :: i in ix <==> 0 <= i < n && !Marked(processed, i))
    decreases n
  {
    if n > 0 {
      UnmarkedIndicesMeaning(processed, n - 1);
    }
  }

  /** The lines at the indices `ix`, in that order. */
  function Select(lines: seq<string>, ix: seq<int>): seq<string>
    requires forall k :: 0 <= k < |ix| ==> 0 <= ix[k] < |lines|
  {
    seq(|ix|, k requires 0 <= k < |ix| => lines[ix[k]])
  }

  lemma SelectAppend(lines: seq<string>, ix: seq<int>, i: int)
    requires forall k :: 0 <= k < |ix| ==> 0 <= ix[k] < |lines|
    requires 0 <= i < |lines|
    ensures Select(lines, ix + [i]) == Select(lines, ix) + [lines[i]]
  {
  }

  /** A non-empty list of kept lines gets one trailing empty line. */
  function Pad(kept: seq<string>): seq<string> {
    if |kept| > 0 then kept + [""] else kept
  }

  /** collectNonTestLines: every unmarked line in order, then an empty line
      if there was any. */
  method CollectNonTestLines(lines: seq<string>, processedLines: map<int, bool>) returns (nonTestLines: seq<string>)
    ensures nonTestLines == Pad(Select(lines, UnmarkedIndices(processedLines, |lines|)))
  {
    nonTestLines := [];
    for i := 0 to |lines|
      invariant nonTestLines == Select(lines, UnmarkedIndices(processedLines, i))
    {
      if !(i in processedLines && processedLines[i]) {
        SelectAppend(lines, UnmarkedIndices(processedLines, i), i);
        nonTestLines := nonTestLines + [lines[i]];
      }
    }
    if |nonTestLines| > 0 {
      nonTestLines := nonTestLines + [""];
    }
  }

  /** The record extractTestFunctionWithComments reads for a name: the map
      entry, or Go's zero pair [0, 0] for a name the map lacks. */
  function Lookup(pos: Positions, n: string): FuncPos {
    if n in pos then EntryOf(pos, n) else FuncPos(n, -1, -1)
  }

  /** extractTestFunctionWithComments indexes outside `lines`: the upward
      walk starts below the last line, or the copy loop from the comment
      start to the end line reaches a negative or past-the-end index. */
  predicate Panics(lines: seq<string>, f: FuncPos) {
    f.startLine > |lines| ||
    (var c := CommentStart(lines, f.startLine);
     c <= f.endLine && (c < 0 || f.endLine >= |lines|))
  }

  /** The block extracted for a record: the lines from the comment start
      through the end line. */
  function BlockOf(lines: seq<string>, f: FuncPos): TestFunction
    requires !Panics(lines, f)
  {
    var c := CommentStart(lines, f.startLine);
    TestFunction(f.name, if c <= f.endLine then lines[c..f.endLine + 1] else [])
  }

  /** For a record whose start is inside the file, extraction fails exactly
      when its end line is past the last line. */
  lemma PanicsInside(lines: seq<string>, f: FuncPos)
    requires 0 <= f.startLine < |lines|
    ensures Panics(lines, f) <==> f.endLine >= |lines|
  {
  }

  /** A block is the function's maximal run of comment and blank lines
      directly above it, followed by the function's own lines. */
  lemma BlockShape(lines: seq<string>, f: FuncPos)
    requires InBounds(lines, f) && f.startLine <= f.endLine
    ensures !Panics(lines, f)
    ensures var b := BlockOf(lines, f).lines;
      var lead := |b| - (f.endLine - f.startLine + 1);
      0 <= lead && b[lead..] == lines[f.startLine..f.endLine + 1] &&
      (forall k :: 0 <= k < lead ==> IsLeading(b[k])) &&
      (lead < f.startLine ==> !IsLeading(lines[f.startLine - lead - 1]))
  {
    var c := CommentStart(lines, f.startLine);
    var b := BlockOf(lines, f).lines;
    assert b == lines[c..f.endLine + 1];
    assert |b| - (f.endLine - f.startLine + 1) == f.startLine - c;
  }

  /** extractTestFunctionWithComments: look the name up, walk up over its
      comments, and copy the lines from there through its end line. None
      stands for the index-out-of-range panic. */
  method ExtractTestFunctionWithComments(lines: seq<string>, funcName: string, testFuncPos: Positions)
    returns (r: Option<TestFunction>, endLine: int)
    ensures endLine == Lookup(testFuncPos, funcName).endLine
    ensures r.None? <==> Panics(lines, Lookup(testFuncPos, funcName))
    ensures r.Some? ==>
      (!Panics(lines, Lookup(testFuncPos, funcName)) &&
       r.value == BlockOf(lines, Lookup(testFuncPos, funcName)))
  {
    var pos := if funcName in testFuncPos then testFuncPos[funcName] else (0, 0);
    var startLine := pos.0 - 1;
    endLine := pos.1 - 1;
    if startLine > |lines| {
      // findCommentStart would read lines[startLine - 1], past the end
      return None, endLine;
    }
    var commentStart := FindCommentStart(lines, startLine);
    var funcLines := CopyLines(lines, commentStart, endLine);
    if funcLines.None? {
      return None, endLine;
    }
    r := Some(TestFunction(funcName, funcLines.value));
  }

  /** The copy loop of extractTestFunctionWithComments: lines[from..to] one
      by one, None when an index falls outside `lines`. */
  method CopyLines(lines: seq<string>, from: int, to: int) returns (r: Option<seq<string>>)
    ensures r.None? <==> from <= to && (from < 0 || to >= |lines|)
    ensures r.Some? ==> r.value == if from <= to then lines[from..to + 1] else []
  {
    var funcLines: seq<string> := [];
    var i := from;
    while i <= to
      invariant from <= i
      invariant i == from || i <= to + 1
      invariant i == from ==> funcLines == []
      invariant i > from ==> 0 <= from && i <= |lines| && funcLines == lines[from..i]
    {
      if i < 0 || i >= |lines| {
        return None;
      }
      funcLines := funcLines + [lines[i]];
      i := i + 1;
    }
    r := Some(funcLines);
  }

  /** No value occurs twice. */
  predicate Distinct<T(==)>(s: seq<T>) {
    forall p, q :: 0 <= p < q < |s| ==> s[p] != s[q]
  }

  /** The records whose start line is inside the file, in their order:
      those extractAllTestFunctions visits. */
  function Starting(lines: seq<string>, fs: seq<FuncPos>): seq<FuncPos>
    decreases |fs|
  {
    if fs == [] then []
    else
      var last := fs[|fs| - 1];
      Starting(lines, fs[..|fs| - 1]) + (if 0 <= last.startLine < |lines| then [last] else [])
  }

  /** The filter keeps exactly the records that start inside the file. */
  lemma {:induction false} StartingMembers(lines: seq<string>, fs: seq<FuncPos>)
    ensures forall x :: x in Starting(lines, fs) <==> x in fs && 0 <= x.startLine < |lines|
    decreases |fs|
  {
    if fs != [] {
      var init := fs[..|fs| - 1];
      StartingMembers(lines, init);
      assert fs == init + [fs[|fs| - 1]];
    }
  }

  /** Filtering keeps the records in start order. */
  lemma {:induction false} StartingSorted(lines: seq<string>, fs: seq<FuncPos>)
    requires SortedByStart(fs)
    ensures SortedByStart(Starting(lines, fs))
    decreases |fs|
  {
    if fs != [] {
      var init := fs[..|fs| - 1];
      var last := fs[|fs| - 1];
      StartingSorted(lines, init);
      StartingMembers(lines, init);
      var r := Starting(lines, fs);
      var ri := Starting(lines, init);
      forall y | y in ri ensures y.startLine <= last.startLine {
        var k :| 0 <= k < |init| && init[k] == y;
        assert fs[k] == y;
      }
      forall p, q | 0 <= p < q < |r| ensures r[p].startLine <= r[q].startLine {
        if q >= |ri| {
          assert r[p] in ri;
        }
      }
    }
  }

  /** Filtering a list without repeats leaves a list without repeats. */
  lemma {:induction false} StartingDistinct(lines: seq<string>, fs: seq<FuncPos>)
    requires Distinct(fs)
    ensures Distinct(Starting(lines, fs))
    decreases |fs|
  {
    if fs != [] {
      var init := fs[..|fs| - 1];
      var last := fs[|fs| - 1];
      StartingDistinct(lines, init);
      StartingMembers(lines, init);
      assert last !in init;
      var r := Starting(lines, fs);
      var ri := Starting(lines, init);
      forall p, q | 0 <= p < q < |r| ensures r[p] != r[q] {
        if q >= |ri| {
          assert r[p] in ri;
        }
      }
    }
  }

  /** extractAllTestFunctions: extract a block for every record whose start
      line is inside the file, in the records' order. */
  method ExtractAllTestFunctions(lines: seq<string>, sortedFuncs: seq<FuncPos>, testFuncPos: Positions)
    returns (r: Option<seq<TestFunction>>)
    ensures var st := Starting(lines, sortedFuncs);
      r.None? <==> exists k :: 0 <= k < |st| && Panics(lines, Lookup(testFuncPos, st[k].name))
    ensures var st := Starting(lines, sortedFuncs);
      r.Some? ==>
        (|r.value| == |st| &&
         forall k :: 0 <= k < |st| ==>
           (!Panics(lines, Lookup(testFuncPos, st[k].name)) &&
            r.value[k] == BlockOf(lines, Lookup(testFuncPos, st[k].name))))
  {
    var testFuncs: seq<TestFunction> := [];
    for idx := 0 to |sortedFuncs|
      invariant var st := Starting(lines, sortedFuncs[..idx]);
        |testFuncs| == |st| &&
        forall k :: 0 <= k < |st| ==>
          (!Panics(lines, Lookup(testFuncPos, st[k].name)) &&
           testFuncs[k] == BlockOf(lines, Lookup(testFuncPos, st[k].name)))
    {
      var funcInfo := sortedFuncs[idx];
      assert sortedFuncs[..idx + 1][..idx] == sortedFuncs[..idx];
      if 0 <= funcInfo.startLine < |lines| {
        var testFunc, _ := ExtractTestFunctionWithComments(lines, funcInfo.name, testFuncPos);
        if testFunc.None? {
          assert funcInfo in sortedFuncs;
          StartingMembers(lines, sortedFuncs);
          assert funcInfo in Starting(lines, sortedFuncs);
          return None;
        }
        testFuncs := testFuncs + [testFunc.value];
      }
    }
    assert sortedFuncs[..|sortedFuncs|] == sortedFuncs;
    r := Some(testFuncs);
  }

  /** A list without repeats holds each value at most once. */
  lemma {:induction false} DistinctCount<T>(b: seq<T>, x: T)
    requires Distinct(b)
    ensures multiset(b)[x] == if x in b then 1 else 0
    decreases |b|
  {
    if b != [] {
      var init := b[..|b| - 1];
      assert b == init + [b[|b| - 1]];
      DistinctCount(init, x);
      if x == b[|b| - 1] {
        assert x !in init;
      }
    }
  }

  /** A value at two positions occurs at least twice. */
  lemma RepeatCount<T>(a: seq<T>, p: int, q: int)
    requires 0 <= p < q < |a| && a[p] == a[q]
    ensures multiset(a)[a[p]] >= 2
  {
    assert a == a[..q] + [a[q]] + a[q + 1..];
    assert a[p] in a[..q];
  }

  /** Having no repeats survives a permutation. */
  lemma DistinctPermutation<T>(a: seq<T>, b: seq<T>)
    requires multiset(a) == multiset(b) && Distinct(b)
    ensures Distinct(a)
  {
    forall p, q | 0 <= p < q < |a| ensures a[p] != a[q] {
      if a[p] == a[q] {
        RepeatCount(a, p, q);
        DistinctCount(b, a[p]);
      }
    }
  }

  /** The sorted records are exactly the map's entries, once each. */
  lemma SortedRecords(pos: Positions, order: seq<string>, sorted: seq<FuncPos>)
    requires Enumerates(order, pos)
    requires multiset(sorted) == multiset(Entries(pos, order))
    ensures forall x :: x in sorted ==> x.name in pos && x == EntryOf(pos, x.name)
    ensures forall n :: n in pos ==> EntryOf(pos, n) in sorted
    ensures Distinct(sorted)
  {
    var es := Entries(pos, order);
    forall x | x in sorted ensures x.name in pos && x == EntryOf(pos, x.name) {
      assert x in multiset(es);
      var k :| 0 <= k < |es| && es[k] == x;
    }
    forall n | n in pos ensures EntryOf(pos, n) in sorted {
      var k :| 0 <= k < |order| && order[k] == n;
      assert es[k] == EntryOf(pos, n);
      assert EntryOf(pos, n) in multiset(sorted);
    }
    forall p, q | 0 <= p < q < |es| ensures es[p] != es[q] {
      assert es[p].name == order[p] && es[q].name == order[q];
    }
    DistinctPermutation(sorted, es);
  }

  /** The records extraction visits: the map's entries that start inside
      the file, once each and in start order. */
  lemma VisitedRecords(lines: seq<string>, pos: Positions, sorted: seq<FuncPos>)
    requires forall x :: x in sorted ==> x.name in pos && x == EntryOf(pos, x.name)
    requires forall n :: n in pos ==> EntryOf(pos, n) in sorted
    requires Distinct(sorted) && SortedByStart(sorted)
    ensures var st := Starting(lines, sorted);
      && (forall k :: 0 <= k < |st| ==>
            st[k].name in pos && st[k] == EntryOf(pos, st[k].name) && 0 <= st[k].startLine < |lines|)
      && (forall n :: n in pos && 0 <= pos[n].0 - 1 < |lines| ==> EntryOf(pos, n) in st)
      && Distinct(st) && SortedByStart(st)
  {
    StartingMembers(lines, sorted);
    StartingSorted(lines, sorted);
    StartingDistinct(lines, sorted);
  }

  /** Some test function of the map claims line i. */
  predicate ClaimedByMap(lines: seq<string>, pos: Positions, i: int) {
    exists n :: n in pos && ClaimedBy(lines, EntryOf(pos, n), i)
  }

  /** The marks the map's test functions put on the file's lines. */
  function ClaimMap(lines: seq<string>, pos: Positions): map<int, bool> {
    map i | 0 <= i < |lines| && ClaimedByMap(lines, pos, i) :: true
  }

  /** A line is claimed by some sorted record exactly when some function of
      the map claims it. */
  lemma ClaimEquiv(lines: seq<string>, pos: Positions, sorted: seq<FuncPos>, i: int)
    requires forall x :: x in sorted ==> x.name in pos && x == EntryOf(pos, x.name)
    requires forall n :: n in pos ==> EntryOf(pos, n) in sorted
    ensures Claimed(lines, sorted, i) <==> ClaimedByMap(lines, pos, i)
  {
    if Claimed(lines, sorted, i) {
      var k :| 0 <= k < |sorted| && ClaimedBy(lines, sorted[k], i);
      assert sorted[k] in sorted;
      assert ClaimedBy(lines, EntryOf(pos, sorted[k].name), i);
    }
    if ClaimedByMap(lines, pos, i) {
      var n :| n in pos && ClaimedBy(lines, EntryOf(pos, n), i);
      var k :| 0 <= k < |sorted| && sorted[k] == EntryOf(pos, n);
    }
  }

  /** Two maps that mark the same lines below n leave the same lines unmarked. */
  lemma {:induction false} UnmarkedAgree(m1: map<int, bool>, m2: map<int, bool>, n: int)
    requires forall i :: 0 <= i < n ==> (Marked(m1, i) <==> Marked(m2, i))
    ensures UnmarkedIndices(m1, n) == UnmarkedIndices(m2, n)
    decreases n
  {
    if n > 0 {
      UnmarkedAgree(m1, m2, n - 1);
    }
  }

  /** Marking the sorted records leaves unmarked exactly the lines no
      function of the map claims. */
  lemma MarksAreClaims(lines: seq<string>, pos: Positions, sorted: seq<FuncPos>, processed: map<int, bool>)
    requires forall x :: x in sorted ==> x.name in pos && x == EntryOf(pos, x.name)
    requires forall n :: n in pos ==> EntryOf(pos, n) in sorted
    requires forall i :: i in processed ==> processed[i] && 0 <= i < |lines|
    requires forall i :: i in processed <==> Claimed(lines, sorted, i)
    ensures UnmarkedIndices(processed, |lines|) == UnmarkedIndices(ClaimMap(lines, pos), |lines|)
  {
    var cm := ClaimMap(lines, pos);
    forall i | 0 <= i < |lines| ensures Marked(processed, i) <==> Marked(cm, i) {
      ClaimEquiv(lines, pos, sorted, i);
    }
    UnmarkedAgree(processed, cm, |lines|);
  }

  /** What separateTestAndNonTestContent promises when it does not panic:
      one block per test function starting inside the file, under its own
      name and in start order, each the lines from its comment start through
      its end line; the other lines are every line no function claims, in
      file order, followed by one empty line. */
  predicate Separated(lines: seq<string>, pos: Positions, blocks: seq<TestFunction>, nonTest: seq<string>) {
    && (forall k :: 0 <= k < |blocks| ==>
          && blocks[k].name in pos
          && 0 <= pos[blocks[k].name].0 - 1 < |lines|
          && !Panics(lines, EntryOf(pos, blocks[k].name))
          && blocks[k] == BlockOf(lines, EntryOf(pos, blocks[k].name)))
    && (forall n :: n in pos && 0 <= pos[n].0 - 1 < |lines| ==>
          exists k :: 0 <= k < |blocks| && blocks[k].name == n)
    && (forall p, q :: 0 <= p < q < |blocks| ==>
          blocks[p].name != blocks[q].name && pos[blocks[p].name].0 <= pos[blocks[q].name].0)
    && nonTest == Pad(Select(lines, UnmarkedIndices(ClaimMap(lines, pos), |lines|)))
  }

  /** separateTestAndNonTestContent, with the map's iteration order made
      explicit. None stands for the panic on a test function that starts
      inside the file but ends past its last line. */
  method SeparateTestAndNonTestContent(lines: seq<string>, testFuncPos: Positions, order: seq<string>)
    returns (r: Option<(seq<TestFunction>, seq<string>)>)
    requires Enumerates(order, testFuncPos)
    ensures r.None? <==>
      exists n :: n in testFuncPos && 0 <= testFuncPos[n].0 - 1 < |lines| && testFuncPos[n].1 - 1 >= |lines|
    ensures r.Some? ==> Separated(lines, testFuncPos, r.value.0, r.value.1)
  {
    var sortedFuncs := CreateSortedFuncPositions(testFuncPos, order);
    SortedRecords(testFuncPos, order, sortedFuncs);
    VisitedRecords(lines, testFuncPos, sortedFuncs);
    var st := Starting(lines, sortedFuncs);
    var processedLines := MarkProcessedLines(lines, sortedFuncs);
    var testFuncs := ExtractAllTestFunctions(lines, sortedFuncs, testFuncPos);
    if testFuncs.None? {
      var k :| 0 <= k < |st| && Panics(lines, Lookup(testFuncPos, st[k].name));
      PanicsInside(lines, st[k]);
      assert st[k].name in testFuncPos;
      return None;
    }
    forall n | n in testFuncPos && 0 <= testFuncPos[n].0 - 1 < |lines|
      ensures testFuncPos[n].1 - 1 < |lines|
    {
      var k :| 0 <= k < |st| && st[k] == EntryOf(testFuncPos, n);
      PanicsInside(lines, st[k]);
    }
    var nonTestLines := CollectNonTestLines(lines, processedLines);
    MarksAreClaims(lines, testFuncPos, sortedFuncs, processedLines);
    var blocks := testFuncs.value;
    assert forall k :: 0 <= k < |st| ==> blocks[k].name == st[k].name;
    forall n | n in testFuncPos && 0 <= testFuncPos[n].0 - 1 < |lines|
      ensures exists k :: 0 <= k < |blocks| && blocks[k].name == n
    {
      var k :| 0 <= k < |st| && st[k] == EntryOf(testFuncPos, n);
      assert blocks[k].name == n;
    }
    r := Some((blocks, nonTestLines));
  }

  /** Line i of the file appears in the block extracted for `f`, at its
      offset from the comment start. */
  predicate InBlock(lines: seq<string>, f: FuncPos, i: int)
    requires 0 <= i < |lines|
  {
    !Panics(lines, f) &&
    var c := CommentStart(lines, f.startLine);
    var b := BlockOf(lines, f).lines;
    0 <= i - c < |b| && b[i - c] == lines[i]
  }

  /** A non-blank line a record claims appears in the record's block. */
  lemma ClaimedLineInBlock(lines: seq<string>, f: FuncPos, i: int)
    requires 0 <= i < |lines| && !IsBlank(lines[i]) && ClaimedBy(lines, f, i)
    ensures InBlock(lines, f, i)
  {
    var c := CommentStart(lines, f.startLine);
    assert i <= f.endLine;
    assert BlockOf(lines, f).lines == lines[c..f.endLine + 1];
  }

  /** No line with content is lost: a non-blank line some test function
      claims appears in that function's extracted block. Only trailing blank
      lines are dropped. */
  lemma NoContentLost(lines: seq<string>, pos: Positions, i: int)
    requires 0 <= i < |lines| && !IsBlank(lines[i]) && ClaimedByMap(lines, pos, i)
    ensures exists n :: n in pos && InBounds(lines, EntryOf(pos, n)) && InBlock(lines, EntryOf(pos, n), i)
  {
    var n :| n in pos && ClaimedBy(lines, EntryOf(pos, n), i);
    ClaimedLineInBlock(lines, EntryOf(pos, n), i);
  }

  /** Conversely, a line shown in a function's block is claimed by that
      function, so it is marked and never kept among the other lines: the two
      parts do not overlap. */
  lemma BlockLineClaimed(lines: seq<string>, pos: Positions, n: string, i: int)
    requires n in pos && pos[n].0 - 1 < |lines| && 0 <= i < |lines|
    requires InBlock(lines, EntryOf(pos, n), i)
    ensures ClaimedByMap(lines, pos, i)
    ensures i !in UnmarkedIndices(ClaimMap(lines, pos), |lines|)
  {
    assert ClaimedBy(lines, EntryOf(pos, n), i);
    UnmarkedIndicesMeaning(ClaimMap(lines, pos), |lines|);
  }

  /** A file with two test functions, one with a comment, around a regular function. */
  const ExampleLines: seq<string> :=
    ["package main", "", "import \"testing\"", "",
     "// Comment for Test_alpha", "func Test_alpha(t *testing.T) {", "\t// test body", "}",
     "", "func regularFunc() {", "\t// regular function", "}", "",
     "func Test_beta(t *testing.T) {", "\t// another test", "}"]

  const ExamplePositions: Positions := map["Test_alpha" := (6, 8), "Test_beta" := (14, 16)]

  /** Test_alpha claims lines 3 to 8, its comment and the blank lines around
      it; Test_beta claims lines 12 to 15. */
  lemma ExampleSpans()
    ensures CommentStart(ExampleLines, 5) == 3 && CommentEnd(ExampleLines, 7) == 8
    ensures CommentStart(ExampleLines, 13) == 12 && CommentEnd(ExampleLines, 15) == 15
  {
    assert IsLeading(ExampleLines[4]) && IsLeading(ExampleLines[3]) && !IsLeading(ExampleLines[2]);
    assert IsBlank(ExampleLines[8]) && !IsBlank(ExampleLines[9]);
    assert IsLeading(ExampleLines[12]) && !IsLeading(ExampleLines[11]);
  }

  /** The claims of the example: lines 3 to 8 and 12 to 15. */
  lemma ExampleMarks()
    ensures forall i :: 0 <= i < |ExampleLines| ==>
      (Marked(ClaimMap(ExampleLines, ExamplePositions), i) <==> (3 <= i <= 8 || 12 <= i <= 15))
  {
    ExampleSpans();
    forall i | 0 <= i < |ExampleLines|
      ensures ClaimedByMap(ExampleLines, ExamplePositions, i) <==> (3 <= i <= 8 || 12 <= i <= 15)
    {
      ExampleClaim(i);
    }
  }

  /** Line i is claimed by the example's map when one of its two functions claims it. */
  lemma ExampleClaim(i: int)
    requires 0 <= i < |ExampleLines|
    requires CommentStart(ExampleLines, 5) == 3 && CommentEnd(ExampleLines, 7) == 8
    requires CommentStart(ExampleLines, 13) == 12 && CommentEnd(ExampleLines, 15) == 15
    ensures ClaimedByMap(ExampleLines, ExamplePositions, i) <==> (3 <= i <= 8 || 12 <= i <= 15)
  {
    var alpha := EntryOf(ExamplePositions, "Test_alpha");
    var beta := EntryOf(ExamplePositions, "Test_beta");
    assert ClaimedByMap(ExampleLines, ExamplePositions, i) <==>
      ClaimedBy(ExampleLines, alpha, i) || ClaimedBy(ExampleLines, beta, i);
  }

  /** A map marking lines 3 to 8 and 12 to 15 of sixteen leaves 0, 1, 2, 9, 10, 11. */
  lemma ExampleUnmarked(cm: map<int, bool>)
    requires forall i :: 0 <= i < 16 ==> (Marked(cm, i) <==> (3 <= i <= 8 || 12 <= i <= 15))
    ensures UnmarkedIndices(cm, 16) == [0, 1, 2, 9, 10, 11]
  {
    assert UnmarkedIndices(cm, 1) == [0];
    assert UnmarkedIndices(cm, 2) == [0, 1];
    assert UnmarkedIndices(cm, 3) == [0, 1, 2];
    assert UnmarkedIndices(cm, 4) == [0, 1, 2];
    assert UnmarkedIndices(cm, 5) == [0, 1, 2];
    assert UnmarkedIndices(cm, 6) == [0, 1, 2];
    assert UnmarkedIndices(cm, 7) == [0, 1, 2];
    assert UnmarkedIndices(cm, 8) == [0, 1, 2];
    assert UnmarkedIndices(cm, 9) == [0, 1, 2];
    assert UnmarkedIndices(cm, 10) == [0, 1, 2, 9];
    assert UnmarkedIndices(cm, 11) == [0, 1, 2, 9, 10];
    assert UnmarkedIndices(cm, 12) == [0, 1, 2, 9, 10, 11];
    assert UnmarkedIndices(cm, 13) == [0, 1, 2, 9, 10, 11];
    assert UnmarkedIndices(cm, 14) == [0, 1, 2, 9, 10, 11];
    assert UnmarkedIndices(cm, 15) == [0, 1, 2, 9, 10, 11];
  }

  /** The blocks the golden test expects. */
  const ExampleBlocks: seq<TestFunction> :=
    [TestFunction("Test_alpha", ["", "// Comment for Test_alpha", "func Test_alpha(t *testing.T) {", "\t// test body", "}"]),
     TestFunction("Test_beta", ["", "func Test_beta(t *testing.T) {", "\t// another test", "}"])]

  /** Each expected block is what extraction cuts out for its function. */
  lemma ExampleBlocksCut()
    ensures !Panics(ExampleLines, EntryOf(ExamplePositions, "Test_alpha"))
    ensures BlockOf(ExampleLines, EntryOf(ExamplePositions, "Test_alpha")) == ExampleBlocks[0]
    ensures !Panics(ExampleLines, EntryOf(ExamplePositions, "Test_beta"))
    ensures BlockOf(ExampleLines, EntryOf(ExamplePositions, "Test_beta")) == ExampleBlocks[1]
  {
    ExampleAlphaCut();
    ExampleBetaCut();
  }

  /** Test_alpha's block is lines 3 to 7. */
  lemma ExampleAlphaCut()
    ensures !Panics(ExampleLines, EntryOf(ExamplePositions, "Test_alpha"))
    ensures BlockOf(ExampleLines, EntryOf(ExamplePositions, "Test_alpha")) == ExampleBlocks[0]
  {
    ExampleSpans();
    assert BlockOf(ExampleLines, EntryOf(ExamplePositions, "Test_alpha")).lines == ExampleLines[3..8];
  }

  /** Test_beta's block is lines 12 to 15. */
  lemma ExampleBetaCut()
    ensures !Panics(ExampleLines, EntryOf(ExamplePositions, "Test_beta"))
    ensures BlockOf(ExampleLines, EntryOf(ExamplePositions, "Test_beta")) == ExampleBlocks[1]
  {
    ExampleSpans();
    assert BlockOf(ExampleLines, EntryOf(ExamplePositions, "Test_beta")).lines == ExampleLines[12..16];
  }

  /** The kept lines of the example. */
  lemma ExampleKept()
    ensures Pad(Select(ExampleLines, UnmarkedIndices(ClaimMap(ExampleLines, ExamplePositions), |ExampleLines|))) ==
      ["package main", "", "import \"testing\"", "func regularFunc() {", "\t// regular function", "}", ""]
  {
    var cm := ClaimMap(ExampleLines, ExamplePositions);
    ExampleMarks();
    ExampleUnmarked(cm);
    ExampleSelected();
  }

  /** The lines of the example at the indices left unmarked. */
  lemma ExampleSelected()
    ensures Select(ExampleLines, [0, 1, 2, 9, 10, 11]) ==
      ["package main", "", "import \"testing\"", "func regularFunc() {", "\t// regular function", "}"]
  {
  }

  /** The expected blocks carry the map's names, start inside the file and
      are the blocks extraction cuts. */
  lemma ExampleBlocksFit()
    ensures forall k :: 0 <= k < |ExampleBlocks| ==>
      && ExampleBlocks[k].name in ExamplePositions
      && 0 <= ExamplePositions[ExampleBlocks[k].name].0 - 1 < |ExampleLines|
      && !Panics(ExampleLines, EntryOf(ExamplePositions, ExampleBlocks[k].name))
      && ExampleBlocks[k] == BlockOf(ExampleLines, EntryOf(ExamplePositions, ExampleBlocks[k].name))
  {
    ExampleBlocksCut();
    forall k | 0 <= k < |ExampleBlocks|
      ensures ExampleBlocks[k].name == if k == 0 then "Test_alpha" else "Test_beta"
    {
    }
  }

  /** The expected blocks have different names, in start order, and cover
      every name of the map. */
  lemma ExampleNames()
    ensures forall p, q :: 0 <= p < q < |ExampleBlocks| ==>
      ExampleBlocks[p].name != ExampleBlocks[q].name &&
      ExamplePositions[ExampleBlocks[p].name].0 <= ExamplePositions[ExampleBlocks[q].name].0
    ensures forall n :: n in ExamplePositions && 0 <= ExamplePositions[n].0 - 1 < |ExampleLines| ==>
      exists k :: 0 <= k < |ExampleBlocks| && ExampleBlocks[k].name == n
  {
    var pos, blocks := ExamplePositions, ExampleBlocks;
    assert blocks[0].name == "Test_alpha" && blocks[1].name == "Test_beta";
    assert blocks[0].name[5] != blocks[1].name[5];
    forall n | n in pos
      ensures exists k :: 0 <= k < |blocks| && blocks[k].name == n
    {
      if n == "Test_alpha" {
        assert blocks[0].name == n;
      } else {
        assert blocks[1].name == n;
      }
    }
  }

  /** The separation of the example file: Test_alpha's block starts at the
      blank line above its comment, Test_beta's at the blank line above it,
      the blank line after Test_alpha is dropped, and the other lines are
      kept in order with an empty line added. */
  lemma SeparateExample()
    ensures Separated(ExampleLines, ExamplePositions, ExampleBlocks,
      ["package main", "", "import \"testing\"", "func regularFunc() {", "\t// regular function", "}", ""])
  {
    ExampleBlocksFit();
    ExampleNames();
    ExampleKept();
  }
}
