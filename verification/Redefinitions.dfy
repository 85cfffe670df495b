/**
 * The warnings of a document about functions defined twice, line by line: what an index of chunks
 * reports, and when that is what reading the document afresh reports.
 */
module Redefinitions {
  import opened SymbolIndex

  // ---- Lines ----

  /** The function that line number n defines. */
  function DefinedAt(rules: Rules, all: seq<Line>, n: int): Option<string>
    requires 1 <= n <= |all|
  {
    var f := rules.find(all[n - 1]);
    if f.Some? && f.value.kind == Function then Some(f.value.name) else None
  }

  /** The last line from first on and before n that defines the function, or 0. */
  function LastBefore(rules: Rules, all: seq<Line>, first: int, n: int, name: string): int
    requires 1 <= first && n <= |all| + 1
    decreases n - first
  {
    if n <= first then 0
    else if DefinedAt(rules, all, n - 1) == Some(name) then n - 1
    else LastBefore(rules, all, first, n - 1, name)
  }

  /** What is reported at line n when its chunk starts at line first and has been moved by shift since it was read. */
  function ReportAt(rules: Rules, all: seq<Line>, n: int, first: int, shift: int): seq<Diagnostic>
    requires 1 <= n <= |all| && 1 <= first
  {
    var d := DefinedAt(rules, all, n);
    if d.None? || LastBefore(rules, all, first, n, d.value) == 0 then []
    else [Diagnostic(NodeToRange(NodeOf(rules.find(all[n - 1]).value, n)), d.value, LastBefore(rules, all, first, n, d.value) - shift)]
  }

  lemma {:induction false} LastBeforeFrom(rules: Rules, all: seq<Line>, first: int, n: int, name: string)
    requires 1 <= first && n <= |all| + 1
    ensures var p := LastBefore(rules, all, 1, n, name); LastBefore(rules, all, first, n, name) == if p >= first then p else 0
    decreases n
  {
    if n > first { LastBeforeFrom(rules, all, first, n - 1, name); } else { LastBeforeBelow(rules, all, 1, n, name); }
  }

  lemma {:induction false} LastBeforeBelow(rules: Rules, all: seq<Line>, first: int, n: int, name: string)
    requires 1 <= first && n <= |all| + 1
    ensures LastBefore(rules, all, first, n, name) == 0 || first <= LastBefore(rules, all, first, n, name) < n
    decreases n - first
  {
    if n > first { LastBeforeBelow(rules, all, first, n - 1, name); }
  }

  // ---- Reports of one chunk ----

  function Reports(rules: Rules, all: seq<Line>, lo: int, hi: int, first: int, shift: int): seq<Diagnostic>
    requires 1 <= first <= lo && hi <= |all|
    decreases hi - lo
  {
    if hi < lo then [] else ReportAt(rules, all, lo, first, shift) + Reports(rules, all, lo + 1, hi, first, shift)
  }

  /** The dictionary of an analysis that has come from line first up to line n. */
  ghost predicate Remembers(rules: Rules, all: seq<Line>, first: int, n: int, defined: map<string, int>)
    requires 1 <= first && n <= |all| + 1
  {
    forall name :: LastBefore(rules, all, first, n, name) == if name in defined then defined[name] else 0
  }

  lemma {:induction false} AnalysisReports(rules: Rules, all: seq<Line>, first: int, lo: int, hi: int, defined: map<string, int>)
    requires 1 <= first <= lo <= hi + 1 <= |all| + 1 && Remembers(rules, all, first, lo, defined)
    requires forall name | name in defined :: defined[name] >= 1
    ensures DiagnosticsOf(rules, all[lo - 1..hi], lo, defined) == Reports(rules, all, lo, hi, first, 0)
    decreases hi - lo
  {
    if lo <= hi {
      var lines := all[lo - 1..hi];
      assert lines[0] == all[lo - 1] && lines[1..] == all[lo..hi];
      var d := DefinedAt(rules, all, lo);
      var now := if d.Some? then defined[d.value := lo] else defined;
      assert Remembers(rules, all, first, lo + 1, now);
      AnalysisReports(rules, all, first, lo + 1, hi, now);
    }
  }

  lemma NothingRemembered(rules: Rules, all: seq<Line>, first: int)
    requires 1 <= first <= |all| + 1
    ensures Remembers(rules, all, first, first, map[])
  {}

  /** The chunk was read when it stood shift lines higher. */
  predicate ReadAbove(rules: Rules, c: Chunk, shift: int) {
    c.startLine - shift >= 1 && c.diagnostics == ShiftDiagnostics(DiagnosticsOf(rules, c.lines, c.startLine - shift, map[]), shift)
  }

  lemma {:induction false} ReportsShift(rules: Rules, all: seq<Line>, lo: int, hi: int, first: int, shift: int)
    requires 1 <= first <= lo && hi <= |all|
    ensures var here := Reports(rules, all, lo, hi, first, 0);
            Reports(rules, all, lo, hi, first, shift)
            == seq(|here|, i requires 0 <= i < |here| => here[i].(firstLine := here[i].firstLine - shift))
    decreases hi - lo
  {
    hide LastBefore, DefinedAt;
    if lo <= hi { ReportsShift(rules, all, lo + 1, hi, first, shift); }
  }

  lemma ChunkReports(rules: Rules, all: seq<Line>, c: Chunk, shift: int)
    requires ChunkOk(rules, all, c) && ReadAbove(rules, c, shift)
    ensures c.diagnostics == Reports(rules, all, c.startLine, c.endLine, c.startLine, shift)
  {
    hide DiagnosticsOf, Reports, NodesOf, SymbolsOf;
    NothingRemembered(rules, all, c.startLine);
    AnalysisReports(rules, all, c.startLine, c.startLine, c.endLine, map[]);
    ReportsShift(rules, all, c.startLine, c.endLine, c.startLine, shift);
    DiagnosticsShift(rules, c.lines, c.startLine - shift, map[], shift);
    assert ShiftLines(map[], shift) == map[];
  }

  // ---- Reports of a document ----

  /** The chunk that line n belongs to. */
  function HomeOf(chunks: seq<Chunk>, n: int): (k: nat)
    requires chunks != []
    ensures k < |chunks|
  {
    if |chunks| == 1 || chunks[|chunks| - 1].startLine <= n then |chunks| - 1 else HomeOf(chunks[..|chunks| - 1], n)
  }

  /** An index that tiles the document, each of whose chunks was read when it stood so many lines higher. */
  ghost predicate Indexed(rules: Rules, all: seq<Line>, chunks: seq<Chunk>, moved: seq<int>) {
    && Tiles(rules, all, chunks) && |moved| == |chunks|
    && forall k | 0 <= k < |chunks| :: ReadAbove(rules, chunks[k], moved[k])
  }

  /** What the index reports at line n. */
  ghost function IndexReports(rules: Rules, all: seq<Line>, chunks: seq<Chunk>, moved: seq<int>, n: int): seq<Diagnostic>
    requires Indexed(rules, all, chunks, moved) && 1 <= n <= |all|
  {
    NonEmpty(rules, all, chunks);
    var k := HomeOf(chunks, n);
    assert ChunkOk(rules, all, chunks[k]);
    ReportAt(rules, all, n, chunks[k].startLine, moved[k])
  }

  lemma NonEmpty(rules: Rules, all: seq<Line>, chunks: seq<Chunk>)
    requires Tiles(rules, all, chunks) && all != []
    ensures chunks != []
  {}

  ghost function Rows(rules: Rules, all: seq<Line>, chunks: seq<Chunk>, moved: seq<int>): (rows: seq<seq<Diagnostic>>)
    requires Indexed(rules, all, chunks, moved)
    ensures |rows| == |all|
  {
    seq(|all|, i requires 0 <= i < |all| => IndexReports(rules, all, chunks, moved, i + 1))
  }

  function Concat(rows: seq<seq<Diagnostic>>): seq<Diagnostic> {
    if rows == [] then [] else Concat(rows[..|rows| - 1]) + rows[|rows| - 1]
  }

  lemma {:induction false} HomeIs(rules: Rules, all: seq<Line>, chunks: seq<Chunk>, k: nat, n: int)
    requires Tiles(rules, all, chunks) && k < |chunks| && chunks[k].startLine <= n <= chunks[k].endLine
    ensures HomeOf(chunks, n) == k
  {
    hide Tiles, ChunkOk;
    forall j | k < j < |chunks| ensures chunks[j].startLine > n { LinesOrdered(rules, all, chunks, k, j); }
    HomeFound(chunks, k, n);
  }

  lemma {:induction false} HomeFound(chunks: seq<Chunk>, k: nat, n: int)
    requires k < |chunks| && chunks[k].startLine <= n && forall j | k < j < |chunks| :: chunks[j].startLine > n
    ensures HomeOf(chunks, n) == k
    decreases |chunks|
  {
    if k < |chunks| - 1 { HomeFound(chunks[..|chunks| - 1], k, n); }
  }

  /** The rows of lines lo up to hi are the reports of one chunk. */
  ghost predicate RowsOf(rules: Rules, all: seq<Line>, rows: seq<seq<Diagnostic>>, lo: int, hi: int, first: int, shift: int)
    requires 1 <= first <= lo && hi <= |rows| == |all|
  {
    forall i | lo - 1 <= i < hi :: rows[i] == ReportAt(rules, all, i + 1, first, shift)
  }

  lemma {:induction false} ConcatRows(rules: Rules, all: seq<Line>, rows: seq<seq<Diagnostic>>, lo: int, hi: int, first: int, shift: int)
    requires 1 <= first <= lo <= hi + 1 && hi <= |rows| == |all| && RowsOf(rules, all, rows, lo, hi, first, shift)
    ensures Concat(rows[..hi]) == Concat(rows[..lo - 1]) + Reports(rules, all, lo, hi, first, shift)
    decreases hi - lo
  {
    hide ReportAt;
    if lo <= hi {
      assert rows[..lo][..lo - 1] == rows[..lo - 1] && rows[..lo][lo - 1] == rows[lo - 1];
      ConcatRows(rules, all, rows, lo + 1, hi, first, shift);
      assert Concat(rows[..lo]) == Concat(rows[..lo - 1]) + ReportAt(rules, all, lo, first, shift);
    }
  }

  lemma ChunkRows(rules: Rules, all: seq<Line>, chunks: seq<Chunk>, moved: seq<int>, k: nat)
    requires Indexed(rules, all, chunks, moved) && k < |chunks|
    ensures var c := chunks[k];
            && 1 <= c.startLine <= c.endLine + 1 <= |all| + 1
            && RowsOf(rules, all, Rows(rules, all, chunks, moved), c.startLine, c.endLine, c.startLine, moved[k])
  {
    hide Tiles, ReadAbove, ReportAt, HomeOf;
    TileFacts(rules, all, chunks, k);
    forall i | chunks[k].startLine - 1 <= i < chunks[k].endLine
      ensures Rows(rules, all, chunks, moved)[i] == ReportAt(rules, all, i + 1, chunks[k].startLine, moved[k])
    {
      HomeIs(rules, all, chunks, k, i + 1);
    }
  }

  /** The chunks' warnings, put together, are the reports of the lines. */
  lemma {:induction false} IndexIsRows(rules: Rules, all: seq<Line>, chunks: seq<Chunk>, moved: seq<int>, k: nat)
    requires Indexed(rules, all, chunks, moved) && k <= |chunks|
    ensures 0 <= NextLine(chunks, k) - 1 <= |all|
    ensures AllDiagnostics(chunks[..k]) == Concat(Rows(rules, all, chunks, moved)[..NextLine(chunks, k) - 1])
    decreases k
  {
    hide Indexed, AllDiagnostics, Concat, Rows;
    if k == 0 {
      assert chunks[..0] == [] && Rows(rules, all, chunks, moved)[..0] == [];
      NothingWarned();
    } else {
      IndexIsRows(rules, all, chunks, moved, k - 1);
      OneMoreChunk(rules, all, chunks, moved, k - 1);
    }
  }

  lemma NothingWarned()
    ensures AllDiagnostics([]) == [] && Concat([]) == []
  {}

  lemma OneMoreChunk(rules: Rules, all: seq<Line>, chunks: seq<Chunk>, moved: seq<int>, k: nat)
    requires Indexed(rules, all, chunks, moved) && k < |chunks| && 0 <= NextLine(chunks, k) - 1 <= |all|
    requires AllDiagnostics(chunks[..k]) == Concat(Rows(rules, all, chunks, moved)[..NextLine(chunks, k) - 1])
    ensures 0 <= NextLine(chunks, k + 1) - 1 <= |all|
    ensures AllDiagnostics(chunks[..k + 1]) == Concat(Rows(rules, all, chunks, moved)[..NextLine(chunks, k + 1) - 1])
  {
    hide Tiles, ChunkOk, ReadAbove, Rows, RowsOf, Reports, ReportAt, AllDiagnostics, Concat;
    TileFacts(rules, all, chunks, k);
    var c, rows := chunks[k], Rows(rules, all, chunks, moved);
    ChunkSpan(rules, all, c);
    ChunkReports(rules, all, c, moved[k]);
    ChunkRows(rules, all, chunks, moved, k);
    ConcatRows(rules, all, rows, c.startLine, c.endLine, c.startLine, moved[k]);
    LastWarned(chunks, k);
  }

  lemma LastWarned(chunks: seq<Chunk>, k: nat)
    requires k < |chunks|
    ensures AllDiagnostics(chunks[..k + 1]) == AllDiagnostics(chunks[..k]) + chunks[k].diagnostics
  {
    assert chunks[..k + 1][..k] == chunks[..k] && chunks[..k + 1][k] == chunks[k];
  }

  lemma ChunkSpan(rules: Rules, all: seq<Line>, c: Chunk)
    requires ChunkOk(rules, all, c)
    ensures 1 <= c.startLine <= c.endLine + 1 <= |all| + 1
  {}

  lemma WholeIndex(rules: Rules, all: seq<Line>, chunks: seq<Chunk>, moved: seq<int>)
    requires Indexed(rules, all, chunks, moved)
    ensures AllDiagnostics(chunks) == Concat(Rows(rules, all, chunks, moved))
  {
    hide Tiles, AllDiagnostics, Concat, ReadAbove, Rows;
    IndexIsRows(rules, all, chunks, moved, |chunks|);
    WholeDocument(rules, all, chunks);
    assert chunks[..|chunks|] == chunks;
    assert Rows(rules, all, chunks, moved)[..|all|] == Rows(rules, all, chunks, moved);
  }

  // ---- Two indexes of one document ----

  /** Each row holds at most one warning, at its own line. */
  predicate OneEach(rows: seq<seq<Diagnostic>>) {
    forall i | 0 <= i < |rows| :: |rows[i]| <= 1 && (rows[i] != [] ==> rows[i][0].range.startLine == i)
  }

  lemma {:induction false} ConcatBelow(rows: seq<seq<Diagnostic>>)
    requires OneEach(rows)
    ensures forall d | d in Concat(rows) :: d.range.startLine < |rows|
    decreases |rows|
  {
    if rows != [] { ConcatBelow(rows[..|rows| - 1]); }
  }

  lemma {:induction false} ConcatApart(xs: seq<seq<Diagnostic>>, ys: seq<seq<Diagnostic>>)
    requires OneEach(xs) && OneEach(ys) && |xs| == |ys| && Concat(xs) == Concat(ys)
    ensures xs == ys
    decreases |xs|
  {
    if xs != [] {
      var n := |xs| - 1;
      ConcatBelow(xs[..n]);
      ConcatBelow(ys[..n]);
      SameEnd(Concat(xs[..n]), xs[n], Concat(ys[..n]), ys[n], n);
      ConcatApart(xs[..n], ys[..n]);
      assert xs == xs[..n] + [xs[n]] && ys == ys[..n] + [ys[n]];
    }
  }

  lemma SameEnd(a: seq<Diagnostic>, x: seq<Diagnostic>, b: seq<Diagnostic>, y: seq<Diagnostic>, n: int)
    requires (forall d | d in a :: d.range.startLine < n) && (forall d | d in b :: d.range.startLine < n) && a + x == b + y
    requires |x| <= 1 && |y| <= 1 && (x != [] ==> x[0].range.startLine == n) && (y != [] ==> y[0].range.startLine == n)
    ensures a == b && x == y
  {
    LastTells(a, x, n);
    LastTells(b, y, n);
    var all := a + x;
    assert all[..|a|] == a && all[|a|..] == x;
    assert (b + y)[..|b|] == b && (b + y)[|b|..] == y;
  }

  lemma LastTells(a: seq<Diagnostic>, x: seq<Diagnostic>, n: int)
    requires (forall d | d in a :: d.range.startLine < n) && |x| <= 1 && (x != [] ==> x[0].range.startLine == n)
    ensures x == [] <==> a + x == [] || (a + x)[|a + x| - 1].range.startLine < n
  {}

  lemma RowsAreOneEach(rules: Rules, all: seq<Line>, chunks: seq<Chunk>, moved: seq<int>)
    requires Indexed(rules, all, chunks, moved)
    ensures OneEach(Rows(rules, all, chunks, moved))
  {
    hide Tiles, ReadAbove, LastBefore, HomeOf;
  }

  /**
   * At line n, both indexes see the same: the last definition of the same function stands in the line's
   * own chunk in both or in neither, and if it does, the first index has not moved that chunk since it
   * was read.
   */
  ghost predicate SameReport(rules: Rules, all: seq<Line>, chunks: seq<Chunk>, moved: seq<int>, others: seq<Chunk>, n: int)
    requires 1 <= n <= |all| && |moved| == |chunks| && chunks != [] && others != []
  {
    var d := DefinedAt(rules, all, n);
    d.Some? ==>
      var p, k := LastBefore(rules, all, 1, n, d.value), HomeOf(chunks, n);
      p > 0 ==>
        && (p >= chunks[k].startLine <==> p >= others[HomeOf(others, n)].startLine)
        && (p >= chunks[k].startLine ==> moved[k] == 0)
  }

  lemma ReportsAgree(rules: Rules, all: seq<Line>, chunks: seq<Chunk>, moved: seq<int>, others: seq<Chunk>, still: seq<int>, n: int)
    requires Indexed(rules, all, chunks, moved) && Indexed(rules, all, others, still) && 1 <= n <= |all| && chunks != [] && others != []
    requires forall k | 0 <= k < |still| :: still[k] == 0
    ensures IndexReports(rules, all, chunks, moved, n) == IndexReports(rules, all, others, still, n)
            <==> SameReport(rules, all, chunks, moved, others, n)
  {
    hide Tiles, ReadAbove, HomeOf, LastBefore, ChunkOk;
    var k, j := HomeOf(chunks, n), HomeOf(others, n);
    TileFacts(rules, all, chunks, k);
    TileFacts(rules, all, others, j);
    ChunkSpan(rules, all, chunks[k]);
    ChunkSpan(rules, all, others[j]);
    var d := DefinedAt(rules, all, n);
    if d.Some? {
      LastBeforeFrom(rules, all, chunks[k].startLine, n, d.value);
      LastBeforeFrom(rules, all, others[j].startLine, n, d.value);
      LastBeforeBelow(rules, all, 1, n, d.value);
    }
  }

  /** An index reports what another one that was just read reports exactly when they see the same at every line. */
  lemma IndexesAgree(rules: Rules, all: seq<Line>, chunks: seq<Chunk>, moved: seq<int>, others: seq<Chunk>, still: seq<int>)
    requires Indexed(rules, all, chunks, moved) && Indexed(rules, all, others, still)
    requires (forall k | 0 <= k < |still| :: still[k] == 0) && (all != [] ==> chunks != [] && others != [])
    ensures AllDiagnostics(chunks) == AllDiagnostics(others)
            <==> forall n | 1 <= n <= |all| :: SameReport(rules, all, chunks, moved, others, n)
  {
    hide Tiles, AllDiagnostics, Concat, IndexReports, SameReport, OneEach, ReadAbove;
    var xs, ys := Rows(rules, all, chunks, moved), Rows(rules, all, others, still);
    WholeIndex(rules, all, chunks, moved);
    WholeIndex(rules, all, others, still);
    RowsAreOneEach(rules, all, chunks, moved);
    RowsAreOneEach(rules, all, others, still);
    if Concat(xs) == Concat(ys) { ConcatApart(xs, ys); }
    forall n | 1 <= n <= |all|
      ensures xs[n - 1] == ys[n - 1] <==> SameReport(rules, all, chunks, moved, others, n)
    {
      ReportsAgree(rules, all, chunks, moved, others, still, n);
    }
    if forall n | 1 <= n <= |all| :: SameReport(rules, all, chunks, moved, others, n) {
      forall i | 0 <= i < |all| ensures xs[i] == ys[i] { assert SameReport(rules, all, chunks, moved, others, i + 1); }
      assert xs == ys;
    }
    if Concat(xs) == Concat(ys) {
      forall n | 1 <= n <= |all| ensures SameReport(rules, all, chunks, moved, others, n) { assert xs[n - 1] == ys[n - 1]; }
    }
  }

  // ---- Reading afresh ----

  /** Whether a block comment is open before line i, from zero. */
  function CommentBefore(rules: Rules, all: seq<Line>, i: nat): bool
    requires i <= |all|
  {
    i > 0 && rules.commentAfter(all[i - 1], CommentBefore(rules, all, i - 1))
  }

  /** The lines, from zero, below n where a fresh reading starts chunks. */
  function FreshStarts(rules: Rules, all: seq<Line>, n: nat): (starts: seq<nat>)
    requires n <= |all|
    ensures (forall i | 0 <= i < |starts| :: starts[i] < n) && (n > 0 ==> starts != [] && starts[0] == 0)
    ensures forall i, j | 0 <= i < j < |starts| :: starts[i] < starts[j]
  {
    if n == 0 then []
    else if n == 1 || (!CommentBefore(rules, all, n - 1) && rules.isAnchor(all[n - 1])) then FreshStarts(rules, all, n - 1) + [n - 1]
    else FreshStarts(rules, all, n - 1)
  }

  /** The chunk of the lines from start up to end, from zero. */
  function FreshChunk(rules: Rules, all: seq<Line>, start: nat, end: nat): (c: Chunk)
    requires start <= end <= |all|
    ensures c.startLine == start + 1 && c.endLine == end
  {
    var lines := all[start..end];
    var nodes := NodesOf(rules, lines, start + 1);
    Chunk(start + 1, end, lines, SymbolsOf(nodes), DiagnosticsOf(rules, lines, start + 1, map[]), nodes)
  }

  function FreshChunks(rules: Rules, all: seq<Line>): (chunks: seq<Chunk>)
    ensures |chunks| == |FreshStarts(rules, all, |all|)| && (chunks == [] <==> all == [])
  {
    var starts := FreshStarts(rules, all, |all|);
    seq(|starts|, i requires 0 <= i < |starts| =>
      FreshChunk(rules, all, starts[i], if i + 1 < |starts| then starts[i + 1] else |all|))
  }

  /** Fresh chunk number i. */
  lemma FreshAt(rules: Rules, all: seq<Line>, i: nat)
    requires i < |FreshStarts(rules, all, |all|)|
    ensures var starts := FreshStarts(rules, all, |all|);
            && starts[i] <= (if i + 1 < |starts| then starts[i + 1] else |all|) <= |all|
            && FreshChunks(rules, all)[i] == FreshChunk(rules, all, starts[i], if i + 1 < |starts| then starts[i + 1] else |all|)
  {
    hide FreshStarts, FreshChunk;
  }

  function Still(n: nat): seq<int> { seq(n, _ => 0) }

  lemma NotMoved(ds: seq<Diagnostic>)
    ensures ShiftDiagnostics(ds, 0) == ds
  {}

  lemma FreshChunkIs(rules: Rules, all: seq<Line>, start: nat, end: nat)
    requires start <= end <= |all|
    ensures ChunkOk(rules, all, FreshChunk(rules, all, start, end)) && ReadAbove(rules, FreshChunk(rules, all, start, end), 0)
  {
    hide NodesOf, SymbolsOf, DiagnosticsOf, ShiftDiagnostics;
    NotMoved(FreshChunk(rules, all, start, end).diagnostics);
  }

  lemma FreshTile(rules: Rules, all: seq<Line>, k: nat)
    requires k < |FreshChunks(rules, all)|
    ensures var c := FreshChunks(rules, all)[k];
            ChunkOk(rules, all, c) && c.startLine == NextLine(FreshChunks(rules, all), k) && ReadAbove(rules, c, 0)
  {
    hide FreshChunk, FreshChunks, FreshStarts, ChunkOk, ReadAbove;
    var starts := FreshStarts(rules, all, |all|);
    FreshAt(rules, all, k);
    FreshChunkIs(rules, all, starts[k], if k + 1 < |starts| then starts[k + 1] else |all|);
    if k > 0 { FreshAt(rules, all, k - 1); } else { FirstStart(rules, all); }
  }

  lemma FirstStart(rules: Rules, all: seq<Line>)
    ensures var starts := FreshStarts(rules, all, |all|); starts != [] ==> starts[0] == 0
  {}

  lemma FreshEnds(rules: Rules, all: seq<Line>)
    ensures var chunks := FreshChunks(rules, all); (chunks == [] <==> all == []) && NextLine(chunks, |chunks|) == |all| + 1
  {
    hide FreshChunk, FreshStarts;
    NoStarts(rules, all);
  }

  lemma FreshIsIndexed(rules: Rules, all: seq<Line>)
    ensures var chunks := FreshChunks(rules, all); Indexed(rules, all, chunks, Still(|chunks|)) && (chunks == [] <==> all == [])
  {
    hide FreshChunks, ChunkOk, ReadAbove, NextLine;
    var chunks := FreshChunks(rules, all);
    FreshEnds(rules, all);
    forall k | 0 <= k < |chunks| ensures ChunkOk(rules, all, chunks[k]) && chunks[k].startLine == NextLine(chunks, k) && ReadAbove(rules, chunks[k], 0) {
      FreshTile(rules, all, k);
    }
  }

  lemma NoStarts(rules: Rules, all: seq<Line>)
    ensures FreshStarts(rules, all, 0) == []
  {}

  /**
   * The warnings of a document, after whatever updates, are those of reading it afresh exactly when at
   * every line that defines a function again the last definition stands in the same chunk in both or in
   * neither, and if it does, the chunk has not moved since it was read.
   */
  lemma WarningsAreFresh(rules: Rules, all: seq<Line>, chunks: seq<Chunk>, moved: seq<int>)
    requires Indexed(rules, all, chunks, moved) && (chunks == [] <==> all == [])
    ensures AllDiagnostics(chunks) == AllDiagnostics(FreshChunks(rules, all))
            <==> forall n | 1 <= n <= |all| :: SameReport(rules, all, chunks, moved, FreshChunks(rules, all), n)
  {
    hide Indexed, FreshChunks, AllDiagnostics, SameReport;
    FreshIsIndexed(rules, all);
    IndexesAgree(rules, all, chunks, moved, FreshChunks(rules, all), Still(|FreshChunks(rules, all)|));
  }

  // ---- Updates ----

  /** The shifts after chunk i is read again and the later chunks are moved. */
  function Moved(moved: seq<int>, i: nat, delta: int): (now: seq<int>)
    ensures |now| == |moved|
  {
    seq(|moved|, k requires 0 <= k < |moved| => if k < i then moved[k] else if k == i then 0 else moved[k] + delta)
  }

  lemma ShiftIsRead(rules: Rules, c: Chunk, shift: int, delta: int)
    requires ReadAbove(rules, c, shift)
    ensures ReadAbove(rules, ShiftChunk(c, delta), shift + delta)
  {
    hide DiagnosticsOf, ShiftNodes, ShiftSymbols;
    var ds := DiagnosticsOf(rules, c.lines, c.startLine - shift, map[]);
    assert ShiftDiagnostics(ShiftDiagnostics(ds, shift), delta) == ShiftDiagnostics(ds, shift + delta);
  }

  /** An update keeps the index, with its shifts. */
  lemma EditKeepsIndex(rules: Rules, before: seq<Line>, now: seq<Line>, from: nat, endOld: int, endNew: int, was: seq<Chunk>, moved: seq<int>,
                       i: nat, chunks: seq<Chunk>)
    requires Indexed(rules, before, was, moved) && Edited(before, now, from, endOld, endNew)
    requires i < |was| && was[i].startLine <= from + 1 <= was[i].endLine && endOld + 1 <= was[i].endLine
    requires Replaced(rules, now, was, i, |now| - |before|, chunks) && ReadAbove(rules, chunks[i], 0)
    ensures Indexed(rules, now, chunks, Moved(moved, i, |now| - |before|))
  {
    hide Tiles, ReadAbove, ShiftChunk, ChunkOk, Edited;
    EditKeepsTiles(rules, before, now, from, endOld, endNew, was, i, chunks);
    var delta := |now| - |before|;
    forall k | 0 <= k < |chunks| ensures ReadAbove(rules, chunks[k], Moved(moved, i, delta)[k]) {
      assert ReadAbove(rules, was[k], moved[k]);
      if k < i { assert chunks[k] == chunks[..i][k] == was[..i][k]; }
      if k > i { ShiftIsRead(rules, was[k], moved[k], delta); }
    }
  }

  // ---- A chunk that should have been split ----

  /**
   * Two lines in one chunk, replaced by two definitions of one function: the chunk is read again as one
   * and warns, while a fresh reading starts a chunk at each definition and does not.
   */
  lemma SplitIsMissed(rules: Rules, a: Line, b: Line, f: Line, name: string, col: nat)
    requires rules.find(f) == Some(Found(Function, name, col)) && rules.isAnchor(f) && !rules.commentAfter(f, false)
    requires !rules.isAnchor(b) && a != f && b != f
    ensures var was, chunks := FreshChunks(rules, [a, b]), [FreshChunk(rules, [f, f], 0, 2)];
            && Edited([a, b], [f, f], 0, 1, 1) && Replaced(rules, [f, f], was, 0, 0, chunks) && Indexed(rules, [f, f], chunks, [0])
            && AllDiagnostics(chunks) != [] && AllDiagnostics(FreshChunks(rules, [f, f])) == []
  {
    hide FreshStarts, FreshChunk, FreshChunks, AllDiagnostics, NodesOf, SymbolsOf;
    PairStarts(rules, a, b);
    PairStarts(rules, f, f);
    PairChunks(rules, a, b);
    PairChunks(rules, f, f);
    OneWarning(rules, f, name, col);
    NoWarning(rules, f, 0);
    NoWarning(rules, f, 1);
    FreshChunkIs(rules, [f, f], 0, 2);
    var c := FreshChunk(rules, [f, f], 0, 2);
    OneChunk(c);
    TwoChunks(FreshChunk(rules, [f, f], 0, 1), FreshChunk(rules, [f, f], 1, 2));
    assert NextLine([c], 0) == 1 && NextLine([c], 1) == 3;
  }

  lemma PairStarts(rules: Rules, a: Line, b: Line)
    ensures FreshStarts(rules, [a, b], 2) == if !rules.commentAfter(a, false) && rules.isAnchor(b) then [0, 1] else [0]
  {
    assert CommentBefore(rules, [a, b], 1) == rules.commentAfter(a, CommentBefore(rules, [a, b], 0));
    assert FreshStarts(rules, [a, b], 0) == [];
    assert FreshStarts(rules, [a, b], 1) == [] + [0];
  }

  lemma PairChunks(rules: Rules, a: Line, b: Line)
    ensures FreshChunks(rules, [a, b]) ==
            if FreshStarts(rules, [a, b], 2) == [0, 1] then [FreshChunk(rules, [a, b], 0, 1), FreshChunk(rules, [a, b], 1, 2)]
            else if FreshStarts(rules, [a, b], 2) == [0] then [FreshChunk(rules, [a, b], 0, 2)]
            else FreshChunks(rules, [a, b])
  {
    hide FreshStarts, FreshChunk;
  }

  lemma OneChunk(c: Chunk)
    ensures AllDiagnostics([c]) == c.diagnostics
  {
    assert [c][..0] == [];
  }

  lemma TwoChunks(c: Chunk, d: Chunk)
    ensures AllDiagnostics([c, d]) == c.diagnostics + d.diagnostics
  {
    assert [c, d][..1] == [c];
    OneChunk(c);
  }

  lemma OneWarning(rules: Rules, f: Line, name: string, col: nat)
    requires rules.find(f) == Some(Found(Function, name, col))
    ensures FreshChunk(rules, [f, f], 0, 2).diagnostics != []
  {
    hide NodesOf, SymbolsOf;
    assert [f, f][0..2] == [f, f] && [f, f][1..] == [f];
    assert name in map[name := 1];
    assert DiagnosticsOf(rules, [f], 2, map[name := 1]) != [];
    assert DiagnosticsOf(rules, [f, f], 1, map[]) == [] + DiagnosticsOf(rules, [f], 2, map[][name := 1]);
  }

  lemma NoWarning(rules: Rules, f: Line, i: nat)
    requires i < 2
    ensures FreshChunk(rules, [f, f], i, i + 1).diagnostics == []
  {
    hide NodesOf, SymbolsOf;
    assert [f, f][i..i + 1] == [f] && [f][1..] == [];
    var g := rules.find(f);
    if g.Some? && g.value.kind == Function {
      assert DiagnosticsOf(rules, [], i + 2, map[][g.value.name := i + 1]) == [];
    } else {
      assert DiagnosticsOf(rules, [], i + 2, map[]) == [];
    }
  }
}
