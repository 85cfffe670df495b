/**
 * What the language server knows about a document: definitions found line by line, kept in chunks
 * of consecutive lines. How a line is read is a parameter: what it defines, whether it starts a
 * chunk, and whether a block comment is open after it.
 */
module SymbolIndex {
  type Line = string

  datatype Option<T> = None | Some(value: T)

  datatype Kind = Function | Struct | Variable

  datatype Found = Found(kind: Kind, name: string, col: nat)

  datatype Rules = Rules(find: Line -> Option<Found>, isAnchor: Line -> bool, commentAfter: (Line, bool) -> bool)

  /** Lines and columns of nodes count from one, those of ranges from zero. */
  datatype Node = Node(kind: Kind, name: string, line: int, col: int, endLine: int, endCol: int)

  datatype Range = Range(startLine: int, startChar: int, endLine: int, endChar: int)

  datatype Symbol = Symbol(name: string, kind: Kind, range: Range, selectionRange: Range)

  /** A redefinition, with the line of the first definition as its message states it. */
  datatype Diagnostic = Diagnostic(range: Range, name: string, firstLine: int)

  // ---- Analysis ----

  function NotBelowZero(n: int): int { if n < 0 then 0 else n }

  function NodeToRange(n: Node): Range {
    Range(NotBelowZero(n.line - 1), NotBelowZero(n.col - 1), NotBelowZero(n.endLine - 1), NotBelowZero(n.endCol - 1))
  }

  function NodeOf(f: Found, line: int): Node { Node(f.kind, f.name, line, f.col, line, f.col + |f.name|) }

  function SymbolOf(n: Node): Symbol { Symbol(n.name, n.kind, NodeToRange(n), NodeToRange(n)) }

  function NodesOf(rules: Rules, lines: seq<Line>, start: int): seq<Node> {
    if lines == [] then []
    else
      var f := rules.find(lines[0]);
      (if f.Some? then [NodeOf(f.value, start)] else []) + NodesOf(rules, lines[1..], start + 1)
  }

  function SymbolsOf(nodes: seq<Node>): seq<Symbol> { seq(|nodes|, i requires 0 <= i < |nodes| => SymbolOf(nodes[i])) }

  function DiagnosticsOf(rules: Rules, lines: seq<Line>, start: int, defined: map<string, int>): seq<Diagnostic> {
    if lines == [] then []
    else
      var f := rules.find(lines[0]);
      if f.None? || f.value.kind != Function then DiagnosticsOf(rules, lines[1..], start + 1, defined)
      else
        (if f.value.name in defined then [Diagnostic(NodeToRange(NodeOf(f.value, start)), f.value.name, defined[f.value.name])] else [])
        + DiagnosticsOf(rules, lines[1..], start + 1, defined[f.value.name := start])
  }

  lemma {:induction false} NodesJoin(rules: Rules, a: seq<Line>, b: seq<Line>, start: int)
    ensures NodesOf(rules, a + b, start) == NodesOf(rules, a, start) + NodesOf(rules, b, start + |a|)
    decreases |a|
  {
    if a == [] {
      assert a + b == b;
    } else {
      assert (a + b)[1..] == a[1..] + b;
      NodesJoin(rules, a[1..], b, start + 1);
    }
  }

  lemma SymbolsJoin(a: seq<Node>, b: seq<Node>)
    ensures SymbolsOf(a + b) == SymbolsOf(a) + SymbolsOf(b)
  {}

  // ---- Moving ----

  function ShiftRange(r: Range, delta: int): Range { Range(r.startLine + delta, r.startChar, r.endLine + delta, r.endChar) }

  function ShiftNode(n: Node, delta: int): Node { n.(line := n.line + delta, endLine := n.endLine + delta) }

  function ShiftSymbol(s: Symbol, delta: int): Symbol {
    s.(range := ShiftRange(s.range, delta), selectionRange := ShiftRange(s.selectionRange, delta))
  }

  function ShiftNodes(nodes: seq<Node>, delta: int): seq<Node> {
    seq(|nodes|, i requires 0 <= i < |nodes| => ShiftNode(nodes[i], delta))
  }

  function ShiftSymbols(symbols: seq<Symbol>, delta: int): seq<Symbol> {
    seq(|symbols|, i requires 0 <= i < |symbols| => ShiftSymbol(symbols[i], delta))
  }

  /** The message keeps the line it was written with. */
  function ShiftDiagnostics(ds: seq<Diagnostic>, delta: int): seq<Diagnostic> {
    seq(|ds|, i requires 0 <= i < |ds| => ds[i].(range := ShiftRange(ds[i].range, delta)))
  }

  lemma {:induction false} NodesShift(rules: Rules, lines: seq<Line>, start: int, delta: int)
    ensures NodesOf(rules, lines, start + delta) == ShiftNodes(NodesOf(rules, lines, start), delta)
    decreases |lines|
  {
    if lines != [] { NodesShift(rules, lines[1..], start + 1, delta); }
  }

  lemma {:induction false} NodeLines(rules: Rules, lines: seq<Line>, start: int)
    ensures forall i | 0 <= i < |NodesOf(rules, lines, start)| ::
              var n := NodesOf(rules, lines, start)[i]; n.line >= start && n.endLine == n.line
    decreases |lines|
  {
    if lines != [] { NodeLines(rules, lines[1..], start + 1); }
  }

  lemma SymbolsShift(nodes: seq<Node>, delta: int)
    requires forall i | 0 <= i < |nodes| :: nodes[i].line >= 1 && nodes[i].endLine >= 1 && nodes[i].line + delta >= 1 && nodes[i].endLine + delta >= 1
    ensures SymbolsOf(ShiftNodes(nodes, delta)) == ShiftSymbols(SymbolsOf(nodes), delta)
  {}

  function ShiftLines(defined: map<string, int>, delta: int): map<string, int> { map n | n in defined :: defined[n] + delta }

  function Renumbered(ds: seq<Diagnostic>, delta: int): seq<Diagnostic> {
    seq(|ds|, i requires 0 <= i < |ds| => Diagnostic(ShiftRange(ds[i].range, delta), ds[i].name, ds[i].firstLine + delta))
  }

  /** Read again further down, the same redefinitions name lines further down. */
  lemma {:induction false} DiagnosticsShift(rules: Rules, lines: seq<Line>, start: int, defined: map<string, int>, delta: int)
    requires start >= 1 && start + delta >= 1
    ensures DiagnosticsOf(rules, lines, start + delta, ShiftLines(defined, delta)) == Renumbered(DiagnosticsOf(rules, lines, start, defined), delta)
    decreases |lines|
  {
    if lines != [] {
      var f := rules.find(lines[0]);
      if f.None? || f.value.kind != Function {
        DiagnosticsShift(rules, lines[1..], start + 1, defined, delta);
      } else {
        var name := f.value.name;
        DiagnosticsShift(rules, lines[1..], start + 1, defined[name := start], delta);
        assert ShiftLines(defined[name := start], delta) == ShiftLines(defined, delta)[name := start + delta];
      }
    }
  }

  /** Moving the diagnostics of a chunk agrees with reading it again exactly if there are none, or nothing moves:
      the message keeps the old line of the first definition. */
  lemma MovedDiagnostics(rules: Rules, lines: seq<Line>, start: int, delta: int)
    requires start >= 1 && start + delta >= 1
    ensures ShiftDiagnostics(DiagnosticsOf(rules, lines, start, map[]), delta) == DiagnosticsOf(rules, lines, start + delta, map[])
            <==> delta == 0 || DiagnosticsOf(rules, lines, start, map[]) == []
  {
    hide DiagnosticsOf;
    DiagnosticsShift(rules, lines, start, map[], delta);
    assert ShiftLines(map[], delta) == map[];
    var ds := DiagnosticsOf(rules, lines, start, map[]);
    if ds != [] && delta != 0 {
      assert ShiftDiagnostics(ds, delta)[0] != Renumbered(ds, delta)[0];
    }
  }

  // ---- Chunks ----

  datatype Chunk = Chunk(
    startLine: int, endLine: int, lines: seq<Line>, symbols: seq<Symbol>, diagnostics: seq<Diagnostic>, nodes: seq<Node>)

  /** The chunk holds its lines of the document and what they define. */
  predicate ChunkOk(rules: Rules, all: seq<Line>, c: Chunk) {
    && 1 <= c.startLine <= c.endLine + 1 <= |all| + 1 && c.lines == all[c.startLine - 1..c.endLine]
    && c.nodes == NodesOf(rules, c.lines, c.startLine) && c.symbols == SymbolsOf(c.nodes)
  }

  /** The line after the first k chunks. */
  function NextLine(chunks: seq<Chunk>, k: nat): int
    requires k <= |chunks|
  {
    if k == 0 then 1 else chunks[k - 1].endLine + 1
  }

  ghost predicate Tiles(rules: Rules, all: seq<Line>, chunks: seq<Chunk>) {
    && (forall k | 0 <= k < |chunks| :: ChunkOk(rules, all, chunks[k]) && chunks[k].startLine == NextLine(chunks, k))
    && NextLine(chunks, |chunks|) == |all| + 1
  }

  function AllNodes(chunks: seq<Chunk>): seq<Node> {
    if chunks == [] then [] else AllNodes(chunks[..|chunks| - 1]) + chunks[|chunks| - 1].nodes
  }

  function AllSymbols(chunks: seq<Chunk>): seq<Symbol> {
    if chunks == [] then [] else AllSymbols(chunks[..|chunks| - 1]) + chunks[|chunks| - 1].symbols
  }

  function AllDiagnostics(chunks: seq<Chunk>): seq<Diagnostic> {
    if chunks == [] then [] else AllDiagnostics(chunks[..|chunks| - 1]) + chunks[|chunks| - 1].diagnostics
  }

  /** The first k chunks together are the analysis of their lines. */
  lemma {:induction false} PrefixIsAnalysis(rules: Rules, all: seq<Line>, chunks: seq<Chunk>, k: nat)
    requires Tiles(rules, all, chunks) && k <= |chunks|
    ensures 1 <= NextLine(chunks, k) <= |all| + 1
    ensures AllNodes(chunks[..k]) == NodesOf(rules, all[..NextLine(chunks, k) - 1], 1)
    ensures AllSymbols(chunks[..k]) == SymbolsOf(NodesOf(rules, all[..NextLine(chunks, k) - 1], 1))
    decreases k
  {
    hide Tiles, NodesOf, SymbolsOf, ChunkOk;
    if k == 0 {
      assert chunks[..0] == [] && all[..0] == [];
      NothingDefined(rules);
    } else {
      PrefixIsAnalysis(rules, all, chunks, k - 1);
      TileFacts(rules, all, chunks, k - 1);
      assert chunks[..k][..k - 1] == chunks[..k - 1] && chunks[..k][k - 1] == chunks[k - 1];
      OneChunkMore(rules, all, chunks[k - 1]);
    }
  }

  lemma NothingDefined(rules: Rules)
    ensures NodesOf(rules, [], 1) == [] && SymbolsOf([]) == []
  {}

  lemma TileFacts(rules: Rules, all: seq<Line>, chunks: seq<Chunk>, k: nat)
    requires Tiles(rules, all, chunks) && k < |chunks|
    ensures ChunkOk(rules, all, chunks[k]) && chunks[k].startLine == NextLine(chunks, k) && 1 <= chunks[k].endLine + 1 <= |all| + 1
  {
    assert ChunkOk(rules, all, chunks[k]);
  }

  /** The lines before a chunk and its own lines. */
  lemma OneChunkMore(rules: Rules, all: seq<Line>, c: Chunk)
    requires ChunkOk(rules, all, c)
    ensures NodesOf(rules, all[..c.endLine], 1) == NodesOf(rules, all[..c.startLine - 1], 1) + c.nodes
    ensures SymbolsOf(NodesOf(rules, all[..c.endLine], 1)) == SymbolsOf(NodesOf(rules, all[..c.startLine - 1], 1)) + c.symbols
  {
    hide NodesOf, SymbolsOf;
    assert all[..c.endLine] == all[..c.startLine - 1] + c.lines;
    NodesJoin(rules, all[..c.startLine - 1], c.lines, 1);
    SymbolsJoin(NodesOf(rules, all[..c.startLine - 1], 1), c.nodes);
  }

  /** Whatever the chunks, the index is that of the whole document. */
  lemma TilesAreAnalysis(rules: Rules, all: seq<Line>, chunks: seq<Chunk>)
    requires Tiles(rules, all, chunks)
    ensures AllNodes(chunks) == NodesOf(rules, all, 1) && AllSymbols(chunks) == SymbolsOf(NodesOf(rules, all, 1))
  {
    hide Tiles, AllNodes, AllSymbols, NodesOf, SymbolsOf;
    PrefixIsAnalysis(rules, all, chunks, |chunks|);
    WholeDocument(rules, all, chunks);
    assert chunks[..|chunks|] == chunks;
  }

  lemma WholeDocument(rules: Rules, all: seq<Line>, chunks: seq<Chunk>)
    requires Tiles(rules, all, chunks)
    ensures NextLine(chunks, |chunks|) == |all| + 1 && all[..NextLine(chunks, |chunks|) - 1] == all
  {}

  // ---- Edits ----

  function ShiftChunk(c: Chunk, delta: int): Chunk {
    Chunk(c.startLine + delta, c.endLine + delta, c.lines, ShiftSymbols(c.symbols, delta), ShiftDiagnostics(c.diagnostics, delta),
          ShiftNodes(c.nodes, delta))
  }

  /** Two documents that agree before line from and after the last line of each changed part. */
  ghost predicate Edited(old_: seq<Line>, now: seq<Line>, from: nat, endOld: int, endNew: int) {
    && from - 1 <= endOld < |old_| && from - 1 <= endNew < |now| && |old_| - endOld == |now| - endNew
    && from <= |old_| && from <= |now| && old_[..from] == now[..from] && old_[endOld + 1..] == now[endNew + 1..]
  }

  lemma EarlierChunk(rules: Rules, was: seq<Line>, now: seq<Line>, from: nat, endOld: int, endNew: int, c: Chunk)
    requires Edited(was, now, from, endOld, endNew) && ChunkOk(rules, was, c) && c.endLine <= from
    ensures ChunkOk(rules, now, c)
  {
    hide NodesOf, SymbolsOf;
    assert was[c.startLine - 1..c.endLine] == was[..from][c.startLine - 1..c.endLine];
    assert now[c.startLine - 1..c.endLine] == now[..from][c.startLine - 1..c.endLine];
  }

  lemma LaterChunk(rules: Rules, was: seq<Line>, now: seq<Line>, from: nat, endOld: int, endNew: int, c: Chunk)
    requires Edited(was, now, from, endOld, endNew) && ChunkOk(rules, was, c) && c.startLine - 1 >= endOld + 1
    ensures ChunkOk(rules, now, ShiftChunk(c, |now| - |was|))
  {
    hide NodesOf, SymbolsOf, ShiftNodes, ShiftSymbols;
    var delta := |now| - |was|;
    LaterLines(was, now, endOld, endNew, c.startLine - 1, c.endLine);
    NodesShift(rules, c.lines, c.startLine, delta);
    NodeLines(rules, c.lines, c.startLine);
    SymbolsShift(c.nodes, delta);
  }

  lemma LaterLines(was: seq<Line>, now: seq<Line>, endOld: int, endNew: int, i: nat, j: nat)
    requires -1 <= endOld < |was| && -1 <= endNew < |now| && |was| - endOld == |now| - endNew && was[endOld + 1..] == now[endNew + 1..]
    requires endOld + 1 <= i <= j <= |was|
    ensures 0 <= i + |now| - |was| && was[i..j] == now[i + |now| - |was|..j + |now| - |was|]
  {
    var delta := |now| - |was|;
    forall k | i <= k < j ensures was[k] == now[k + delta] {
      assert was[endOld + 1..][k - endOld - 1] == was[k] && now[endNew + 1..][k - endOld - 1] == now[k + delta];
    }
  }

  /** The chunks after an edit inside chunk i. */
  ghost predicate Replaced(rules: Rules, now: seq<Line>, was: seq<Chunk>, i: nat, delta: int, chunks: seq<Chunk>) {
    && |chunks| == |was| && i < |was| && chunks[..i] == was[..i]
    && chunks[i].startLine == was[i].startLine && chunks[i].endLine == was[i].endLine + delta && ChunkOk(rules, now, chunks[i])
    && forall k | i < k < |was| :: chunks[k] == ShiftChunk(was[k], delta)
  }

  lemma {:induction false} LinesOrdered(rules: Rules, all: seq<Line>, chunks: seq<Chunk>, i: nat, k: nat)
    requires Tiles(rules, all, chunks) && i < k < |chunks|
    ensures chunks[i].endLine < chunks[k].startLine
    decreases k
  {
    hide ChunkOk, NextLine;
    Neighbour(rules, all, chunks, k);
    if i + 1 < k { LinesOrdered(rules, all, chunks, i, k - 1); }
  }

  lemma Neighbour(rules: Rules, all: seq<Line>, chunks: seq<Chunk>, k: nat)
    requires Tiles(rules, all, chunks) && 0 < k < |chunks|
    ensures chunks[k].startLine == chunks[k - 1].endLine + 1 && chunks[k - 1].startLine <= chunks[k - 1].endLine + 1
  {
    assert ChunkOk(rules, all, chunks[k - 1]);
  }

  /** Every chunk after an edit holds its lines of the new document. */
  lemma EditKeepsChunk(rules: Rules, before: seq<Line>, now: seq<Line>, from: nat, endOld: int, endNew: int, was: seq<Chunk>, i: nat,
                       chunks: seq<Chunk>, k: nat)
    requires Tiles(rules, before, was) && Edited(before, now, from, endOld, endNew)
    requires i < |was| && was[i].startLine <= from + 1 <= was[i].endLine && endOld + 1 <= was[i].endLine
    requires Replaced(rules, now, was, i, |now| - |before|, chunks) && k < |chunks|
    ensures ChunkOk(rules, now, chunks[k])
  {
    hide ChunkOk, Edited, ShiftChunk;
    assert ChunkOk(rules, before, was[k]);
    if k < i {
      assert chunks[k] == chunks[..i][k] == was[k];
      LinesOrdered(rules, before, was, k, i);
      EarlierChunk(rules, before, now, from, endOld, endNew, was[k]);
    } else if k > i {
      LinesOrdered(rules, before, was, i, k);
      LaterChunk(rules, before, now, from, endOld, endNew, was[k]);
    }
  }

  /** The chunks still follow each other. */
  lemma EditKeepsOrder(rules: Rules, now: seq<Line>, was: seq<Chunk>, i: nat, delta: int, chunks: seq<Chunk>, k: nat)
    requires Replaced(rules, now, was, i, delta, chunks) && k <= |chunks|
    ensures NextLine(chunks, k) == NextLine(was, k) + (if k <= i then 0 else delta)
    ensures k < |chunks| ==> chunks[k].startLine == was[k].startLine + (if k <= i then 0 else delta)
  {
    hide ChunkOk;
    if k < i { assert chunks[k] == chunks[..i][k] == was[k]; }
    if 0 < k <= i { assert chunks[k - 1] == chunks[..i][k - 1] == was[k - 1]; }
  }

  lemma EditKeepsTiles(rules: Rules, before: seq<Line>, now: seq<Line>, from: nat, endOld: int, endNew: int, was: seq<Chunk>, i: nat,
                       chunks: seq<Chunk>)
    requires Tiles(rules, before, was) && Edited(before, now, from, endOld, endNew)
    requires i < |was| && was[i].startLine <= from + 1 <= was[i].endLine && endOld + 1 <= was[i].endLine
    requires Replaced(rules, now, was, i, |now| - |before|, chunks)
    ensures Tiles(rules, now, chunks)
  {
    hide ChunkOk, Edited, NextLine;
    SameCount(rules, now, was, i, |now| - |before|, chunks);
    EditKeepsOrder(rules, now, was, i, |now| - |before|, chunks, |chunks|);
    forall k | 0 <= k < |chunks| ensures ChunkOk(rules, now, chunks[k]) && chunks[k].startLine == NextLine(chunks, k) {
      assert was[k].startLine == NextLine(was, k);
      EditKeepsChunk(rules, before, now, from, endOld, endNew, was, i, chunks, k);
      EditKeepsOrder(rules, now, was, i, |now| - |before|, chunks, k);
    }
  }

  lemma SameCount(rules: Rules, now: seq<Line>, was: seq<Chunk>, i: nat, delta: int, chunks: seq<Chunk>)
    requires Replaced(rules, now, was, i, delta, chunks)
    ensures |chunks| == |was| > i
  {}

  /** The edited chunk has its place in the new document. */
  lemma EditedChunkFits(rules: Rules, before: seq<Line>, now: seq<Line>, from: nat, endOld: int, endNew: int, was: seq<Chunk>, i: nat)
    requires Tiles(rules, before, was) && Edited(before, now, from, endOld, endNew)
    requires i < |was| && was[i].startLine <= from + 1 <= was[i].endLine && endOld + 1 <= was[i].endLine
    ensures 1 <= was[i].startLine <= was[i].endLine + |now| - |before| + 1 <= |now| + 1
  {
    assert ChunkOk(rules, before, was[i]);
  }
}
