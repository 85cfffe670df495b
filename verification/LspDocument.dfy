/** The document of the language server: parsed afresh, or updated chunk by chunk. */
module LspDocument {
  import opened Redefinitions
  import opened SymbolIndex

  class ShellLiteDocument {
    const rules: Rules
    var lines: seq<Line>
    var chunks: seq<Chunk>
    var symbols: seq<Symbol>
    var diagnostics: seq<Diagnostic>
    var astNodes: seq<Node>

    /** How far each chunk has been moved since it was read. */
    ghost var moved: seq<int>

    /** The chunks tile the lines, and the index is that of the lines, read from the start. */
    ghost predicate Valid()
      reads this
    {
      && Indexed(rules, lines, chunks, moved) && (chunks == [] <==> lines == [])
      && astNodes == NodesOf(rules, lines, 1) && symbols == SymbolsOf(NodesOf(rules, lines, 1))
      && diagnostics == AllDiagnostics(chunks)
    }

    constructor (rules: Rules, lines: seq<Line>)
      ensures Valid() && this.rules == rules && this.lines == lines
    {
      this.rules, this.lines := rules, lines;
      chunks, symbols, diagnostics, astNodes := [], [], [], [];
      new;
      ParseAndAnalyze();
    }

    /** What a run of lines defines. */
    method AnalyzeLines(lines: seq<Line>, start: int)
        returns (symbols: seq<Symbol>, diagnostics: seq<Diagnostic>, nodes: seq<Node>)
      ensures nodes == NodesOf(rules, lines, start) && symbols == SymbolsOf(nodes)
      ensures diagnostics == DiagnosticsOf(rules, lines, start, map[])
    {
      hide NodesOf, SymbolsOf, DiagnosticsOf;
      symbols, diagnostics, nodes := [], [], [];
      var defined: map<string, int> := map[];
      var i := 0;
      AnalysisStarts(rules, lines, start);
      while i < |lines|
        invariant i <= |lines| && nodes + NodesOf(rules, lines[i..], start + i) == NodesOf(rules, lines, start)
        invariant symbols == SymbolsOf(nodes)
        invariant diagnostics + DiagnosticsOf(rules, lines[i..], start + i, defined) == DiagnosticsOf(rules, lines, start, map[])
      {
        NextNode(rules, lines, start, i, nodes);
        NextDiagnostic(rules, lines, start, i, defined, diagnostics);
        var f := rules.find(lines[i]);
        if f.Some? {
          var node := NodeOf(f.value, start + i);
          SymbolsJoin(nodes, [node]);
          OneSymbol(node);
          nodes, symbols := nodes + [node], symbols + [SymbolOf(node)];
          if f.value.kind == Function {
            if f.value.name in defined {
              diagnostics := diagnostics + [Diagnostic(NodeToRange(node), f.value.name, defined[f.value.name])];
            }
            defined := defined[f.value.name := start + i];
          }
        }
        i := i + 1;
      }
      AnalysisEnds(rules, lines, start + i, defined, nodes, diagnostics);
    }

    method MakeChunk(start: nat, end: nat) returns (c: Chunk)
      requires start <= end <= |lines|
      ensures c == FreshChunk(rules, lines, start, end)
    {
      var symbols, diags, nodes := AnalyzeLines(lines[start..end], start + 1);
      c := Chunk(start + 1, end, lines[start..end], symbols, diags, nodes);
    }

    /** The first lines of the chunks: line 0 and the anchors outside block comments. */
    method ChunkStarts() returns (starts: seq<nat>)
      requires lines != []
      ensures starts == FreshStarts(rules, lines, |lines|)
    {
      starts := [0];
      var inComment := false;
      for i := 0 to |lines|
        invariant starts == (if i == 0 then [0] else FreshStarts(rules, lines, i)) && inComment == CommentBefore(rules, lines, i)
      {
        NoStarts(rules, lines);
        if i > 0 && !inComment && rules.isAnchor(lines[i]) { starts := starts + [i]; }
        inComment := rules.commentAfter(lines[i], inComment);
      }
    }

    method MakeChunks(starts: seq<nat>) returns (made: seq<Chunk>)
      requires starts == FreshStarts(rules, lines, |lines|)
      ensures made == FreshChunks(rules, lines)
    {
      hide FreshChunk, FreshChunks, FreshStarts;
      made := [];
      var i := 0;
      while i < |starts|
        invariant 0 <= i <= |starts| && made == FreshChunks(rules, lines)[..i]
      {
        FreshAt(rules, lines, i);
        var end := if i + 1 < |starts| then starts[i + 1] else |lines|;
        var c := MakeChunk(starts[i], end);
        made := made + [c];
        i := i + 1;
      }
    }

    method ParseAndAnalyze()
      modifies this`chunks, this`symbols, this`diagnostics, this`astNodes, this`moved
      ensures Valid() && chunks == FreshChunks(rules, lines) && moved == Still(|chunks|)
    {
      hide NodesOf, SymbolsOf, FreshChunks, FreshStarts, Indexed;
      FreshIsIndexed(rules, lines);
      chunks := [];
      if lines == [] {
        symbols, diagnostics, astNodes, moved := [], [], [], Still(0);
        NoLines(rules);
        return;
      }
      var starts := ChunkStarts();
      chunks := MakeChunks(starts);
      moved := Still(|chunks|);
      RebuildFromChunks();
    }

    method RebuildFromChunks()
      requires Indexed(rules, lines, chunks, moved) && (chunks == [] <==> lines == [])
      modifies this`symbols, this`diagnostics, this`astNodes
      ensures Valid()
    {
      hide Tiles, NodesOf, SymbolsOf;
      symbols, diagnostics, astNodes := [], [], [];
      assert chunks[..0] == [];
      for i := 0 to |chunks|
        invariant symbols == AllSymbols(chunks[..i]) && astNodes == AllNodes(chunks[..i]) && diagnostics == AllDiagnostics(chunks[..i])
      {
        assert chunks[..i + 1][..i] == chunks[..i];
        symbols := symbols + chunks[i].symbols;
        diagnostics := diagnostics + chunks[i].diagnostics;
        astNodes := astNodes + chunks[i].nodes;
      }
      assert chunks[..|chunks|] == chunks;
      TilesAreAnalysis(rules, lines, chunks);
    }

    /** The first and the last lines that differ. */
    method Compare(old_: seq<Line>, now: seq<Line>) returns (from: nat, endOld: int, endNew: int)
      ensures from <= |old_| && from <= |now| && old_[..from] == now[..from]
      ensures !(from == |old_| == |now|) ==> Edited(old_, now, from, endOld, endNew)
    {
      from := 0;
      while from < |old_| && from < |now| && old_[from] == now[from]
        invariant from <= |old_| && from <= |now| && old_[..from] == now[..from]
      {
        from := from + 1;
      }
      endOld, endNew := |old_| - 1, |now| - 1;
      while endOld >= from && endNew >= from && old_[endOld] == now[endNew]
        invariant from - 1 <= endOld < |old_| && from - 1 <= endNew < |now| && |old_| - endOld == |now| - endNew
        invariant old_[endOld + 1..] == now[endNew + 1..]
        decreases endOld
      {
        assert old_[endOld..] == [old_[endOld]] + old_[endOld + 1..] && now[endNew..] == [now[endNew]] + now[endNew + 1..];
        endOld, endNew := endOld - 1, endNew - 1;
      }
    }

    /** The first chunk with a line, or -1. */
    method FindChunk(line: int) returns (at: int)
      ensures -1 <= at < |chunks| && (at >= 0 ==> chunks[at].startLine <= line <= chunks[at].endLine)
      ensures forall k | 0 <= k < (if at >= 0 then at else |chunks|) :: !(chunks[k].startLine <= line <= chunks[k].endLine)
    {
      var i := 0;
      while i < |chunks|
        invariant i <= |chunks| && forall k | 0 <= k < i :: !(chunks[k].startLine <= line <= chunks[k].endLine)
      {
        if chunks[i].startLine <= line <= chunks[i].endLine { return i; }
        i := i + 1;
      }
      at := -1;
    }

    /** Moves all chunks after number i. */
    method MoveLater(i: nat, delta: int)
      requires i < |chunks|
      modifies this`chunks
      ensures |chunks| == |old(chunks)| && chunks[..i + 1] == old(chunks)[..i + 1]
      ensures forall k | i < k < |chunks| :: chunks[k] == ShiftChunk(old(chunks)[k], delta)
    {
      hide ShiftChunk;
      var k := i + 1;
      while k < |chunks|
        invariant i < k <= |chunks| == |old(chunks)| && chunks[..i + 1] == old(chunks)[..i + 1]
        invariant forall j | i < j < |chunks| :: chunks[j] == if j < k then ShiftChunk(old(chunks)[j], delta) else old(chunks)[j]
      {
        chunks := chunks[k := ShiftChunk(chunks[k], delta)];
        k := k + 1;
      }
    }

    /**
     * A new text: only the chunk around the difference is read again, if it still starts with an anchor.
     * The warnings are then those of reading the text afresh exactly when both see the same at every line.
     */
    method Update(newLines: seq<Line>)
      requires Valid()
      modifies this`lines, this`chunks, this`symbols, this`diagnostics, this`astNodes, this`moved
      ensures Valid() && lines == newLines
      ensures diagnostics == AllDiagnostics(FreshChunks(rules, lines))
              <==> forall n | 1 <= n <= |lines| :: SameReport(rules, lines, chunks, moved, FreshChunks(rules, lines), n)
    {
      hide Indexed, FreshChunks, SameReport, AllDiagnostics, NodesOf, SymbolsOf;
      UpdateChunks(newLines);
      WarningsAreFresh(rules, lines, chunks, moved);
    }

    method UpdateChunks(newLines: seq<Line>)
      requires Valid()
      modifies this`lines, this`chunks, this`symbols, this`diagnostics, this`astNodes, this`moved
      ensures Valid() && lines == newLines
    {
      hide Indexed, NodesOf, SymbolsOf, ChunkOk, Edited, Replaced, FreshChunks;
      var oldLines := lines;
      lines := newLines;
      if chunks == [] || oldLines == [] || newLines == [] {
        ParseAndAnalyze();
        return;
      }
      var from, endOld, endNew := Compare(oldLines, newLines);
      if from == |oldLines| == |newLines| {
        assert oldLines[..from] == oldLines && newLines[..from] == newLines;
        return;
      }
      var at := FindChunk(from + 1);
      if at < 0 || endOld + 1 > chunks[at].endLine {
        ParseAndAnalyze();
        return;
      }
      ReplaceChunk(oldLines, at, from, endOld, endNew);
    }

    method ReplaceChunk(oldLines: seq<Line>, at: nat, ghost from: nat, ghost endOld: int, ghost endNew: int)
      requires at < |chunks| && Indexed(rules, oldLines, chunks, moved) && Edited(oldLines, lines, from, endOld, endNew) && lines != []
      requires chunks[at].startLine <= from + 1 <= chunks[at].endLine && endOld + 1 <= chunks[at].endLine
      modifies this`chunks, this`symbols, this`diagnostics, this`astNodes, this`moved
      ensures Valid()
    {
      hide Tiles, NodesOf, SymbolsOf, ChunkOk, ReadAbove, FreshChunk, Edited, ShiftChunk, FreshChunks;
      ghost var was := chunks;
      var delta := |lines| - |oldLines|;
      EditedChunkFits(rules, oldLines, lines, from, endOld, endNew, was, at);
      var start, end := chunks[at].startLine - 1, chunks[at].endLine + delta;
      if at > 0 && start < end && !rules.isAnchor(lines[start]) {
        ParseAndAnalyze();
        return;
      }
      var c := MakeChunk(start, end);
      FreshChunkIs(rules, lines, start, end);
      chunks := chunks[at := c];
      MoveLater(at, delta);
      assert chunks[at] == chunks[..at + 1][at] == c;
      assert chunks[..at] == chunks[..at + 1][..at] == was[..at];
      EditKeepsIndex(rules, oldLines, lines, from, endOld, endNew, was, moved, at, chunks);
      moved := Moved(moved, at, delta);
      RebuildFromChunks();
    }
  }

  // ---- Reading line by line ----

  lemma AnalysisStarts(rules: Rules, lines: seq<Line>, start: int)
    ensures lines[0..] == lines && SymbolsOf([]) == []
    ensures [] + NodesOf(rules, lines, start) == NodesOf(rules, lines, start)
    ensures [] + DiagnosticsOf(rules, lines, start, map[]) == DiagnosticsOf(rules, lines, start, map[])
  {}

  lemma AnalysisEnds(rules: Rules, lines: seq<Line>, line: int, defined: map<string, int>, nodes: seq<Node>, ds: seq<Diagnostic>)
    ensures nodes + NodesOf(rules, lines[|lines|..], line) == nodes
    ensures ds + DiagnosticsOf(rules, lines[|lines|..], line, defined) == ds
  {
    assert lines[|lines|..] == [];
  }

  lemma OneSymbol(n: Node)
    ensures SymbolsOf([n]) == [SymbolOf(n)]
  {}

  lemma NextNode(rules: Rules, lines: seq<Line>, start: int, i: nat, nodes: seq<Node>)
    requires i < |lines|
    ensures var f := rules.find(lines[i]);
            nodes + NodesOf(rules, lines[i..], start + i) ==
            (if f.Some? then nodes + [NodeOf(f.value, start + i)] else nodes) + NodesOf(rules, lines[i + 1..], start + i + 1)
  {
    assert lines[i..][1..] == lines[i + 1..];
  }

  lemma NextDiagnostic(rules: Rules, lines: seq<Line>, start: int, i: nat, defined: map<string, int>, ds: seq<Diagnostic>)
    requires i < |lines|
    ensures var f := rules.find(lines[i]);
            ds + DiagnosticsOf(rules, lines[i..], start + i, defined) ==
            if f.None? || f.value.kind != Function then ds + DiagnosticsOf(rules, lines[i + 1..], start + i + 1, defined)
            else
              var d := Diagnostic(NodeToRange(NodeOf(f.value, start + i)), f.value.name,
                                  if f.value.name in defined then defined[f.value.name] else 0);
              (if f.value.name in defined then ds + [d] else ds)
              + DiagnosticsOf(rules, lines[i + 1..], start + i + 1, defined[f.value.name := start + i])
  {
    assert lines[i..][1..] == lines[i + 1..];
  }

  lemma NoLines(rules: Rules)
    ensures NodesOf(rules, [], 1) == [] && SymbolsOf([]) == [] && AllDiagnostics([]) == []
  {}
}
