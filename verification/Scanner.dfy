/** The scanner's loops: the whole text, one chunk, the split points, and all chunks. */
module Scanner {
  import opened Values
  import opened Topography
  import opened Chunking
  import opened Shifting

  method IsAnchorLine(source: string, start: nat) returns (anchor: bool)
    ensures anchor == AnchorAt(source, start)
  {
    if start >= |source| { return false; }
    var first := source[start];
    if first == ' ' || first == '\t' || first == '\r' || first == '\n' || first == '#' { return false; }
    var wordEnd := start;
    while wordEnd < |source| && WordChar(source[wordEnd])
      invariant start <= wordEnd <= |source| && WordEnd(source, start) == WordEnd(source, wordEnd)
    {
      wordEnd := wordEnd + 1;
    }
    if wordEnd == start { return false; }
    if source[start..wordEnd] !in ANCHORS { return false; }
    if wordEnd < |source| {
      var next := source[wordEnd];
      if !SpaceChar(next) && next != '(' && next != ':' && next != '\0' { return false; }
    }
    return true;
  }

  method BlockHasCode(text: string) returns (code: bool)
    ensures code == HasCode(text, 0, false, false)
  {
    var block, line := false, false;
    var i := 0;
    while i < |text|
      invariant HasCode(text, 0, false, false) == HasCode(text, i, block, line) && !(block && line)
    {
      var c := text[i];
      if block {
        if c == '*' && At(text, i + 1, '/') {
          block := false;
          i := i + 1;
        }
      } else if line {
        if c == '\n' { line := false; }
      } else if c == '/' && At(text, i + 1, '*') {
        block := true;
        i := i + 1;
      } else if c == '#' {
        line := true;
      } else if !Blank(c) {
        return true;
      }
      i := i + 1;
    }
    return false;
  }

  /** The node of a logical line, if it has code. */
  method LineNodes(startLine: int, text: string) returns (nodes: seq<Node>)
    ensures nodes == NodesOf(startLine, text)
  {
    var first := 0;
    while first < |text| && Blank(text[first])
      invariant first <= |text| && FirstCode(text, 0) == FirstCode(text, first)
    {
      first := first + 1;
    }
    var code := BlockHasCode(text);
    if first == |text| || !code { return []; }
    var indent, i := 0, 0;
    while i < first && text[i] != '\n' && text[i] != '\r'
      invariant i <= first && Indent(text, 0, first) == indent + Indent(text, i, first)
    {
      if text[i] == '\t' { indent := indent + 4; } else if text[i] == ' ' { indent := indent + 1; }
      i := i + 1;
    }
    return [Node(startLine, indent, text)];
  }

  method NoCloseFrom(source: string, p: nat) returns (none: bool)
    ensures none == NoClose(source, p)
  {
    var i := p;
    while i + 1 < |source|
      invariant i >= p && forall j | p <= j < i && j < |source| - 1 :: !(source[j] == '*' && source[j + 1] == '/')
    {
      if source[i] == '*' && source[i + 1] == '/' { return false; }
      i := i + 1;
    }
    return true;
  }

  method Renumber(nodes: seq<Node>, offset: int) returns (moved: seq<Node>)
    ensures moved == ShiftNodes(nodes, offset)
  {
    moved := [];
    var i := 0;
    while i < |nodes|
      invariant 0 <= i <= |nodes| && |moved| == i
      invariant forall j | 0 <= j < i :: moved[j] == nodes[j].(line := nodes[j].line + offset)
    {
      moved := moved + [nodes[i].(line := nodes[i].line + offset)];
      i := i + 1;
    }
  }

  /** The flags and depths the scanner keeps between characters. */
  class Automaton {
    var paren: nat
    var bracket: nat
    var brace: nat
    var quote: char
    var triple: bool
    var escaped: bool
    var comment: bool
    var block: bool

    ghost function L(): Lex
      reads this
    {
      Lex(paren, bracket, brace, quote, triple, escaped, comment, block)
    }

    constructor ()
      ensures L() == Clean
    {
      paren, bracket, brace, quote := 0, 0, 0, NO_QUOTE;
      triple, escaped, comment, block := false, false, false, false;
    }

    method Reset()
      requires !triple
      modifies this
      ensures L() == Clean
    {
      paren, bracket, brace, quote := 0, 0, 0, NO_QUOTE;
      escaped, comment, block := false, false, false;
    }

    /** Reads one character. */
    method Read(source: string, pos: nat, c: char) returns (next: nat, kind: Kind)
      requires quote != '\n'
      modifies this
      ensures Move(next, L(), kind) == Feed(source, pos, c, old(L()))
    {
      next, kind := pos, Onward;
      if block {
        if c == '*' && At(source, pos + 1, '/') {
          block := false;
          next, kind := pos + 2, Again;
        }
      } else if comment {
        if c == '\n' { comment := false; }
      } else if quote != NO_QUOTE {
        if escaped { escaped := false; }
        else if c == '\\' { escaped := true; }
        else if triple && c == quote && At(source, pos + 1, quote) && At(source, pos + 2, quote) {
          quote, triple := NO_QUOTE, false;
          next := pos + 2;
        } else if !triple && c == quote { quote := NO_QUOTE; }
      } else {
        next, kind := ReadCode(source, pos, c);
      }
    }

    method ReadCode(source: string, pos: nat, c: char) returns (next: nat, kind: Kind)
      modifies this
      ensures Move(next, L(), kind) == FeedCode(source, pos, c, old(L()))
    {
      next, kind := pos, Onward;
      if c == '/' && At(source, pos + 1, '*') {
        block := true;
        next, kind := pos + 2, Again;
      } else if c == '#' {
        comment := true;
      } else if c == '\\' && (At(source, pos + 1, '\n') || (At(source, pos + 1, '\r') && At(source, pos + 2, '\n'))) {
        next := if source[pos + 1] == '\r' then pos + 3 else pos + 2;
        kind := Joined;
      } else if c == '"' || c == '\'' {
        quote := c;
        if At(source, pos + 1, c) && At(source, pos + 2, c) {
          triple := true;
          next := pos + 2;
        }
      } else if c == '(' {
        paren := paren + 1;
      } else if c == ')' {
        paren := if paren == 0 then 0 else paren - 1;
      } else if c == '[' {
        bracket := bracket + 1;
      } else if c == ']' {
        bracket := if bracket == 0 then 0 else bracket - 1;
      } else if c == '{' {
        brace := brace + 1;
      } else if c == '}' {
        brace := if brace == 0 then 0 else brace - 1;
      }
    }
  }

  /** One scan in progress. */
  class LineScanner {
    const lex: Automaton
    var pos: nat
    var nodeStart: nat
    var lineCount: int
    var startLine: int
    var recovery: Option<Mark>
    var nodes: seq<Node>

    ghost function S(): Scan
      reads this, lex
    {
      Scan(pos, lex.L(), nodeStart, lineCount, startLine, recovery, nodes)
    }

    constructor (start: nat, line: int)
      ensures fresh(lex) && S() == Init(start, line)
    {
      lex := new Automaton();
      pos, nodeStart, lineCount, startLine, recovery, nodes := start, start, line, line, None, [];
    }

    /** One turn of the scan loop. */
    method Turn(source: string, end: nat)
      requires Usable(source, end, S()) && lex.quote != '\n'
      modifies this, lex
      ensures S() == Step(source, end, old(S())) && lex.quote != '\n'
    {
      QuoteStep(source, end, S());
      hide Feed, Newline;
      var c := if pos < end then source[pos] else '\n';
      var wasBlock := lex.block;
      var next, kind := lex.Read(source, pos, c);
      if kind == Again {
        if wasBlock { recovery := None; }
        pos := next;
      } else if kind == Joined {
        pos := next;
        lineCount := lineCount + 1;
      } else if c == '\n' {
        EndLine(source, end);
      } else {
        pos := next + 1;
      }
    }

    method EndLine(source: string, end: nat)
      requires Usable(source, end, S())
      modifies this, lex
      ensures S() == Newline(source, end, old(S()))
    {
      hide AnchorAt, NodesOf;
      if lex.paren > 0 || lex.bracket > 0 || lex.brace > 0 || lex.quote != NO_QUOTE || lex.block {
        var next := if pos < end then pos + 1 else pos;
        var anchor := IsAnchorLine(source, next);
        if lex.block {
          if recovery.None? && anchor { recovery := Some(Mark(next, lineCount + 1)); }
        } else if !lex.triple && anchor {
          lex.Reset();
          nodeStart, startLine := pos + 1, lineCount + 1;
        }
      } else {
        var found := LineNodes(startLine, source[nodeStart..pos]);
        nodes := nodes + found;
        nodeStart, startLine := pos + 1, lineCount + 1;
      }
      lineCount, pos := lineCount + 1, pos + 1;
    }

    /** All turns up to `end`. */
    method Finish(source: string, end: nat)
      requires end <= |source| && nodeStart <= pos && lex.quote != '\n'
      modifies this, lex
      ensures S() == Loop(source, end, old(S()))
    {
      hide Step;
      while pos <= end
        invariant nodeStart <= pos && lex.quote != '\n' && Loop(source, end, S()) == Loop(source, end, old(S()))
        decreases end + 1 - pos
      {
        Turn(source, end);
      }
    }
  }

  lemma MarkNotClosed(src: string, start: nat, line: int)
    requires start <= |src|
    ensures var t := Loop(src, |src|, Init(start, line));
            t.rec.Some? ==> t.lex.block && start < t.rec.value.pos <= |src| && NoClose(src, t.rec.value.pos)
  {
    MarkBehind(src, start, line);
    hide Loop;
  }

  /** The scan of a whole text. */
  method Phase1Scan(source: string) returns (nodes: seq<Node>)
    ensures nodes == Lines(source, |source|, 0, 1)
    decreases |source|
  {
    hide Loop, NoClose;
    var scan := new LineScanner(0, 1);
    scan.Finish(source, |source|);
    nodes := scan.nodes;
    MarkNotClosed(source, 0, 1);
    if scan.lex.block && scan.recovery.Some? {
      var mark := scan.recovery.value;
      var tail := Phase1Scan(source[mark.pos..]);
      LinesShift(source, mark.pos, source[mark.pos..], 0, 1, mark.line - 1);
      tail := Renumber(tail, mark.line - 1);
      nodes := nodes + tail;
    } else {
      AddNone(nodes);
    }
  }

  /** The scan of one chunk of a text, in place. */
  method ScanChunk(source: string, start: nat, end: nat, line: int) returns (nodes: seq<Node>)
    requires start <= end <= |source|
    ensures nodes == Lines(source, end, start, line)
    decreases end - start
  {
    MarkedLoop(source, end, start, Init(start, line));
    hide Loop, NoClose;
    var scan := new LineScanner(start, line);
    scan.Finish(source, end);
    nodes := scan.nodes;
    var unclosed := false;
    if scan.lex.block && scan.recovery.Some? { unclosed := NoCloseFrom(source, scan.recovery.value.pos); }
    if unclosed {
      var tail := ScanChunk(source, scan.recovery.value.pos, end, scan.recovery.value.line);
      nodes := nodes + tail;
    } else {
      AddNone(nodes);
    }
  }

  /** The places where a text may be cut. */
  method FindCleanSplitPoints(source: string) returns (points: seq<nat>)
    ensures points == Points(source, 0, Clean)
  {
    hide Feed, AnchorAt;
    var lex := new Automaton();
    points := [];
    var pos := 0;
    while pos < |source|
      invariant fresh(lex) && lex.quote != '\n'
      invariant points + Points(source, pos, lex.L()) == Points(source, 0, Clean)
      decreases |source| - pos
    {
      var c := source[pos];
      FeedQuote(source, pos, c, lex.L());
      PointsUnfold(source, pos, lex.L());
      var next, kind := lex.Read(source, pos, c);
      if kind != Onward {
        pos := next;
        continue;
      }
      if c == '\n' {
        if lex.paren > 0 || lex.bracket > 0 || lex.brace > 0 || lex.quote != NO_QUOTE {
          var anchor := IsAnchorLine(source, pos + 1);
          if !lex.triple && anchor {
            lex.Reset();
            if pos + 1 < |source| { points := points + [pos + 1]; }
          }
        } else if !lex.block && !lex.triple {
          if pos + 1 < |source| { points := points + [pos + 1]; }
        }
      }
      pos := next + 1;
    }
  }

  lemma FeedQuote(src: string, pos: nat, c: char, a: Lex)
    requires a.quote != '\n'
    ensures Feed(src, pos, c, a).lex.quote != '\n'
  {}

  /** Chunk starts: for every thread but the first, the split point nearest to an even share. */
  method ChooseStarts(size: nat, threads: nat, points: seq<nat>) returns (starts: seq<nat>)
    requires threads > 0
    ensures starts != [] && starts[0] == 0 && Increasing(starts) && forall i | 0 < i < |starts| :: starts[i] in points
  {
    starts := [0];
    var share := size / threads;
    var i := 1;
    while i < threads
      invariant starts != [] && starts[0] == 0 && Increasing(starts) && forall k | 0 < k < |starts| :: starts[k] in points
    {
      var target := i * share;
      var best, bestDist, k := 0, -1, 0;
      while k < |points|
        invariant best == 0 || (best in points && best > starts[|starts| - 1])
      {
        var cand := points[k];
        if cand > starts[|starts| - 1] {
          var dist := if cand >= target then cand - target else target - cand;
          if bestDist == -1 || dist < bestDist { best, bestDist := cand, dist; }
        }
        k := k + 1;
      }
      if best != 0 {
        IncreasingSnoc(starts, best);
        starts := starts + [best];
      }
      i := i + 1;
    }
  }

  lemma IncreasingSnoc(xs: seq<nat>, x: nat)
    requires Increasing(xs) && (xs != [] ==> xs[|xs| - 1] < x)
    ensures Increasing(xs + [x])
  {
    var ys := xs + [x];
    forall i, j | 0 <= i < j < |ys| ensures ys[i] < ys[j] {
      if j == |xs| && i < |xs| - 1 { assert xs[i] < xs[|xs| - 1]; }
    }
  }

  /** The newlines of a part of the text. */
  method CountBreaks(source: string, start: nat, end: nat) returns (n: nat)
    requires start <= end <= |source|
    ensures n == Breaks(source[start..end])
  {
    n := 0;
    var p := start;
    assert source[start..start] == "";
    while p < end
      invariant start <= p <= end && n == Breaks(source[start..p])
    {
      assert source[start..p + 1][..p - start] == source[start..p];
      if source[p] == '\n' { n := n + 1; }
      p := p + 1;
    }
  }

  /** The scan of all chunks, one result after the other. */
  method ScanPieces(source: string, starts: seq<nat>) returns (nodes: seq<Node>)
    requires Cuts(source, starts)
    ensures nodes == AllPieces(source, starts, 0)
  {
    hide Lines, Breaks;
    nodes := [];
    var line, i := 1, 0;
    assert source[..0] == "";
    NoBreaks();
    while i < |starts|
      invariant 0 <= i <= |starts| && nodes + AllPieces(source, starts, i) == AllPieces(source, starts, 0)
      invariant i < |starts| ==> line == 1 + Breaks(source[..starts[i]])
    {
      var end := if i + 1 < |starts| then starts[i + 1] else |source|;
      var found := ScanChunk(source, starts[i], end, line);
      nodes := nodes + found;
      var breaks := CountBreaks(source, starts[i], end);
      BreaksSlice(source, 0, starts[i], end);
      assert source[..starts[i]] == source[0..starts[i]] && source[..end] == source[0..end];
      line := line + breaks;
      i := i + 1;
    }
    AddNone(nodes);
  }

  /** The parallel scan, with the number of hardware threads as a parameter. */
  method Phase1ScanParallel(source: string, numThreads: nat, hardware: nat) returns (nodes: seq<Node>)
    ensures Straight(source, Init(0, 1)) ==> nodes == Lines(source, |source|, 0, 1)
  {
    hide Lines, Points, Straight, Begins, AllPieces;
    if |source| == 0 {
      EmptySource(source);
      return [];
    }
    var threads := if numThreads > 0 then numThreads else if hardware > 0 then hardware else 4;
    if threads > 8 { threads := 8; }
    if |source| < 16384 || threads <= 1 {
      nodes := Phase1Scan(source);
      return;
    }
    var points := FindCleanSplitPoints(source);
    if points == [] {
      nodes := Phase1Scan(source);
      return;
    }
    PointsInside(source, 0, Clean);
    var starts := ChooseStarts(|source|, threads, points);
    assert Cuts(source, starts);
    nodes := ScanPieces(source, starts);
    if Straight(source, Init(0, 1)) {
      forall e | e in points ensures Begins(source, e, Init(0, 1)) { PointsAreGood(source, e); }
      BeginsHere(source, 0, 1);
      PiecesMakeWhole(source, starts);
    }
  }

  lemma {:induction false} PointsInside(src: string, pos: nat, a: Lex)
    ensures forall e | e in Points(src, pos, a) :: e < |src|
    decreases if pos <= |src| then |src| - pos else 0
  {
    hide Feed, Resumes;
    if pos < |src| {
      var m := Feed(src, pos, src[pos], a);
      if m.kind != Onward { PointsInside(src, m.pos, m.lex); }
      else if src[pos] != '\n' { PointsInside(src, m.pos + 1, m.lex); }
      else { PointsInside(src, pos + 1, Resumes(src, pos, m.lex)); }
    }
  }
}
