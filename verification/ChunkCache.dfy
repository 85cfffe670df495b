/** The incremental chunk cache: built from a text, then kept up to date edit by edit. */
module ChunkCache {
  import opened Values
  import opened Topography
  import opened Chunking
  import opened Shifting
  import opened Scanner
  import opened CacheSpec

  method ComputeHash(text: string) returns (hash: bv64)
    ensures hash == Fnv(text)
  {
    hide HashByte;
    hash := FNV_START;
    var i := 0;
    assert text[..0] == "";
    while i < |text|
      invariant 0 <= i <= |text| && hash == Fnv(text[..i])
    {
      assert text[..i + 1][..i] == text[..i];
      hash := HashByte(hash, text[i]);
      i := i + 1;
    }
    assert text[..|text|] == text;
  }

  /** The nodes of a text that starts on the given line. */
  method ScanAt(text: string, line: int) returns (nodes: seq<Node>)
    ensures nodes == ScanText(text, line)
  {
    nodes := Phase1Scan(text);
    nodes := Renumber(nodes, line - 1);
  }

  class TopologicalChunkCache {
    var chunks: seq<Chunk>
    var assembled: seq<Node>

    constructor ()
      ensures chunks == [] && assembled == []
    {
      chunks, assembled := [], [];
    }

    /** Cuts the text at its anchor lines and scans every chunk. */
    method BuildFromSource(source: string)
      modifies this
      ensures Holds(source, chunks, assembled)
      ensures source != "" ==> |chunks| == 1 + |AnchorStarts(source, 0, NewReader)|
      ensures forall i | 0 < i < |chunks| :: chunks[i].startByte == AnchorStarts(source, 0, NewReader)[i - 1]
    {
      hide Breaks, Lines, AnchorAt, Fnv, ScanText;
      chunks, assembled := [], [];
      if source == "" { return; }
      var starts, lines := FindAnchors(source);
      var made := [];
      var i := 0;
      while i < |starts|
        invariant 0 <= i <= |starts| && |made| == i
        invariant forall k | 0 <= k < i :: Cut(source, starts, k, made[k])
      {
        var end := if i + 1 < |starts| then starts[i + 1] else |source|;
        var chunk := MakeChunk(source, starts[i], end, lines[i], i + 1 < |starts|);
        made := made + [chunk];
        i := i + 1;
      }
      CutsTile(source, starts, made);
      chunks := made;
      assembled := AssembleChunks(made);
    }

    lemma AnchorsNext(source: string, pos: nat, r: Reader, starts: seq<nat>)
      requires pos < |source|
      ensures var m := Read(source, pos, r);
              starts + AnchorStarts(source, pos, r)
              == (starts + if CutsHere(source, pos, m.0) then [pos + 1] else []) + AnchorStarts(source, pos + m.1, m.0)
    {}

    lemma AnchorsEnd(source: string, pos: nat, r: Reader, starts: seq<nat>)
      requires pos >= |source|
      ensures starts + AnchorStarts(source, pos, r) == starts
    {}

    lemma LinesNext(source: string, pos: nat, step: nat)
      requires pos + step <= |source|
      ensures Breaks(source[..pos + step]) == Breaks(source[..pos]) + Breaks(source[pos..pos + step])
    {
      BreaksSlice(source, 0, pos, pos + step);
      assert source[..pos] == source[0..pos] && source[..pos + step] == source[0..pos + step];
    }

    /** The anchor lines, with the first line of the text before them. */
    method FindAnchors(source: string) returns (starts: seq<nat>, lines: seq<int>)
      requires source != ""
      ensures starts == [0] + AnchorStarts(source, 0, NewReader) && GoodStarts(source, starts)
      ensures |lines| == |starts| && forall i | 0 <= i < |starts| :: lines[i] == 1 + Breaks(source[..starts[i]])
    {
      hide Breaks, AnchorAt, AnchorStarts, Read;
      starts, lines := [0], [1];
      var pos, lineCount := 0, 1;
      var r := NewReader;
      AnchorsOk(source, 0, r);
      assert source[..0] == "";
      NoBreaks();
      while pos < |source|
        invariant pos <= |source| && r.quote != '\n' && lineCount == 1 + Breaks(source[..pos])
        invariant starts + AnchorStarts(source, pos, r) == [0] + AnchorStarts(source, 0, NewReader)
        invariant |lines| == |starts| && forall i | 0 <= i < |starts| :: starts[i] <= |source| && lines[i] == 1 + Breaks(source[..starts[i]])
        decreases |source| - pos
      {
        ReadSkips(source, pos, r);
        var c := source[pos];
        var (after, step) := Read(source, pos, r);
        AnchorsNext(source, pos, r, starts);
        LinesNext(source, pos, step);
        if c == '\n' {
          var anchor := IsAnchorLine(source, pos + 1);
          if !after.block && !after.triple && anchor {
            AnchorInside(source, pos + 1);
            starts, lines := starts + [pos + 1], lines + [lineCount + 1];
          }
          lineCount := lineCount + 1;
        }
        r, pos := after, pos + step;
      }
      AnchorsEnd(source, pos, r, starts);
      StartsGood(source, starts);
    }

    method MakeChunk(source: string, start: nat, end: nat, line: int, ghost inner: bool) returns (chunk: Chunk)
      requires start < end <= |source| && line == 1 + Breaks(source[..start]) && (inner ==> source[end - 1] == '\n')
      ensures ChunkOk(source, chunk) && chunk.startByte == start && chunk.endByte == end
      ensures inner ==> EndsLine(chunk.text) && chunk.endLine == Breaks(source[..end])
    {
      hide Breaks, Lines, Fnv, ScanText;
      var breaks := CountBreaks(source, start, end);
      BreaksSlice(source, 0, start, end);
      assert source[..start] == source[0..start] && source[..end] == source[0..end];
      if source[end - 1] == '\n' { BreaksSlice(source, start, end - 1, end); OneBreak(source, end - 1); }
      var endLine := if source[end - 1] == '\n' then line + breaks - 1 else line + breaks;
      if endLine < line { endLine := line; }
      var text := source[start..end];
      var hash := ComputeHash(text);
      var nodes := ScanAt(text, line);
      chunk := Chunk(line, endLine, start, end, text, nodes, hash);
    }

    method AssembleChunks(cs: seq<Chunk>) returns (nodes: seq<Node>)
      ensures nodes == Assemble(cs)
    {
      nodes := [];
      var i := 0;
      while i < |cs|
        invariant 0 <= i <= |cs| && nodes == Assemble(cs[..i])
      {
        assert cs[..i + 1][..i] == cs[..i];
        nodes := nodes + cs[i].nodes;
        i := i + 1;
      }
      assert cs[..|cs|] == cs;
    }

    /** The chunk that contains a line, or -1. */
    method FindChunkIndex(line: int) returns (index: int)
      requires forall i, j | 0 <= i < j < |chunks| :: chunks[i].endLine <= chunks[j].endLine
      ensures -1 <= index < |chunks|
      ensures index >= 0 ==> chunks[index].startLine <= line <= chunks[index].endLine && line >= 1
    {
      if |chunks| == 0 || line < 1 { return -1; }
      var low, high := 0, |chunks|;
      while low < high
        invariant 0 <= low <= high <= |chunks|
        invariant forall i | 0 <= i < low :: chunks[i].endLine < line
        invariant forall i | high <= i < |chunks| :: chunks[i].endLine >= line
      {
        var mid := (low + high) / 2;
        if chunks[mid].endLine < line { low := mid + 1; } else { high := mid; }
      }
      if low < |chunks| && line >= chunks[low].startLine && line <= chunks[low].endLine { return low; }
      return -1;
    }

    /** Where the lines from `first` to `last` lie in the new text: the first position before
        its end on line `first`, or 0; and the first on line last + 1, or the end. */
    method LocateLines(source: string, first: int, last: int, ghost above: int) returns (start: nat, end: nat)
      requires first >= 1 && first <= last + 1 && above == first - 1
      ensures Located(source, first, last, start, end)
    {
      hide Breaks;
      start, end := 0, |source|;
      var line, p := 1, 0;
      var found := first == 1;
      NoBreaks();
      assert source[..0] == "";
      while p < |source|
        invariant 0 <= p <= |source| && line == 1 + Breaks(source[..p]) && line <= last + 1
        invariant end == |source| && (forall q | 0 <= q < p :: Breaks(source[..q]) < last)
        invariant first == 1 ==> found && start == 0
        invariant first > 1 && !found ==> start == 0 && line <= first && forall q | 0 <= q < p :: Breaks(source[..q]) < above
        invariant first > 1 && found ==> start < p && LineStart(source, above, start)
      {
        if line == first && !found {
          start, found := p, true;
        }
        if line == last + 1 {
          end := p;
          break;
        }
        BreaksSlice(source, 0, p, p + 1);
        OneBreak(source, p);
        assert source[..p] == source[0..p] && source[..p + 1] == source[0..p + 1];
        if source[p] == '\n' { line := line + 1; }
        p := p + 1;
      }
    }

    method NodeOffset(index: nat) returns (offset: nat)
      requires index <= |chunks|
      ensures offset == |Assemble(chunks[..index])|
    {
      offset := 0;
      var i := 0;
      while i < index
        invariant 0 <= i <= index && offset == |Assemble(chunks[..i])|
      {
        assert chunks[..i + 1][..i] == chunks[..i];
        offset := offset + |chunks[i].nodes|;
        i := i + 1;
      }
    }

    /** Rescans the edited chunk if its text changed, and puts its lines in place. */
    method RescanChunk(index: nat, source: string, start: nat, end: nat, endLine: int)
      requires index < |chunks| && start <= end <= |source| && assembled == Assemble(chunks)
      modifies this`chunks, this`assembled
      ensures chunks == old(chunks)[index := Recut(old(chunks)[index], source, start, end, endLine)]
      ensures var c := old(chunks)[index];
              var off := |Assemble(old(chunks)[..index])|;
              off + |c.nodes| <= |old(assembled)|
              && assembled == old(assembled)[..off] + chunks[index].nodes + old(assembled)[off + |c.nodes|..]
    {
      hide ScanText, Fnv, Lines;
      var c := chunks[index];
      var text := source[start..end];
      var hash := ComputeHash(text);
      var offset := NodeOffset(index);
      AssembleSplit(chunks, index);
      if hash != c.hash {
        var nodes := ScanAt(text, c.startLine);
        assembled := assembled[..offset] + nodes + assembled[offset + |c.nodes|..];
        chunks := chunks[index := Chunk(c.startLine, endLine, start, end, text, nodes, hash)];
      } else {
        chunks := chunks[index := Chunk(c.startLine, endLine, start, end, c.text, c.nodes, hash)];
      }
    }

    /** Moves the chunks behind the edited one. */
    method SlideChunks(index: nat, bytes: int, delta: int)
      requires index < |chunks| && forall k | index < k < |chunks| :: chunks[k].startByte + bytes >= 0 && chunks[k].endByte + bytes >= 0
      modifies this`chunks
      ensures |chunks| == |old(chunks)| && chunks[..index + 1] == old(chunks)[..index + 1]
      ensures forall k | index < k < |chunks| :: old(chunks)[k].startByte + bytes >= 0 && old(chunks)[k].endByte + bytes >= 0
                                                 && chunks[k] == Slid(old(chunks)[k], bytes, delta)
    {
      ghost var was := chunks;
      var i := index + 1;
      while i < |chunks|
        invariant index < i <= |chunks| == |was| && chunks[..index + 1] == was[..index + 1]
        invariant forall k | i <= k < |chunks| :: chunks[k] == was[k]
        invariant forall k | index < k < i :: was[k].startByte + bytes >= 0 && was[k].endByte + bytes >= 0 && chunks[k] == Slid(was[k], bytes, delta)
      {
        var c := chunks[i];
        var nodes := Renumber(c.nodes, delta);
        chunks := chunks[i := c.(startLine := c.startLine + delta, endLine := c.endLine + delta,
                                 startByte := c.startByte + bytes, endByte := c.endByte + bytes, nodes := nodes)];
        i := i + 1;
      }
    }

    /** Puts the edited chunk and everything behind it in its new place. */
    method Splice(index: nat, source: string, start: nat, end: nat, lineDelta: int)
      requires index < |chunks| && start <= end <= |source| && assembled == Assemble(chunks)
      requires var bytes := (end - start) - (chunks[index].endByte - chunks[index].startByte);
               forall k | index < k < |chunks| :: chunks[k].startByte + bytes >= 0 && chunks[k].endByte + bytes >= 0
      modifies this
      ensures IsSpliced(old(chunks), index, source, start, end, lineDelta, chunks, assembled)
    {
      hide Assemble, Recut, ShiftNodes;
      ghost var was := chunks;
      var bytes := (end - start) - (chunks[index].endByte - chunks[index].startByte);
      RescanChunk(index, source, start, end, chunks[index].endLine + lineDelta);
      ghost var mid := chunks;
      SlideChunks(index, bytes, lineDelta);
      assert chunks[..index] == chunks[..index + 1][..index] == mid[..index + 1][..index] == mid[..index] == was[..index];
      assert chunks[index] == chunks[..index + 1][index] == mid[index];
      if lineDelta != 0 {
        var offset := NodeOffset(index);
        var later := offset + |chunks[index].nodes|;
        var moved := Renumber(assembled[later..], lineDelta);
        assembled := assembled[..later] + moved;
      }
    }

    /** An edit inside one chunk: rescans that chunk and moves the later ones; anything else
        builds afresh. The cache tiles the new text exactly if the edited chunk still starts
        before its end. */
    method ApplyEdit(newSource: string, editStart: int, editEnd: int, lineDelta: int, ghost e: Edit)
        returns (incremental: bool, result: seq<Node>, ghost index: nat)
      requires Holds(Before(e), chunks, assembled) && newSource == After(e) && Describes(e, editStart, editEnd, lineDelta)
      modifies this
      ensures result == assembled && (!incremental ==> Holds(newSource, chunks, assembled))
      ensures incremental ==> index < |old(chunks)|
      ensures incremental && NoCollision(e, old(chunks)[index]) ==>
                (Holds(newSource, chunks, assembled) <==> index == 0 || old(chunks)[index].startByte < |newSource|)
    {
      hide Breaks, Lines, Fnv, ScanText, Tiles, AnchorAt, Assemble, Located, NoCollision, Recut, Slid, ShiftNodes, IsSpliced;
      index := 0;
      var at := -1;
      EndLinesOrdered(Before(e), chunks);
      if |chunks| > 0 { at := FindChunkIndex(editStart); }
      if at < 0 || editEnd > chunks[at].endLine {
        BuildFromSource(newSource);
        return false, assembled, 0;
      }
      index := at;
      ghost var was := chunks;
      NewLines(e, editStart, editEnd, lineDelta, was, at);
      var start, end := LocateLines(newSource, chunks[at].startLine, chunks[at].endLine + lineDelta, chunks[at].startLine - 1);
      var anchor := IsAnchorLine(newSource, start);
      if at > 0 && !anchor {
        BuildFromSource(newSource);
        return false, assembled, index;
      }
      EditPlace(e, editStart, editEnd, lineDelta, was, at, start, end);
      BytesMoved(e, editStart, editEnd, lineDelta, was, at, start, end);
      Splice(at, newSource, start, end, lineDelta);
      incremental, result := true, assembled;
      if NoCollision(e, was[at]) { Verdict(e, editStart, editEnd, lineDelta, was, at, start, end, chunks, assembled); }
    }
  }

  /** Chunk i of a cache was rescanned, the later ones moved, and the nodes put together again. */
  ghost predicate IsSpliced(was: seq<Chunk>, i: nat, src: string, start: nat, end: nat, delta: int, news: seq<Chunk>, final: seq<Node>)
    requires i < |was| && start <= end <= |src|
  {
    && |news| == |was| && news[..i] == was[..i] && news[i] == Recut(was[i], src, start, end, was[i].endLine + delta)
    && MovedAfter(was, i, (end - start) - (was[i].endByte - was[i].startByte), delta, news)
    && PutTogether(was, i, delta, news[i], final)
  }

  ghost predicate MovedAfter(was: seq<Chunk>, i: nat, bytes: int, delta: int, news: seq<Chunk>)
    requires |news| == |was|
  {
    forall k | i < k < |news| ::
      && was[k].startByte + bytes >= 0 && was[k].endByte + bytes >= 0 && news[k] == Slid(was[k], bytes, delta)
  }

  ghost predicate PutTogether(was: seq<Chunk>, i: nat, delta: int, chunk: Chunk, final: seq<Node>)
    requires i < |was|
  {
    var all := Assemble(was);
    var off := |Assemble(was[..i])|;
    && off + |was[i].nodes| <= |all|
    && var mid := all[..off] + chunk.nodes + all[off + |was[i].nodes|..];
       var later := off + |chunk.nodes|;
       final == if delta != 0 then mid[..later] + ShiftNodes(mid[later..], delta) else mid
  }

  /** The spliced cache is right exactly if the chunk still starts before the end of the new text. */
  lemma Verdict(e: Edit, a: int, b: int, delta: int, was: seq<Chunk>, i: nat, start: nat, end: nat, news: seq<Chunk>, final: seq<Node>)
    requires Describes(e, a, b, delta) && Tiles(Before(e), was) && i < |was| && NoCollision(e, was[i])
    requires was[i].startLine <= a && b <= was[i].endLine && start <= end <= |After(e)| && end == Moved(e, was[i].endByte)
    requires if i == 0 || was[i].startByte < |After(e)| then start == was[i].startByte else start == 0 && i + 1 == |was|
    requires IsSpliced(was, i, After(e), start, end, delta, news, final)
    ensures Holds(After(e), news, final) <==> i == 0 || was[i].startByte < |After(e)|
  {
    hide Breaks, Lines, Fnv, ScanText, Tiles, AnchorAt, Assemble, Located, NoCollision, Recut, Slid, ShiftNodes;
    if i == 0 || was[i].startByte < |After(e)| {
      Spliced(e, a, b, delta, was, i, end, news);
      FinalAssembled(e, delta, was, i, news, final);
    } else {
      RecutStart(was[i], After(e), start, end, was[i].endLine + delta);
      LostStart(After(e), news, i);
    }
  }

  /**
   * What goes wrong at the edit of LostExample, for a cache cut before its second line: the lines of
   * the second chunk are looked for in vain, so it is rescanned from the start of the text, which is
   * an anchor line as well, and the cache keeps two chunks that both start there.
   */
  lemma LostEditBreaksCache(was: seq<Chunk>, start: nat, end: nat, news: seq<Chunk>, final: seq<Node>)
    requires Tiles(Before(LostEdit), was) && |was| == 2 && was[1].startByte == 5 && NoCollision(LostEdit, was[1])
    requires Located(After(LostEdit), was[1].startLine, was[1].endLine, start, end)
    requires start <= end <= |After(LostEdit)| ==> IsSpliced(was, 1, After(LostEdit), start, end, 0, news, final)
    ensures was[1].startLine == 2 == was[1].endLine && start == 0 && AnchorAt(After(LostEdit), start)
    ensures |news| == 2 && news[0].startByte == 0 == news[1].startByte && !Holds(After(LostEdit), news, final)
  {
    hide Breaks, Lines, Fnv, ScanText, Tiles, AnchorAt, Located, NoCollision, Recut, Slid, ShiftNodes, PutTogether, Assemble, MovedAfter, Describes, ChunkOk, Moved;
    LostExample();
    LostLines(was);
    EditPlace(LostEdit, 2, 2, 0, was, 1, start, end);
    Verdict(LostEdit, 2, 2, 0, was, 1, start, end, news, final);
    RecutStart(was[1], After(LostEdit), start, end, was[1].endLine);
    FirstChunk(Before(LostEdit), was, 0);
    assert news[..1][0] == news[0] && was[..1][0] == was[0];
  }

  lemma LostLines(was: seq<Chunk>)
    requires Tiles(Before(LostEdit), was) && |was| == 2 && was[1].startByte == 5
    ensures was[1].startLine == 2 == was[1].endLine
  {
    hide Breaks, Lines, Fnv, ScanText;
    LostExample();
    OneLine("to b");
    LastChunk(Before(LostEdit), was, 1);
    assert ChunkOk(Before(LostEdit), was[1]);
    assert was[1].text == "to b";
  }

  lemma RecutStart(c: Chunk, src: string, start: nat, end: nat, endLine: int)
    requires start <= end <= |src|
    ensures Recut(c, src, start, end, endLine).startByte == start
  {
    hide Fnv, ScanText;
  }

  /** The moved bytes are those of the edit, unless there is nothing to move. */
  lemma BytesMoved(e: Edit, a: int, b: int, delta: int, chunks: seq<Chunk>, i: nat, start: nat, end: nat)
    requires Describes(e, a, b, delta) && Tiles(Before(e), chunks) && i < |chunks|
    requires chunks[i].startLine <= a && b <= chunks[i].endLine && end == Moved(e, chunks[i].endByte)
    requires start == chunks[i].startByte || i + 1 == |chunks|
    ensures var bytes := (end - start) - (chunks[i].endByte - chunks[i].startByte);
            forall k | i < k < |chunks| :: chunks[k].startByte + bytes >= 0 && chunks[k].endByte + bytes >= 0
  {
    hide Tiles, Breaks;
    forall k | i < k < |chunks|
      ensures chunks[k].startByte + |e.y| - |e.x| >= 0 && chunks[k].endByte + |e.y| - |e.x| >= 0
    {
      LaterMoves(e, a, b, delta, chunks, i, k);
    }
  }

  /** The spliced chunks tile the new text. */
  lemma Spliced(e: Edit, a: int, b: int, delta: int, was: seq<Chunk>, i: nat, end: nat, news: seq<Chunk>)
    requires Describes(e, a, b, delta) && Tiles(Before(e), was) && i < |was| && NoCollision(e, was[i])
    requires was[i].startLine <= a && b <= was[i].endLine && (i == 0 || was[i].startByte < |After(e)|)
    requires was[i].startByte <= end == Moved(e, was[i].endByte) <= |After(e)|
    requires |news| == |was| && news[..i] == was[..i] && news[i] == Recut(was[i], After(e), was[i].startByte, end, was[i].endLine + delta)
    requires var bytes := (end - was[i].startByte) - (was[i].endByte - was[i].startByte);
             forall k | i < k < |was| ::
               was[k].startByte + bytes >= 0 && was[k].endByte + bytes >= 0 && news[k] == Slid(was[k], bytes, delta)
    ensures EditedTo(e, delta, was, i, news) && Tiles(After(e), news)
  {
    hide Tiles, Breaks, Fnv, ScanText, Recut, Slid, NoCollision, Lines;
    OneChunk(Before(e), was, i);
    RecutRescans(e, was[i], end, delta);
    assert (end - was[i].startByte) - (was[i].endByte - was[i].startByte) == |e.y| - |e.x|;
    EditedTiles(e, a, b, delta, was, i, news);
  }

  // ---- A fresh build tiles ----

  ghost predicate GoodStarts(src: string, starts: seq<nat>) {
    && starts != [] && starts[0] == 0 && Increasing(starts) && (forall i | 0 <= i < |starts| :: starts[i] < |src|)
    && forall i | 0 < i < |starts| :: src[starts[i] - 1] == '\n'
  }

  lemma StartsGood(src: string, starts: seq<nat>)
    requires src != "" && starts == [0] + AnchorStarts(src, 0, NewReader)
    ensures GoodStarts(src, starts)
  {
    hide AnchorAt, AnchorStarts;
    AnchorsOk(src, 0, NewReader);
    IncreasingCons(0, AnchorStarts(src, 0, NewReader));
    forall i | 0 < i < |starts| ensures starts[i] < |src| && starts[i] > 0 && src[starts[i] - 1] == '\n' {
      assert starts[i] in AnchorStarts(src, 0, NewReader);
    }
  }

  /** c is the chunk of the k-th start. */
  ghost predicate Cut(src: string, starts: seq<nat>, k: nat, c: Chunk)
    requires k < |starts|
  {
    && ChunkOk(src, c) && c.startByte == starts[k] && c.endByte == (if k + 1 < |starts| then starts[k + 1] else |src|)
    && (k + 1 < |starts| ==> EndsLine(c.text) && c.endLine == Breaks(src[..c.endByte]))
  }

  lemma CutsTile(src: string, starts: seq<nat>, chunks: seq<Chunk>)
    requires GoodStarts(src, starts) && |chunks| == |starts| && forall k | 0 <= k < |chunks| :: Cut(src, starts, k, chunks[k])
    ensures Tiles(src, chunks)
  {
    hide Breaks, Lines, Fnv, ScanText, EndsLine;
    forall i | 0 <= i < |chunks| - 1 ensures Adjacent(chunks, i) {
      assert Cut(src, starts, i, chunks[i]) && Cut(src, starts, i + 1, chunks[i + 1]);
    }
    assert Cut(src, starts, 0, chunks[0]) && Cut(src, starts, |chunks| - 1, chunks[|chunks| - 1]);
    forall i | 0 <= i < |chunks| ensures ChunkOk(src, chunks[i]) && chunks[i].startByte < chunks[i].endByte {
      assert Cut(src, starts, i, chunks[i]);
    }
    MakeTiles(src, chunks);
  }
}
