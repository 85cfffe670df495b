/** What the incremental chunk cache keeps true, and what an edit does to it. */
module CacheSpec {
  import opened Values
  import opened Topography
  import opened Chunking
  import opened Shifting

  /** A chunk: its lines and bytes in the text, its own text and that text's lines. */
  datatype Chunk = Chunk(startLine: int, endLine: int, startByte: nat, endByte: nat, text: string, nodes: seq<Node>, hash: bv64)

  const FNV_START: bv64 := 14695981039346656037

  function HashByte(hash: bv64, c: char): bv64 { (hash ^ ((c as int % 256) as bv64)) * 1099511628211 }

  /** The hash of a text, byte by byte. */
  function Fnv(text: string): bv64
    decreases |text|
  {
    if text == "" then FNV_START else HashByte(Fnv(text[..|text| - 1]), text[|text| - 1])
  }

  function ScanText(text: string, line: int): seq<Node> { ShiftNodes(Lines(text, |text|, 0, 1), line - 1) }

  predicate EndsLine(text: string) { text != "" && text[|text| - 1] == '\n' }

  /** The chunk is the part of src it says it is, with the lines it says it has. */
  ghost predicate ChunkOk(src: string, c: Chunk) {
    && c.startByte <= c.endByte <= |src| && c.text == src[c.startByte..c.endByte] && c.hash == Fnv(c.text)
    && c.startLine == 1 + Breaks(src[..c.startByte]) && c.nodes == ScanText(c.text, c.startLine)
    && (c.endLine == c.startLine + Breaks(c.text) || (EndsLine(c.text) && c.endLine == c.startLine + Breaks(c.text) - 1))
  }

  /** The next chunk goes on where chunk i ends, behind a newline. */
  predicate Adjacent(chunks: seq<Chunk>, i: nat)
    requires i + 1 < |chunks|
  {
    && chunks[i].endByte == chunks[i + 1].startByte && EndsLine(chunks[i].text)
    && chunks[i].endLine + 1 == chunks[i + 1].startLine
  }

  /** The chunks lie side by side, cut behind newlines, and cover the text. */
  ghost predicate Tiles(src: string, chunks: seq<Chunk>) {
    && (chunks == [] ==> src == "")
    && (chunks != [] ==> chunks[0].startByte == 0 && chunks[|chunks| - 1].endByte == |src|)
    && (forall i | 0 <= i < |chunks| :: ChunkOk(src, chunks[i]) && (|chunks| > 1 || src != "" ==> chunks[i].startByte < chunks[i].endByte))
    && (forall i | 0 <= i < |chunks| - 1 :: Adjacent(chunks, i))
  }

  function Assemble(chunks: seq<Chunk>): seq<Node> {
    if chunks == [] then [] else Assemble(chunks[..|chunks| - 1]) + chunks[|chunks| - 1].nodes
  }

  ghost predicate Holds(src: string, chunks: seq<Chunk>, assembled: seq<Node>) {
    Tiles(src, chunks) && assembled == Assemble(chunks)
  }

  // ---- Edits ----

  /** Between pre and post, x was replaced by y. */
  datatype Edit = Edit(pre: string, x: string, y: string, post: string)

  function Before(e: Edit): string { e.pre + e.x + e.post }

  function After(e: Edit): string { e.pre + e.y + e.post }

  /** The edit touches only the lines from a to b, and adds delta lines. */
  predicate Describes(e: Edit, a: int, b: int, delta: int) {
    1 + Breaks(e.pre) >= a && 1 + Breaks(e.pre) + Breaks(e.x) <= b && delta == Breaks(e.y) - Breaks(e.x)
  }

  // ---- Newlines and positions ----

  lemma BreaksUpTo(src: string, a: nat, b: nat)
    requires a <= b <= |src|
    ensures Breaks(src[..a]) <= Breaks(src[..b])
    ensures a < b && src[b - 1] == '\n' ==> Breaks(src[..a]) < Breaks(src[..b])
  {
    assert src[..a] == src[0..a] && src[..b] == src[0..b];
    BreaksSlice(src, 0, a, b);
    if a < b && src[b - 1] == '\n' {
      BreaksSlice(src, a, b - 1, b);
      OneBreak(src, b - 1);
    }
  }

  /** What tiling says about two neighbours. */
  lemma Neighbours(src: string, chunks: seq<Chunk>, i: nat)
    requires Tiles(src, chunks) && i + 1 < |chunks|
    ensures var c, n := chunks[i], chunks[i + 1];
            && c.startByte < c.endByte == n.startByte < n.endByte <= |src| && src[c.endByte - 1] == '\n'
            && EndsLine(c.text) && c.endLine + 1 == n.startLine && n.startLine == 1 + Breaks(src[..n.startByte])
  {
    hide Breaks, Lines, Fnv, ScanText;
    var c, n := chunks[i], chunks[i + 1];
    assert Adjacent(chunks, i) && ChunkOk(src, c) && ChunkOk(src, n);
    assert src[c.endByte - 1] == c.text[|c.text| - 1];
  }

  lemma LastChunk(src: string, chunks: seq<Chunk>, i: nat)
    requires Tiles(src, chunks) && i + 1 == |chunks|
    ensures var c := chunks[i]; c.endByte == |src| && (c.endLine == 1 + Breaks(src) || (EndsLine(src) && c.endLine == Breaks(src)))
  {
    hide Breaks, Lines, Fnv, ScanText;
    var c := chunks[i];
    assert ChunkOk(src, c);
    assert src[..c.startByte] == src[0..c.startByte] && src[0..|src|] == src;
    BreaksSlice(src, 0, c.startByte, |src|);
  }

  /** What tiling says about one chunk. */
  lemma TileFacts(src: string, chunks: seq<Chunk>, i: nat)
    requires Tiles(src, chunks) && i < |chunks|
    ensures var c := chunks[i];
            && c.startByte <= c.endByte <= |src| && c.startLine == 1 + Breaks(src[..c.startByte])
            && (c.startByte > 0 ==> i > 0 && src[c.startByte - 1] == '\n')
            && (i + 1 < |chunks| ==> c.endByte < |src| && src[c.endByte - 1] == '\n' && c.endLine == Breaks(src[..c.endByte]))
            && (i + 1 == |chunks| ==> c.endByte == |src| && (c.endLine == 1 + Breaks(src) || (EndsLine(src) && c.endLine == Breaks(src))))
  {
    hide Breaks, Tiles, EndsLine, ChunkOk;
    OneChunk(src, chunks, i);
    if i > 0 { Neighbours(src, chunks, i - 1); }
    if i + 1 < |chunks| { Neighbours(src, chunks, i); } else { LastChunk(src, chunks, i); }
  }

  lemma OneChunk(src: string, chunks: seq<Chunk>, i: nat)
    requires Tiles(src, chunks) && i < |chunks|
    ensures ChunkOk(src, chunks[i])
    ensures var c := chunks[i]; c.startByte <= c.endByte <= |src| && c.startLine == 1 + Breaks(src[..c.startByte])
    ensures i == 0 ==> chunks[i].startByte == 0
  {
    hide Breaks, Lines, Fnv, ScanText;
    assert ChunkOk(src, chunks[i]);
  }

  /** The edited part lies behind the start of a chunk that contains its lines, and before its last newline. */
  lemma EditInside(e: Edit, a: int, b: int, delta: int, start: nat, end: nat, startLine: int, endLine: int)
    requires Describes(e, a, b, delta) && start <= end <= |Before(e)| && startLine <= a && b <= endLine
    requires startLine == 1 + Breaks(Before(e)[..start]) && (start > 0 ==> Before(e)[start - 1] == '\n')
    ensures start <= |e.pre| && (endLine <= Breaks(Before(e)[..end]) ==> |e.pre + e.x| < end)
  {
    hide Breaks;
    var src, px := Before(e), e.pre + e.x;
    assert src[..|e.pre|] == e.pre && src[..|px|] == px;
    BreaksJoin(e.pre, e.x);
    if |e.pre| < start { BreaksUpTo(src, |e.pre|, start); }
    if |px| >= end { BreaksUpTo(src, end, |px|); }
  }

  // ---- Where the edited chunk lies in the new text ----

  /** The first position before the end of the text that has n newlines before it. */
  predicate LineStart(src: string, n: int, p: nat) {
    p < |src| && Breaks(src[..p]) == n && forall q | 0 <= q < p :: Breaks(src[..q]) < n
  }

  predicate NoLineStart(src: string, n: int) { forall p | 0 <= p < |src| :: Breaks(src[..p]) < n }

  /** Bytes that an edit moves. */
  function Moved(e: Edit, p: nat): int { p + |e.y| - |e.x| }

  lemma SamePrefix(e: Edit, p: nat)
    requires p <= |e.pre|
    ensures Before(e)[..p] == After(e)[..p] == e.pre[..p]
  {}

  lemma MovedSlice(e: Edit, p: nat, q: nat)
    requires |e.pre + e.x| <= p <= q <= |Before(e)|
    ensures 0 <= Moved(e, p) <= Moved(e, q) <= |After(e)| && Before(e)[p..q] == After(e)[Moved(e, p)..Moved(e, q)]
  {
    var px, py := e.pre + e.x, e.pre + e.y;
    var b, a := Before(e)[p..q], After(e)[Moved(e, p)..Moved(e, q)];
    assert forall k | 0 <= k < |b| :: b[k] == e.post[p + k - |px|] == a[k];
  }

  /** A prefix that reaches behind the edit has delta newlines more. */
  lemma MovedBreaks(e: Edit, p: nat)
    requires |e.pre + e.x| <= p <= |Before(e)|
    ensures 0 <= Moved(e, p) <= |After(e)|
    ensures Breaks(After(e)[..Moved(e, p)]) == Breaks(Before(e)[..p]) + Breaks(e.y) - Breaks(e.x)
  {
    var px, py := e.pre + e.x, e.pre + e.y;
    var k := p - |px|;
    assert Before(e)[..p] == px + e.post[..k] && After(e)[..Moved(e, p)] == py + e.post[..k];
    BreaksJoin(px, e.post[..k]);
    BreaksJoin(py, e.post[..k]);
    BreaksJoin(e.pre, e.x);
    BreaksJoin(e.pre, e.y);
    hide Breaks;
  }

  /** A newline-terminated prefix is where its line count is first reached. */
  lemma AfterNewline(src: string, p: nat)
    requires p < |src| && (p > 0 ==> src[p - 1] == '\n')
    ensures LineStart(src, Breaks(src[..p]), p)
  {
    hide Breaks;
    forall q | 0 <= q < p ensures Breaks(src[..q]) < Breaks(src[..p]) { BreaksUpTo(src, q, p); }
  }

  lemma NoLineBehind(src: string, n: int)
    requires n > Breaks(src) || (EndsLine(src) && n == Breaks(src))
    ensures NoLineStart(src, n)
  {
    hide Breaks;
    assert src[..|src|] == src;
    forall p | 0 <= p < |src| ensures Breaks(src[..p]) < n { BreaksUpTo(src, p, |src|); }
  }

  /** The new end of the edited chunk: a line start, or none before the end of the text. */
  lemma NewEnd(e: Edit, a: int, b: int, delta: int, chunks: seq<Chunk>, i: nat)
    requires Describes(e, a, b, delta) && Tiles(Before(e), chunks) && i < |chunks|
    requires chunks[i].startLine <= a && b <= chunks[i].endLine
    ensures var c := chunks[i];
            && c.startByte <= |e.pre| && |e.pre + e.x| <= c.endByte
            && (i + 1 < |chunks| ==> |e.pre + e.x| < c.endByte && 0 <= Moved(e, c.endByte) < |After(e)|
                                     && LineStart(After(e), c.endLine + delta, Moved(e, c.endByte)))
            && (i + 1 == |chunks| ==> NoLineStart(After(e), c.endLine + delta) && Moved(e, c.endByte) == |After(e)|)
  {
    hide Breaks, Tiles;
    var src, new_, c := Before(e), After(e), chunks[i];
    TileFacts(src, chunks, i);
    EditInside(e, a, b, delta, c.startByte, c.endByte, c.startLine, c.endLine);
    if i + 1 < |chunks| {
      MovedBreaks(e, c.endByte);
      MovedSlice(e, c.endByte - 1, c.endByte);
      assert new_[Moved(e, c.endByte - 1)] == src[c.endByte - 1];
      AfterNewline(new_, Moved(e, c.endByte));
    } else {
      MovedBreaks(e, |src|);
      assert src[..|src|] == src && new_[..|new_|] == new_;
      if EndsLine(src) && c.endLine == Breaks(src) {
        MovedSlice(e, |src| - 1, |src|);
        assert new_[|new_| - 1] == src[|src| - 1];
      }
      NoLineBehind(new_, c.endLine + delta);
    }
  }

  /** The start of the edited chunk stays where it is. */
  lemma NewStart(e: Edit, chunks: seq<Chunk>, i: nat)
    requires Tiles(Before(e), chunks) && i < |chunks| && chunks[i].startByte <= |e.pre|
    ensures var p := chunks[i].startByte;
            && p <= |After(e)| && (p < |After(e)| ==> LineStart(After(e), chunks[i].startLine - 1, p))
            && (p == |After(e)| ==> forall q | 0 <= q < |After(e)| :: Breaks(After(e)[..q]) < chunks[i].startLine - 1 || p == 0)
            && (i == 0 <==> p == 0) && (i == 0 <==> chunks[i].startLine == 1)
  {
    hide Breaks, Tiles;
    var src, new_, p := Before(e), After(e), chunks[i].startByte;
    TileFacts(src, chunks, i);
    SamePrefix(e, p);
    if p > 0 {
      assert src[p - 1] == e.pre[p - 1] == new_[p - 1];
    }
    if p < |new_| { AfterNewline(new_, p); }
    if p == |new_| && p > 0 {
      assert new_[..p] == new_;
      forall q | 0 <= q < |new_| ensures Breaks(new_[..q]) < chunks[i].startLine - 1 { BreaksUpTo(new_, q, p); }
    }
    FirstChunk(src, chunks, i);
  }

  /** Only the first chunk starts on line 1. */
  lemma FirstChunk(src: string, chunks: seq<Chunk>, i: nat)
    requires Tiles(src, chunks) && i < |chunks|
    ensures (i == 0 <==> chunks[i].startByte == 0) && (i == 0 <==> chunks[i].startLine == 1)
  {
    hide Breaks, Lines, Fnv, ScanText;
    TileFacts(src, chunks, i);
    NoBreaks();
    assert src[..0] == "";
    if i > 0 {
      assert Adjacent(chunks, i - 1) && ChunkOk(src, chunks[i - 1]);
      BreaksUpTo(src, 0, chunks[i].startByte);
    }
  }

  // ---- The chunks after an edit ----

  /** The edited chunk, rescanned from its new text. */
  function Rescanned(src: string, c: Chunk, end: nat, delta: int): Chunk
    requires c.startByte <= end <= |src|
  {
    var text := src[c.startByte..end];
    Chunk(c.startLine, c.endLine + delta, c.startByte, end, text, ScanText(text, c.startLine), Fnv(text))
  }

  /** A chunk behind the edit: it only moves. */
  function Slid(c: Chunk, bytes: int, delta: int): Chunk
    requires c.startByte + bytes >= 0 && c.endByte + bytes >= 0
  {
    c.(startLine := c.startLine + delta, endLine := c.endLine + delta, startByte := c.startByte + bytes,
       endByte := c.endByte + bytes, nodes := ShiftNodes(c.nodes, delta))
  }

  /** news are the chunks after the i-th chunk was edited. */
  ghost predicate EditedTo(e: Edit, delta: int, chunks: seq<Chunk>, i: nat, news: seq<Chunk>)
    requires i < |chunks|
  {
    var c := chunks[i];
    var end, bytes := Moved(e, c.endByte), |e.y| - |e.x|;
    && |news| == |chunks| && news[..i] == chunks[..i] && c.startByte <= end <= |After(e)| && news[i] == Rescanned(After(e), c, end, delta)
    && forall k | i < k < |chunks| ::
         chunks[k].startByte + bytes >= 0 && chunks[k].endByte + bytes >= 0 && news[k] == Slid(chunks[k], bytes, delta)
  }

  lemma ShiftTwice(ns: seq<Node>, a: int, b: int)
    ensures ShiftNodes(ShiftNodes(ns, a), b) == ShiftNodes(ns, a + b)
  {}

  /** Chunks come in order. */
  lemma {:induction false} Ordered(src: string, chunks: seq<Chunk>, i: nat, k: nat)
    requires Tiles(src, chunks) && i < k < |chunks|
    ensures chunks[i].endByte <= chunks[k].startByte
    decreases k
  {
    hide Tiles;
    Neighbours(src, chunks, k - 1);
    if i < k - 1 { Ordered(src, chunks, i, k - 1); }
  }

  lemma KeptBefore(e: Edit, c: Chunk)
    requires ChunkOk(Before(e), c) && c.endByte <= |e.pre|
    ensures ChunkOk(After(e), c)
  {
    hide Breaks, Lines, Fnv, ScanText;
    SamePrefix(e, c.startByte);
    assert Before(e)[c.startByte..c.endByte] == e.pre[c.startByte..c.endByte] == After(e)[c.startByte..c.endByte];
  }

  lemma KeptBehind(e: Edit, c: Chunk, delta: int)
    requires ChunkOk(Before(e), c) && |e.pre + e.x| <= c.startByte && delta == Breaks(e.y) - Breaks(e.x)
    ensures 0 <= Moved(e, c.startByte) <= Moved(e, c.endByte)
    ensures ChunkOk(After(e), Slid(c, |e.y| - |e.x|, delta))
  {
    hide Breaks, Lines, Fnv;
    MovedSlice(e, c.startByte, c.endByte);
    MovedBreaks(e, c.startByte);
    ShiftTwice(Lines(c.text, |c.text|, 0, 1), c.startLine - 1, delta);
  }

  lemma EditedOk(e: Edit, a: int, b: int, delta: int, chunks: seq<Chunk>, i: nat)
    requires Describes(e, a, b, delta) && Tiles(Before(e), chunks) && i < |chunks|
    requires chunks[i].startLine <= a && b <= chunks[i].endLine
    ensures var c := chunks[i];
            var end := Moved(e, c.endByte);
            && 0 <= c.startByte <= end <= |After(e)| && ChunkOk(After(e), Rescanned(After(e), c, end, delta))
            && (i + 1 < |chunks| ==> EndsLine(Rescanned(After(e), c, end, delta).text))
  {
    hide Breaks, Lines, Fnv, ScanText, Tiles;
    var c := chunks[i];
    var end := Moved(e, c.endByte);
    NewEnd(e, a, b, delta, chunks, i);
    OneChunk(Before(e), chunks, i);
    SamePrefix(e, c.startByte);
    MovedBreaks(e, c.endByte);
    MovedSlice(e, |e.pre + e.x|, c.endByte);
    var r := Rescanned(After(e), c, end, delta);
    assert Before(e)[..c.startByte] == Before(e)[0..c.startByte] && Before(e)[..c.endByte] == Before(e)[0..c.endByte];
    assert After(e)[..c.startByte] == After(e)[0..c.startByte] && After(e)[..end] == After(e)[0..end];
    BreaksSlice(Before(e), 0, c.startByte, c.endByte);
    BreaksSlice(After(e), 0, c.startByte, end);
    assert Breaks(r.text) == Breaks(c.text) + delta;
    EditedLast(e, a, b, delta, chunks, i);
  }

  /** If the chunk ended with a newline, it still does. */
  lemma EditedLast(e: Edit, a: int, b: int, delta: int, chunks: seq<Chunk>, i: nat)
    requires Describes(e, a, b, delta) && Tiles(Before(e), chunks) && i < |chunks|
    requires chunks[i].startLine <= a && b <= chunks[i].endLine
    requires 0 <= Moved(e, chunks[i].endByte) <= |After(e)| && chunks[i].startByte <= Moved(e, chunks[i].endByte)
    ensures var c := chunks[i];
            EndsLine(c.text) && (i + 1 < |chunks| || c.endLine != c.startLine + Breaks(c.text)) ==>
              EndsLine(After(e)[c.startByte..Moved(e, c.endByte)])
    ensures i + 1 < |chunks| ==> EndsLine(chunks[i].text)
  {
    hide Breaks, Lines, Fnv, ScanText, Tiles;
    var c := chunks[i];
    OneChunk(Before(e), chunks, i);
    NewEnd(e, a, b, delta, chunks, i);
    TileFacts(Before(e), chunks, i);
    if i + 1 < |chunks| {
      Neighbours(Before(e), chunks, i);
      MovedSlice(e, c.endByte - 1, c.endByte);
      assert After(e)[Moved(e, c.endByte - 1)] == Before(e)[c.endByte - 1];
    } else if EndsLine(c.text) && c.endLine != c.startLine + Breaks(c.text) {
      LastLines(Before(e), chunks, i);
      EditInside(e, a, b, delta, c.startByte, c.endByte, c.startLine, c.endLine);
      assert Before(e)[..c.endByte] == Before(e);
      MovedSlice(e, c.endByte - 1, c.endByte);
      assert After(e)[Moved(e, c.endByte - 1)] == Before(e)[c.endByte - 1] == c.text[|c.text| - 1];
    }
  }

  lemma LastLines(src: string, chunks: seq<Chunk>, i: nat)
    requires Tiles(src, chunks) && i + 1 == |chunks| && chunks[i].endLine != chunks[i].startLine + Breaks(chunks[i].text)
    ensures chunks[i].endLine == Breaks(src)
  {
    hide Breaks, Lines, Fnv, ScanText;
    var c := chunks[i];
    assert ChunkOk(src, c);
    assert src[..c.startByte] == src[0..c.startByte] && src[0..|src|] == src;
    BreaksSlice(src, 0, c.startByte, |src|);
  }

  /** After an edit that leaves something of the edited chunk's line, the chunks tile the new text. */
  lemma EditedTiles(e: Edit, a: int, b: int, delta: int, chunks: seq<Chunk>, i: nat, news: seq<Chunk>)
    requires Describes(e, a, b, delta) && Tiles(Before(e), chunks) && i < |chunks|
    requires chunks[i].startLine <= a && b <= chunks[i].endLine && EditedTo(e, delta, chunks, i, news)
    requires chunks[i].startByte < |After(e)| || i == 0
    ensures Tiles(After(e), news)
  {
    hide Breaks, Lines, Fnv, ScanText, Tiles;
    NewEnd(e, a, b, delta, chunks, i);
    forall k | 0 <= k < |news| ensures ChunkOk(After(e), news[k]) && (|news| > 1 || After(e) != "" ==> news[k].startByte < news[k].endByte) {
      EditedChunkOk(e, a, b, delta, chunks, i, news, k);
    }
    forall k | 0 <= k < |news| - 1 ensures Adjacent(news, k) {
      EditedNeighbours(e, a, b, delta, chunks, i, news, k);
    }
    OneChunk(Before(e), chunks, 0);
    EditedEnds(e, a, b, delta, chunks, i, news);
    MakeTiles(After(e), news);
  }

  lemma MakeTiles(src: string, chunks: seq<Chunk>)
    requires chunks != [] && chunks[0].startByte == 0 && chunks[|chunks| - 1].endByte == |src|
    requires forall i | 0 <= i < |chunks| :: ChunkOk(src, chunks[i]) && (|chunks| > 1 || src != "" ==> chunks[i].startByte < chunks[i].endByte)
    requires forall i | 0 <= i < |chunks| - 1 :: Adjacent(chunks, i)
    ensures Tiles(src, chunks)
  {
    hide ChunkOk, Adjacent;
  }

  lemma NonEmpty(src: string, chunks: seq<Chunk>, k: nat)
    requires Tiles(src, chunks) && k < |chunks| && (|chunks| > 1 || src != "")
    ensures chunks[k].startByte < chunks[k].endByte
  {
    hide ChunkOk;
  }

  lemma EditedChunkOk(e: Edit, a: int, b: int, delta: int, chunks: seq<Chunk>, i: nat, news: seq<Chunk>, k: nat)
    requires Describes(e, a, b, delta) && Tiles(Before(e), chunks) && i < |chunks| && k < |news|
    requires chunks[i].startLine <= a && b <= chunks[i].endLine && EditedTo(e, delta, chunks, i, news)
    requires chunks[i].startByte < |After(e)| || i == 0
    ensures ChunkOk(After(e), news[k]) && (|news| > 1 || After(e) != "" ==> news[k].startByte < news[k].endByte)
  {
    hide Breaks, Lines, Fnv, ScanText, Tiles, ChunkOk;
    NewEnd(e, a, b, delta, chunks, i);
    OneChunk(Before(e), chunks, k);
    if |chunks| > 1 { NonEmpty(Before(e), chunks, k); }
    if k < i {
      Ordered(Before(e), chunks, k, i);
      KeptBefore(e, chunks[k]);
      assert news[k] == news[..i][k] == chunks[k];
    } else if k == i {
      EditedOk(e, a, b, delta, chunks, i);
      FirstChunk(Before(e), chunks, i);
    } else {
      Ordered(Before(e), chunks, i, k);
      KeptBehind(e, chunks[k], delta);
    }
  }

  lemma EditedNeighbours(e: Edit, a: int, b: int, delta: int, chunks: seq<Chunk>, i: nat, news: seq<Chunk>, k: nat)
    requires Describes(e, a, b, delta) && Tiles(Before(e), chunks) && i < |chunks| && k + 1 < |news|
    requires chunks[i].startLine <= a && b <= chunks[i].endLine && EditedTo(e, delta, chunks, i, news)
    ensures news[k].endByte == news[k + 1].startByte && EndsLine(news[k].text) && news[k].endLine + 1 == news[k + 1].startLine
  {
    hide Breaks, Lines, Fnv, ScanText, Tiles, ChunkOk, EndsLine;
    Neighbours(Before(e), chunks, k);
    if k < i { assert news[k] == news[..i][k] == chunks[k]; }
    if k + 1 < i { assert news[k + 1] == news[..i][k + 1] == chunks[k + 1]; }
    if k == i { EditedOk(e, a, b, delta, chunks, i); }
  }

  lemma EditedEnds(e: Edit, a: int, b: int, delta: int, chunks: seq<Chunk>, i: nat, news: seq<Chunk>)
    requires Describes(e, a, b, delta) && Tiles(Before(e), chunks) && i < |chunks|
    requires chunks[i].startLine <= a && b <= chunks[i].endLine && EditedTo(e, delta, chunks, i, news)
    ensures news != [] && news[0].startByte == 0 && news[|news| - 1].endByte == |After(e)|
  {
    hide Breaks, Lines, Fnv, ScanText, Tiles, ChunkOk, EndsLine;
    OneChunk(Before(e), chunks, 0);
    LastChunk(Before(e), chunks, |chunks| - 1);
    if i > 0 { assert news[0] == news[..i][0] == chunks[0]; }
  }

  // ---- The assembled lines after an edit ----

  lemma {:induction false} AssembleJoin(a: seq<Chunk>, b: seq<Chunk>)
    ensures Assemble(a + b) == Assemble(a) + Assemble(b)
    decreases |b|
  {
    if b == [] {
      assert a + b == a;
    } else {
      assert (a + b)[..|a + b| - 1] == a + b[..|b| - 1];
      AssembleJoin(a, b[..|b| - 1]);
    }
  }

  lemma AssembleSplit(chunks: seq<Chunk>, i: nat)
    requires i < |chunks|
    ensures Assemble(chunks) == Assemble(chunks[..i]) + chunks[i].nodes + Assemble(chunks[i + 1..])
  {
    hide Assemble;
    SplitAt(chunks, i);
    AssembleJoin(chunks[..i], [chunks[i]] + chunks[i + 1..]);
    AssembleJoin([chunks[i]], chunks[i + 1..]);
    AssembleOne(chunks[i]);
  }

  lemma SplitAt<T>(s: seq<T>, i: nat)
    requires i < |s|
    ensures s == s[..i] + ([s[i]] + s[i + 1..])
  {}

  lemma AssembleOne(c: Chunk)
    ensures Assemble([c]) == c.nodes
  {
    assert [c][..0] == [];
  }

  /** Chunks that only moved have the same lines, renumbered. */
  lemma {:induction false} AssembleSlid(old_: seq<Chunk>, news: seq<Chunk>, delta: int)
    requires |old_| == |news| && forall k | 0 <= k < |old_| :: news[k].nodes == ShiftNodes(old_[k].nodes, delta)
    ensures Assemble(news) == ShiftNodes(Assemble(old_), delta)
    decreases |old_|
  {
    hide ShiftNodes;
    if old_ == [] {
      ShiftNothing(delta);
    } else {
      var n := |old_| - 1;
      AssembleSlid(old_[..n], news[..n], delta);
      ShiftJoin(Assemble(old_[..n]), old_[n].nodes, delta);
    }
  }

  lemma ShiftNothing(delta: int)
    ensures ShiftNodes([], delta) == []
  {}

  /** Replacing the edited chunk's lines and renumbering the later ones assembles the new chunks. */
  lemma EditedAssembled(e: Edit, delta: int, chunks: seq<Chunk>, i: nat, news: seq<Chunk>)
    requires i < |chunks| && EditedTo(e, delta, chunks, i, news)
    ensures var off := |Assemble(chunks[..i])|;
            var later := off + |chunks[i].nodes|;
            && later <= |Assemble(chunks)|
            && Assemble(news) == Assemble(chunks)[..off] + news[i].nodes + ShiftNodes(Assemble(chunks)[later..], delta)
  {
    hide ShiftNodes, ScanText, Fnv;
    AssembleSplit(chunks, i);
    AssembleSplit(news, i);
    AssembleSlid(chunks[i + 1..], news[i + 1..], delta);
    var a, b, c := Assemble(chunks[..i]), chunks[i].nodes, Assemble(chunks[i + 1..]);
    assert (a + b + c)[..|a|] == a && (a + b + c)[|a| + |b|..] == c;
  }

  /** The edited chunk as the cache stores it: an equal hash means no rescan. */
  function Recut(c: Chunk, src: string, start: nat, end: nat, endLine: int): Chunk
    requires start <= end <= |src|
  {
    var text := src[start..end];
    if Fnv(text) == c.hash then Chunk(c.startLine, endLine, start, end, c.text, c.nodes, c.hash)
    else Chunk(c.startLine, endLine, start, end, text, ScanText(text, c.startLine), Fnv(text))
  }

  /** The hash tells the chunk's new text from its old one. */
  ghost predicate NoCollision(e: Edit, c: Chunk) {
    forall start, end | 0 <= start <= end <= |After(e)| ::
      Fnv(After(e)[start..end]) == Fnv(c.text) ==> After(e)[start..end] == c.text
  }

  lemma {:induction false} EndLinesOrdered(src: string, chunks: seq<Chunk>)
    requires Tiles(src, chunks)
    ensures forall i, j | 0 <= i < j < |chunks| :: chunks[i].endLine <= chunks[j].endLine
    ensures chunks != [] ==> chunks[0].startLine >= 1
  {
    hide Tiles, Breaks;
    forall i, j | 0 <= i < j < |chunks| ensures chunks[i].endLine <= chunks[j].endLine { EndLinesPair(src, chunks, i, j); }
    if chunks != [] { FirstChunk(src, chunks, 0); }
  }

  lemma {:induction false} EndLinesPair(src: string, chunks: seq<Chunk>, i: nat, j: nat)
    requires Tiles(src, chunks) && i < j < |chunks|
    ensures chunks[i].endLine <= chunks[j].endLine
    decreases j
  {
    hide Tiles, Breaks;
    Neighbours(src, chunks, j - 1);
    LinesInside(src, chunks, j);
    if i < j - 1 { EndLinesPair(src, chunks, i, j - 1); }
  }

  lemma LinesInside(src: string, chunks: seq<Chunk>, i: nat)
    requires Tiles(src, chunks) && i < |chunks|
    ensures 1 <= chunks[i].startLine <= chunks[i].endLine
  {
    hide Lines, Fnv, ScanText;
    assert ChunkOk(src, chunks[i]);
    var text := chunks[i].text;
    if EndsLine(text) { assert Breaks(text) >= 1; }
  }

  /** Where the lines from first to last of the new text were found. */
  ghost predicate Located(source: string, first: int, last: int, start: nat, end: nat) {
    && start <= |source| && end <= |source| && (first == 1 ==> start == 0)
    && (var above := first - 1;
        && (forall p | LineStart(source, above, p) && first <= last :: start == p)
        && (first > 1 && NoLineStart(source, above) ==> start == 0))
    && (forall p | LineStart(source, last, p) :: end == p) && (NoLineStart(source, last) ==> end == |source|)
  }

  /** The lines of the edited chunk in the new text. */
  lemma NewLines(e: Edit, a: int, b: int, delta: int, chunks: seq<Chunk>, i: nat)
    requires Describes(e, a, b, delta) && Tiles(Before(e), chunks) && i < |chunks|
    requires chunks[i].startLine <= a && b <= chunks[i].endLine
    ensures 1 <= chunks[i].startLine <= chunks[i].endLine + delta
  {
    hide Breaks, Tiles, EndsLine, ChunkOk, Lines;
    LinesInside(Before(e), chunks, i);
    NewEnd(e, a, b, delta, chunks, i);
    EditedOk(e, a, b, delta, chunks, i);
    RescannedLines(After(e), chunks[i], Moved(e, chunks[i].endByte), delta);
  }

  lemma RescannedLines(src: string, c: Chunk, end: nat, delta: int)
    requires c.startByte <= end <= |src| && ChunkOk(src, Rescanned(src, c, end, delta))
    ensures c.startLine <= c.endLine + delta
  {
    hide Lines, Fnv, ScanText;
    var text := Rescanned(src, c, end, delta).text;
    if EndsLine(text) { assert Breaks(text) >= 1; }
  }

  /** The edited chunk is found where it lies, or, when nothing is left of the text behind its
      start, at the start of the text. */
  lemma EditPlace(e: Edit, a: int, b: int, delta: int, chunks: seq<Chunk>, i: nat, start: nat, end: nat)
    requires Describes(e, a, b, delta) && Tiles(Before(e), chunks) && i < |chunks|
    requires chunks[i].startLine <= a && b <= chunks[i].endLine
    requires Located(After(e), chunks[i].startLine, chunks[i].endLine + delta, start, end)
    ensures var c := chunks[i];
            && start <= end <= |After(e)| && end == Moved(e, c.endByte)
            && (if i == 0 || c.startByte < |After(e)| then start == c.startByte else start == 0 && i + 1 == |chunks|)
  {
    hide Breaks, Tiles, EndsLine, ChunkOk, Lines, LineStart, NoLineStart;
    var c := chunks[i];
    NewLines(e, a, b, delta, chunks, i);
    NewEnd(e, a, b, delta, chunks, i);
    NewStart(e, chunks, i);
    EditedOk(e, a, b, delta, chunks, i);
    if i > 0 {
      if c.startByte == |After(e)| { NoLineAtEnd(e, chunks, i); }
    }
  }

  lemma NoLineAtEnd(e: Edit, chunks: seq<Chunk>, i: nat)
    requires Tiles(Before(e), chunks) && 0 < i < |chunks| && chunks[i].startByte <= |e.pre| && chunks[i].startByte == |After(e)|
    ensures NoLineStart(After(e), chunks[i].startLine - 1) && chunks[i].startLine > 1
  {
    hide Breaks, Tiles;
    NewStart(e, chunks, i);
    FirstChunk(Before(e), chunks, i);
    LinesInside(Before(e), chunks, i);
  }

  /** Later chunks can be moved. */
  lemma LaterMoves(e: Edit, a: int, b: int, delta: int, chunks: seq<Chunk>, i: nat, k: nat)
    requires Describes(e, a, b, delta) && Tiles(Before(e), chunks) && i < k < |chunks|
    requires chunks[i].startLine <= a && b <= chunks[i].endLine
    ensures chunks[k].startByte + |e.y| - |e.x| >= 0 && chunks[k].endByte + |e.y| - |e.x| >= 0
  {
    hide Breaks, Tiles, ChunkOk;
    NewEnd(e, a, b, delta, chunks, i);
    Ordered(Before(e), chunks, i, k);
    OneChunk(Before(e), chunks, k);
  }

  /** Without a collision the stored chunk is the rescanned one. */
  lemma RecutRescans(e: Edit, c: Chunk, end: nat, delta: int)
    requires ChunkOk(Before(e), c) && c.startByte <= end <= |After(e)| && NoCollision(e, c)
    ensures Recut(c, After(e), c.startByte, end, c.endLine + delta) == Rescanned(After(e), c, end, delta)
  {
    hide Fnv, ScanText, Breaks;
  }

  /** The assembled lines, step by step, are those of the new chunks. */
  lemma FinalAssembled(e: Edit, delta: int, chunks: seq<Chunk>, i: nat, news: seq<Chunk>, final: seq<Node>)
    requires i < |chunks| && EditedTo(e, delta, chunks, i, news)
    requires var all := Assemble(chunks);
             var off := |Assemble(chunks[..i])|;
             && off + |chunks[i].nodes| <= |all|
             && var mid := all[..off] + news[i].nodes + all[off + |chunks[i].nodes|..];
                var later := off + |news[i].nodes|;
                final == if delta != 0 then mid[..later] + ShiftNodes(mid[later..], delta) else mid
    ensures final == Assemble(news)
  {
    hide Assemble, Fnv, ScanText;
    EditedAssembled(e, delta, chunks, i, news);
    var all, off := Assemble(chunks), |Assemble(chunks[..i])|;
    var head, tail := all[..off] + news[i].nodes, all[off + |chunks[i].nodes|..];
    assert (head + tail)[..|head|] == head && (head + tail)[|head|..] == tail;
    if delta == 0 { ShiftByZero(tail); }
  }

  lemma ShiftByZero(ns: seq<Node>)
    ensures ShiftNodes(ns, 0) == ns
  {}

  /** Without the edited chunk's start, nothing tiles: a later chunk starts at byte 0. */
  lemma LostStart(src: string, chunks: seq<Chunk>, i: nat)
    requires 0 < i < |chunks| && chunks[i].startByte == 0
    ensures !Tiles(src, chunks)
  {
    hide Tiles, Breaks;
    if Tiles(src, chunks) {
      Neighbours(src, chunks, i - 1);
      assert false;
    }
  }

  /** Such an edit: it deletes all that the last line had, and the text starts with an anchor line. */
  const LostOld := "to a\nto b"
  const LostEdit := Edit("to a\n", "to b", "", "")

  lemma LostExample()
    ensures Before(LostEdit) == LostOld && After(LostEdit) == "to a\n" && Describes(LostEdit, 2, 2, 0)
    ensures AnchorAt(After(LostEdit), 0) && AnchorAt(LostOld, 5) && LostOld[4] == '\n'
    ensures Breaks(LostOld[..5]) == 1 && |After(LostEdit)| == 5
  {
    assert WordEnd(After(LostEdit), 2) == 2 && WordEnd(After(LostEdit), 1) == 2 && WordEnd(After(LostEdit), 0) == 2;
    assert After(LostEdit)[0..2] == "to";
    assert WordEnd(LostOld, 7) == 7 && WordEnd(LostOld, 6) == 7 && WordEnd(LostOld, 5) == 7 && LostOld[5..7] == "to";
    OneLine("to a\n");
    assert LostOld[..5] == "to a\n";
    OneLine("to b");
  }

  lemma OneLine(text: string)
    requires |text| <= 5 && forall i | 0 <= i < |text| && i < 4 :: text[i] != '\n'
    ensures Breaks(text) == if |text| == 5 && text[4] == '\n' then 1 else 0
  {
    assert text == text[0..|text|];
    forall i | 0 <= i < |text| ensures Breaks(text[i..i + 1]) == if text[i] == '\n' then 1 else 0 { OneBreak(text, i); }
    NoBreaks();
    assert text[0..0] == "";
    forall i | 0 <= i < |text| ensures Breaks(text[0..i + 1]) == Breaks(text[0..i]) + Breaks(text[i..i + 1]) { BreaksSlice(text, 0, i, i + 1); }
    hide Breaks;
  }

  // ---- Where a fresh build cuts ----

  /** What the cache remembers while it looks for anchor lines: it does not count brackets. */
  datatype Reader = Reader(block: bool, comment: bool, quote: char, triple: bool, escaped: bool)

  const NewReader := Reader(false, false, NO_QUOTE, false, false)

  /** The state after the character at pos, and how far to go on. */
  function Read(src: string, pos: nat, r: Reader): (Reader, nat)
    requires pos < |src|
  {
    var c := src[pos];
    if r.block then
      if c == '*' && At(src, pos + 1, '/') then (r.(block := false), 2) else (r, 1)
    else if r.comment then (if c == '\n' then r.(comment := false) else r, 1)
    else if r.quote != NO_QUOTE then
      if r.escaped then (r.(escaped := false), 1)
      else if c == '\\' then (r.(escaped := true), 1)
      else if r.triple && c == r.quote && At(src, pos + 1, r.quote) && At(src, pos + 2, r.quote) then
        (r.(quote := NO_QUOTE, triple := false), 3)
      else if !r.triple && c == r.quote then (r.(quote := NO_QUOTE), 1)
      else (r, 1)
    else if c == '/' && At(src, pos + 1, '*') then (r.(block := true), 2)
    else if c == '#' then (r.(comment := true), 1)
    else if c == '"' || c == '\'' then
      if At(src, pos + 1, c) && At(src, pos + 2, c) then (r.(quote := c, triple := true), 3) else (r.(quote := c), 1)
    else (r, 1)
  }

  predicate CutsHere(src: string, pos: nat, r: Reader)
    requires pos < |src|
  {
    src[pos] == '\n' && !r.block && !r.triple && AnchorAt(src, pos + 1)
  }

  /** The anchor lines at which a fresh build cuts. */
  function AnchorStarts(src: string, pos: nat, r: Reader): seq<nat>
    decreases if pos <= |src| then |src| - pos else 0
  {
    if pos >= |src| then [] else
    var m := Read(src, pos, r);
    (if CutsHere(src, pos, m.0) then [pos + 1] else []) + AnchorStarts(src, pos + m.1, m.0)
  }

  lemma ReadSkips(src: string, pos: nat, r: Reader)
    requires pos < |src| && r.quote != '\n'
    ensures var m := Read(src, pos, r);
            && m.0.quote != '\n' && m.1 >= 1 && pos + m.1 <= |src| && (src[pos] == '\n' ==> m.1 == 1)
            && Breaks(src[pos..pos + m.1]) == if src[pos] == '\n' then 1 else 0
  {
    var m := Read(src, pos, r);
    ShortBreaks(src, pos, m.1);
    hide Breaks;
  }

  lemma {:induction false} AnchorsOk(src: string, pos: nat, r: Reader)
    requires r.quote != '\n'
    ensures var ps := AnchorStarts(src, pos, r);
            Increasing(ps) && forall p | p in ps :: pos < p < |src| && src[p - 1] == '\n' && AnchorAt(src, p)
    decreases if pos <= |src| then |src| - pos else 0
  {
    hide AnchorAt, Breaks, Read;
    if pos < |src| {
      var m := Read(src, pos, r);
      ReadSkips(src, pos, r);
      AnchorsOk(src, pos + m.1, m.0);
      var rest := AnchorStarts(src, pos + m.1, m.0);
      if CutsHere(src, pos, m.0) {
        AnchorInside(src, pos + 1);
        IncreasingCons(pos + 1, rest);
      }
    }
  }

  lemma AnchorInside(src: string, p: nat)
    requires AnchorAt(src, p)
    ensures p < |src|
  {}

  // ---- Agreement with a fresh scan ----

  /** The whole scan starts a line at every chunk. */
  ghost predicate ScanStartsChunks(src: string, chunks: seq<Chunk>) {
    forall i | 0 <= i < |chunks| :: chunks[i].startByte <= |src| && Starts(src, chunks[i].startByte, Init(0, 1))
  }

  /** The lines of the first n chunks. */
  lemma {:induction false} AssembleFrom(src: string, chunks: seq<Chunk>, n: nat)
    requires Tiles(src, chunks) && ScanStartsChunks(src, chunks) && src != "" && n <= |chunks|
    ensures Assemble(chunks[..n]) + (if n < |chunks| then Lines(src, |src|, chunks[n].startByte, chunks[n].startLine) else [])
            == Lines(src, |src|, 0, 1)
    decreases n
  {
    hide Lines, Tiles, Breaks, Upto, Fresh, ShiftNodes;
    if n == 0 {
      if chunks == [] { SourceEmpty(src, chunks); }
      OneChunk(src, chunks, 0);
      FirstChunk(src, chunks, 0);
    } else {
      AssembleFrom(src, chunks, n - 1);
      assert chunks[..n][..n - 1] == chunks[..n - 1];
      ChunkLines(src, chunks, n - 1);
    }
  }

  lemma SourceEmpty(src: string, chunks: seq<Chunk>)
    requires Tiles(src, chunks) && chunks == []
    ensures src == ""
  {}

  /** The text from a chunk to the next line start. */
  lemma InnerLines(src: string, c: Chunk, e: nat)
    requires ChunkOk(src, c) && c.startByte < c.endByte == e <= |src|
    requires Starts(src, c.startByte, Init(0, 1)) && Starts(src, e, Init(0, 1))
    ensures Lines(src, |src|, c.startByte, c.startLine) == c.nodes + Lines(src, |src|, e, 1 + Breaks(src[..e]))
  {
    hide Lines, Breaks, Upto, Fresh, ShiftNodes, Fnv, Restart;
    LineOfCut(src, c.startByte);
    LineOfCut(src, e);
    StartsAgain(src, 0, 1, c.startByte, e);
    CutLines(src, c.startByte, e, c.startLine);
    PieceShift(src, c.startByte, e, c.startLine);
  }

  lemma OuterLines(src: string, c: Chunk)
    requires ChunkOk(src, c) && c.endByte == |src|
    ensures Lines(src, |src|, c.startByte, c.startLine) == c.nodes
  {
    hide Lines, Breaks, ShiftNodes, Fnv;
    assert src[c.startByte..] == c.text;
    LinesShift(src, c.startByte, c.text, 0, 1, c.startLine - 1);
  }

  /** The rest of the text, from chunk i on, is chunk i and what follows. */
  lemma ChunkLines(src: string, chunks: seq<Chunk>, i: nat)
    requires Tiles(src, chunks) && ScanStartsChunks(src, chunks) && src != "" && i < |chunks|
    ensures Lines(src, |src|, chunks[i].startByte, chunks[i].startLine)
            == chunks[i].nodes + (if i + 1 < |chunks| then Lines(src, |src|, chunks[i + 1].startByte, chunks[i + 1].startLine) else [])
  {
    hide Lines, Tiles, Breaks, Starts, ChunkOk, EndsLine;
    OneChunk(src, chunks, i);
    if i + 1 < |chunks| {
      Neighbours(src, chunks, i);
      InnerLines(src, chunks[i], chunks[i + 1].startByte);
    } else {
      LastChunk(src, chunks, i);
      OuterLines(src, chunks[i]);
    }
  }

  /** What the cache holds is what a fresh scan of the text finds, whenever the scan starts
      a line at every chunk. */
  lemma CacheAgreesWithScan(src: string, chunks: seq<Chunk>, assembled: seq<Node>)
    requires Holds(src, chunks, assembled) && ScanStartsChunks(src, chunks)
    ensures assembled == Lines(src, |src|, 0, 1)
  {
    if src == "" {
      EmptySource(src);
      EmptyCache(chunks);
    } else {
      hide Lines, Tiles;
      AssembleFrom(src, chunks, |chunks|);
      assert chunks[..|chunks|] == chunks;
    }
  }

  lemma EmptyCache(chunks: seq<Chunk>)
    requires Tiles("", chunks)
    ensures Assemble(chunks) == []
  {
    EmptySource("");
    hide Lines, Fnv, Breaks, Tiles;
    if |chunks| > 1 {
      OneChunk("", chunks, 1);
      NonEmpty("", chunks, 1);
      assert false;
    }
    if chunks != [] {
      OneChunk("", chunks, 0);
      assert chunks[..|chunks| - 1] == [];
    }
  }
}
