/** Scanning a piece of a text as a text of its own. */
module Shifting {
  import opened Values
  import opened Topography
  import opened Chunking

  function ShiftNodes(ns: seq<Node>, dl: int): (r: seq<Node>)
    ensures |r| == |ns|
    ensures forall i | 0 <= i < |ns| :: r[i] == ns[i].(line := ns[i].line + dl)
  {
    seq(|ns|, i requires 0 <= i < |ns| => ns[i].(line := ns[i].line + dl))
  }

  /** A state of the scan of the piece that starts at a, as a state of the whole scan. */
  function Shift(t: Scan, a: nat, dl: int): Scan {
    Scan(t.pos + a, t.lex, t.nodeStart + a, t.line + dl, t.startLine + dl,
         if t.rec.Some? then Some(Mark(t.rec.value.pos + a, t.rec.value.line + dl)) else None, ShiftNodes(t.nodes, dl))
  }

  /** txt is the part of src from a to b, which ends with a line. */
  predicate Piece(src: string, a: nat, b: nat, txt: string) {
    a <= b <= |src| && txt == src[a..b] && (b == |src| || (a < b && src[b - 1] == '\n'))
  }

  /** A stretch of a piece is a stretch of the whole text. */
  lemma PieceSlice(src: string, a: nat, b: nat, txt: string, i: nat, j: nat)
    requires Piece(src, a, b, txt) && i <= j <= |txt|
    ensures txt[i..j] == src[a + i..a + j]
  {
    assert forall k | 0 <= k < j - i :: txt[i..j][k] == src[a + i..a + j][k];
  }

  lemma AtShift(src: string, a: nat, b: nat, txt: string, q: nat, c: char)
    requires Piece(src, a, b, txt)
    ensures q < |txt| || b == |src| ==> (At(txt, q, c) <==> At(src, a + q, c))
  {}

  lemma AtShiftAll(src: string, a: nat, b: nat, txt: string, q: nat)
    requires Piece(src, a, b, txt) && (q < |txt| || b == |src|)
    ensures forall c :: At(txt, q, c) <==> At(src, a + q, c)
  {
    forall c ensures At(txt, q, c) <==> At(src, a + q, c) { AtShift(src, a, b, txt, q, c); }
  }

  lemma SliceShift(src: string, a: nat, b: nat, txt: string, p: nat, e: nat)
    requires Piece(src, a, b, txt) && p <= e <= |txt|
    ensures a + e <= |src| && txt[p..e] == src[a + p..a + e]
  {
    var one, two := txt[p..e], src[a + p..a + e];
    assert forall i | 0 <= i < |one| :: one[i] == txt[p + i] == src[a + p + i] == two[i];
  }

  lemma FeedShift(src: string, a: nat, b: nat, txt: string, q: nat, lex: Lex)
    requires Piece(src, a, b, txt) && q < |txt| && lex.quote != '\n'
    ensures var m := Feed(txt, q, txt[q], lex);
            Feed(src, a + q, src[a + q], lex) == m.(pos := m.pos + a)
  {
    if q + 1 < |txt| || b == |src| { AtShiftAll(src, a, b, txt, q + 1); }
    if q + 2 < |txt| || b == |src| { AtShiftAll(src, a, b, txt, q + 2); }
    if q + 1 == |txt| && b < |src| { assert src[b - 1] == txt[q] == '\n'; }
    if q + 2 == |txt| && b < |src| { assert src[b - 1] == txt[q + 1] == '\n'; }
    hide FeedBracket;
  }

  lemma {:induction false} WordShift(src: string, a: nat, b: nat, txt: string, p: nat)
    requires Piece(src, a, b, txt) && p <= |txt| && (p < |txt| || b == |src|)
    ensures WordEnd(src, a + p) == a + WordEnd(txt, p) && (b < |src| ==> WordEnd(txt, p) < |txt|)
    decreases |txt| - p
  {
    if b < |src| { assert txt[|txt| - 1] == '\n'; }
    if p < |txt| && WordChar(txt[p]) {
      WordShift(src, a, b, txt, p + 1);
    }
  }

  lemma AnchorShift(src: string, a: nat, b: nat, txt: string, p: nat)
    requires Piece(src, a, b, txt) && p <= |txt| && (p < |txt| || b == |src|)
    ensures AnchorAt(txt, p) <==> AnchorAt(src, a + p)
  {
    if p < |txt| {
      WordShift(src, a, b, txt, p);
      var e := WordEnd(txt, p);
      SliceShift(src, a, b, txt, p, e);
      hide WordEnd;
    }
  }

  lemma ShiftJoin(ns: seq<Node>, ms: seq<Node>, dl: int)
    ensures ShiftNodes(ns + ms, dl) == ShiftNodes(ns, dl) + ShiftNodes(ms, dl)
  {}

  lemma NewlineShift(src: string, a: nat, b: nat, txt: string, t: Scan, dl: int)
    requires Piece(src, a, b, txt) && t.nodeStart <= t.pos <= |txt| && (t.pos + 1 < |txt| || b == |src|)
    ensures Newline(src, |src|, Shift(t, a, dl)) == Shift(Newline(txt, |txt|, t), a, dl)
  {
    hide AnchorAt, NodesOf, ShiftNodes, Open;
    var next := if t.pos < |txt| then t.pos + 1 else t.pos;
    AnchorShift(src, a, b, txt, next);
    SliceShift(src, a, b, txt, t.nodeStart, t.pos);
    var more := NodesOf(t.startLine, txt[t.nodeStart..t.pos]);
    ShiftJoin(t.nodes, more, dl);
    NodesShift(t.startLine, txt[t.nodeStart..t.pos], dl);
  }

  lemma NodesShift(line: int, text: string, dl: int)
    ensures ShiftNodes(NodesOf(line, text), dl) == NodesOf(line + dl, text)
  {
    hide Counts, Indent, FirstCode;
  }

  lemma StepShift(src: string, a: nat, b: nat, txt: string, t: Scan, dl: int)
    requires Piece(src, a, b, txt) && t.nodeStart <= t.pos <= |txt| && (t.pos + 1 < |txt| || b == |src|) && t.lex.quote != '\n'
    ensures Step(src, |src|, Shift(t, a, dl)) == Shift(Step(txt, |txt|, t), a, dl)
  {
    hide Feed, Newline;
    if t.pos < |txt| {
      FeedShift(src, a, b, txt, t.pos, t.lex);
      NewlineShift(src, a, b, txt, t.(lex := Feed(txt, t.pos, txt[t.pos], t.lex).lex), dl);
    } else {
      FeedNewline(src, txt, a + t.pos, t.pos, t.lex);
      NewlineShift(src, a, b, txt, t.(lex := Feed(txt, t.pos, '\n', t.lex).lex), dl);
    }
  }

  lemma FeedNewline(src: string, txt: string, p: nat, q: nat, lex: Lex)
    ensures Feed(src, p, '\n', lex).lex == Feed(txt, q, '\n', lex).lex
  {
    hide FeedQuoted;
  }

  lemma QuoteStep(src: string, end: nat, s: Scan)
    requires Usable(src, end, s) && s.lex.quote != '\n'
    ensures Step(src, end, s).lex.quote != '\n'
  {
    hide AnchorAt, NodesOf;
  }

  lemma {:induction false} LoopShift(src: string, a: nat, txt: string, t: Scan, dl: int)
    requires Piece(src, a, |src|, txt) && t.nodeStart <= t.pos && t.lex.quote != '\n'
    ensures Loop(src, |src|, Shift(t, a, dl)) == Shift(Loop(txt, |txt|, t), a, dl)
    decreases if t.pos <= |txt| then |txt| + 1 - t.pos else 0
  {
    hide Step, Shift, Piece;
    ShiftPos(src, a, txt, t, dl);
    if t.pos <= |txt| {
      StepShift(src, a, |src|, txt, t, dl);
      QuoteStep(txt, |txt|, t);
      LoopShift(src, a, txt, Step(txt, |txt|, t), dl);
    }
  }

  lemma ShiftPos(src: string, a: nat, txt: string, t: Scan, dl: int)
    requires Piece(src, a, |src|, txt)
    ensures Shift(t, a, dl).pos == t.pos + a && Shift(t, a, dl).nodeStart == t.nodeStart + a && |src| == a + |txt|
  {}

  lemma NoCloseShift(src: string, a: nat, txt: string, p: nat)
    requires Piece(src, a, |src|, txt)
    ensures NoClose(txt, p) <==> NoClose(src, a + p)
  {
    if NoClose(txt, p) {
      forall i | a + p <= i < |src| - 1 ensures !(src[i] == '*' && src[i + 1] == '/') {
        assert !(txt[i - a] == '*' && txt[i - a + 1] == '/');
      }
    }
    if NoClose(src, a + p) {
      forall i | p <= i < |txt| - 1 ensures !(txt[i] == '*' && txt[i + 1] == '/') {
        assert !(src[a + i] == '*' && src[a + i + 1] == '/');
      }
    }
  }

  lemma InitShift(p: nat, line: int, a: nat, dl: int)
    ensures Shift(Init(p, line), a, dl) == Init(a + p, line + dl)
  {}

  lemma PieceSize(src: string, a: nat, txt: string)
    requires Piece(src, a, |src|, txt)
    ensures a + |txt| == |src|
  {}

  /** Scanning the rest of a text as a text of its own finds the same lines. */
  lemma {:induction false} LinesShift(src: string, a: nat, txt: string, p: nat, line: int, dl: int)
    requires Piece(src, a, |src|, txt) && p <= |txt|
    ensures Lines(src, |src|, a + p, line + dl) == ShiftNodes(Lines(txt, |txt|, p, line), dl)
    decreases |txt| - p
  {
    hide Loop, NoClose, ShiftNodes, Piece;
    PieceSize(src, a, txt);
    LoopShift(src, a, txt, Init(p, line), dl);
    InitShift(p, line, a, dl);
    var t := Loop(txt, |txt|, Init(p, line));
    if t.lex.block && t.rec.Some? {
      var r := t.rec.value;
      NoCloseShift(src, a, txt, r.pos);
      if NoClose(txt, r.pos) && p < r.pos <= |txt| {
        LinesShift(src, a, txt, r.pos, r.line, dl);
        ShiftJoin(t.nodes, Lines(txt, |txt|, r.pos, r.line), dl);
      } else {
        ShiftJoin(t.nodes, [], dl);
      }
    } else {
      ShiftJoin(t.nodes, [], dl);
    }
  }

  // ---- A piece inside the text ----

  lemma {:induction false} UptoShift(src: string, a: nat, b: nat, txt: string, e: nat, t: Scan, dl: int)
    requires Piece(src, a, b, txt) && e < |txt| && t.nodeStart <= t.pos && t.lex.quote != '\n'
    ensures Upto(src, a + e, Shift(t, a, dl)) == Shift(Upto(txt, e, t), a, dl)
    ensures Upto(txt, e, t).lex.quote != '\n'
    decreases if t.pos < e then e - t.pos else 0
  {
    hide Step;
    if t.pos < e {
      StepShift(src, a, b, txt, t, dl);
      QuoteStep(txt, |txt|, t);
      UptoShift(src, a, b, txt, e, Step(txt, |txt|, t), dl);
    }
  }

  /** A line can only start right after a newline that the scan has read. */
  lemma {:induction false} StartsAfterNewline(src: string, b: nat, s: Scan)
    requires s.nodeStart <= s.pos < b <= |src| && Starts(src, b, s)
    ensures Upto(src, b - 1, s).pos == b - 1 && src[b - 1] == '\n' && Upto(src, b, s) == Step(src, |src|, Upto(src, b - 1, s))
    decreases b - s.pos
  {
    var t := Step(src, |src|, s);
    if t.pos < b {
      hide Step;
      StartsAfterNewline(src, b, t);
    } else {
      assert Upto(src, b, t) == t;
      StepStart(src, s);
      hide Step;
      assert s.pos == b - 1;
    }
  }

  lemma StepStart(src: string, s: Scan)
    requires s.nodeStart <= s.pos < |src|
    ensures var t := Step(src, |src|, s); t.nodeStart <= s.pos || (src[s.pos] == '\n' && t.pos == s.pos + 1)
  {
    hide Feed, AnchorAt, NodesOf;
  }

  /** The last newline of a piece, when the piece is a text of its own. */
  lemma LastOfPiece(src: string, a: nat, b: nat, txt: string, t: Scan, dl: int)
    requires Piece(src, a, b, txt) && a < b && t.nodeStart <= t.pos == |txt| - 1 && txt[|txt| - 1] == '\n'
    requires Fresh(Step(src, |src|, Shift(t, a, dl)))
    ensures var v := Step(txt, |txt|, t);
            var w := Step(txt, |txt|, v);
            v.pos == |txt| && w.pos == |txt| + 1 && !w.lex.block && ShiftNodes(w.nodes, dl) == Step(src, |src|, Shift(t, a, dl)).nodes
  {
    var s := Shift(t, a, dl);
    var lex := Feed(txt, t.pos, '\n', t.lex).lex;
    FeedNewline(src, txt, s.pos, t.pos, t.lex);
    PieceSlice(src, a, b, txt, t.nodeStart, t.pos);
    NodesShift(t.startLine, txt[t.nodeStart..t.pos], dl);
    ShiftJoin(t.nodes, NodesOf(t.startLine, txt[t.nodeStart..t.pos]), dl);
    NoAnchor(txt);
    FeedKeepsOpen(txt, |txt|, lex);
    EmptyNodes(t.line + 1);
    assert txt[|txt|..|txt|] == "";
    var v := Step(txt, |txt|, t);
    AddNone(v.nodes);
    hide AnchorAt, NodesOf, Feed, ShiftNodes;
  }

  lemma AddNone(ns: seq<Node>)
    ensures ns + [] == ns
  {}

  lemma EmptyNodes(line: int)
    ensures NodesOf(line, "") == []
  {}

  lemma NoAnchor(txt: string)
    ensures !AnchorAt(txt, |txt|)
  {}

  lemma FeedKeepsOpen(txt: string, p: nat, lex: Lex)
    ensures var l := Feed(txt, p, '\n', lex).lex; (Open(l) <==> Open(lex)) && l.block == lex.block && l.triple == lex.triple
    ensures lex == Clean ==> Feed(txt, p, '\n', lex).lex == Clean
  {
    hide FeedQuoted;
  }

  /** Scanning a piece between two line starts as a text of its own finds its lines. */
  lemma PieceShift(src: string, a: nat, b: nat, line: int)
    requires a < b <= |src| && Starts(src, b, Init(a, line))
    ensures ShiftNodes(Lines(src[a..b], b - a, 0, 1), line - 1) == Lines(src, b, a, line)
  {
    hide Upto, Step, Loop, ShiftNodes, NoClose, Fresh, AnchorAt;
    var txt, dl := src[a..b], line - 1;
    StartsAfterNewline(src, b, Init(a, line));
    PieceLines(src, a, b, line);
    InitShift(0, 1, a, dl);
    UptoShift(src, a, b, txt, |txt| - 1, Init(0, 1), dl);
    var t := Upto(txt, |txt| - 1, Init(0, 1));
    LastOfPiece(src, a, b, txt, t, dl);
    LoopUpto(txt, |txt| - 1, |txt|, Init(0, 1));
    LastTwo(txt, t);
    var w := Loop(txt, |txt|, Init(0, 1));
    AddNone(w.nodes);
  }

  lemma LastTwo(txt: string, t: Scan)
    requires txt != "" && t.nodeStart <= t.pos == |txt| - 1
    requires var v := Step(txt, |txt|, t); v.pos == |txt| && Step(txt, |txt|, v).pos == |txt| + 1
    ensures Loop(txt, |txt|, t) == Step(txt, |txt|, Step(txt, |txt|, t))
  {
    hide Step;
    var v := Step(txt, |txt|, t);
    var w := Step(txt, |txt|, v);
    assert Loop(txt, |txt|, w) == w;
    assert Loop(txt, |txt|, v) == w;
  }
}
