/** Scanning a text in pieces: when the pieces' lines are the whole text's lines. */
module Chunking {
  import opened Values
  import opened Topography

  /** The scan at a place where a logical line starts, with nothing open. */
  predicate Fresh(s: Scan) {
    s.lex == Clean && s.nodeStart == s.pos && s.startLine == s.line && s.rec == None
  }

  /** The scan of the whole text, until it is at or behind e. */
  function Upto(src: string, e: nat, s: Scan): (t: Scan)
    requires e <= |src| && s.nodeStart <= s.pos
    ensures t.pos >= e && t.nodeStart <= t.pos
    decreases if s.pos < e then e - s.pos else 0
  {
    if s.pos >= e then s else Upto(src, e, Step(src, |src|, s))
  }

  /** The whole scan, begun in state s, starts a logical line exactly at e. */
  predicate Starts(src: string, e: nat, s: Scan)
    requires e <= |src| && s.nodeStart <= s.pos
  {
    Upto(src, e, s).pos == e && Fresh(Upto(src, e, s))
  }

  lemma StepAnyEnd(src: string, e: nat, s: Scan)
    requires s.pos < e <= |src| && s.nodeStart <= s.pos
    ensures Step(src, e, s) == Step(src, |src|, s)
  {
    hide Feed, AnchorAt, NodesOf;
  }

  lemma {:induction false} LoopUpto(src: string, e: nat, end: nat, s: Scan)
    requires e <= end <= |src| && s.nodeStart <= s.pos
    ensures Loop(src, end, s) == Loop(src, end, Upto(src, e, s))
    decreases if s.pos < e then e - s.pos else 0
  {
    hide Step;
    if s.pos < e {
      StepAnyEnd(src, end, s);
      LoopUpto(src, e, end, Step(src, |src|, s));
    }
  }

  // ---- The lines found so far do not matter ----

  function With(ns: seq<Node>, s: Scan): Scan { s.(nodes := ns + s.nodes) }

  lemma StepWith(src: string, end: nat, ns: seq<Node>, s: Scan)
    requires Usable(src, end, s)
    ensures Step(src, end, With(ns, s)) == With(ns, Step(src, end, s))
  {
    hide Feed, AnchorAt, NodesOf;
    var more := NodesOf(s.startLine, src[s.nodeStart..s.pos]);
    assert ns + (s.nodes + more) == (ns + s.nodes) + more;
  }

  lemma {:induction false} LoopWith(src: string, end: nat, ns: seq<Node>, s: Scan)
    requires end <= |src| && s.nodeStart <= s.pos
    ensures Loop(src, end, With(ns, s)) == With(ns, Loop(src, end, s))
    decreases if s.pos <= end then end + 1 - s.pos else 0
  {
    hide Step;
    if s.pos <= end {
      StepWith(src, end, ns, s);
      LoopWith(src, end, ns, Step(src, end, s));
    }
  }

  lemma {:induction false} UptoWith(src: string, e: nat, ns: seq<Node>, s: Scan)
    requires e <= |src| && s.nodeStart <= s.pos
    ensures Upto(src, e, With(ns, s)) == With(ns, Upto(src, e, s))
    decreases if s.pos < e then e - s.pos else 0
  {
    hide Step;
    if s.pos < e {
      StepWith(src, |src|, ns, s);
      UptoWith(src, e, ns, Step(src, |src|, s));
    }
  }

  lemma {:induction false} UptoTwice(src: string, d: nat, e: nat, s: Scan)
    requires d <= e <= |src| && s.nodeStart <= s.pos
    ensures Upto(src, e, s) == Upto(src, e, Upto(src, d, s))
    decreases if s.pos < d then d - s.pos else 0
  {
    hide Step;
    if s.pos < d { UptoTwice(src, d, e, Step(src, |src|, s)); }
  }

  /** Where the whole scan starts a line, it is as if it began there. */
  lemma FreshWith(s: Scan)
    requires Fresh(s)
    ensures s == With(s.nodes, Init(s.pos, s.line))
  {
    assert s.nodes + [] == s.nodes;
  }

  // ---- Cutting a text in two ----

  /** A piece that ends where a line starts is scanned as far as the whole text is there. */
  lemma PieceLines(src: string, a: nat, e: nat, line: int)
    requires a <= e <= |src| && Starts(src, e, Init(a, line))
    ensures Lines(src, e, a, line) == Upto(src, e, Init(a, line)).nodes
  {
    var s, t := Init(a, line), Upto(src, e, Init(a, line));
    LoopUpto(src, e, e, s);
    LastNewline(src, e, t);
    hide Step, Upto;
    assert Loop(src, e, Step(src, e, t)) == Step(src, e, t);
  }

  lemma LastNewline(src: string, e: nat, t: Scan)
    requires e <= |src| && t.pos == e && Fresh(t)
    ensures var u := Step(src, e, t); u.pos == e + 1 && u.nodes == t.nodes && !u.lex.block
  {
    assert src[e..e] == "";
    hide AnchorAt, HasCode;
  }

  /** The lines of the whole are the lines of the piece and then those of the rest. */
  lemma CutLines(src: string, a: nat, e: nat, line: int)
    requires a < e <= |src| && Starts(src, e, Init(a, line))
    ensures var t := Upto(src, e, Init(a, line));
            Lines(src, |src|, a, line) == Lines(src, e, a, line) + Lines(src, |src|, e, t.line)
  {
    var s, t := Init(a, line), Upto(src, e, Init(a, line));
    PieceLines(src, a, e, line);
    LoopUpto(src, e, |src|, s);
    FreshWith(t);
    LoopWith(src, |src|, t.nodes, Init(e, t.line));
    MarkBehind(src, e, t.line);
    hide Upto, Loop, NoClose;
    var u := Loop(src, |src|, Init(e, t.line));
    assert Loop(src, |src|, s) == With(t.nodes, u);
  }

  /** The recovery mark of a scan lies behind its start. */
  lemma MarkBehind(src: string, start: nat, line: int)
    requires start <= |src|
    ensures Marked(src, |src|, start, Loop(src, |src|, Init(start, line)))
  {
    MarkedLoop(src, |src|, start, Init(start, line));
  }

  lemma {:induction false} MarkedLoop(src: string, end: nat, start: nat, s: Scan)
    requires end <= |src| && s.nodeStart <= s.pos && start <= s.pos && Marked(src, end, start, s) && (s.lex.block ==> start < s.pos)
    ensures Marked(src, end, start, Loop(src, end, s))
    decreases if s.pos <= end then end + 1 - s.pos else 0
  {
    hide Step, Marked;
    if s.pos <= end {
      MarkedStep(src, end, start, s);
      MarkedLoop(src, end, start, Step(src, end, s));
    }
  }

  lemma EmptySource(src: string)
    requires src == ""
    ensures Lines(src, |src|, 0, 1) == []
  {
    var t := Step(src, 0, Init(0, 1));
    assert src[0..0] == "";
    assert Loop(src, 0, t) == t;
  }

  // ---- Restarts behind comments that are never closed ----

  /** Where the scan, begun in state s, starts over because a block comment is never closed. */
  function Restart(src: string, s: Scan): Option<Mark>
    requires s.nodeStart <= s.pos
  {
    var t := Loop(src, |src|, s);
    if t.lex.block && t.rec.Some? && NoClose(src, t.rec.value.pos) && s.pos < t.rec.value.pos <= |src| then t.rec else None
  }

  /** The scan, begun in state s, with its restarts, starts a logical line at e. */
  predicate Begins(src: string, e: nat, s: Scan)
    requires e <= |src| && s.nodeStart <= s.pos
    decreases if s.pos <= |src| then |src| - s.pos else 0
  {
    || Starts(src, e, s)
    || (var r := Restart(src, s); r.Some? && r.value.pos <= e && Begins(src, e, Init(r.value.pos, r.value.line)))
  }

  /** The line the scan is on there. */
  function LineAt(src: string, e: nat, s: Scan): int
    requires e <= |src| && s.nodeStart <= s.pos && Begins(src, e, s)
    decreases if s.pos <= |src| then |src| - s.pos else 0
  {
    if Starts(src, e, s) then Upto(src, e, s).line
    else
      var r := Restart(src, s).value;
      LineAt(src, e, Init(r.pos, r.line))
  }

  /** In a comment that is never closed nothing changes any more. */
  lemma {:induction false} StaysOpen(src: string, end: nat, s: Scan)
    requires end <= |src| && s.nodeStart <= s.pos && s.lex.block && s.rec.Some? && NoClose(src, s.pos)
    ensures var t := Loop(src, end, s); t.lex.block && t.rec == s.rec && t.nodes == s.nodes
    decreases if s.pos <= end then end + 1 - s.pos else 0
  {
    if s.pos <= end {
      OpenStep(src, end, s);
      hide Step, NoClose;
      StaysOpen(src, end, Step(src, end, s));
    }
  }

  lemma OpenStep(src: string, end: nat, s: Scan)
    requires Usable(src, end, s) && s.lex.block && s.rec.Some? && NoClose(src, s.pos)
    ensures var t := Step(src, end, s); t.lex == s.lex && t.rec == s.rec && t.nodes == s.nodes && t.pos == s.pos + 1 && NoClose(src, t.pos)
  {
    hide AnchorAt, FeedQuoted, FeedCode, NodesOf;
  }

  /** The scan stands in the comment, at its mark. */
  predicate AtMark(q: Scan, r: Mark) { q.pos == r.pos && q.line == r.line && q.lex.block && q.rec == Some(r) }

  /** The mark a scan ends with was there from the start, or was set on the way. */
  lemma {:induction false} MarkFound(src: string, s: Scan, r: Mark)
    requires s.nodeStart <= s.pos && (s.rec.Some? ==> s.lex.block) && r.pos <= |src|
    requires var t := Loop(src, |src|, s); t.lex.block && t.rec == Some(r)
    ensures s.rec == Some(r) || (s.pos < r.pos && AtMark(Upto(src, r.pos, s), r))
    decreases if s.pos <= |src| then |src| + 1 - s.pos else 0
  {
    hide Step;
    if s.pos <= |src| {
      var u := Step(src, |src|, s);
      MarkStep(src, s, r);
      MarkFound(src, u, r);
      if u.rec != Some(r) { assert Upto(src, r.pos, s) == Upto(src, r.pos, u); }
      else if s.rec != Some(r) { assert Upto(src, r.pos, s) == Upto(src, r.pos, u) == u; }
    }
  }

  lemma MarkStep(src: string, s: Scan, r: Mark)
    requires Usable(src, |src|, s) && (s.rec.Some? ==> s.lex.block)
    ensures var u := Step(src, |src|, s);
            && (u.rec.Some? ==> u.lex.block)
            && (u.rec == Some(r) && s.rec != Some(r) ==> s.pos < r.pos && AtMark(u, r))
  {
    hide FeedQuoted, FeedCode, NodesOf;
    FeedKeeps(src, s.pos, if s.pos < |src| then src[s.pos] else '\n', s.lex);
    hide Feed, WordEnd;
  }

  lemma RestartMark(src: string, start: nat, line: int)
    requires start <= |src| && Restart(src, Init(start, line)).Some?
    ensures var r := Restart(src, Init(start, line)).value;
            && start < r.pos <= |src| && NoClose(src, r.pos)
            && AtMark(Upto(src, r.pos, Init(start, line)), r) && Loop(src, |src|, Init(start, line)).rec == Some(r)
  {
    hide Loop, NoClose, Upto;
    MarkFound(src, Init(start, line), Restart(src, Init(start, line)).value);
  }

  /** A text that ends in or behind the mark is scanned up to the comment, and again from the mark. */
  lemma LinesRestart(src: string, start: nat, line: int, end: nat)
    requires start <= |src| && Restart(src, Init(start, line)).Some? && Restart(src, Init(start, line)).value.pos <= end <= |src|
    ensures var r := Restart(src, Init(start, line)).value;
            && start < r.pos
            && Lines(src, end, start, line) == Upto(src, r.pos, Init(start, line)).nodes + Lines(src, end, r.pos, r.line)
  {
    RestartMark(src, start, line);
    var s, r := Init(start, line), Restart(src, Init(start, line)).value;
    LoopUpto(src, r.pos, end, s);
    StaysOpen(src, end, Upto(src, r.pos, s));
    hide Loop, NoClose, Upto, Restart;
  }

  lemma NothingLeft(src: string, e: nat, line: int)
    requires e <= |src|
    ensures Lines(src, e, e, line) == []
  {
    LastNewline(src, e, Init(e, line));
    hide Step;
    var u := Step(src, e, Init(e, line));
    assert Loop(src, e, Init(e, line)) == Loop(src, e, u) == u;
  }

  lemma BeginsHere(src: string, e: nat, line: int)
    requires e <= |src|
    ensures Starts(src, e, Init(e, line)) && Begins(src, e, Init(e, line)) && LineAt(src, e, Init(e, line)) == line
  {
    hide Restart, Step, Loop, NoClose;
  }

  /** The lines of the whole are the lines of a good piece and then those of the rest. */
  lemma {:induction false} CutBegins(src: string, a: nat, e: nat, line: int)
    requires a < e <= |src| && Begins(src, e, Init(a, line))
    ensures Lines(src, |src|, a, line) == Lines(src, e, a, line) + Lines(src, |src|, e, LineAt(src, e, Init(a, line)))
    decreases |src| - a
  {
    hide Lines, Upto, Restart, Starts;
    if Starts(src, e, Init(a, line)) {
      CutLines(src, a, e, line);
    } else {
      var r := Restart(src, Init(a, line)).value;
      LinesRestart(src, a, line, |src|);
      LinesRestart(src, a, line, e);
      if r.pos == e {
        NothingLeft(src, e, r.line);
        BeginsHere(src, e, r.line);
      } else {
        RestartMark(src, a, line);
        CutBegins(src, r.pos, e, r.line);
      }
    }
  }

  // ---- Good places seen from one another ----

  /** Behind the mark of a comment that is never closed, the scan without its restart starts no line. */
  lemma StartsBefore(src: string, start: nat, line: int, d: nat)
    requires start <= d <= |src| && Starts(src, d, Init(start, line)) && Restart(src, Init(start, line)).Some?
    ensures d < Restart(src, Init(start, line)).value.pos
  {
    RestartMark(src, start, line);
    var s, r := Init(start, line), Restart(src, Init(start, line)).value;
    if d >= r.pos {
      UptoTwice(src, r.pos, d, s);
      UptoOpen(src, d, Upto(src, r.pos, s));
      assert false;
    }
  }

  lemma {:induction false} UptoOpen(src: string, e: nat, s: Scan)
    requires e <= |src| && s.nodeStart <= s.pos && s.lex.block && s.rec.Some? && NoClose(src, s.pos)
    ensures Upto(src, e, s).lex.block
    decreases if s.pos < e then e - s.pos else 0
  {
    if s.pos < e {
      OpenStep(src, |src|, s);
      hide Step, NoClose;
      UptoOpen(src, e, Step(src, |src|, s));
    }
  }

  /** From a start of a line the scan goes on as it would from the beginning. */
  lemma RestartAgain(src: string, start: nat, line: int, d: nat)
    requires start <= d <= |src| && Starts(src, d, Init(start, line)) && Restart(src, Init(start, line)).Some?
    ensures Restart(src, Init(d, Upto(src, d, Init(start, line)).line)) == Restart(src, Init(start, line))
  {
    StartsBefore(src, start, line, d);
    var s, t := Init(start, line), Upto(src, d, Init(start, line));
    LoopUpto(src, d, |src|, s);
    FreshWith(t);
    LoopWith(src, |src|, t.nodes, Init(d, t.line));
    hide Loop, Upto, NoClose;
  }

  lemma StartsAgain(src: string, start: nat, line: int, d: nat, e: nat)
    requires start <= d <= e <= |src| && Starts(src, d, Init(start, line))
    ensures var l := Upto(src, d, Init(start, line)).line;
            && (Starts(src, e, Init(d, l)) <==> Starts(src, e, Init(start, line)))
            && Upto(src, e, Init(d, l)).line == Upto(src, e, Init(start, line)).line
  {
    var t := Upto(src, d, Init(start, line));
    UptoTwice(src, d, e, Init(start, line));
    FreshWith(t);
    UptoWith(src, e, t.nodes, Init(d, t.line));
    hide Upto;
  }

  /** A good place seen from another one. */
  lemma {:induction false} BeginsAgain(src: string, d: nat, e: nat, start: nat, line: int)
    requires start <= d <= e <= |src| && Begins(src, d, Init(start, line)) && Begins(src, e, Init(start, line))
    ensures var l := LineAt(src, d, Init(start, line));
            Begins(src, e, Init(d, l)) && LineAt(src, e, Init(d, l)) == LineAt(src, e, Init(start, line))
    decreases |src| - start
  {
    hide Upto, Restart, Starts;
    var s := Init(start, line);
    var r := Restart(src, s);
    if Starts(src, d, s) {
      StartsAgain(src, start, line, d, e);
      if !Starts(src, e, s) {
        RestartAgain(src, start, line, d);
        StartsBefore(src, start, line, d);
      }
    } else {
      RestartMark(src, start, line);
      if Starts(src, e, s) { StartsBefore(src, start, line, e); }
      BeginsAgain(src, d, e, r.value.pos, r.value.line);
    }
  }

  // ---- Cutting a text in many ----

  function Breaks(text: string): nat { if text == "" then 0 else Breaks(text[..|text| - 1]) + (if text[|text| - 1] == '\n' then 1 else 0) }

  predicate Increasing(xs: seq<nat>) { forall i, j | 0 <= i < j < |xs| :: xs[i] < xs[j] }

  /** Where the chunks of a text start. */
  predicate Cuts(src: string, cuts: seq<nat>) {
    && cuts != [] && cuts[0] == 0 && Increasing(cuts) && forall i | 0 <= i < |cuts| :: cuts[i] <= |src|
  }

  /** Every cut is where the whole scan starts a line. */
  predicate GoodCuts(src: string, cuts: seq<nat>) {
    Cuts(src, cuts) && forall i | 0 <= i < |cuts| :: Begins(src, cuts[i], Init(0, 1))
  }

  function PieceEnd(src: string, cuts: seq<nat>, k: nat): nat
    requires k < |cuts|
  {
    if k + 1 < |cuts| then cuts[k + 1] else |src|
  }

  /** The lines of the pieces from the k-th on, each scanned by itself. */
  function AllPieces(src: string, cuts: seq<nat>, k: nat): seq<Node>
    requires k <= |cuts| && Cuts(src, cuts)
    decreases |cuts| - k
  {
    if k == |cuts| then [] else
    Lines(src, PieceEnd(src, cuts, k), cuts[k], 1 + Breaks(src[..cuts[k]])) + AllPieces(src, cuts, k + 1)
  }

  lemma {:induction false} PiecesLines(src: string, cuts: seq<nat>, k: nat)
    requires GoodCuts(src, cuts) && k < |cuts|
    ensures AllPieces(src, cuts, k) == Lines(src, |src|, cuts[k], 1 + Breaks(src[..cuts[k]]))
    decreases |cuts| - k
  {
    hide Upto, Lines, Breaks, Begins, LineAt;
    if k + 1 < |cuts| {
      var d, e := cuts[k], cuts[k + 1];
      PiecesLines(src, cuts, k + 1);
      LineOfCut(src, d);
      LineOfCut(src, e);
      BeginsAgain(src, d, e, 0, 1);
      CutBegins(src, d, e, LineAt(src, d, Init(0, 1)));
    } else {
      assert AllPieces(src, cuts, k + 1) == [];
    }
  }

  /** Scanning any good pieces one by one finds the lines of one scan of the whole text. */
  lemma PiecesMakeWhole(src: string, cuts: seq<nat>)
    requires GoodCuts(src, cuts)
    ensures AllPieces(src, cuts, 0) == Lines(src, |src|, 0, 1)
  {
    PiecesLines(src, cuts, 0);
    hide Lines, AllPieces;
    assert src[..0] == "";
    NoBreaks();
  }

  // ---- Line numbers are counted newlines ----

  lemma {:induction false} BreaksJoin(a: string, b: string)
    ensures Breaks(a + b) == Breaks(a) + Breaks(b)
    decreases |b|
  {
    if b == "" {
      assert a + b == a;
    } else {
      assert (a + b)[..|a + b| - 1] == a + b[..|b| - 1];
      BreaksJoin(a, b[..|b| - 1]);
    }
  }

  lemma BreaksSlice(src: string, a: nat, b: nat, c: nat)
    requires a <= b <= c <= |src|
    ensures Breaks(src[a..c]) == Breaks(src[a..b]) + Breaks(src[b..c])
  {
    assert src[a..c] == src[a..b] + src[b..c];
    BreaksJoin(src[a..b], src[b..c]);
  }

  /** A step counts exactly the newlines it moves over. */
  lemma StepCounts(src: string, s: Scan)
    requires s.pos < |src| && s.nodeStart <= s.pos
    ensures var t := Step(src, |src|, s); t.pos <= |src| && t.line == s.line + Breaks(src[s.pos..t.pos])
  {
    var t := Step(src, |src|, s);
    var m := Feed(src, s.pos, src[s.pos], s.lex);
    FeedSkips(src, s.pos, s.lex);
    hide Feed, AnchorAt, NodesOf, Breaks;
  }

  lemma FeedSkips(src: string, pos: nat, a: Lex)
    requires pos < |src|
    ensures var m := Feed(src, pos, src[pos], a);
            && (m.kind == Onward ==> m.pos + 1 <= |src| && Breaks(src[pos..m.pos + 1]) == if src[pos] == '\n' then 1 else 0)
            && (m.kind == Again ==> m.pos <= |src| && Breaks(src[pos..m.pos]) == 0)
            && (m.kind == Joined ==> m.pos <= |src| && Breaks(src[pos..m.pos]) == 1)
  {
    var m := Feed(src, pos, src[pos], a);
    ShortBreaks(src, pos, m.pos - pos);
    ShortBreaks(src, pos, m.pos + 1 - pos);
    hide Breaks;
  }

  lemma ShortBreaks(src: string, p: nat, n: nat)
    ensures n == 1 && p + 1 <= |src| ==> Breaks(src[p..p + 1]) == (if src[p] == '\n' then 1 else 0)
    ensures n == 2 && p + 2 <= |src| ==> Breaks(src[p..p + 2]) == (if src[p] == '\n' then 1 else 0) + (if src[p + 1] == '\n' then 1 else 0)
    ensures n == 3 && p + 3 <= |src| ==>
              Breaks(src[p..p + 3]) ==
              (if src[p] == '\n' then 1 else 0) + (if src[p + 1] == '\n' then 1 else 0) + (if src[p + 2] == '\n' then 1 else 0)
  {
    if p < |src| { OneBreak(src, p); }
    if p + 2 <= |src| {
      OneBreak(src, p + 1);
      BreaksSlice(src, p, p + 1, p + 2);
    }
    if p + 3 <= |src| {
      OneBreak(src, p + 2);
      BreaksSlice(src, p, p + 2, p + 3);
    }
    hide Breaks;
  }

  lemma OneBreak(src: string, p: nat)
    requires p < |src|
    ensures Breaks(src[p..p + 1]) == if src[p] == '\n' then 1 else 0
  {
    assert src[p..p + 1][..0] == "";
  }

  lemma {:induction false} UptoCounts(src: string, e: nat, s: Scan)
    requires e <= |src| && s.pos <= |src| && s.nodeStart <= s.pos
    ensures var t := Upto(src, e, s); t.pos <= |src| && t.line == s.line + Breaks(src[s.pos..t.pos])
    decreases if s.pos < e then e - s.pos else 0
  {
    hide Step, Breaks;
    if s.pos < e {
      StepCounts(src, s);
      var t := Step(src, |src|, s);
      UptoCounts(src, e, t);
      BreaksSlice(src, s.pos, t.pos, Upto(src, e, t).pos);
    } else {
      assert src[s.pos..s.pos] == "" && Breaks("") == 0 by { NoBreaks(); }
    }
  }

  lemma NoBreaks()
    ensures Breaks("") == 0
  {}

  /** A piece starts on the line after the newlines before it. */
  lemma LineOfCut(src: string, e: nat)
    requires e <= |src| && Begins(src, e, Init(0, 1))
    ensures LineAt(src, e, Init(0, 1)) == 1 + Breaks(src[..e])
  {
    LineFrom(src, e, 0, 1);
    assert src[0..e] == src[..e];
  }

  lemma {:induction false} LineFrom(src: string, e: nat, start: nat, line: int)
    requires start <= e <= |src| && Begins(src, e, Init(start, line))
    ensures LineAt(src, e, Init(start, line)) == line + Breaks(src[start..e])
    decreases |src| - start
  {
    hide Upto, Breaks, Restart;
    if Starts(src, e, Init(start, line)) {
      UptoCounts(src, e, Init(start, line));
    } else {
      var r := Restart(src, Init(start, line)).value;
      RestartMark(src, start, line);
      UptoCounts(src, r.pos, Init(start, line));
      LineFrom(src, e, r.pos, r.line);
      BreaksSlice(src, start, r.pos, e);
    }
  }

  // ---- The split points ----

  /** The finder of split points reads the whole text with the automaton. It does not count an
      open block comment as something open. */
  function Resumes(src: string, p: nat, a: Lex): Lex {
    if (Brackets(a) || a.quote != NO_QUOTE) && !a.triple && AnchorAt(src, p + 1) then Clean else a
  }

  predicate Splits(src: string, p: nat, a: Lex) {
    && p + 1 < |src|
    && if Brackets(a) || a.quote != NO_QUOTE then !a.triple && AnchorAt(src, p + 1) else !a.block && !a.triple
  }

  /** The split points from pos on. */
  function Points(src: string, pos: nat, a: Lex): seq<nat>
    decreases if pos <= |src| then |src| - pos else 0
  {
    if pos >= |src| then [] else
    var m := Feed(src, pos, src[pos], a);
    if m.kind != Onward then Points(src, m.pos, m.lex)
    else if src[pos] != '\n' then Points(src, m.pos + 1, m.lex)
    else (if Splits(src, pos, m.lex) then [pos + 1] else []) + Points(src, pos + 1, Resumes(src, pos, m.lex))
  }

  /** At this newline the finder would leave a block comment that the scan stays in. */
  predicate Diverges(src: string, s: Scan) {
    && s.pos < |src| && src[s.pos] == '\n'
    && var a := Feed(src, s.pos, '\n', s.lex).lex;
       a.block && Brackets(a) && AnchorAt(src, s.pos + 1)
  }

  /** A definition line may start inside a block comment that was opened under an open bracket only if
      the comment is never closed. */
  predicate Straight(src: string, s: Scan)
    requires s.nodeStart <= s.pos
    decreases if s.pos <= |src| then |src| - s.pos else 0
  {
    || s.pos >= |src|
    || (if Diverges(src, s) then NoClose(src, s.pos + 1) && Straight(src, Init(s.pos + 1, s.line + 1))
        else Straight(src, Step(src, |src|, s)))
  }

  /** Quotes are only open outside comments, and triple quotes only while a quote is open. */
  predicate Tame(s: Scan) {
    && s.lex.quote != '\n' && (s.lex.triple || s.lex.escaped ==> s.lex.quote != NO_QUOTE) && (s.lex.block || s.lex.comment ==> s.lex.quote == NO_QUOTE)
    && !(s.lex.block && s.lex.comment) && (s.rec.Some? ==> s.lex.block && !Brackets(s.lex))
  }

  lemma TameStep(src: string, s: Scan)
    requires s.pos < |src| && s.nodeStart <= s.pos && Tame(s) && !Diverges(src, s)
    ensures Tame(Step(src, |src|, s))
  {
    hide AnchorAt, NodesOf;
  }

  /** A split newline is where the scan starts a new line. */
  lemma SplitStarts(src: string, s: Scan)
    requires s.pos < |src| && s.nodeStart <= s.pos && Tame(s) && !Diverges(src, s) && src[s.pos] == '\n'
    ensures var a := Feed(src, s.pos, '\n', s.lex).lex;
            var t := Step(src, |src|, s);
            && t.pos == s.pos + 1 && t.lex == Resumes(src, s.pos, a) && (Splits(src, s.pos, a) ==> Fresh(t))
  {
    hide AnchorAt, NodesOf, FeedQuoted;
  }

  /** Away from newlines the finder and the scan read alike. */
  lemma StepAlike(src: string, s: Scan)
    requires s.pos < |src| && s.nodeStart <= s.pos && src[s.pos] != '\n'
    ensures var m := Feed(src, s.pos, src[s.pos], s.lex);
            var t := Step(src, |src|, s);
            t.pos == (if m.kind == Onward then m.pos + 1 else m.pos) && t.lex == (if m.kind == Joined then s.lex else m.lex)
    ensures Feed(src, s.pos, src[s.pos], s.lex).kind == Joined ==> Feed(src, s.pos, src[s.pos], s.lex).lex == s.lex
  {
    hide AnchorAt, NodesOf, FeedBracket;
  }

  lemma PointsUnfold(src: string, pos: nat, a: Lex)
    requires pos < |src|
    ensures var m := Feed(src, pos, src[pos], a);
            Points(src, pos, a) ==
            if m.kind != Onward then Points(src, m.pos, m.lex)
            else if src[pos] != '\n' then Points(src, m.pos + 1, m.lex)
            else (if Splits(src, pos, m.lex) then [pos + 1] else []) + Points(src, pos + 1, Resumes(src, pos, m.lex))
  {
    hide Feed, Splits, Resumes;
  }

  /** The points of a state are at most one more than those of the next. */
  lemma PointsStep(src: string, s: Scan)
    requires s.pos < |src| && s.nodeStart <= s.pos && Tame(s) && !Diverges(src, s)
    ensures var t := Step(src, |src|, s);
            var rest := Points(src, t.pos, t.lex);
            || Points(src, s.pos, s.lex) == rest
            || (Points(src, s.pos, s.lex) == [s.pos + 1] + rest && s.pos + 1 < |src| && Fresh(t) && t.pos == s.pos + 1)
  {
    hide Points, Resumes, Splits, Step, Fresh, Diverges, Tame, Feed;
    PointsUnfold(src, s.pos, s.lex);
    if src[s.pos] == '\n' {
      SplitStarts(src, s);
      SplitInside(src, s.pos, Feed(src, s.pos, '\n', s.lex).lex);
    } else {
      StepAlike(src, s);
    }
  }

  lemma SplitInside(src: string, p: nat, a: Lex)
    ensures Splits(src, p, a) ==> p + 1 < |src|
  {}

  lemma IncreasingCons(x: nat, xs: seq<nat>)
    requires Increasing(xs) && forall y | y in xs :: x < y
    ensures Increasing([x] + xs)
  {
    var ys := [x] + xs;
    forall i, j | 0 <= i < j < |ys| ensures ys[i] < ys[j] {
      assert ys[j] == xs[j - 1] && xs[j - 1] in xs;
    }
  }

  /** Where the finder leaves a comment that is never closed, the scan starts over. */
  lemma DivergesRestart(src: string, s: Scan)
    requires s.pos < |src| && s.nodeStart <= s.pos && Tame(s) && Diverges(src, s) && NoClose(src, s.pos + 1)
    ensures s.pos + 1 < |src| && Restart(src, s) == Some(Mark(s.pos + 1, s.line + 1))
    ensures Points(src, s.pos, s.lex) == [s.pos + 1] + Points(src, s.pos + 1, Clean)
  {
    hide Step, NoClose, Points, Loop, Diverges, Tame, Splits, Resumes, Feed;
    PointsUnfold(src, s.pos, s.lex);
    DivergesStep(src, s);
    LoopStep(src, s);
    StaysOpen(src, |src|, Step(src, |src|, s));
  }

  lemma DivergesStep(src: string, s: Scan)
    requires s.pos < |src| && s.nodeStart <= s.pos && Tame(s) && Diverges(src, s)
    ensures var u := Step(src, |src|, s);
            && s.pos + 1 < |src| && src[s.pos] == '\n' && u.lex.block && u.pos == s.pos + 1 && u.rec == Some(Mark(s.pos + 1, s.line + 1))
    ensures var m := Feed(src, s.pos, '\n', s.lex);
            m.kind == Onward && Splits(src, s.pos, m.lex) && Resumes(src, s.pos, m.lex) == Clean
  {
    hide WordEnd, FeedQuoted, FeedCode, NodesOf;
    FeedKeeps(src, s.pos, '\n', s.lex);
    assert s.lex.block && s.lex.quote == NO_QUOTE && !s.lex.triple && Feed(src, s.pos, '\n', s.lex).lex == s.lex;
  }

  lemma LoopStep(src: string, s: Scan)
    requires s.pos <= |src| && s.nodeStart <= s.pos
    ensures Loop(src, |src|, s) == Loop(src, |src|, Step(src, |src|, s))
  {
    hide Step;
  }

  lemma BeginsStep(src: string, e: nat, s: Scan)
    requires s.pos < |src| && s.nodeStart <= s.pos < e <= |src| && Begins(src, e, Step(src, |src|, s))
    ensures Begins(src, e, s)
  {
    hide Step, Upto, Loop, NoClose;
    var t := Step(src, |src|, s);
    LoopStep(src, s);
    if Starts(src, e, t) {
      StartsStep(src, e, s);
    } else {
      assert Restart(src, s) == Restart(src, t);
    }
  }

  lemma {:induction false} PointsStart(src: string, s: Scan)
    requires s.nodeStart <= s.pos && Tame(s) && Straight(src, s)
    ensures forall e | e in Points(src, s.pos, s.lex) :: s.pos < e < |src| && Begins(src, e, s)
    ensures Increasing(Points(src, s.pos, s.lex))
    decreases if s.pos <= |src| then |src| - s.pos else 0
  {
    hide Step, Points, Diverges, Feed, Tame, Fresh, Splits, Increasing, Upto, Begins, NoClose, Starts;
    if s.pos >= |src| {
      NoPoints(src, s.pos, s.lex);
    } else if Diverges(src, s) {
      PointsBehind(src, s);
    } else {
      var t := Step(src, |src|, s);
      TameStep(src, s);
      PointsStart(src, t);
      PointsStep(src, s);
      var first, rest := Points(src, s.pos, s.lex), Points(src, t.pos, t.lex);
      forall e | e in rest ensures s.pos < e < |src| && Begins(src, e, s) { BeginsStep(src, e, s); }
      if first != rest {
        StartsHere(src, s);
        StartsBegins(src, s.pos + 1, s);
        IncreasingCons(s.pos + 1, rest);
      }
    }
  }

  lemma StartsBegins(src: string, e: nat, s: Scan)
    requires e <= |src| && s.nodeStart <= s.pos && Starts(src, e, s)
    ensures Begins(src, e, s)
  {
    hide Starts;
  }

  /** The split points from the place on where the finder has left a comment. */
  lemma {:induction false} PointsBehind(src: string, s: Scan)
    requires s.pos < |src| && s.nodeStart <= s.pos && Tame(s) && Straight(src, s) && Diverges(src, s)
    ensures forall e | e in Points(src, s.pos, s.lex) :: s.pos < e < |src| && Begins(src, e, s)
    ensures Increasing(Points(src, s.pos, s.lex))
    decreases |src| - s.pos, 0
  {
    hide Step, Points, Diverges, Fresh, Splits, Increasing, Upto, NoClose, Starts, Restart;
    DivergesRestart(src, s);
    var r := Init(s.pos + 1, s.line + 1);
    PointsStart(src, r);
    BeginsHere(src, s.pos + 1, s.line + 1);
    IncreasingCons(s.pos + 1, Points(src, s.pos + 1, Clean));
  }

  lemma NoPoints(src: string, pos: nat, a: Lex)
    requires pos >= |src|
    ensures Points(src, pos, a) == [] && Increasing([])
  {}

  lemma StartsStep(src: string, e: nat, s: Scan)
    requires s.pos < |src| && s.nodeStart <= s.pos < e <= |src| && Starts(src, e, Step(src, |src|, s))
    ensures Starts(src, e, s)
  {
    hide Step;
  }

  lemma StartsHere(src: string, s: Scan)
    requires s.pos < |src| && s.nodeStart <= s.pos
    requires var t := Step(src, |src|, s); Fresh(t) && t.pos == s.pos + 1
    ensures Starts(src, s.pos + 1, s)
  {
    hide Step;
    var t := Step(src, |src|, s);
    assert Upto(src, s.pos + 1, t) == t;
  }

  /** Every split point of a straight text is a good place to cut it: the scan, with its restarts, starts a line there. */
  lemma PointsAreGood(src: string, e: nat)
    requires Straight(src, Init(0, 1)) && e in Points(src, 0, Clean)
    ensures 0 < e < |src| && Begins(src, e, Init(0, 1))
  {
    hide Begins, Points, Straight;
    PointsStart(src, Init(0, 1));
  }

  // ---- A text that is not straight ----

  /** A definition line in a block comment under an open bracket. */
  const Crooked := "(/*\nto\n*/)"

  lemma CrookedAnchors()
    ensures AnchorAt(Crooked, 4) && !AnchorAt(Crooked, 7)
  {
    assert WordEnd(Crooked, 6) == 6 && WordEnd(Crooked, 5) == 6 && WordEnd(Crooked, 4) == 6;
    assert Crooked[4..6] == "to";
    assert WordEnd(Crooked, 7) == 7 && Crooked[7..7] == "";
  }

  /** The scan keeps the text together as one line. */
  lemma CrookedWhole()
    ensures Lines(Crooked, 10, 0, 1) == [Node(1, 0, Crooked)]
  {
    CrookedAnchors();
    hide AnchorAt, NodesOf, Loop;
    var s0 := Init(0, 1);
    var a, b := Clean.(paren := 1), Clean.(paren := 1, block := true);
    assert Step(Crooked, 10, s0) == s0.(pos := 1, lex := a);
    assert Step(Crooked, 10, s0.(pos := 1, lex := a)) == s0.(pos := 3, lex := b);
    var r := s0.(lex := b, line := 2, rec := Some(Mark(4, 2)));
    assert Step(Crooked, 10, s0.(pos := 3, lex := b)) == r.(pos := 4);
    assert Step(Crooked, 10, r.(pos := 4)) == r.(pos := 5);
    assert Step(Crooked, 10, r.(pos := 5)) == r.(pos := 6);
    assert Step(Crooked, 10, r.(pos := 6)) == r.(pos := 7, line := 3);
    var t := s0.(line := 3, lex := a);
    assert Step(Crooked, 10, r.(pos := 7, line := 3)) == t.(pos := 9);
    assert Step(Crooked, 10, t.(pos := 9)) == t.(pos := 10, lex := Clean);
    var u := Step(Crooked, 10, t.(pos := 10, lex := Clean));
    assert Crooked[0..10] == Crooked && u.pos == 11 && !u.lex.block && u.nodes == [] + NodesOf(1, Crooked);
    CrookedNode();
    hide Step;
    LoopSteps(Crooked, 10, [s0, s0.(pos := 1, lex := a), s0.(pos := 3, lex := b), r.(pos := 4), r.(pos := 5), r.(pos := 6),
                            r.(pos := 7, line := 3), t.(pos := 9), t.(pos := 10, lex := Clean), u]);
  }

  lemma CrookedNode()
    ensures NodesOf(1, Crooked) == [Node(1, 0, Crooked)]
  {
    assert FirstCode(Crooked, 0) == 0;
    assert HasCode(Crooked, 0, false, false);
  }

  predicate Follows(src: string, end: nat, s: Scan, t: Scan) { Usable(src, end, s) && t == Step(src, end, s) }

  /** The steps of a loop, listed. */
  lemma {:induction false} LoopSteps(src: string, end: nat, ss: seq<Scan>)
    requires end <= |src| && ss != [] && ss[|ss| - 1].pos > end && ss[|ss| - 1].nodeStart <= ss[|ss| - 1].pos
    requires forall i, j | 0 <= i < j < |ss| && j == i + 1 :: Follows(src, end, ss[i], ss[j])
    ensures ss[0].nodeStart <= ss[0].pos && Loop(src, end, ss[0]) == ss[|ss| - 1]
    decreases |ss|
  {
    hide Step;
    if |ss| > 1 {
      var rest := ss[1..];
      assert Follows(src, end, ss[0], ss[1]);
      forall i, j | 0 <= i < j < |rest| && j == i + 1 ensures Follows(src, end, rest[i], rest[j]) {
        assert rest[i] == ss[i + 1] && rest[j] == ss[j + 1];
      }
      LoopSteps(src, end, rest);
    }
  }

  /** The finder cuts it behind the newline in the comment. */
  lemma CrookedCut()
    ensures 4 in Points(Crooked, 0, Clean) && Diverges(Crooked, Init(0, 1).(pos := 3, lex := Clean.(paren := 1, block := true)))
  {
    CrookedAnchors();
    hide AnchorAt;
    PointsUnfold(Crooked, 0, Clean);
    PointsUnfold(Crooked, 1, Clean.(paren := 1));
    PointsUnfold(Crooked, 3, Clean.(paren := 1, block := true));
    hide Points;
    assert Splits(Crooked, 3, Clean.(paren := 1, block := true));
  }

  /** Scanned in two pieces, the text has a line that starts behind its first. */
  lemma CrookedPieces()
    ensures Lines(Crooked, 4, 0, 1) == []
    ensures 4 in Points(Crooked, 0, Clean) && Lines(Crooked, 4, 0, 1) + Lines(Crooked, 10, 4, 2) != Lines(Crooked, 10, 0, 1)
  {
    CrookedCut();
    CrookedWhole();
    CrookedFirst();
    LaterLines(Crooked, 10, 4, 2);
    hide Lines, Points;
    if Lines(Crooked, 10, 4, 2) != [] { assert Lines(Crooked, 10, 4, 2)[0].line >= 2; }
    assert Lines(Crooked, 4, 0, 1) + Lines(Crooked, 10, 4, 2) == Lines(Crooked, 10, 4, 2);
  }

  lemma CrookedFirst()
    ensures Lines(Crooked, 4, 0, 1) == []
  {
    CrookedAnchors();
    hide AnchorAt, NodesOf, Loop;
    var s0 := Init(0, 1);
    var a, b := Clean.(paren := 1), Clean.(paren := 1, block := true);
    assert Step(Crooked, 4, s0) == s0.(pos := 1, lex := a);
    assert Step(Crooked, 4, s0.(pos := 1, lex := a)) == s0.(pos := 3, lex := b);
    var r := s0.(lex := b, line := 2, rec := Some(Mark(4, 2)));
    assert Step(Crooked, 4, s0.(pos := 3, lex := b)) == r.(pos := 4);
    assert Step(Crooked, 4, r.(pos := 4)) == r.(pos := 5, line := 3);
    hide Step;
    LoopSteps(Crooked, 4, [s0, s0.(pos := 1, lex := a), s0.(pos := 3, lex := b), r.(pos := 4), r.(pos := 5, line := 3)]);
    assert Crooked[7] == '*' && Crooked[8] == '/' && !NoClose(Crooked, 4);
  }

  /** Lines are numbered from the first on. */
  lemma {:induction false} LaterLines(src: string, end: nat, start: nat, line: int)
    requires start <= end <= |src|
    ensures forall i | 0 <= i < |Lines(src, end, start, line)| :: Lines(src, end, start, line)[i].line >= line
    decreases end - start
  {
    LaterLoop(src, end, Init(start, line), line);
    var t := Loop(src, end, Init(start, line));
    hide Loop, NoClose;
    if t.lex.block && t.rec.Some? && NoClose(src, t.rec.value.pos) && start < t.rec.value.pos <= end {
      LaterLines(src, end, t.rec.value.pos, t.rec.value.line);
    }
  }

  predicate Later(s: Scan, line: int) {
    && s.line >= line && s.startLine >= line && (s.rec.Some? ==> s.rec.value.line >= line)
    && forall i | 0 <= i < |s.nodes| :: s.nodes[i].line >= line
  }

  lemma {:induction false} LaterLoop(src: string, end: nat, s: Scan, line: int)
    requires end <= |src| && s.nodeStart <= s.pos && Later(s, line)
    ensures Later(Loop(src, end, s), line)
    decreases if s.pos <= end then end + 1 - s.pos else 0
  {
    if s.pos <= end {
      LaterStep(src, end, s, line);
      hide Step, Later;
      LaterLoop(src, end, Step(src, end, s), line);
    }
  }

  lemma LaterStep(src: string, end: nat, s: Scan, line: int)
    requires Usable(src, end, s) && Later(s, line)
    ensures Later(Step(src, end, s), line)
  {
    hide Feed, AnchorAt, Counts, Indent;
  }
}
