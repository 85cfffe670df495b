/**
 * The lines of a text, all at once: it falls into pieces at the newlines that end a logical line, the
 * pieces joined by newlines are the text, and the scanner finds those that hold code, in order, each with
 * the number of its first line and the width of its indentation.
 */
module LineResults {
  import opened Values
  import opened Topography
  import opened Chunking
  import opened LogicalLines

  // ---- Pieces ----

  /** Something that is neither blank nor a comment. */
  predicate IsCode(i: Item) { (i.Char? && i.c !in {' ', '\t', '\r'}) || i.Joint? || i.Quoted? || i.Long? }

  predicate SomeCode(items: seq<Item>, a: nat, e: nat)
    requires a <= e <= |items|
  {
    exists j | a <= j < e :: IsCode(items[j])
  }

  /** The width of the spaces and tabs a text begins with; a tab counts four. */
  function Width(text: string): nat {
    if text != "" && text[0] == ' ' then 1 + Width(text[1..])
    else if text != "" && text[0] == '\t' then 4 + Width(text[1..])
    else 0
  }

  /** The newline at item k ends the line that began at item a. */
  predicate Ends(items: seq<Item>, a: nat, k: nat)
    requires a <= k <= |items|
  {
    Balanced(items, a, k) || AnchorAt(Text(items), Off(items, k) + 1)
  }

  /** A piece from item a to item e: no newline in it ends a line, the one behind it does. */
  predicate Piece(items: seq<Item>, a: nat, e: nat) {
    && a <= e <= |items|
    && (e < |items| ==> items[e].Break? && Ends(items, a, e))
    && forall k | a <= k < e && items[k].Break? :: !Ends(items, a, k)
  }

  /** Where piece i begins: behind the newline that ended the one before. */
  function Begin(ends: seq<nat>, i: nat): nat
    requires i < |ends|
  {
    if i == 0 then 0 else ends[i - 1] + 1
  }

  predicate Pieces(items: seq<Item>, ends: seq<nat>) {
    && ends != [] && ends[|ends| - 1] == |items|
    && forall i | 0 <= i < |ends| :: Piece(items, Begin(ends, i), ends[i])
  }

  function PieceText(items: seq<Item>, a: nat, e: nat): string
    requires a <= e <= |items|
  {
    OffGrows(items, a, e);
    PrefixText(items, e);
    Text(items)[Off(items, a)..Off(items, e)]
  }

  /** The node of a piece, if its brackets are closed and there is code in it. */
  function PieceNode(items: seq<Item>, a: nat, e: nat): seq<Node>
    requires a <= e <= |items|
  {
    PrefixText(items, a);
    if Balanced(items, a, e) && SomeCode(items, a, e)
    then [Node(1 + multiset(Text(items)[..Off(items, a)])['\n'], Width(PieceText(items, a, e)), PieceText(items, a, e))]
    else []
  }

  function NodesFrom(items: seq<Item>, ends: seq<nat>, i: nat): seq<Node>
    requires Pieces(items, ends) && i < |ends|
    decreases |ends| - i
  {
    assert Piece(items, Begin(ends, i), ends[i]);
    PieceNode(items, Begin(ends, i), ends[i]) + if i + 1 < |ends| then NodesFrom(items, ends, i + 1) else []
  }

  function JoinedFrom(items: seq<Item>, ends: seq<nat>, i: nat): string
    requires Pieces(items, ends) && i < |ends|
    decreases |ends| - i
  {
    assert Piece(items, Begin(ends, i), ends[i]);
    PieceText(items, Begin(ends, i), ends[i]) + if i + 1 < |ends| then "\n" + JoinedFrom(items, ends, i + 1) else ""
  }

  // ---- Code in a line ----

  /** Where item j is in the line that begins with item a. */
  function Place(items: seq<Item>, a: nat, j: nat): nat
    requires a <= j <= |items|
  {
    OffGrows(items, a, j);
    Off(items, j) - Off(items, a)
  }

  /** The scanner's test at item j of the piece, behind a comment or not. */
  predicate CodeFrom(items: seq<Item>, a: nat, e: nat, j: nat)
    requires a <= j <= e <= |items|
  {
    HasCode(PieceText(items, a, e), Place(items, a, j), false, j > a && items[j - 1].Comment?)
  }

  lemma SliceSlice(src: string, a: nat, b: nat, p: nat, q: nat)
    requires a <= b <= |src| && p <= q <= b - a
    ensures src[a..b][p..q] == src[a + p..a + q]
  {
    var x, y := src[a..b][p..q], src[a + p..a + q];
    forall k | 0 <= k < q - p ensures x[k] == y[k] { assert src[a..b][p + k] == src[a + (p + k)]; }
  }

  /** Item j as it stands in the piece. */
  lemma StandsInPiece(items: seq<Item>, a: nat, e: nat, j: nat)
    requires a <= j < e <= |items|
    ensures Place(items, a, j + 1) == Place(items, a, j) + |Written(items[j])|
    ensures ItemAt(PieceText(items, a, e), Place(items, a, j), Written(items[j]))
  {
    hide Text, Written;
    OffGrows(items, a, j);
    OffGrows(items, j + 1, e);
    ItemStands(items, j);
    PrefixText(items, e);
    var t, p, q := PieceText(items, a, e), Place(items, a, j), Place(items, a, j + 1);
    SliceSlice(Text(items), Off(items, a), Off(items, e), p, q);
  }

  lemma {:induction false} LineComment(t: string, p: nat, n: nat)
    requires p + n <= |t| && '\n' !in t[p..p + n]
    ensures HasCode(t, p, false, true) == HasCode(t, p + n, false, true)
    decreases n
  {
    if n > 0 {
      assert t[p..p + n][0] == t[p] && t[p..p + n][1..] == t[p + 1..p + 1 + (n - 1)];
      LineComment(t, p + 1, n - 1);
    }
  }

  lemma {:induction false} BlockComment(t: string, p: nat, n: nat)
    requires p + n + 2 <= |t| && t[p + n] == '*' && t[p + n + 1] == '/'
    requires forall j | p <= j < p + n :: !(t[j] == '*' && t[j + 1] == '/')
    ensures HasCode(t, p, true, false) == HasCode(t, p + n + 2, false, false)
    decreases n
  {
    if n > 0 { BlockComment(t, p + 1, n - 1); }
  }

  /** What the test does at one item. */
  lemma CodeStep(t: string, p: nat, i: Item, line: bool)
    requires ItemAt(t, p, Written(i)) && (line ==> i.Break?)
    requires i.Char? ==> i.c !in {'\n', '#'} && (i.c == '/' ==> !At(t, p + 1, '*'))
    requires (i.Quoted? || i.Long?) ==> IsQuote(i.q)
    requires i.Comment? ==> '\n' !in i.words
    requires i.Block? ==> forall j | 0 <= j < |i.words| :: !(i.words[j] == '*' && (i.words + "*/")[j + 1] == '/')
    ensures HasCode(t, p, false, line) == (IsCode(i) || HasCode(t, p + |Written(i)|, false, i.Comment?))
  {
    hide GlyphText;
    var w := Written(i);
    assert t[p] == t[p..p + |w|][0];
    if i.Comment? {
      assert t[p + 1..p + |w|] == t[p..p + |w|][1..];
      LineComment(t, p + 1, |i.words|);
    } else if i.Block? {
      BlockStands(t, p, i.words);
      BlockComment(t, p + 2, |i.words|);
    }
  }

  lemma BlockStands(t: string, p: nat, words: string)
    requires ItemAt(t, p, "/*" + words + "*/")
    requires forall j | 0 <= j < |words| :: !(words[j] == '*' && (words + "*/")[j + 1] == '/')
    ensures var n := |words|; p + n + 4 <= |t| && t[p] == '/' && At(t, p + 1, '*') && t[p + 2 + n] == '*' && t[p + 3 + n] == '/'
    ensures forall j | p + 2 <= j < p + 2 + |words| :: !(t[j] == '*' && t[j + 1] == '/')
  {
    var n, w := |words|, "/*" + words + "*/";
    var s := t[p..p + |w|];
    forall j | p + 2 <= j < p + 2 + n ensures !(t[j] == '*' && t[j + 1] == '/') {
      var x := j - p - 2;
      assert s[x + 2] == t[j] && s[x + 3] == t[j + 1] && w[x + 2] == words[x] && w[x + 3] == (words + "*/")[x + 1];
    }
    assert s[0] == t[p] && s[1] == t[p + 1] && s[2 + n] == t[p + 2 + n] && s[3 + n] == t[p + 3 + n];
  }

  /** No comment is left open at the end of a piece. */
  predicate Bounded(items: seq<Item>, a: nat, e: nat) { a <= e <= |items| && (e < |items| ==> items[e].Break?) }

  lemma {:induction false} CodeFromHere(items: seq<Item>, a: nat, e: nat, j: nat)
    requires WellFormed(items) && Bounded(items, a, e) && a <= j <= e
    ensures CodeFrom(items, a, e, j) <==> SomeCode(items, j, e)
    decreases e - j
  {
    hide Text, Written, HasCode, WellFormed, PieceText, IsCode;
    if j == e {
      NoMoreCode(items, a, e);
    } else {
      CodeFromHere(items, a, e, j + 1);
      StandsInPiece(items, a, e, j);
      ReadyFor(items, a, e, j);
      CodeStep(PieceText(items, a, e), Place(items, a, j), items[j], j > a && items[j - 1].Comment?);
      if SomeCode(items, j, e) && !IsCode(items[j]) {
        var x :| j <= x < e && IsCode(items[x]);
        assert SomeCode(items, j + 1, e);
      }
    }
  }

  lemma NoMoreCode(items: seq<Item>, a: nat, e: nat)
    requires a <= e <= |items|
    ensures CodeFrom(items, a, e, e) == false == SomeCode(items, e, e)
  {
    hide Text;
    OffGrows(items, a, e);
    PrefixText(items, e);
  }

  lemma ReadyFor(items: seq<Item>, a: nat, e: nat, j: nat)
    requires WellFormed(items) && a <= j < e <= |items|
    ensures var i := items[j];
            && (i.Char? ==> i.c !in {'\n', '#'} && (i.c == '/' ==> !At(PieceText(items, a, e), Place(items, a, j) + 1, '*')))
            && ((i.Quoted? || i.Long?) ==> IsQuote(i.q))
            && (i.Comment? ==> '\n' !in i.words)
            && (i.Block? ==> forall j | 0 <= j < |i.words| :: !(i.words[j] == '*' && (i.words + "*/")[j + 1] == '/'))
            && (j > a && items[j - 1].Comment? ==> i.Break?)
  {
    hide Text, Written, Inside, NoAnchors;
    FineHere(items, j);
    if j > a { FineHere(items, j - 1); }
    if items[j] == Char('/') { SlashAlone(items, a, e, j); }
  }

  lemma SlashAlone(items: seq<Item>, a: nat, e: nat, j: nat)
    requires a <= j < e <= |items| && !At(Text(items), Off(items, j) + 1, '*')
    ensures !At(PieceText(items, a, e), Place(items, a, j) + 1, '*')
  {
    hide Text, Off;
    OffGrows(items, a, j);
    OffGrows(items, a, e);
    PrefixText(items, e);
    var t, p := PieceText(items, a, e), Place(items, a, j);
    if p + 1 < |t| { assert t[p + 1] == Text(items)[Off(items, j) + 1]; }
  }

  lemma {:induction false} FirstCodeAt(t: string, i: nat)
    requires i <= |t|
    ensures FirstCode(t, i) == |t| ==> forall x | i <= x < |t| :: Blank(t[x])
    decreases |t| - i
  {
    if i < |t| && Blank(t[i]) { FirstCodeAt(t, i + 1); }
  }

  lemma {:induction false} HasCodeNeeds(t: string, i: nat, block: bool, line: bool)
    requires HasCode(t, i, block, line)
    ensures exists x :: i <= x < |t| && !Blank(t[x])
    decreases |t| - i
  {
    if block {
      if t[i] == '*' && At(t, i + 1, '/') { HasCodeNeeds(t, i + 2, false, line); } else { HasCodeNeeds(t, i + 1, true, line); }
    } else if line {
      HasCodeNeeds(t, i + 1, false, t[i] != '\n');
    } else if Blank(t[i]) {
      HasCodeNeeds(t, i + 1, false, false);
    }
  }

  lemma CountsAll(t: string)
    ensures Counts(t) <==> HasCode(t, 0, false, false)
  {
    hide HasCode, FirstCode;
    if HasCode(t, 0, false, false) {
      HasCodeNeeds(t, 0, false, false);
      FirstCodeAt(t, 0);
    }
  }

  lemma {:induction false} IndentIsWidth(t: string, i: nat)
    requires i <= |t|
    ensures Indent(t, i, FirstCode(t, i)) == Width(t[i..])
    decreases |t| - i
  {
    if i < |t| && Blank(t[i]) {
      IndentIsWidth(t, i + 1);
      assert t[i..][1..] == t[i + 1..];
    }
  }

  lemma {:induction false} BreaksCount(t: string)
    ensures Breaks(t) == multiset(t)['\n']
  {
    if t != "" {
      var n := |t| - 1;
      BreaksCount(t[..n]);
      assert t == t[..n] + [t[n]];
    }
  }

  /** The node that the scanner makes of a line. */
  lemma LineIsPiece(items: seq<Item>, a: nat, e: nat)
    requires WellFormed(items) && Bounded(items, a, e)
    ensures (if Balanced(items, a, e) then LineOf(items, a, e) else []) == PieceNode(items, a, e)
  {
    hide Text, HasCode, WellFormed, Balanced, Counts, SomeCode, Width, Indent, FirstCode, Breaks;
    var t := PieceText(items, a, e);
    CodeFromHere(items, a, e, a);
    CountsAll(t);
    IndentIsWidth(t, 0);
    assert t[0..] == t;
    PrefixText(items, a);
    BreaksCount(Text(items)[..Off(items, a)]);
  }

  // ---- All lines ----

  lemma {:induction false} LinesOfPiece(items: seq<Item>, a: nat, k: nat, e: nat)
    requires WellFormed(items) && Piece(items, a, e) && a <= k <= e
    ensures LinesFrom(items, a, k) == PieceNode(items, a, e) + if e < |items| then LinesFrom(items, e + 1, e + 1) else []
    decreases e - k
  {
    hide Text, WellFormed, Balanced, PieceNode, LineOf, AnchorAt;
    if k < e {
      LinesOfPiece(items, a, k + 1, e);
    } else {
      LineIsPiece(items, a, e);
    }
  }

  lemma {:induction false} LinesOfPieces(items: seq<Item>, ends: seq<nat>, i: nat)
    requires WellFormed(items) && Pieces(items, ends) && i < |ends|
    ensures Begin(ends, i) <= |items| && LinesFrom(items, Begin(ends, i), Begin(ends, i)) == NodesFrom(items, ends, i)
    decreases |ends| - i
  {
    hide WellFormed, LinesFrom, PieceNode, Piece, Text, Off, Balanced;
    PieceHolds(items, ends, i);
    LinesOfPiece(items, Begin(ends, i), Begin(ends, i), ends[i]);
    if i + 1 < |ends| {
      PieceHolds(items, ends, i + 1);
      LinesOfPieces(items, ends, i + 1);
    }
  }

  lemma PieceHolds(items: seq<Item>, ends: seq<nat>, i: nat)
    requires Pieces(items, ends) && i < |ends|
    ensures Piece(items, Begin(ends, i), ends[i]) && Begin(ends, i) <= ends[i] <= |items|
    ensures i + 1 < |ends| ==> ends[i] < |items|
  {
    assert Piece(items, Begin(ends, i), ends[i]);
    if i + 1 < |ends| { assert Piece(items, Begin(ends, i + 1), ends[i + 1]); }
  }

  lemma {:induction false} PiecesJoin(items: seq<Item>, ends: seq<nat>, i: nat)
    requires Pieces(items, ends) && i < |ends|
    ensures Begin(ends, i) <= |items| && Off(items, Begin(ends, i)) <= |Text(items)|
    ensures JoinedFrom(items, ends, i) == Text(items)[Off(items, Begin(ends, i))..]
    decreases |ends| - i
  {
    hide Text, Piece, Balanced;
    PieceHolds(items, ends, i);
    PrefixText(items, Begin(ends, i));
    OffGrows(items, Begin(ends, i), ends[i]);
    PrefixText(items, ends[i]);
    if i + 1 < |ends| {
      PiecesJoin(items, ends, i + 1);
      BreakBetween(items, ends, i);
    } else {
      LastOff(items);
    }
  }

  lemma BreakBetween(items: seq<Item>, ends: seq<nat>, i: nat)
    requires Pieces(items, ends) && i + 1 < |ends|
    ensures ends[i] < |items| && Off(items, ends[i] + 1) == Off(items, ends[i]) + 1 <= |Text(items)|
    ensures Text(items)[Off(items, ends[i])..] == "\n" + Text(items)[Off(items, ends[i] + 1)..]
  {
    hide Text, Off, Balanced, AnchorAt, Pieces;
    PieceHolds(items, ends, i);
    NewlineHere(items, ends[i]);
  }

  lemma NewlineHere(items: seq<Item>, k: nat)
    requires k < |items| && items[k].Break?
    ensures Off(items, k + 1) == Off(items, k) + 1 <= |Text(items)|
    ensures Text(items)[Off(items, k)..] == "\n" + Text(items)[Off(items, k + 1)..]
  {
    hide Text, Off;
    ItemStands(items, k);
    var src, p := Text(items), Off(items, k);
    assert src[p..] == src[p..p + 1] + src[p + 1..];
  }

  /**
   * Whatever newlines divide the text into its pieces, the pieces joined by newlines are the text, and the
   * scanner finds the nodes of the pieces with code, in order.
   */
  lemma LinesAreThePieces(items: seq<Item>, ends: seq<nat>)
    requires WellFormed(items) && Pieces(items, ends)
    ensures Lines(Text(items), |Text(items)|, 0, 1) == NodesFrom(items, ends, 0)
    ensures Text(items) == JoinedFrom(items, ends, 0)
  {
    hide WellFormed, Piece, LinesFrom, Lines, NodesFrom, JoinedFrom, Text;
    LinesAreFound(items);
    LinesOfPieces(items, ends, 0);
    PiecesJoin(items, ends, 0);
    LastOff(items);
  }

  /** The pieces from item k on, of which the first began at item a. */
  lemma {:induction false} Divided(items: seq<Item>, a: nat, k: nat) returns (ends: seq<nat>)
    requires a <= k <= |items| && forall x | a <= x < k && items[x].Break? :: !Ends(items, a, x)
    ensures ends != [] && ends[|ends| - 1] == |items| && Piece(items, a, ends[0])
    ensures forall i | 0 < i < |ends| :: Piece(items, ends[i - 1] + 1, ends[i])
    decreases |items| - k
  {
    hide Ends;
    if k == |items| {
      ends := [k];
    } else if items[k].Break? && Ends(items, a, k) {
      var rest := Divided(items, k + 1, k + 1);
      ends := [k] + rest;
      forall i | 0 < i < |ends| ensures Piece(items, ends[i - 1] + 1, ends[i]) {
        if i > 1 { assert Piece(items, rest[i - 2] + 1, rest[i - 1]); }
      }
    } else {
      ends := Divided(items, a, k + 1);
    }
  }

  /** Every text has its pieces. */
  lemma EveryTextHasPieces(items: seq<Item>) returns (ends: seq<nat>)
    ensures Pieces(items, ends)
  {
    hide Piece;
    ends := Divided(items, 0, 0);
  }

  // ---- Where a text is cut ----

  /** Where the pieces from i on begin, before the end of the text. */
  function BeginsFrom(items: seq<Item>, ends: seq<nat>, i: nat): seq<nat>
    requires Pieces(items, ends)
    decreases if i <= |ends| then |ends| - i else 0
  {
    if i >= |ends| then []
    else
      assert Piece(items, Begin(ends, i), ends[i]);
      (if Off(items, Begin(ends, i)) < |Text(items)| then [Off(items, Begin(ends, i))] else []) + BeginsFrom(items, ends, i + 1)
  }

  /** A comment that ends is not left by the finder. */
  lemma NotDiverging(src: string, s: Scan)
    requires s.pos < |src| && s.nodeStart <= s.pos && Tame(s) && Straight(src, s) && !Loop(src, |src|, s).lex.block
    ensures !Diverges(src, s) && Straight(src, Step(src, |src|, s))
  {
    hide Step, NoClose, Points, Loop, Diverges, Tame, Splits, Resumes, Feed;
    if Diverges(src, s) {
      DivergesStep(src, s);
      LoopStep(src, s);
      StaysOpen(src, |src|, Step(src, |src|, s));
    }
  }

  lemma StepBegins(src: string, s: Scan)
    requires s.pos < |src| && s.nodeStart <= s.pos
    ensures var t := Step(src, |src|, s); t.nodeStart == s.nodeStart || t.nodeStart == s.pos + 1
  {
    hide Feed, AnchorAt, NodesOf;
  }

  lemma {:induction false} UptoBegins(src: string, e: nat, s: Scan)
    requires e <= |src| && s.nodeStart <= s.pos
    ensures Upto(src, e, s).nodeStart >= s.nodeStart
    decreases if s.pos < e then e - s.pos else 0
  {
    hide Step;
    if s.pos < e {
      StepBegins(src, s);
      UptoBegins(src, e, Step(src, |src|, s));
    }
  }

  /** Within a line there are no split points. */
  lemma {:induction false} PointsReach(src: string, s: Scan, t: Scan)
    requires Reach(src, s, t) && t.nodeStart == s.nodeStart && Tame(s) && Straight(src, s) && !Loop(src, |src|, s).lex.block
    ensures Points(src, s.pos, s.lex) == Points(src, t.pos, t.lex) && Tame(t) && Straight(src, t)
    decreases |src| - s.pos
  {
    hide Step, Points, Diverges, Tame, Straight, Loop;
    if s.pos < t.pos {
      var u := Step(src, |src|, s);
      NotDiverging(src, s);
      TameStep(src, s);
      PointsStep(src, s);
      StepBegins(src, s);
      LoopStep(src, s);
      UptoBegins(src, t.pos, u);
      PointsReach(src, u, t);
    }
  }

  /** At a newline of its own. */
  lemma PointsAtBreak(items: seq<Item>, a: nat, k: nat)
    requires WellFormed(items) && a <= k < |items| && items[k].Break?
    ensures Off(items, k + 1) == Off(items, k) + 1 <= |Text(items)|
    ensures Points(Text(items), Off(items, k), LexAt(items, a, k)) ==
            if Ends(items, a, k) then (if Off(items, k + 1) < |Text(items)| then [Off(items, k + 1)] else []) + Points(Text(items), Off(items, k + 1), Clean)
            else Points(Text(items), Off(items, k + 1), LexAt(items, a, k + 1))
  {
    hide Text, Points, LexAt, Balanced, AnchorAt, WellFormed;
    var src, p := Text(items), Off(items, k);
    PlaceOf(items, k);
    AtChar(src, p, "\n", 0);
    AtIs(src, p, '\n');
    LexRests(items, a, k);
    OpenIsUnbalanced(items, a, k);
    PointsUnfold(src, p, LexAt(items, a, k));
    NewlineFeed(src, p, LexAt(items, a, k));
  }

  lemma NewlineFeed(src: string, p: nat, a: Lex)
    requires Resting(a)
    ensures Feed(src, p, '\n', a) == Move(p, a.(comment := false), Onward)
  {}

  lemma {:induction false} PointsOfPiece(items: seq<Item>, a: nat, k: nat, e: nat, nodes: seq<Node>)
    requires WellFormed(items) && Piece(items, a, e) && a <= k <= e
    requires Tame(StateAt(items, a, k, nodes)) && Straight(Text(items), StateAt(items, a, k, nodes))
    ensures Points(Text(items), Off(items, k), LexAt(items, a, k)) == Points(Text(items), Off(items, e), LexAt(items, a, e))
    ensures Tame(StateAt(items, a, e, nodes)) && Straight(Text(items), StateAt(items, a, e, nodes))
    decreases e - k
  {
    hide Text, Points, LexAt, WellFormed, Ends, Tame, Straight, Reach, LinesFrom, Off;
    if k < e {
      var src, s, t := Text(items), StateAt(items, a, k, nodes), StateAt(items, a, k + 1, nodes);
      LoopFrom(items, a, k, nodes);
      InLine(items, a, k, nodes);
      PointsReach(src, s, t);
      PointsOfPiece(items, a, k + 1, e, nodes);
    }
  }

  /** An item inside a line. */
  lemma InLine(items: seq<Item>, a: nat, k: nat, nodes: seq<Node>)
    requires WellFormed(items) && a <= k < |items| && (items[k].Break? ==> !Ends(items, a, k))
    ensures Reach(Text(items), StateAt(items, a, k, nodes), StateAt(items, a, k + 1, nodes))
  {
    hide Text, LexAt, WellFormed, Balanced, Reach, AnchorAt, StateAt, LineOf, Off;
    if items[k].Break? { BreakRun(items, a, k, nodes); } else { ItemRun(items, a, k, nodes); }
  }

  /** A line begun. */
  lemma NextPiece(items: seq<Item>, a: nat, k: nat, nodes: seq<Node>) returns (more: seq<Node>)
    requires WellFormed(items) && a <= k < |items| && items[k].Break? && Ends(items, a, k)
    requires Tame(StateAt(items, a, k, nodes)) && Straight(Text(items), StateAt(items, a, k, nodes))
    ensures Tame(StateAt(items, k + 1, k + 1, more)) && Straight(Text(items), StateAt(items, k + 1, k + 1, more))
  {
    hide Text, LexAt, Balanced, AnchorAt, Tame, Straight, Step, Upto, LineOf, Loop, LinesFrom, Diverges, Breaks;
    more := if Balanced(items, a, k) then nodes + LineOf(items, a, k) else nodes;
    var src, s, t := Text(items), StateAt(items, a, k, nodes), StateAt(items, k + 1, k + 1, more);
    BreakRun(items, a, k, nodes);
    NewlineHere(items, k);
    OneStep(src, s, t);
    LoopFrom(items, a, k, nodes);
    NotDiverging(src, s);
    TameStep(src, s);
  }

  lemma OneStep(src: string, s: Scan, t: Scan)
    requires Reach(src, s, t) && t.pos == s.pos + 1
    ensures Step(src, |src|, s) == t
  {
    hide Step;
    UptoStep(src, t.pos, s);
  }

  lemma BeginsNext(items: seq<Item>, ends: seq<nat>, i: nat)
    requires Pieces(items, ends)
    ensures i >= |ends| ==> BeginsFrom(items, ends, i) == []
    ensures i < |ends| ==>
              && Begin(ends, i) <= |items|
              && BeginsFrom(items, ends, i) ==
                 (if Off(items, Begin(ends, i)) < |Text(items)| then [Off(items, Begin(ends, i))] else []) + BeginsFrom(items, ends, i + 1)
    ensures ends != [] && ends[|ends| - 1] == |items|
  {
    hide Text, Off, Ends;
    if i < |ends| { PieceHolds(items, ends, i); }
  }

  lemma {:induction false} PointsOfPieces(items: seq<Item>, ends: seq<nat>, i: nat, nodes: seq<Node>)
    requires WellFormed(items) && Pieces(items, ends) && i < |ends| && Begin(ends, i) <= |items|
    requires Tame(StateAt(items, Begin(ends, i), Begin(ends, i), nodes)) && Straight(Text(items), StateAt(items, Begin(ends, i), Begin(ends, i), nodes))
    ensures Points(Text(items), Off(items, Begin(ends, i)), Clean) == BeginsFrom(items, ends, i + 1)
    decreases |ends| - i
  {
    hide Text, Points, LexAt, WellFormed, Ends, Tame, Straight, Off, StateAt, BeginsFrom, Pieces, Piece;
    PieceHolds(items, ends, i);
    BeginsNext(items, ends, i + 1);
    var a, e := Begin(ends, i), ends[i];
    LexRests(items, a, a);
    PointsOfPiece(items, a, a, e, nodes);
    if i + 1 < |ends| {
      PointsAtBreak(items, a, e);
      var more := NextPiece(items, a, e, nodes);
      PieceHolds(items, ends, i + 1);
      PointsOfPieces(items, ends, i + 1, more);
    } else {
      LastOff(items);
      NoPoints(Text(items), Off(items, e), LexAt(items, a, e));
    }
  }

  /** The finder of split points finds where the pieces begin, all of them and nothing else. */
  lemma PointsAreTheBegins(items: seq<Item>, ends: seq<nat>)
    requires WellFormed(items) && Pieces(items, ends) && Straight(Text(items), Init(0, 1))
    ensures Points(Text(items), 0, Clean) == BeginsFrom(items, ends, 1)
  {
    hide Text, Points, WellFormed, Piece, Straight, BeginsFrom;
    StartsClean(items);
    LastOff(items);
    PointsOfPieces(items, ends, 0, []);
  }

  // ---- Texts of characters alone ----

  /** No quotes, comments and backslashes. */
  predicate PlainText(src: string) {
    && '"' !in src && '\'' !in src && '#' !in src && '\\' !in src
    && forall i | 0 <= i < |src| && src[i] == '/' :: !At(src, i + 1, '*')
  }

  function Chars(src: string): (items: seq<Item>)
    ensures |items| == |src|
  {
    seq(|src|, k requires 0 <= k < |src| => if src[k] == '\n' then Break else Char(src[k]))
  }

  lemma {:induction false} CharsAreText(src: string, k: nat)
    requires k <= |src|
    ensures Text(Chars(src)[..k]) == src[..k]
  {
    if k > 0 {
      CharsAreText(src, k - 1);
      assert Chars(src)[..k][..k - 1] == Chars(src)[..k - 1];
      assert src[..k] == src[..k - 1] + [src[k - 1]];
    }
  }

  /** Such a text is written from its characters. */
  lemma PlainItems(src: string)
    requires PlainText(src)
    ensures Text(Chars(src)) == src && WellFormed(Chars(src))
    ensures forall k | 0 <= k <= |src| :: Off(Chars(src), k) == k
  {
    hide Text, Written, Chars;
    forall k | 0 <= k <= |src| ensures Off(Chars(src), k) == k { CharsAreText(src, k); }
    CharsAreText(src, |src|);
    assert src[..|src|] == src && Chars(src)[..|src|] == Chars(src);
    forall k | 0 <= k < |src| ensures Fine(src, Chars(src), k) { PlainChar(src, k); }
  }

  lemma PlainChar(src: string, k: nat)
    requires PlainText(src) && k < |src| && Off(Chars(src), k) == k
    ensures Fine(src, Chars(src), k)
  {
    assert src[k] in src;
    assert Chars(src)[k] == if src[k] == '\n' then Break else Char(src[k]);
    hide Off, At;
  }

  /** The counts of a bracket in a stretch of text. */
  lemma {:induction false} CharsCount(src: string, j: nat, k: nat, c: char)
    requires j <= k <= |src| && c != '\n'
    ensures multiset(Chars(src)[j..k])[Char(c)] == multiset(src[j..k])[c]
    decreases k - j
  {
    if j == k {
      assert Chars(src)[j..k] == [] && src[j..k] == "";
    } else {
      CharsCount(src, j, k - 1, c);
      assert Chars(src)[j..k] == Chars(src)[j..k - 1] + [Chars(src)[k - 1]];
      assert src[j..k] == src[j..k - 1] + [src[k - 1]];
    }
  }

  /** From no place between a and k are there more opening than closing brackets of the kind. */
  predicate ClosedIn(src: string, a: nat, k: nat, opening: char, closing: char)
    requires a <= k <= |src|
  {
    forall j | a <= j <= k :: multiset(src[j..k])[opening] <= multiset(src[j..k])[closing]
  }

  lemma ClosedChars(src: string, a: nat, k: nat, opening: char, closing: char)
    requires a <= k <= |src| && opening != '\n' && closing != '\n'
    ensures Closed(Chars(src), a, k, opening, closing) <==> ClosedIn(src, a, k, opening, closing)
  {
    hide Chars;
    forall j | a <= j <= k
      ensures NotMore(Chars(src), j, k, opening, closing) <==> multiset(src[j..k])[opening] <= multiset(src[j..k])[closing]
    {
      CharsCount(src, j, k, opening);
      CharsCount(src, j, k, closing);
    }
  }

  /** A newline of a plain text ends its line exactly when all three kinds of brackets are closed, or a definition follows. */
  lemma PlainNewlineEnds(src: string, a: nat, k: nat)
    requires PlainText(src) && a <= k < |src| && src[k] == '\n'
    ensures Ends(Chars(src), a, k) <==>
            (ClosedIn(src, a, k, '(', ')') && ClosedIn(src, a, k, '[', ']') && ClosedIn(src, a, k, '{', '}')) || AnchorAt(src, k + 1)
  {
    hide Chars, Closed, ClosedIn, AnchorAt, WellFormed;
    PlainItems(src);
    ClosedChars(src, a, k, '(', ')');
    ClosedChars(src, a, k, '[', ']');
    ClosedChars(src, a, k, '{', '}');
  }

  // ---- Definition lines ----

  /** The keywords of definitions. */
  function Keywords(): set<string> {
    {"to", "can", "def", "function", "define", "structure", "thing", "class", "namespace", "import", "use", "from"}
  }

  /** The word stands at p, in front of a blank, a bracket, a colon or the end. */
  predicate Opens(src: string, p: nat, word: string) {
    && p + |word| <= |src| && src[p..p + |word|] == word
    && (p + |word| < |src| ==>
          var c := src[p + |word|]; c == ' ' || '\t' <= c <= '\r' || c == '(' || c == ':' || c == '\0')
  }

  lemma {:induction false} WordEnds(src: string, p: nat, n: nat)
    requires p + n <= |src| && forall j | p <= j < p + n :: WordChar(src[j])
    requires p + n < |src| ==> !WordChar(src[p + n])
    ensures WordEnd(src, p) == p + n
    decreases n
  {
    if n > 0 { WordEnds(src, p + 1, n - 1); }
  }

  lemma KeywordLetters(word: string, j: nat)
    requires word in Keywords() && j < |word|
    ensures WordChar(word[j])
  {}

  lemma KeywordStands(src: string, p: nat, word: string)
    requires word in Keywords() && Opens(src, p, word)
    ensures AnchorAt(src, p)
  {
    forall j | p <= j < p + |word| ensures WordChar(src[j]) {
      assert src[p..p + |word|][j - p] == src[j];
      KeywordLetters(word, j - p);
    }
    WordEnds(src, p, |word|);
    assert |word| > 0;
  }

  /** A definition begins at p exactly when one of the keywords stands there as a word. */
  lemma DefinitionsAre(src: string, p: nat)
    ensures AnchorAt(src, p) <==> exists word :: word in Keywords() && Opens(src, p, word)
  {
    if AnchorAt(src, p) {
      var word := src[p..WordEnd(src, p)];
      assert word in Keywords() && Opens(src, p, word);
    }
    if word :| word in Keywords() && Opens(src, p, word) {
      KeywordStands(src, p, word);
    }
  }
}
