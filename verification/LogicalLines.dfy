/**
 * What the line scanner finds, said without its automaton. A text is written from items: characters,
 * newlines, continued lines, strings, long strings and the two kinds of comments. A newline of its own
 * ends a logical line when the brackets of each kind are balanced since the line began; the newlines in
 * strings, in block comments and behind a backslash do not end one.
 */
module LogicalLines {
  import opened Values
  import opened Topography
  import opened Chunking

  // ---- Texts ----

  /** A character of a string, as it is or behind a backslash. */
  datatype Glyph = Raw(c: char) | Escaped(c: char)

  datatype Item =
    | Char(c: char)
    | Break
    | Joint(crlf: bool)
    | Quoted(q: char, body: seq<Glyph>)
    | Long(q: char, body: seq<Glyph>)
    | Comment(words: string)
    | Block(words: string)

  function GlyphText(body: seq<Glyph>): string {
    if body == [] then ""
    else (match body[0] case Raw(c) => [c] case Escaped(c) => ['\\', c]) + GlyphText(body[1..])
  }

  function Written(i: Item): string {
    match i
    case Char(c) => [c]
    case Break => "\n"
    case Joint(crlf) => if crlf then "\\\r\n" else "\\\n"
    case Quoted(q, body) => [q] + GlyphText(body) + [q]
    case Long(q, body) => [q, q, q] + GlyphText(body) + [q, q, q]
    case Comment(words) => "#" + words
    case Block(words) => "/*" + words + "*/"
  }

  function Text(items: seq<Item>): string {
    if items == [] then "" else Text(items[..|items| - 1]) + Written(items[|items| - 1])
  }

  /** Where item k begins. */
  function Off(items: seq<Item>, k: nat): nat
    requires k <= |items|
  {
    |Text(items[..k])|
  }

  // ---- Items that stand for themselves ----

  predicate IsQuote(q: char) { q == '"' || q == '\'' }

  /** No newline in the string, at or behind p, is followed by a definition line. */
  predicate NoAnchors(src: string, p: nat, n: nat) { forall i | p <= i < p + n && i < |src| && src[i] == '\n' :: !AnchorAt(src, i + 1) }

  /** A glyph of a long string does not begin its end. */
  predicate Inside(q: char, body: seq<Glyph>, j: nat)
    requires j < |body|
  {
    body[j] == Raw(q) ==> !([q, q] <= GlyphText(body[j + 1..]) + [q, q, q])
  }

  /** Item k is read as what it is. */
  predicate Fine(src: string, items: seq<Item>, k: nat)
    requires k < |items|
  {
    match items[k]
    case Char(c) => c !in {'\n', '"', '\'', '#', '\\'} && (c == '/' ==> !At(src, Off(items, k) + 1, '*'))
    case Break => true
    case Joint(_) => true
    case Quoted(q, body) =>
      && IsQuote(q) && Raw(q) !in body && Raw('\\') !in body && (body == [] ==> !At(src, Off(items, k) + 2, q))
      && NoAnchors(src, Off(items, k), |GlyphText(body)| + 1)
    case Long(q, body) => IsQuote(q) && Raw('\\') !in body && forall j | 0 <= j < |body| :: Inside(q, body, j)
    case Comment(words) => '\n' !in words && (k + 1 == |items| || items[k + 1].Break?)
    case Block(words) => forall j | 0 <= j < |words| :: !(words[j] == '*' && (words + "*/")[j + 1] == '/')
  }

  predicate WellFormed(items: seq<Item>) { forall k | 0 <= k < |items| :: Fine(Text(items), items, k) }

  // ---- Positions ----

  lemma {:induction false} PrefixText(items: seq<Item>, k: nat)
    requires k <= |items|
    ensures Off(items, k) <= |Text(items)| && Text(items)[..Off(items, k)] == Text(items[..k])
    decreases |items|
  {
    hide Written;
    if k == |items| {
      assert items[..k] == items;
    } else {
      var n := |items| - 1;
      PrefixText(items[..n], k);
      assert items[..n][..k] == items[..k];
    }
  }

  /** Item k stands at its place. */
  lemma ItemStands(items: seq<Item>, k: nat)
    requires k < |items|
    ensures Off(items, k + 1) == Off(items, k) + |Written(items[k])| <= |Text(items)|
    ensures Text(items)[Off(items, k)..Off(items, k + 1)] == Written(items[k])
  {
    hide Written;
    PrefixText(items, k + 1);
    PrefixText(items, k);
    assert items[..k + 1][..k] == items[..k];
    assert Text(items[..k + 1]) == Text(items[..k]) + Written(items[k]);
    assert Text(items)[Off(items, k)..Off(items, k + 1)] == Text(items)[..Off(items, k + 1)][Off(items, k)..];
  }

  lemma LastOff(items: seq<Item>)
    ensures Off(items, |items|) == |Text(items)| && Off(items, 0) == 0
  {
    assert items[..|items|] == items && items[..0] == [];
  }

  lemma {:induction false} WrittenSome(i: Item)
    ensures |Written(i)| >= 1
  {
    hide GlyphText;
  }

  // ---- Balance ----

  /** From item j up to item k there are not more of one than of the other. */
  predicate NotMore(items: seq<Item>, j: nat, k: nat, one: char, other: char)
    requires j <= k <= |items|
  {
    multiset(items[j..k])[Char(one)] <= multiset(items[j..k])[Char(other)]
  }

  /** Since item a, every opening bracket up to item k has been closed; closings without an opening do not count. */
  predicate Closed(items: seq<Item>, a: nat, k: nat, opening: char, closing: char)
    requires a <= k <= |items|
  {
    forall j | a <= j <= k :: NotMore(items, j, k, opening, closing)
  }

  predicate Balanced(items: seq<Item>, a: nat, k: nat)
    requires a <= k <= |items|
  {
    Closed(items, a, k, '(', ')') && Closed(items, a, k, '[', ']') && Closed(items, a, k, '{', '}')
  }

  // ---- Lines ----

  /** A logical line from item a up to item k, by its text. */
  function LineOf(items: seq<Item>, a: nat, k: nat): (nodes: seq<Node>)
    requires a <= k <= |items|
  {
    PrefixText(items, a);
    PrefixText(items, k);
    OffGrows(items, a, k);
    NodesOf(1 + Breaks(Text(items)[..Off(items, a)]), Text(items)[Off(items, a)..Off(items, k)])
  }

  /**
   * The lines from item k on, of which the first began at item a. A newline ends it if all brackets are
   * closed; if not, a definition on the next line ends it as well, and then it is lost.
   */
  function LinesFrom(items: seq<Item>, a: nat, k: nat): seq<Node>
    requires a <= k <= |items|
    decreases |items| - k
  {
    if k == |items| then if Balanced(items, a, k) then LineOf(items, a, k) else []
    else if items[k].Break? && Balanced(items, a, k) then LineOf(items, a, k) + LinesFrom(items, k + 1, k + 1)
    else if items[k].Break? && AnchorAt(Text(items), Off(items, k) + 1) then LinesFrom(items, k + 1, k + 1)
    else LinesFrom(items, a, k + 1)
  }

  lemma {:induction false} OffGrows(items: seq<Item>, a: nat, k: nat)
    requires a <= k <= |items|
    ensures Off(items, a) <= Off(items, k)
    decreases k - a
  {
    hide Text, Written;
    if a < k {
      ItemStands(items, k - 1);
      OffGrows(items, a, k - 1);
    }
  }

  // ---- Depths ----

  /** The counter of one kind of bracket. */
  function Depth(items: seq<Item>, a: nat, k: nat, opening: char, closing: char): nat
    requires a <= k <= |items|
    decreases k - a
  {
    if a == k then 0
    else
      var d := Depth(items, a, k - 1, opening, closing);
      if items[k - 1] == Char(opening) then d + 1 else if items[k - 1] == Char(closing) then Less1(d) else d
  }

  function Excess(items: seq<Item>, j: nat, k: nat, opening: char, closing: char): int
    requires j <= k <= |items|
  {
    var o: int := multiset(items[j..k])[Char(opening)];
    o - multiset(items[j..k])[Char(closing)]
  }

  lemma ExcessStep(items: seq<Item>, j: nat, k: nat, opening: char, closing: char)
    requires j < k <= |items| && opening != closing
    ensures Excess(items, j, k, opening, closing) == Excess(items, j, k - 1, opening, closing)
            + (if items[k - 1] == Char(opening) then 1 else if items[k - 1] == Char(closing) then -1 else 0)
  {
    assert items[j..k] == items[j..k - 1] + [items[k - 1]];
  }

  /** The counter is the largest excess of a stretch that ends here. */
  lemma {:induction false} DepthIsExcess(items: seq<Item>, a: nat, k: nat, opening: char, closing: char) returns (at: nat)
    requires a <= k <= |items| && opening != closing
    ensures forall j | a <= j <= k :: Excess(items, j, k, opening, closing) <= Depth(items, a, k, opening, closing)
    ensures a <= at <= k && Excess(items, at, k, opening, closing) == Depth(items, a, k, opening, closing)
    decreases k - a
  {
    if a == k {
      at := k;
      assert items[k..k] == [];
    } else {
      var b := DepthIsExcess(items, a, k - 1, opening, closing);
      assert items[k..k] == [];
      forall j | a <= j < k ensures Excess(items, j, k, opening, closing) <= Depth(items, a, k, opening, closing) {
        ExcessStep(items, j, k, opening, closing);
      }
      ExcessStep(items, b, k, opening, closing);
      at := if Depth(items, a, k, opening, closing) == 0 && Excess(items, b, k, opening, closing) < 0 then k else b;
    }
  }

  lemma DepthZero(items: seq<Item>, a: nat, k: nat, opening: char, closing: char)
    requires a <= k <= |items| && opening != closing
    ensures Depth(items, a, k, opening, closing) == 0 <==> Closed(items, a, k, opening, closing)
  {
    hide Depth;
    var at := DepthIsExcess(items, a, k, opening, closing);
    if Closed(items, a, k, opening, closing) { assert NotMore(items, at, k, opening, closing); }
    if Depth(items, a, k, opening, closing) == 0 {
      forall j | a <= j <= k ensures NotMore(items, j, k, opening, closing) {
        assert Excess(items, j, k, opening, closing) <= 0;
      }
    }
  }

  // ---- States of the scan between items ----

  function LexAt(items: seq<Item>, a: nat, k: nat): Lex
    requires a <= k <= |items|
  {
    Clean.(paren := Depth(items, a, k, '(', ')'), bracket := Depth(items, a, k, '[', ']'), brace := Depth(items, a, k, '{', '}'),
           comment := k > a && items[k - 1].Comment?)
  }

  /** In front of item k, in a line that began at item a. */
  function StateAt(items: seq<Item>, a: nat, k: nat, nodes: seq<Node>): (s: Scan)
    requires a <= k <= |items|
    ensures s.nodeStart <= s.pos
  {
    OffGrows(items, a, k);
    PrefixText(items, a);
    PrefixText(items, k);
    Scan(Off(items, k), LexAt(items, a, k), Off(items, a), 1 + Breaks(Text(items)[..Off(items, k)]), 1 + Breaks(Text(items)[..Off(items, a)]), None, nodes)
  }

  lemma OpenIsUnbalanced(items: seq<Item>, a: nat, k: nat)
    requires a <= k <= |items|
    ensures Balanced(items, a, k) <==> !Brackets(LexAt(items, a, k))
  {
    hide Depth, Closed;
    DepthZero(items, a, k, '(', ')');
    DepthZero(items, a, k, '[', ']');
    DepthZero(items, a, k, '{', '}');
  }

  // ---- Steps inside items ----

  /** The scan moves on by n characters; only its line may change besides. */
  predicate Moved(s: Scan, t: Scan, p: nat, lex: Lex) { t == s.(pos := p, lex := lex, line := t.line) }

  lemma UptoStep(src: string, e: nat, s: Scan)
    requires e <= |src| && s.pos < e && s.nodeStart <= s.pos
    ensures Upto(src, e, s) == Upto(src, e, Step(src, |src|, s))
  {
    hide Step;
  }

  lemma UptoHere(src: string, s: Scan)
    requires s.pos <= |src| && s.nodeStart <= s.pos
    ensures Upto(src, s.pos, s) == s
  {}

  /** In an open string. */
  predicate InQuote(a: Lex, q: char, triple: bool) {
    IsQuote(q) && a.quote == q && a.triple == triple && !a.escaped && !a.comment && !a.block
  }

  lemma RawStep(src: string, s: Scan, q: char, triple: bool)
    requires s.pos < |src| && s.nodeStart <= s.pos && InQuote(s.lex, q, triple)
    requires src[s.pos] != '\\' && (src[s.pos] == q ==> triple && !(At(src, s.pos + 1, q) && At(src, s.pos + 2, q)))
    requires src[s.pos] == '\n' && !triple ==> !AnchorAt(src, s.pos + 1)
    ensures Moved(s, Step(src, |src|, s), s.pos + 1, s.lex)
  {
    hide AnchorAt, NodesOf;
  }

  lemma EscapedStep(src: string, s: Scan, q: char, triple: bool)
    requires s.pos + 1 < |src| && s.nodeStart <= s.pos && InQuote(s.lex, q, triple)
    requires src[s.pos] == '\\' && (src[s.pos + 1] == '\n' && !triple ==> !AnchorAt(src, s.pos + 2))
    ensures var t := Step(src, |src|, s); t.pos == s.pos + 1 && Moved(s, Step(src, |src|, t), s.pos + 2, s.lex)
  {
    hide AnchorAt, NodesOf;
    var t := Step(src, |src|, s);
    assert t == s.(pos := s.pos + 1, lex := s.lex.(escaped := true));
    assert s.lex.(escaped := true).(escaped := false) == s.lex;
  }

  /** The text of a string's body stands at p, with nothing in it that ends the string. */
  predicate BodyAt(src: string, p: nat, q: char, triple: bool, body: seq<Glyph>)
  {
    && p + |GlyphText(body)| <= |src| && src[p..p + |GlyphText(body)|] == GlyphText(body) && Raw('\\') !in body
    && (if triple then p + |GlyphText(body)| + 3 <= |src| && src[p + |GlyphText(body)|..p + |GlyphText(body)| + 3] == [q, q, q]
                       && forall j | 0 <= j < |body| :: Inside(q, body, j)
        else Raw(q) !in body && NoAnchors(src, p, |GlyphText(body)|))
  }

  lemma BodyTail(src: string, p: nat, q: char, triple: bool, body: seq<Glyph>)
    requires BodyAt(src, p, q, triple, body) && body != []
    ensures var n := |GlyphText([body[0]])|; |GlyphText(body)| == n + |GlyphText(body[1..])| && BodyAt(src, p + n, q, triple, body[1..])
  {
    hide Inside, NoAnchors;
    var rest := body[1..];
    var n := |GlyphText([body[0]])|;
    GlyphSplit(body);
    hide GlyphText;
    SliceTail(src, p, GlyphText(body), n, GlyphText(rest));
    if triple {
      forall j | 0 <= j < |rest| ensures Inside(q, rest, j) { InsideTail(q, body, j); }
    } else {
      AnchorsTail(src, p, n, |GlyphText(body)|);
    }
  }

  lemma GlyphSplit(body: seq<Glyph>)
    requires body != []
    ensures GlyphText(body) == GlyphText([body[0]]) + GlyphText(body[1..])
  {
    assert [body[0]][1..] == [];
  }

  lemma SliceTail(src: string, p: nat, t: string, n: nat, rest: string)
    requires p + |t| <= |src| && src[p..p + |t|] == t && n <= |t| && t[n..] == rest
    ensures p + n + |rest| == p + |t| && src[p + n..p + n + |rest|] == rest
  {
    assert src[p + n..p + |t|] == src[p..p + |t|][n..];
  }

  lemma InsideTail(q: char, body: seq<Glyph>, j: nat)
    requires j + 1 < |body| && Inside(q, body, j + 1)
    ensures Inside(q, body[1..], j)
  {
    assert body[1..][j + 1..] == body[j + 2..];
  }

  lemma AnchorsTail(src: string, p: nat, n: nat, k: nat)
    requires NoAnchors(src, p, k) && n <= k
    ensures NoAnchors(src, p + n, k - n)
  {
    hide AnchorAt;
  }

  lemma FirstGlyph(src: string, p: nat, q: char, triple: bool, body: seq<Glyph>)
    requires BodyAt(src, p, q, triple, body) && body != [] && IsQuote(q)
    ensures body[0].Raw? ==>
              && p < |src| && src[p] == body[0].c && src[p] != '\\' && |GlyphText([body[0]])| == 1
              && (src[p] == q ==> triple && !(At(src, p + 1, q) && At(src, p + 2, q)))
              && (src[p] == '\n' && !triple ==> !AnchorAt(src, p + 1))
    ensures body[0].Escaped? ==>
              && p + 1 < |src| && src[p] == '\\' && |GlyphText([body[0]])| == 2
              && (src[p + 1] == '\n' && !triple ==> !AnchorAt(src, p + 2))
  {
    hide AnchorAt;
    var t := GlyphText(body);
    assert body[0] in body;
    assert src[p..p + |t|][0] == src[p];
    if body[0].Escaped? { assert src[p..p + |t|][1] == src[p + 1]; }
    if body[0] == Raw(q) && triple { CloseNeedsThree(src, p, q, body); }
  }

  lemma CloseNeedsThree(src: string, p: nat, q: char, body: seq<Glyph>)
    requires BodyAt(src, p, q, true, body) && body != [] && body[0] == Raw(q)
    ensures !(At(src, p + 1, q) && At(src, p + 2, q))
  {
    assert Inside(q, body, 0);
    var rest := GlyphText(body[1..]);
    assert GlyphText(body) == [q] + rest;
    hide GlyphText;
    var end := p + 1 + |rest|;
    assert src[p + 1..end] == rest by { assert src[p + 1..end] == src[p..end][1..]; }
    assert src[p + 1..end + 3] == rest + [q, q, q] by { assert src[p + 1..end + 3] == src[p + 1..end] + src[end..end + 3]; }
    var w := src[p + 1..end + 3];
    assert w[..2] == [src[p + 1], src[p + 2]];
  }

  lemma {:induction false} BodyRun(src: string, s: Scan, q: char, triple: bool, body: seq<Glyph>)
    requires s.pos <= |src| && s.nodeStart <= s.pos && InQuote(s.lex, q, triple) && BodyAt(src, s.pos, q, triple, body)
    ensures var e := s.pos + |GlyphText(body)|; e <= |src| && Moved(s, Upto(src, e, s), e, s.lex)
    decreases |body|
  {
    hide Step, Upto, GlyphText, InQuote, BodyAt;
    if body == [] {
      NoGlyphs();
      UptoHere(src, s);
    } else {
      BodyFits(src, s.pos, q, triple, body);
      BodyTail(src, s.pos, q, triple, body);
      FirstIsQuote(s.lex, q, triple);
      FirstGlyph(src, s.pos, q, triple, body);
      var e := s.pos + |GlyphText(body)|;
      var t := Step(src, |src|, s);
      UptoStep(src, e, s);
      if body[0].Raw? {
        RawStep(src, s, q, triple);
        BodyRun(src, t, q, triple, body[1..]);
      } else {
        EscapedStep(src, s, q, triple);
        UptoStep(src, e, t);
        BodyRun(src, Step(src, |src|, t), q, triple, body[1..]);
      }
    }
  }

  lemma NoGlyphs()
    ensures GlyphText([]) == ""
  {}

  lemma FirstIsQuote(a: Lex, q: char, triple: bool)
    requires InQuote(a, q, triple)
    ensures IsQuote(q)
  {}

  lemma BodyFits(src: string, p: nat, q: char, triple: bool, body: seq<Glyph>)
    requires BodyAt(src, p, q, triple, body)
    ensures p + |GlyphText(body)| <= |src|
  {}

  /** Outside of strings and comments. */
  predicate InCode(a: Lex) { a.quote == NO_QUOTE && !a.triple && !a.escaped && !a.comment && !a.block }

  lemma OpenStep(src: string, s: Scan, q: char, triple: bool)
    requires s.pos < |src| && s.nodeStart <= s.pos && InCode(s.lex) && IsQuote(q) && src[s.pos] == q
    requires triple <==> At(src, s.pos + 1, q) && At(src, s.pos + 2, q)
    ensures Moved(s, Step(src, |src|, s), s.pos + (if triple then 3 else 1), s.lex.(quote := q, triple := triple))
  {
    hide AnchorAt, NodesOf;
  }

  lemma CloseStep(src: string, s: Scan, q: char, triple: bool)
    requires s.pos < |src| && s.nodeStart <= s.pos && InQuote(s.lex, q, triple) && src[s.pos] == q
    requires triple ==> At(src, s.pos + 1, q) && At(src, s.pos + 2, q)
    ensures Moved(s, Step(src, |src|, s), s.pos + (if triple then 3 else 1), s.lex.(quote := NO_QUOTE, triple := false))
  {
    hide AnchorAt, NodesOf;
  }

  // ---- Comments ----

  lemma HashStep(src: string, s: Scan)
    requires s.pos < |src| && s.nodeStart <= s.pos && InCode(s.lex) && src[s.pos] == '#'
    ensures Moved(s, Step(src, |src|, s), s.pos + 1, s.lex.(comment := true))
  {
    hide AnchorAt, NodesOf;
  }

  lemma WordStep(src: string, s: Scan)
    requires s.pos < |src| && s.nodeStart <= s.pos && s.lex.comment && !s.lex.block && src[s.pos] != '\n'
    ensures Moved(s, Step(src, |src|, s), s.pos + 1, s.lex)
  {
    hide AnchorAt, NodesOf;
  }

  lemma {:induction false} CommentRun(src: string, s: Scan, n: nat)
    requires s.pos + n <= |src| && s.nodeStart <= s.pos && s.lex.comment && !s.lex.block && '\n' !in src[s.pos..s.pos + n]
    ensures Moved(s, Upto(src, s.pos + n, s), s.pos + n, s.lex)
    decreases n
  {
    hide Step, Upto;
    if n == 0 {
      UptoHere(src, s);
    } else {
      assert src[s.pos..s.pos + n][0] == src[s.pos];
      WordStep(src, s);
      UptoStep(src, s.pos + n, s);
      assert src[s.pos + 1..s.pos + n] == src[s.pos..s.pos + n][1..];
      CommentRun(src, Step(src, |src|, s), n - 1);
    }
  }

  lemma SlashStep(src: string, s: Scan)
    requires s.pos < |src| && s.nodeStart <= s.pos && InCode(s.lex) && src[s.pos] == '/' && At(src, s.pos + 1, '*')
    ensures Moved(s, Step(src, |src|, s), s.pos + 2, s.lex.(block := true))
  {
    hide AnchorAt, NodesOf;
  }

  /** As Moved, and a mark may have been set. */
  predicate MovedOn(s: Scan, t: Scan, p: nat, lex: Lex) { t == s.(pos := p, lex := lex, line := t.line, rec := t.rec) }

  lemma BlockStep(src: string, s: Scan)
    requires s.pos < |src| && s.nodeStart <= s.pos && s.lex.block && !(src[s.pos] == '*' && At(src, s.pos + 1, '/'))
    ensures MovedOn(s, Step(src, |src|, s), s.pos + 1, s.lex)
  {
    hide AnchorAt, NodesOf;
  }

  lemma {:induction false} BlockRun(src: string, s: Scan, n: nat)
    requires s.pos + n <= |src| && s.nodeStart <= s.pos && s.lex.block
    requires forall i | s.pos <= i < s.pos + n :: !(src[i] == '*' && At(src, i + 1, '/'))
    ensures MovedOn(s, Upto(src, s.pos + n, s), s.pos + n, s.lex)
    decreases n
  {
    hide Step, Upto;
    if n == 0 {
      UptoHere(src, s);
    } else {
      BlockStep(src, s);
      UptoStep(src, s.pos + n, s);
      BlockRun(src, Step(src, |src|, s), n - 1);
    }
  }

  lemma StarStep(src: string, s: Scan)
    requires s.pos < |src| && s.nodeStart <= s.pos && s.lex.block && src[s.pos] == '*' && At(src, s.pos + 1, '/')
    ensures Moved(s.(rec := None), Step(src, |src|, s), s.pos + 2, s.lex.(block := false))
  {
    hide AnchorAt, NodesOf;
  }

  // ---- Whole items ----

  lemma UptoThen(src: string, d: nat, e: nat, s: Scan, t: Scan)
    requires d <= e <= |src| && s.nodeStart <= s.pos && Upto(src, d, s) == t
    ensures t.nodeStart <= t.pos && Upto(src, e, s) == Upto(src, e, t)
  {
    UptoTwice(src, d, e, s);
  }

  predicate ItemAt(src: string, p: nat, w: string) { p + |w| <= |src| && src[p..p + |w|] == w }

  lemma AtChar(src: string, p: nat, w: string, j: nat)
    requires ItemAt(src, p, w) && j < |w|
    ensures At(src, p + j, w[j])
  {
    assert src[p..p + |w|][j] == src[p + j];
  }

  lemma AtPart(src: string, p: nat, a: string, b: string, c: string)
    requires ItemAt(src, p, a + b + c)
    ensures ItemAt(src, p, a) && ItemAt(src, p + |a|, b) && ItemAt(src, p + |a| + |b|, c)
  {
    var w := src[p..p + |a + b + c|];
    assert w == src[p..p + |a|] + src[p + |a|..p + |a| + |b|] + src[p + |a| + |b|..p + |a + b + c|];
    assert w[..|a|] == a && w[|a|..|a| + |b|] == b && w[|a| + |b|..] == c;
  }

  /** The scan goes from s to t. */
  predicate Reach(src: string, s: Scan, t: Scan) { s.pos <= t.pos <= |src| && s.nodeStart <= s.pos && t.nodeStart <= t.pos && Upto(src, t.pos, s) == t }

  lemma ReachStep(src: string, s: Scan, lex: Lex, p: nat)
    requires s.pos < |src| && s.nodeStart <= s.pos && p <= |src| && MovedOn(s, Step(src, |src|, s), p, lex)
    ensures Reach(src, s, Step(src, |src|, s))
  {
    hide Step;
    UptoStep(src, p, s);
    UptoHere(src, Step(src, |src|, s));
  }

  lemma ReachOn(src: string, s: Scan, t: Scan, u: Scan)
    requires Reach(src, s, t) && Reach(src, t, u)
    ensures Reach(src, s, u)
  {
    UptoThen(src, t.pos, u.pos, s, t);
    hide Upto;
  }

  lemma MarksAt(src: string, p: nat, q: char, triple: bool)
    requires ItemAt(src, p, if triple then [q, q, q] else [q])
    ensures At(src, p, q) && (triple ==> At(src, p + 1, q) && At(src, p + 2, q)) && p + (if triple then 3 else 1) <= |src|
  {
    var marks := if triple then [q, q, q] else [q];
    AtChar(src, p, marks, 0);
    if triple {
      AtChar(src, p, marks, 1);
      AtChar(src, p, marks, 2);
    }
  }

  lemma QuotedRun(src: string, s: Scan, q: char, triple: bool, body: seq<Glyph>) returns (v: Scan)
    requires s.pos <= |src| && s.nodeStart <= s.pos && InCode(s.lex) && IsQuote(q)
    requires var marks := if triple then [q, q, q] else [q]; ItemAt(src, s.pos, marks + GlyphText(body) + marks)
    requires Raw('\\') !in body
    requires if triple then forall j | 0 <= j < |body| :: Inside(q, body, j)
             else Raw(q) !in body && NoAnchors(src, s.pos, |GlyphText(body)| + 1) && (body == [] ==> !At(src, s.pos + 2, q))
    ensures Reach(src, s, v) && Moved(s, v, s.pos + 2 * (if triple then 3 else 1) + |GlyphText(body)|, s.lex)
  {
    hide Step, Upto, Inside, NoAnchors, GlyphText, ItemAt, At, BodyAt, Reach;
    var marks := if triple then [q, q, q] else [q];
    AtPart(src, s.pos, marks, GlyphText(body), marks);
    MarksAt(src, s.pos, q, triple);
    var mid := s.pos + |marks| + |GlyphText(body)|;
    MarksAt(src, mid, q, triple);
    if !triple { FirstOfBody(src, s.pos + 1, q, body); }
    AtIs(src, s.pos, q);
    OpenStep(src, s, q, triple);
    var t := Step(src, |src|, s);
    ReachStep(src, s, t.lex, t.pos);
    BodyIsAt(src, s.pos, q, triple, body);
    var u := Upto(src, mid, t);
    BodyRun(src, t, q, triple, body);
    ReachUpto(src, t, mid);
    ReachOn(src, s, t, u);
    AtIs(src, mid, q);
    CloseStep(src, u, q, triple);
    v := Step(src, |src|, u);
    ReachStep(src, u, v.lex, v.pos);
    ReachOn(src, s, u, v);
  }

  lemma AtIs(src: string, p: nat, c: char)
    requires At(src, p, c)
    ensures p < |src| && src[p] == c
  {}

  lemma ReachUpto(src: string, t: Scan, e: nat)
    requires t.pos <= e <= |src| && t.nodeStart <= t.pos && Upto(src, e, t).pos == e
    ensures Reach(src, t, Upto(src, e, t))
  {
    hide Upto;
  }

  lemma BodyIsAt(src: string, p: nat, q: char, triple: bool, body: seq<Glyph>)
    requires Raw('\\') !in body
    requires var marks := if triple then [q, q, q] else [q]; ItemAt(src, p, marks + GlyphText(body) + marks)
    requires if triple then forall j | 0 <= j < |body| :: Inside(q, body, j) else Raw(q) !in body && NoAnchors(src, p, |GlyphText(body)| + 1)
    ensures BodyAt(src, p + (if triple then 3 else 1), q, triple, body)
  {
    hide Inside, NoAnchors, GlyphText;
    var marks := if triple then [q, q, q] else [q];
    AtPart(src, p, marks, GlyphText(body), marks);
    if !triple { AnchorsTail(src, p, 1, |GlyphText(body)| + 1); }
  }

  /** A string does not begin like a long one. */
  lemma FirstOfBody(src: string, p: nat, q: char, body: seq<Glyph>)
    requires ItemAt(src, p, GlyphText(body)) && IsQuote(q) && Raw(q) !in body && (body == [] ==> !At(src, p + 1, q))
    ensures !(At(src, p, q) && At(src, p + 1, q))
  {
    if body != [] {
      AtChar(src, p, GlyphText(body), 0);
      assert body[0] in body;
    }
  }

  lemma CommentItem(src: string, s: Scan, words: string) returns (u: Scan)
    requires s.pos <= |src| && s.nodeStart <= s.pos && InCode(s.lex) && ItemAt(src, s.pos, "#" + words) && '\n' !in words
    ensures Reach(src, s, u) && Moved(s, u, s.pos + 1 + |words|, s.lex.(comment := true))
  {
    hide Step, Upto, ItemAt, At, Reach;
    assert "#" + words == "#" + words + "";
    AtPart(src, s.pos, "#", words, "");
    AtChar(src, s.pos, "#", 0);
    AtIs(src, s.pos, '#');
    HashStep(src, s);
    var t := Step(src, |src|, s);
    ReachStep(src, s, t.lex, t.pos);
    ItemIs(src, t.pos, words);
    CommentRun(src, t, |words|);
    u := Upto(src, t.pos + |words|, t);
    ReachUpto(src, t, t.pos + |words|);
    ReachOn(src, s, t, u);
  }

  lemma ItemIs(src: string, p: nat, w: string)
    requires ItemAt(src, p, w)
    ensures p + |w| <= |src| && src[p..p + |w|] == w
  {}

  lemma BlockItem(src: string, s: Scan, words: string) returns (v: Scan)
    requires s.pos <= |src| && s.nodeStart <= s.pos && InCode(s.lex) && s.rec == None && ItemAt(src, s.pos, "/*" + words + "*/")
    requires forall j | 0 <= j < |words| :: !(words[j] == '*' && (words + "*/")[j + 1] == '/')
    ensures Reach(src, s, v) && Moved(s, v, s.pos + 4 + |words|, s.lex)
  {
    hide Step, Upto, ItemAt, At, Reach;
    AtPart(src, s.pos, "/*", words, "*/");
    AtChar(src, s.pos, "/*", 0);
    AtChar(src, s.pos, "/*", 1);
    AtIs(src, s.pos, '/');
    SlashStep(src, s);
    AtIs(src, s.pos + 1, '*');
    var t := Step(src, |src|, s);
    ReachStep(src, s, t.lex, t.pos);
    var mid := t.pos + |words|;
    WordsInside(src, s.pos, words);
    ItemIs(src, t.pos, words);
    BlockRun(src, t, |words|);
    var u := Upto(src, mid, t);
    ReachUpto(src, t, mid);
    ReachOn(src, s, t, u);
    AtChar(src, mid, "*/", 0);
    AtChar(src, mid, "*/", 1);
    AtIs(src, mid, '*');
    AtIs(src, mid + 1, '/');
    StarStep(src, u);
    v := Step(src, |src|, u);
    ReachStep(src, u, v.lex, v.pos);
    ReachOn(src, s, u, v);
  }

  lemma WordsInside(src: string, p: nat, words: string)
    requires ItemAt(src, p, "/*" + words + "*/")
    requires forall j | 0 <= j < |words| :: !(words[j] == '*' && (words + "*/")[j + 1] == '/')
    ensures forall i | p + 2 <= i < p + 2 + |words| :: !(src[i] == '*' && At(src, i + 1, '/'))
  {
    hide ItemAt;
    assert "/*" + words + "*/" == "/*" + (words + "*/") + "";
    AtPart(src, p, "/*", words + "*/", "");
    forall i | p + 2 <= i < p + 2 + |words| ensures !(src[i] == '*' && At(src, i + 1, '/')) {
      AtChar(src, p + 2, words + "*/", i - p - 2);
      AtChar(src, p + 2, words + "*/", i - p - 2 + 1);
      assert (words + "*/")[i - p - 2] == words[i - p - 2];
    }
  }

  lemma CharItem(src: string, s: Scan, c: char) returns (t: Scan)
    requires s.pos < |src| && s.nodeStart <= s.pos && InCode(s.lex) && src[s.pos] == c
    requires c !in {'\n', '"', '\'', '#', '\\'} && (c == '/' ==> !At(src, s.pos + 1, '*'))
    ensures Reach(src, s, t) && Moved(s, t, s.pos + 1, FeedBracket(c, s.lex))
  {
    CharStep(src, s, c);
    hide Step, FeedBracket, Reach;
    t := Step(src, |src|, s);
    ReachStep(src, s, t.lex, t.pos);
  }

  lemma CharStep(src: string, s: Scan, c: char)
    requires s.pos < |src| && s.nodeStart <= s.pos && InCode(s.lex) && src[s.pos] == c
    requires c !in {'\n', '"', '\'', '#', '\\'} && (c == '/' ==> !At(src, s.pos + 1, '*'))
    ensures Moved(s, Step(src, |src|, s), s.pos + 1, FeedBracket(c, s.lex))
  {
    hide AnchorAt, NodesOf, FeedBracket;
  }

  lemma JointItem(src: string, s: Scan, crlf: bool) returns (t: Scan)
    requires s.pos <= |src| && s.nodeStart <= s.pos && InCode(s.lex) && ItemAt(src, s.pos, if crlf then "\\\r\n" else "\\\n")
    ensures Reach(src, s, t) && Moved(s, t, s.pos + (if crlf then 3 else 2), s.lex)
  {
    hide Step, Upto, ItemAt, At, Reach;
    var w := if crlf then "\\\r\n" else "\\\n";
    AtChar(src, s.pos, w, 0);
    AtChar(src, s.pos, w, 1);
    AtChar(src, s.pos, w, |w| - 1);
    AtIs(src, s.pos, '\\');
    AtIs(src, s.pos + |w| - 1, '\n');
    JointStep(src, s, crlf);
    t := Step(src, |src|, s);
    ReachStep(src, s, t.lex, t.pos);
  }

  lemma JointStep(src: string, s: Scan, crlf: bool)
    requires s.pos < |src| && s.nodeStart <= s.pos && InCode(s.lex) && src[s.pos] == '\\'
    requires if crlf then At(src, s.pos + 1, '\r') && At(src, s.pos + 2, '\n') else At(src, s.pos + 1, '\n')
    ensures Moved(s, Step(src, |src|, s), s.pos + (if crlf then 3 else 2), s.lex)
  {
    hide AnchorAt, NodesOf;
  }

  // ---- From item to item ----

  lemma CodeHere(items: seq<Item>, a: nat, k: nat)
    requires WellFormed(items) && a <= k < |items| && !items[k].Break?
    ensures InCode(LexAt(items, a, k))
  {
    hide Depth, Text, Written;
    if k > a { assert Fine(Text(items), items, k - 1); }
  }

  lemma LexMoves(items: seq<Item>, a: nat, k: nat)
    requires a <= k < |items| && InCode(LexAt(items, a, k))
    ensures LexAt(items, a, k + 1) == match items[k]
                                      case Char(c) => FeedBracket(c, LexAt(items, a, k))
                                      case Comment(_) => LexAt(items, a, k).(comment := true)
                                      case _ => LexAt(items, a, k)
  {}

  /** Having read item k, the scan is in front of the next. */
  lemma Arrives(items: seq<Item>, a: nat, k: nat, nodes: seq<Node>, t: Scan)
    requires a <= k < |items| && Reach(Text(items), StateAt(items, a, k, nodes), t)
    requires Moved(StateAt(items, a, k, nodes), t, Off(items, k + 1), LexAt(items, a, k + 1))
    ensures t == StateAt(items, a, k + 1, nodes)
  {
    hide Text, Upto, LexAt, Breaks;
    var src := Text(items);
    var s := StateAt(items, a, k, nodes);
    PrefixText(items, k);
    PrefixText(items, k + 1);
    UptoCounts(src, t.pos, s);
    BreaksSlice(src, 0, s.pos, t.pos);
    assert src[0..s.pos] == src[..s.pos] && src[0..t.pos] == src[..t.pos];
  }

  lemma PlaceOf(items: seq<Item>, k: nat)
    requires k < |items|
    ensures ItemAt(Text(items), Off(items, k), Written(items[k])) && Off(items, k + 1) == Off(items, k) + |Written(items[k])|
  {
    hide Text, Written;
    ItemStands(items, k);
  }

  lemma FineHere(items: seq<Item>, k: nat)
    requires WellFormed(items) && k < |items|
    ensures Fine(Text(items), items, k)
  {}

  lemma {:induction false} ItemRun(items: seq<Item>, a: nat, k: nat, nodes: seq<Node>)
    requires WellFormed(items) && a <= k < |items| && !items[k].Break?
    ensures Reach(Text(items), StateAt(items, a, k, nodes), StateAt(items, a, k + 1, nodes))
  {
    hide Text, Reach, LexAt, WellFormed, InCode, ItemAt, At, Breaks, FeedBracket, Inside, NoAnchors, GlyphText;
    var src, s := Text(items), StateAt(items, a, k, nodes);
    CodeHere(items, a, k);
    LexMoves(items, a, k);
    PlaceOf(items, k);
    FineHere(items, k);
    PrefixText(items, k);
    match items[k] {
      case Char(c) =>
        AtChar(src, s.pos, [c], 0);
        AtIs(src, s.pos, c);
        var t := CharItem(src, s, c);
        Arrives(items, a, k, nodes, t);
      case Joint(crlf) =>
        var t := JointItem(src, s, crlf);
        Arrives(items, a, k, nodes, t);
      case Quoted(q, body) =>
        var t := QuotedRun(src, s, q, false, body);
        Arrives(items, a, k, nodes, t);
      case Long(q, body) =>
        var t := QuotedRun(src, s, q, true, body);
        Arrives(items, a, k, nodes, t);
      case Comment(words) =>
        var t := CommentItem(src, s, words);
        Arrives(items, a, k, nodes, t);
      case Block(words) =>
        var t := BlockItem(src, s, words);
        Arrives(items, a, k, nodes, t);
    }
  }

  // ---- Newlines ----

  predicate Resting(a: Lex) { a.quote == NO_QUOTE && !a.triple && !a.escaped && !a.block }

  lemma NewlineStep(src: string, end: nat, s: Scan)
    requires s.pos <= end <= |src| && s.nodeStart <= s.pos && Resting(s.lex) && (s.pos < end ==> src[s.pos] == '\n')
    ensures var t := Step(src, end, s);
            var next := if s.pos < end then s.pos + 1 else s.pos;
            t == if !Brackets(s.lex) then
                   s.(pos := s.pos + 1, lex := s.lex.(comment := false), nodeStart := s.pos + 1, line := s.line + 1, startLine := s.line + 1,
                      nodes := s.nodes + NodesOf(s.startLine, src[s.nodeStart..s.pos]))
                 else if AnchorAt(src, next) then
                   s.(pos := s.pos + 1, lex := Clean, nodeStart := s.pos + 1, line := s.line + 1, startLine := s.line + 1)
                 else s.(pos := s.pos + 1, lex := s.lex.(comment := false), line := s.line + 1)
  {
    hide AnchorAt, NodesOf;
  }

  lemma LexRests(items: seq<Item>, a: nat, k: nat)
    requires a <= k <= |items|
    ensures Resting(LexAt(items, a, k)) && LexAt(items, k, k) == Clean
    ensures Balanced(items, a, k) ==> LexAt(items, a, k).(comment := false) == Clean
    ensures k < |items| && items[k].Break? ==> LexAt(items, a, k + 1) == LexAt(items, a, k).(comment := false)
  {
    OpenIsUnbalanced(items, a, k);
  }

  lemma BreakRun(items: seq<Item>, a: nat, k: nat, nodes: seq<Node>)
    requires WellFormed(items) && a <= k < |items| && items[k].Break?
    ensures Reach(Text(items), StateAt(items, a, k, nodes),
                  if Balanced(items, a, k) then StateAt(items, k + 1, k + 1, nodes + LineOf(items, a, k))
                  else if AnchorAt(Text(items), Off(items, k) + 1) then StateAt(items, k + 1, k + 1, nodes)
                  else StateAt(items, a, k + 1, nodes))
  {
    hide Text, LexAt, WellFormed, Balanced, At, AnchorAt, NodesOf, Upto, Step, Breaks, Resting;
    var src, s := Text(items), StateAt(items, a, k, nodes);
    PlaceOf(items, k);
    AtChar(src, s.pos, "\n", 0);
    AtIs(src, s.pos, '\n');
    LexRests(items, a, k);
    LexRests(items, k + 1, k + 1);
    OpenIsUnbalanced(items, a, k);
    NewlineStep(src, |src|, s);
    LineGrows(items, k);
    var t := Step(src, |src|, s);
    ReachAny(src, s);
  }

  lemma LineGrows(items: seq<Item>, k: nat)
    requires k < |items| && items[k].Break?
    ensures Off(items, k + 1) == Off(items, k) + 1 <= |Text(items)|
    ensures Breaks(Text(items)[..Off(items, k + 1)]) == Breaks(Text(items)[..Off(items, k)]) + 1
  {
    hide Text;
    PlaceOf(items, k);
    PrefixText(items, k);
    var src, p := Text(items), Off(items, k);
    AtChar(src, p, "\n", 0);
    assert src[..p + 1][..p] == src[..p];
  }

  lemma ReachAny(src: string, s: Scan)
    requires s.pos < |src| && s.nodeStart <= s.pos && Step(src, |src|, s).pos <= |src|
    ensures Reach(src, s, Step(src, |src|, s))
  {
    hide Step;
    var t := Step(src, |src|, s);
    UptoStep(src, t.pos, s);
    UptoHere(src, t);
  }

  // ---- The whole text ----

  lemma LoopOn(src: string, s: Scan, t: Scan)
    requires Reach(src, s, t)
    ensures Loop(src, |src|, s) == Loop(src, |src|, t)
  {
    LoopUpto(src, t.pos, |src|, s);
    hide Upto, Loop;
  }

  lemma LoopEnds(items: seq<Item>, a: nat, nodes: seq<Node>)
    requires a <= |items|
    ensures var t := Loop(Text(items), |Text(items)|, StateAt(items, a, |items|, nodes));
            t.nodes == nodes + LinesFrom(items, a, |items|) && !t.lex.block
  {
    hide Text, LexAt, Balanced, NodesOf, Upto, Step, Breaks;
    var src, s := Text(items), StateAt(items, a, |items|, nodes);
    LastOff(items);
    LexRests(items, a, |items|);
    OpenIsUnbalanced(items, a, |items|);
    NewlineStep(src, |src|, s);
    NotBehind(src);
    hide AnchorAt;
    var t := Step(src, |src|, s);
    assert Loop(src, |src|, t) == t;
  }

  lemma NotBehind(src: string)
    ensures !AnchorAt(src, |src|)
  {}

  lemma {:induction false} LoopFrom(items: seq<Item>, a: nat, k: nat, nodes: seq<Node>)
    requires WellFormed(items) && a <= k <= |items|
    ensures var t := Loop(Text(items), |Text(items)|, StateAt(items, a, k, nodes));
            t.nodes == nodes + LinesFrom(items, a, k) && !t.lex.block
    decreases |items| - k
  {
    hide Text, StateAt, WellFormed, Balanced, AnchorAt, Reach, Loop, LineOf;
    var src, s := Text(items), StateAt(items, a, k, nodes);
    if k == |items| {
      LoopEnds(items, a, nodes);
    } else if items[k].Break? {
      BreakRun(items, a, k, nodes);
      if Balanced(items, a, k) {
        LoopOn(src, s, StateAt(items, k + 1, k + 1, nodes + LineOf(items, a, k)));
        LoopFrom(items, k + 1, k + 1, nodes + LineOf(items, a, k));
        assert nodes + LineOf(items, a, k) + LinesFrom(items, k + 1, k + 1) == nodes + (LineOf(items, a, k) + LinesFrom(items, k + 1, k + 1));
      } else if AnchorAt(src, Off(items, k) + 1) {
        LoopOn(src, s, StateAt(items, k + 1, k + 1, nodes));
        LoopFrom(items, k + 1, k + 1, nodes);
      } else {
        LoopOn(src, s, StateAt(items, a, k + 1, nodes));
        LoopFrom(items, a, k + 1, nodes);
      }
    } else {
      ItemRun(items, a, k, nodes);
      LoopOn(src, s, StateAt(items, a, k + 1, nodes));
      LoopFrom(items, a, k + 1, nodes);
    }
  }

  /** The scanner's lines are those of the items: a newline ends a line when the brackets are balanced. */
  lemma LinesAreFound(items: seq<Item>)
    requires WellFormed(items)
    ensures Lines(Text(items), |Text(items)|, 0, 1) == LinesFrom(items, 0, 0)
  {
    hide Loop, WellFormed, LinesFrom, NoClose;
    LoopFrom(items, 0, 0, []);
    StartsClean(items);
  }

  lemma StartsClean(items: seq<Item>)
    ensures StateAt(items, 0, 0, []) == Init(0, 1)
  {
    LastOff(items);
    hide Text;
    assert Text(items)[..0] == "";
    NoBreaks();
  }
}
