/**
 * Where a fresh build of the chunk cache cuts a text: behind every newline outside of strings and comments
 * that a definition follows, whatever brackets are open there.
 */
module AnchorResults {
  import opened Values
  import opened Topography
  import opened LogicalLines
  import opened CacheSpec

  /** A newline of its own, or behind a backslash, and then a definition. */
  predicate Cuts(items: seq<Item>, k: nat)
    requires k < |items|
  {
    (items[k].Break? || items[k].Joint?) && AnchorAt(Text(items), Off(items, k + 1))
  }

  /** The places of the cuts from item k on. */
  function CutsFrom(items: seq<Item>, k: nat): seq<nat>
    requires k <= |items|
    decreases |items| - k
  {
    if k == |items| then [] else (if Cuts(items, k) then [Off(items, k + 1)] else []) + CutsFrom(items, k + 1)
  }

  lemma Glide(src: string, p: nat, r: Reader)
    requires p < |src|
    ensures var m := Read(src, p, r);
            AnchorStarts(src, p, r) == (if CutsHere(src, p, m.0) then [p + 1] else []) + AnchorStarts(src, p + m.1, m.0)
  {
    hide Read, CutsHere;
  }

  /** From here to there the reader cuts nothing. */
  predicate Glides(src: string, p: nat, r: Reader, q: nat, s: Reader) { p <= q <= |src| && AnchorStarts(src, p, r) == AnchorStarts(src, q, s) }

  lemma GlidesStep(src: string, p: nat, r: Reader, q: nat, s: Reader)
    requires p < |src| && Read(src, p, r) == (s, q - p) && q <= |src| && p <= q && !CutsHere(src, p, s)
    ensures Glides(src, p, r, q, s)
  {
    hide Read, CutsHere;
    Glide(src, p, r);
  }

  lemma GlidesOn(src: string, p: nat, r: Reader, q: nat, s: Reader, x: nat, t: Reader)
    requires Glides(src, p, r, q, s) && Glides(src, q, s, x, t)
    ensures Glides(src, p, r, x, t)
  {
    hide AnchorStarts;
  }

  function InText(q: char, triple: bool): Reader { Reader(false, false, q, triple, false) }

  // ---- Strings ----

  lemma RawGlides(src: string, p: nat, q: char, triple: bool)
    requires p < |src| && IsQuote(q) && src[p] != '\\' && (src[p] == q ==> triple && !(At(src, p + 1, q) && At(src, p + 2, q)))
    requires src[p] == '\n' && !triple ==> !AnchorAt(src, p + 1)
    ensures Glides(src, p, InText(q, triple), p + 1, InText(q, triple))
  {
    hide AnchorAt, AnchorStarts;
    GlidesStep(src, p, InText(q, triple), p + 1, InText(q, triple));
  }

  lemma EscapedGlides(src: string, p: nat, q: char, triple: bool)
    requires p + 1 < |src| && IsQuote(q) && src[p] == '\\' && (src[p + 1] == '\n' && !triple ==> !AnchorAt(src, p + 2))
    ensures Glides(src, p, InText(q, triple), p + 2, InText(q, triple))
  {
    hide AnchorAt, AnchorStarts;
    var r := InText(q, triple);
    GlidesStep(src, p, r, p + 1, r.(escaped := true));
    GlidesStep(src, p + 1, r.(escaped := true), p + 2, r);
    GlidesOn(src, p, r, p + 1, r.(escaped := true), p + 2, r);
  }

  lemma {:induction false} BodyGlides(src: string, p: nat, q: char, triple: bool, body: seq<Glyph>)
    requires BodyAt(src, p, q, triple, body) && IsQuote(q) && p <= |src|
    ensures p + |GlyphText(body)| <= |src| && Glides(src, p, InText(q, triple), p + |GlyphText(body)|, InText(q, triple))
    decreases |body|
  {
    hide GlyphText, BodyAt, AnchorStarts, At, AnchorAt;
    BodyFits(src, p, q, triple, body);
    if body == [] {
      NoGlyphs();
    } else {
      BodyTail(src, p, q, triple, body);
      FirstGlyph(src, p, q, triple, body);
      var r, n := InText(q, triple), |GlyphText([body[0]])|;
      if body[0].Raw? { RawGlides(src, p, q, triple); } else { EscapedGlides(src, p, q, triple); }
      BodyGlides(src, p + n, q, triple, body[1..]);
      GlidesOn(src, p, r, p + n, r, p + |GlyphText(body)|, r);
    }
  }

  lemma MarkGlides(src: string, p: nat, q: char, triple: bool)
    requires p < |src| && IsQuote(q) && src[p] == q && p + (if triple then 3 else 1) <= |src|
    ensures (triple <==> At(src, p + 1, q) && At(src, p + 2, q)) ==> Glides(src, p, NewReader, p + (if triple then 3 else 1), InText(q, triple))
    ensures (triple ==> At(src, p + 1, q) && At(src, p + 2, q)) ==> Glides(src, p, InText(q, triple), p + (if triple then 3 else 1), NewReader)
  {
    hide AnchorAt, AnchorStarts;
    var n := if triple then 3 else 1;
    if triple <==> At(src, p + 1, q) && At(src, p + 2, q) { GlidesStep(src, p, NewReader, p + n, InText(q, triple)); }
    if triple ==> At(src, p + 1, q) && At(src, p + 2, q) { GlidesStep(src, p, InText(q, triple), p + n, NewReader); }
  }

  lemma QuotedGlides(src: string, p: nat, q: char, triple: bool, body: seq<Glyph>)
    requires p <= |src| && IsQuote(q) && Raw('\\') !in body
    requires var marks := if triple then [q, q, q] else [q]; ItemAt(src, p, marks + GlyphText(body) + marks)
    requires if triple then forall j | 0 <= j < |body| :: Inside(q, body, j)
             else Raw(q) !in body && NoAnchors(src, p, |GlyphText(body)| + 1) && (body == [] ==> !At(src, p + 2, q))
    ensures Glides(src, p, NewReader, p + 2 * (if triple then 3 else 1) + |GlyphText(body)|, NewReader)
  {
    hide Inside, NoAnchors, GlyphText, ItemAt, At, BodyAt, AnchorStarts, Glides;
    var marks := if triple then [q, q, q] else [q];
    var n, r := |marks|, InText(q, triple);
    AtPart(src, p, marks, GlyphText(body), marks);
    MarksAt(src, p, q, triple);
    var mid := p + n + |GlyphText(body)|;
    MarksAt(src, mid, q, triple);
    if !triple { FirstOfBody(src, p + 1, q, body); }
    AtIs(src, p, q);
    AtIs(src, mid, q);
    BodyIsAt(src, p, q, triple, body);
    BodyFits(src, p + n, q, triple, body);
    MarkGlides(src, p, q, triple);
    BodyGlides(src, p + n, q, triple, body);
    MarkGlides(src, mid, q, triple);
    GlidesOn(src, p, NewReader, p + n, r, mid, r);
    GlidesOn(src, p, NewReader, mid, r, mid + n, NewReader);
  }

  // ---- Comments ----

  const InComment := NewReader.(comment := true)

  const InBlock := NewReader.(block := true)

  lemma {:induction false} WordsGlide(src: string, p: nat, n: nat)
    requires p + n <= |src| && forall i | p <= i < p + n :: src[i] != '\n'
    ensures Glides(src, p, InComment, p + n, InComment)
    decreases n
  {
    hide AnchorStarts, AnchorAt;
    if n > 0 {
      GlidesStep(src, p, InComment, p + 1, InComment);
      WordsGlide(src, p + 1, n - 1);
      GlidesOn(src, p, InComment, p + 1, InComment, p + n, InComment);
    }
  }

  lemma {:induction false} BlockGlides(src: string, p: nat, n: nat)
    requires p + n <= |src| && forall i | p <= i < p + n :: !(src[i] == '*' && At(src, i + 1, '/'))
    ensures Glides(src, p, InBlock, p + n, InBlock)
    decreases n
  {
    hide AnchorStarts, AnchorAt;
    if n > 0 {
      GlidesStep(src, p, InBlock, p + 1, InBlock);
      BlockGlides(src, p + 1, n - 1);
      GlidesOn(src, p, InBlock, p + 1, InBlock, p + n, InBlock);
    }
  }

  lemma CommentGlides(src: string, p: nat, words: string)
    requires ItemAt(src, p, "#" + words) && '\n' !in words
    ensures Glides(src, p, NewReader, p + 1 + |words|, InComment)
  {
    hide AnchorStarts, AnchorAt;
    AtChar(src, p, "#" + words, 0);
    GlidesStep(src, p, NewReader, p + 1, InComment);
    forall i | p + 1 <= i < p + 1 + |words| ensures src[i] != '\n' {
      AtChar(src, p, "#" + words, i - p);
      assert ("#" + words)[i - p] == words[i - p - 1];
    }
    WordsGlide(src, p + 1, |words|);
    GlidesOn(src, p, NewReader, p + 1, InComment, p + 1 + |words|, InComment);
  }

  lemma BlockCommentGlides(src: string, p: nat, words: string)
    requires ItemAt(src, p, "/*" + words + "*/")
    requires forall j | 0 <= j < |words| :: !(words[j] == '*' && (words + "*/")[j + 1] == '/')
    ensures Glides(src, p, NewReader, p + 4 + |words|, NewReader)
  {
    hide AnchorStarts, AnchorAt, ItemAt;
    AtPart(src, p, "/*", words, "*/");
    AtChar(src, p, "/*", 0);
    AtChar(src, p, "/*", 1);
    ItemIs(src, p, "/*" + words + "*/");
    GlidesStep(src, p, NewReader, p + 2, InBlock);
    WordsInside(src, p, words);
    BlockGlides(src, p + 2, |words|);
    var mid := p + 2 + |words|;
    AtChar(src, mid, "*/", 0);
    AtChar(src, mid, "*/", 1);
    GlidesStep(src, mid, InBlock, mid + 2, NewReader);
    GlidesOn(src, p, NewReader, p + 2, InBlock, mid, InBlock);
    GlidesOn(src, p, NewReader, mid, InBlock, mid + 2, NewReader);
  }

  // ---- Characters and newlines ----

  lemma CharGlides(src: string, p: nat, c: char)
    requires p < |src| && src[p] == c && c !in {'\n', '"', '\'', '#', '\\'} && (c == '/' ==> !At(src, p + 1, '*'))
    ensures Glides(src, p, NewReader, p + 1, NewReader)
  {
    hide AnchorAt, AnchorStarts;
    GlidesStep(src, p, NewReader, p + 1, NewReader);
  }

  /** A newline ends a comment, and cuts if a definition follows. */
  lemma NewlineCuts(src: string, p: nat, comment: bool)
    requires p < |src| && src[p] == '\n'
    ensures AnchorStarts(src, p, if comment then InComment else NewReader) ==
            (if AnchorAt(src, p + 1) then [p + 1] else []) + AnchorStarts(src, p + 1, NewReader)
  {
    hide AnchorAt, AnchorStarts;
    Glide(src, p, if comment then InComment else NewReader);
  }

  lemma JointCuts(src: string, p: nat, crlf: bool)
    requires ItemAt(src, p, if crlf then "\\\r\n" else "\\\n")
    ensures var e := p + if crlf then 3 else 2;
            AnchorStarts(src, p, NewReader) == (if AnchorAt(src, e) then [e] else []) + AnchorStarts(src, e, NewReader)
  {
    hide AnchorAt, AnchorStarts;
    var w := if crlf then "\\\r\n" else "\\\n";
    AtChar(src, p, w, 0);
    AtChar(src, p, w, 1);
    GlidesStep(src, p, NewReader, p + 1, NewReader);
    if crlf {
      AtChar(src, p, w, 2);
      GlidesStep(src, p + 1, NewReader, p + 2, NewReader);
      NewlineCuts(src, p + 2, false);
    } else {
      NewlineCuts(src, p + 1, false);
    }
  }

  // ---- The whole text ----

  function ReaderAt(items: seq<Item>, k: nat): Reader
    requires k <= |items|
  {
    if k > 0 && items[k - 1].Comment? then InComment else NewReader
  }

  lemma ItemCuts(items: seq<Item>, k: nat)
    requires WellFormed(items) && k < |items|
    ensures Off(items, k + 1) <= |Text(items)|
    ensures AnchorStarts(Text(items), Off(items, k), ReaderAt(items, k)) ==
            (if Cuts(items, k) then [Off(items, k + 1)] else []) + AnchorStarts(Text(items), Off(items, k + 1), ReaderAt(items, k + 1))
  {
    hide Text, WellFormed, AnchorStarts, AnchorAt, At, ItemAt, Inside, NoAnchors, GlyphText;
    var src, p := Text(items), Off(items, k);
    PlaceOf(items, k);
    ItemStands(items, k);
    FineHere(items, k);
    PrefixText(items, k);
    hide Off;
    if k > 0 && items[k - 1].Comment? { FineHere(items, k - 1); }
    match items[k] {
      case Char(c) =>
        AtChar(src, p, [c], 0);
        AtIs(src, p, c);
        CharGlides(src, p, c);
      case Break =>
        AtChar(src, p, "\n", 0);
        AtIs(src, p, '\n');
        NewlineCuts(src, p, ReaderAt(items, k) == InComment);
      case Joint(crlf) => JointCuts(src, p, crlf);
      case Quoted(q, body) => QuotedGlides(src, p, q, false, body);
      case Long(q, body) => QuotedGlides(src, p, q, true, body);
      case Comment(words) => CommentGlides(src, p, words);
      case Block(words) => BlockCommentGlides(src, p, words);
    }
  }

  lemma {:induction false} AnchorsFrom(items: seq<Item>, k: nat)
    requires WellFormed(items) && k <= |items|
    ensures AnchorStarts(Text(items), Off(items, k), ReaderAt(items, k)) == CutsFrom(items, k)
    decreases |items| - k
  {
    hide Text, WellFormed, AnchorStarts, Cuts, Off, ReaderAt;
    if k < |items| {
      ItemCuts(items, k);
      AnchorsFrom(items, k + 1);
    } else {
      LastOff(items);
      NoMoreAnchors(Text(items), ReaderAt(items, k));
    }
  }

  lemma NoMoreAnchors(src: string, r: Reader)
    ensures AnchorStarts(src, |src|, r) == []
  {}

  /** A fresh build cuts at the definitions behind newlines outside of strings and comments, and nowhere else. */
  lemma AnchorsAreFound(items: seq<Item>)
    requires WellFormed(items)
    ensures AnchorStarts(Text(items), 0, NewReader) == CutsFrom(items, 0)
  {
    hide Text, WellFormed, AnchorStarts, CutsFrom;
    LastOff(items);
    AnchorsFrom(items, 0);
  }
}
