/**
 * String literals: the formatter escapes the bytes of a string, the lexer finds where the literal
 * ends, and the parser takes the escapes away again.
 */
module StringLiteral {
  import opened Bytes

  const QUOTE: byte := 0x22
  const BACKSLASH: byte := 0x5c

  // ---- Escaping ----

  function HexDigit(n: nat): byte
    requires n < 16
  {
    if n < 10 then 0x30 + n else 0x61 + n - 10
  }

  /** The bytes that stand for b inside a literal. */
  function EscapeOf(b: byte): seq<byte> {
    if b == QUOTE then [BACKSLASH, QUOTE]
    else if b == BACKSLASH then [BACKSLASH, BACKSLASH]
    else if b == 10 then [BACKSLASH, 0x6e]
    else if b == 9 then [BACKSLASH, 0x74]
    else if b == 13 then [BACKSLASH, 0x72]
    else if b == 7 then [BACKSLASH, 0x61]
    else if b == 8 then [BACKSLASH, 0x62]
    else if b == 12 then [BACKSLASH, 0x66]
    else if b == 11 then [BACKSLASH, 0x76]
    else if b < 0x20 || b == 0x7f then [BACKSLASH, 0x78, HexDigit(b / 16), HexDigit(b % 16)]
    else [b]
  }

  function Escaped(s: seq<byte>): seq<byte> {
    if s == [] then [] else EscapeOf(s[0]) + Escaped(s[1..])
  }

  /** The literal for a string, with its quotes. */
  method EscapeStringLiteral(value: seq<byte>) returns (out: seq<byte>)
    ensures out == [QUOTE] + Escaped(value) + [QUOTE]
  {
    out := [QUOTE];
    var i := 0;
    while i < |value|
      invariant i <= |value| && out + Escaped(value[i..]) == [QUOTE] + Escaped(value)
    {
      assert value[i..][1..] == value[i + 1..];
      assert out + (EscapeOf(value[i]) + Escaped(value[i + 1..])) == (out + EscapeOf(value[i])) + Escaped(value[i + 1..]);
      out := out + EscapeOf(value[i]);
      i := i + 1;
    }
    assert out == [QUOTE] + Escaped(value);
    out := out + [QUOTE];
  }

  // ---- Unescaping ----

  predicate IsHex(c: byte) { 0x30 <= c <= 0x39 || 0x61 <= c <= 0x66 || 0x41 <= c <= 0x46 }

  function HexValue(c: byte): (n: nat)
    requires IsHex(c)
    ensures n < 16
  {
    if c <= 0x39 then c - 0x30 else if c >= 0x61 then c - 0x61 + 10 else c - 0x41 + 10
  }

  /** What a backslash before c stands for, unless it starts a hexadecimal escape. */
  function Unnamed(c: byte): byte {
    if c == 0x6e then 10 else if c == 0x74 then 9 else if c == 0x72 then 13 else if c == 0x61 then 7
    else if c == 0x62 then 8 else if c == 0x66 then 12 else if c == 0x76 then 11 else if c == 0x30 then 0 else c
  }

  predicate StartsHex(t: seq<byte>) {
    |t| > 3 && t[0] == BACKSLASH && t[1] == 0x78 && IsHex(t[2]) && IsHex(t[3])
  }

  function Unescaped(t: seq<byte>): seq<byte> {
    if t == [] then []
    else if StartsHex(t) then [HexValue(t[2]) * 16 + HexValue(t[3])] + Unescaped(t[4..])
    else if t[0] == BACKSLASH && |t| > 1 then [Unnamed(t[1])] + Unescaped(t[2..])
    else [t[0]] + Unescaped(t[1..])
  }

  /** The byte at i, or the escape that starts there, and where to go on. */
  method UnescapeAt(sv: seq<byte>, at: nat) returns (add: byte, next: nat)
    requires at < |sv|
    ensures at < next <= |sv| && Unescaped(sv[at..]) == [add] + Unescaped(sv[next..])
  {
    var i := at;
    if sv[i] == BACKSLASH && i + 1 < |sv| {
      i := i + 1;
      if sv[i] == 0x78 && i + 2 < |sv| && IsHex(sv[i + 1]) && IsHex(sv[i + 2]) {
        add := HexValue(sv[i + 1]) * 16 + HexValue(sv[i + 2]);
        i := i + 2;
      } else {
        add := Unnamed(sv[i]);
      }
    } else {
      add := sv[i];
    }
    next := i + 1;
    assert sv[at..][next - at..] == sv[next..];
  }

  method UnescapeStringLiteral(sv: seq<byte>) returns (res: seq<byte>)
    ensures res == Unescaped(sv)
  {
    hide Unescaped;
    res := [];
    var i := 0;
    assert [] + Unescaped(sv[0..]) == Unescaped(sv) by { assert sv[0..] == sv; }
    while i < |sv|
      invariant i <= |sv| && res + Unescaped(sv[i..]) == Unescaped(sv)
      decreases |sv| - i
    {
      var add, next := UnescapeAt(sv, i);
      assert res + ([add] + Unescaped(sv[next..])) == (res + [add]) + Unescaped(sv[next..]);
      res, i := res + [add], next;
    }
    NothingLeft();
    assert sv[i..] == [];
  }

  lemma NothingLeft()
    ensures Unescaped([]) == []
  {}

  lemma UnescapeOne(b: byte, rest: seq<byte>)
    ensures Unescaped(EscapeOf(b) + rest) == [b] + Unescaped(rest)
  {
    var e := EscapeOf(b);
    assert (e + rest)[|e|..] == rest;
  }

  /** Unescaping gives back every byte string. */
  lemma {:induction false} UnescapeInvertsEscape(s: seq<byte>)
    ensures Unescaped(Escaped(s)) == s
  {
    if s != [] {
      UnescapeOne(s[0], Escaped(s[1..]));
      UnescapeInvertsEscape(s[1..]);
    }
  }

  // ---- Reading a literal ----

  predicate Is(src: seq<byte>, pos: nat, c: byte) { pos < |src| && src[pos] == c }

  /** Where the text of a literal ends: at its closing quote, or at the end of the source. */
  function BodyEnd(src: seq<byte>, pos: nat, quote: byte): (end: nat)
    requires pos <= |src|
    ensures pos <= end <= |src|
    decreases |src| - pos
  {
    if pos == |src| || src[pos] == quote then pos
    else if src[pos] == BACKSLASH then if pos + 1 == |src| then |src| else BodyEnd(src, pos + 2, quote)
    else BodyEnd(src, pos + 1, quote)
  }

  predicate ThreeQuotes(src: seq<byte>, pos: nat, quote: byte) {
    Is(src, pos, quote) && Is(src, pos + 1, quote) && Is(src, pos + 2, quote)
  }

  function TripleEnd(src: seq<byte>, pos: nat, quote: byte): (end: nat)
    requires pos <= |src|
    ensures pos <= end <= |src| && (end < |src| ==> ThreeQuotes(src, end, quote))
    decreases |src| - pos
  {
    if pos == |src| then pos
    else if src[pos] == BACKSLASH then if pos + 1 == |src| then |src| else TripleEnd(src, pos + 2, quote)
    else if ThreeQuotes(src, pos, quote) then pos
    else TripleEnd(src, pos + 1, quote)
  }

  /** The text of the literal that opens at pos, still escaped, and where reading goes on. */
  function Literal(src: seq<byte>, pos: nat): (lit: (seq<byte>, nat))
    requires pos < |src|
    ensures pos < lit.1 <= |src|
  {
    var quote := src[pos];
    if Is(src, pos + 1, quote) && Is(src, pos + 2, quote) then
      var end := TripleEnd(src, pos + 3, quote);
      (src[pos + 3..end], if end < |src| then end + 3 else end)
    else
      var end := BodyEnd(src, pos + 1, quote);
      (src[pos + 1..end], if end < |src| then end + 1 else end)
  }

  class Lexer {
    const source: seq<byte>
    var pos: nat

    constructor (source: seq<byte>)
      ensures this.source == source && pos == 0
    {
      this.source, pos := source, 0;
    }

    /** Moves to the end of the text of a literal. */
    method SkipBody(quote: byte)
      requires pos <= |source|
      modifies this
      ensures pos == BodyEnd(source, old(pos), quote)
    {
      ghost var start := pos;
      while pos < |source| && source[pos] != quote
        invariant pos <= |source| && BodyEnd(source, pos, quote) == BodyEnd(source, start, quote)
        decreases |source| - pos
      {
        if source[pos] == BACKSLASH {
          pos := pos + 1;
          if pos >= |source| { break; }
        }
        pos := pos + 1;
      }
    }

    /** Moves to the end of the text of a triple-quoted literal. */
    method SkipTriple(quote: byte)
      requires pos <= |source|
      modifies this
      ensures pos == TripleEnd(source, old(pos), quote)
    {
      ghost var start := pos;
      while pos < |source|
        invariant pos <= |source| && TripleEnd(source, pos, quote) == TripleEnd(source, start, quote)
        decreases |source| - pos
      {
        if source[pos] == BACKSLASH {
          pos := pos + 1;
          if pos >= |source| { break; }
          pos := pos + 1;
          continue;
        }
        if ThreeQuotes(source, pos, quote) { break; }
        pos := pos + 1;
      }
    }

    method ReadString() returns (value: seq<byte>)
      requires pos < |source|
      modifies this
      ensures (value, pos) == Literal(source, old(pos))
    {
      hide BodyEnd, TripleEnd;
      var quote := source[pos];
      pos := pos + 1;
      var start := pos;
      if Is(source, pos, quote) && Is(source, pos + 1, quote) {
        pos := pos + 2;
        start := pos;
        SkipTriple(quote);
        value := source[start..pos];
        if pos < |source| { pos := pos + 3; }
        return;
      }
      SkipBody(quote);
      value := source[start..pos];
      if pos < |source| { pos := pos + 1; }
    }
  }

  lemma EscapeShape(b: byte)
    ensures var e := EscapeOf(b);
            || (|e| == 1 && e[0] != QUOTE && e[0] != BACKSLASH)
            || (|e| == 2 && e[0] == BACKSLASH)
            || (|e| == 4 && e[0] == BACKSLASH && e[2] != QUOTE && e[2] != BACKSLASH && e[3] != QUOTE && e[3] != BACKSLASH)
  {}

  /** The escape of one byte is skipped as a whole. */
  lemma SkipOne(src: seq<byte>, pos: nat, b: byte)
    requires StandsAt(src, pos, EscapeOf(b))
    ensures BodyEnd(src, pos, QUOTE) == BodyEnd(src, pos + |EscapeOf(b)|, QUOTE)
  {
    hide EscapeOf;
    EscapeShape(b);
    var e := EscapeOf(b);
    StandsByte(src, pos, e, 0);
    if |e| == 4 {
      StandsByte(src, pos, e, 2);
      StandsByte(src, pos, e, 3);
      assert BodyEnd(src, pos + 2, QUOTE) == BodyEnd(src, pos + 3, QUOTE) == BodyEnd(src, pos + 4, QUOTE);
    }
  }

  lemma QuoteStops(src: seq<byte>, pos: nat)
    requires Is(src, pos, QUOTE)
    ensures BodyEnd(src, pos, QUOTE) == pos
  {}

  lemma {:induction false} SkipAll(src: seq<byte>, pos: nat, s: seq<byte>)
    requires pos + |Escaped(s)| <= |src| && StandsAt(src, pos, Escaped(s)) && Is(src, pos + |Escaped(s)|, QUOTE)
    ensures BodyEnd(src, pos, QUOTE) == pos + |Escaped(s)|
    decreases |s|
  {
    hide StandsAt, EscapeOf, BodyEnd;
    if s != [] {
      StandsSplit(src, pos, EscapeOf(s[0]), Escaped(s[1..]));
      SkipOne(src, pos, s[0]);
      SkipAll(src, pos + |EscapeOf(s[0])|, s[1..]);
    } else {
      QuoteStops(src, pos);
    }
  }

  /** A literal between two stretches of source. */
  function Between(before: seq<byte>, s: seq<byte>, after: seq<byte>): seq<byte> {
    before + ([QUOTE] + Escaped(s) + [QUOTE]) + after
  }

  lemma Layout(before: seq<byte>, s: seq<byte>, after: seq<byte>)
    ensures var src, pos, n := Between(before, s, after), |before|, |Escaped(s)|;
            && Is(src, pos, QUOTE) && StandsAt(src, pos + 1, Escaped(s)) && Is(src, pos + 1 + n, QUOTE)
            && |src| == pos + n + 2 + |after| && src[pos + n + 2..] == after
            && (Is(src, pos + n + 2, QUOTE) <==> Is(after, 0, QUOTE))
  {
    hide Escaped;
    var e := Escaped(s);
    assert Between(before, s, after) == before + [QUOTE] + e + [QUOTE] + after;
  }

  /**
   * The lexer cuts a printed literal out of its surroundings exactly when the literal is not empty
   * or no further quote follows it: two quotes and a third are read as a triple quote.
   */
  lemma LiteralIsDelimited(before: seq<byte>, s: seq<byte>, after: seq<byte>)
    ensures Literal(Between(before, s, after), |before|) == (Escaped(s), |before| + |Escaped(s)| + 2)
            <==> s != [] || !Is(after, 0, QUOTE)
  {
    hide BodyEnd, TripleEnd, EscapeOf, Between, StandsAt;
    var src, pos := Between(before, s, after), |before|;
    Layout(before, s, after);
    SkipAll(src, pos + 1, s);
    if s != [] { FirstByte(src, pos + 1, s); }
    TextOf(src, pos + 1, Escaped(s));
  }

  /** A literal's text does not open with a quote. */
  lemma FirstByte(src: seq<byte>, pos: nat, s: seq<byte>)
    requires s != [] && StandsAt(src, pos, Escaped(s))
    ensures !Is(src, pos, QUOTE)
  {
    EscapeShape(s[0]);
    StandsByte(src, pos, Escaped(s), 0);
  }

  lemma TextOf(src: seq<byte>, pos: nat, t: seq<byte>)
    requires StandsAt(src, pos, t)
    ensures pos + |t| <= |src| && src[pos..pos + |t|] == t
  {}

  /** Printing, cutting out and unescaping give back the string. */
  lemma LiteralRoundTrip(before: seq<byte>, s: seq<byte>, after: seq<byte>)
    requires s != [] || !Is(after, 0, QUOTE)
    ensures var (text, next) := Literal(Between(before, s, after), |before|);
            Unescaped(text) == s && Between(before, s, after)[next..] == after
  {
    hide Literal, Unescaped, Between;
    LiteralIsDelimited(before, s, after);
    UnescapeInvertsEscape(s);
    Layout(before, s, after);
  }
}
