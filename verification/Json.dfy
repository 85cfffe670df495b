/**
 * JSON text (RFC 8259): the printer, which may indent, and the recursive-descent parser. Bytes are
 * printed as they are, except for the two characters and five controls that have a short escape.
 */
module Json {
  import opened Bytes

  /** Numbers without a fraction are integers; one with a fraction is named by its text. */
  datatype Value =
    | Null
    | Bool(b: bool)
    | Integer(n: int)
    | Fraction(lexeme: seq<byte>)
    | Str(s: seq<byte>)
    | List(elems: seq<Value>)
    | Dict(items: seq<Member>)

  datatype Member = Member(key: seq<byte>, value: Value)

  datatype Option<T> = None | Some(value: T)

  const MAX_DEPTH: nat := 1000

  /** From here on integers are printed with six significant digits only. */
  const EXACT_LIMIT: nat := 1_000_000_000_000_000

  const QUOTE: byte := 0x22
  const BACKSLASH: byte := 0x5c
  const LOWER_E: byte := 0x65
  const PLUS: byte := 0x2b
  const COMMA: byte := 0x2c
  const COLON: byte := 0x3a
  const MINUS: byte := 0x2d
  const DOT: byte := 0x2e
  const NEWLINE: byte := 10
  const SPACE: byte := 0x20
  const LIST_OPEN: byte := 0x5b
  const LIST_CLOSE: byte := 0x5d
  const DICT_OPEN: byte := 0x7b
  const DICT_CLOSE: byte := 0x7d
  const NULL_TEXT: seq<byte> := [0x6e, 0x75, 0x6c, 0x6c]
  const TRUE_TEXT: seq<byte> := [0x74, 0x72, 0x75, 0x65]
  const FALSE_TEXT: seq<byte> := [0x66, 0x61, 0x6c, 0x73, 0x65]

  // ---- Printing ----

  function EscapeOf(c: byte): seq<byte> {
    if c == QUOTE then [BACKSLASH, QUOTE]
    else if c == BACKSLASH then [BACKSLASH, BACKSLASH]
    else if c == 8 then [BACKSLASH, 0x62]
    else if c == 12 then [BACKSLASH, 0x66]
    else if c == 10 then [BACKSLASH, 0x6e]
    else if c == 13 then [BACKSLASH, 0x72]
    else if c == 9 then [BACKSLASH, 0x74]
    else [c]
  }

  function Escaped(s: seq<byte>): seq<byte> { if s == [] then [] else EscapeOf(s[0]) + Escaped(s[1..]) }

  function Quoted(s: seq<byte>): seq<byte> { [QUOTE] + (Escaped(s) + [QUOTE]) }

  function Digits(n: nat): (ds: seq<byte>)
    ensures ds != []
  {
    if n < 10 then [0x30 + n] else Digits(n / 10) + [0x30 + n % 10]
  }

  function IntText(n: int): seq<byte> { if n < 0 then [MINUS] + Digits(-n) else Digits(n) }

  function Pow(base: nat, k: nat): (p: nat)
    ensures base > 0 ==> p > 0
  {
    if k == 0 then 1 else base * Pow(base, k - 1)
  }

  /** a / p, rounded to the nearest, and halfway to the even one. */
  function HalfEven(a: nat, p: nat): nat
    requires p > 0
  {
    var q, r := a / p, a % p;
    if 2 * r > p || (2 * r == p && q % 2 == 1) then q + 1 else q
  }

  /** The six significant digits of a, as a number, and the decimal exponent of the first of them. */
  function Significant(a: nat): (nat, nat) {
    var e := if |Digits(a)| >= 6 then |Digits(a)| - 1 else 5;
    var m := HalfEven(a, Pow(10, e - 5));
    if m == 1_000_000 then (100_000, e + 1) else (m, e)
  }

  function Trim(ds: seq<byte>): seq<byte> { if ds != [] && ds[|ds| - 1] == 0x30 then Trim(ds[..|ds| - 1]) else ds }

  /** Scientific notation, as the output stream prints large numbers. */
  function SciText(a: nat): seq<byte> {
    var (m, e) := Significant(a);
    var ds := Digits(m);
    var rest := Trim(ds[1..]);
    [ds[0]] + (if rest == [] then [] else [DOT] + rest) + ([LOWER_E, PLUS] + Digits(e))
  }

  function Abs(n: int): nat { if n < 0 then -n else n }

  function NumText(n: int): seq<byte> {
    if Abs(n) < EXACT_LIMIT then IntText(n) else (if n < 0 then [MINUS] else []) + SciText(Abs(n))
  }

  function Spaces(n: nat): seq<byte> { seq(n, _ => SPACE) }

  /** The white space before an element at a depth: a new line, indented, or else what stands in its place. */
  function Indent(level: nat, indent: int, flat: seq<byte>): seq<byte> {
    if indent > 0 then [NEWLINE] + Spaces(level * indent) else flat
  }

  function Text(v: Value, depth: nat, indent: int): seq<byte>
    decreases v
  {
    match v
    case Null => NULL_TEXT
    case Bool(b) => if b then TRUE_TEXT else FALSE_TEXT
    case Integer(n) => NumText(n)
    case Fraction(lexeme) => lexeme
    case Str(s) => Quoted(s)
    case List(elems) =>
      if elems == [] then [LIST_OPEN, LIST_CLOSE]
      else [LIST_OPEN] + Indent(depth + 1, indent, []) + ElemsText(elems, depth, indent)
    case Dict(items) =>
      if items == [] then [DICT_OPEN, DICT_CLOSE]
      else [DICT_OPEN] + Indent(depth + 1, indent, []) + ItemsText(items, depth, indent)
  }

  /** The elements of a list at a depth, up to the closing bracket. */
  function ElemsText(elems: seq<Value>, depth: nat, indent: int): seq<byte>
    requires elems != []
    decreases elems
  {
    Text(elems[0], depth + 1, indent)
    + (if |elems| == 1 then Indent(depth, indent, []) + [LIST_CLOSE]
       else [COMMA] + Indent(depth + 1, indent, [SPACE]) + ElemsText(elems[1..], depth, indent))
  }

  function ItemsText(items: seq<Member>, depth: nat, indent: int): seq<byte>
    requires items != []
    decreases items
  {
    Quoted(items[0].key) + [COLON, SPACE] + Text(items[0].value, depth + 1, indent)
    + (if |items| == 1 then Indent(depth, indent, []) + [DICT_CLOSE]
       else [COMMA] + Indent(depth + 1, indent, [SPACE]) + ItemsText(items[1..], depth, indent))
  }

  /** How many levels of non-empty lists and dictionaries lie inside each other. */
  function Height(v: Value): nat {
    match v
    case List(elems) => HeightAll(elems)
    case Dict(items) => HeightItems(items)
    case _ => 0
  }

  function Max(a: nat, b: nat): nat { if a < b then b else a }

  function HeightAll(vs: seq<Value>): nat { if vs == [] then 0 else Max(Height(vs[0]) + 1, HeightAll(vs[1..])) }

  function HeightItems(items: seq<Member>): nat {
    if items == [] then 0 else Max(Height(items[0].value) + 1, HeightItems(items[1..]))
  }

  // ---- Parsing ----

  predicate IsSpace(c: byte) { c == 0x20 || c == 9 || c == 10 || c == 13 }

  predicate IsDigit(c: byte) { 0x30 <= c <= 0x39 }

  predicate Is(s: seq<byte>, pos: nat, c: byte) { pos < |s| && s[pos] == c }

  function SkipWs(s: seq<byte>, pos: nat): (p: nat)
    requires pos <= |s|
    ensures pos <= p <= |s| && (p < |s| ==> !IsSpace(s[p]))
    decreases |s| - pos
  {
    if pos < |s| && IsSpace(s[pos]) then SkipWs(s, pos + 1) else pos
  }

  function SkipDigits(s: seq<byte>, pos: nat): (p: nat)
    requires pos <= |s|
    ensures pos <= p <= |s|
    decreases |s| - pos
  {
    if pos < |s| && IsDigit(s[pos]) then SkipDigits(s, pos + 1) else pos
  }

  function Unescape(c: byte): byte {
    if c == 0x62 then 8 else if c == 0x66 then 12 else if c == 0x6e then 10 else if c == 0x72 then 13
    else if c == 0x74 then 9 else c
  }

  /** The contents of a string up to its closing quote. */
  function ParseChars(s: seq<byte>, pos: nat): (r: Option<(seq<byte>, nat)>)
    requires pos <= |s|
    ensures r.Some? ==> pos < r.value.1 <= |s|
    decreases |s| - pos
  {
    if pos == |s| then None
    else if s[pos] == QUOTE then Some(([], pos + 1))
    else if s[pos] == BACKSLASH then
      if pos + 1 == |s| then None
      else
        var more := ParseChars(s, pos + 2);
        if more.None? then None else Some(([Unescape(s[pos + 1])] + more.value.0, more.value.1))
    else
      var more := ParseChars(s, pos + 1);
      if more.None? then None else Some(([s[pos]] + more.value.0, more.value.1))
  }

  function ParseStr(s: seq<byte>, pos: nat): (r: Option<(seq<byte>, nat)>)
    requires pos <= |s|
    ensures r.Some? ==> pos < r.value.1 <= |s|
  {
    if Is(s, pos, QUOTE) then ParseChars(s, pos + 1) else None
  }

  function DigitsValue(ds: seq<byte>): nat {
    if ds == [] then 0 else DigitsValue(ds[..|ds| - 1]) * 10 + (if IsDigit(ds[|ds| - 1]) then ds[|ds| - 1] - 0x30 else 0)
  }

  function BitLength(a: nat): nat { if a == 0 then 0 else 1 + BitLength(a / 2) }

  /** The integer a in double precision: 53 significant bits, and 0 if it is out of range. */
  function Nearest(a: nat): nat {
    var b := BitLength(a);
    var d := if b <= 53 then a else HalfEven(a, Pow(2, b - 53)) * Pow(2, b - 53);
    if d < Pow(2, 1024) then d else 0
  }

  function Signed(negative: bool, a: int): int { if negative then -a else a }

  /** The number with these digits, shifted by a power of ten. */
  function Number(negative: bool, ds: seq<byte>, scale: int, lexeme: seq<byte>): Value {
    var a := DigitsValue(ds);
    if scale >= 0 then Integer(Signed(negative, Nearest(a * Pow(10, scale))))
    else if a % Pow(10, -scale) == 0 then Integer(Signed(negative, Nearest(a / Pow(10, -scale))))
    else Fraction(lexeme)
  }

  /** The end of the digits after a decimal point, if there is one. */
  function SkipPoint(s: seq<byte>, pos: nat): (p: nat)
    requires pos <= |s|
    ensures pos <= p <= |s| && (Is(s, pos, DOT) ==> pos < p)
  {
    if Is(s, pos, DOT) then SkipDigits(s, pos + 1) else pos
  }

  /** The digits after the point. */
  function PointDigits(s: seq<byte>, pos: nat): seq<byte>
    requires pos <= |s|
  {
    if Is(s, pos, DOT) then s[pos + 1..SkipPoint(s, pos)] else []
  }

  /** The value of an exponent, if there is one, and where it ends. */
  function ParseExponent(s: seq<byte>, pos: nat): (r: (int, nat))
    requires pos <= |s|
    ensures pos <= r.1 <= |s|
  {
    if Is(s, pos, LOWER_E) || Is(s, pos, 0x45) then
      var first := if Is(s, pos + 1, PLUS) || Is(s, pos + 1, MINUS) then pos + 2 else pos + 1;
      var end := SkipDigits(s, first);
      (Signed(Is(s, pos + 1, MINUS), DigitsValue(s[first..end])), end)
    else (0, pos)
  }

  function ParseNumber(s: seq<byte>, pos: nat): (r: (Value, nat))
    requires pos < |s| && (s[pos] == MINUS || IsDigit(s[pos]))
    ensures pos < r.1 <= |s|
  {
    var first := if s[pos] == MINUS then pos + 1 else pos;
    var whole := SkipDigits(s, first);
    var (exponent, end) := ParseExponent(s, SkipPoint(s, whole));
    var places := PointDigits(s, whole);
    (Number(s[pos] == MINUS, s[first..whole] + places, exponent - |places|, s[pos..end]), end)
  }

  predicate Reads(s: seq<byte>, pos: nat, word: seq<byte>) { pos + |word| <= |s| && s[pos..pos + |word|] == word }

  function ParseVal(s: seq<byte>, pos: nat, depth: nat): (r: Option<(Value, nat)>)
    requires pos <= |s|
    ensures r.Some? ==> pos < r.value.1 <= |s|
    decreases |s| - pos, 2
  {
    var p := SkipWs(s, pos);
    if p == |s| || depth > MAX_DEPTH then None
    else if Reads(s, p, NULL_TEXT) then Some((Null, p + 4))
    else if Reads(s, p, TRUE_TEXT) then Some((Bool(true), p + 4))
    else if Reads(s, p, FALSE_TEXT) then Some((Bool(false), p + 5))
    else if s[p] == QUOTE then
      var str := ParseStr(s, p);
      if str.None? then None else Some((Str(str.value.0), str.value.1))
    else if s[p] == LIST_OPEN then
      var q := SkipWs(s, p + 1);
      if Is(s, q, LIST_CLOSE) then Some((List([]), q + 1))
      else
        var elems := ParseElems(s, q, depth);
        if elems.None? then None else Some((List(elems.value.0), elems.value.1))
    else if s[p] == DICT_OPEN then
      var q := SkipWs(s, p + 1);
      if Is(s, q, DICT_CLOSE) then Some((Dict([]), q + 1))
      else
        var items := ParseItems(s, q, depth, []);
        if items.None? then None else Some((Dict(items.value.0), items.value.1))
    else if s[p] == MINUS || IsDigit(s[p]) then Some(ParseNumber(s, p))
    else None
  }

  function ParseElems(s: seq<byte>, pos: nat, depth: nat): (r: Option<(seq<Value>, nat)>)
    requires pos <= |s|
    ensures r.Some? ==> pos < r.value.1 <= |s|
    decreases |s| - pos, 3
  {
    var elem := ParseVal(s, pos, depth + 1);
    if elem.None? then None else
    var q := SkipWs(s, elem.value.1);
    if Is(s, q, LIST_CLOSE) then Some(([elem.value.0], q + 1))
    else if !Is(s, q, COMMA) then None
    else
      var more := ParseElems(s, q + 1, depth);
      if more.None? then None else Some(([elem.value.0] + more.value.0, more.value.1))
  }

  /** Assigns a key: an old entry is replaced. */
  function Put(items: seq<Member>, key: seq<byte>, v: Value): seq<Member> {
    if items == [] then [Member(key, v)]
    else if items[0].key == key then [Member(key, v)] + items[1..]
    else [items[0]] + Put(items[1..], key, v)
  }

  function ParseItems(s: seq<byte>, pos: nat, depth: nat, done: seq<Member>): (r: Option<(seq<Member>, nat)>)
    requires pos <= |s|
    ensures r.Some? ==> pos < r.value.1 <= |s|
    decreases |s| - pos, 3
  {
    var key := ParseStr(s, SkipWs(s, pos));
    if key.None? then None else
    var q := SkipWs(s, key.value.1);
    if !Is(s, q, COLON) then None else
    var v := ParseVal(s, q + 1, depth + 1);
    if v.None? then None else
    var items := Put(done, key.value.0, v.value.0);
    var e := SkipWs(s, v.value.1);
    if Is(s, e, DICT_CLOSE) then Some((items, e + 1))
    else if !Is(s, e, COMMA) then None
    else ParseItems(s, e + 1, depth, items)
  }

  /** The whole text has to be one value. */
  function Parse(s: seq<byte>): Option<Value> {
    var r := ParseVal(s, 0, 0);
    if r.Some? && SkipWs(s, r.value.1) == |s| then Some(r.value.0) else None
  }

  function Stringify(v: Value, indent: int): Option<seq<byte>> {
    if Height(v) > MAX_DEPTH then None else Some(Text(v, 0, indent))
  }
}
