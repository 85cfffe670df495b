/** The stored forms, byte by byte: what the codecs and the printers write is told by the formats themselves. */
module FileFormats {
  import opened Bytes
  import W = Wire
  import V = ValueCodec
  import S = ShbcCodec
  import L = StringLiteral
  import J = Json
  import B = Bytecode
  import M = Machine
  import N = Values
  import K = Limits
  import P = ExpressionParser
  import D = Diff

  /** A text of plain characters. */
  function Ascii(s: string): (b: seq<byte>)
    ensures |b| == |s|
  {
    seq(|s|, i requires 0 <= i < |s| => s[i] as int % 256)
  }

  // ---- Integers ----

  /** The lowest byte comes first. */
  lemma FourBytes(n: nat, a: byte, b: byte, c: byte, d: byte)
    requires n == a + 256 * b + 65536 * c + 16777216 * d
    ensures W.ToLe(n, 4) == [a, b, c, d] && W.FromLe([a, b, c, d]) == n
  {
    assert W.ToLe(d, 1) == [d] by { assert W.ToLe(d / 256, 0) == []; }
    Lowest(c, d, 1);
    Lowest(b, c + 256 * d, 2);
    Lowest(a, b + 256 * (c + 256 * d), 3);
    hide W.ToLe;
    LowestRead(d, []);
    LowestRead(c, [d]);
    LowestRead(b, [c, d]);
    LowestRead(a, [b, c, d]);
  }

  lemma LowestRead(a: byte, rest: seq<byte>)
    ensures W.FromLe([a] + rest) == a + 256 * W.FromLe(rest) && W.FromLe([]) == 0
  {
    assert ([a] + rest)[1..] == rest;
  }

  lemma Lowest(a: byte, rest: nat, width: nat)
    ensures W.ToLe(a + 256 * rest, width + 1) == [a] + W.ToLe(rest, width)
  {
    assert (a + 256 * rest) % 256 == a && (a + 256 * rest) / 256 == rest;
  }

  lemma TwoBytes(n: nat, a: byte, b: byte)
    requires n == a + 256 * b
    ensures W.ToLe(n, 2) == [a, b]
  {
    assert W.ToLe(b, 1) == [b] by { assert W.ToLe(b / 256, 0) == []; }
    Lowest(a, b, 1);
  }

  /** A short text: its length, then its bytes. */
  lemma SizedText(s: seq<byte>)
    requires |s| < 256
    ensures V.Sized(s) == [|s|, 0, 0, 0] + s
  {
    FourBytes(|s|, |s|, 0, 0, 0);
  }

  // ---- Values ----

  /** Values without parts. */
  lemma SimpleValues(bits: seq<byte>, s: seq<byte>)
    requires |s| < 256
    ensures V.Serialized(V.Null) == [0] && V.Serialized(V.Boolean(false)) == [1, 0] && V.Serialized(V.Boolean(true)) == [1, 1]
    ensures V.Serialized(V.Number(bits)) == [2] + bits && V.Serialized(V.Text(s)) == [3, |s|, 0, 0, 0] + s
  {
    SizedText(s);
  }

  /** A list of two. */
  lemma ListOfTwo(v: V.Plain, w: V.Plain)
    ensures V.Serialized(V.List([v, w])) == [4, 2, 0, 0, 0] + V.Serialized(v) + V.Serialized(w)
  {
    hide W.ToLe, V.SerializedAll;
    FourBytes(2, 2, 0, 0, 0);
    PartsOfTwo(v, w);
  }

  lemma PartsOfTwo(v: V.Plain, w: V.Plain)
    ensures V.SerializedAll([v, w]) == V.Serialized(v) + V.Serialized(w)
  {
    hide V.Serialized;
    assert [v, w][1..] == [w] && [w][1..] == [];
    assert V.SerializedAll([w]) == V.Serialized(w) + [];
  }

  lemma ItemsOfTwo(k: seq<byte>, v: V.Plain, l: seq<byte>, w: V.Plain)
    requires |k| < 256 && |l| < 256
    ensures V.SerializedItems([V.Item(k, v), V.Item(l, w)]) == [|k|, 0, 0, 0] + k + V.Serialized(v) + [|l|, 0, 0, 0] + l + V.Serialized(w)
  {
    hide V.Serialized, V.Sized;
    var a, b := V.Item(k, v), V.Item(l, w);
    assert [a, b][1..] == [b] && [b][1..] == [];
    SizedText(k);
    SizedText(l);
    assert V.SerializedItems([b]) == V.Sized(l) + V.Serialized(w) + [];
    assert V.SerializedItems([a, b]) == V.Sized(k) + V.Serialized(v) + V.SerializedItems([b]);
  }

  /** A table of two entries, and an instance with two fields. */
  lemma TableOfTwo(k: seq<byte>, v: V.Plain, l: seq<byte>, w: V.Plain, cls: seq<byte>)
    requires |k| < 256 && |l| < 256 && |cls| < 256
    ensures var items := [|k|, 0, 0, 0] + k + V.Serialized(v) + [|l|, 0, 0, 0] + l + V.Serialized(w);
            && V.Serialized(V.Dict([V.Item(k, v), V.Item(l, w)])) == [5, 2, 0, 0, 0] + items
            && V.Serialized(V.Instance(cls, [V.Item(k, v), V.Item(l, w)])) == [6, |cls|, 0, 0, 0] + cls + [2, 0, 0, 0] + items
  {
    hide W.ToLe, V.SerializedItems, V.Sized;
    FourBytes(2, 2, 0, 0, 0);
    ItemsOfTwo(k, v, l, w);
    SizedText(cls);
    assert [6] + ([|cls|, 0, 0, 0] + cls) == [6, |cls|, 0, 0, 0] + cls;
  }

  // ---- Compiled files ----

  /** The bytes of a chunk with two constants and one entry in its location table. */
  lemma ChunkFile(c: S.Constant, d: S.Constant, code: seq<byte>, line: byte, col: byte, count: byte)
    requires |code| < 256
    ensures S.ChunkBytes(S.Chunk([c, d], code, [S.Location(line, col, count)])) ==
            (Ascii("SHBC") + [0, 0, 1, 0] + [2, 0, 0, 0]) + (S.ConstantBytes(c) + S.ConstantBytes(d))
            + ([|code|, 0, 0, 0] + code + [1, 0, 0, 0] + [line, 0, 0, 0] + [col, 0, 0, 0] + [count, 0, 0, 0])
  {
    hide W.ToLe, S.ConstantBytes, S.ConstantsBytes, S.ChunkHead, S.ChunkTail;
    var chunk := S.Chunk([c, d], code, [S.Location(line, col, count)]);
    ChunkHeadIs(chunk);
    TwoConstants(c, d);
    ChunkTailIs(chunk, line, col, count);
  }

  lemma ChunkHeadIs(chunk: S.Chunk)
    requires |chunk.constants| == 2
    ensures S.ChunkHead(chunk) == Ascii("SHBC") + [0, 0, 1, 0] + [2, 0, 0, 0]
  {
    hide W.ToLe;
    Magic();
    FourBytes(S.CHUNK_VERSION, 0, 0, 1, 0);
    FourBytes(2, 2, 0, 0, 0);
  }

  lemma TwoConstants(c: S.Constant, d: S.Constant)
    ensures S.ConstantsBytes([c, d]) == S.ConstantBytes(c) + S.ConstantBytes(d)
  {
    hide S.ConstantBytes;
    assert [c, d][1..] == [d] && [d][1..] == [];
    assert S.ConstantsBytes([d]) == S.ConstantBytes(d) + [];
  }

  lemma ChunkTailIs(chunk: S.Chunk, line: byte, col: byte, count: byte)
    requires |chunk.code| < 256 && chunk.locations == [S.Location(line, col, count)]
    ensures S.ChunkTail(chunk) ==
            [|chunk.code|, 0, 0, 0] + chunk.code + [1, 0, 0, 0] + [line, 0, 0, 0] + [col, 0, 0, 0] + [count, 0, 0, 0]
  {
    hide W.ToLe, S.LocationBytes;
    FourBytes(1, 1, 0, 0, 0);
    OneLocation(line, col, count);
    SizedText(chunk.code);
  }

  lemma Magic()
    ensures W.ToLe(S.MAGIC, 4) == Ascii("SHBC")
  {
    hide W.ToLe;
    FourBytes(S.MAGIC, 0x53, 0x48, 0x42, 0x43);
  }

  lemma OneLocation(line: byte, col: byte, count: byte)
    ensures S.LocationBytes([S.Location(line, col, count)]) == [line, 0, 0, 0] + [col, 0, 0, 0] + [count, 0, 0, 0]
  {
    hide W.ToLe;
    FourBytes(line, line, 0, 0, 0);
    FourBytes(col, col, 0, 0, 0);
    FourBytes(count, count, 0, 0, 0);
    assert [S.Location(line, col, count)][1..] == [];
    assert S.LocationBytes([]) == [];
  }

  /** The constants of a chunk. */
  lemma ConstantFile(bits: seq<byte>, s: seq<byte>, f: S.Function)
    requires |s| < 256
    ensures S.ConstantBytes(S.ConstNull) == [0] && S.ConstantBytes(S.ConstBool(true)) == [1, 1] && S.ConstantBytes(S.ConstBool(false)) == [1, 0]
    ensures S.ConstantBytes(S.ConstNumber(bits)) == [2] + bits && S.ConstantBytes(S.ConstText(s)) == [3, |s|, 0, 0, 0] + s
    ensures S.ConstantBytes(S.ConstFunction(f)) == [4] + S.FunctionBytes(f)
  {
    hide S.FunctionBytes;
    SizedText(s);
  }

  /** The bytes of a function with one default argument: its version is 1.2. */
  lemma FunctionFile(arity: byte, ups: byte, name: seq<byte>, file: seq<byte>, v: V.Plain, chunk: S.Chunk)
    requires |name| < 256 && |file| < 256
    ensures S.FunctionBytes(S.Function(arity, ups, name, file, [v], chunk)) ==
            Ascii("SHBC") + [1, 0] + [2, 0] + [arity, 0] + [ups, 0] + [|name|, 0, 0, 0] + name + [|file|, 0, 0, 0] + file
            + [1, 0, 0, 0] + V.Serialized(v) + S.ChunkBytes(chunk)
  {
    hide W.ToLe, S.ChunkBytes, V.Serialized;
    var f := S.Function(arity, ups, name, file, [v], chunk);
    Magic();
    TwoBytes(1, 1, 0);
    TwoBytes(2, 2, 0);
    TwoBytes(arity, arity, 0);
    TwoBytes(ups, ups, 0);
    FourBytes(1, 1, 0, 0, 0);
    SizedText(name);
    SizedText(file);
    OneDefault(v);
    assert S.FunctionHead(f) == Ascii("SHBC") + [1, 0] + [2, 0] + [arity, 0] + [ups, 0];
  }

  lemma OneDefault(v: V.Plain)
    ensures V.SerializedAll([v]) == V.Serialized(v)
  {
    hide V.Serialized;
    assert [v][1..] == [] && V.SerializedAll([]) == [];
  }

  // ---- Literals ----

  /** The letter behind a backslash, for the characters that have one. */
  function Letter(b: byte): string {
    if b == 10 then "n" else if b == 9 then "t" else if b == 13 then "r" else if b == 7 then "a" else if b == 8 then "b"
    else if b == 12 then "f" else if b == 11 then "v" else if b == 34 then "\"" else if b == 92 then "\\" else ""
  }

  /** How a byte stands in a literal: behind a backslash with its letter, or as two hexadecimal digits, or as it is. */
  lemma LiteralBytes(b: byte)
    ensures L.EscapeOf(b) ==
            if Letter(b) != "" then Ascii("\\" + Letter(b))
            else if b < 32 || b == 127 then Ascii("\\x") + Ascii(["0123456789abcdef"[b / 16], "0123456789abcdef"[b % 16]])
            else [b]
  {
    hide L.EscapeOf, Ascii;
    if Letter(b) != "" { LetterBytes(b); } else if b < 32 || b == 127 { HexBytes(b); } else { PlainBytes(b); }
  }

  lemma LetterBytes(b: byte)
    requires Letter(b) != ""
    ensures L.EscapeOf(b) == Ascii("\\" + Letter(b))
  {
    var t := Letter(b);
    assert |t| == 1;
    assert Ascii("\\" + t) == [92, t[0] as int];
  }

  lemma HexBytes(b: byte)
    requires Letter(b) == "" && (b < 32 || b == 127)
    ensures L.EscapeOf(b) == Ascii("\\x") + Ascii(["0123456789abcdef"[b / 16], "0123456789abcdef"[b % 16]])
  {
    HexIs(b / 16);
    HexIs(b % 16);
    var x, y := "0123456789abcdef"[b / 16], "0123456789abcdef"[b % 16];
    hide L.HexDigit;
    assert Ascii("\\x") == [92, 120] && Ascii([x, y]) == [x as int, y as int];
  }

  lemma PlainBytes(b: byte)
    requires Letter(b) == "" && b >= 32 && b != 127
    ensures L.EscapeOf(b) == [b]
  {}

  lemma HexIs(n: nat)
    requires n < 16
    ensures L.HexDigit(n) == "0123456789abcdef"[n] as int
  {
    var digits := "0123456789abcdef";
    if n < 10 { assert digits[n] as int == '0' as int + n; } else { assert digits[n] as int == 'a' as int + (n - 10); }
  }

  // ---- JSON ----

  /** Texts with a separator between them. */
  function Listed(texts: seq<seq<byte>>, separator: seq<byte>): seq<byte> {
    if texts == [] then []
    else if |texts| == 1 then texts[0]
    else texts[0] + separator + Listed(texts[1..], separator)
  }

  function Texts(vs: seq<J.Value>, depth: nat, indent: int): seq<seq<byte>> {
    seq(|vs|, i requires 0 <= i < |vs| => J.Text(vs[i], depth, indent))
  }

  /** A key, a colon and a space, and the value. */
  function Pairs(items: seq<J.Member>, depth: nat, indent: int): seq<seq<byte>> {
    seq(|items|, i requires 0 <= i < |items| => J.Quoted(items[i].key) + Ascii(": ") + J.Text(items[i].value, depth, indent))
  }

  /** The white space of a line that begins at a depth. */
  function Margin(depth: nat, indent: int): seq<byte> {
    if indent > 0 then Ascii("\n") + seq(depth * indent, _ => ' ' as int) else []
  }

  /** What stands between elements. */
  function Comma(depth: nat, indent: int): seq<byte> { if indent > 0 then Ascii(",") + Margin(depth, indent) else Ascii(", ") }

  lemma MarginIs(depth: nat, indent: int)
    ensures J.Indent(depth, indent, []) == Margin(depth, indent)
    ensures [J.COMMA] + J.Indent(depth, indent, [J.SPACE]) == Comma(depth, indent)
  {}

  lemma {:induction false} ElementsText(vs: seq<J.Value>, depth: nat, indent: int)
    requires vs != []
    ensures J.ElemsText(vs, depth, indent) == Listed(Texts(vs, depth + 1, indent), Comma(depth + 1, indent)) + Margin(depth, indent) + Ascii("]")
    decreases |vs|
  {
    hide J.Text, J.Indent, Margin, Comma;
    MarginIs(depth, indent);
    MarginIs(depth + 1, indent);
    assert Ascii("]") == [J.LIST_CLOSE];
    if |vs| > 1 {
      ElementsText(vs[1..], depth, indent);
      assert Texts(vs, depth + 1, indent)[1..] == Texts(vs[1..], depth + 1, indent);
    }
  }

  lemma {:induction false} EntriesText(items: seq<J.Member>, depth: nat, indent: int)
    requires items != []
    ensures J.ItemsText(items, depth, indent) == Listed(Pairs(items, depth + 1, indent), Comma(depth + 1, indent)) + Margin(depth, indent) + Ascii("}")
    decreases |items|
  {
    hide J.Text, J.Indent, Margin, Comma, J.Quoted;
    MarginIs(depth, indent);
    MarginIs(depth + 1, indent);
    assert Ascii("}") == [J.DICT_CLOSE] && Ascii(": ") == [J.COLON, J.SPACE];
    if |items| > 1 {
      EntriesText(items[1..], depth, indent);
      assert Pairs(items, depth + 1, indent)[1..] == Pairs(items[1..], depth + 1, indent);
    }
  }

  /**
   * The JSON text of lists and tables: brackets, commas and colons, on one line, or indented by a level
   * for each line.
   */
  lemma JsonOfParts(vs: seq<J.Value>, items: seq<J.Member>, depth: nat, indent: int)
    requires vs != [] && items != []
    ensures J.Text(J.List([]), depth, indent) == Ascii("[]") && J.Text(J.Dict([]), depth, indent) == Ascii("{}")
    ensures J.Text(J.List(vs), depth, indent) ==
            Ascii("[") + Margin(depth + 1, indent) + Listed(Texts(vs, depth + 1, indent), Comma(depth + 1, indent)) + Margin(depth, indent) + Ascii("]")
    ensures J.Text(J.Dict(items), depth, indent) ==
            Ascii("{") + Margin(depth + 1, indent) + Listed(Pairs(items, depth + 1, indent), Comma(depth + 1, indent)) + Margin(depth, indent) + Ascii("}")
  {
    hide J.ElemsText, J.ItemsText, J.Indent, Margin, Comma, Listed, Texts, Pairs;
    ElementsText(vs, depth, indent);
    EntriesText(items, depth, indent);
    MarginIs(depth + 1, indent);
  }

  /** Words, and the quotes and escapes of strings. */
  lemma JsonOfWords(s: seq<byte>, b: byte, depth: nat, indent: int)
    ensures J.Text(J.Null, depth, indent) == Ascii("null")
    ensures J.Text(J.Bool(true), depth, indent) == Ascii("true") && J.Text(J.Bool(false), depth, indent) == Ascii("false")
    ensures J.Text(J.Str(s), depth, indent) == Ascii("\"") + J.Escaped(s) + Ascii("\"")
    ensures J.EscapeOf(b) == if Letter(b) != "" && b != 7 && b != 11 then Ascii("\\" + Letter(b)) else [b]
  {
    hide J.Escaped;
  }

  /** The decimal digits of an integer, its last digit last. */
  lemma JsonOfNumbers(n: nat, d: nat)
    requires d < 10
    ensures J.Digits(d) == Ascii(["0123456789"[d]]) && (n > 0 ==> J.Digits(10 * n + d) == J.Digits(n) + Ascii(["0123456789"[d]]))
    ensures n > 0 ==> J.IntText(0 - n) == Ascii("-") + J.Digits(n)
  {
    DigitIs(d);
    assert (10 * n + d) / 10 == n && (10 * n + d) % 10 == d;
  }

  lemma DigitIs(d: nat)
    requires d < 10
    ensures Ascii(["0123456789"[d]]) == [0x30 + d]
  {
    assert "0123456789"[d] as int == '0' as int + d;
  }

  // ---- Instructions ----

  /** The bytes of the instructions, by their places in the enumeration. */
  lemma InstructionBytes(i: M.Instr)
    ensures [B.OP_CONSTANT, B.OP_NULL, B.OP_TRUE, B.OP_FALSE, B.OP_POP, B.OP_GET_LOCAL, B.OP_SET_LOCAL, B.OP_GET_GLOBAL, B.OP_DEFINE_GLOBAL]
            == [0, 1, 2, 3, 4, 5, 6, 7, 8]
    ensures [B.OP_GET_UPVALUE, B.OP_SET_UPVALUE, B.OP_GET_PROPERTY, B.OP_SET_PROPERTY] == [10, 11, 12, 13]
    ensures [B.OP_JUMP, B.OP_JUMP_IF_FALSE, B.OP_LOOP, B.OP_CALL, B.OP_NATIVE_CALL, B.OP_INVOKE, B.OP_CLOSURE, B.OP_CLOSE_UPVALUE, B.OP_RETURN, B.OP_TRY]
            == [28, 29, 30, 31, 32, 33, 34, 35, 36, 37]
    ensures [B.OP_END_TRY, B.OP_THROW, B.OP_LIST, B.OP_GET_INDEX, B.OP_GET_ITER, B.OP_FOR_ITER, B.OP_DUP, B.OP_SET_DEFAULTS]
            == [39, 40, 41, 43, 52, 53, 58, 73]
    ensures (i.GetLocal? ==> B.Opcode(i) == 5) && (i.SetLocal? ==> B.Opcode(i) == 6) && (i.GetGlobal? ==> B.Opcode(i) == 7)
    ensures (i.DefineGlobal? ==> B.Opcode(i) == 8) && (i.Jump? ==> B.Opcode(i) == 28) && (i.JumpIfFalse? ==> B.Opcode(i) == 29)
    ensures (i.Loop? ==> B.Opcode(i) == 30) && (i.Return? ==> B.Opcode(i) == 36) && (i.BeginTry? ==> B.Opcode(i) == 37)
    ensures (i.Raise? ==> B.Opcode(i) == 40) && (i.GetIter? ==> B.Opcode(i) == 52) && (i.ForIter? ==> B.Opcode(i) == 53)
  {}

  /** The bytes of the operators. */
  lemma OperatorBytes(op: N.BinOp)
    ensures (op.Equal? ==> B.OpOf(op) == 14) && (op.NotEqual? ==> B.OpOf(op) == 15) && (op.Greater? ==> B.OpOf(op) == 16)
    ensures (op.Less? ==> B.OpOf(op) == 17) && (op.GreaterEq? ==> B.OpOf(op) == 18) && (op.LessEq? ==> B.OpOf(op) == 19)
    ensures (op.Add? ==> B.OpOf(op) == 20) && (op.Sub? ==> B.OpOf(op) == 21) && (op.Mul? ==> B.OpOf(op) == 22) && (op.Div? ==> B.OpOf(op) == 23)
    ensures (op.Mod? ==> B.OpOf(op) == 59) && (op.In? ==> B.OpOf(op) == 68) && (op.NotIn? ==> B.OpOf(op) == 69) && (op.FloorDiv? ==> B.OpOf(op) == 75)
    ensures B.Opcode(M.Operate(op)) == B.OpOf(op) && B.Opcode(M.Apply(N.Not)) == 24 && B.Opcode(M.Apply(N.Negate)) == 25
    ensures B.Opcode(M.Output) == 26
  {}

  // ---- Limits ----

  /** A jump and the place of a constant are what fits into two bytes, and no more. */
  lemma JumpsTakeTwoBytes(n: nat)
    ensures n <= K.MAX_JUMP <==> exists code: seq<byte> :: |code| == 2 && B.Short(code, 0) == n
    ensures n < K.MAX_CONSTANTS <==> n <= K.MAX_JUMP
  {
    if n <= K.MAX_JUMP {
      var code: seq<byte> := [n / 256, n % 256];
      assert |code| == 2 && B.Short(code, 0) == n;
    }
  }

  /** The bounds of the file reader, of nesting, and of exact integers, and the lines shown around a change. */
  lemma BoundsAre()
    ensures S.MAX_DEPTH == 1000 && S.MAX_CONSTANTS == 1_000_000 && S.MAX_TEXT == 10_000_000 && S.MAX_CODE == 10_000_000
    ensures S.MAX_LOCATIONS == 1_000_000 && S.MAX_NAME == 0x1_0000 && S.MAX_DEFAULTS == 1024
    ensures J.MAX_DEPTH == 1000 && J.EXACT_LIMIT == 1_000_000 * 1_000_000_000 && P.MAX_DEPTH == 100 && D.CONTEXT == 3 && D.MAX_CELLS == 2000 * 2000
  {}
}
