/** The bytes of a chunk: opcodes, operands and decoding. */
module Bytecode {
  import opened Bytes
  import opened Values
  import opened Machine

  // Opcode numbers, in the order of the enumeration.
  const OP_CONSTANT := 0
  const OP_NULL := 1
  const OP_TRUE := 2
  const OP_FALSE := 3
  const OP_POP := 4
  const OP_GET_LOCAL := 5
  const OP_SET_LOCAL := 6
  const OP_GET_GLOBAL := 7
  const OP_DEFINE_GLOBAL := 8
  const OP_SET_GLOBAL := 9
  const OP_GET_UPVALUE := 10
  const OP_SET_UPVALUE := 11
  const OP_GET_PROPERTY := 12
  const OP_SET_PROPERTY := 13
  const OP_EQUAL := 14
  const OP_NOT_EQUAL := 15
  const OP_GREATER := 16
  const OP_LESS := 17
  const OP_GREATER_EQUAL := 18
  const OP_LESS_EQUAL := 19
  const OP_ADD := 20
  const OP_SUBTRACT := 21
  const OP_MULTIPLY := 22
  const OP_DIVIDE := 23
  const OP_NOT := 24
  const OP_NEGATE := 25
  const OP_PRINT := 26
  const OP_JUMP := 28
  const OP_JUMP_IF_FALSE := 29
  const OP_LOOP := 30
  const OP_CALL := 31
  const OP_NATIVE_CALL := 32
  const OP_INVOKE := 33
  const OP_CLOSURE := 34
  const OP_CLOSE_UPVALUE := 35
  const OP_RETURN := 36
  const OP_TRY := 37
  const OP_END_TRY := 39
  const OP_THROW := 40
  const OP_LIST := 41
  const OP_DICT := 42
  const OP_GET_INDEX := 43
  const OP_LIST_APPEND := 46
  const OP_CLASS := 47
  const OP_METHOD := 48
  const OP_PROPERTY := 49
  const OP_GET_SELF_PROPERTY := 50
  const OP_SET_SELF_PROPERTY := 51
  const OP_GET_ITER := 52
  const OP_FOR_ITER := 53
  const OP_SPAWN := 54
  const OP_DUP := 58
  const OP_MOD := 59
  const OP_IMPORT := 67
  const OP_IN := 68
  const OP_NOT_IN := 69
  const OP_SET_DEFAULTS := 73
  const OP_CALL_PARENT_INIT := 74
  const OP_FLOORDIV := 75
  const OP_HALT := 78

  function OpOf(op: BinOp): byte {
    match op
    case Add => OP_ADD
    case Sub => OP_SUBTRACT
    case Mul => OP_MULTIPLY
    case Div => OP_DIVIDE
    case FloorDiv => OP_FLOORDIV
    case Mod => OP_MOD
    case Equal => OP_EQUAL
    case NotEqual => OP_NOT_EQUAL
    case Greater => OP_GREATER
    case Less => OP_LESS
    case GreaterEq => OP_GREATER_EQUAL
    case LessEq => OP_LESS_EQUAL
    case In => OP_IN
    case NotIn => OP_NOT_IN
  }

  /** The first byte of an instruction. */
  function Opcode(i: Instr): byte {
    match i
    case Const(_) => OP_CONSTANT
    case PushNull => OP_NULL
    case PushBool(b) => if b then OP_TRUE else OP_FALSE
    case Pop => OP_POP
    case GetLocal(_) => OP_GET_LOCAL
    case SetLocal(_) => OP_SET_LOCAL
    case GetGlobal(_) => OP_GET_GLOBAL
    case DefineGlobal(_) => OP_DEFINE_GLOBAL
    case Operate(op) => OpOf(op)
    case Apply(op) => if op == Not then OP_NOT else OP_NEGATE
    case Output => OP_PRINT
    case Jump(_) => OP_JUMP
    case JumpIfFalse(_) => OP_JUMP_IF_FALSE
    case Loop(_) => OP_LOOP
    case Return => OP_RETURN
    case BeginTry(_) => OP_TRY
    case EndTry => OP_END_TRY
    case Raise => OP_THROW
    case MakeList(_) => OP_LIST
    case GetIter => OP_GET_ITER
    case ForIter(_) => OP_FOR_ITER
    case Dup => OP_DUP
  }

  /** A two-byte operand, high byte first. */
  function Short(code: seq<byte>, p: nat): nat
    requires p + 2 <= |code|
  {
    (code[p] as int) * 256 + code[p + 1] as int
  }

  function One(op: byte): Option<Instr> {
    if op == OP_NULL then Some(PushNull)
    else if op == OP_TRUE then Some(PushBool(true))
    else if op == OP_FALSE then Some(PushBool(false))
    else if op == OP_POP then Some(Instr.Pop)
    else if op == OP_ADD then Some(Operate(Add))
    else if op == OP_SUBTRACT then Some(Operate(Sub))
    else if op == OP_MULTIPLY then Some(Operate(Mul))
    else if op == OP_DIVIDE then Some(Operate(Div))
    else if op == OP_FLOORDIV then Some(Operate(FloorDiv))
    else if op == OP_MOD then Some(Operate(Mod))
    else if op == OP_EQUAL then Some(Operate(Equal))
    else if op == OP_NOT_EQUAL then Some(Operate(NotEqual))
    else if op == OP_GREATER then Some(Operate(Greater))
    else if op == OP_LESS then Some(Operate(Less))
    else if op == OP_GREATER_EQUAL then Some(Operate(GreaterEq))
    else if op == OP_LESS_EQUAL then Some(Operate(LessEq))
    else if op == OP_IN then Some(Operate(In))
    else if op == OP_NOT_IN then Some(Operate(NotIn))
    else if op == OP_NOT then Some(Apply(Not))
    else if op == OP_NEGATE then Some(Apply(Negate))
    else if op == OP_PRINT then Some(Output)
    else if op == OP_RETURN then Some(Return)
    else if op == OP_END_TRY then Some(Instr.EndTry)
    else if op == OP_THROW then Some(Raise)
    else if op == OP_GET_ITER then Some(GetIter)
    else if op == OP_DUP then Some(Dup)
    else None
  }

  /** Instructions with a two-byte operand n; `next` is the address after them. */
  function Wide(op: byte, n: nat, next: nat, constants: seq<Value>): Option<Instr> {
    if op == OP_CONSTANT then if n < |constants| then Some(Const(constants[n])) else None
    else if op == OP_GET_LOCAL then Some(GetLocal(n))
    else if op == OP_SET_LOCAL then Some(SetLocal(n))
    else if op == OP_GET_GLOBAL then
      if n < |constants| && constants[n].VStr? then Some(GetGlobal(constants[n].s)) else None
    else if op == OP_DEFINE_GLOBAL then
      if n < |constants| && constants[n].VStr? then Some(DefineGlobal(constants[n].s)) else None
    else if op == OP_JUMP then Some(Jump(next + n))
    else if op == OP_JUMP_IF_FALSE then Some(JumpIfFalse(next + n))
    else if op == OP_TRY then Some(BeginTry(next + n))
    else if op == OP_FOR_ITER then Some(ForIter(next + n))
    else if op == OP_LOOP then if n <= next then Some(Loop(next - n)) else None
    else None
  }

  /** The instruction that starts at byte p, if there is a whole one of the fragment. */
  function Decode(code: seq<byte>, constants: seq<Value>, p: nat): Option<Instr> {
    if p >= |code| then None
    else if One(code[p]).Some? then One(code[p])
    else if code[p] == OP_LIST then if p + 2 <= |code| then Some(MakeList(code[p + 1])) else None
    else if p + 3 <= |code| then Wide(code[p], Short(code, p + 1), p + 3, constants)
    else None
  }

  /** All instructions of a chunk, by address. */
  function Disassemble(code: seq<byte>, constants: seq<Value>): Listing {
    map p: nat | p < |code| && Decode(code, constants, p).Some? :: Decode(code, constants, p).value
  }

  /** Decoding looks only at the bytes of the instruction and at its constant. */
  lemma DecodeFrame(a: seq<byte>, b: seq<byte>, ca: seq<Value>, cb: seq<Value>, p: nat, i: Instr)
    requires Decode(a, ca, p) == Some(i) && p + Len(i) <= |a| && p + Len(i) <= |b|
    requires a[p..p + Len(i)] == b[p..p + Len(i)] && ca <= cb
    ensures Decode(b, cb, p) == Some(i)
  {
    assert forall q :: p <= q < p + Len(i) ==> a[q] == a[p..p + Len(i)][q - p] == b[q];
  }

  lemma DecodeLength(a: seq<byte>, c: seq<Value>, p: nat, i: Instr)
    requires Decode(a, c, p) == Some(i)
    ensures p + Len(i) <= |a| && a[p] == Opcode(i)
  {}
}
