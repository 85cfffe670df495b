/**
 * The recursive-descent expression parser: a cursor over the tokens, and one method for each level
 * of binding strength. The ten levels of left-associative operators share a method over the number
 * of the level, from 0 for `or` to 9 for `*`.
 */
module ExpressionParser {
  import opened StringLiteral
  import opened Expressions

  /** How a parse fails: too many nested expressions, or a form outside the operator expressions. */
  datatype Failure = TooDeep | Unsupported

  datatype Outcome = Parsed(node: Expr, pos: nat) | Failed(reason: Failure)

  datatype Option<T> = None | Some(value: T)

  const MAX_DEPTH: nat := 100

  const POWER_LEVEL: nat := 10

  /** The level whose method consumes an operator. */
  function Level(op: BinaryOp): (level: nat)
    ensures level <= POWER_LEVEL
  {
    match op
    case Or => 0
    case And => 1
    case BitOr => 2
    case BitXor => 3
    case BitAnd => 4
    case Eq | Neq => 5
    case Lt | Le | Gt | Ge | In | NotIn => 6
    case Shl | Shr => 7
    case Add | Sub => 8
    case Mul | Div | Mod | FloorDiv => 9
    case Pow => POWER_LEVEL
  }

  function SymbolOf(t: Token): Option<BinaryOp> {
    match t
    case TokOr => Some(Or)
    case TokAnd => Some(And)
    case TokBitOr => Some(BitOr)
    case TokBitXor => Some(BitXor)
    case TokBitAnd => Some(BitAnd)
    case TokEq => Some(Eq)
    case TokNeq => Some(Neq)
    case TokLt => Some(Lt)
    case TokLe => Some(Le)
    case TokGt => Some(Gt)
    case TokGe => Some(Ge)
    case TokIn => Some(In)
    case TokLShift => Some(Shl)
    case TokRShift => Some(Shr)
    case TokPlus => Some(Add)
    case TokMinus => Some(Sub)
    case TokMul => Some(Mul)
    case TokDiv => Some(Div)
    case TokMod => Some(Mod)
    case TokFloorDiv => Some(FloorDiv)
    case TokPow => Some(Pow)
    case _ => None
  }

  function UnarySymbol(t: Token): Option<UnaryOp> {
    match t
    case TokNot => Some(Not)
    case TokMinus => Some(Minus)
    case TokBitNot => Some(BitNot)
    case _ => None
  }

  /** The binary operator at pos, if any; `not in` takes two tokens. */
  function OperatorAt(ts: seq<Token>, pos: nat): (o: Option<BinaryOp>)
    ensures o.Some? ==> pos + |OpTokens(o.value)| <= |ts| && |OpTokens(o.value)| >= 1
  {
    if pos >= |ts| then None
    else if ts[pos] == TokNot then if pos + 1 < |ts| && ts[pos + 1] == TokIn then Some(NotIn) else None
    else SymbolOf(ts[pos])
  }

  predicate HasOperator(ts: seq<Token>, pos: nat, level: nat) {
    OperatorAt(ts, pos).Some? && Level(OperatorAt(ts, pos).value) == level
  }

  // ---- What the methods compute ----

  function Expression(ts: seq<Token>, pos: nat, depth: nat): (o: Outcome)
    requires pos <= |ts|
    ensures o.Parsed? ==> pos < o.pos <= |ts|
    decreases |ts| - pos, 20
  {
    if depth + 1 > MAX_DEPTH then Failed(TooDeep) else LeftLevel(ts, pos, depth + 1, 0)
  }

  /** An operand of the next level, and then a chain of operators of this level. */
  function LeftLevel(ts: seq<Token>, pos: nat, depth: nat, level: nat): (o: Outcome)
    requires pos <= |ts| && level <= POWER_LEVEL
    ensures o.Parsed? ==> pos < o.pos <= |ts|
    decreases |ts| - pos, 19 - level
  {
    if level == POWER_LEVEL then PowerLevel(ts, pos, depth)
    else
      var first := LeftLevel(ts, pos, depth, level + 1);
      if first.Failed? then first else LeftChain(ts, first.node, first.pos, depth, level)
  }

  function LeftChain(ts: seq<Token>, node: Expr, pos: nat, depth: nat, level: nat): (o: Outcome)
    requires pos <= |ts| && level < POWER_LEVEL
    ensures o.Parsed? ==> pos <= o.pos <= |ts|
    decreases |ts| - pos, 19 - level
  {
    if !HasOperator(ts, pos, level) then Parsed(node, pos)
    else
      var op := OperatorAt(ts, pos).value;
      var right := LeftLevel(ts, pos + |OpTokens(op)|, depth, level + 1);
      if right.Failed? then right else LeftChain(ts, Binary(node, op, right.node), right.pos, depth, level)
  }

  function PowerLevel(ts: seq<Token>, pos: nat, depth: nat): (o: Outcome)
    requires pos <= |ts|
    ensures o.Parsed? ==> pos < o.pos <= |ts|
    decreases |ts| - pos, 8
  {
    var first := UnaryLevel(ts, pos, depth);
    if first.Failed? then first else PowerChain(ts, first.node, first.pos, depth)
  }

  /** The right operand of a power is itself a power. */
  function PowerChain(ts: seq<Token>, node: Expr, pos: nat, depth: nat): (o: Outcome)
    requires pos <= |ts|
    ensures o.Parsed? ==> pos <= o.pos <= |ts|
    decreases |ts| - pos, 7
  {
    if !HasOperator(ts, pos, POWER_LEVEL) then Parsed(node, pos)
    else
      var right := PowerLevel(ts, pos + 1, depth);
      if right.Failed? then right else PowerChain(ts, Binary(node, Pow, right.node), right.pos, depth)
  }

  function UnaryLevel(ts: seq<Token>, pos: nat, depth: nat): (o: Outcome)
    requires pos <= |ts|
    ensures o.Parsed? ==> pos < o.pos <= |ts|
    decreases |ts| - pos, 6
  {
    if pos < |ts| && UnarySymbol(ts[pos]).Some? then
      var right := UnaryLevel(ts, pos + 1, depth);
      if right.Failed? then right else Parsed(Unary(UnarySymbol(ts[pos]).value, right.node), right.pos)
    else
      var operand := Primary(ts, pos, depth);
      if operand.Parsed? && operand.pos < |ts| && ts[operand.pos] == TokLParen then Failed(Unsupported) else operand
  }

  function Primary(ts: seq<Token>, pos: nat, depth: nat): (o: Outcome)
    requires pos <= |ts|
    ensures o.Parsed? ==> pos < o.pos <= |ts|
    decreases |ts| - pos, 5
  {
    if pos == |ts| then Failed(Unsupported) else
    match ts[pos]
    case TokNumber(lexeme) => Parsed(Number(lexeme), pos + 1)
    case TokString(raw) => Parsed(Text(Unescaped(raw)), pos + 1)
    case TokYes => Parsed(Boolean(true), pos + 1)
    case TokNo => Parsed(Boolean(false), pos + 1)
    case TokId(name) => Parsed(VarAccess(name), pos + 1)
    case TokLParen =>
      var inner := Expression(ts, pos + 1, depth);
      if inner.Failed? then inner
      else if inner.pos < |ts| && ts[inner.pos] == TokRParen then Parsed(inner.node, inner.pos + 1)
      else Failed(Unsupported)
    case _ => Failed(Unsupported)
  }

  // ---- The parser ----

  /** The result of a method: the source throws on failure. */
  datatype Result = Ok(node: Expr) | Error(reason: Failure)

  function Seen(r: Result, pos: nat): Outcome { if r.Ok? then Parsed(r.node, pos) else Failed(r.reason) }

  class SubParser {
    const tokens: seq<Token>
    var pos: nat
    var exprDepth: nat

    constructor (tokens: seq<Token>)
      ensures this.tokens == tokens && pos == 0 && exprDepth == 0
    {
      this.tokens, pos, exprDepth := tokens, 0, 0;
    }

    predicate Valid() reads this { pos <= |tokens| }

    predicate Check(t: Token) reads this { pos < |tokens| && tokens[pos] == t }

    method Match(t: Token) returns (ok: bool)
      requires Valid()
      modifies this`pos
      ensures Valid() && ok == old(Check(t)) && pos == old(pos) + (if ok then 1 else 0)
    {
      ok := Check(t);
      if ok { pos := pos + 1; }
    }

    method ParseExpression() returns (r: Result)
      requires Valid()
      modifies this
      ensures Valid() && exprDepth == old(exprDepth) && pos >= old(pos)
      ensures Seen(r, pos) == Expression(tokens, old(pos), old(exprDepth))
      decreases |tokens| - pos, 20
    {
      hide LeftLevel;
      exprDepth := exprDepth + 1;
      if exprDepth > MAX_DEPTH {
        exprDepth := exprDepth - 1;
        return Error(TooDeep);
      }
      r := ParseLeft(0);
      exprDepth := exprDepth - 1;
    }

    /** Takes the binary operator of a level; after `not` without `in` it steps back. */
    method MatchOperator(level: nat) returns (op: Option<BinaryOp>)
      requires Valid()
      modifies this`pos
      ensures Valid() && op == if HasOperator(tokens, old(pos), level) then OperatorAt(tokens, old(pos)) else None
      ensures pos == old(pos) + (if op.Some? then |OpTokens(op.value)| else 0)
    {
      if pos == |tokens| { return None; }
      var isNot := level == 6;
      if isNot { isNot := Match(TokNot); }
      if isNot {
        var isIn := Match(TokIn);
        if isIn { return Some(NotIn); }
        pos := pos - 1;
        return None;
      }
      var symbol := SymbolOf(tokens[pos]);
      if symbol.Some? && Level(symbol.value) == level {
        pos := pos + 1;
        return symbol;
      }
      return None;
    }

    method ParseLeft(level: nat) returns (r: Result)
      requires Valid() && level <= POWER_LEVEL
      modifies this
      ensures Valid() && exprDepth == old(exprDepth) && pos >= old(pos)
      ensures Seen(r, pos) == LeftLevel(tokens, old(pos), old(exprDepth), level)
      decreases |tokens| - pos, 19 - level
    {
      hide OperatorAt, PowerLevel, Level, OpTokens;
      if level == POWER_LEVEL {
        r := ParsePower();
        return;
      }
      r := ParseLeft(level + 1);
      if r.Error? { return; }
      var node := r.node;
      ghost var outcome := LeftLevel(tokens, old(pos), old(exprDepth), level);
      while true
        invariant Valid() && pos > old(pos) && exprDepth == old(exprDepth)
        invariant LeftChain(tokens, node, pos, exprDepth, level) == outcome
        decreases |tokens| - pos
      {
        ghost var at := pos;
        var op := MatchOperator(level);
        if op.None? { break; }
        OpHasTokens(op.value);
        r := ParseLeft(level + 1);
        if r.Error? { return; }
        node := Binary(node, op.value, r.node);
      }
      r := Ok(node);
    }

    method ParsePower() returns (r: Result)
      requires Valid()
      modifies this
      ensures Valid() && exprDepth == old(exprDepth) && pos >= old(pos)
      ensures Seen(r, pos) == PowerLevel(tokens, old(pos), old(exprDepth))
      decreases |tokens| - pos, 8
    {
      hide OperatorAt, UnaryLevel, Level, OpTokens, HasOperator;
      r := ParseUnary();
      if r.Error? { return; }
      var node := r.node;
      ghost var outcome := PowerLevel(tokens, old(pos), old(exprDepth));
      while true
        invariant Valid() && pos > old(pos) && exprDepth == old(exprDepth)
        invariant PowerChain(tokens, node, pos, exprDepth) == outcome
        decreases |tokens| - pos
      {
        PowIsPow(tokens, pos);
        var isPow := Match(TokPow);
        if !isPow { break; }
        r := ParsePower();
        if r.Error? { return; }
        node := Binary(node, Pow, r.node);
      }
      r := Ok(node);
    }

    method ParseUnary() returns (r: Result)
      requires Valid()
      modifies this
      ensures Valid() && exprDepth == old(exprDepth) && pos >= old(pos)
      ensures Seen(r, pos) == UnaryLevel(tokens, old(pos), old(exprDepth))
      decreases |tokens| - pos, 6
    {
      hide Primary;
      if pos < |tokens| && UnarySymbol(tokens[pos]).Some? {
        var op := UnarySymbol(tokens[pos]).value;
        pos := pos + 1;
        r := ParseUnary();
        if r.Ok? { r := Ok(Unary(op, r.node)); }
        return;
      }
      r := ParsePrimary();
      if r.Ok? && Check(TokLParen) { r := Error(Unsupported); }
    }

    method ParsePrimary() returns (r: Result)
      requires Valid()
      modifies this
      ensures Valid() && exprDepth == old(exprDepth) && pos >= old(pos)
      ensures Seen(r, pos) == Primary(tokens, old(pos), old(exprDepth))
      decreases |tokens| - pos, 5
    {
      hide Expression, Unescaped;
      if pos == |tokens| { return Error(Unsupported); }
      var t := tokens[pos];
      pos := pos + 1;
      match t
      case TokNumber(lexeme) => r := Ok(Number(lexeme));
      case TokString(raw) =>
        var text := UnescapeStringLiteral(raw);
        r := Ok(Text(text));
      case TokYes => r := Ok(Boolean(true));
      case TokNo => r := Ok(Boolean(false));
      case TokId(name) => r := Ok(VarAccess(name));
      case TokLParen => r := ParseParens();
      case _ =>
        pos := pos - 1;
        r := Error(Unsupported);
    }

    /** After an opening parenthesis. */
    method ParseParens() returns (r: Result)
      requires Valid() && pos >= 1 && tokens[pos - 1] == TokLParen
      modifies this
      ensures Valid() && exprDepth == old(exprDepth) && pos >= old(pos)
      ensures Seen(r, pos) == Primary(tokens, old(pos) - 1, old(exprDepth))
      decreases |tokens| - pos, 21
    {
      hide Expression, Unescaped;
      r := ParseExpression();
      if r.Error? { return; }
      var closed := Match(TokRParen);
      if !closed { r := Error(Unsupported); }
    }
  }

  lemma OpHasTokens(op: BinaryOp)
    ensures |OpTokens(op)| >= 1
  {}

  lemma PowIsPow(ts: seq<Token>, pos: nat)
    ensures HasOperator(ts, pos, POWER_LEVEL) <==> pos < |ts| && ts[pos] == TokPow
  {}
}
