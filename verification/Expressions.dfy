/**
 * Operator expressions, their tokens, and the formatter, which prints an expression with the
 * parentheses it needs and no others.
 */
module Expressions {
  import opened Bytes
  import opened StringLiteral

  datatype BinaryOp =
    | Or | And | BitOr | BitXor | BitAnd | Eq | Neq | Lt | Le | Gt | Ge | In | NotIn
    | Shl | Shr | Add | Sub | Mul | Div | Mod | FloorDiv | Pow

  datatype UnaryOp = Not | Minus | BitNot

  datatype Expr =
    | Number(lexeme: string)
    | Boolean(value: bool)
    | VarAccess(name: string)
    | Text(bytes: seq<byte>)
    | Unary(uop: UnaryOp, operand: Expr)
    | Binary(left: Expr, op: BinaryOp, right: Expr)

  /** A token; the text of a string token is still escaped. */
  datatype Token =
    | TokNumber(lexeme: string) | TokString(raw: seq<byte>) | TokYes | TokNo | TokId(name: string)
    | TokLParen | TokRParen
    | TokOr | TokAnd | TokBitOr | TokBitXor | TokBitAnd | TokEq | TokNeq | TokLt | TokLe | TokGt | TokGe
    | TokIn | TokNot | TokLShift | TokRShift | TokPlus | TokMinus | TokMul | TokDiv | TokMod | TokFloorDiv
    | TokPow | TokBitNot

  // ---- Precedence, as the formatter sees it ----

  function BinopPrec(op: BinaryOp): nat {
    match op
    case Or => 10
    case And => 20
    case BitOr => 22
    case BitXor => 24
    case BitAnd => 26
    case Eq | Neq => 30
    case Lt | Le | Gt | Ge | In | NotIn => 40
    case Shl | Shr => 45
    case Add | Sub => 50
    case Mul | Div | Mod | FloorDiv => 60
    case Pow => 70
  }

  function ExprPrec(e: Expr): nat {
    match e
    case Binary(_, op, _) => BinopPrec(op)
    case Unary(_, _) => 90
    case _ => 100
  }

  /** Whether an operand of an operator of precedence parent is put in parentheses. */
  predicate NeedsParens(e: Expr, parent: nat, rightSide: bool) {
    var p := ExprPrec(e);
    if e.Binary? && (rightSide <==> e.op != Pow) then p <= parent else p < parent
  }

  // ---- Printing ----

  function OpTokens(op: BinaryOp): seq<Token> {
    match op
    case Or => [TokOr]
    case And => [TokAnd]
    case BitOr => [TokBitOr]
    case BitXor => [TokBitXor]
    case BitAnd => [TokBitAnd]
    case Eq => [TokEq]
    case Neq => [TokNeq]
    case Lt => [TokLt]
    case Le => [TokLe]
    case Gt => [TokGt]
    case Ge => [TokGe]
    case In => [TokIn]
    case NotIn => [TokNot, TokIn]
    case Shl => [TokLShift]
    case Shr => [TokRShift]
    case Add => [TokPlus]
    case Sub => [TokMinus]
    case Mul => [TokMul]
    case Div => [TokDiv]
    case Mod => [TokMod]
    case FloorDiv => [TokFloorDiv]
    case Pow => [TokPow]
  }

  function UnaryToken(op: UnaryOp): Token {
    match op
    case Not => TokNot
    case Minus => TokMinus
    case BitNot => TokBitNot
  }

  function Wrapped(ts: seq<Token>, parens: bool): seq<Token> { if parens then [TokLParen] + ts + [TokRParen] else ts }

  function Printed(e: Expr): seq<Token> {
    match e
    case Number(lexeme) => [TokNumber(lexeme)]
    case Boolean(value) => [if value then TokYes else TokNo]
    case VarAccess(name) => [TokId(name)]
    case Text(bytes) => [TokString(Escaped(bytes))]
    case Unary(op, o) => [UnaryToken(op)] + Wrapped(Printed(o), ExprPrec(o) < 90)
    case Binary(l, op, r) =>
      Wrapped(Printed(l), NeedsParens(l, BinopPrec(op), false)) + OpTokens(op)
      + Wrapped(Printed(r), NeedsParens(r, BinopPrec(op), true))
  }

  // ---- How deep the printed parentheses nest ----

  function Deepen(n: nat, parens: bool): nat { if parens then n + 1 else n }

  function Max(a: nat, b: nat): nat { if a < b then b else a }

  function Nesting(e: Expr): nat {
    match e
    case Unary(_, o) => Deepen(Nesting(o), ExprPrec(o) < 90)
    case Binary(l, op, r) =>
      Max(Deepen(Nesting(l), NeedsParens(l, BinopPrec(op), false)), Deepen(Nesting(r), NeedsParens(r, BinopPrec(op), true)))
    case _ => 0
  }

  /** The largest number of parentheses open at once while reading ts, when open of them are open before. */
  function Deepest(ts: seq<Token>, open: int): int {
    if ts == [] then open
    else
      var next := if ts[0] == TokLParen then open + 1 else if ts[0] == TokRParen then open - 1 else open;
      var rest := Deepest(ts[1..], next);
      if rest < open then open else rest
  }

  function Balance(ts: seq<Token>): int {
    if ts == [] then 0
    else (if ts[0] == TokLParen then 1 else if ts[0] == TokRParen then -1 else 0) + Balance(ts[1..])
  }

  lemma {:induction false} JoinDepth(a: seq<Token>, b: seq<Token>, open: int)
    ensures Balance(a + b) == Balance(a) + Balance(b)
    ensures var x, y := Deepest(a, open), Deepest(b, open + Balance(a)); Deepest(a + b, open) == if x < y then y else x
    ensures Deepest(b, open) >= open
    decreases |a|
  {
    if a == [] {
      assert a + b == b;
    } else {
      assert (a + b)[1..] == a[1..] + b;
      JoinDepth(a[1..], b, if a[0] == TokLParen then open + 1 else if a[0] == TokRParen then open - 1 else open);
    }
  }

  lemma WrapDepth(ts: seq<Token>, parens: bool, n: nat, open: int)
    requires Balance(ts) == 0 && Deepest(ts, if parens then open + 1 else open) == (if parens then open + 1 else open) + n
    ensures Balance(Wrapped(ts, parens)) == 0 && Deepest(Wrapped(ts, parens), open) == open + Deepen(n, parens)
  {
    if parens {
      JoinDepth([TokLParen], ts, open);
      JoinDepth([TokLParen] + ts, [TokRParen], open);
    }
  }

  /** The nesting of an expression is what its printed tokens show, and the parentheses balance. */
  lemma {:induction false} NestingIsPrinted(e: Expr, open: int)
    ensures Balance(Printed(e)) == 0 && Deepest(Printed(e), open) == open + Nesting(e)
    decreases e, 0
  {
    hide ExprPrec, BinopPrec, NeedsParens, Deepest, Balance, Wrapped, OpTokens;
    match e
    case Unary(op, o) =>
      var ts := Wrapped(Printed(o), ExprPrec(o) < 90);
      OperandDepth(o, ExprPrec(o) < 90, open);
      FlatToken(UnaryToken(op), open);
      JoinDepth([UnaryToken(op)], ts, open);
    case Binary(l, op, r) =>
      var pl, pr := NeedsParens(l, BinopPrec(op), false), NeedsParens(r, BinopPrec(op), true);
      OperandDepth(l, pl, open);
      OperandDepth(r, pr, open);
      FlatOp(op, open);
      JoinDepth(Wrapped(Printed(l), pl), OpTokens(op), open);
      JoinDepth(Wrapped(Printed(l), pl) + OpTokens(op), Wrapped(Printed(r), pr), open);
    case _ => FlatToken(Printed(e)[0], open);
  }

  lemma OperandDepth(e: Expr, parens: bool, open: int)
    ensures var ts := Wrapped(Printed(e), parens); Balance(ts) == 0 && Deepest(ts, open) == open + Deepen(Nesting(e), parens)
    decreases e, 1
  {
    hide Printed, Nesting, Deepest, Balance;
    NestingIsPrinted(e, if parens then open + 1 else open);
    WrapDepth(Printed(e), parens, Nesting(e), open);
  }

  lemma FlatToken(t: Token, open: int)
    requires t != TokLParen && t != TokRParen
    ensures Balance([t]) == 0 && Deepest([t], open) == open
  {}

  lemma FlatOp(op: BinaryOp, open: int)
    ensures Balance(OpTokens(op)) == 0 && Deepest(OpTokens(op), open) == open
  {
    if op == NotIn {
      JoinDepth([TokNot], [TokIn], open);
    } else {
      FlatToken(OpTokens(op)[0], open);
    }
  }

  // ---- The formatter ----

  lemma PrintedBinary(l: Expr, op: BinaryOp, r: Expr)
    ensures Printed(Binary(l, op, r)) ==
            Wrapped(Printed(l), NeedsParens(l, BinopPrec(op), false)) + OpTokens(op)
            + Wrapped(Printed(r), NeedsParens(r, BinopPrec(op), true))
  {
    hide NeedsParens, BinopPrec, OpTokens, Wrapped;
  }

  lemma Regroup(out: seq<Token>, a: seq<Token>, b: seq<Token>, c: seq<Token>)
    ensures out + a + b + c == out + (a + b + c)
  {}

  class Formatter {
    var out: seq<Token>

    constructor ()
      ensures out == []
    {
      out := [];
    }

    method EmitExprPrec(node: Expr, parentPrec: nat, rightSide: bool)
      modifies this
      ensures out == old(out) + Wrapped(Printed(node), NeedsParens(node, parentPrec, rightSide))
      decreases node, 2
    {
      hide Printed;
      var p := ExprPrec(node);
      var need;
      if node.Binary? {
        var rightAssoc := node.op == Pow;
        if rightSide {
          need := if rightAssoc then p < parentPrec else p <= parentPrec;
        } else {
          need := if rightAssoc then p <= parentPrec else p < parentPrec;
        }
      } else {
        need := p < parentPrec;
      }
      if need { out := out + [TokLParen]; }
      EmitExpr(node);
      if need { out := out + [TokRParen]; }
    }

    method EmitExpr(node: Expr)
      modifies this
      ensures out == old(out) + Printed(node)
      decreases node, 1
    {
      hide NeedsParens, OpTokens, BinopPrec;
      match node
      case Number(lexeme) => out := out + [TokNumber(lexeme)];
      case Boolean(value) => out := out + [if value then TokYes else TokNo];
      case VarAccess(name) => out := out + [TokId(name)];
      case Text(bytes) => VisitText(bytes);
      case Unary(op, o) => VisitUnary(op, o);
      case Binary(l, op, r) => VisitBinary(l, op, r);
    }

    method VisitBinary(l: Expr, op: BinaryOp, r: Expr)
      modifies this
      ensures out == old(out) + Printed(Binary(l, op, r))
      decreases Binary(l, op, r), 0
    {
      hide Printed, NeedsParens, OpTokens, BinopPrec;
      var p := BinopPrec(op);
      EmitExprPrec(l, p, false);
      out := out + OpTokens(op);
      EmitExprPrec(r, p, true);
      PrintedBinary(l, op, r);
      Regroup(old(out), Wrapped(Printed(l), NeedsParens(l, p, false)), OpTokens(op), Wrapped(Printed(r), NeedsParens(r, p, true)));
    }

    method VisitText(bytes: seq<byte>)
      modifies this
      ensures out == old(out) + [TokString(Escaped(bytes))]
    {
      var literal := EscapeStringLiteral(bytes);
      assert literal[1..|literal| - 1] == Escaped(bytes);
      out := out + [TokString(literal[1..|literal| - 1])];
    }

    method VisitUnary(op: UnaryOp, o: Expr)
      modifies this
      ensures out == old(out) + ([UnaryToken(op)] + Wrapped(Printed(o), ExprPrec(o) < 90))
      decreases o, 2
    {
      hide Printed;
      out := out + [UnaryToken(op)];
      var p := ExprPrec(o);
      if p < 90 {
        out := out + [TokLParen];
        EmitExpr(o);
        out := out + [TokRParen];
      } else {
        EmitExpr(o);
      }
    }
  }
}
