/**
 * Parsing the printed tokens of an expression gives the expression back, exactly when fewer than
 * 100 parentheses nest in it.
 */
module ExpressionRoundTrip {
  import opened StringLiteral
  import opened Expressions
  import opened ExpressionParser

  const UNARY_LEVEL: nat := 11

  const PRIMARY_LEVEL: nat := 12

  /** The lowest level whose method builds e without parentheses. */
  function Rank(e: Expr): (level: nat)
    ensures level <= PRIMARY_LEVEL
  {
    match e
    case Binary(_, op, _) => Level(op)
    case Unary(_, _) => UNARY_LEVEL
    case _ => PRIMARY_LEVEL
  }

  /** The formatter's precedences and the parser's levels are the same order. */
  lemma PrecedencesAgree(e: Expr, op: BinaryOp)
    ensures NeedsParens(e, BinopPrec(op), false) <==> if op == Pow then Rank(e) <= POWER_LEVEL else Rank(e) < Level(op)
    ensures NeedsParens(e, BinopPrec(op), true) <==> if op == Pow then Rank(e) < POWER_LEVEL else Rank(e) <= Level(op)
    ensures ExprPrec(e) < 90 <==> Rank(e) < UNARY_LEVEL
  {}

  ghost predicate At(ts: seq<Token>, pos: nat, q: seq<Token>) { pos + |q| <= |ts| && ts[pos..pos + |q|] == q }

  lemma AtSplit(ts: seq<Token>, pos: nat, a: seq<Token>, b: seq<Token>)
    requires At(ts, pos, a + b)
    ensures At(ts, pos, a) && At(ts, pos + |a|, b)
  {
    assert (a + b)[..|a|] == a && (a + b)[|a|..] == b;
  }

  lemma AtFirst(ts: seq<Token>, pos: nat, t: Token)
    requires At(ts, pos, [t])
    ensures pos < |ts| && ts[pos] == t
  {
    assert ts[pos..pos + 1][0] == ts[pos];
  }

  /** What follows an operand of a level: the end, a closing parenthesis, or a weaker operator. */
  predicate Stops(ts: seq<Token>, pos: nat, level: nat) {
    || pos == |ts|
    || (pos < |ts| && ts[pos] == TokRParen)
    || (OperatorAt(ts, pos).Some? && Level(OperatorAt(ts, pos).value) < level)
  }

  lemma StopFacts(ts: seq<Token>, pos: nat, level: nat, above: nat)
    requires Stops(ts, pos, level) && level <= above
    ensures !HasOperator(ts, pos, above) && Stops(ts, pos, above)
    ensures pos <= |ts| && (pos < |ts| ==> ts[pos] != TokLParen)
  {}

  lemma TwoTokens(ts: seq<Token>, pos: nat, t: Token, u: Token)
    requires At(ts, pos, [t, u])
    ensures pos + 1 < |ts| && ts[pos] == t && ts[pos + 1] == u
  {
    assert ts[pos..pos + 2][0] == ts[pos] && ts[pos..pos + 2][1] == ts[pos + 1];
  }

  lemma OperatorStands(ts: seq<Token>, pos: nat, op: BinaryOp)
    requires At(ts, pos, OpTokens(op))
    ensures OperatorAt(ts, pos) == Some(op) && HasOperator(ts, pos, Level(op)) && |OpTokens(op)| >= 1
  {
    hide At, Level;
    if op == NotIn {
      TwoTokens(ts, pos, TokNot, TokIn);
    } else {
      SymbolStands(op);
      AtFirst(ts, pos, OpTokens(op)[0]);
    }
  }

  lemma SymbolStands(op: BinaryOp)
    requires op != NotIn
    ensures |OpTokens(op)| == 1 && SymbolOf(OpTokens(op)[0]) == Some(op) && OpTokens(op)[0] != TokNot && OpTokens(op) == [OpTokens(op)[0]]
  {}

  /** The outcome for an expression that ends at end. */
  function Expected(e: Expr, end: nat, depth: nat, nesting: nat): Outcome {
    if depth + nesting <= MAX_DEPTH then Parsed(e, end) else Failed(TooDeep)
  }

  /** What a strong level builds, a weaker level passes on. */
  lemma {:induction false} Lift(ts: seq<Token>, pos: nat, depth: nat, level: nat, o: Outcome)
    requires pos <= |ts| && level <= POWER_LEVEL && UnaryLevel(ts, pos, depth) == o
    requires o.Parsed? ==> Stops(ts, o.pos, level)
    ensures LeftLevel(ts, pos, depth, level) == o
    decreases POWER_LEVEL - level
  {
    hide UnaryLevel, Stops, OperatorAt, HasOperator;
    if level < POWER_LEVEL {
      if o.Parsed? {
        StopFacts(ts, o.pos, level, level);
        StopFacts(ts, o.pos, level, level + 1);
      }
      Lift(ts, pos, depth, level + 1, o);
    } else {
      if o.Parsed? { StopFacts(ts, o.pos, level, POWER_LEVEL); }
      assert PowerLevel(ts, pos, depth) == o;
    }
  }

  // ---- One step of each method ----

  lemma ParensStep(ts: seq<Token>, pos: nat, depth: nat, inner: Outcome)
    requires pos < |ts| && ts[pos] == TokLParen && Expression(ts, pos + 1, depth) == inner
    requires inner.Parsed? ==> inner.pos < |ts| && ts[inner.pos] == TokRParen && !(inner.pos + 1 < |ts| && ts[inner.pos + 1] == TokLParen)
    ensures UnaryLevel(ts, pos, depth) == if inner.Parsed? then Parsed(inner.node, inner.pos + 1) else inner
  {
    hide Expression;
  }

  lemma PrefixStep(ts: seq<Token>, pos: nat, depth: nat, op: UnaryOp, right: Outcome)
    requires pos < |ts| && ts[pos] == UnaryToken(op) && UnaryLevel(ts, pos + 1, depth) == right
    ensures UnaryLevel(ts, pos, depth) == if right.Parsed? then Parsed(Unary(op, right.node), right.pos) else right
  {
    hide Primary;
  }

  lemma ChainStep(ts: seq<Token>, node: Expr, pos: nat, depth: nat, op: BinaryOp, right: Outcome)
    requires op != Pow && OperatorAt(ts, pos) == Some(op) && LeftLevel(ts, pos + |OpTokens(op)|, depth, Level(op) + 1) == right
    ensures LeftChain(ts, node, pos, depth, Level(op)) ==
            if right.Parsed? then LeftChain(ts, Binary(node, op, right.node), right.pos, depth, Level(op)) else right
  {
    hide OperatorAt, OpTokens, LeftLevel;
  }

  lemma PowerStep(ts: seq<Token>, pos: nat, depth: nat, first: Outcome, right: Outcome)
    requires pos <= |ts| && UnaryLevel(ts, pos, depth) == first
    requires first.Parsed? ==> OperatorAt(ts, first.pos) == Some(Pow) && PowerLevel(ts, first.pos + 1, depth) == right
    requires first.Parsed? && right.Parsed? ==> !HasOperator(ts, right.pos, POWER_LEVEL)
    ensures PowerLevel(ts, pos, depth) == if first.Failed? then first else if right.Failed? then right
                                          else Parsed(Binary(first.node, Pow, right.node), right.pos)
  {
    hide UnaryLevel, OperatorAt;
    if first.Parsed? && right.Parsed? {
      var node := Binary(first.node, Pow, right.node);
      assert PowerChain(ts, node, right.pos, depth) == Parsed(node, right.pos);
    }
  }

  lemma ParenStops(ts: seq<Token>, pos: nat, level: nat)
    requires pos < |ts| && ts[pos] == TokRParen
    ensures Stops(ts, pos, level)
  {}

  lemma UnaryFacts(op: UnaryOp, o: Expr)
    ensures var e := Unary(op, o);
            && Printed(e) == [UnaryToken(op)] + Wrapped(Printed(o), ExprPrec(o) < 90) && Nesting(e) == Deepen(Nesting(o), ExprPrec(o) < 90)
  {}

  lemma BinaryFacts(l: Expr, op: BinaryOp, r: Expr)
    ensures Nesting(Binary(l, op, r)) ==
            Max(Deepen(Nesting(l), NeedsParens(l, BinopPrec(op), false)), Deepen(Nesting(r), NeedsParens(r, BinopPrec(op), true)))
    ensures op != Pow ==> Level(op) < POWER_LEVEL
  {
    hide NeedsParens, BinopPrec;
  }

  // ---- Operands ----

  /** A parenthesised expression is a primary. */
  lemma ParsesParens(e: Expr, ts: seq<Token>, pos: nat, depth: nat)
    requires At(ts, pos, [TokLParen] + Printed(e) + [TokRParen]) && Stops(ts, pos + |Printed(e)| + 2, UNARY_LEVEL)
    ensures UnaryLevel(ts, pos, depth) == Expected(e, pos + |Printed(e)| + 2, depth, Nesting(e) + 1)
    decreases e, 50
  {
    hide Printed, Nesting, LeftLevel, UnaryLevel, At, Stops, Level, OperatorAt;
    var end := pos + 1 + |Printed(e)|;
    AtSplit(ts, pos, [TokLParen] + Printed(e), [TokRParen]);
    AtSplit(ts, pos, [TokLParen], Printed(e));
    AtFirst(ts, pos, TokLParen);
    AtFirst(ts, end, TokRParen);
    ParenStops(ts, end, 0);
    StopFacts(ts, end + 1, UNARY_LEVEL, UNARY_LEVEL);
    if depth + 1 <= MAX_DEPTH { ParsesLevel(e, ts, pos + 1, depth + 1, 0); }
    ParensStep(ts, pos, depth, Expected(e, end, depth, Nesting(e) + 1));
  }

  /** An operand of the level above, in parentheses when it is weaker. */
  lemma ParsesOperand(e: Expr, ts: seq<Token>, pos: nat, depth: nat, level: nat, parens: bool)
    requires level <= POWER_LEVEL && depth <= MAX_DEPTH && (!parens ==> Rank(e) >= level)
    requires At(ts, pos, Wrapped(Printed(e), parens)) && Stops(ts, pos + |Wrapped(Printed(e), parens)|, level)
    ensures LeftLevel(ts, pos, depth, level) == Expected(e, pos + |Wrapped(Printed(e), parens)|, depth, Deepen(Nesting(e), parens))
    decreases e, 60
  {
    hide Printed, Nesting, LeftLevel, UnaryLevel, Rank, At, Stops;
    if parens {
      StopFacts(ts, pos + |Wrapped(Printed(e), parens)|, level, UNARY_LEVEL);
      ParsesParens(e, ts, pos, depth);
      Lift(ts, pos, depth, level, UnaryLevel(ts, pos, depth));
    } else {
      ParsesLevel(e, ts, pos, depth, level);
    }
  }

  // ---- Unary operators and leaves ----

  lemma ParsesUnary(e: Expr, ts: seq<Token>, pos: nat, depth: nat)
    requires Rank(e) >= UNARY_LEVEL && depth <= MAX_DEPTH
    requires At(ts, pos, Printed(e)) && Stops(ts, pos + |Printed(e)|, UNARY_LEVEL)
    ensures UnaryLevel(ts, pos, depth) == Expected(e, pos + |Printed(e)|, depth, Nesting(e))
    decreases e, 10
  {
    hide Stops, At, Level, BinopPrec, ExprPrec, Printed, Nesting, UnaryLevel;
    match e
    case Unary(op, o) => ParsesPrefix(op, o, ts, pos, depth);
    case Binary(_, _, _) =>
    case _ => ParsesLeaf(e, ts, pos, depth);
  }

  /** A leaf is one token. */
  function LeafToken(e: Expr): Token
    requires !e.Unary? && !e.Binary?
  {
    match e
    case Number(lexeme) => TokNumber(lexeme)
    case Boolean(value) => if value then TokYes else TokNo
    case VarAccess(name) => TokId(name)
    case Text(bytes) => TokString(Escaped(bytes))
  }

  lemma LeafFacts(e: Expr)
    requires !e.Unary? && !e.Binary?
    ensures Printed(e) == [LeafToken(e)] && Nesting(e) == 0
  {}

  lemma PrimaryLeaf(e: Expr, ts: seq<Token>, pos: nat, depth: nat)
    requires !e.Unary? && !e.Binary? && pos < |ts| && ts[pos] == LeafToken(e)
    ensures Primary(ts, pos, depth) == Parsed(e, pos + 1) && UnarySymbol(ts[pos]).None?
  {
    hide Expression, Unescaped, Escaped;
    if e.Text? { UnescapeInvertsEscape(e.bytes); }
  }

  lemma ParsesLeaf(e: Expr, ts: seq<Token>, pos: nat, depth: nat)
    requires !e.Unary? && !e.Binary? && depth <= MAX_DEPTH
    requires At(ts, pos, Printed(e)) && Stops(ts, pos + |Printed(e)|, UNARY_LEVEL)
    ensures UnaryLevel(ts, pos, depth) == Expected(e, pos + |Printed(e)|, depth, Nesting(e))
  {
    hide Stops, At, Level, Printed, Nesting, Primary, LeafToken, UnarySymbol;
    LeafFacts(e);
    AtFirst(ts, pos, LeafToken(e));
    StopFacts(ts, pos + 1, UNARY_LEVEL, UNARY_LEVEL);
    PrimaryLeaf(e, ts, pos, depth);
  }

  lemma ParsesPrefix(op: UnaryOp, o: Expr, ts: seq<Token>, pos: nat, depth: nat)
    requires depth <= MAX_DEPTH
    requires At(ts, pos, Printed(Unary(op, o))) && Stops(ts, pos + |Printed(Unary(op, o))|, UNARY_LEVEL)
    ensures UnaryLevel(ts, pos, depth) == Expected(Unary(op, o), pos + |Printed(Unary(op, o))|, depth, Nesting(Unary(op, o)))
    decreases o, 60
  {
    hide Stops, At, Printed, Nesting, Level, BinopPrec, ExprPrec, UnaryLevel, Rank, UnaryToken;
    var parens := ExprPrec(o) < 90;
    UnaryFacts(op, o);
    PrecedencesAgree(o, Or);
    AtSplit(ts, pos, [UnaryToken(op)], Wrapped(Printed(o), parens));
    AtFirst(ts, pos, UnaryToken(op));
    if parens {
      ParsesParens(o, ts, pos + 1, depth);
    } else {
      ParsesUnary(o, ts, pos + 1, depth);
    }
    PrefixStep(ts, pos, depth, op, UnaryLevel(ts, pos + 1, depth));
  }

  // ---- Binary operators ----

  lemma PrintedSplit(l: Expr, op: BinaryOp, r: Expr, ts: seq<Token>, pos: nat)
    requires At(ts, pos, Printed(Binary(l, op, r)))
    ensures var lt := Wrapped(Printed(l), NeedsParens(l, BinopPrec(op), false));
            var rt := Wrapped(Printed(r), NeedsParens(r, BinopPrec(op), true));
            var mid := pos + |lt|;
            && At(ts, pos, lt) && OperatorAt(ts, mid) == Some(op) && HasOperator(ts, mid, Level(op)) && |OpTokens(op)| >= 1
            && At(ts, mid + |OpTokens(op)|, rt) && mid + |OpTokens(op)| + |rt| == pos + |Printed(Binary(l, op, r))|
  {
    hide At, Printed, Wrapped, NeedsParens, BinopPrec, OpTokens, OperatorAt, HasOperator, Level;
    var lt := Wrapped(Printed(l), NeedsParens(l, BinopPrec(op), false));
    var rt := Wrapped(Printed(r), NeedsParens(r, BinopPrec(op), true));
    PrintedBinary(l, op, r);
    AtSplit(ts, pos, lt + OpTokens(op), rt);
    AtSplit(ts, pos, lt, OpTokens(op));
    OperatorStands(ts, pos + |lt|, op);
  }

  /** A chain of left-associative operators reaches its expression, and may go on from there. */
  lemma ParsesChain(e: Expr, ts: seq<Token>, pos: nat, depth: nat, level: nat)
    requires level < POWER_LEVEL && Rank(e) >= level && depth <= MAX_DEPTH
    requires At(ts, pos, Printed(e)) && Stops(ts, pos + |Printed(e)|, level + 1)
    ensures LeftLevel(ts, pos, depth, level) ==
            if depth + Nesting(e) <= MAX_DEPTH then LeftChain(ts, e, pos + |Printed(e)|, depth, level) else Failed(TooDeep)
    decreases e, 2 * (POWER_LEVEL - level) + 20
  {
    hide Printed, Nesting, Stops, At, HasOperator, OperatorAt, LeftChain;
    if Rank(e) > level {
      ParsesLevel(e, ts, pos, depth, level + 1);
    } else {
      ParsesLink(e.left, e.op, e.right, ts, pos, depth);
    }
  }

  lemma ParsesLink(l: Expr, op: BinaryOp, r: Expr, ts: seq<Token>, pos: nat, depth: nat)
    requires op != Pow && depth <= MAX_DEPTH && At(ts, pos, Printed(Binary(l, op, r)))
    requires Stops(ts, pos + |Printed(Binary(l, op, r))|, Level(op) + 1)
    ensures Level(op) < POWER_LEVEL
    ensures var e := Binary(l, op, r);
            LeftLevel(ts, pos, depth, Level(op)) ==
            if depth + Nesting(e) <= MAX_DEPTH then LeftChain(ts, e, pos + |Printed(e)|, depth, Level(op)) else Failed(TooDeep)
    decreases Binary(l, op, r), 0
  {
    hide Printed, Nesting, Stops, At, OpTokens, OperatorAt, NeedsParens, BinopPrec, Level, Rank, LeftLevel, LeftChain, HasOperator;
    BinaryFacts(l, op, r);
    var level := Level(op);
    var lp, rp := NeedsParens(l, BinopPrec(op), false), NeedsParens(r, BinopPrec(op), true);
    PrecedencesAgree(l, op);
    PrecedencesAgree(r, op);
    PrintedSplit(l, op, r, ts, pos);
    var mid := pos + |Wrapped(Printed(l), lp)|;
    OperatorStops(ts, mid, op);
    ParsesOperand(r, ts, mid + |OpTokens(op)|, depth, level + 1, rp);
    if lp {
      ParsesOperand(l, ts, pos, depth, level + 1, true);
      FirstOfChain(ts, pos, depth, level);
    } else {
      ParsesChain(l, ts, pos, depth, level);
    }
    ChainStep(ts, l, mid, depth, op, LeftLevel(ts, mid + |OpTokens(op)|, depth, level + 1));
  }

  lemma FirstOfChain(ts: seq<Token>, pos: nat, depth: nat, level: nat)
    requires pos <= |ts| && level < POWER_LEVEL
    ensures var first := LeftLevel(ts, pos, depth, level + 1);
            LeftLevel(ts, pos, depth, level) == if first.Failed? then first else LeftChain(ts, first.node, first.pos, depth, level)
  {
    hide LeftChain;
  }

  lemma OperatorStops(ts: seq<Token>, pos: nat, op: BinaryOp)
    requires OperatorAt(ts, pos) == Some(op)
    ensures Stops(ts, pos, Level(op) + 1)
  {}

  lemma ParsesPower(e: Expr, ts: seq<Token>, pos: nat, depth: nat)
    requires Rank(e) >= POWER_LEVEL && depth <= MAX_DEPTH
    requires At(ts, pos, Printed(e)) && Stops(ts, pos + |Printed(e)|, POWER_LEVEL)
    ensures PowerLevel(ts, pos, depth) == Expected(e, pos + |Printed(e)|, depth, Nesting(e))
    decreases e, 11
  {
    hide Printed, Stops, At, OpTokens, OperatorAt, NeedsParens, BinopPrec, UnaryLevel;
    StopFacts(ts, pos + |Printed(e)|, POWER_LEVEL, POWER_LEVEL);
    StopFacts(ts, pos + |Printed(e)|, POWER_LEVEL, UNARY_LEVEL);
    if e.Binary? {
      ParsesPowerOf(e.left, e.right, ts, pos, depth);
    } else {
      ParsesUnary(e, ts, pos, depth);
    }
  }

  lemma ParsesPowerOf(l: Expr, r: Expr, ts: seq<Token>, pos: nat, depth: nat)
    requires depth <= MAX_DEPTH
    requires At(ts, pos, Printed(Binary(l, Pow, r))) && Stops(ts, pos + |Printed(Binary(l, Pow, r))|, POWER_LEVEL)
    ensures PowerLevel(ts, pos, depth) ==
            Expected(Binary(l, Pow, r), pos + |Printed(Binary(l, Pow, r))|, depth, Nesting(Binary(l, Pow, r)))
    decreases Binary(l, Pow, r), 0
  {
    hide Printed, Nesting, Stops, At, OperatorAt, NeedsParens, BinopPrec, UnaryLevel, PowerLevel, HasOperator;
    BinaryFacts(l, Pow, r);
    var lp, rp := NeedsParens(l, BinopPrec(Pow), false), NeedsParens(r, BinopPrec(Pow), true);
    PrecedencesAgree(l, Pow);
    PrecedencesAgree(r, Pow);
    PrintedSplit(l, Pow, r, ts, pos);
    var mid := pos + |Wrapped(Printed(l), lp)|;
    StopFacts(ts, pos + |Printed(Binary(l, Pow, r))|, POWER_LEVEL, POWER_LEVEL);
    OperatorStops(ts, mid, Pow);
    if lp {
      ParsesParens(l, ts, pos, depth);
    } else {
      ParsesUnary(l, ts, pos, depth);
    }
    ParsesOperand(r, ts, mid + 1, depth, POWER_LEVEL, rp);
    PowerStep(ts, pos, depth, UnaryLevel(ts, pos, depth), PowerLevel(ts, mid + 1, depth));
  }

  /** An expression is built by every level that is not too strong for it. */
  lemma ParsesLevel(e: Expr, ts: seq<Token>, pos: nat, depth: nat, level: nat)
    requires level <= POWER_LEVEL && Rank(e) >= level && depth <= MAX_DEPTH
    requires At(ts, pos, Printed(e)) && Stops(ts, pos + |Printed(e)|, level)
    ensures LeftLevel(ts, pos, depth, level) == Expected(e, pos + |Printed(e)|, depth, Nesting(e))
    decreases e, 2 * (POWER_LEVEL - level) + 21
  {
    hide Printed, Nesting, Stops, At, HasOperator, OperatorAt, PowerLevel;
    StopFacts(ts, pos + |Printed(e)|, level, level);
    StopFacts(ts, pos + |Printed(e)|, level, level + 1);
    if level == POWER_LEVEL {
      ParsesPower(e, ts, pos, depth);
    } else {
      ParsesChain(e, ts, pos, depth, level);
    }
  }

  // ---- Main results ----

  /**
   * Parsing what the formatter prints gives the expression back and consumes everything, exactly
   * when fewer than 100 parentheses nest in the print; otherwise the parser reports the nesting.
   */
  lemma PrintThenParse(e: Expr)
    ensures Expression(Printed(e), 0, 0) ==
            if Deepest(Printed(e), 0) < 100 then Parsed(e, |Printed(e)|) else Failed(TooDeep)
  {
    hide Printed, Deepest, LeftLevel, Nesting;
    NestingIsPrinted(e, 0);
    assert At(Printed(e), 0, Printed(e));
    ParsesLevel(e, Printed(e), 0, 1, 0);
  }

  /** Different expressions that are not too deep are printed differently. */
  lemma PrintsApart(a: Expr, b: Expr)
    requires Deepest(Printed(a), 0) < 100 && Printed(a) == Printed(b)
    ensures a == b
  {
    hide Printed, Deepest, Expression;
    PrintThenParse(a);
    PrintThenParse(b);
  }

  /** The formatter and the parser, one after the other. */
  method FormatThenParse(e: Expr) returns (r: Result)
    ensures r == if Deepest(Printed(e), 0) < 100 then Ok(e) else Error(TooDeep)
  {
    hide Printed, Deepest, Expression;
    var formatter := new Formatter();
    formatter.EmitExpr(e);
    var parser := new SubParser(formatter.out);
    r := parser.ParseExpression();
    assert formatter.out == Printed(e);
    PrintThenParse(e);
  }
}
