/**
 * How operator expressions without parentheses are grouped: the order of binding strengths, written
 * out, and the tree the parser returns for operands joined by any operators.
 */
module Grouping {
  import opened Expressions
  import opened ExpressionParser
  import opened ExpressionRoundTrip
  import L = StringLiteral

  // ---- Binding strengths ----

  /** From the weakest to the strongest, as the parser's methods call one another. */
  function Tiers(): seq<set<BinaryOp>> {
    [{Or}, {And}, {BitOr}, {BitXor}, {BitAnd}, {Eq, Neq}, {Lt, Le, Gt, Ge, In, NotIn}, {Shl, Shr}, {Add, Sub}, {Mul, Div, Mod, FloorDiv}, {Pow}]
  }

  predicate InTier(tiers: seq<set<BinaryOp>>, i: nat, op: BinaryOp) { i < |tiers| && op in tiers[i] }

  /** a stands in a later tier than b. */
  ghost predicate Later(tiers: seq<set<BinaryOp>>, a: BinaryOp, b: BinaryOp) { exists i: nat, j: nat :: i < j && InTier(tiers, i, b) && InTier(tiers, j, a) }

  ghost predicate Together(tiers: seq<set<BinaryOp>>, a: BinaryOp, b: BinaryOp) { exists i: nat :: InTier(tiers, i, a) && InTier(tiers, i, b) }

  ghost predicate Tighter(a: BinaryOp, b: BinaryOp) { Later(Tiers(), a, b) }

  ghost predicate Equally(a: BinaryOp, b: BinaryOp) { Together(Tiers(), a, b) }

  lemma TierIs(op: BinaryOp, i: nat)
    ensures InTier(Tiers(), i, op) <==> i == Level(op)
  {}

  lemma StrengthsAre(a: BinaryOp, b: BinaryOp)
    ensures Tighter(a, b) <==> Level(a) > Level(b)
    ensures Equally(a, b) <==> Level(a) == Level(b)
  {
    hide Tiers, Later, Together, Level, OnlyIn;
    OneTier(a);
    OneTier(b);
    Places(Tiers(), a, Level(a), b, Level(b));
  }

  lemma OneTier(op: BinaryOp)
    ensures OnlyIn(Tiers(), op, Level(op))
  {
    hide Tiers, Level, InTier;
    forall i: nat ensures InTier(Tiers(), i, op) <==> i == Level(op) { TierIs(op, i); }
  }

  ghost predicate OnlyIn(tiers: seq<set<BinaryOp>>, op: BinaryOp, m: nat) { forall i: nat :: InTier(tiers, i, op) <==> i == m }

  lemma Places(tiers: seq<set<BinaryOp>>, a: BinaryOp, m: nat, b: BinaryOp, n: nat)
    requires OnlyIn(tiers, a, m) && OnlyIn(tiers, b, n)
    ensures Later(tiers, a, b) <==> m > n
    ensures Together(tiers, a, b) <==> m == n
  {
    hide InTier;
    assert InTier(tiers, m, a) && InTier(tiers, n, b);
  }

  /** Every operator stands in exactly one tier: of two operators one binds tighter or both equally. */
  lemma TiersOrder(a: BinaryOp, b: BinaryOp)
    ensures Tighter(a, b) || Tighter(b, a) || Equally(a, b)
    ensures !(Tighter(a, b) && Tighter(b, a)) && !(Tighter(a, b) && Equally(a, b))
  {
    StrengthsAre(a, b);
    StrengthsAre(b, a);
  }

  // ---- Tokens ----

  /** What is written for each operator. */
  const SYMBOLS: map<BinaryOp, seq<Token>> :=
    map[Or := [TokOr], And := [TokAnd], BitOr := [TokBitOr], BitXor := [TokBitXor], BitAnd := [TokBitAnd], Eq := [TokEq], Neq := [TokNeq],
        Lt := [TokLt], Le := [TokLe], Gt := [TokGt], Ge := [TokGe], In := [TokIn], NotIn := [TokNot, TokIn], Shl := [TokLShift],
        Shr := [TokRShift], Add := [TokPlus], Sub := [TokMinus], Mul := [TokMul], Div := [TokDiv], Mod := [TokMod],
        FloorDiv := [TokFloorDiv], Pow := [TokPow]]

  const PREFIXES: map<UnaryOp, Token> := map[Not := TokNot, Minus := TokMinus, BitNot := TokBitNot]

  lemma SymbolsAre(op: BinaryOp)
    ensures op in SYMBOLS && SYMBOLS[op] == OpTokens(op)
  {}

  lemma PrefixesAre(op: UnaryOp)
    ensures op in PREFIXES && PREFIXES[op] == UnaryToken(op)
  {}

  /** The words, names and texts of operands. */
  lemma LeafTokens(lexeme: string, name: string, text: Expr)
    ensures Printed(Boolean(true)) == [TokYes] && Printed(Boolean(false)) == [TokNo]
    ensures Printed(Number(lexeme)) == [TokNumber(lexeme)] && Printed(VarAccess(name)) == [TokId(name)]
    ensures text.Text? ==> Printed(text) == [TokString(L.Escaped(text.bytes))]
  {}

  /** What is written for an operand: a leaf is one token, and a prefix stands before its own operand. */
  lemma OperandTokens(op: UnaryOp, e: Expr)
    requires !e.Binary?
    ensures op in PREFIXES && Printed(Unary(op, e)) == [PREFIXES[op]] + Printed(e)
    ensures !e.Unary? ==> Printed(e) == [LeafToken(e)]
  {}

  // ---- Chains ----

  /** An operator and the operand behind it. */
  datatype Link = Link(op: BinaryOp, operand: Expr)

  /** The tokens of a first operand and links. */
  function Flat(first: Expr, links: seq<Link>): seq<Token> {
    if links == [] then Printed(first)
    else
      var last := links[|links| - 1];
      SymbolsAre(last.op);
      Flat(first, links[..|links| - 1]) + SYMBOLS[last.op] + Printed(last.operand)
  }

  predicate Operands(first: Expr, links: seq<Link>) { !first.Binary? && forall i | 0 <= i < |links| :: !links[i].operand.Binary? }

  /** The link at which a chain is split first: none binds weaker, and among equals it is the last, for powers the first. */
  ghost predicate Root(links: seq<Link>, k: nat) {
    && k < |links| && (forall j | 0 <= j < |links| :: !Tighter(links[k].op, links[j].op))
    && (if links[k].op == Pow then forall j | 0 <= j < k :: !Equally(links[j].op, links[k].op)
        else forall j | k < j < |links| :: !Equally(links[j].op, links[k].op))
  }

  /** The tree of a chain: split at its root, and so on in both parts. */
  ghost predicate Grouped(first: Expr, links: seq<Link>, e: Expr)
    decreases |links|
  {
    if links == [] then e == first
    else
      exists k: nat ::
        && Root(links, k) && e.Binary? && e.op == links[k].op
        && Grouped(first, links[..k], e.left) && Grouped(links[k].operand, links[k + 1..], e.right)
  }

  lemma {:induction false} FlatSplit(first: Expr, links: seq<Link>, k: nat)
    requires k < |links|
    ensures links[k].op in SYMBOLS
    ensures Flat(first, links) == Flat(first, links[..k]) + SYMBOLS[links[k].op] + Flat(links[k].operand, links[k + 1..])
    decreases |links|
  {
    hide Printed;
    SymbolsAre(links[k].op);
    var n := |links| - 1;
    if k == n {
      assert links[k + 1..] == [];
    } else {
      FlatSplit(first, links[..n], k);
      var rest := links[k + 1..];
      assert links[..n][..k] == links[..k] && links[..n][k + 1..] == rest[..|rest| - 1] && rest[|rest| - 1] == links[n];
      SymbolsAre(links[n].op);
      Associate(Flat(first, links[..k]), SYMBOLS[links[k].op], Flat(links[k].operand, rest[..|rest| - 1]), SYMBOLS[links[n].op], Printed(links[n].operand));
    }
  }

  lemma Associate(a: seq<Token>, b: seq<Token>, c: seq<Token>, d: seq<Token>, e: seq<Token>)
    ensures (a + b + c) + d + e == a + b + (c + d + e)
  {}

  /** The operator at the top of a tree is one of the chain's. */
  lemma TopIsLink(first: Expr, links: seq<Link>, e: Expr)
    requires Grouped(first, links, e) && Operands(first, links)
    ensures e.Binary? ==> exists j :: 0 <= j < |links| && links[j].op == e.op
  {}

  /** Without parentheses the tree is printed as the chain. */
  lemma {:induction false} GroupedIsPrinted(first: Expr, links: seq<Link>, e: Expr)
    requires Grouped(first, links, e) && Operands(first, links)
    ensures Printed(e) == Flat(first, links)
    decreases |links|
  {
    hide Tighter, Equally, Printed, Flat;
    if links == [] {
      FlatNone(first);
    } else {
      var k: nat :| Root(links, k) && e.Binary? && e.op == links[k].op
                    && Grouped(first, links[..k], e.left) && Grouped(links[k].operand, links[k + 1..], e.right);
      GroupedIsPrinted(first, links[..k], e.left);
      GroupedIsPrinted(links[k].operand, links[k + 1..], e.right);
      FlatSplit(first, links, k);
      LeftStands(first, links, k, e.left);
      RightStands(first, links, k, e.right);
      PrintedBinary(e.left, e.op, e.right);
      SymbolsAre(e.op);
    }
  }

  lemma FlatNone(first: Expr)
    ensures Flat(first, []) == Printed(first)
  {}

  lemma LeftStands(first: Expr, links: seq<Link>, k: nat, e: Expr)
    requires Root(links, k) && Grouped(first, links[..k], e) && Operands(first, links)
    ensures !NeedsParens(e, BinopPrec(links[k].op), false)
  {
    hide Tighter, Equally, NeedsParens, Level, Grouped;
    PrecedencesAgree(e, links[k].op);
    TopIsLink(first, links[..k], e);
    if e.Binary? {
      var j :| 0 <= j < k && links[..k][j].op == e.op;
      assert links[j].op == e.op;
      StrengthsAre(links[k].op, e.op);
      StrengthsAre(e.op, links[k].op);
      PowAlone(e.op);
      PowAlone(links[k].op);
    } else {
      AboveAll(e, links[k].op);
    }
  }

  lemma RightStands(first: Expr, links: seq<Link>, k: nat, e: Expr)
    requires Root(links, k) && Grouped(links[k].operand, links[k + 1..], e) && Operands(first, links)
    ensures !NeedsParens(e, BinopPrec(links[k].op), true)
  {
    hide Tighter, Equally, NeedsParens, Level, Grouped;
    PrecedencesAgree(e, links[k].op);
    TopIsLink(links[k].operand, links[k + 1..], e);
    if e.Binary? {
      var j :| 0 <= j < |links[k + 1..]| && links[k + 1..][j].op == e.op;
      assert links[k + 1 + j].op == e.op;
      StrengthsAre(links[k].op, e.op);
      StrengthsAre(e.op, links[k].op);
      PowAlone(e.op);
      PowAlone(links[k].op);
    } else {
      AboveAll(e, links[k].op);
    }
  }

  lemma PowAlone(op: BinaryOp)
    ensures Level(op) <= POWER_LEVEL && (Level(op) == POWER_LEVEL <==> op == Pow)
  {}

  lemma AboveAll(e: Expr, op: BinaryOp)
    requires !e.Binary?
    ensures Rank(e) > POWER_LEVEL >= Level(op)
  {}

  // ---- The parser ----

  /** Operands joined by any operators are parsed to the tree that is split at the weakest operator first. */
  lemma ChainIsGrouped(first: Expr, links: seq<Link>, e: Expr)
    requires Operands(first, links) && Grouped(first, links, e) && Deepest(Flat(first, links), 0) < 100
    ensures Expression(Flat(first, links), 0, 0) == Parsed(e, |Flat(first, links)|)
  {
    hide Grouped, Flat, Expression, Deepest;
    GroupedIsPrinted(first, links, e);
    PrintThenParse(e);
  }

  /** Every chain has such a tree. */
  lemma {:induction false} ChainHasTree(first: Expr, links: seq<Link>) returns (e: Expr)
    ensures Grouped(first, links, e)
    decreases |links|
  {
    hide Tighter, Equally;
    if links == [] {
      e := first;
    } else {
      var k := FindRoot(links);
      var l := ChainHasTree(first, links[..k]);
      var r := ChainHasTree(links[k].operand, links[k + 1..]);
      e := Binary(l, links[k].op, r);
    }
  }

  lemma {:induction false} FindRoot(links: seq<Link>) returns (k: nat)
    requires links != []
    ensures Root(links, k)
    decreases |links|
  {
    hide Tighter, Equally, Level;
    var n := |links| - 1;
    if n == 0 {
      k := 0;
      StrengthsAre(links[0].op, links[0].op);
    } else {
      var j := FindRoot(links[..n]);
      StrengthsAre(links[j].op, links[n].op);
      StrengthsAre(links[n].op, links[j].op);
      PowAlone(links[j].op);
      PowAlone(links[n].op);
      k := if Level(links[n].op) < Level(links[j].op) || (Level(links[n].op) == Level(links[j].op) && links[n].op != Pow) then n else j;
      forall i | 0 <= i < |links| ensures !Tighter(links[k].op, links[i].op) {
        StrengthsAre(links[k].op, links[i].op);
        if i < n { StrengthsAre(links[j].op, links[i].op); assert links[..n][i] == links[i]; }
      }
      forall i | 0 <= i < |links| && (if links[k].op == Pow then i < k else k < i) ensures !Equally(links[i].op, links[k].op) {
        StrengthsAre(links[i].op, links[k].op);
        StrengthsAre(links[i].op, links[j].op);
        StrengthsAre(links[j].op, links[i].op);
        PowAlone(links[k].op);
        if i < n { assert links[..n][i] == links[i]; }
      }
    }
  }

  /** Two operators between three operands: the second takes the middle one exactly if it binds tighter, or both are powers. */
  lemma ThreeOperands(a: Expr, p: BinaryOp, b: Expr, q: BinaryOp, c: Expr)
    requires Operands(a, [Link(p, b), Link(q, c)]) && p in SYMBOLS && q in SYMBOLS
    requires Deepest(Printed(a) + SYMBOLS[p] + Printed(b) + SYMBOLS[q] + Printed(c), 0) < 100
    ensures var ts := Printed(a) + SYMBOLS[p] + Printed(b) + SYMBOLS[q] + Printed(c);
            Expression(ts, 0, 0) ==
            Parsed(if Tighter(q, p) || (p == Pow && q == Pow) then Binary(a, p, Binary(b, q, c)) else Binary(Binary(a, p, b), q, c), |ts|)
  {
    hide Printed, Tighter, Equally, Expression, Deepest, Level;
    var links := [Link(p, b), Link(q, c)];
    assert links[..1] == [Link(p, b)] && links[1..] == [Link(q, c)];
    assert Flat(a, links[..1]) == Printed(a) + SYMBOLS[p] + Printed(b) by { assert [Link(p, b)][..0] == []; }
    assert Flat(a, links) == Printed(a) + SYMBOLS[p] + Printed(b) + SYMBOLS[q] + Printed(c);
    StrengthsAre(p, q);
    StrengthsAre(q, p);
    StrengthsAre(p, p);
    StrengthsAre(q, q);
    PowAlone(p);
    PowAlone(q);
    OneLink(a, p, b);
    OneLink(b, q, c);
    var right := Tighter(q, p) || (p == Pow && q == Pow);
    var e := if right then Binary(a, p, Binary(b, q, c)) else Binary(Binary(a, p, b), q, c);
    if right {
      assert Root(links, 0) && links[..0] == [];
    } else {
      assert Root(links, 1) && links[2..] == [];
    }
    assert Grouped(a, links, e);
    hide Grouped, Flat;
    ChainIsGrouped(a, links, e);
  }

  lemma OneLink(a: Expr, p: BinaryOp, b: Expr)
    ensures Grouped(a, [Link(p, b)], Binary(a, p, b))
  {
    hide Tighter, Equally, Level;
    var links := [Link(p, b)];
    StrengthsAre(p, p);
    assert links[..0] == [] && links[1..] == [];
    assert Root(links, 0);
  }
}
