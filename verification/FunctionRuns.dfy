/** All paths through the code of a balanced function. */
module FunctionRuns {
  import opened FunctionCode
  import opened FunctionBalance

  // ---- Places in the code ----

  predicate At(code: seq<Op>, p: nat, q: seq<Op>) { p + |q| <= |code| && code[p..p + |q|] == q }

  lemma AtSplit(code: seq<Op>, p: nat, a: seq<Op>, b: seq<Op>)
    requires At(code, p, a + b)
    ensures At(code, p, a) && At(code, p + |a|, b)
  {
    assert (a + b)[..|a|] == a && (a + b)[|a|..] == b;
  }

  /** The code of a stretch begins with op. */
  lemma AtOp(code: seq<Op>, p: nat, op: Op, rest: seq<Op>)
    requires At(code, p, [op] + rest)
    ensures p < |code| && code[p] == op && At(code, p + 1, rest)
  {
    AtSplit(code, p, [op], rest);
    assert code[p..p + 1][0] == code[p];
  }

  lemma AtThree(code: seq<Op>, p: nat, a: seq<Op>, b: seq<Op>, c: seq<Op>)
    requires At(code, p, a + b + c)
    ensures At(code, p, a) && At(code, p + |a|, b) && At(code, p + |a| + |b|, c)
  {
    hide At;
    AtSplit(code, p, a + b, c);
    AtSplit(code, p, a, b);
  }

  /** The instructions of a stretch, one by one. */
  lemma AtOps(code: seq<Op>, p: nat, ops: seq<Op>)
    requires At(code, p, ops)
    ensures p + |ops| <= |code| && forall i | 0 <= i < |ops| :: code[p + i] == ops[i]
  {
    forall i | 0 <= i < |ops| ensures code[p + i] == ops[i] { assert code[p..p + |ops|][i] == code[p + i]; }
  }

  lemma AtTwo(code: seq<Op>, p: nat, x: Op, y: Op)
    requires At(code, p, [x, y])
    ensures p + 2 <= |code| && code[p] == x && code[p + 1] == y
  {
    hide At;
    var ops := [x, y];
    AtOps(code, p, ops);
    assert code[p + 0] == ops[0] && code[p + 1] == ops[1];
  }

  lemma AtTriple(code: seq<Op>, p: nat, x: Op, y: Op, z: Op)
    requires At(code, p, [x, y, z])
    ensures p + 3 <= |code| && code[p] == x && code[p + 1] == y && code[p + 2] == z
  {
    hide At;
    var ops := [x, y, z];
    AtOps(code, p, ops);
    assert code[p + 0] == ops[0] && code[p + 1] == ops[1] && code[p + 2] == ops[2];
  }

  lemma AtFour(code: seq<Op>, p: nat, x: Op, y: Op, z: Op, w: Op)
    requires At(code, p, [x, y, z, w])
    ensures p + 4 <= |code| && code[p] == x && code[p + 1] == y && code[p + 2] == z && code[p + 3] == w
  {
    hide At;
    var ops := [x, y, z, w];
    AtOps(code, p, ops);
    assert code[p + 0] == ops[0] && code[p + 1] == ops[1] && code[p + 2] == ops[2] && code[p + 3] == ops[3];
  }

  // ---- Single steps ----

  /** If a handler is open, unwinding to it is safe. */
  predicate Handled(code: seq<Op>, tries: seq<Frame>, height: nat, k: nat) {
    tries == [] || var f := tries[|tries| - 1]; f.height <= height && Safe(code, Config(f.catch, f.height + 1, tries[..|tries| - 1]), k)
  }

  lemma HandledLess(code: seq<Op>, tries: seq<Frame>, height: nat, k: nat, above: nat, j: nat)
    requires Handled(code, tries, height, k) && height <= above && j <= k
    ensures Handled(code, tries, above, j)
  {
    if tries != [] {
      var f := tries[|tries| - 1];
      SafeLess(code, Config(f.catch, f.height + 1, tries[..|tries| - 1]), k, j);
    }
  }

  lemma SafeNow(code: seq<Op>, c: Config)
    ensures Safe(code, c, 0)
  {}

  lemma DoMark(code: seq<Op>, c: Config, k: nat)
    requires c.pc < |code| && code[c.pc].Mark? && c.height == code[c.pc].locals && |c.tries| == code[c.pc].tries
    requires Safe(code, c.(pc := c.pc + 1), k)
    ensures Safe(code, c, k + 1)
  {}

  lemma DoUse(code: seq<Op>, c: Config, p: nat, q: nat, k: nat)
    requires c.pc < |code| && code[c.pc] == Use(p, q) && c.height >= p && Handled(code, c.tries, c.height, k)
    requires Safe(code, c.(pc := c.pc + 1, height := c.height - p + q), k)
    ensures Safe(code, c, k + 1)
  {}

  lemma DoMove(code: seq<Op>, c: Config, p: nat, q: nat, k: nat)
    requires c.pc < |code| && code[c.pc] == Move(p, q) && c.height >= p && Safe(code, c.(pc := c.pc + 1, height := c.height - p + q), k)
    ensures Safe(code, c, k + 1)
  {}

  lemma DoPop(code: seq<Op>, c: Config, k: nat)
    requires c.pc < |code| && code[c.pc] == Op.Pop && c.height >= 1 && Safe(code, c.(pc := c.pc + 1, height := c.height - 1), k)
    ensures Safe(code, c, k + 1)
  {}

  lemma DoJump(code: seq<Op>, c: Config, t: nat, k: nat)
    requires c.pc < |code| && code[c.pc] == Jump(t) && Safe(code, c.(pc := t), k)
    ensures Safe(code, c, k + 1)
  {}

  lemma DoTest(code: seq<Op>, c: Config, t: nat, k: nat)
    requires c.pc < |code| && code[c.pc] == JumpIfFalse(t) && c.height >= 1
    requires Safe(code, c.(pc := c.pc + 1), k) && Safe(code, c.(pc := t), k)
    ensures Safe(code, c, k + 1)
  {}

  lemma DoForIter(code: seq<Op>, c: Config, t: nat, k: nat)
    requires c.pc < |code| && code[c.pc] == ForIter(t) && c.height >= 1 && Handled(code, c.tries, c.height, k)
    requires Safe(code, c.(pc := c.pc + 1, height := c.height + 1), k) && Safe(code, c.(pc := t), k)
    ensures Safe(code, c, k + 1)
  {}

  lemma DoTry(code: seq<Op>, c: Config, t: nat, k: nat)
    requires c.pc < |code| && code[c.pc] == Try(t) && Safe(code, c.(pc := c.pc + 1, tries := c.tries + [Frame(t, c.height)]), k)
    ensures Safe(code, c, k + 1)
  {}

  lemma DoEndTry(code: seq<Op>, c: Config, k: nat)
    requires c.pc < |code| && code[c.pc] == EndTry && c.tries != []
    requires Safe(code, c.(pc := c.pc + 1, tries := c.tries[..|c.tries| - 1]), k)
    ensures Safe(code, c, k + 1)
  {}

  lemma DoThrow(code: seq<Op>, c: Config, k: nat)
    requires c.pc < |code| && code[c.pc] == Throw && c.height >= 1 && Handled(code, c.tries, c.height, k)
    ensures Safe(code, c, k + 1)
  {}

  lemma DoReturn(code: seq<Op>, c: Config, k: nat)
    requires c.pc < |code| && code[c.pc] == Return && c.height >= 1
    ensures Safe(code, c, k)
  {}

  /** A run of equal instructions that take one value each. */
  lemma {:induction false} DoPops(code: seq<Op>, c: Config, n: nat, k: nat)
    requires At(code, c.pc, Times(Op.Pop, n)) && c.height >= n && Safe(code, c.(pc := c.pc + n, height := c.height - n), k)
    ensures Safe(code, c, k)
    decreases n
  {
    hide Safe, At;
    if n > 0 {
      assert Times(Op.Pop, n) == [Op.Pop] + Times(Op.Pop, n - 1);
      AtOp(code, c.pc, Op.Pop, Times(Op.Pop, n - 1));
      DoPops(code, c.(pc := c.pc + 1, height := c.height - 1), n - 1, k);
      DoPop(code, c, k);
      SafeLess(code, c, k + 1, k);
    } else {
      assert c == c.(pc := c.pc + n, height := c.height - n);
    }
  }

  lemma {:induction false} DoEndTries(code: seq<Op>, c: Config, n: nat, k: nat)
    requires At(code, c.pc, Times(EndTry, n)) && n <= |c.tries|
    requires Safe(code, c.(pc := c.pc + n, tries := c.tries[..|c.tries| - n]), k)
    ensures Safe(code, c, k)
    decreases n
  {
    hide Safe, At;
    if n > 0 {
      assert Times(EndTry, n) == [EndTry] + Times(EndTry, n - 1);
      AtOp(code, c.pc, EndTry, Times(EndTry, n - 1));
      var d := c.(pc := c.pc + 1, tries := c.tries[..|c.tries| - 1]);
      assert d.tries[..|d.tries| - (n - 1)] == c.tries[..|c.tries| - n];
      DoEndTries(code, d, n - 1, k);
      DoEndTry(code, c, k);
      SafeLess(code, c, k + 1, k);
    } else {
      assert c.tries[..|c.tries| - n] == c.tries;
    }
  }

  /** The nulls for the locals made by an `if`. */
  lemma {:induction false} DoNulls(code: seq<Op>, c: Config, n: nat, k: nat)
    requires At(code, c.pc, Times(Move(0, 1), n))
    requires Safe(code, c.(pc := c.pc + n, height := c.height + n), k)
    ensures Safe(code, c, k)
    decreases n
  {
    hide Safe, At, Handled;
    if n > 0 {
      assert Times(Move(0, 1), n) == [Move(0, 1)] + Times(Move(0, 1), n - 1);
      AtOp(code, c.pc, Move(0, 1), Times(Move(0, 1), n - 1));
      DoNulls(code, c.(pc := c.pc + 1, height := c.height + 1), n - 1, k);
      DoMove(code, c, 0, 1, k);
      SafeLess(code, c, k + 1, k);
    }
  }

  // ---- Expressions ----

  /** An expression pushes one value, whatever path it takes. */
  lemma {:induction false} ExprSafe(code: seq<Op>, e: Expr, c: Config, k: nat)
    requires At(code, c.pc, CodeE(e, c.pc)) && Handled(code, c.tries, c.height, k)
    requires Safe(code, c.(pc := c.pc + SizeE(e), height := c.height + 1), k)
    ensures Safe(code, c, k + 1)
    decreases e, 1
  {
    hide Safe, At, Handled, CodeE, SizeE;
    ExprParts(e, c.pc);
    match e
    case Atom =>
      AtLast(code, c.pc, Move(0, 1));
      DoMove(code, c, 0, 1, k);
    case Operate(args, fails) => OperateSafe(code, args, fails, c, k);
    case And(l, r) => AndSafe(code, l, r, c, k);
    case Or(l, r) => OrSafe(code, l, r, c, k);
  }

  lemma {:induction false} OperateSafe(code: seq<Op>, args: seq<Expr>, fails: bool, c: Config, k: nat)
    requires At(code, c.pc, OperateE(args, fails, c.pc)) && Handled(code, c.tries, c.height, k)
    requires Safe(code, c.(pc := c.pc + SizeEs(args) + 1, height := c.height + 1), k)
    ensures Safe(code, c, k + 1)
    decreases Operate(args, fails), 0
  {
    hide Safe, At, Handled, CodeEs, SizeEs;
    var op := if fails then Use(|args|, 1) else Move(|args|, 1);
    AtSplit(code, c.pc, CodeEs(args, c.pc), [op]);
    AtLast(code, c.pc + SizeEs(args), op);
    var d := c.(pc := c.pc + SizeEs(args), height := c.height + |args|);
    HandledLess(code, c.tries, c.height, k, d.height, k);
    if fails { DoUse(code, d, |args|, 1, k); } else { DoMove(code, d, |args|, 1, k); }
    if args == [] {
      NoArgs();
      assert d == c;
    } else {
      SafeLess(code, d, k + 1, k);
      ExprsSafe(code, args, c, k);
    }
  }

  lemma NoArgs()
    ensures SizeEs([]) == 0
  {}

  lemma {:induction false} ExprsSafe(code: seq<Op>, es: seq<Expr>, c: Config, k: nat)
    requires es != [] && At(code, c.pc, CodeEs(es, c.pc)) && Handled(code, c.tries, c.height, k)
    requires Safe(code, c.(pc := c.pc + SizeEs(es), height := c.height + |es|), k)
    ensures Safe(code, c, k + 1)
    decreases es, 0
  {
    hide Safe, At, Handled, CodeE, SizeE;
    AtSplit(code, c.pc, CodeE(es[0], c.pc), CodeEs(es[1..], c.pc + SizeE(es[0])));
    var d := c.(pc := c.pc + SizeE(es[0]), height := c.height + 1);
    if |es| > 1 {
      HandledLess(code, c.tries, c.height, k, d.height, k);
      ExprsSafe(code, es[1..], d, k);
      SafeLess(code, d, k + 1, k);
    } else {
      assert es[1..] == [];
    }
    ExprSafe(code, es[0], c, k);
  }

  /** The code of an expression, by its form. */
  lemma ExprParts(e: Expr, p: nat)
    ensures e.Atom? ==> CodeE(e, p) == [Move(0, 1)] && SizeE(e) == 1
    ensures e.Operate? ==> CodeE(e, p) == OperateE(e.args, e.fails, p) && SizeE(e) == SizeEs(e.args) + 1
    ensures e.And? ==> CodeE(e, p) == AndE(e.l, e.r, p) && SizeE(e) == SizeE(e.l) + 2 + SizeE(e.r)
    ensures e.Or? ==> CodeE(e, p) == OrE(e.l, e.r, p) && SizeE(e) == SizeE(e.l) + 3 + SizeE(e.r)
  {
    hide OperateE, AndE, OrE;
  }

  lemma AndLayout(code: seq<Op>, l: Expr, r: Expr, p: nat)
    requires At(code, p, CodeE(And(l, r), p))
    ensures var p1 := p + SizeE(l);
            && At(code, p, CodeE(l, p)) && p1 + 2 <= |code| && code[p1] == JumpIfFalse(p + SizeE(And(l, r))) && code[p1 + 1] == Op.Pop
            && At(code, p1 + 2, CodeE(r, p1 + 2)) && SizeE(And(l, r)) == SizeE(l) + 2 + SizeE(r)
  {
    hide At, CodeE, SizeE;
    var p1 := p + SizeE(l);
    ExprParts(And(l, r), p);
    AtThree(code, p, CodeE(l, p), [JumpIfFalse(p1 + 2 + SizeE(r)), Op.Pop], CodeE(r, p1 + 2));
    AtTwo(code, p1, JumpIfFalse(p1 + 2 + SizeE(r)), Op.Pop);
  }

  lemma {:induction false} AndSafe(code: seq<Op>, l: Expr, r: Expr, c: Config, k: nat)
    requires At(code, c.pc, CodeE(And(l, r), c.pc)) && Handled(code, c.tries, c.height, k)
    requires Safe(code, c.(pc := c.pc + SizeE(And(l, r)), height := c.height + 1), k)
    ensures Safe(code, c, k + 1)
    decreases And(l, r), 0
  {
    hide Safe, At, Handled, CodeE, SizeE;
    AndLayout(code, l, r, c.pc);
    var p1, t := c.pc + SizeE(l), c.pc + SizeE(And(l, r));
    ExprSafe(code, r, c.(pc := p1 + 2), k);
    SafeLess(code, c.(pc := p1 + 2), k + 1, k);
    var d := c.(pc := p1, height := c.height + 1);
    PopThen(code, d.(pc := p1 + 1), k);
    TestThen(code, d, t, k);
    ExprSafe(code, l, c, k);
  }

  lemma OrLayout(code: seq<Op>, l: Expr, r: Expr, p: nat)
    requires At(code, p, CodeE(Or(l, r), p))
    ensures var p1 := p + SizeE(l);
            && At(code, p, CodeE(l, p)) && p1 + 3 <= |code| && code[p1] == JumpIfFalse(p1 + 2)
            && code[p1 + 1] == Jump(p + SizeE(Or(l, r))) && code[p1 + 2] == Op.Pop
            && At(code, p1 + 3, CodeE(r, p1 + 3)) && SizeE(Or(l, r)) == SizeE(l) + 3 + SizeE(r)
  {
    hide At, CodeE, SizeE;
    var p1 := p + SizeE(l);
    ExprParts(Or(l, r), p);
    AtThree(code, p, CodeE(l, p), [JumpIfFalse(p1 + 2), Jump(p1 + 3 + SizeE(r)), Op.Pop], CodeE(r, p1 + 3));
    AtTriple(code, p1, JumpIfFalse(p1 + 2), Jump(p1 + 3 + SizeE(r)), Op.Pop);
  }

  lemma {:induction false} OrSafe(code: seq<Op>, l: Expr, r: Expr, c: Config, k: nat)
    requires At(code, c.pc, CodeE(Or(l, r), c.pc)) && Handled(code, c.tries, c.height, k)
    requires Safe(code, c.(pc := c.pc + SizeE(Or(l, r)), height := c.height + 1), k)
    ensures Safe(code, c, k + 1)
    decreases Or(l, r), 0
  {
    hide Safe, At, Handled, CodeE, SizeE;
    OrLayout(code, l, r, c.pc);
    var p1, t := c.pc + SizeE(l), c.pc + SizeE(Or(l, r));
    ExprSafe(code, r, c.(pc := p1 + 3), k);
    SafeLess(code, c.(pc := p1 + 3), k + 1, k);
    var d := c.(pc := p1, height := c.height + 1);
    PopThen(code, d.(pc := p1 + 2), k);
    JumpThen(code, d.(pc := p1 + 1), t, k);
    TestThen(code, d, p1 + 2, k);
    ExprSafe(code, l, c, k);
  }

  // ---- Statements ----

  /** Where stop and skip lead is safe at the heights of the loop. */
  predicate LoopOk(code: seq<Op>, cx: Context, tries: seq<Frame>, k: nat) {
    cx.loop.Some? ==>
      var l := cx.loop.value;
      && l.locals <= |cx.locals| && l.tries <= |tries|
      && Safe(code, Config(l.stop, l.locals, tries[..l.tries]), k) && Safe(code, Config(l.skip, l.locals, tries[..l.tries]), k)
  }

  /** A statement is about to run, and wherever it can lead is safe. */
  predicate Ready(code: seq<Op>, cx: Context, c: Config, k: nat) {
    c.height == |cx.locals| && |c.tries| == cx.tries && Handled(code, c.tries, c.height, k) && LoopOk(code, cx, c.tries, k)
  }

  lemma ReadyLess(code: seq<Op>, cx: Context, c: Config, k: nat, j: nat)
    requires Ready(code, cx, c, k) && j <= k
    ensures Ready(code, cx, c, j)
  {
    hide Safe, Handled;
    HandledLess(code, c.tries, c.height, k, c.height, j);
    if cx.loop.Some? {
      var l := cx.loop.value;
      SafeLess(code, Config(l.stop, l.locals, c.tries[..l.tries]), k, j);
      SafeLess(code, Config(l.skip, l.locals, c.tries[..l.tries]), k, j);
    }
  }

  /** The same statement context at another place, with more locals. */
  lemma ReadyMore(code: seq<Op>, cx: Context, c: Config, k: nat, p: nat, more: seq<string>)
    requires Ready(code, cx, c, k)
    ensures Ready(code, cx.(locals := cx.locals + more), c.(pc := p, height := c.height + |more|), k)
  {
    hide Safe, Handled;
    HandledLess(code, c.tries, c.height, k, c.height + |more|, k);
  }

  lemma {:induction false} BlockSafe(code: seq<Op>, b: seq<Stmt>, cx: Context, c: Config, k: nat)
    requires At(code, c.pc, CodeB(b, c.pc, cx)) && Ready(code, cx, c, k) && BalancedB(b, cx)
    requires Safe(code, Config(c.pc + SizeB(b, cx), |AfterAll(b, cx.locals, cx.outer)|, c.tries), k)
    ensures Safe(code, c, k + 1)
    decreases k, b, 0
  {
    hide Safe, At, Ready, Balanced, SizeS, CodeS, After;
    ReadyFacts(code, cx, c, k);
    var mark := Mark(|cx.locals|, cx.tries);
    if b == [] {
      assert CodeB(b, c.pc, cx) == [mark] + [];
      AtOp(code, c.pc, mark, []);
      assert Config(c.pc + 1, |cx.locals|, c.tries) == c.(pc := c.pc + 1);
    } else {
      var s, next := b[0], cx.(locals := After(b[0], cx.locals, cx.outer));
      var p1 := c.pc + 1 + SizeS(s, cx);
      AtOp(code, c.pc, mark, CodeS(s, c.pc + 1, cx) + CodeB(b[1..], p1, next));
      CodeSizeS(s, c.pc + 1, cx);
      AtSplit(code, c.pc + 1, CodeS(s, c.pc + 1, cx), CodeB(b[1..], p1, next));
      var d := Config(p1, |next.locals|, c.tries);
      ReadyAfter(code, cx, c, k, next.locals, p1);
      BlockSafe(code, b[1..], next, d, k);
      SafeLess(code, d, k + 1, k);
      ReadyMore(code, cx, c, k, c.pc + 1, []);
      assert cx.locals + [] == cx.locals;
      StmtSafe(code, s, cx, c.(pc := c.pc + 1), k);
    }
    DoMark(code, c, k);
  }

  lemma ReadyFacts(code: seq<Op>, cx: Context, c: Config, k: nat)
    requires Ready(code, cx, c, k)
    ensures c.height == |cx.locals| && |c.tries| == cx.tries && Handled(code, c.tries, c.height, k)
  {
    hide Safe;
  }

  /** Locals are only ever added. */
  lemma ReadyAfter(code: seq<Op>, cx: Context, c: Config, k: nat, after: seq<string>, p: nat)
    requires Ready(code, cx, c, k) && |after| >= |cx.locals|
    ensures Ready(code, cx.(locals := after), Config(p, |after|, c.tries), k)
  {
    hide Safe, Handled;
    HandledLess(code, c.tries, c.height, k, |after|, k);
  }

  /** A block with a scope of its own leaves only what was there below it. */
  lemma {:induction false} ScopeSafe(code: seq<Op>, b: seq<Stmt>, cx: Context, base: nat, c: Config, k: nat)
    requires At(code, c.pc, CodeScope(b, c.pc, cx, base)) && Ready(code, cx, c, k) && BalancedB(b, cx) && base <= |cx.locals|
    requires Safe(code, Config(c.pc + SizeScope(b, cx, base), base, c.tries), k)
    ensures Safe(code, c, k + 1)
    decreases k, b, 1
  {
    hide Safe, At, Ready, BalancedB, SizeB, CodeB, AfterAll;
    CodeSizeB(b, c.pc, cx);
    var n := Scoped(b, cx.locals, cx.outer, base);
    AtSplit(code, c.pc, CodeB(b, c.pc, cx), Times(Op.Pop, n));
    var d := Config(c.pc + SizeB(b, cx), |AfterAll(b, cx.locals, cx.outer)|, c.tries);
    DoPops(code, d, n, k);
    BlockSafe(code, b, cx, c, k);
  }

  lemma {:induction false} StmtSafe(code: seq<Op>, s: Stmt, cx: Context, c: Config, k: nat)
    requires At(code, c.pc, CodeS(s, c.pc, cx)) && Ready(code, cx, c, k) && Balanced(s, cx)
    requires Safe(code, Config(c.pc + SizeS(s, cx), |After(s, cx.locals, cx.outer)|, c.tries), k)
    ensures Safe(code, c, k)
    decreases k, s, 3
  {
    hide Safe, At, Ready, SizeS, CodeS, AfterAll, BalancedB, Hoisted;
    match s
    case If(cond, thn, els) => IfSafe(code, cond, thn, els, cx, c, k);
    case Unless(cond, body) => UnlessSafe(code, cond, body, cx, c, k);
    case While(cond, body) => WhileSafe(code, cond, body, cx, c, k);
    case Until(cond, body) => UntilSafe(code, cond, body, cx, c, k);
    case Forever(body) => ForeverSafe(code, body, cx, c, k);
    case Repeat(count, body) => RepeatSafe(code, count, body, cx, c, k);
    case ForIn(x, over, body) => ForInSafe(code, x, over, body, cx, c, k);
    case TryCatch(body, x, handler) => TrySafe(code, body, x, handler, cx, c, k);
    case _ => SimpleSafe(code, s, cx, c, k);
  }

  /** The last instruction of a stretch. */
  lemma AtLast(code: seq<Op>, p: nat, op: Op)
    requires At(code, p, [op])
    ensures p < |code| && code[p] == op
  {
    assert [op] == [op] + [];
    AtOp(code, p, op, []);
  }

  /** The value of an expression is on the stack at the end, so the expression is safe to run. */
  lemma ExprThen(code: seq<Op>, e: Expr, cx: Context, c: Config, k: nat)
    requires At(code, c.pc, CodeE(e, c.pc)) && Ready(code, cx, c, k)
    requires Safe(code, c.(pc := c.pc + SizeE(e), height := c.height + 1), k)
    ensures Safe(code, c, k + 1)
  {
    hide Safe, At, Ready, Handled;
    ReadyFacts(code, cx, c, k);
    ExprSafe(code, e, c, k);
  }

  lemma MoveThen(code: seq<Op>, c: Config, p: nat, q: nat, k: nat)
    requires c.pc < |code| && code[c.pc] == Move(p, q) && c.height >= p && Safe(code, c.(pc := c.pc + 1, height := c.height - p + q), k)
    ensures Safe(code, c, k)
  {
    hide Safe;
    DoMove(code, c, p, q, k);
    SafeLess(code, c, k + 1, k);
  }

  lemma PopThen(code: seq<Op>, c: Config, k: nat)
    requires c.pc < |code| && code[c.pc] == Op.Pop && c.height >= 1 && Safe(code, c.(pc := c.pc + 1, height := c.height - 1), k)
    ensures Safe(code, c, k)
  {
    hide Safe;
    DoPop(code, c, k);
    SafeLess(code, c, k + 1, k);
  }

  lemma JumpThen(code: seq<Op>, c: Config, t: nat, k: nat)
    requires c.pc < |code| && code[c.pc] == Jump(t) && Safe(code, c.(pc := t), k)
    ensures Safe(code, c, k)
  {
    hide Safe;
    DoJump(code, c, t, k);
    SafeLess(code, c, k + 1, k);
  }

  lemma TestThen(code: seq<Op>, c: Config, t: nat, k: nat)
    requires c.pc < |code| && code[c.pc] == JumpIfFalse(t) && c.height >= 1
    requires Safe(code, c.(pc := c.pc + 1), k) && Safe(code, c.(pc := t), k)
    ensures Safe(code, c, k)
  {
    hide Safe;
    DoTest(code, c, t, k);
    SafeLess(code, c, k + 1, k);
  }

  lemma SimpleSafe(code: seq<Op>, s: Stmt, cx: Context, c: Config, k: nat)
    requires !s.If? && !s.Unless? && !s.While? && !s.Until? && !s.Forever? && !s.Repeat? && !s.ForIn? && !s.TryCatch?
    requires At(code, c.pc, CodeS(s, c.pc, cx)) && Ready(code, cx, c, k) && Balanced(s, cx)
    requires Safe(code, Config(c.pc + SizeS(s, cx), |After(s, cx.locals, cx.outer)|, c.tries), k)
    ensures Safe(code, c, k)
  {
    hide Safe, At, Ready, CodeE, SizeE, LeaveCode, Leaving, Handled;
    match s
    case Do(e) => EndsSafe(code, e, Op.Pop, cx, c, k);
    case Print(e) => EndsSafe(code, e, Move(1, 0), cx, c, k);
    case Assign(x, e) => AssignSafe(code, x, e, cx, c, k);
    case Raise(e) => EndsSafe(code, e, Throw, cx, c, k);
    case Give(e) => EndsSafe(code, e, Return, cx, c, k);
    case Stop => LeaveSafe(code, cx, c, k, cx.loop.value.stop);
    case Skip => LeaveSafe(code, cx, c, k, cx.loop.value.skip);
    case Leave(_) => assert false;
    case Pass => assert c == Config(c.pc + 0, |cx.locals|, c.tries) by { ReadyFacts(code, cx, c, k); }
  }

  /** A value that is used up by the instruction after it. */
  lemma EndsSafe(code: seq<Op>, e: Expr, op: Op, cx: Context, c: Config, k: nat)
    requires op in {Op.Pop, Move(1, 0), Throw, Return} && At(code, c.pc, CodeE(e, c.pc) + [op]) && Ready(code, cx, c, k)
    requires Safe(code, Config(c.pc + SizeE(e) + 1, |cx.locals|, c.tries), k)
    ensures Safe(code, c, k)
  {
    hide Safe, At, Ready, CodeE, SizeE, Handled;
    ReadyFacts(code, cx, c, k);
    var d := c.(pc := c.pc + SizeE(e), height := c.height + 1);
    AtSplit(code, c.pc, CodeE(e, c.pc), [op]);
    AtLast(code, d.pc, op);
    match op {
      case Pop => PopThen(code, d, k);
      case Move(_, _) => MoveThen(code, d, 1, 0, k);
      case Throw =>
        HandledLess(code, c.tries, c.height, k, d.height, k);
        DoThrow(code, d, k);
        SafeLess(code, d, k + 1, k);
      case _ => DoReturn(code, d, k);
    }
    ExprThen(code, e, cx, c, k);
    SafeLess(code, c, k + 1, k);
  }

  /** A new name keeps its value on the stack as a local. */
  lemma AssignSafe(code: seq<Op>, x: string, e: Expr, cx: Context, c: Config, k: nat)
    requires At(code, c.pc, CodeS(Assign(x, e), c.pc, cx)) && Ready(code, cx, c, k)
    requires Safe(code, Config(c.pc + SizeS(Assign(x, e), cx), |After(Assign(x, e), cx.locals, cx.outer)|, c.tries), k)
    ensures Safe(code, c, k)
  {
    hide Safe, At, Ready, CodeE, Handled;
    ReadyFacts(code, cx, c, k);
    var d := c.(pc := c.pc + SizeE(e), height := c.height + 1);
    if Known(x, cx.locals, cx.outer) {
      AtSplit(code, c.pc, CodeE(e, c.pc), [Move(1, 1), Op.Pop]);
      assert [Move(1, 1), Op.Pop] == [Move(1, 1)] + [Op.Pop];
      AtOp(code, d.pc, Move(1, 1), [Op.Pop]);
      AtLast(code, d.pc + 1, Op.Pop);
      PopThen(code, d.(pc := d.pc + 1), k);
      MoveThen(code, d, 1, 1, k);
    } else {
      assert CodeE(e, c.pc) + [] == CodeE(e, c.pc);
    }
    ExprThen(code, e, cx, c, k);
    SafeLess(code, c, k + 1, k);
  }

  lemma LeaveSafe(code: seq<Op>, cx: Context, c: Config, k: nat, to: nat)
    requires cx.loop.Some? && (to == cx.loop.value.stop || to == cx.loop.value.skip)
    requires At(code, c.pc, LeaveCode(cx) + [Jump(to)]) && Ready(code, cx, c, k)
    ensures Safe(code, c, k)
  {
    hide Safe, At, Handled;
    var l := cx.loop.value;
    var nt, nl := cx.tries - l.tries, |cx.locals| - l.locals;
    AtSplit(code, c.pc, LeaveCode(cx), [Jump(to)]);
    AtSplit(code, c.pc, Times(EndTry, nt), Times(Op.Pop, nl));
    AtLast(code, c.pc + nt + nl, Jump(to));
    var d := c.(pc := c.pc + nt, tries := c.tries[..l.tries]);
    JumpThen(code, d.(pc := c.pc + nt + nl, height := l.locals), to, k);
    DoPops(code, d, nl, k);
    DoEndTries(code, c, nt, k);
  }

  // ---- Branches ----

  lemma {:induction false} IfSafe(code: seq<Op>, cond: Expr, thn: seq<Stmt>, els: seq<Stmt>, cx: Context, c: Config, k: nat)
    requires At(code, c.pc, CodeS(If(cond, thn, els), c.pc, cx)) && Ready(code, cx, c, k) && Balanced(If(cond, thn, els), cx)
    requires Safe(code, Config(c.pc + SizeS(If(cond, thn, els), cx), |After(If(cond, thn, els), cx.locals, cx.outer)|, c.tries), k)
    ensures Safe(code, c, k)
    decreases k, If(cond, thn, els), 2
  {
    hide Safe, At, Ready, CodeE, CodeB, SizeB, BalancedB, AfterAll, Hoisted, Handled;
    var h := Hoisted(thn, els, cx.locals, cx.outer);
    var inner := cx.(locals := cx.locals + h);
    HoistingSettles(cond, thn, els, cx);
    ReadyFacts(code, cx, c, k);
    var p0 := c.pc + SizeE(cond);
    var p1 := p0 + 2 + |h|;
    var p2 := p1 + SizeB(thn, inner) + 1;
    var p3 := p2 + 1 + |h|;
    var end := p3 + SizeB(els, inner);
    IfLayout(code, cond, thn, els, cx, c.pc);
    // The else branch.
    ReadyMore(code, cx, c, k, p3, h);
    BlockSafe(code, els, inner, Config(p3, |inner.locals|, c.tries), k);
    SafeLess(code, Config(p3, |inner.locals|, c.tries), k + 1, k);
    DoNulls(code, Config(p2 + 1, c.height, c.tries), |h|, k);
    PopThen(code, Config(p2, c.height + 1, c.tries), k);
    // The then branch.
    JumpThen(code, Config(p2 - 1, |inner.locals|, c.tries), end, k);
    ReadyMore(code, cx, c, k, p1, h);
    BlockSafe(code, thn, inner, Config(p1, |inner.locals|, c.tries), k);
    SafeLess(code, Config(p1, |inner.locals|, c.tries), k + 1, k);
    DoNulls(code, Config(p0 + 2, c.height, c.tries), |h|, k);
    PopThen(code, Config(p0 + 1, c.height + 1, c.tries), k);
    TestThen(code, Config(p0, c.height + 1, c.tries), p2, k);
    ExprThen(code, cond, cx, c, k);
    SafeLess(code, c, k + 1, k);
  }

  lemma {:induction false} IfPieces(code: seq<Op>, p: nat, c: seq<Op>, head: seq<Op>, nulls: seq<Op>, thn: seq<Op>, mid: seq<Op>, els: seq<Op>)
    requires At(code, p, c + head + nulls + thn + mid + nulls + els)
    ensures At(code, p, c) && At(code, p + |c|, head) && At(code, p + |c| + |head|, nulls)
    ensures At(code, p + |c| + |head| + |nulls|, thn)
    ensures var q := p + |c| + |head| + |nulls| + |thn|;
            At(code, q, mid) && At(code, q + |mid|, nulls) && At(code, q + |mid| + |nulls|, els)
  {
    hide At;
    var a := c + head + nulls + thn;
    AtSplit(code, p, a + mid + nulls, els);
    AtThree(code, p, a, mid, nulls);
    AtSplit(code, p, c + head + nulls, thn);
    AtThree(code, p, c, head, nulls);
  }

  lemma {:induction false} IfLayout(code: seq<Op>, cond: Expr, thn: seq<Stmt>, els: seq<Stmt>, cx: Context, p: nat)
    requires At(code, p, CodeS(If(cond, thn, els), p, cx))
    ensures var h := Hoisted(thn, els, cx.locals, cx.outer);
            var inner := cx.(locals := cx.locals + h);
            var inner2 := inner.(locals := AfterAll(thn, inner.locals, cx.outer));
            var p0 := p + SizeE(cond);
            var p1 := p0 + 2 + |h|;
            var p2 := p1 + SizeB(thn, inner) + 1;
            var p3 := p2 + 1 + |h|;
            && At(code, p, CodeE(cond, p)) && p2 < |code| && code[p0] == JumpIfFalse(p2) && code[p0 + 1] == Op.Pop
            && At(code, p0 + 2, Times(Move(0, 1), |h|)) && At(code, p1, CodeB(thn, p1, inner))
            && code[p2 - 1] == Jump(p3 + SizeB(els, inner2)) && code[p2] == Op.Pop
            && At(code, p2 + 1, Times(Move(0, 1), |h|)) && At(code, p3, CodeB(els, p3, inner2))
            && SizeS(If(cond, thn, els), cx) == p3 + SizeB(els, inner2) - p
  {
    hide At, CodeE, SizeE, CodeB, SizeB, AfterAll, Hoisted;
    var h := Hoisted(thn, els, cx.locals, cx.outer);
    var inner := cx.(locals := cx.locals + h);
    var inner2 := inner.(locals := AfterAll(thn, inner.locals, cx.outer));
    var p0 := p + SizeE(cond);
    var p1 := p0 + 2 + |h|;
    var p2 := p1 + SizeB(thn, inner) + 1;
    var p3 := p2 + 1 + |h|;
    var end := p3 + SizeB(els, inner2);
    var nulls := Times(Move(0, 1), |h|);
    CodeSizeB(thn, p1, inner);
    IfPieces(code, p, CodeE(cond, p), [JumpIfFalse(p2), Op.Pop], nulls, CodeB(thn, p1, inner), [Jump(end), Op.Pop], CodeB(els, p3, inner2));
    AtTwo(code, p0, JumpIfFalse(p2), Op.Pop);
    AtTwo(code, p2 - 1, Jump(end), Op.Pop);
  }

  lemma {:induction false} UnlessLayout(code: seq<Op>, cond: Expr, body: seq<Stmt>, cx: Context, p: nat)
    requires At(code, p, CodeS(Unless(cond, body), p, cx))
    ensures var p0 := p + SizeE(cond);
            && At(code, p, CodeE(cond, p)) && p0 + 4 <= |code| && code[p0] == JumpIfFalse(p0 + 3) && code[p0 + 1] == Op.Pop
            && code[p0 + 2] == Jump(p0 + 4 + SizeB(body, cx)) && code[p0 + 3] == Op.Pop && At(code, p0 + 4, CodeB(body, p0 + 4, cx))
            && SizeS(Unless(cond, body), cx) == SizeE(cond) + 4 + SizeB(body, cx)
  {
    hide At, CodeE, SizeE, CodeB, SizeB;
    var p0 := p + SizeE(cond);
    var out := Jump(p0 + 4 + SizeB(body, cx));
    AtThree(code, p, CodeE(cond, p), [JumpIfFalse(p0 + 3), Op.Pop, out, Op.Pop], CodeB(body, p0 + 4, cx));
    AtFour(code, p0, JumpIfFalse(p0 + 3), Op.Pop, out, Op.Pop);
  }

  lemma {:induction false} UnlessSafe(code: seq<Op>, cond: Expr, body: seq<Stmt>, cx: Context, c: Config, k: nat)
    requires At(code, c.pc, CodeS(Unless(cond, body), c.pc, cx)) && Ready(code, cx, c, k) && Balanced(Unless(cond, body), cx)
    requires Safe(code, Config(c.pc + SizeS(Unless(cond, body), cx), |After(Unless(cond, body), cx.locals, cx.outer)|, c.tries), k)
    ensures Safe(code, c, k)
    decreases k, Unless(cond, body), 2
  {
    hide Safe, At, Ready, CodeE, CodeB, SizeB, BalancedB, AfterAll, Handled;
    ReadyFacts(code, cx, c, k);
    var p0 := c.pc + SizeE(cond);
    var end := p0 + 4 + SizeB(body, cx);
    UnlessLayout(code, cond, body, cx, c.pc);
    var d := Config(p0 + 4, c.height, c.tries);
    ReadyMore(code, cx, c, k, p0 + 4, []);
    assert cx.locals + [] == cx.locals;
    BlockSafe(code, body, cx, d, k);
    SafeLess(code, d, k + 1, k);
    PopThen(code, Config(p0 + 3, c.height + 1, c.tries), k);
    JumpThen(code, Config(p0 + 2, c.height, c.tries), end, k);
    PopThen(code, Config(p0 + 1, c.height + 1, c.tries), k);
    TestThen(code, Config(p0, c.height + 1, c.tries), p0 + 3, k);
    ExprThen(code, cond, cx, c, k);
    SafeLess(code, c, k + 1, k);
  }

  // ---- Try ----

  lemma {:induction false} TryLayout(code: seq<Op>, body: seq<Stmt>, x: string, handler: seq<Stmt>, cx: Context, p: nat)
    requires At(code, p, CodeS(TryCatch(body, x, handler), p, cx))
    ensures var inner, after := cx.(tries := cx.tries + 1), AfterAll(body, cx.locals, cx.outer);
            var caught := cx.(locals := after + [x]);
            var p1 := p + 1 + SizeB(body, inner);
            var end := p1 + 2 + SizeScope(handler, caught, |after|);
            && p1 + 1 < |code| && code[p] == Try(p1 + 2) && At(code, p + 1, CodeB(body, p + 1, inner)) && code[p1] == EndTry
            && code[p1 + 1] == Jump(end) && At(code, p1 + 2, CodeScope(handler, p1 + 2, caught, |after|))
            && p + SizeS(TryCatch(body, x, handler), cx) == end
  {
    hide At, CodeB, SizeB, CodeScope, SizeScope, AfterAll;
    var inner, after := cx.(tries := cx.tries + 1), AfterAll(body, cx.locals, cx.outer);
    var caught := cx.(locals := after + [x]);
    var p1 := p + 1 + SizeB(body, inner);
    var end := p1 + 2 + SizeScope(handler, caught, |after|);
    CodeSizeB(body, p + 1, inner);
    var block, scope := CodeB(body, p + 1, inner), CodeScope(handler, p1 + 2, caught, |after|);
    AtThree(code, p, [Try(p1 + 2)] + block, [EndTry, Jump(end)], scope);
    AtSplit(code, p, [Try(p1 + 2)], block);
    AtLast(code, p, Try(p1 + 2));
    AtTwo(code, p1, EndTry, Jump(end));
  }

  lemma {:induction false} TrySafe(code: seq<Op>, body: seq<Stmt>, x: string, handler: seq<Stmt>, cx: Context, c: Config, k: nat)
    requires At(code, c.pc, CodeS(TryCatch(body, x, handler), c.pc, cx)) && Ready(code, cx, c, k) && Balanced(TryCatch(body, x, handler), cx)
    requires Safe(code, Config(c.pc + SizeS(TryCatch(body, x, handler), cx), |After(TryCatch(body, x, handler), cx.locals, cx.outer)|, c.tries), k)
    ensures Safe(code, c, k)
    decreases k, TryCatch(body, x, handler), 2
  {
    hide Safe, At, Ready, CodeB, SizeB, CodeScope, SizeScope, BalancedB, AfterAll, Handled;
    ReadyFacts(code, cx, c, k);
    var inner, caught := cx.(tries := cx.tries + 1), cx.(locals := cx.locals + [x]);
    var p1 := c.pc + 1 + SizeB(body, inner);
    var end := p1 + 2 + SizeScope(handler, caught, |cx.locals|);
    TryLayout(code, body, x, handler, cx, c.pc);
    // The handler.
    var d := Config(p1 + 2, c.height + 1, c.tries);
    ReadyMore(code, cx, c, k, p1 + 2, [x]);
    ScopeSafe(code, handler, caught, |cx.locals|, d, k);
    SafeLess(code, d, k + 1, k);
    // The body, and its end.
    var tries := c.tries + [Frame(p1 + 2, c.height)];
    JumpThen(code, Config(p1 + 1, c.height, c.tries), end, k);
    assert tries[..|tries| - 1] == c.tries;
    DoEndTry(code, Config(p1, c.height, tries), k);
    SafeLess(code, Config(p1, c.height, tries), k + 1, k);
    ReadyTried(code, cx, c, k, p1 + 2);
    BlockSafe(code, body, inner, Config(c.pc + 1, c.height, tries), k);
    SafeLess(code, Config(c.pc + 1, c.height, tries), k + 1, k);
    DoTry(code, c, p1 + 2, k);
    SafeLess(code, c, k + 1, k);
  }

  lemma ReadyTried(code: seq<Op>, cx: Context, c: Config, k: nat, catch: nat)
    requires Ready(code, cx, c, k) && Safe(code, Config(catch, c.height + 1, c.tries), k)
    ensures Ready(code, cx.(tries := cx.tries + 1), Config(c.pc + 1, c.height, c.tries + [Frame(catch, c.height)]), k)
  {
    hide Safe;
    var tries := c.tries + [Frame(catch, c.height)];
    assert tries[..|tries| - 1] == c.tries;
    if cx.loop.Some? { assert tries[..cx.loop.value.tries] == c.tries[..cx.loop.value.tries]; }
  }

  // ---- Loops ----

  /** Inside a loop, both ways out are safe. */
  lemma InLoopReady(code: seq<Op>, cx: Context, c: Config, k: nat, kept: seq<string>, vars: seq<string>, stop: nat, skip: nat, p: nat)
    requires Ready(code, cx, c, k)
    requires Safe(code, Config(stop, c.height + |kept|, c.tries), k) && Safe(code, Config(skip, c.height + |kept|, c.tries), k)
    ensures Ready(code, InLoop(cx, kept, vars, stop, skip), Config(p, c.height + |kept| + |vars|, c.tries), k)
  {
    hide Safe, Handled;
    HandledLess(code, c.tries, c.height, k, c.height + |kept| + |vars|, k);
    assert c.tries[..cx.tries] == c.tries;
  }

  /** The body of a loop: at its end, and at stop and skip, the heights are those of the loop. */
  lemma {:induction false} LoopBodySafe(code: seq<Op>, body: seq<Stmt>, cx: Context, kept: seq<string>, vars: seq<string>, stop: nat, skip: nat,
                                        c: Config, p: nat, k: nat)
    requires BalancedB(body, InLoop(cx, kept, vars, 0, 0)) && Ready(code, cx, c, k)
    requires At(code, p, CodeScope(body, p, InLoop(cx, kept, vars, stop, skip), |cx.locals| + |kept|))
    requires Safe(code, Config(stop, c.height + |kept|, c.tries), k) && Safe(code, Config(skip, c.height + |kept|, c.tries), k)
    requires Safe(code, Config(p + SizeScope(body, InLoop(cx, kept, vars, 0, 0), |cx.locals| + |kept|), c.height + |kept|, c.tries), k)
    ensures Safe(code, Config(p, c.height + |kept| + |vars|, c.tries), k + 1)
    decreases k, body, 2
  {
    hide Safe, At, Ready, SizeB, CodeScope, BalancedB, AfterAll, SizeScope;
    var inner, plain := InLoop(cx, kept, vars, stop, skip), InLoop(cx, kept, vars, 0, 0);
    ReadyFacts(code, cx, c, k);
    BalancedSameB(body, plain, inner);
    CodeSizeScope(body, p, inner, |cx.locals| + |kept|, plain);
    InLoopReady(code, cx, c, k, kept, vars, stop, skip, p);
    ScopeSafe(code, body, inner, |cx.locals| + |kept|, Config(p, c.height + |kept| + |vars|, c.tries), k);
  }

  /** The instructions of a while loop from p to end. */
  predicate WhileAt(code: seq<Op>, cond: Expr, body: seq<Stmt>, cx: Context, p: nat, p0: nat, p2: nat, end: nat) {
    && p0 == p + SizeE(cond) && end == p2 + 2 && p2 == p0 + 2 + SizeScope(body, InLoop(cx, [], [], 0, 0), |cx.locals|) && end <= |code|
    && At(code, p, CodeE(cond, p)) && code[p0] == JumpIfFalse(p2 + 1) && code[p0 + 1] == Op.Pop
    && At(code, p0 + 2, CodeScope(body, p0 + 2, InLoop(cx, [], [], end, p), |cx.locals|))
    && code[p2] == Jump(p) && code[p2 + 1] == Op.Pop
  }

  lemma {:induction false} WhileLayout(code: seq<Op>, cond: Expr, body: seq<Stmt>, cx: Context, p: nat)
    requires At(code, p, CodeS(While(cond, body), p, cx))
    ensures var end := p + SizeS(While(cond, body), cx);
            end >= 2 && WhileAt(code, cond, body, cx, p, p + SizeE(cond), end - 2, end)
  {
    hide At, CodeE, SizeE, CodeScope, SizeScope;
    var p0, end := p + SizeE(cond), p + SizeS(While(cond, body), cx);
    var inner := InLoop(cx, [], [], end, p);
    CodeSizeScope(body, p0 + 2, inner, |cx.locals|, InLoop(cx, [], [], 0, 0));
    var scope := CodeScope(body, p0 + 2, inner, |cx.locals|);
    var head := [JumpIfFalse(end - 1), Op.Pop];
    AtSplit(code, p, CodeE(cond, p) + head + scope, [Jump(p), Op.Pop]);
    AtThree(code, p, CodeE(cond, p), head, scope);
    AtTwo(code, p0, JumpIfFalse(end - 1), Op.Pop);
    AtTwo(code, end - 2, Jump(p), Op.Pop);
  }

  lemma {:induction false} WhileSafe(code: seq<Op>, cond: Expr, body: seq<Stmt>, cx: Context, c: Config, k: nat)
    requires At(code, c.pc, CodeS(While(cond, body), c.pc, cx)) && Ready(code, cx, c, k) && BalancedB(body, InLoop(cx, [], [], 0, 0))
    requires Safe(code, Config(c.pc + SizeS(While(cond, body), cx), |cx.locals|, c.tries), k)
    ensures Safe(code, c, k)
    decreases k, While(cond, body), 2
  {
    hide *;
    if k > 0 {
      var j := k - 1;
      var p0, end := c.pc + SizeE(cond), c.pc + SizeS(While(cond, body), cx);
      WhileLayout(code, cond, body, cx, c.pc);
      ReadyLess(code, cx, c, k, j);
      SafeLess(code, Config(end, |cx.locals|, c.tries), k, j);
      WhileSafe(code, cond, body, cx, c, j);
      WhileRound(code, cond, body, cx, c, j, p0, end - 2, end);
    } else {
      SafeNow(code, c);
    }
  }

  /** One round of a while loop, from the safety of going round again. */
  lemma {:induction false} WhileRound(code: seq<Op>, cond: Expr, body: seq<Stmt>, cx: Context, c: Config, j: nat, p0: nat, p2: nat, end: nat)
    requires WhileAt(code, cond, body, cx, c.pc, p0, p2, end)
    requires BalancedB(body, InLoop(cx, [], [], 0, 0)) && Ready(code, cx, c, j)
    requires Safe(code, Config(end, |cx.locals|, c.tries), j) && Safe(code, c, j)
    ensures Safe(code, c, j + 1)
    decreases j, body, 3
  {
    hide Safe, At, Ready, CodeE, CodeScope, SizeScope, BalancedB, SizeE;
    ReadyFacts(code, cx, c, j);
    JumpThen(code, Config(p2, c.height, c.tries), c.pc, j);
    LoopBodySafe(code, body, cx, [], [], end, c.pc, c, p0 + 2, j);
    SafeLess(code, Config(p0 + 2, c.height, c.tries), j + 1, j);
    PopThen(code, Config(p2 + 1, c.height + 1, c.tries), j);
    PopThen(code, Config(p0 + 1, c.height + 1, c.tries), j);
    TestThen(code, Config(p0, c.height + 1, c.tries), p2 + 1, j);
    ExprThen(code, cond, cx, c, j);
  }

  /** The instructions of an until loop from p to end. */
  predicate UntilAt(code: seq<Op>, cond: Expr, body: seq<Stmt>, cx: Context, p: nat, p0: nat, end: nat) {
    && p0 == p + SizeE(cond) && end == p0 + 5 + SizeScope(body, InLoop(cx, [], [], 0, 0), |cx.locals|) && end <= |code|
    && At(code, p, CodeE(cond, p)) && code[p0] == JumpIfFalse(p0 + 3) && code[p0 + 1] == Op.Pop && code[p0 + 2] == Jump(end)
    && code[p0 + 3] == Op.Pop && At(code, p0 + 4, CodeScope(body, p0 + 4, InLoop(cx, [], [], end, p), |cx.locals|))
    && code[end - 1] == Jump(p)
  }

  lemma {:induction false} UntilLayout(code: seq<Op>, cond: Expr, body: seq<Stmt>, cx: Context, p: nat)
    requires At(code, p, CodeS(Until(cond, body), p, cx))
    ensures UntilAt(code, cond, body, cx, p, p + SizeE(cond), p + SizeS(Until(cond, body), cx))
  {
    hide At, CodeE, SizeE, CodeScope, SizeScope;
    var p0, end := p + SizeE(cond), p + SizeS(Until(cond, body), cx);
    var inner := InLoop(cx, [], [], end, p);
    CodeSizeScope(body, p0 + 4, inner, |cx.locals|, InLoop(cx, [], [], 0, 0));
    var scope := CodeScope(body, p0 + 4, inner, |cx.locals|);
    var head := [JumpIfFalse(p0 + 3), Op.Pop, Jump(end), Op.Pop];
    AtSplit(code, p, CodeE(cond, p) + head + scope, [Jump(p)]);
    AtThree(code, p, CodeE(cond, p), head, scope);
    AtFour(code, p0, JumpIfFalse(p0 + 3), Op.Pop, Jump(end), Op.Pop);
    AtLast(code, end - 1, Jump(p));
  }

  lemma {:induction false} UntilSafe(code: seq<Op>, cond: Expr, body: seq<Stmt>, cx: Context, c: Config, k: nat)
    requires At(code, c.pc, CodeS(Until(cond, body), c.pc, cx)) && Ready(code, cx, c, k) && BalancedB(body, InLoop(cx, [], [], 0, 0))
    requires Safe(code, Config(c.pc + SizeS(Until(cond, body), cx), |cx.locals|, c.tries), k)
    ensures Safe(code, c, k)
    decreases k, Until(cond, body), 2
  {
    hide *;
    if k > 0 {
      var j := k - 1;
      var p0, end := c.pc + SizeE(cond), c.pc + SizeS(Until(cond, body), cx);
      UntilLayout(code, cond, body, cx, c.pc);
      ReadyLess(code, cx, c, k, j);
      SafeLess(code, Config(end, |cx.locals|, c.tries), k, j);
      UntilSafe(code, cond, body, cx, c, j);
      UntilRound(code, cond, body, cx, c, j, p0, end);
    } else {
      SafeNow(code, c);
    }
  }

  lemma {:induction false} UntilRound(code: seq<Op>, cond: Expr, body: seq<Stmt>, cx: Context, c: Config, j: nat, p0: nat, end: nat)
    requires UntilAt(code, cond, body, cx, c.pc, p0, end)
    requires BalancedB(body, InLoop(cx, [], [], 0, 0)) && Ready(code, cx, c, j)
    requires Safe(code, Config(end, |cx.locals|, c.tries), j) && Safe(code, c, j)
    ensures Safe(code, c, j + 1)
    decreases j, body, 3
  {
    hide Safe, At, Ready, CodeE, CodeScope, SizeScope, BalancedB, SizeE;
    ReadyFacts(code, cx, c, j);
    JumpThen(code, Config(end - 1, c.height, c.tries), c.pc, j);
    LoopBodySafe(code, body, cx, [], [], end, c.pc, c, p0 + 4, j);
    SafeLess(code, Config(p0 + 4, c.height, c.tries), j + 1, j);
    PopThen(code, Config(p0 + 3, c.height + 1, c.tries), j);
    JumpThen(code, Config(p0 + 2, c.height, c.tries), end, j);
    PopThen(code, Config(p0 + 1, c.height + 1, c.tries), j);
    TestThen(code, Config(p0, c.height + 1, c.tries), p0 + 3, j);
    ExprThen(code, cond, cx, c, j);
  }

  lemma {:induction false} ForeverParts(body: seq<Stmt>, cx: Context, p: nat)
    ensures var end := p + SizeS(Forever(body), cx);
            && end == p + SizeScope(body, InLoop(cx, [], [], 0, 0), |cx.locals|) + 1
            && CodeS(Forever(body), p, cx) == CodeScope(body, p, InLoop(cx, [], [], end, p), |cx.locals|) + [Jump(p)]
  {
    hide CodeScope, SizeScope, InLoop;
  }

  lemma {:induction false} ForeverLayout(code: seq<Op>, body: seq<Stmt>, cx: Context, p: nat)
    requires At(code, p, CodeS(Forever(body), p, cx))
    ensures var end := p + SizeS(Forever(body), cx);
            && end == p + SizeScope(body, InLoop(cx, [], [], 0, 0), |cx.locals|) + 1 && end <= |code| && code[end - 1] == Jump(p)
            && At(code, p, CodeScope(body, p, InLoop(cx, [], [], end, p), |cx.locals|))
  {
    hide At, CodeScope, SizeScope, SizeS, CodeS;
    var end := p + SizeS(Forever(body), cx);
    var inner := InLoop(cx, [], [], end, p);
    ForeverParts(body, cx, p);
    CodeSizeScope(body, p, inner, |cx.locals|, InLoop(cx, [], [], 0, 0));
    AtSplit(code, p, CodeScope(body, p, inner, |cx.locals|), [Jump(p)]);
    AtLast(code, end - 1, Jump(p));
  }

  lemma {:induction false} ForeverSafe(code: seq<Op>, body: seq<Stmt>, cx: Context, c: Config, k: nat)
    requires At(code, c.pc, CodeS(Forever(body), c.pc, cx)) && Ready(code, cx, c, k) && BalancedB(body, InLoop(cx, [], [], 0, 0))
    requires Safe(code, Config(c.pc + SizeS(Forever(body), cx), |cx.locals|, c.tries), k)
    ensures Safe(code, c, k)
    decreases k, Forever(body), 2
  {
    hide *;
    if k > 0 {
      var j := k - 1;
      var end := c.pc + SizeS(Forever(body), cx);
      ReadyFacts(code, cx, c, k);
      ForeverLayout(code, body, cx, c.pc);
      ReadyLess(code, cx, c, k, j);
      SafeLess(code, Config(end, |cx.locals|, c.tries), k, j);
      ForeverSafe(code, body, cx, c, j);
      JumpThen(code, Config(end - 1, c.height, c.tries), c.pc, j);
      LoopBodySafe(code, body, cx, [], [], end, c.pc, c, c.pc, j);
      assert c == Config(c.pc, c.height + 0 + 0, c.tries);
    } else {
      SafeNow(code, c);
    }
  }

  /** The instructions of a for-in loop after its iterator is made. */
  predicate ForInAt(code: seq<Op>, x: string, body: seq<Stmt>, cx: Context, p1: nat, p2: nat) {
    && p2 == p1 + 1 + SizeScope(body, InLoop(cx, ["_iter"], [x], 0, 0), |cx.locals| + 1) && p2 + 1 < |code|
    && code[p1] == ForIter(p2 + 1) && code[p2] == Jump(p1) && code[p2 + 1] == Op.Pop
    && At(code, p1 + 1, CodeScope(body, p1 + 1, InLoop(cx, ["_iter"], [x], p2 + 1, p1), |cx.locals| + 1))
  }

  lemma {:induction false} ForInLayout(code: seq<Op>, x: string, over: Expr, body: seq<Stmt>, cx: Context, p: nat)
    requires At(code, p, CodeS(ForIn(x, over, body), p, cx))
    ensures var p0, end := p + SizeE(over), p + SizeS(ForIn(x, over, body), cx);
            && end >= 2 && At(code, p, CodeE(over, p)) && p0 < |code| && code[p0] == Move(1, 1) && ForInAt(code, x, body, cx, p0 + 1, end - 2)
  {
    hide At, CodeE, SizeE, CodeScope, SizeScope;
    var p0, end := p + SizeE(over), p + SizeS(ForIn(x, over, body), cx);
    var inner := InLoop(cx, ["_iter"], [x], end - 1, p0 + 1);
    CodeSizeScope(body, p0 + 2, inner, |cx.locals| + 1, InLoop(cx, ["_iter"], [x], 0, 0));
    var scope := CodeScope(body, p0 + 2, inner, |cx.locals| + 1);
    var head := [Move(1, 1), ForIter(end - 1)];
    AtSplit(code, p, CodeE(over, p) + head + scope, [Jump(p0 + 1), Op.Pop]);
    AtThree(code, p, CodeE(over, p), head, scope);
    AtTwo(code, p0, Move(1, 1), ForIter(end - 1));
    AtTwo(code, end - 2, Jump(p0 + 1), Op.Pop);
  }

  lemma {:induction false} ForInSafe(code: seq<Op>, x: string, over: Expr, body: seq<Stmt>, cx: Context, c: Config, k: nat)
    requires At(code, c.pc, CodeS(ForIn(x, over, body), c.pc, cx)) && Ready(code, cx, c, k) && BalancedB(body, InLoop(cx, ["_iter"], [x], 0, 0))
    requires Safe(code, Config(c.pc + SizeS(ForIn(x, over, body), cx), |cx.locals|, c.tries), k)
    ensures Safe(code, c, k)
    decreases k, ForIn(x, over, body), 2
  {
    hide *;
    var p0, end := c.pc + SizeE(over), c.pc + SizeS(ForIn(x, over, body), cx);
    ReadyFacts(code, cx, c, k);
    ForInLayout(code, x, over, body, cx, c.pc);
    ForInRounds(code, x, body, cx, c, k, p0 + 1, end - 2);
    MoveThen(code, Config(p0, c.height + 1, c.tries), 1, 1, k);
    ExprThen(code, over, cx, c, k);
    SafeLess(code, c, k + 1, k);
  }

  lemma {:induction false} ForInRounds(code: seq<Op>, x: string, body: seq<Stmt>, cx: Context, c: Config, k: nat, p1: nat, p2: nat)
    requires ForInAt(code, x, body, cx, p1, p2)
    requires BalancedB(body, InLoop(cx, ["_iter"], [x], 0, 0)) && Ready(code, cx, c, k)
    requires Safe(code, Config(p2 + 2, |cx.locals|, c.tries), k)
    ensures Safe(code, Config(p1, c.height + 1, c.tries), k)
    decreases k, body, 3
  {
    hide At, Ready, CodeScope, SizeScope, BalancedB, Handled, Safe;
    if k > 0 {
      var j := k - 1;
      ReadyLess(code, cx, c, k, j);
      ReadyFacts(code, cx, c, j);
      SafeLess(code, Config(p2 + 2, |cx.locals|, c.tries), k, j);
      ForInRounds(code, x, body, cx, c, j, p1, p2);
      PopThen(code, Config(p2 + 1, c.height + 1, c.tries), j);
      JumpThen(code, Config(p2, c.height + 1, c.tries), p1, j);
      LoopBodySafe(code, body, cx, ["_iter"], [x], p2 + 1, p1, c, p1 + 1, j);
      SafeLess(code, Config(p1 + 1, c.height + 2, c.tries), j + 1, j);
      HandledLess(code, c.tries, c.height, j, c.height + 1, j);
      DoForIter(code, Config(p1, c.height + 1, c.tries), p2 + 1, j);
    } else {
      SafeNow(code, Config(p1, c.height + 1, c.tries));
    }
  }

  // ---- Counted loops ----

  /** The instructions of a counted loop around its body. */
  predicate RepeatAt(code: seq<Op>, p1: nat, p2: nat) {
    && p1 + 5 <= p2 && p2 + 9 <= |code|
    && code[p1..p1 + 5] == [Move(0, 1), Move(0, 1), Move(2, 1), JumpIfFalse(p2 + 6), Op.Pop]
    && code[p2..p2 + 9] == [Move(0, 1), Move(0, 1), Move(2, 1), Move(1, 1), Op.Pop, Jump(p1), Op.Pop, Op.Pop, Op.Pop]
  }

  lemma RepeatOps(code: seq<Op>, p1: nat, p2: nat)
    requires RepeatAt(code, p1, p2)
    ensures code[p1] == Move(0, 1) && code[p1 + 1] == Move(0, 1) && code[p1 + 2] == Move(2, 1) && code[p1 + 3] == JumpIfFalse(p2 + 6)
    ensures code[p1 + 4] == Op.Pop
    ensures code[p2] == Move(0, 1) && code[p2 + 1] == Move(0, 1) && code[p2 + 2] == Move(2, 1) && code[p2 + 3] == Move(1, 1) && code[p2 + 4] == Op.Pop
    ensures code[p2 + 5] == Jump(p1) && code[p2 + 6] == Op.Pop && code[p2 + 7] == Op.Pop && code[p2 + 8] == Op.Pop
  {
    var a, b := code[p1..p1 + 5], code[p2..p2 + 9];
    assert a[0] == code[p1] && a[1] == code[p1 + 1] && a[2] == code[p1 + 2] && a[3] == code[p1 + 3] && a[4] == code[p1 + 4];
    assert b[0] == code[p2] && b[1] == code[p2 + 1] && b[2] == code[p2 + 2] && b[3] == code[p2 + 3] && b[4] == code[p2 + 4];
    assert b[5] == code[p2 + 5] && b[6] == code[p2 + 6] && b[7] == code[p2 + 7] && b[8] == code[p2 + 8];
  }

  lemma {:induction false} RepeatSafe(code: seq<Op>, count: Expr, body: seq<Stmt>, cx: Context, c: Config, k: nat)
    requires At(code, c.pc, CodeS(Repeat(count, body), c.pc, cx)) && Ready(code, cx, c, k) && BalancedB(body, InLoop(cx, ["", ""], [], 0, 0))
    requires Safe(code, Config(c.pc + SizeS(Repeat(count, body), cx), |cx.locals|, c.tries), k)
    ensures Safe(code, c, k)
    decreases k, Repeat(count, body), 2
  {
    hide Safe, At, Ready, CodeE, CodeScope, SizeScope, BalancedB, Handled, RepeatAt;
    var p1, end := c.pc + SizeE(count) + 1, c.pc + SizeS(Repeat(count, body), cx);
    var p2 := end - 9;
    ReadyFacts(code, cx, c, k);
    RepeatLayout(code, count, body, cx, c.pc);
    RepeatOps(code, p1, p2);
    RepeatRounds(code, body, cx, c, k, p1, p2);
    MoveThen(code, Config(p1 - 1, c.height + 1, c.tries), 0, 1, k);
    ExprThen(code, count, cx, c, k);
    SafeLess(code, c, k + 1, k);
  }

  lemma {:induction false} RepeatPieces(code: seq<Op>, p: nat, count: seq<Op>, start: seq<Op>, head: seq<Op>, scope: seq<Op>, tail: seq<Op>)
    requires At(code, p, count + (start + head) + scope + tail)
    ensures At(code, p, count) && At(code, p + |count|, start) && At(code, p + |count| + |start|, head)
    ensures At(code, p + |count| + |start| + |head|, scope) && At(code, p + |count| + |start| + |head| + |scope|, tail)
  {
    hide At;
    AtSplit(code, p, count + (start + head) + scope, tail);
    AtThree(code, p, count, start + head, scope);
    AtSplit(code, p + |count|, start, head);
  }

  lemma {:induction false} RepeatLayout(code: seq<Op>, count: Expr, body: seq<Stmt>, cx: Context, p: nat)
    requires At(code, p, CodeS(Repeat(count, body), p, cx))
    ensures var p1, end := p + SizeE(count) + 1, p + SizeS(Repeat(count, body), cx);
            var p2 := end - 9;
            && At(code, p, CodeE(count, p)) && p2 == p1 + 5 + SizeScope(body, InLoop(cx, ["", ""], [], 0, 0), |cx.locals| + 2)
            && p1 - 1 < |code| && code[p1 - 1] == Move(0, 1) && RepeatAt(code, p1, p2)
            && At(code, p1 + 5, CodeScope(body, p1 + 5, InLoop(cx, ["", ""], [], p2 + 7, p2), |cx.locals| + 2))
  {
    hide CodeE, CodeScope, SizeScope, At;
    var p1, end := p + SizeE(count) + 1, p + SizeS(Repeat(count, body), cx);
    var p2 := end - 9;
    var inner := InLoop(cx, ["", ""], [], p2 + 7, p2);
    CodeSizeScope(body, p1 + 5, inner, |cx.locals| + 2, InLoop(cx, ["", ""], [], 0, 0));
    var head := [Move(0, 1), Move(0, 1), Move(2, 1), JumpIfFalse(p2 + 6), Op.Pop];
    var tail := [Move(0, 1), Move(0, 1), Move(2, 1), Move(1, 1), Op.Pop, Jump(p1), Op.Pop, Op.Pop, Op.Pop];
    var scope := CodeScope(body, p1 + 5, inner, |cx.locals| + 2);
    assert [Move(0, 1)] + head == [Move(0, 1), Move(0, 1), Move(0, 1), Move(2, 1), JumpIfFalse(p2 + 6), Op.Pop];
    RepeatPieces(code, p, CodeE(count, p), [Move(0, 1)], head, scope, tail);
    AtLast(code, p1 - 1, Move(0, 1));
    AtMeans(code, p1, head);
    AtMeans(code, p2, tail);
  }

  lemma AtMeans(code: seq<Op>, p: nat, q: seq<Op>)
    requires At(code, p, q)
    ensures p + |q| <= |code| && code[p..p + |q|] == q
  {}

  lemma {:induction false} RepeatRounds(code: seq<Op>, body: seq<Stmt>, cx: Context, c: Config, k: nat, p1: nat, p2: nat)
    requires RepeatAt(code, p1, p2) && p2 == p1 + 5 + SizeScope(body, InLoop(cx, ["", ""], [], 0, 0), |cx.locals| + 2)
    requires At(code, p1 + 5, CodeScope(body, p1 + 5, InLoop(cx, ["", ""], [], p2 + 7, p2), |cx.locals| + 2))
    requires BalancedB(body, InLoop(cx, ["", ""], [], 0, 0)) && Ready(code, cx, c, k)
    requires Safe(code, Config(p2 + 9, |cx.locals|, c.tries), k)
    ensures Safe(code, Config(p1, c.height + 2, c.tries), k)
    decreases k, body, 3
  {
    hide At, Ready, CodeScope, SizeScope, BalancedB, Handled, Fine, Nexts, RepeatAt;
    if k > 0 {
      var j := k - 1;
      ReadyLess(code, cx, c, k, j);
      ReadyFacts(code, cx, c, j);
      SafeLess(code, Config(p2 + 9, |cx.locals|, c.tries), k, j);
      RepeatRounds(code, body, cx, c, j, p1, p2);
      RepeatEnds(code, cx, c, j, p1, p2);
      RepeatCounts(code, cx, c, j, p1, p2);
      LoopBodySafe(code, body, cx, ["", ""], [], p2 + 7, p2, c, p1 + 5, j);
      SafeLess(code, Config(p1 + 5, c.height + 2, c.tries), j + 1, j);
      RepeatTests(code, cx, c, j, p1, p2);
    }
  }

  /** Out of the loop: the comparison, the counter and the count go. */
  lemma RepeatEnds(code: seq<Op>, cx: Context, c: Config, j: nat, p1: nat, p2: nat)
    requires RepeatAt(code, p1, p2) && Safe(code, Config(p2 + 9, c.height, c.tries), j)
    ensures Safe(code, Config(p2 + 7, c.height + 2, c.tries), j) && Safe(code, Config(p2 + 6, c.height + 3, c.tries), j)
  {
    hide Safe, RepeatAt;
    RepeatOps(code, p1, p2);
    RepeatInside(code, p1, p2);
    PopThen(code, Config(p2 + 8, c.height + 1, c.tries), j);
    PopThen(code, Config(p2 + 7, c.height + 2, c.tries), j);
    PopThen(code, Config(p2 + 6, c.height + 3, c.tries), j);
  }

  lemma RepeatInside(code: seq<Op>, p1: nat, p2: nat)
    requires RepeatAt(code, p1, p2)
    ensures p1 + 5 <= p2 && p2 + 9 <= |code|
  {}

  /** Counting up, and back to the test. */
  lemma RepeatCounts(code: seq<Op>, cx: Context, c: Config, j: nat, p1: nat, p2: nat)
    requires RepeatAt(code, p1, p2) && Ready(code, cx, c, j) && Safe(code, Config(p1, c.height + 2, c.tries), j)
    ensures Safe(code, Config(p2, c.height + 2, c.tries), j)
  {
    hide Safe, RepeatAt, Ready;
    RepeatOps(code, p1, p2);
    RepeatInside(code, p1, p2);
    JumpThen(code, Config(p2 + 5, c.height + 2, c.tries), p1, j);
    PopThen(code, Config(p2 + 4, c.height + 3, c.tries), j);
    MoveThen(code, Config(p2 + 3, c.height + 3, c.tries), 1, 1, j);
    MoveThen(code, Config(p2 + 2, c.height + 4, c.tries), 2, 1, j);
    MoveThen(code, Config(p2 + 1, c.height + 3, c.tries), 0, 1, j);
    MoveThen(code, Config(p2, c.height + 2, c.tries), 0, 1, j);
  }

  /** The test of a counted loop. */
  lemma RepeatTests(code: seq<Op>, cx: Context, c: Config, j: nat, p1: nat, p2: nat)
    requires RepeatAt(code, p1, p2) && Ready(code, cx, c, j)
    requires Safe(code, Config(p1 + 5, c.height + 2, c.tries), j) && Safe(code, Config(p2 + 6, c.height + 3, c.tries), j)
    ensures Safe(code, Config(p1, c.height + 2, c.tries), j + 1)
  {
    hide Safe, RepeatAt, Ready, Handled;
    RepeatOps(code, p1, p2);
    RepeatInside(code, p1, p2);
    PopThen(code, Config(p1 + 4, c.height + 3, c.tries), j);
    TestThen(code, Config(p1 + 3, c.height + 3, c.tries), p2 + 6, j);
    MoveThen(code, Config(p1 + 2, c.height + 4, c.tries), 2, 1, j);
    MoveThen(code, Config(p1 + 1, c.height + 3, c.tries), 0, 1, j);
    DoMove(code, Config(p1, c.height + 2, c.tries), 0, 1, j);
  }

  // ---- Whole functions ----

  function EntryContext(args: seq<string>, outer: set<string>): Context { Context([""] + args, 0, None, outer) }

  /** A call starts with the function and its arguments on the stack and no handler. */
  function Entry(args: seq<string>): Config { Config(0, |args| + 1, []) }

  lemma FunctionSafe(args: seq<string>, outer: set<string>, body: seq<Stmt>, k: nat)
    requires BalancedB(body, EntryContext(args, outer))
    ensures Safe(FunctionBody(args, outer, body), Entry(args), k)
  {
    hide Safe, Handled, SizeB, CodeB, BalancedB, AfterAll;
    var code, cx := FunctionBody(args, outer, body), EntryContext(args, outer);
    var block, end := CodeB(body, 0, cx), SizeB(body, cx);
    CodeSizeB(body, 0, cx);
    assert code == block + [Move(0, 1), Return] && code[..end] == block;
    var d := Config(end, |AfterAll(body, cx.locals, outer)|, []);
    DoReturn(code, d.(pc := end + 1, height := d.height + 1), k);
    EntryReady(code, cx, Entry(args), k);
    DoMove(code, d, 0, 1, k);
    SafeLess(code, d, k + 1, k);
    BlockSafe(code, body, cx, Entry(args), k);
    SafeLess(code, Entry(args), k + 1, k);
  }

  lemma EntryReady(code: seq<Op>, cx: Context, c: Config, k: nat)
    requires cx.loop.None? && cx.tries == 0 && c.tries == [] && c.height == |cx.locals|
    ensures Ready(code, cx, c, k)
  {}

  /** A path of the machine, step by step. */
  ghost predicate Path(code: seq<Op>, path: seq<Config>)
    decreases |path|
  {
    |path| <= 1 || (path[0].pc < |code| && path[1] in Nexts(code, path[0]) && Path(code, path[1..]))
  }

  lemma {:induction false} PathFine(code: seq<Op>, path: seq<Config>, i: nat)
    requires Path(code, path) && i < |path| && Safe(code, path[0], |path|)
    ensures Fine(code, path[i])
    decreases i
  {
    hide Fine, Nexts;
    if i > 0 {
      assert path[1..][0] == path[1] && path[1..][i - 1] == path[i];
      PathFine(code, path[1..], i - 1);
    }
  }

  /**
   * On every path of a balanced function, a statement boundary is reached with as many values above
   * the frame base as the compiler counts locals, and with as many handlers as it counts open try blocks.
   */
  lemma BoundariesAreBalanced(args: seq<string>, outer: set<string>, body: seq<Stmt>, path: seq<Config>, i: nat)
    requires BalancedB(body, EntryContext(args, outer)) && Path(FunctionBody(args, outer, body), path)
    requires i < |path| && path[0] == Entry(args)
    ensures var code := FunctionBody(args, outer, body);
            && Fine(code, path[i]) && path[i].pc < |code|
            && (code[path[i].pc].Mark? ==> path[i].height == code[path[i].pc].locals && |path[i].tries| == code[path[i].pc].tries)
  {
    hide Safe, Path, Nexts, FunctionBody, BalancedB;
    FunctionSafe(args, outer, body, |path|);
    PathFine(FunctionBody(args, outer, body), path, i);
  }
}
