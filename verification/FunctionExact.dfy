/**
 * Which functions are balanced, exactly: where every statement can be reached, some path meets a
 * statement boundary at the wrong heights unless no try body and no `unless` body makes a local.
 */
module FunctionExact {
  import opened FunctionCode
  import opened FunctionBalance
  import opened FunctionRuns

  // ---- Paths ----

  predicate MarkRight(code: seq<Op>, c: Config) {
    c.pc < |code| && code[c.pc].Mark? ==> c.height == code[c.pc].locals && |c.tries| == code[c.pc].tries
  }

  /** On every path from c, every statement boundary is met at the heights the compiler counts on. */
  ghost predicate Right(code: seq<Op>, c: Config) {
    forall path: seq<Config> | path != [] && path[0] == c && Path(code, path) :: MarkRight(code, path[|path| - 1])
  }

  lemma Onward(code: seq<Op>, c: Config, d: Config)
    requires Right(code, c) && c.pc < |code| && d in Nexts(code, c)
    ensures Right(code, d)
  {
    hide Nexts, MarkRight;
    forall path: seq<Config> | path != [] && path[0] == d && Path(code, path) ensures MarkRight(code, path[|path| - 1]) {
      var longer := [c] + path;
      assert longer[1..] == path && longer[|longer| - 1] == path[|path| - 1];
      assert Path(code, longer);
    }
  }

  lemma RightHere(code: seq<Op>, c: Config)
    requires Right(code, c)
    ensures MarkRight(code, c)
  {
    assert Path(code, [c]) && [c][0] == c;
  }

  /** Where an error leads while a handler is open. */
  function CaughtBy(tries: seq<Frame>): Config
    requires tries != []
  {
    var f := tries[|tries| - 1];
    Config(f.catch, f.height + 1, tries[..|tries| - 1])
  }

  lemma OnMark(code: seq<Op>, c: Config)
    requires Right(code, c) && c.pc < |code| && code[c.pc].Mark?
    ensures Right(code, c.(pc := c.pc + 1))
  {
    hide Right;
    Onward(code, c, c.(pc := c.pc + 1));
  }

  lemma OnMove(code: seq<Op>, c: Config, p: nat, q: nat)
    requires Right(code, c) && c.pc < |code| && (code[c.pc] == Move(p, q) || code[c.pc] == Use(p, q)) && c.height >= p
    ensures Right(code, Config(c.pc + 1, c.height - p + q, c.tries))
  {
    hide Right;
    Onward(code, c, Config(c.pc + 1, c.height - p + q, c.tries));
  }

  lemma OnPop(code: seq<Op>, c: Config)
    requires Right(code, c) && c.pc < |code| && code[c.pc] == Op.Pop && c.height >= 1
    ensures Right(code, Config(c.pc + 1, c.height - 1, c.tries))
  {
    hide Right;
    Onward(code, c, Config(c.pc + 1, c.height - 1, c.tries));
  }

  lemma OnJump(code: seq<Op>, c: Config, t: nat)
    requires Right(code, c) && c.pc < |code| && code[c.pc] == Jump(t)
    ensures Right(code, c.(pc := t))
  {
    hide Right;
    Onward(code, c, c.(pc := t));
  }

  lemma OnTest(code: seq<Op>, c: Config, t: nat)
    requires Right(code, c) && c.pc < |code| && code[c.pc] == JumpIfFalse(t)
    ensures Right(code, c.(pc := c.pc + 1)) && Right(code, c.(pc := t))
  {
    hide Right;
    Onward(code, c, c.(pc := c.pc + 1));
    Onward(code, c, c.(pc := t));
  }

  lemma OnForIter(code: seq<Op>, c: Config, t: nat)
    requires Right(code, c) && c.pc < |code| && code[c.pc] == ForIter(t)
    ensures Right(code, Config(c.pc + 1, c.height + 1, c.tries)) && Right(code, c.(pc := t))
  {
    hide Right;
    Onward(code, c, Config(c.pc + 1, c.height + 1, c.tries));
    Onward(code, c, c.(pc := t));
  }

  lemma OnTry(code: seq<Op>, c: Config, t: nat)
    requires Right(code, c) && c.pc < |code| && code[c.pc] == Try(t)
    ensures Right(code, Config(c.pc + 1, c.height, c.tries + [Frame(t, c.height)]))
  {
    hide Right;
    Onward(code, c, Config(c.pc + 1, c.height, c.tries + [Frame(t, c.height)]));
  }

  lemma OnEndTry(code: seq<Op>, c: Config)
    requires Right(code, c) && c.pc < |code| && code[c.pc] == EndTry && c.tries != []
    ensures Right(code, Config(c.pc + 1, c.height, c.tries[..|c.tries| - 1]))
  {
    hide Right;
    Onward(code, c, Config(c.pc + 1, c.height, c.tries[..|c.tries| - 1]));
  }

  lemma OnError(code: seq<Op>, c: Config)
    requires Right(code, c) && c.pc < |code| && (code[c.pc].Use? || code[c.pc].Throw?) && c.tries != []
    ensures Right(code, CaughtBy(c.tries))
  {
    hide Right;
    Onward(code, c, CaughtBy(c.tries));
  }

  lemma {:induction false} OnPops(code: seq<Op>, c: Config, n: nat)
    requires Right(code, c) && At(code, c.pc, Times(Op.Pop, n)) && c.height >= n
    ensures Right(code, Config(c.pc + n, c.height - n, c.tries))
    decreases n
  {
    hide Right, At;
    if n > 0 {
      assert Times(Op.Pop, n) == [Op.Pop] + Times(Op.Pop, n - 1);
      AtOp(code, c.pc, Op.Pop, Times(Op.Pop, n - 1));
      OnPop(code, c);
      OnPops(code, Config(c.pc + 1, c.height - 1, c.tries), n - 1);
    }
  }

  lemma {:induction false} OnEndTries(code: seq<Op>, c: Config, n: nat)
    requires Right(code, c) && At(code, c.pc, Times(EndTry, n)) && n <= |c.tries|
    ensures Right(code, Config(c.pc + n, c.height, c.tries[..|c.tries| - n]))
    decreases n
  {
    hide Right, At;
    if n > 0 {
      assert Times(EndTry, n) == [EndTry] + Times(EndTry, n - 1);
      AtOp(code, c.pc, EndTry, Times(EndTry, n - 1));
      OnEndTry(code, c);
      var d := Config(c.pc + 1, c.height, c.tries[..|c.tries| - 1]);
      OnEndTries(code, d, n - 1);
      assert d.tries[..|d.tries| - (n - 1)] == c.tries[..|c.tries| - n];
    } else {
      assert c.tries[..|c.tries| - n] == c.tries;
    }
  }

  lemma {:induction false} OnNulls(code: seq<Op>, c: Config, n: nat)
    requires Right(code, c) && At(code, c.pc, Times(Move(0, 1), n))
    ensures Right(code, Config(c.pc + n, c.height + n, c.tries))
    decreases n
  {
    hide Right, At;
    if n > 0 {
      assert Times(Move(0, 1), n) == [Move(0, 1)] + Times(Move(0, 1), n - 1);
      AtOp(code, c.pc, Move(0, 1), Times(Move(0, 1), n - 1));
      OnMove(code, c, 0, 1);
      OnNulls(code, Config(c.pc + 1, c.height + 1, c.tries), n - 1);
    }
  }

  // ---- What a statement can do ----

  /** An error can come up in the expression. */
  predicate RaisesE(e: Expr) {
    match e
    case Atom => false
    case Operate(args, fails) => fails || exists a | a in args :: RaisesE(a)
    case And(l, r) => RaisesE(l) || RaisesE(r)
    case Or(l, r) => RaisesE(l) || RaisesE(r)
  }

  /** An error can leave the statement. */
  predicate Raises(s: Stmt)
    decreases s
  {
    match s
    case Do(e) => RaisesE(e)
    case Leave(e) => RaisesE(e)
    case Print(e) => RaisesE(e)
    case Assign(_, e) => RaisesE(e)
    case If(c, thn, els) => RaisesE(c) || RaisesB(thn) || RaisesB(els)
    case Unless(c, body) => RaisesE(c) || RaisesB(body)
    case While(c, body) => RaisesE(c) || RaisesB(body)
    case Until(c, body) => RaisesE(c) || RaisesB(body)
    case Forever(body) => RaisesB(body)
    case Repeat(count, body) => RaisesE(count) || RaisesB(body)
    case ForIn(_, over, body) => RaisesE(over) || RaisesB(body)
    case TryCatch(body, _, handler) => RaisesB(handler)
    case Raise(_) => true
    case Give(e) => RaisesE(e)
    case _ => false
  }

  predicate RaisesB(b: seq<Stmt>)
    decreases b
  {
    b != [] && (Raises(b[0]) || RaisesB(b[1..]))
  }

  /** The statement can end by stop, in the loop around it. */
  predicate Stops(s: Stmt)
    decreases s
  {
    match s
    case If(_, thn, els) => StopsB(thn) || StopsB(els)
    case Unless(_, body) => StopsB(body)
    case TryCatch(body, _, handler) => StopsB(body) || StopsB(handler)
    case Stop => true
    case _ => false
  }

  predicate StopsB(b: seq<Stmt>)
    decreases b
  {
    b != [] && (Stops(b[0]) || StopsB(b[1..]))
  }

  /** The statement can end by running into what follows it. */
  predicate Passes(s: Stmt)
    decreases s
  {
    match s
    case If(_, thn, els) => PassesB(thn) || PassesB(els)
    case TryCatch(body, _, handler) => PassesB(body) || PassesB(handler)
    case Forever(body) => StopsB(body)
    case Raise(_) => false
    case Give(_) => false
    case Stop => false
    case Skip => false
    case _ => true
  }

  predicate PassesB(b: seq<Stmt>)
    decreases b
  {
    b == [] || (Passes(b[0]) && PassesB(b[1..]))
  }

  /** Nothing follows a statement that cannot be passed, and every handler has an error to handle. */
  predicate Live(s: Stmt)
    decreases s
  {
    match s
    case If(_, thn, els) => LiveB(thn) && LiveB(els)
    case Unless(_, body) => LiveB(body)
    case While(_, body) => LiveB(body)
    case Until(_, body) => LiveB(body)
    case Forever(body) => LiveB(body)
    case Repeat(_, body) => LiveB(body)
    case ForIn(_, _, body) => LiveB(body)
    case TryCatch(body, _, handler) => LiveB(body) && LiveB(handler) && RaisesB(body)
    case _ => true
  }

  predicate LiveB(b: seq<Stmt>)
    decreases b
  {
    b == [] || (Live(b[0]) && (b[1..] == [] || Passes(b[0])) && LiveB(b[1..]))
  }

  /** Every stop and skip stands in a loop; elsewhere they are compile errors. */
  predicate Looped(s: Stmt, loop: bool)
    decreases s
  {
    match s
    case If(_, thn, els) => LoopedB(thn, loop) && LoopedB(els, loop)
    case Unless(_, body) => LoopedB(body, loop)
    case While(_, body) => LoopedB(body, true)
    case Until(_, body) => LoopedB(body, true)
    case Forever(body) => LoopedB(body, true)
    case Repeat(_, body) => LoopedB(body, true)
    case ForIn(_, _, body) => LoopedB(body, true)
    case TryCatch(body, _, handler) => LoopedB(body, loop) && LoopedB(handler, loop)
    case Stop => loop
    case Skip => loop
    case _ => true
  }

  predicate LoopedB(b: seq<Stmt>, loop: bool)
    decreases b
  {
    b == [] || (Looped(b[0], loop) && LoopedB(b[1..], loop))
  }

  // ---- Expressions ----

  lemma {:induction false} OnExpr(code: seq<Op>, e: Expr, c: Config)
    requires Right(code, c) && At(code, c.pc, CodeE(e, c.pc))
    ensures Right(code, Config(c.pc + SizeE(e), c.height + 1, c.tries))
    ensures RaisesE(e) && c.tries != [] ==> Right(code, CaughtBy(c.tries))
    decreases e, 1
  {
    hide Right, At, CodeE, SizeE;
    ExprParts(e, c.pc);
    match e
    case Atom =>
      AtLast(code, c.pc, Move(0, 1));
      OnMove(code, c, 0, 1);
    case Operate(args, fails) => OnOperate(code, args, fails, c);
    case And(l, r) => OnAnd(code, l, r, c);
    case Or(l, r) => OnOr(code, l, r, c);
  }

  lemma {:induction false} OnOperate(code: seq<Op>, args: seq<Expr>, fails: bool, c: Config)
    requires Right(code, c) && At(code, c.pc, OperateE(args, fails, c.pc))
    ensures Right(code, Config(c.pc + SizeEs(args) + 1, c.height + 1, c.tries))
    ensures (fails || exists a | a in args :: RaisesE(a)) && c.tries != [] ==> Right(code, CaughtBy(c.tries))
    decreases Operate(args, fails), 0
  {
    hide Right, At, CodeEs, SizeEs;
    var op := if fails then Use(|args|, 1) else Move(|args|, 1);
    AtSplit(code, c.pc, CodeEs(args, c.pc), [op]);
    AtLast(code, c.pc + SizeEs(args), op);
    var d := Config(c.pc + SizeEs(args), c.height + |args|, c.tries);
    OnExprs(code, args, c);
    OnMove(code, d, |args|, 1);
    if fails && c.tries != [] { OnError(code, d); }
  }

  lemma {:induction false} OnExprs(code: seq<Op>, es: seq<Expr>, c: Config)
    requires Right(code, c) && At(code, c.pc, CodeEs(es, c.pc))
    ensures Right(code, Config(c.pc + SizeEs(es), c.height + |es|, c.tries))
    ensures (exists a | a in es :: RaisesE(a)) && c.tries != [] ==> Right(code, CaughtBy(c.tries))
    decreases es, 0
  {
    hide Right, At, CodeE, SizeE, RaisesE;
    if es != [] {
      AtSplit(code, c.pc, CodeE(es[0], c.pc), CodeEs(es[1..], c.pc + SizeE(es[0])));
      OnExpr(code, es[0], c);
      OnExprs(code, es[1..], Config(c.pc + SizeE(es[0]), c.height + 1, c.tries));
    }
  }

  lemma {:induction false} OnAnd(code: seq<Op>, l: Expr, r: Expr, c: Config)
    requires Right(code, c) && At(code, c.pc, CodeE(And(l, r), c.pc))
    ensures Right(code, Config(c.pc + SizeE(And(l, r)), c.height + 1, c.tries))
    ensures (RaisesE(l) || RaisesE(r)) && c.tries != [] ==> Right(code, CaughtBy(c.tries))
    decreases And(l, r), 0
  {
    hide Right, At, CodeE, SizeE;
    AndLayout(code, l, r, c.pc);
    var d := Config(c.pc + SizeE(l), c.height + 1, c.tries);
    OnExpr(code, l, c);
    OnTest(code, d, c.pc + SizeE(And(l, r)));
    OnPop(code, d.(pc := d.pc + 1));
    OnExpr(code, r, Config(d.pc + 2, c.height, c.tries));
  }

  lemma {:induction false} OnOr(code: seq<Op>, l: Expr, r: Expr, c: Config)
    requires Right(code, c) && At(code, c.pc, CodeE(Or(l, r), c.pc))
    ensures Right(code, Config(c.pc + SizeE(Or(l, r)), c.height + 1, c.tries))
    ensures (RaisesE(l) || RaisesE(r)) && c.tries != [] ==> Right(code, CaughtBy(c.tries))
    decreases Or(l, r), 0
  {
    hide Right, At, CodeE, SizeE;
    OrLayout(code, l, r, c.pc);
    var d := Config(c.pc + SizeE(l), c.height + 1, c.tries);
    OnExpr(code, l, c);
    OnTest(code, d, d.pc + 2);
    OnJump(code, d.(pc := d.pc + 1), c.pc + SizeE(Or(l, r)));
    OnPop(code, d.(pc := d.pc + 2));
    OnExpr(code, r, Config(d.pc + 3, c.height, c.tries));
  }

  // ---- Statements ----

  /** The machine stands at code made for cx, at the heights of cx. */
  predicate Stands(cx: Context, c: Config) {
    && c.height == |cx.locals| && |c.tries| == cx.tries
    && (cx.loop.Some? ==> cx.loop.value.locals <= |cx.locals| && cx.loop.value.tries <= cx.tries)
  }

  /** Each way out that exists leads on with every boundary met right. */
  ghost predicate Outcomes(code: seq<Op>, cx: Context, tries: seq<Frame>, passes: bool, end: Config, stops: bool, raises: bool)
    requires |tries| == cx.tries && (cx.loop.Some? ==> cx.loop.value.tries <= cx.tries)
  {
    && (passes ==> Right(code, end))
    && (stops && cx.loop.Some? ==> var l := cx.loop.value; Right(code, Config(l.stop, l.locals, tries[..l.tries])))
    && (raises && tries != [] ==> Right(code, CaughtBy(tries)))
  }

  ghost predicate OutcomesS(code: seq<Op>, s: Stmt, cx: Context, c: Config)
    requires Stands(cx, c)
  {
    Outcomes(code, cx, c.tries, Passes(s), Config(c.pc + SizeS(s, cx), |After(s, cx.locals, cx.outer)|, c.tries), Stops(s), Raises(s))
  }

  ghost predicate OutcomesB(code: seq<Op>, b: seq<Stmt>, cx: Context, c: Config)
    requires Stands(cx, c)
  {
    Outcomes(code, cx, c.tries, PassesB(b), Config(c.pc + SizeB(b, cx), |AfterAll(b, cx.locals, cx.outer)|, c.tries), StopsB(b), RaisesB(b))
  }

  lemma FirstMark(code: seq<Op>, b: seq<Stmt>, p: nat, cx: Context)
    requires At(code, p, CodeB(b, p, cx))
    ensures p < |code| && code[p] == Mark(|cx.locals|, cx.tries)
  {
    hide CodeS, SizeS, After;
    var rest := if b == [] then [] else CodeS(b[0], p + 1, cx) + CodeB(b[1..], p + 1 + SizeS(b[0], cx), cx.(locals := After(b[0], cx.locals, cx.outer)));
    AtOp(code, p, Mark(|cx.locals|, cx.tries), rest);
  }

  lemma {:induction false} BlockParts(code: seq<Op>, b: seq<Stmt>, p: nat, cx: Context)
    requires b != [] && At(code, p, CodeB(b, p, cx))
    ensures var end, next := p + 1 + SizeS(b[0], cx), cx.(locals := After(b[0], cx.locals, cx.outer));
            && At(code, p + 1, CodeS(b[0], p + 1, cx)) && At(code, end, CodeB(b[1..], end, next))
            && p + SizeB(b, cx) == end + SizeB(b[1..], next)
  {
    hide At, CodeS, SizeS, After;
    var end, next := p + 1 + SizeS(b[0], cx), cx.(locals := After(b[0], cx.locals, cx.outer));
    AtOp(code, p, Mark(|cx.locals|, cx.tries), CodeS(b[0], p + 1, cx) + CodeB(b[1..], end, next));
    CodeSizeS(b[0], p + 1, cx);
    AtSplit(code, p + 1, CodeS(b[0], p + 1, cx), CodeB(b[1..], end, next));
  }

  lemma {:induction false} OnBlock(code: seq<Op>, b: seq<Stmt>, cx: Context, c: Config)
    requires Right(code, c) && Stands(cx, c) && At(code, c.pc, CodeB(b, c.pc, cx)) && LiveB(b) && LoopedB(b, cx.loop.Some?)
    ensures BalancedB(b, cx) && OutcomesB(code, b, cx, c)
    decreases b, 0
  {
    hide Right, At, CodeB, CodeS, SizeS, After, Live, Looped, Balanced, Stops, Raises, Passes;
    FirstMark(code, b, c.pc, cx);
    OnMark(code, c);
    if b == [] {
    } else {
      var s, d, next := b[0], c.(pc := c.pc + 1), cx.(locals := After(b[0], cx.locals, cx.outer));
      var e := Config(d.pc + SizeS(s, cx), |next.locals|, c.tries);
      BlockParts(code, b, c.pc, cx);
      FirstMark(code, b[1..], e.pc, next);
      OnStmt(code, s, cx, d);
      if Passes(s) {
        OnBlock(code, b[1..], next, e);
      } else {
        assert b[1..] == [] && !RaisesB(b[1..]) && !StopsB(b[1..]) && BalancedB(b[1..], next) && !PassesB(b);
      }
    }
  }

  lemma {:induction false} OnStmt(code: seq<Op>, s: Stmt, cx: Context, c: Config)
    requires Right(code, c) && Stands(cx, c) && At(code, c.pc, CodeS(s, c.pc, cx)) && Live(s) && Looped(s, cx.loop.Some?)
    requires var end := c.pc + SizeS(s, cx); end < |code| && code[end] == Mark(|After(s, cx.locals, cx.outer)|, cx.tries)
    ensures Balanced(s, cx) && OutcomesS(code, s, cx, c)
    decreases s, 3
  {
    hide Right, At, CodeS, SizeS, AfterAll, Hoisted, LiveB, LoopedB, BalancedB, StopsB, RaisesB, PassesB, OutcomesS, RaisesE;
    match s
    case If(cond, thn, els) => OnIf(code, cond, thn, els, cx, c);
    case Unless(cond, body) => OnUnless(code, cond, body, cx, c);
    case While(cond, body) => OnWhile(code, cond, body, cx, c);
    case Until(cond, body) => OnUntil(code, cond, body, cx, c);
    case Forever(body) => OnForever(code, body, cx, c);
    case Repeat(count, body) => OnRepeat(code, count, body, cx, c);
    case ForIn(x, over, body) => OnForIn(code, x, over, body, cx, c);
    case TryCatch(body, x, handler) => OnTryCatch(code, body, x, handler, cx, c);
    case Leave(e) => OnLeft(code, e, cx, c);
    case _ => OnSimple(code, s, cx, c);
  }

  lemma OnSimple(code: seq<Op>, s: Stmt, cx: Context, c: Config)
    requires !s.If? && !s.Unless? && !s.While? && !s.Until? && !s.Forever? && !s.Repeat? && !s.ForIn? && !s.TryCatch? && !s.Leave?
    requires Right(code, c) && Stands(cx, c) && At(code, c.pc, CodeS(s, c.pc, cx)) && Looped(s, cx.loop.Some?)
    ensures OutcomesS(code, s, cx, c)
  {
    hide Right, At, CodeE, SizeE, LeaveCode, Leaving, RaisesE;
    match s
    case Do(e) => OnEnds(code, e, Op.Pop, c);
    case Print(e) => OnEnds(code, e, Move(1, 0), c);
    case Assign(x, e) =>
      if Known(x, cx.locals, cx.outer) {
        AtSplit(code, c.pc, CodeE(e, c.pc), [Move(1, 1), Op.Pop]);
        AtTwo(code, c.pc + SizeE(e), Move(1, 1), Op.Pop);
        OnExpr(code, e, c);
        OnMove(code, Config(c.pc + SizeE(e), c.height + 1, c.tries), 1, 1);
        OnPop(code, Config(c.pc + SizeE(e) + 1, c.height + 1, c.tries));
      } else {
        assert CodeE(e, c.pc) + [] == CodeE(e, c.pc);
        OnExpr(code, e, c);
      }
    case Raise(e) => OnEnds(code, e, Throw, c);
    case Give(e) => OnEnds(code, e, Return, c);
    case Stop => OnLeave(code, cx, c, cx.loop.value.stop);
    case Skip =>
    case Pass =>
  }

  /** Behind a value that is left, the stack is one too high for the next boundary. */
  lemma OnLeft(code: seq<Op>, e: Expr, cx: Context, c: Config)
    requires Right(code, c) && Stands(cx, c) && At(code, c.pc, CodeS(Leave(e), c.pc, cx))
    ensures var end := c.pc + SizeS(Leave(e), cx); end < |code| ==> code[end] != Mark(|After(Leave(e), cx.locals, cx.outer)|, cx.tries)
  {
    hide Right, At, CodeE, SizeE;
    OnExpr(code, e, c);
    RightHere(code, Config(c.pc + SizeE(e), c.height + 1, c.tries));
  }

  lemma OnEnds(code: seq<Op>, e: Expr, op: Op, c: Config)
    requires op in {Op.Pop, Move(1, 0), Throw, Return} && At(code, c.pc, CodeE(e, c.pc) + [op]) && Right(code, c)
    ensures op.Pop? || op.Move? ==> Right(code, Config(c.pc + SizeE(e) + 1, c.height, c.tries))
    ensures (RaisesE(e) || op.Throw?) && c.tries != [] ==> Right(code, CaughtBy(c.tries))
  {
    hide Right, At, CodeE, SizeE;
    var d := Config(c.pc + SizeE(e), c.height + 1, c.tries);
    AtSplit(code, c.pc, CodeE(e, c.pc), [op]);
    AtLast(code, d.pc, op);
    OnExpr(code, e, c);
    match op {
      case Pop => OnPop(code, d);
      case Move(_, _) => OnMove(code, d, 1, 0);
      case Throw => if c.tries != [] { OnError(code, d); }
      case _ =>
    }
  }

  lemma OnLeave(code: seq<Op>, cx: Context, c: Config, to: nat)
    requires cx.loop.Some? && Stands(cx, c) && Right(code, c) && At(code, c.pc, LeaveCode(cx) + [Jump(to)])
    ensures Right(code, Config(to, cx.loop.value.locals, c.tries[..cx.loop.value.tries]))
  {
    hide Right, At;
    var l := cx.loop.value;
    var nt, nl := cx.tries - l.tries, |cx.locals| - l.locals;
    AtSplit(code, c.pc, LeaveCode(cx), [Jump(to)]);
    AtSplit(code, c.pc, Times(EndTry, nt), Times(Op.Pop, nl));
    AtLast(code, c.pc + nt + nl, Jump(to));
    OnEndTries(code, c, nt);
    OnPops(code, Config(c.pc + nt, c.height, c.tries[..l.tries]), nl);
    OnJump(code, Config(c.pc + nt + nl, l.locals, c.tries[..l.tries]), to);
  }

  // ---- Branches ----

  lemma {:induction false} OnIf(code: seq<Op>, cond: Expr, thn: seq<Stmt>, els: seq<Stmt>, cx: Context, c: Config)
    requires Right(code, c) && Stands(cx, c) && At(code, c.pc, CodeS(If(cond, thn, els), c.pc, cx))
    requires LiveB(thn) && LiveB(els) && LoopedB(thn, cx.loop.Some?) && LoopedB(els, cx.loop.Some?)
    ensures Balanced(If(cond, thn, els), cx) && OutcomesS(code, If(cond, thn, els), cx, c)
    decreases If(cond, thn, els), 2
  {
    hide Right, At, CodeE, SizeE, CodeB, SizeB, BalancedB, AfterAll, Hoisted, LiveB, LoopedB, CodeS, SizeS, RaisesE, StopsB, RaisesB, PassesB, AllKnown;
    var h := Hoisted(thn, els, cx.locals, cx.outer);
    var inner := cx.(locals := cx.locals + h);
    IfLayout(code, cond, thn, els, cx, c.pc);
    HoistedKnown(thn, els, cx.locals, cx.outer);
    var p0 := c.pc + SizeE(cond);
    var p1 := p0 + 2 + |h|;
    var p2 := p1 + SizeB(thn, inner) + 1;
    var p3 := p2 + 1 + |h|;
    OnExpr(code, cond, c);
    OnTest(code, Config(p0, c.height + 1, c.tries), p2);
    OnPop(code, Config(p0 + 1, c.height + 1, c.tries));
    OnNulls(code, Config(p0 + 2, c.height, c.tries), |h|);
    OnBlock(code, thn, inner, Config(p1, |inner.locals|, c.tries));
    KnownSettles(thn, inner);
    OnPop(code, Config(p2, c.height + 1, c.tries));
    OnNulls(code, Config(p2 + 1, c.height, c.tries), |h|);
    assert inner.(locals := AfterAll(thn, inner.locals, cx.outer)) == inner;
    OnBlock(code, els, inner, Config(p3, |inner.locals|, c.tries));
    KnownSettles(els, inner);
    var end := p3 + SizeB(els, inner);
    if PassesB(thn) { OnJump(code, Config(p2 - 1, |inner.locals|, c.tries), end); }
  }

  lemma {:induction false} OnUnless(code: seq<Op>, cond: Expr, body: seq<Stmt>, cx: Context, c: Config)
    requires Right(code, c) && Stands(cx, c) && At(code, c.pc, CodeS(Unless(cond, body), c.pc, cx))
    requires LiveB(body) && LoopedB(body, cx.loop.Some?)
    requires var end := c.pc + SizeS(Unless(cond, body), cx);
             end < |code| && code[end] == Mark(|AfterAll(body, cx.locals, cx.outer)|, cx.tries)
    ensures Balanced(Unless(cond, body), cx) && OutcomesS(code, Unless(cond, body), cx, c)
    decreases Unless(cond, body), 2
  {
    hide Right, At, CodeE, SizeE, CodeB, SizeB, BalancedB, AfterAll, LiveB, LoopedB, CodeS, SizeS, RaisesE, StopsB, RaisesB, PassesB;
    UnlessLayout(code, cond, body, cx, c.pc);
    var p0, end := c.pc + SizeE(cond), c.pc + SizeS(Unless(cond, body), cx);
    OnExpr(code, cond, c);
    OnTest(code, Config(p0, c.height + 1, c.tries), p0 + 3);
    OnPop(code, Config(p0 + 1, c.height + 1, c.tries));
    OnJump(code, Config(p0 + 2, c.height, c.tries), end);
    RightHere(code, Config(end, c.height, c.tries));
    AfterAllExtends(body, cx.locals, cx.outer);
    OnPop(code, Config(p0 + 3, c.height + 1, c.tries));
    OnBlock(code, body, cx, Config(p0 + 4, c.height, c.tries));
  }

  lemma {:induction false} OnTryCatch(code: seq<Op>, body: seq<Stmt>, x: string, handler: seq<Stmt>, cx: Context, c: Config)
    requires Right(code, c) && Stands(cx, c) && At(code, c.pc, CodeS(TryCatch(body, x, handler), c.pc, cx))
    requires LiveB(body) && LiveB(handler) && RaisesB(body) && LoopedB(body, cx.loop.Some?) && LoopedB(handler, cx.loop.Some?)
    ensures Balanced(TryCatch(body, x, handler), cx) && OutcomesS(code, TryCatch(body, x, handler), cx, c)
    decreases TryCatch(body, x, handler), 2
  {
    hide Right, At, CodeB, SizeB, CodeScope, SizeScope, BalancedB, AfterAll, LiveB, LoopedB, CodeS, SizeS, StopsB, RaisesB, PassesB;
    TryLayout(code, body, x, handler, cx, c.pc);
    var inner, after := cx.(tries := cx.tries + 1), AfterAll(body, cx.locals, cx.outer);
    var caught := cx.(locals := after + [x]);
    var p1 := c.pc + 1 + SizeB(body, inner);
    var end := p1 + 2 + SizeScope(handler, caught, |after|);
    var tries := c.tries + [Frame(p1 + 2, c.height)];
    assert tries[..|tries| - 1] == c.tries;
    if cx.loop.Some? { assert tries[..cx.loop.value.tries] == c.tries[..cx.loop.value.tries]; }
    OnTry(code, c, p1 + 2);
    OnBlock(code, body, inner, Config(c.pc + 1, c.height, tries));
    if PassesB(body) {
      OnEndTry(code, Config(p1, |after|, tries));
      OnJump(code, Config(p1 + 1, |after|, c.tries), end);
    }
    var d := Config(p1 + 2, c.height + 1, c.tries);
    AtScope(code, handler, p1 + 2, caught, |after|);
    FirstMark(code, handler, d.pc, caught);
    RightHere(code, d);
    AfterAllExtends(body, cx.locals, cx.outer);
    OnScope(code, handler, caught, |after|, d);
  }

  lemma AtScope(code: seq<Op>, b: seq<Stmt>, p: nat, cx: Context, base: nat)
    requires At(code, p, CodeScope(b, p, cx, base)) && base <= |cx.locals|
    ensures At(code, p, CodeB(b, p, cx)) && At(code, p + SizeB(b, cx), Times(Op.Pop, Scoped(b, cx.locals, cx.outer, base)))
    ensures SizeScope(b, cx, base) == SizeB(b, cx) + Scoped(b, cx.locals, cx.outer, base)
  {
    hide At, CodeB, SizeB, Scoped;
    CodeSizeB(b, p, cx);
    AtSplit(code, p, CodeB(b, p, cx), Times(Op.Pop, Scoped(b, cx.locals, cx.outer, base)));
  }

  /** A block with a scope of its own. */
  lemma {:induction false} OnScope(code: seq<Op>, b: seq<Stmt>, cx: Context, base: nat, c: Config)
    requires Right(code, c) && Stands(cx, c) && At(code, c.pc, CodeScope(b, c.pc, cx, base)) && base <= |cx.locals|
    requires LiveB(b) && LoopedB(b, cx.loop.Some?)
    ensures BalancedB(b, cx)
    ensures Outcomes(code, cx, c.tries, PassesB(b), Config(c.pc + SizeScope(b, cx, base), base, c.tries), StopsB(b), RaisesB(b))
    decreases b, 1
  {
    hide Right, At, CodeB, SizeB, BalancedB, AfterAll, LiveB, LoopedB, CodeScope, SizeScope, StopsB, RaisesB, PassesB;
    AtScope(code, b, c.pc, cx, base);
    OnBlock(code, b, cx, c);
    if PassesB(b) {
      OnPops(code, Config(c.pc + SizeB(b, cx), |AfterAll(b, cx.locals, cx.outer)|, c.tries), Scoped(b, cx.locals, cx.outer, base));
    }
  }

  // ---- Loops ----

  /** The body of a loop, entered at p. */
  lemma {:induction false} OnLoopBody(code: seq<Op>, body: seq<Stmt>, cx: Context, kept: seq<string>, vars: seq<string>, stop: nat, skip: nat, c: Config, p: nat)
    requires Stands(cx, c) && At(code, p, CodeScope(body, p, InLoop(cx, kept, vars, stop, skip), |cx.locals| + |kept|))
    requires Right(code, Config(p, c.height + |kept| + |vars|, c.tries)) && LiveB(body) && LoopedB(body, true)
    ensures BalancedB(body, InLoop(cx, kept, vars, 0, 0))
    ensures StopsB(body) ==> Right(code, Config(stop, c.height + |kept|, c.tries))
    ensures RaisesB(body) && c.tries != [] ==> Right(code, CaughtBy(c.tries))
    decreases body, 2
  {
    hide Right, At, BalancedB, LiveB, LoopedB, CodeScope, SizeScope, StopsB, RaisesB, PassesB;
    var inner := InLoop(cx, kept, vars, stop, skip);
    assert c.tries[..cx.tries] == c.tries;
    OnScope(code, body, inner, |cx.locals| + |kept|, Config(p, c.height + |kept| + |vars|, c.tries));
    BalancedSameB(body, inner, InLoop(cx, kept, vars, 0, 0));
  }

  lemma {:induction false} OnWhile(code: seq<Op>, cond: Expr, body: seq<Stmt>, cx: Context, c: Config)
    requires Right(code, c) && Stands(cx, c) && At(code, c.pc, CodeS(While(cond, body), c.pc, cx)) && LiveB(body) && LoopedB(body, true)
    ensures Balanced(While(cond, body), cx) && OutcomesS(code, While(cond, body), cx, c)
    decreases While(cond, body), 2
  {
    hide Right, At, CodeE, SizeE, CodeS, SizeS, BalancedB, LiveB, LoopedB, CodeScope, SizeScope, StopsB, RaisesB, PassesB, RaisesE;
    WhileLayout(code, cond, body, cx, c.pc);
    var p0, end := c.pc + SizeE(cond), c.pc + SizeS(While(cond, body), cx);
    OnExpr(code, cond, c);
    OnTest(code, Config(p0, c.height + 1, c.tries), end - 1);
    OnPop(code, Config(end - 1, c.height + 1, c.tries));
    OnPop(code, Config(p0 + 1, c.height + 1, c.tries));
    OnLoopBody(code, body, cx, [], [], end, c.pc, c, p0 + 2);
  }

  lemma {:induction false} OnUntil(code: seq<Op>, cond: Expr, body: seq<Stmt>, cx: Context, c: Config)
    requires Right(code, c) && Stands(cx, c) && At(code, c.pc, CodeS(Until(cond, body), c.pc, cx)) && LiveB(body) && LoopedB(body, true)
    ensures Balanced(Until(cond, body), cx) && OutcomesS(code, Until(cond, body), cx, c)
    decreases Until(cond, body), 2
  {
    hide Right, At, CodeE, SizeE, CodeS, SizeS, BalancedB, LiveB, LoopedB, CodeScope, SizeScope, StopsB, RaisesB, PassesB, RaisesE;
    UntilLayout(code, cond, body, cx, c.pc);
    var p0, end := c.pc + SizeE(cond), c.pc + SizeS(Until(cond, body), cx);
    OnExpr(code, cond, c);
    OnTest(code, Config(p0, c.height + 1, c.tries), p0 + 3);
    OnPop(code, Config(p0 + 1, c.height + 1, c.tries));
    OnJump(code, Config(p0 + 2, c.height, c.tries), end);
    OnPop(code, Config(p0 + 3, c.height + 1, c.tries));
    OnLoopBody(code, body, cx, [], [], end, c.pc, c, p0 + 4);
  }

  lemma {:induction false} OnForever(code: seq<Op>, body: seq<Stmt>, cx: Context, c: Config)
    requires Right(code, c) && Stands(cx, c) && At(code, c.pc, CodeS(Forever(body), c.pc, cx)) && LiveB(body) && LoopedB(body, true)
    ensures Balanced(Forever(body), cx) && OutcomesS(code, Forever(body), cx, c)
    decreases Forever(body), 2
  {
    hide Right, At, CodeS, SizeS, BalancedB, LiveB, LoopedB, CodeScope, SizeScope, StopsB, RaisesB, PassesB;
    ForeverLayout(code, body, cx, c.pc);
    assert c == Config(c.pc, c.height + 0 + 0, c.tries);
    OnLoopBody(code, body, cx, [], [], c.pc + SizeS(Forever(body), cx), c.pc, c, c.pc);
  }

  lemma {:induction false} OnForIn(code: seq<Op>, x: string, over: Expr, body: seq<Stmt>, cx: Context, c: Config)
    requires Right(code, c) && Stands(cx, c) && At(code, c.pc, CodeS(ForIn(x, over, body), c.pc, cx)) && LiveB(body) && LoopedB(body, true)
    ensures Balanced(ForIn(x, over, body), cx) && OutcomesS(code, ForIn(x, over, body), cx, c)
    decreases ForIn(x, over, body), 2
  {
    hide Right, At, CodeE, SizeE, CodeS, SizeS, BalancedB, LiveB, LoopedB, CodeScope, SizeScope, StopsB, RaisesB, PassesB, RaisesE;
    ForInLayout(code, x, over, body, cx, c.pc);
    var p0, end := c.pc + SizeE(over), c.pc + SizeS(ForIn(x, over, body), cx);
    OnExpr(code, over, c);
    OnMove(code, Config(p0, c.height + 1, c.tries), 1, 1);
    OnForIter(code, Config(p0 + 1, c.height + 1, c.tries), end - 1);
    OnPop(code, Config(end - 1, c.height + 1, c.tries));
    OnLoopBody(code, body, cx, ["_iter"], [x], end - 1, p0 + 1, c, p0 + 2);
  }

  lemma {:induction false} OnRepeat(code: seq<Op>, count: Expr, body: seq<Stmt>, cx: Context, c: Config)
    requires Right(code, c) && Stands(cx, c) && At(code, c.pc, CodeS(Repeat(count, body), c.pc, cx)) && LiveB(body) && LoopedB(body, true)
    ensures Balanced(Repeat(count, body), cx) && OutcomesS(code, Repeat(count, body), cx, c)
    decreases Repeat(count, body), 2
  {
    hide Right, At, CodeE, SizeE, CodeS, SizeS, BalancedB, LiveB, LoopedB, CodeScope, SizeScope, StopsB, RaisesB, PassesB, RaisesE, RepeatAt;
    var p1, p2 := c.pc + SizeE(count) + 1, c.pc + SizeS(Repeat(count, body), cx) - 9;
    RepeatLayout(code, count, body, cx, c.pc);
    RepeatOps(code, p1, p2);
    RepeatInside(code, p1, p2);
    OnExpr(code, count, c);
    OnMove(code, Config(p1 - 1, c.height + 1, c.tries), 0, 1);
    OnMove(code, Config(p1, c.height + 2, c.tries), 0, 1);
    OnMove(code, Config(p1 + 1, c.height + 3, c.tries), 0, 1);
    OnMove(code, Config(p1 + 2, c.height + 4, c.tries), 2, 1);
    OnTest(code, Config(p1 + 3, c.height + 3, c.tries), p2 + 6);
    OnPop(code, Config(p2 + 6, c.height + 3, c.tries));
    OnPop(code, Config(p2 + 7, c.height + 2, c.tries));
    OnPop(code, Config(p2 + 8, c.height + 1, c.tries));
    OnPop(code, Config(p1 + 4, c.height + 3, c.tries));
    OnLoopBody(code, body, cx, ["", ""], [], p2 + 7, p2, c, p1 + 5);
  }

  // ---- Whole functions ----

  /**
   * A function in which every statement can be reached is right on every path exactly when no value
   * in it is left on the stack and no try body and no `unless` body in it makes a local.
   */
  lemma RightExactlyWhenBalanced(args: seq<string>, outer: set<string>, body: seq<Stmt>)
    requires LiveB(body) && LoopedB(body, false)
    ensures Right(FunctionBody(args, outer, body), Entry(args)) <==> BalancedB(body, EntryContext(args, outer))
  {
    hide Right, Path, BalancedB, LiveB, LoopedB, CodeB, SizeB, FunctionBody;
    var code, cx := FunctionBody(args, outer, body), EntryContext(args, outer);
    if BalancedB(body, cx) {
      BalancedIsRight(args, outer, body);
    }
    if Right(code, Entry(args)) {
      FunctionAt(args, outer, body);
      OnBlock(code, body, cx, Entry(args));
    }
  }

  lemma BalancedIsRight(args: seq<string>, outer: set<string>, body: seq<Stmt>)
    requires BalancedB(body, EntryContext(args, outer))
    ensures Right(FunctionBody(args, outer, body), Entry(args))
  {
    hide Path, BalancedB, FunctionBody, Fine;
    var code := FunctionBody(args, outer, body);
    forall path: seq<Config> | path != [] && path[0] == Entry(args) && Path(code, path) ensures MarkRight(code, path[|path| - 1]) {
      BoundariesAreBalanced(args, outer, body, path, |path| - 1);
    }
  }

  lemma FunctionAt(args: seq<string>, outer: set<string>, body: seq<Stmt>)
    ensures At(FunctionBody(args, outer, body), 0, CodeB(body, 0, EntryContext(args, outer)))
  {
    hide CodeB;
  }

  /** A block of one assignment to a new name. */
  lemma OneLocal(x: string, e: Expr)
    requires x != ""
    ensures var b := [Assign(x, e)]; LiveB(b) && LoopedB(b, false) && (RaisesE(e) ==> RaisesB(b)) && !Settled(b, [""], {})
  {
    var b := [Assign(x, e)];
    assert b[1..] == [] && !Known(x, [""], {}) && Live(b[0]) && Looped(b[0], false);
    assert After(b[0], [""], {}) == ["", x];
    assert AfterAll(b, [""], {}) == AfterAll([], ["", x], {});
  }

  /** A whole body of one statement. */
  lemma OneStatement(s: Stmt)
    requires Live(s) && Looped(s, false)
    ensures LiveB([s]) && LoopedB([s], false) && (BalancedB([s], EntryContext([], {})) ==> Balanced(s, EntryContext([], {})))
  {
    hide Live, Looped, Balanced;
    var b := [s];
    assert b[1..] == [] && b[0] == s;
  }

  /** The handler of a try whose body made a local counts that local, which an error has taken away. */
  lemma TryLosesLocal()
    ensures var body := [TryCatch([Assign("x", Operate([], true))], "e", [])];
            !Right(FunctionBody([], {}, body), Entry([]))
  {
    hide Right, FunctionBody, Settled, RaisesB, Entry, BalancedB, LiveB, LoopedB;
    var inner := [Assign("x", Operate([], true))];
    OneLocal("x", Operate([], true));
    NoStatements();
    var s := TryCatch(inner, "e", []);
    assert [""] + [] == [""];
    OneStatement(s);
    RightExactlyWhenBalanced([], {}, [s]);
  }

  lemma NoStatements()
    ensures LiveB([]) && LoopedB([], false)
  {}

  /** A local first made in an `unless` is counted also where the body is left out. */
  lemma UnlessLosesLocal()
    ensures var body := [Unless(Atom, [Assign("x", Atom)])];
            !Right(FunctionBody([], {}, body), Entry([]))
  {
    hide Right, FunctionBody, Settled, RaisesB, Entry, BalancedB, LiveB, LoopedB;
    var inner := [Assign("x", Atom)];
    OneLocal("x", Atom);
    var s := Unless(Atom, inner);
    assert [""] + [] == [""];
    OneStatement(s);
    RightExactlyWhenBalanced([], {}, [s]);
  }

  /** A literal as a statement, and then a local: the slot of the local holds the literal. */
  lemma LiteralTakesSlot()
    ensures var body := [Leave(Atom), Assign("x", Atom)];
            !Right(FunctionBody([], {}, body), Entry([]))
  {
    hide Right, FunctionBody, Entry;
    var body := [Leave(Atom), Assign("x", Atom)];
    OneLocal("x", Atom);
    assert body[1..] == [Assign("x", Atom)];
    assert Live(body[0]) && Passes(body[0]) && Looped(body[0], false) && !Balanced(body[0], EntryContext([], {}));
    RightExactlyWhenBalanced([], {}, body);
  }
}
