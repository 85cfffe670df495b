/** Compiled expressions: the code pushes the value the semantics gives, or raises
    the error it gives, and touches nothing below. */
module SimExpr {
  import opened Values
  import opened Language
  import opened CodeGen
  import opened Machine
  import opened Slots
  import opened Programs

  /** The machine's slots and globals hold what the source state says. */
  predicate Sees(locals: seq<string>, c: Config, st: State) {
    && |locals| <= |c.stack| && Visible(locals, c.stack[..|locals|]) == st.env
    && c.globals == st.globals && c.out == st.out
  }

  /** The machine is about to unwind error v, with at least c's stack intact. */
  predicate Raised(d: Config, c: Config, v: Value) {
    && d.status == Running && d.err == Some(v) && d.tries == c.tries
    && d.globals == c.globals && d.out == c.out && c.stack <= d.stack
  }

  predicate Evaluates(d: Config, c: Config, end: nat, r: Result) {
    match r
    case Ok(v) => d == c.(pc := end, stack := c.stack + [v])
    case Err(v) => Raised(d, c, v)
  }

  /** Values pushed on top of the locals do not change what is seen. */
  lemma SeesAbove(locals: seq<string>, c: Config, st: State, d: Config)
    requires Sees(locals, c, st) && c.stack <= d.stack && d.globals == c.globals && d.out == c.out
    ensures Sees(locals, d, st)
  {
    assert d.stack[..|locals|] == c.stack[..|locals|];
  }

  /** The code of e lies at p and e has clean names. */
  predicate Placed(code: Listing, e: Expr, p: nat, locals: seq<string>) {
    LayoutE(code, e, p, locals) && CleanE(e, locals)
  }

  lemma UnShape(code: Listing, op: UnOp, a: Expr, p: nat, locals: seq<string>, st: State, show: Show)
    requires Placed(code, Un(op, a), p, locals)
    ensures Placed(code, a, p, locals) && Has(code, p + SizeE(a), Apply(op))
    ensures SizeE(Un(op, a)) == SizeE(a) + 1
    ensures var r := Eval(a, st, show); Eval(Un(op, a), st, show) == if r.Err? then r else Unary(op, r.v)
  {
    hide LayoutEs, SizeEs, LoadVar, Has, Unary, Lookup, EvalAll;
  }

  lemma BinShape(code: Listing, op: BinOp, l: Expr, r: Expr, p: nat, locals: seq<string>)
    requires Placed(code, Bin(op, l, r), p, locals)
    ensures Placed(code, l, p, locals) && Placed(code, r, p + SizeE(l), locals)
    ensures Has(code, p + SizeE(l) + SizeE(r), Operate(op))
    ensures SizeE(Bin(op, l, r)) == SizeE(l) + SizeE(r) + 1
  {
    hide LayoutEs, SizeEs, LoadVar, Has;
    assert SizeE(Bin(op, l, r)) == SizeE(l) + SizeE(r) + 1;
    assert LayoutE(code, l, p, locals);
    assert LayoutE(code, r, p + SizeE(l), locals);
  }

  lemma BinEval(op: BinOp, l: Expr, r: Expr, st: State, show: Show)
    ensures var a, b := Eval(l, st, show), Eval(r, st, show);
            Eval(Bin(op, l, r), st, show) == if a.Err? then a else if b.Err? then b else Binary(op, a.v, b.v, show)
  {}

  lemma AndShape(code: Listing, l: Expr, r: Expr, p: nat, locals: seq<string>)
    requires Placed(code, And(l, r), p, locals)
    ensures Placed(code, l, p, locals) && Placed(code, r, p + SizeE(l) + 4, locals)
    ensures SizeE(And(l, r)) == SizeE(l) + 4 + SizeE(r)
    ensures Has(code, p + SizeE(l), JumpIfFalse(p + SizeE(And(l, r)))) && Has(code, p + SizeE(l) + 3, Instr.Pop)
  {
    hide LayoutEs, SizeEs, LoadVar, Has;
    var p1 := p + SizeE(l);
    assert SizeE(And(l, r)) == SizeE(l) + 4 + SizeE(r);
    assert Has(code, p1, JumpIfFalse(p + SizeE(And(l, r))));
    assert LayoutE(code, l, p, locals);
    assert LayoutE(code, r, p1 + 4, locals);
  }

  lemma OrShape(code: Listing, l: Expr, r: Expr, p: nat, locals: seq<string>)
    requires Placed(code, Or(l, r), p, locals)
    ensures Placed(code, l, p, locals) && Placed(code, r, p + SizeE(l) + 7, locals)
    ensures SizeE(Or(l, r)) == SizeE(l) + 7 + SizeE(r)
    ensures Has(code, p + SizeE(l), JumpIfFalse(p + SizeE(l) + 6)) && Has(code, p + SizeE(l) + 6, Instr.Pop)
    ensures Has(code, p + SizeE(l) + 3, Jump(p + SizeE(Or(l, r))))
  {
    hide LayoutEs, SizeEs, LoadVar, Has;
    var p1 := p + SizeE(l);
    assert SizeE(Or(l, r)) == SizeE(l) + 7 + SizeE(r);
    assert Has(code, p1 + 3, Jump(p + SizeE(Or(l, r))));
    assert LayoutE(code, l, p, locals);
    assert LayoutE(code, r, p1 + 7, locals);
  }

  lemma ShortEval(l: Expr, r: Expr, st: State, show: Show)
    ensures var a, b := Eval(l, st, show), Eval(r, st, show);
            && Eval(And(l, r), st, show) == (if a.Err? || !Truthy(a.v) then a else b)
            && Eval(Or(l, r), st, show) == (if a.Err? || Truthy(a.v) then a else b)
  {}

  lemma ListShape(code: Listing, es: seq<Expr>, p: nat, locals: seq<string>, st: State, show: Show)
    requires Placed(code, ListLit(es), p, locals)
    ensures LayoutEs(code, es, p, locals) && (forall a | a in es :: CleanE(a, locals))
    ensures Has(code, p + SizeEs(es), MakeList(|es|)) && SizeE(ListLit(es)) == SizeEs(es) + 2
    ensures Eval(ListLit(es), st, show) ==
            match EvalAll(es, st, show) case Got(vs) => Ok(VList(vs)) case Failed(v) => Err(v)
  {}

  lemma ConsShape(code: Listing, es: seq<Expr>, p: nat, locals: seq<string>)
    requires es != [] && LayoutEs(code, es, p, locals) && (forall a | a in es :: CleanE(a, locals))
    ensures Placed(code, es[0], p, locals)
    ensures LayoutEs(code, es[1..], p + SizeE(es[0]), locals) && (forall a | a in es[1..] :: CleanE(a, locals))
    ensures SizeEs(es) == SizeE(es[0]) + SizeEs(es[1..])
  {}

  lemma ConsEval(es: seq<Expr>, st: State, show: Show)
    requires es != []
    ensures EvalAll(es, st, show) ==
            match Eval(es[0], st, show)
            case Err(err) => Failed(err)
            case Ok(v) =>
              match EvalAll(es[1..], st, show)
              case Failed(err) => Failed(err)
              case Got(vs) => Got([v] + vs)
  {}

  /** Compiled expressions compute what the semantics says. */
  lemma {:induction false} SimE(m: Machine, e: Expr, p: nat, locals: seq<string>, c: Config, st: State) returns (k: nat)
    requires Placed(m.code, e, p, locals) && At(c, p) && Sees(locals, c, st)
    ensures Evaluates(Run(m, c, k), c, p + SizeE(e), Eval(e, st, m.show))
    decreases e, 1
  {
    hide Run, Placed, Sees, Eval, SizeE, Evaluates;
    match e {
      case Un(op, a) => k := SimUn(m, op, a, p, locals, c, st);
      case Bin(op, l, r) => k := SimBin(m, op, l, r, p, locals, c, st);
      case And(l, r) => k := SimAnd(m, l, r, p, locals, c, st);
      case Or(l, r) => k := SimOr(m, l, r, p, locals, c, st);
      case ListLit(es) => k := SimList(m, es, p, locals, c, st);
      case _ => k := 1; SimAtom(m, e, p, locals, c, st);
    }
  }

  lemma SimAtom(m: Machine, e: Expr, p: nat, locals: seq<string>, c: Config, st: State)
    requires e.Num? || e.Str? || e.Bool? || e.Var?
    requires Placed(m.code, e, p, locals) && At(c, p) && Sees(locals, c, st)
    ensures Evaluates(Run(m, c, 1), c, p + SizeE(e), Eval(e, st, m.show))
  {
    hide Run, LoadVar, Sees, Lookup;
    match e {
      case Num(n) => DoPush(m, c, Const(VNum(n)), VNum(n));
      case Str(s) => DoPush(m, c, Const(VStr(s)), VStr(s));
      case Bool(b) => DoPush(m, c, PushBool(b), VBool(b));
      case Var(x) => SimVar(m, x, p, locals, c, st);
    }
  }

  lemma SimVar(m: Machine, x: string, p: nat, locals: seq<string>, c: Config, st: State)
    requires Has(m.code, p, LoadVar(locals, x)) && Usable(x, locals) && At(c, p) && Sees(locals, c, st)
    ensures Evaluates(Run(m, c, 1), c, p + 3, Lookup(st, x))
  {
    hide Run;
    VisibleFind(locals, c.stack[..|locals|], x);
    if Resolve(locals, x) != -1 { DoGetLocal(m, c, Resolve(locals, x)); } else { DoGetGlobal(m, c, x); }
  }

  lemma {:induction false} SimUn(m: Machine, op: UnOp, a: Expr, p: nat, locals: seq<string>, c: Config, st: State)
      returns (k: nat)
    requires Placed(m.code, Un(op, a), p, locals) && At(c, p) && Sees(locals, c, st)
    ensures Evaluates(Run(m, c, k), c, p + SizeE(Un(op, a)), Eval(Un(op, a), st, m.show))
    decreases Un(op, a), 0
  {
    hide Run, Unary, Sees, Placed, SizeE, Eval;
    UnShape(m.code, op, a, p, locals, st, m.show);
    k := SimE(m, a, p, locals, c, st);
    var r := Eval(a, st, m.show);
    if r.Ok? {
      var d := Run(m, c, k);
      DoApply(m, d, op, c.stack, r.v);
      Then(m, c, k, d, 1, Run(m, d, 1));
      k := k + 1;
    }
  }

  lemma {:induction false} SimBin(m: Machine, op: BinOp, l: Expr, r: Expr, p: nat, locals: seq<string>, c: Config, st: State)
      returns (k: nat)
    requires Placed(m.code, Bin(op, l, r), p, locals) && At(c, p) && Sees(locals, c, st)
    ensures Evaluates(Run(m, c, k), c, p + SizeE(Bin(op, l, r)), Eval(Bin(op, l, r), st, m.show))
    decreases Bin(op, l, r), 0
  {
    hide Run, Binary, Sees, Placed, SizeE, Eval;
    BinShape(m.code, op, l, r, p, locals);
    BinEval(op, l, r, st, m.show);
    k := SimE(m, l, p, locals, c, st);
    var a := Eval(l, st, m.show);
    if a.Ok? {
      var d := Run(m, c, k);
      SeesAbove(locals, c, st, d);
      var j := SimE(m, r, p + SizeE(l), locals, d, st);
      var f := Run(m, d, j);
      Then(m, c, k, d, j, f);
      k := k + j;
      var b := Eval(r, st, m.show);
      if b.Ok? {
        DoOperate(m, f, op, c.stack, a.v, b.v);
        Then(m, c, k, f, 1, Run(m, f, 1));
        k := k + 1;
      }
    }
  }

  /** The right operand of `and` runs only when the left one is true. */
  lemma {:induction false} SimAnd(m: Machine, l: Expr, r: Expr, p: nat, locals: seq<string>, c: Config, st: State)
      returns (k: nat)
    requires Placed(m.code, And(l, r), p, locals) && At(c, p) && Sees(locals, c, st)
    ensures Evaluates(Run(m, c, k), c, p + SizeE(And(l, r)), Eval(And(l, r), st, m.show))
    decreases And(l, r), 0
  {
    hide Run, Sees, Placed, SizeE, Eval;
    AndShape(m.code, l, r, p, locals);
    ShortEval(l, r, st, m.show);
    k := SimE(m, l, p, locals, c, st);
    var a := Eval(l, st, m.show);
    if a.Ok? {
      var d := Run(m, c, k);
      DoJumpIfFalse(m, d, p + SizeE(And(l, r)), c.stack, a.v);
      var d1 := Run(m, d, 1);
      Then(m, c, k, d, 1, d1);
      k := k + 1;
      if Truthy(a.v) {
        var j := SimRight(m, r, locals, c, d1, a.v, st);
        Then(m, c, k, d1, j, Run(m, d1, j));
        k := k + j;
      }
    }
  }

  /** The right operand of `or` runs only when the left one is false. */
  lemma {:induction false} SimOr(m: Machine, l: Expr, r: Expr, p: nat, locals: seq<string>, c: Config, st: State)
      returns (k: nat)
    requires Placed(m.code, Or(l, r), p, locals) && At(c, p) && Sees(locals, c, st)
    ensures Evaluates(Run(m, c, k), c, p + SizeE(Or(l, r)), Eval(Or(l, r), st, m.show))
    decreases Or(l, r), 0
  {
    hide Run, Sees, Placed, SizeE, Eval;
    OrShape(m.code, l, r, p, locals);
    ShortEval(l, r, st, m.show);
    k := SimE(m, l, p, locals, c, st);
    var a := Eval(l, st, m.show);
    if a.Ok? {
      var d := Run(m, c, k);
      DoJumpIfFalse(m, d, p + SizeE(l) + 6, c.stack, a.v);
      var d1 := Run(m, d, 1);
      Then(m, c, k, d, 1, d1);
      k := k + 1;
      if Truthy(a.v) {
        DoJump(m, d1, p + SizeE(Or(l, r)));
        Then(m, c, k, d1, 1, Run(m, d1, 1));
        k := k + 1;
      } else {
        var j := SimRight(m, r, locals, c, d1, a.v, st);
        Then(m, c, k, d1, j, Run(m, d1, j));
        k := k + j;
      }
    }
  }

  /** Dropping the left operand and running the right one. */
  lemma {:induction false} SimRight(m: Machine, r: Expr, locals: seq<string>, c: Config, d: Config, v: Value, st: State)
      returns (k: nat)
    requires Ready(m, d, Instr.Pop) && d.stack == c.stack + [v] && d == c.(pc := d.pc, stack := d.stack)
    requires Placed(m.code, r, d.pc + 1, locals) && Sees(locals, c, st)
    ensures Evaluates(Run(m, d, k), c, d.pc + 1 + SizeE(r), Eval(r, st, m.show))
    decreases r, 2
  {
    hide Run, Sees, Placed, SizeE, Eval;
    DoPop(m, d, c.stack, v);
    var f := Run(m, d, 1);
    SeesAbove(locals, c, st, f);
    k := SimE(m, r, f.pc, locals, f, st);
    Then(m, d, 1, f, k, Run(m, f, k));
    k := 1 + k;
  }

  lemma {:induction false} SimList(m: Machine, es: seq<Expr>, p: nat, locals: seq<string>, c: Config, st: State)
      returns (k: nat)
    requires Placed(m.code, ListLit(es), p, locals) && At(c, p) && Sees(locals, c, st)
    ensures Evaluates(Run(m, c, k), c, p + SizeE(ListLit(es)), Eval(ListLit(es), st, m.show))
    decreases ListLit(es), 0
  {
    hide Run, Sees, Placed, SizeE, Eval, EvalAll, SizeEs, LayoutEs, CleanE;
    ListShape(m.code, es, p, locals, st, m.show);
    k := SimEs(m, es, p, locals, c, st);
    var r := EvalAll(es, st, m.show);
    if r.Got? {
      var d := Run(m, c, k);
      DoMakeList(m, d, c.stack, r.vs);
      Then(m, c, k, d, 1, Run(m, d, 1));
      k := k + 1;
    }
  }

  lemma {:induction false} SimEs(m: Machine, es: seq<Expr>, p: nat, locals: seq<string>, c: Config, st: State) returns (k: nat)
    requires LayoutEs(m.code, es, p, locals) && (forall a | a in es :: CleanE(a, locals)) && At(c, p) && Sees(locals, c, st)
    ensures match EvalAll(es, st, m.show)
            case Got(vs) => Run(m, c, k) == c.(pc := p + SizeEs(es), stack := c.stack + vs)
            case Failed(v) => Raised(Run(m, c, k), c, v)
    decreases es, 1
  {
    if es == [] {
      k := 0;
      assert c.stack + [] == c.stack;
    } else {
      k := SimCons(m, es, p, locals, c, st);
    }
  }

  lemma {:induction false} SimCons(m: Machine, es: seq<Expr>, p: nat, locals: seq<string>, c: Config, st: State) returns (k: nat)
    requires es != []
    requires LayoutEs(m.code, es, p, locals) && (forall a | a in es :: CleanE(a, locals)) && At(c, p) && Sees(locals, c, st)
    ensures match EvalAll(es, st, m.show)
            case Got(vs) => Run(m, c, k) == c.(pc := p + SizeEs(es), stack := c.stack + vs)
            case Failed(v) => Raised(Run(m, c, k), c, v)
    decreases es, 0
  {
    hide Run, Sees, Placed, SizeE, Eval, EvalAll, SizeEs, LayoutEs, CleanE;
    ConsShape(m.code, es, p, locals);
    ConsEval(es, st, m.show);
    k := SimE(m, es[0], p, locals, c, st);
    var a := Eval(es[0], st, m.show);
    if a.Ok? {
      var d := Run(m, c, k);
      SeesAbove(locals, c, st, d);
      var j := SimEs(m, es[1..], p + SizeE(es[0]), locals, d, st);
      Then(m, c, k, d, j, Run(m, d, j));
      k := k + j;
      var rest := EvalAll(es[1..], st, m.show);
      if rest.Got? {
        assert c.stack + [a.v] + rest.vs == c.stack + ([a.v] + rest.vs);
      }
    }
  }
}
