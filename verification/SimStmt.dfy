/** Contracts for compiled statements, and the statements without loops. */
module SimStmt {
  import opened Values
  import opened Language
  import opened CodeGen
  import opened Machine
  import opened Slots
  import opened Programs
  import opened SimExpr

  /** d's slots show st, and the compiler's own slots are as in c. */
  predicate Keeps(locals: seq<string>, c: Config, d: Config, st: State) {
    var n := |locals|;
    && n <= |c.stack| && n <= |d.stack| && Visible(locals, d.stack[..n]) == st.env
    && d.globals == st.globals && d.out == st.out
    && (forall i :: 0 <= i < n && Hidden(locals[i]) ==> d.stack[i] == c.stack[i])
  }

  /** The balance invariant: at a statement boundary the stack holds exactly the
      locals, and the try stack the open try blocks. */
  predicate Starts(c: Config, p: nat, cx: Context, st: State) {
    At(c, p) && |c.stack| == |cx.locals| && |c.tries| == cx.tries && Sees(cx.locals, c, st)
  }

  /** A stop or skip arrived: the locals and tries of the loop are gone. */
  predicate Left(d: Config, c: Config, cx: Context, to: Target, st: State) {
    && ValidContext(cx) && cx.inLoop && !to.Pending? && At(d, to.t)
    && cx.loopTries <= |c.tries| && d.tries == c.tries[..cx.loopTries]
    && |d.stack| == cx.loopLocals && |st.env| == Shown(cx.locals)
    && Keeps(cx.locals[..cx.loopLocals], c, d, Trim(st, Shown(cx.locals[..cx.loopLocals])))
  }

  predicate Ends(d: Config, c: Config, end: nat, cx: Context, stop: Target, skip: Target, o: Outcome) {
    match o
    case Normal(st) => At(d, end) && |d.stack| == |cx.locals| && d.tries == c.tries && Keeps(cx.locals, c, d, st)
    case Stopped(st) => Left(d, c, cx, stop, st)
    case Skipped(st) => Left(d, c, cx, skip, st)
    case Threw(v, st) => d.status == Running && d.err == Some(v) && d.tries == c.tries && Keeps(cx.locals, c, d, st)
  }

  /** After k steps from c the machine is where outcome o says; with no outcome,
      it is still running after at least `fuel` steps. */
  predicate Simulates(m: Machine, c: Config, k: nat, fuel: nat,
                      end: nat, cx: Context, stop: Target, skip: Target, o: Option<Outcome>) {
    match o
    case None => k >= fuel && Run(m, c, k).status == Running
    case Some(r) => Ends(Run(m, c, k), c, end, cx, stop, skip, r) && (r.Skipped? ==> k > 0)
  }

  /** The code of s lies at p, in a usable context. */
  predicate PlacedS(code: Listing, s: Stmt, p: nat, cx: Context, stop: Target, skip: Target) {
    LayoutS(code, s, p, cx, stop, skip) && CleanS(s, cx) && ValidContext(cx) && !stop.Pending? && !skip.Pending?
  }

  predicate PlacedB(code: Listing, b: seq<Stmt>, p: nat, cx: Context, stop: Target, skip: Target) {
    LayoutB(code, b, p, cx, stop, skip) && CleanB(b, cx) && ValidContext(cx) && !stop.Pending? && !skip.Pending?
  }

  // ---- Gluing runs together ----

  lemma KeepsTrans(locals: seq<string>, c: Config, d: Config, st1: State, e: Config, st2: State)
    requires Keeps(locals, c, d, st1) && Keeps(locals, d, e, st2)
    ensures Keeps(locals, c, e, st2)
  {}

  lemma KeepsBelow(locals: seq<string>, n: nat, c: Config, d: Config, st: State)
    requires n <= |locals| && Keeps(locals, c, d, st)
    ensures Keeps(locals[..n], c, d, Trim(st, Shown(locals[..n]))) && |st.env| == Shown(locals)
  {
    hide Visible, Shown;
    VisiblePrefix(locals, d.stack[..|locals|], n);
    assert d.stack[..|locals|][..n] == d.stack[..n];
  }

  /** An end seen from a later state is an end seen from an earlier one. */
  lemma EndsTrans(c: Config, d: Config, st1: State, e: Config, end: nat, cx: Context, stop: Target, skip: Target, o: Outcome)
    requires Keeps(cx.locals, c, d, st1) && d.tries == c.tries && Ends(e, d, end, cx, stop, skip, o)
    ensures Ends(e, c, end, cx, stop, skip, o)
  {
    hide At, Visible;
    if (o.Stopped? || o.Skipped?) && ValidContext(cx) && cx.inLoop {
      var n := cx.loopLocals;
      KeepsBelow(cx.locals, n, c, d, st1);
      KeepsTrans(cx.locals[..n], c, d, Trim(st1, Shown(cx.locals[..n])), e, Trim(o.st, Shown(cx.locals[..n])));
    }
  }

  lemma SeesKeeps(locals: seq<string>, c: Config, st: State)
    requires Sees(locals, c, st)
    ensures Keeps(locals, c, c, st)
  {}

  /** First j steps to d, then a simulated part. */
  lemma After(m: Machine, c: Config, j: nat, d: Config, st1: State, k: nat, left: nat, fuel: nat,
              end: nat, cx: Context, stop: Target, skip: Target, o: Option<Outcome>)
    requires Run(m, c, j) == d && Keeps(cx.locals, c, d, st1) && d.tries == c.tries && fuel <= j + left
    requires Simulates(m, d, k, left, end, cx, stop, skip, o)
    ensures Simulates(m, c, j + k, fuel, end, cx, stop, skip, o)
  {
    hide Run, Keeps, Ends;
    Then(m, c, j, d, k, Run(m, d, k));
    if o.Some? { EndsTrans(c, d, st1, Run(m, d, k), end, cx, stop, skip, o.value); }
  }

  /** As After, when the first j steps moved only the program counter. */
  lemma AfterMove(m: Machine, c: Config, j: nat, d: Config, st: State, k: nat, fuel: nat,
                  end: nat, cx: Context, stop: Target, skip: Target, o: Option<Outcome>)
    requires Run(m, c, j) == d && d == c.(pc := d.pc) && Sees(cx.locals, c, st)
    requires Simulates(m, d, k, fuel, end, cx, stop, skip, o)
    ensures Simulates(m, c, j + k, fuel, end, cx, stop, skip, o)
  {
    SeesMoved(cx.locals, c, d, st);
    hide Run, Keeps, Sees, Ends;
    After(m, c, j, d, st, k, fuel, fuel, end, cx, stop, skip, o);
  }

  /** An error inside an expression ends the statement. */
  lemma RaisedEnds(m: Machine, c: Config, k: nat, fuel: nat, p: nat, v: Value, st: State,
                   end: nat, cx: Context, stop: Target, skip: Target)
    requires Starts(c, p, cx, st) && Raised(Run(m, c, k), c, v)
    ensures Simulates(m, c, k, fuel, end, cx, stop, skip, Some(Threw(v, st)))
  {
    hide Run;
    var d := Run(m, c, k);
    assert d.stack[..|cx.locals|] == c.stack[..|cx.locals|];
  }

  lemma KeepsMoved(locals: seq<string>, c: Config, d: Config, e: Config, st: State)
    requires Keeps(locals, c, d, st) && e.stack == d.stack && e.globals == d.globals && e.out == d.out
    ensures Keeps(locals, c, e, st)
  {}

  // ---- Tests ----

  /** Evaluating a condition, jumping on it and dropping it. */
  lemma SimTest(m: Machine, e: Expr, p: nat, locals: seq<string>, c: Config, st: State, t: nat) returns (k: nat)
    requires Placed(m.code, e, p, locals) && At(c, p) && Sees(locals, c, st)
    requires Has(m.code, p + SizeE(e), JumpIfFalse(t)) && Has(m.code, p + SizeE(e) + 3, Instr.Pop)
    requires Has(m.code, t, Instr.Pop)
    ensures k >= 1
    ensures match Eval(e, st, m.show)
            case Err(v) => Raised(Run(m, c, k), c, v)
            case Ok(v) => Run(m, c, k) == c.(pc := if Truthy(v) then p + SizeE(e) + 4 else t + 1)
  {
    hide Run, Sees, Placed, SizeE, Eval;
    k := SimE(m, e, p, locals, c, st);
    var r := Eval(e, st, m.show);
    if r.Ok? {
      var d := Run(m, c, k);
      DoJumpIfFalse(m, d, t, c.stack, r.v);
      var d1 := Run(m, d, 1);
      Then(m, c, k, d, 1, d1);
      DoPop(m, d1, c.stack, r.v);
      Then(m, c, k + 1, d1, 1, Run(m, d1, 1));
      k := k + 2;
    } else if k == 0 {
      RunZero(m, c);
    }
  }

  lemma RunZero(m: Machine, c: Config)
    ensures Run(m, c, 0) == c
  {}

  // ---- Statements that only evaluate ----

  lemma SimExprStmt(m: Machine, e: Expr, p: nat, cx: Context, stop: Target, skip: Target, c: Config, st: State, fuel: nat)
      returns (k: nat)
    requires PlacedS(m.code, ExprStmt(e), p, cx, stop, skip) && Starts(c, p, cx, st)
    ensures Simulates(m, c, k, fuel, p + SizeS(ExprStmt(e), cx), cx, stop, skip, Exec(ExprStmt(e), st, fuel, m.show))
  {
    hide Run, SizeE, LayoutE, CleanE, Eval, Sees, Keeps;
    k := SimE(m, e, p, cx.locals, c, st);
    var r := Eval(e, st, m.show);
    if r.Err? {
      RaisedEnds(m, c, k, fuel, p, r.e, st, p + SizeS(ExprStmt(e), cx), cx, stop, skip);
    } else {
      var d := Run(m, c, k);
      DoPop(m, d, c.stack, r.v);
      Then(m, c, k, d, 1, Run(m, d, 1));
      k := k + 1;
      SeesMoved(cx.locals, c, Run(m, c, k), st);
    }
  }

  /** A state that differs only in the program counter keeps everything. */
  lemma SeesMoved(locals: seq<string>, c: Config, d: Config, st: State)
    requires Sees(locals, c, st) && d == c.(pc := d.pc)
    ensures Keeps(locals, c, d, st)
  {}

  lemma SimPrint(m: Machine, e: Expr, p: nat, cx: Context, stop: Target, skip: Target, c: Config, st: State, fuel: nat)
      returns (k: nat)
    requires PlacedS(m.code, Print(e), p, cx, stop, skip) && Starts(c, p, cx, st)
    ensures Simulates(m, c, k, fuel, p + SizeS(Print(e), cx), cx, stop, skip, Exec(Print(e), st, fuel, m.show))
  {
    hide Run, SizeE, LayoutE, CleanE, Eval;
    k := SimE(m, e, p, cx.locals, c, st);
    var r := Eval(e, st, m.show);
    if r.Err? {
      RaisedEnds(m, c, k, fuel, p, r.e, st, p + SizeS(Print(e), cx), cx, stop, skip);
    } else {
      var d := Run(m, c, k);
      DoOutput(m, d, c.stack, r.v);
      Then(m, c, k, d, 1, Run(m, d, 1));
      k := k + 1;
    }
  }

  lemma SimThrow(m: Machine, e: Expr, p: nat, cx: Context, stop: Target, skip: Target, c: Config, st: State, fuel: nat)
      returns (k: nat)
    requires PlacedS(m.code, Throw(e), p, cx, stop, skip) && Starts(c, p, cx, st)
    ensures Simulates(m, c, k, fuel, p + SizeS(Throw(e), cx), cx, stop, skip, Exec(Throw(e), st, fuel, m.show))
  {
    hide Run, SizeE, LayoutE, CleanE, Eval;
    k := SimE(m, e, p, cx.locals, c, st);
    var r := Eval(e, st, m.show);
    var end := p + SizeS(Throw(e), cx);
    if r.Err? {
      RaisedEnds(m, c, k, fuel, p, r.e, st, end, cx, stop, skip);
    } else {
      var d := Run(m, c, k);
      DoRaise(m, d, c.stack, r.v);
      Then(m, c, k, d, 1, Run(m, d, 1));
      k := k + 1;
      RaisedEnds(m, c, k, fuel, p, r.v, st, end, cx, stop, skip);
    }
  }

  // ---- Assignment ----

  /** Storing the top value into one variable, with `above` left on the stack. */
  lemma SimStore(m: Machine, x: string, p: nat, locals: seq<string>, c: Config, base: seq<Value>, v: Value, st: State)
      returns (k: nat)
    requires LayoutStore(m.code, x, p, locals) && Usable(x, locals) && At(c, p)
    requires c.stack == base + [v] && Sees(locals, c.(stack := base), st)
    ensures var d := Run(m, c, k);
            && d == c.(pc := p + SizeStore(locals, x), stack := d.stack, globals := d.globals)
            && |d.stack| == |base| && d.stack[|locals|..] == base[|locals|..]
            && Keeps(locals, c.(stack := base), d, Store(st, x, v))
  {
    var i := Resolve(locals, x);
    VisibleFind(locals, base[..|locals|], x);
    if i != -1 {
      hide Run, Visible, EnvFind, Resolve;
      VisibleStore(locals, base[..|locals|], x, v);
      DoSetLocal(m, c, i, base, v);
      var d := Run(m, c, 1);
      DoPop(m, d, base[i := v], v);
      Then(m, c, 1, d, 1, Run(m, d, 1));
      k := 2;
      assert base[i := v][..|locals|] == base[..|locals|][i := v];
    } else {
      hide Run, Visible, EnvFind, Resolve;
      DoDefineGlobal(m, c, x, base, v);
      k := 1;
    }
  }

  lemma {:induction false} SimStores(m: Machine, xs: seq<string>, p: nat, locals: seq<string>, c: Config, base: seq<Value>, v: Value, st: State)
      returns (k: nat)
    requires xs != [] && LayoutStores(m.code, xs, p, locals) && (forall x | x in xs :: Usable(x, locals)) && At(c, p)
    requires c.stack == base + [v] && |base| == |locals| && Sees(locals, c.(stack := base), st)
    ensures var d := Run(m, c, k);
            && d == c.(pc := p + SizeStores(locals, xs), stack := d.stack, globals := d.globals)
            && |d.stack| == |locals| && Keeps(locals, c.(stack := base), d, StoreAll(st, xs, v))
    decreases |xs|
  {
    hide Run, LayoutStore, SizeStore, Sees, Keeps, Store;
    if |xs| == 1 {
      k := SimStore(m, xs[0], p, locals, c, base, v, st);
      assert xs[1..] == [];
    } else {
      var base0 := c.(stack := base);
      DoDup(m, c, base, v);
      var d := Run(m, c, 1);
      SeesAbove(locals, base0, st, d.(stack := base + [v]));
      k := SimStore(m, xs[0], p + 1, locals, d, base + [v], v, st);
      var f := Run(m, d, k);
      Then(m, c, 1, d, k, f);
      var base1 := f.stack[..|locals|];
      assert f.stack == base1 + [v] by { assert f.stack[|locals|..] == [v]; }
      var f0 := f.(stack := base1);
      KeepsMid(locals, base0, d.(stack := base + [v]), f, f0, Store(st, xs[0], v));
      var j := SimStores(m, xs[1..], f.pc, locals, f, base1, v, Store(st, xs[0], v));
      Then(m, c, 1 + k, f, j, Run(m, f, j));
      k := 1 + k + j;
      KeepsTrans(locals, base0, f0, Store(st, xs[0], v), Run(m, c, k), StoreAll(st, xs, v));
    }
  }

  /** Keeping the locals does not depend on what lies above them. */
  lemma KeepsMid(locals: seq<string>, c0: Config, c: Config, f: Config, f0: Config, st: State)
    requires Keeps(locals, c, f, st) && |locals| <= |f0.stack| && f0.stack[..|locals|] == f.stack[..|locals|]
    requires |c0.stack| == |locals| && c0.stack <= c.stack && f0.globals == f.globals && f0.out == f.out
    ensures Keeps(locals, c0, f0, st) && Sees(locals, f0, st)
  {
    assert forall i :: 0 <= i < |locals| ==> f0.stack[i] == f0.stack[..|locals|][i] == f.stack[..|locals|][i];
  }

  lemma SimAssign(m: Machine, xs: seq<string>, e: Expr, p: nat, cx: Context, stop: Target, skip: Target, c: Config, st: State, fuel: nat)
      returns (k: nat)
    requires PlacedS(m.code, Assign(xs, e), p, cx, stop, skip) && Starts(c, p, cx, st)
    ensures Simulates(m, c, k, fuel, p + SizeS(Assign(xs, e), cx), cx, stop, skip, Exec(Assign(xs, e), st, fuel, m.show))
  {
    hide Run, SizeE, LayoutE, CleanE, Eval, LayoutStores, SizeStores, StoreAll, Sees, Keeps;
    k := SimE(m, e, p, cx.locals, c, st);
    var r := Eval(e, st, m.show);
    if r.Err? {
      RaisedEnds(m, c, k, fuel, p, r.e, st, p + SizeS(Assign(xs, e), cx), cx, stop, skip);
    } else {
      var d := Run(m, c, k);
      var d0 := d.(stack := c.stack);
      SeesAbove(cx.locals, c, st, d0);
      var j := SimStores(m, xs, d.pc, cx.locals, d, c.stack, r.v, st);
      Then(m, c, k, d, j, Run(m, d, j));
      k := k + j;
      KeepsFrom(cx.locals, d0, c, Run(m, c, k), StoreAll(st, xs, r.v));
    }
  }

  lemma KeepsFrom(locals: seq<string>, c0: Config, c: Config, d: Config, st: State)
    requires Keeps(locals, c0, d, st) && c0.stack == c.stack
    ensures Keeps(locals, c, d, st)
  {}
}
