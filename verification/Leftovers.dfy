/**
 * Values that bare literals leave on the stack of a script: where nothing makes slots any more, they
 * lie above the only slot and do no harm, however many there are.
 */
module Leftovers {
  import opened Values
  import opened Language
  import opened CodeGen
  import opened Machine
  import opened Slots
  import opened Programs
  import opened SimExpr
  import opened SimStmt
  import opened SimControl

  /** The contexts of a script outside of anything that makes slots. */
  predicate Flat(cx: Context) { cx.locals == [""] && cx.tries == 0 && (cx.inLoop ==> cx.loopLocals == 1 && cx.loopTries == 0) }

  /** The slot of the script, and above it anything. */
  predicate Loose(c: Config, p: nat, st: State) { At(c, p) && c.tries == [] && Sees([""], c, st) }

  /** Where an outcome leaves the machine. */
  predicate Rests(d: Config, end: nat, stop: Target, skip: Target, o: Outcome) {
    match o
    case Normal(st) => Loose(d, end, st)
    case Stopped(st) => !stop.Pending? && Loose(d, stop.t, st)
    case Skipped(st) => !skip.Pending? && Loose(d, skip.t, st)
    case Threw(v, st) => d.status == Running && d.err == Some(v) && d.tries == [] && d.globals == st.globals && d.out == st.out
  }

  predicate Runs(m: Machine, c: Config, k: nat, fuel: nat, end: nat, stop: Target, skip: Target, o: Option<Outcome>) {
    match o
    case None => k >= fuel && Run(m, c, k).status == Running
    case Some(r) => Rests(Run(m, c, k), end, stop, skip, r) && (r.Skipped? ==> k > 0)
  }

  predicate LiesS(code: Listing, s: Stmt, p: nat, cx: Context, stop: Target, skip: Target) {
    LayoutS(code, s, p, cx, stop, skip) && LooseS(s, cx) && Flat(cx) && !stop.Pending? && !skip.Pending?
  }

  predicate LiesB(code: Listing, b: seq<Stmt>, p: nat, cx: Context, stop: Target, skip: Target) {
    LayoutB(code, b, p, cx, stop, skip) && LooseB(b, cx) && Flat(cx) && !stop.Pending? && !skip.Pending?
  }

  // ---- Gluing runs together ----

  lemma RunsAfter(m: Machine, c: Config, j: nat, k: nat, left: nat, fuel: nat, end: nat, stop: Target, skip: Target, o: Option<Outcome>)
    requires Runs(m, Run(m, c, j), k, left, end, stop, skip, o) && fuel <= j + left
    ensures Runs(m, c, j + k, fuel, end, stop, skip, o)
  {
    hide Run, Rests;
    RunAdd(m, c, j, k);
  }

  /** An outcome that is not normal does not depend on where the code ends. */
  lemma RunsAnyEnd(m: Machine, c: Config, k: nat, fuel: nat, mid: nat, end: nat, stop: Target, skip: Target, o: Option<Outcome>)
    requires Runs(m, c, k, fuel, mid, stop, skip, o) && (o.Some? ==> !o.value.Normal?)
    ensures Runs(m, c, k, fuel, end, stop, skip, o)
  {
    hide Run;
  }

  lemma RunsRaised(m: Machine, c: Config, k: nat, fuel: nat, p: nat, v: Value, st: State, end: nat, stop: Target, skip: Target)
    requires Loose(c, p, st) && Raised(Run(m, c, k), c, v)
    ensures Runs(m, c, k, fuel, end, stop, skip, Some(Threw(v, st)))
  {
    hide Run;
  }

  lemma LooseAt(c: Config, p: nat, st: State)
    requires Loose(c, p, st)
    ensures At(c, p) && Sees([""], c, st)
  {}

  lemma LooseMoved(c: Config, d: Config, p: nat, q: nat, st: State)
    requires Loose(c, p, st) && d == c.(pc := q)
    ensures Loose(d, q, st)
  {}

  /** Values above the slot do not matter. */
  lemma LooseAbove(c: Config, d: Config, p: nat, q: nat, st: State)
    requires Loose(c, p, st) && c.stack <= d.stack && d == c.(pc := q, stack := d.stack)
    ensures Loose(d, q, st)
  {
    hide Sees;
    SeesAbove([""], c, st, d);
  }

  lemma RunsNormal(m: Machine, c: Config, k: nat, fuel: nat, end: nat, stop: Target, skip: Target, st: State)
    requires Loose(Run(m, c, k), end, st)
    ensures Runs(m, c, k, fuel, end, stop, skip, Some(Normal(st)))
  {}

  // ---- Statements that only evaluate ----

  /** The expression of such a statement, and whether it ends in an error. */
  lemma LooseExpr(m: Machine, e: Expr, p: nat, c: Config, st: State, fuel: nat, end: nat, stop: Target, skip: Target) returns (k: nat)
    requires Placed(m.code, e, p, [""]) && Loose(c, p, st)
    ensures var r := Eval(e, st, m.show);
            && (r.Err? ==> Runs(m, c, k, fuel, end, stop, skip, Some(Threw(r.e, st))))
            && (r.Ok? ==> Run(m, c, k) == c.(pc := p + SizeE(e), stack := c.stack + [r.v]))
  {
    hide Run, Placed, Sees, Eval, SizeE, Raised;
    k := SimE(m, e, p, [""], c, st);
    var r := Eval(e, st, m.show);
    if r.Err? { RunsRaised(m, c, k, fuel, p, r.e, st, end, stop, skip); }
  }

  lemma EvalShape(code: Listing, s: Stmt, p: nat, cx: Context, stop: Target, skip: Target)
    requires LiesS(code, s, p, cx, stop, skip) && (s.ExprStmt? || s.Print? || s.Throw? || s.Assign?)
    ensures Placed(code, s.e, p, [""])
    ensures s.ExprStmt? ==> SizeS(s, cx) == SizeE(s.e) + (if Popped(s.e) then 1 else 0) && (Popped(s.e) ==> Has(code, p + SizeE(s.e), Instr.Pop))
    ensures s.Print? ==> SizeS(s, cx) == SizeE(s.e) + 1 && Has(code, p + SizeE(s.e), Output)
    ensures s.Throw? ==> Has(code, p + SizeE(s.e), Raise)
    ensures s.Assign? ==> s.targets != [] && (forall x | x in s.targets :: Usable(x, [""])) && LayoutStores(code, s.targets, p + SizeE(s.e), [""])
                          && SizeS(s, cx) == SizeE(s.e) + SizeStores([""], s.targets)
  {
    hide Has, LayoutE, LayoutB, SizeE, SizeB, CleanE, CleanB, LayoutStores, LayoutLeave, Leaves, SizeStores, Usable;
  }

  lemma SimpleEval(s: Stmt, st: State, fuel: nat, show: Show)
    requires s.ExprStmt? || s.Print? || s.Throw? || s.Assign?
    ensures var r := Eval(s.e, st, show);
            Exec(s, st, fuel, show) ==
            if r.Err? then Some(Threw(r.e, st))
            else if s.ExprStmt? then Some(Normal(st))
            else if s.Print? then Some(Normal(st.(out := st.out + [show(r.v)])))
            else if s.Throw? then Some(Threw(r.v, st))
            else Some(Normal(StoreAll(st, s.targets, r.v)))
  {}

  lemma LooseSimple(m: Machine, s: Stmt, p: nat, cx: Context, stop: Target, skip: Target, c: Config, st: State, fuel: nat) returns (k: nat)
    requires s.ExprStmt? || s.Print? || s.Throw? || s.Assign?
    requires LiesS(m.code, s, p, cx, stop, skip) && Loose(c, p, st)
    ensures Runs(m, c, k, fuel, p + SizeS(s, cx), stop, skip, Exec(s, st, fuel, m.show))
  {
    hide Run, LiesS, Placed, Sees, Eval, SizeE, SizeS, Exec, LayoutStores, SizeStores, StoreAll, Usable, Popped, Rests;
    EvalShape(m.code, s, p, cx, stop, skip);
    SimpleEval(s, st, fuel, m.show);
    var end := p + SizeS(s, cx);
    k := LooseExpr(m, s.e, p, c, st, fuel, end, stop, skip);
    var r := Eval(s.e, st, m.show);
    if r.Ok? {
      var j := LooseUse(m, s, p, c, Run(m, c, k), st, r.v, fuel, end, stop, skip);
      RunsAfter(m, c, k, j, fuel, fuel, end, stop, skip, Exec(s, st, fuel, m.show));
      k := k + j;
    }
  }

  /** What a statement does with its value. */
  lemma LooseUse(m: Machine, s: Stmt, p: nat, c: Config, d: Config, st: State, v: Value, fuel: nat, end: nat, stop: Target, skip: Target)
      returns (k: nat)
    requires s.ExprStmt? || s.Print? || s.Throw? || s.Assign?
    requires Loose(c, p, st) && d == c.(pc := p + SizeE(s.e), stack := c.stack + [v])
    requires s.ExprStmt? ==> end == d.pc + (if Popped(s.e) then 1 else 0) && (Popped(s.e) ==> Has(m.code, d.pc, Instr.Pop))
    requires s.Print? ==> end == d.pc + 1 && Has(m.code, d.pc, Output)
    requires s.Throw? ==> Has(m.code, d.pc, Raise)
    requires s.Assign? ==> s.targets != [] && (forall x | x in s.targets :: Usable(x, [""])) && LayoutStores(m.code, s.targets, d.pc, [""])
                           && end == d.pc + SizeStores([""], s.targets)
    ensures Runs(m, d, k, fuel, end, stop, skip,
              if s.ExprStmt? then Some(Normal(st))
              else if s.Print? then Some(Normal(st.(out := st.out + [m.show(v)])))
              else if s.Throw? then Some(Threw(v, st))
              else Some(Normal(StoreAll(st, s.targets, v))))
  {
    hide Run, SizeE, LayoutStores, SizeStores, StoreAll, Usable, Popped, Visible;
    if s.ExprStmt? {
      if Popped(s.e) {
        DoPop(m, d, c.stack, v);
        k := 1;
        LooseMoved(c, Run(m, d, 1), p, end, st);
      } else {
        k := 0;
        RunZero(m, d);
        LooseAbove(c, d, p, end, st);
      }
    } else if s.Print? {
      DoOutput(m, d, c.stack, v);
      k := 1;
    } else if s.Throw? {
      DoRaise(m, d, c.stack, v);
      k := 1;
    } else {
      k := LooseStores(m, s.targets, d, c.stack, v, st);
    }
  }

  /** Every assignment of a script defines a global. */
  lemma LooseStore(m: Machine, x: string, c: Config, base: seq<Value>, v: Value, st: State)
    requires Usable(x, [""]) && LayoutStore(m.code, x, c.pc, [""])
    requires c.stack == base + [v] && Loose(c.(stack := base), c.pc, st)
    ensures var d := Run(m, c, 1);
            d == c.(pc := c.pc + 3, stack := base, globals := d.globals) && Loose(d, c.pc + 3, Store(st, x, v)) && SizeStore([""], x) == 3
  {
    hide Run, Visible, Usable, LayoutStore, Resolve, SizeStore;
    GlobalName(m.code, x, c.pc);
    DoDefineGlobal(m, c, x, base, v);
    LooseStored(c.(stack := base), Run(m, c, 1), c.pc, c.pc + 3, st, x, v);
  }

  lemma StoresShape(code: Listing, xs: seq<string>, p: nat, st: State, v: Value)
    requires xs != [] && LayoutStores(code, xs, p, [""])
    ensures var n := (if |xs| > 1 then 1 else 0) + SizeStore([""], xs[0]);
            && (|xs| > 1 ==> Has(code, p, Dup)) && LayoutStore(code, xs[0], p + (if |xs| > 1 then 1 else 0), [""])
            && LayoutStores(code, xs[1..], p + n, [""]) && SizeStores([""], xs) == n + SizeStores([""], xs[1..])
            && (|xs| == 1 ==> SizeStores([""], xs) == n)
    ensures StoreAll(st, xs, v) == StoreAll(Store(st, xs[0], v), xs[1..], v) && (|xs| == 1 ==> StoreAll(st, xs, v) == Store(st, xs[0], v))
  {
    hide Has, LayoutStore, SizeStore, Store;
  }

  lemma {:induction false} LooseStores(m: Machine, xs: seq<string>, c: Config, base: seq<Value>, v: Value, st: State) returns (k: nat)
    requires xs != [] && (forall x | x in xs :: Usable(x, [""])) && LayoutStores(m.code, xs, c.pc, [""])
    requires c.stack == base + [v] && Loose(c.(stack := base), c.pc, st)
    ensures Loose(Run(m, c, k), c.pc + SizeStores([""], xs), StoreAll(st, xs, v))
    decreases |xs|
  {
    hide *;
    StoresShape(m.code, xs, c.pc, st, v);
    var x := xs[0];
    if |xs| == 1 {
      LooseStore(m, x, c, base, v, st);
      k := 1;
    } else {
      var f := LooseDupStore(m, x, c, base, v, st);
      var j := LooseStores(m, xs[1..], f, base, v, Store(st, x, v));
      Then(m, c, 2, f, j, Run(m, f, j));
      k := 2 + j;
    }
  }

  /** Storing a copy keeps the value for the next. */
  lemma LooseDupStore(m: Machine, x: string, c: Config, base: seq<Value>, v: Value, st: State) returns (f: Config)
    requires Has(m.code, c.pc, Dup) && Usable(x, [""]) && LayoutStore(m.code, x, c.pc + 1, [""])
    requires c.stack == base + [v] && Loose(c.(stack := base), c.pc, st)
    ensures f == Run(m, c, 2) && f.pc == c.pc + 4 && f.stack == base + [v] && Loose(f.(stack := base), f.pc, Store(st, x, v))
    ensures SizeStore([""], x) == 3
  {
    hide Run, Visible, Usable, LayoutStore, Resolve, SizeStore, Sees, Store;
    DoDup(m, c, base, v);
    var d := Run(m, c, 1);
    LooseAbove(c.(stack := base), d.(stack := base + [v]), c.pc, c.pc + 1, st);
    LooseStore(m, x, d, base + [v], v, st);
    f := Run(m, d, 1);
    Then(m, c, 1, d, 1, f);
    LooseStack(c.(stack := base), c.pc, st);
    LooseBelow(f, f.(stack := base), c.pc + 4, Store(st, x, v));
  }

  lemma LooseBelow(c: Config, d: Config, p: nat, st: State)
    requires Loose(c, p, st) && d == c.(stack := d.stack) && d.stack <= c.stack && d.stack != []
    ensures Loose(d, p, st)
  {
    hide Visible;
    assert d.stack[..1] == c.stack[..1];
  }

  lemma LooseStack(c: Config, p: nat, st: State)
    requires Loose(c, p, st)
    ensures c.stack != []
  {}

  lemma LooseStored(c: Config, d: Config, p: nat, q: nat, st: State, x: string, v: Value)
    requires Loose(c, p, st) && d == c.(pc := q, globals := c.globals[x := v])
    ensures Loose(d, q, Store(st, x, v))
  {
    VisibleSlot(c.stack[..1]);
    assert EnvFind(st.env, x) == -1;
    hide Visible;
  }

  lemma VisibleSlot(stack: seq<Value>)
    requires |stack| == 1
    ensures Visible([""], stack) == []
  {
    assert [""][..0] == [] && stack[..0] == [];
  }

  lemma GlobalName(code: Listing, x: string, p: nat)
    requires Usable(x, [""])
    ensures SizeStore([""], x) == 3 && (LayoutStore(code, x, p, [""]) ==> Has(code, p, DefineGlobal(x)))
  {
    assert [""][..0] == [];
    assert Resolve([], x) == -1;
  }

  // ---- Stop, skip and pass ----

  /** Nothing is to be closed or dropped on the way out. */
  lemma FlatJump(code: Listing, s: Stmt, p: nat, cx: Context, stop: Target, skip: Target)
    requires (s.Stop? || s.Skip? || s.Pass?) && LiesS(code, s, p, cx, stop, skip)
    ensures s.Pass? ==> SizeS(s, cx) == 0
    ensures s.Stop? ==> JumpsTo(code, p, stop)
    ensures s.Skip? ==> JumpsTo(code, p, skip)
    ensures !stop.Pending? && !skip.Pending?
  {
    hide Has, LayoutE, LayoutB, SizeE, SizeB, CleanE, LooseB, LayoutStores, SizeStores, JumpsTo, Repeated;
    if !s.Pass? { FlatLeaves(cx); }
  }

  lemma FlatLeaves(cx: Context)
    requires Flat(cx) && cx.inLoop
    ensures Leaves(cx) == 0
  {}

  lemma LooseJump(m: Machine, s: Stmt, p: nat, cx: Context, stop: Target, skip: Target, c: Config, st: State, fuel: nat) returns (k: nat)
    requires (s.Stop? || s.Skip? || s.Pass?) && LiesS(m.code, s, p, cx, stop, skip) && Loose(c, p, st)
    ensures Runs(m, c, k, fuel, p + SizeS(s, cx), stop, skip, Exec(s, st, fuel, m.show))
  {
    hide Run, Sees, Exec, LiesS, SizeS;
    FlatJump(m.code, s, p, cx, stop, skip);
    JumpEval(s, st, fuel, m.show);
    if s.Pass? {
      k := 0;
      RunZero(m, c);
    } else {
      var t := if s.Stop? then stop.t else skip.t;
      DoJump(m, c, t);
      k := 1;
      LooseMoved(c, Run(m, c, 1), p, t, st);
    }
  }

  // ---- Branches ----

  lemma LooseIfShape(code: Listing, cond: Expr, thn: seq<Stmt>, els: seq<Stmt>, p: nat, cx: Context, stop: Target, skip: Target)
    requires LiesS(code, If(cond, thn, els), p, cx, stop, skip)
    ensures var p1 := p + SizeE(cond);
            var p2 := p1 + 4 + SizeB(thn, cx);
            var end := p + SizeS(If(cond, thn, els), cx);
            && Placed(code, cond, p, [""]) && Has(code, p1, JumpIfFalse(p2 + 3)) && Has(code, p1 + 3, Instr.Pop)
            && LiesB(code, thn, p1 + 4, cx, stop, skip) && Has(code, p2, Jump(end)) && Has(code, p2 + 3, Instr.Pop)
            && LiesB(code, els, p2 + 4, cx, stop, skip) && p2 + 4 + SizeB(els, cx) == end
  {
    hide Has, LayoutE, LayoutB, SizeE, SizeB, CleanE, LooseB, LayoutStores, LayoutLeave, Leaves, SizeStores;
  }

  lemma LooseUnlessShape(code: Listing, cond: Expr, body: seq<Stmt>, p: nat, cx: Context, stop: Target, skip: Target)
    requires LiesS(code, Unless(cond, body), p, cx, stop, skip)
    ensures var p1 := p + SizeE(cond);
            var end := p + SizeS(Unless(cond, body), cx);
            && Placed(code, cond, p, [""]) && Has(code, p1, JumpIfFalse(p1 + 7)) && Has(code, p1 + 3, Instr.Pop)
            && Has(code, p1 + 4, Jump(end)) && Has(code, p1 + 7, Instr.Pop)
            && LiesB(code, body, p1 + 8, cx, stop, skip) && p1 + 8 + SizeB(body, cx) == end
  {
    hide Has, LayoutE, LayoutB, SizeE, SizeB, CleanE, LooseB, LayoutStores, LayoutLeave, Leaves, SizeStores;
  }

  /** A branch that ends normally jumps to the end. */
  lemma RunsJump(m: Machine, c: Config, k: nat, fuel: nat, mid: nat, end: nat, stop: Target, skip: Target, o: Option<Outcome>) returns (k2: nat)
    requires Runs(m, c, k, fuel, mid, stop, skip, o) && (Has(m.code, mid, Jump(end)) || Has(m.code, mid, Instr.Loop(end)))
    ensures Runs(m, c, k2, fuel, end, stop, skip, o) && k2 >= k && (o.Some? && o.value.Normal? ==> k2 > 0)
  {
    hide Run, Sees;
    k2 := k;
    if o.Some? && o.value.Normal? {
      var d := Run(m, c, k);
      DoJump(m, d, end);
      Then(m, c, k, d, 1, Run(m, d, 1));
      LooseMoved(d, Run(m, d, 1), mid, end, o.value.st);
      k2 := k + 1;
    } else {
      RunsAnyEnd(m, c, k, fuel, mid, end, stop, skip, o);
    }
  }

  lemma {:induction false} LooseIf(m: Machine, cond: Expr, thn: seq<Stmt>, els: seq<Stmt>, p: nat, cx: Context, stop: Target, skip: Target,
                                   c: Config, st: State, fuel: nat) returns (k: nat)
    requires LiesS(m.code, If(cond, thn, els), p, cx, stop, skip) && Loose(c, p, st)
    ensures Runs(m, c, k, fuel, p + SizeS(If(cond, thn, els), cx), stop, skip, Exec(If(cond, thn, els), st, fuel, m.show))
    decreases fuel, If(cond, thn, els), 0
  {
    hide Run, LiesS, LiesB, Placed, SizeE, SizeS, SizeB, Eval, Exec, ExecBlock, Sees, Runs, Truthy, Raised, Loose;
    LooseIfShape(m.code, cond, thn, els, p, cx, stop, skip);
    IfEval(cond, thn, els, st, fuel, m.show);
    var p2, end := p + SizeE(cond) + 4 + SizeB(thn, cx), p + SizeS(If(cond, thn, els), cx);
    LooseAt(c, p, st);
    var j := SimTest(m, cond, p, [""], c, st, p2 + 3);
    var r := Eval(cond, st, m.show);
    if r.Err? {
      k := j;
      RunsRaised(m, c, k, fuel, p, r.e, st, end, stop, skip);
    } else {
      var d := Run(m, c, j);
      LooseMoved(c, d, p, d.pc, st);
      if Truthy(r.v) {
        var kb := LooseBlock(m, thn, d.pc, cx, stop, skip, d, st, fuel);
        var kj := RunsJump(m, d, kb, fuel, p2, end, stop, skip, ExecBlock(thn, st, fuel, m.show));
        RunsAfter(m, c, j, kj, fuel, fuel, end, stop, skip, ExecBlock(thn, st, fuel, m.show));
        k := j + kj;
      } else {
        var kb := LooseBlock(m, els, d.pc, cx, stop, skip, d, st, fuel);
        RunsAfter(m, c, j, kb, fuel, fuel, end, stop, skip, ExecBlock(els, st, fuel, m.show));
        k := j + kb;
      }
    }
  }

  lemma {:induction false} LooseUnless(m: Machine, cond: Expr, body: seq<Stmt>, p: nat, cx: Context, stop: Target, skip: Target,
                                       c: Config, st: State, fuel: nat) returns (k: nat)
    requires LiesS(m.code, Unless(cond, body), p, cx, stop, skip) && Loose(c, p, st)
    ensures Runs(m, c, k, fuel, p + SizeS(Unless(cond, body), cx), stop, skip, Exec(Unless(cond, body), st, fuel, m.show))
    decreases fuel, Unless(cond, body), 0
  {
    hide Run, LiesS, LiesB, Placed, SizeE, SizeS, SizeB, Eval, Exec, ExecBlock, Sees, Runs, Truthy, Raised;
    LooseUnlessShape(m.code, cond, body, p, cx, stop, skip);
    UnlessEval(cond, body, st, fuel, m.show);
    var p1, end := p + SizeE(cond), p + SizeS(Unless(cond, body), cx);
    var j := SimTest(m, cond, p, [""], c, st, p1 + 7);
    var r := Eval(cond, st, m.show);
    if r.Err? {
      k := j;
      RunsRaised(m, c, k, fuel, p, r.e, st, end, stop, skip);
    } else {
      var d := Run(m, c, j);
      LooseMoved(c, d, p, d.pc, st);
      if Truthy(r.v) {
        DoJump(m, d, end);
        Then(m, c, j, d, 1, Run(m, d, 1));
        LooseMoved(d, Run(m, d, 1), d.pc, end, st);
        k := j + 1;
        RunsNormal(m, c, k, fuel, end, stop, skip, st);
      } else {
        var kb := LooseBlock(m, body, d.pc, cx, stop, skip, d, st, fuel);
        RunsAfter(m, c, j, kb, fuel, fuel, end, stop, skip, ExecBlock(body, st, fuel, m.show));
        k := j + kb;
      }
    }
  }

  // ---- Loops ----

  /** A loop body at b whose end jumps back to p. */
  predicate LooseBody(code: Listing, body: seq<Stmt>, p: nat, b: nat, end: nat, cx: Context) {
    var inner := EnterLoop(cx, [], []);
    LiesB(code, body, b, inner, Fwd(end), Back(p)) && Has(code, b + SizeB(body, inner), Instr.Loop(p))
  }

  lemma LooseLoopShapes(code: Listing, s: Stmt, p: nat, cx: Context, stop: Target, skip: Target)
    requires LiesS(code, s, p, cx, stop, skip)
    ensures var end := p + SizeS(s, cx);
            match s
            case While(c, body) =>
              TestAt(code, c, true, p, p + SizeE(c) + 4, end, [""]) && LooseBody(code, body, p, p + SizeE(c) + 4, end, cx)
            case Until(c, body) =>
              TestAt(code, c, false, p, p + SizeE(c) + 8, end, [""]) && LooseBody(code, body, p, p + SizeE(c) + 8, end, cx)
            case Forever(body) => LooseBody(code, body, p, p, end, cx)
            case _ => true
  {
    hide Has, LayoutE, LayoutB, SizeE, SizeB, CleanE, LooseB, LayoutStores, LayoutLeave, Leaves, SizeStores;
    assert [""] + [] + [] == [""];
  }

  /** A round of a loop: back at p, or out of it. */
  lemma {:induction false} LooseRound(m: Machine, body: seq<Stmt>, p: nat, b: nat, end: nat, cx: Context, d: Config, st: State, fuel: nat)
      returns (k: nat)
    requires LooseBody(m.code, body, p, b, end, cx) && Loose(d, b, st)
    ensures Runs(m, d, k, fuel, p, Fwd(end), Back(p), ExecBlock(body, st, fuel, m.show))
    ensures var o := ExecBlock(body, st, fuel, m.show); o.Some? && Continues(o.value) ==> k > 0 && Loose(Run(m, d, k), p, o.value.st)
    decreases fuel, body, 3
  {
    hide Run, LiesB, SizeB, ExecBlock, Loose;
    var inner := EnterLoop(cx, [], []);
    var kb := LooseBlock(m, body, b, inner, Fwd(end), Back(p), d, st, fuel);
    k := RunsJump(m, d, kb, fuel, b + SizeB(body, inner), p, Fwd(end), Back(p), ExecBlock(body, st, fuel, m.show));
  }

  /** A round that ends the loop. */
  lemma RoundOut(m: Machine, d: Config, k: nat, fuel: nat, p: nat, end: nat, stop: Target, skip: Target, o: Option<Outcome>)
    requires Runs(m, d, k, fuel, p, Fwd(end), Back(p), o) && (o.Some? ==> !Continues(o.value))
    ensures Runs(m, d, k, fuel, end, stop, skip, if o.None? then None else Some(LoopResult(o.value)))
  {
    hide Run;
  }

  lemma {:induction false} LooseLoop(m: Machine, cond: Expr, runOn: bool, body: seq<Stmt>, p: nat, b: nat, end: nat,
                                     cx: Context, stop: Target, skip: Target, c: Config, st: State, fuel: nat) returns (k: nat)
    requires TestAt(m.code, cond, runOn, p, b, end, [""]) && LooseBody(m.code, body, p, b, end, cx) && Loose(c, p, st)
    ensures Runs(m, c, k, fuel, end, stop, skip, ExecLoop(cond, runOn, body, st, fuel, m.show))
    decreases fuel, body, 6
  {
    hide Run, ExecBlock, LooseBody, TestAt, Eval, Sees, Truthy, ExecLoop, Raised, Runs;
    if fuel == 0 {
      k := 0;
      LooseStuck(m, c, p, st, cond, runOn, body, end, stop, skip);
    } else {
      LoopTest(cond, runOn, body, st, fuel, m.show);
      var j := SimLoopTest(m, cond, runOn, p, b, end, [""], c, st);
      var r := Eval(cond, st, m.show);
      var d := Run(m, c, j);
      if r.Err? {
        k := j;
        RunsRaised(m, c, k, fuel, p, r.e, st, end, stop, skip);
      } else if Truthy(r.v) != runOn {
        k := j;
        LooseMoved(c, d, p, end, st);
        RunsNormal(m, c, k, fuel, end, stop, skip, st);
      } else {
        LooseMoved(c, d, p, b, st);
        LoopUnfold(cond, runOn, body, st, fuel, m.show);
        var kr := LooseLoopGo(m, cond, runOn, body, p, b, end, cx, stop, skip, d, st, fuel);
        RunsAfter(m, c, j, kr, fuel - 1, fuel, end, stop, skip, ExecLoop(cond, runOn, body, st, fuel, m.show));
        k := j + kr;
      }
    }
  }

  lemma LooseStuck(m: Machine, c: Config, p: nat, st: State, cond: Expr, runOn: bool, body: seq<Stmt>, end: nat, stop: Target, skip: Target)
    requires Loose(c, p, st)
    ensures Runs(m, c, 0, 0, end, stop, skip, ExecLoop(cond, runOn, body, st, 0, m.show))
    ensures Runs(m, c, 0, 0, end, stop, skip, ExecForever(body, st, 0, m.show))
  {}

  lemma RunsLess(m: Machine, d: Config, k: nat, fuel: nat, end: nat, stop: Target, skip: Target, o: Option<Outcome>)
    requires Runs(m, d, k, fuel, end, stop, skip, o) && fuel > 0
    ensures Runs(m, d, k, fuel - 1, end, stop, skip, o)
  {
    hide Run, Rests;
  }

  /** The body, and then the rest of the loop. */
  lemma {:induction false} LooseLoopGo(m: Machine, cond: Expr, runOn: bool, body: seq<Stmt>, p: nat, b: nat, end: nat,
                                       cx: Context, stop: Target, skip: Target, d: Config, st: State, fuel: nat) returns (k: nat)
    requires TestAt(m.code, cond, runOn, p, b, end, [""]) && LooseBody(m.code, body, p, b, end, cx) && Loose(d, b, st) && fuel > 0
    requires Eval(cond, st, m.show).Ok? && Truthy(Eval(cond, st, m.show).v) == runOn
    ensures Runs(m, d, k, fuel - 1, end, stop, skip, ExecLoop(cond, runOn, body, st, fuel, m.show))
    decreases fuel, body, 5
  {
    hide Run, ExecBlock, LooseBody, TestAt, Eval, Loose, Truthy, ExecLoop, Runs, Continues, LoopResult;
    LoopUnfold(cond, runOn, body, st, fuel, m.show);
    var o := ExecBlock(body, st, fuel, m.show);
    var kb := LooseRound(m, body, p, b, end, cx, d, st, fuel);
    if o.Some? && Continues(o.value) {
      var kr := LooseLoop(m, cond, runOn, body, p, b, end, cx, stop, skip, Run(m, d, kb), o.value.st, fuel - 1);
      RunsAfter(m, d, kb, kr, fuel - 1, fuel - 1, end, stop, skip, ExecLoop(cond, runOn, body, o.value.st, fuel - 1, m.show));
      k := kb + kr;
    } else {
      k := kb;
      RoundOut(m, d, kb, fuel, p, end, stop, skip, o);
      RunsLess(m, d, kb, fuel, end, stop, skip, if o.None? then None else Some(LoopResult(o.value)));
    }
  }

  lemma {:induction false} LooseForever(m: Machine, body: seq<Stmt>, p: nat, end: nat, cx: Context, stop: Target, skip: Target,
                                        c: Config, st: State, fuel: nat) returns (k: nat)
    requires LooseBody(m.code, body, p, p, end, cx) && Loose(c, p, st)
    ensures Runs(m, c, k, fuel, end, stop, skip, ExecForever(body, st, fuel, m.show))
    decreases fuel, body, 5
  {
    hide Run, ExecBlock, LooseBody, Loose, ExecForever, Runs, Continues, LoopResult;
    ForeverUnfold(body, st, fuel, m.show);
    if fuel == 0 {
      k := 0;
      LooseStuck(m, c, p, st, Num(0.0), true, body, end, stop, skip);
    } else {
      var o := ExecBlock(body, st, fuel, m.show);
      var kb := LooseRound(m, body, p, p, end, cx, c, st, fuel);
      if o.Some? && Continues(o.value) {
        var kr := LooseForever(m, body, p, end, cx, stop, skip, Run(m, c, kb), o.value.st, fuel - 1);
        RunsAfter(m, c, kb, kr, fuel - 1, fuel, end, stop, skip, ExecForever(body, o.value.st, fuel - 1, m.show));
        k := kb + kr;
      } else {
        k := kb;
        RoundOut(m, c, kb, fuel, p, end, stop, skip, o);
      }
    }
  }

  // ---- All statements ----

  lemma {:induction false} LooseLooping(m: Machine, s: Stmt, p: nat, cx: Context, stop: Target, skip: Target, c: Config, st: State, fuel: nat)
      returns (k: nat)
    requires (s.While? || s.Until? || s.Forever?) && LiesS(m.code, s, p, cx, stop, skip) && Loose(c, p, st)
    ensures Runs(m, c, k, fuel, p + SizeS(s, cx), stop, skip, Exec(s, st, fuel, m.show))
    decreases fuel, s, 0
  {
    hide Run, LiesS, Loose, Runs, Exec, ExecLoop, ExecForever, SizeS, SizeE, TestAt, LooseBody;
    LooseLoopShapes(m.code, s, p, cx, stop, skip);
    LoopEvals(s, st, fuel, m.show);
    var end := p + SizeS(s, cx);
    match s {
      case While(cond, body) => k := LooseLoop(m, cond, true, body, p, p + SizeE(cond) + 4, end, cx, stop, skip, c, st, fuel);
      case Until(cond, body) => k := LooseLoop(m, cond, false, body, p, p + SizeE(cond) + 8, end, cx, stop, skip, c, st, fuel);
      case Forever(body) => k := LooseForever(m, body, p, end, cx, stop, skip, c, st, fuel);
    }
  }

  lemma {:induction false} LooseStmt(m: Machine, s: Stmt, p: nat, cx: Context, stop: Target, skip: Target, c: Config, st: State, fuel: nat)
      returns (k: nat)
    requires LiesS(m.code, s, p, cx, stop, skip) && Loose(c, p, st)
    ensures Runs(m, c, k, fuel, p + SizeS(s, cx), stop, skip, Exec(s, st, fuel, m.show))
    decreases fuel, s, 1
  {
    hide *;
    LooseMakesNoSlots(m.code, s, p, cx, stop, skip);
    match s {
      case If(cond, thn, els) => k := LooseIf(m, cond, thn, els, p, cx, stop, skip, c, st, fuel);
      case Unless(cond, body) => k := LooseUnless(m, cond, body, p, cx, stop, skip, c, st, fuel);
      case While(_, _) => k := LooseLooping(m, s, p, cx, stop, skip, c, st, fuel);
      case Until(_, _) => k := LooseLooping(m, s, p, cx, stop, skip, c, st, fuel);
      case Forever(_) => k := LooseLooping(m, s, p, cx, stop, skip, c, st, fuel);
      case Stop => k := LooseJump(m, s, p, cx, stop, skip, c, st, fuel);
      case Skip => k := LooseJump(m, s, p, cx, stop, skip, c, st, fuel);
      case Pass => k := LooseJump(m, s, p, cx, stop, skip, c, st, fuel);
      case _ => k := LooseSimple(m, s, p, cx, stop, skip, c, st, fuel);
    }
  }

  lemma LooseMakesNoSlots(code: Listing, s: Stmt, p: nat, cx: Context, stop: Target, skip: Target)
    requires LiesS(code, s, p, cx, stop, skip)
    ensures !s.Repeat? && !s.ForIn? && !s.Try?
  {}

  lemma LooseBlockShape(code: Listing, b: seq<Stmt>, p: nat, cx: Context, stop: Target, skip: Target)
    requires b != [] && LiesB(code, b, p, cx, stop, skip)
    ensures LiesS(code, b[0], p, cx, stop, skip) && LiesB(code, b[1..], p + SizeS(b[0], cx), cx, stop, skip)
    ensures SizeB(b, cx) == SizeS(b[0], cx) + SizeB(b[1..], cx)
  {
    hide LayoutS, SizeS, LooseS;
  }

  lemma LooseEmpty(m: Machine, p: nat, cx: Context, stop: Target, skip: Target, c: Config, st: State, fuel: nat)
    requires Loose(c, p, st)
    ensures Runs(m, c, 0, fuel, p, stop, skip, Some(Normal(st))) && SizeB([], cx) == 0
  {}

  lemma {:induction false} LooseBlock(m: Machine, b: seq<Stmt>, p: nat, cx: Context, stop: Target, skip: Target, c: Config, st: State, fuel: nat)
      returns (k: nat)
    requires LiesB(m.code, b, p, cx, stop, skip) && Loose(c, p, st)
    ensures Runs(m, c, k, fuel, p + SizeB(b, cx), stop, skip, ExecBlock(b, st, fuel, m.show))
    decreases fuel, b, 2
  {
    hide Run, LiesS, LiesB, SizeS, SizeB, Exec, ExecBlock, Loose;
    BlockEval(b, st, fuel, m.show);
    if b == [] {
      k := 0;
      LooseEmpty(m, p, cx, stop, skip, c, st, fuel);
    } else {
      LooseBlockShape(m.code, b, p, cx, stop, skip);
      var mid, end := p + SizeS(b[0], cx), p + SizeB(b, cx);
      var j := LooseStmt(m, b[0], p, cx, stop, skip, c, st, fuel);
      k := j;
      var o := Exec(b[0], st, fuel, m.show);
      if o.Some? && o.value.Normal? {
        var kr := LooseBlock(m, b[1..], mid, cx, stop, skip, Run(m, c, j), o.value.st, fuel);
        RunsAfter(m, c, j, kr, fuel, fuel, end, stop, skip, ExecBlock(b[1..], o.value.st, fuel, m.show));
        k := j + kr;
      } else {
        RunsAnyEnd(m, c, j, fuel, mid, end, stop, skip, o);
      }
    }
  }

  // ---- Scripts ----

  /** How a script, or the rest of one, ends after k steps. */
  predicate Arrives(m: Machine, c: Config, k: nat, fuel: nat, end: nat, o: Option<Outcome>) {
    var d := Run(m, c, k);
    match o
    case None => k >= fuel && d.status == Running
    case Some(Normal(st)) => At(d, end) && d.stack != [] && d.globals == st.globals && d.out == st.out
    case Some(Threw(v, st)) => d.status == Running && d.err == Some(v) && d.tries == [] && d.globals == st.globals && d.out == st.out
    case Some(_) => false
  }

  /** Clean statements one by one, and then the rest at once. */
  lemma {:induction false} SimTop(m: Machine, b: seq<Stmt>, p: nat, c: Config, st: State, fuel: nat) returns (k: nat)
    requires LayoutB(m.code, b, p, ScriptContext, Fwd(0), Fwd(0)) && CleanTop(b, ScriptContext) && Starts(c, p, ScriptContext, st)
    ensures Arrives(m, c, k, fuel, p + SizeB(b, ScriptContext), ExecBlock(b, st, fuel, m.show))
    decreases b
  {
    hide Run, LayoutS, SizeS, Exec, CleanS, Starts, LooseB, Arrives, SizeB, LayoutB, ExecBlock;
    var cx := ScriptContext;
    if LooseB(b, cx) {
      k := TopLoose(m, b, p, c, st, fuel);
    } else {
      BlockEval(b, st, fuel, m.show);
      TopShape(m.code, b, p);
      var mid, end := p + SizeS(b[0], cx), p + SizeB(b, cx);
      var j := TopClean(m, b[0], p, c, st, fuel);
      k := j;
      var o := Exec(b[0], st, fuel, m.show);
      if o.Some? && o.value.Normal? {
        var r := SimTop(m, b[1..], mid, Run(m, c, j), o.value.st, fuel);
        k := j + r;
        ArrivesOn(m, c, j, r, fuel, end, ExecBlock(b[1..], o.value.st, fuel, m.show));
      } else {
        ArrivesAnyEnd(m, c, j, fuel, mid, end, o);
      }
    }
  }

  lemma TopShape(code: Listing, b: seq<Stmt>, p: nat)
    requires LayoutB(code, b, p, ScriptContext, Fwd(0), Fwd(0)) && !LooseB(b, ScriptContext)
    ensures b != [] && LayoutS(code, b[0], p, ScriptContext, Fwd(0), Fwd(0))
    ensures LayoutB(code, b[1..], p + SizeS(b[0], ScriptContext), ScriptContext, Fwd(0), Fwd(0))
    ensures SizeB(b, ScriptContext) == SizeS(b[0], ScriptContext) + SizeB(b[1..], ScriptContext)
  {
    hide LayoutS, SizeS, LooseS;
  }

  lemma ArrivesOn(m: Machine, c: Config, j: nat, r: nat, fuel: nat, end: nat, o: Option<Outcome>)
    requires Arrives(m, Run(m, c, j), r, fuel, end, o)
    ensures Arrives(m, c, j + r, fuel, end, o)
  {
    hide Run;
    RunAdd(m, c, j, r);
  }

  lemma ArrivesAnyEnd(m: Machine, c: Config, k: nat, fuel: nat, mid: nat, end: nat, o: Option<Outcome>)
    requires Arrives(m, c, k, fuel, mid, o) && (o.Some? ==> !o.value.Normal?)
    ensures Arrives(m, c, k, fuel, end, o)
  {
    hide Run;
  }

  lemma TopClean(m: Machine, s: Stmt, p: nat, c: Config, st: State, fuel: nat) returns (k: nat)
    requires LayoutS(m.code, s, p, ScriptContext, Fwd(0), Fwd(0)) && CleanS(s, ScriptContext) && Starts(c, p, ScriptContext, st)
    ensures var o := Exec(s, st, fuel, m.show);
            && Arrives(m, c, k, fuel, p + SizeS(s, ScriptContext), o)
            && (o.Some? && o.value.Normal? ==> Starts(Run(m, c, k), p + SizeS(s, ScriptContext), ScriptContext, o.value.st))
  {
    hide Run, LayoutS, SizeS, Exec, CleanS;
    k := SimS(m, s, p, ScriptContext, Fwd(0), Fwd(0), c, st, fuel);
    var o := Exec(s, st, fuel, m.show);
    if o.Some? && o.value.Normal? {
      NormalStarts(m, c, k, fuel, p, p + SizeS(s, ScriptContext), ScriptContext, Fwd(0), Fwd(0), st, o.value.st);
    }
  }

  /** Outside of loops nothing stops or skips. */
  lemma {:induction false} NoExit(b: seq<Stmt>, cx: Context, st: State, fuel: nat, show: Show)
    requires LooseB(b, cx) && !cx.inLoop
    ensures var o := ExecBlock(b, st, fuel, show); o.Some? ==> o.value.Normal? || o.value.Threw?
    decreases b, 0
  {
    hide Exec, LooseS;
    if b != [] {
      NoExitS(b[0], cx, st, fuel, show);
      var o := Exec(b[0], st, fuel, show);
      if o.Some? && o.value.Normal? { NoExit(b[1..], cx, o.value.st, fuel, show); }
    }
  }

  lemma {:induction false} NoExitS(s: Stmt, cx: Context, st: State, fuel: nat, show: Show)
    requires LooseS(s, cx) && !cx.inLoop
    ensures var o := Exec(s, st, fuel, show); o.Some? ==> o.value.Normal? || o.value.Threw?
    decreases s, 0
  {
    hide Eval, ExecBlock, ExecLoop, ExecForever, LooseB;
    match s
    case If(c, thn, els) =>
      NoExit(thn, cx, st, fuel, show);
      NoExit(els, cx, st, fuel, show);
    case Unless(c, body) => NoExit(body, cx, st, fuel, show);
    case While(c, body) => LoopNoExit(c, true, body, st, fuel, show);
    case Until(c, body) => LoopNoExit(c, false, body, st, fuel, show);
    case Forever(body) => ForeverNoExit(body, st, fuel, show);
    case _ =>
  }

  /** A loop takes its stops and skips itself. */
  lemma {:induction false} LoopNoExit(c: Expr, runOn: bool, body: seq<Stmt>, st: State, fuel: nat, show: Show)
    ensures var o := ExecLoop(c, runOn, body, st, fuel, show); o.Some? ==> o.value.Normal? || o.value.Threw?
    decreases fuel
  {
    hide Eval, ExecBlock;
    if fuel > 0 {
      var o := ExecBlock(body, st, fuel, show);
      if o.Some? && Continues(o.value) { LoopNoExit(c, runOn, body, o.value.st, fuel - 1, show); }
    }
  }

  lemma {:induction false} ForeverNoExit(body: seq<Stmt>, st: State, fuel: nat, show: Show)
    ensures var o := ExecForever(body, st, fuel, show); o.Some? ==> o.value.Normal? || o.value.Threw?
    decreases fuel
  {
    hide ExecBlock;
    if fuel > 0 {
      var o := ExecBlock(body, st, fuel, show);
      if o.Some? && Continues(o.value) { ForeverNoExit(body, o.value.st, fuel - 1, show); }
    }
  }

  lemma TopLoose(m: Machine, b: seq<Stmt>, p: nat, c: Config, st: State, fuel: nat) returns (k: nat)
    requires LayoutB(m.code, b, p, ScriptContext, Fwd(0), Fwd(0)) && LooseB(b, ScriptContext) && Starts(c, p, ScriptContext, st)
    ensures Arrives(m, c, k, fuel, p + SizeB(b, ScriptContext), ExecBlock(b, st, fuel, m.show))
  {
    hide Run, LayoutB, SizeB, ExecBlock, LooseB, Visible;
    NoExit(b, ScriptContext, st, fuel, m.show);
    k := LooseBlock(m, b, p, ScriptContext, Fwd(0), Fwd(0), c, st, fuel);
  }
}
