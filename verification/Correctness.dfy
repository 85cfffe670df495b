/** The compiler's main theorem: a compiled script does what its source means. */
module Correctness {
  import opened Values
  import opened Language
  import opened CodeGen
  import opened Machine
  import opened Slots
  import opened Programs
  import opened SimExpr
  import opened SimStmt
  import opened SimControl
  import opened Leftovers

  /** How a script ends: the error it did not catch, if any, its globals and its output. */
  datatype Behaviour = Behaviour(uncaught: Option<Value>, globals: map<string, Value>, out: seq<string>)

  function Initial(globals: map<string, Value>): State { State(globals, [], []) }

  /** The source program b, started on the given globals, ends with behaviour r. */
  ghost predicate Means(b: seq<Stmt>, globals: map<string, Value>, show: Show, r: Behaviour) {
    exists fuel: nat :: MeansWithin(b, globals, show, fuel, r)
  }

  predicate MeansWithin(b: seq<Stmt>, globals: map<string, Value>, show: Show, fuel: nat, r: Behaviour) {
    match ExecBlock(b, Initial(globals), fuel, show)
    case Some(Normal(st)) => r == Behaviour(None, st.globals, st.out)
    case Some(Threw(v, st)) => r == Behaviour(Some(v), st.globals, st.out)
    case _ => false
  }

  /** The machine, started on its code, halts with behaviour r. */
  ghost predicate Halts(m: Machine, globals: map<string, Value>, r: Behaviour) {
    exists n: nat :: HaltsAfter(m, globals, n, r)
  }

  predicate HaltsAfter(m: Machine, globals: map<string, Value>, n: nat, r: Behaviour) {
    var c := Run(m, Start(globals), n);
    && c.globals == r.globals && c.out == r.out
    && c.status == (if r.uncaught.Some? then Uncaught(r.uncaught.value) else Finished(VNull))
  }

  lemma StartsAt(globals: map<string, Value>)
    ensures Starts(Start(globals), 0, ScriptContext, Initial(globals)) && ValidContext(ScriptContext)
  {
    assert [VScript][..1] == [VScript] && [""][..0] == [] && [VScript][..0] == [];
    assert Visible([""], [VScript]) == [];
  }

  /** A script that ends normally returns null. */
  lemma FinishNormally(m: Machine, b: seq<Stmt>, c: Config, k: nat, st: State)
    requires LayoutScript(m.code, b) && c == Start(c.globals)
    requires Arrives(m, c, k, 0, SizeB(b, ScriptContext), Some(Normal(st)))
    ensures var d := Run(m, c, k + 2);
            d.status == Finished(VNull) && d.globals == st.globals && d.out == st.out
  {
    var d := Run(m, c, k);
    hide Run, LayoutB, SizeB;
    DoPush(m, d, PushNull, VNull);
    var e := Run(m, d, 1);
    Then(m, c, k, d, 1, e);
    DoReturn(m, e, d.stack, VNull);
    Then(m, c, k + 1, e, 1, Run(m, e, 1));
  }

  /** A script that ends with an error leaves it uncaught. */
  lemma FinishThrown(m: Machine, c: Config, k: nat, end: nat, v: Value, st: State)
    requires Arrives(m, c, k, 0, end, Some(Threw(v, st)))
    ensures var d := Run(m, c, k + 1);
            d.status == Uncaught(v) && d.globals == st.globals && d.out == st.out
  {
    var d := Run(m, c, k);
    assert Run(m, d, 1) == Step(m, d);
    hide Run;
    Then(m, c, k, d, 1, Step(m, d));
  }

  /** One direction, with the fuel of the source bounding the run from below. */
  lemma ScriptRuns(m: Machine, b: seq<Stmt>, globals: map<string, Value>, fuel: nat) returns (k: nat)
    requires LayoutScript(m.code, b) && CleanTop(b, ScriptContext)
    ensures var o := ExecBlock(b, Initial(globals), fuel, m.show);
            && (o.None? ==> k >= fuel && Run(m, Start(globals), k).status == Running)
            && (o.Some? ==> (o.value.Normal? || o.value.Threw?)
                            && forall r | MeansWithin(b, globals, m.show, fuel, r) :: HaltsAfter(m, globals, k, r))
  {
    hide Run, ExecBlock, LayoutB, SizeB, CleanTop, Keeps, Starts;
    StartsAt(globals);
    var c, end := Start(globals), SizeB(b, ScriptContext);
    var j := SimTop(m, b, 0, c, Initial(globals), fuel);
    var o := ExecBlock(b, Initial(globals), fuel, m.show);
    if o.None? {
      k := j;
    } else if o.value.Normal? {
      k := j + 2;
      FinishNormally(m, b, c, j, o.value.st);
    } else {
      k := j + 1;
      if o.value.Threw? { FinishThrown(m, c, j, end, o.value.err, o.value.st); }
    }
  }

  /** A halted machine stays as it is. */
  lemma HaltsOnce(m: Machine, globals: map<string, Value>, n: nat, r: Behaviour, k: nat)
    requires HaltsAfter(m, globals, n, r) && n <= k
    ensures Run(m, Start(globals), k) == Run(m, Start(globals), n) && Run(m, Start(globals), n).status != Running
  {
    RunAdd(m, Start(globals), n, k - n);
    RunHalted(m, Run(m, Start(globals), n), k - n);
  }

  /** Meaning preservation, both ways: the machine halts with a behaviour exactly when
      the source has that behaviour; so it runs for ever exactly when the source does. */
  lemma CompiledCodeMeansSource(m: Machine, b: seq<Stmt>, globals: map<string, Value>, r: Behaviour)
    requires LayoutScript(m.code, b) && CleanTop(b, ScriptContext)
    ensures Means(b, globals, m.show, r) <==> Halts(m, globals, r)
  {
    hide Run, ExecBlock, LayoutScript, CleanTop;
    if Means(b, globals, m.show, r) {
      var fuel: nat :| MeansWithin(b, globals, m.show, fuel, r);
      var k := ScriptRuns(m, b, globals, fuel);
      assert HaltsAfter(m, globals, k, r);
    }
    if Halts(m, globals, r) {
      var n: nat :| HaltsAfter(m, globals, n, r);
      var k := ScriptRuns(m, b, globals, n);
      if ExecBlock(b, Initial(globals), n, m.show).None? {
        HaltsOnce(m, globals, n, r, k);
        assert false;
      } else {
        var r1 := EndOf(ExecBlock(b, Initial(globals), n, m.show).value);
        assert MeansWithin(b, globals, m.show, n, r1);
        BothHalt(m, globals, n, r, k, r1);
      }
    }
  }

  function EndOf(o: Outcome): Behaviour
    requires o.Normal? || o.Threw?
  {
    Behaviour(if o.Threw? then Some(o.err) else None, o.st.globals, o.st.out)
  }

  /** A machine halts in one way only. */
  lemma BothHalt(m: Machine, globals: map<string, Value>, n: nat, r: Behaviour, k: nat, r1: Behaviour)
    requires HaltsAfter(m, globals, n, r) && HaltsAfter(m, globals, k, r1)
    ensures r == r1
  {
    hide Run;
    if n <= k { HaltsOnce(m, globals, n, r, k); } else { HaltsOnce(m, globals, k, r1, n); }
  }

  /** Whenever the machine is found halted, it is with a behaviour of the source: it is
      never stuck, that is, no operand is missing and no slot or address is wrong. */
  lemma HaltedMeansSource(m: Machine, b: seq<Stmt>, globals: map<string, Value>, n: nat) returns (r: Behaviour)
    requires LayoutScript(m.code, b) && CleanTop(b, ScriptContext) && Run(m, Start(globals), n).status != Running
    ensures Means(b, globals, m.show, r) && HaltsAfter(m, globals, n, r)
    ensures Run(m, Start(globals), n).status != Stuck
  {
    hide Run, ExecBlock, LayoutScript, CleanTop;
    var k := ScriptRuns(m, b, globals, n);
    var o := ExecBlock(b, Initial(globals), n, m.show);
    if o.Some? {
      r := EndOf(o.value);
      assert MeansWithin(b, globals, m.show, n, r);
      if n <= k { HaltedStays(m, globals, n, k); } else { HaltsOnce(m, globals, k, r, n); }
    } else {
      HaltedStays(m, globals, n, k);
      assert false;
    }
  }

  lemma HaltedStays(m: Machine, globals: map<string, Value>, n: nat, k: nat)
    requires Run(m, Start(globals), n).status != Running && n <= k
    ensures Run(m, Start(globals), k) == Run(m, Start(globals), n)
  {
    RunAdd(m, Start(globals), n, k - n);
    RunHalted(m, Run(m, Start(globals), n), k - n);
  }

  // ---- Fuel ----

  /** More fuel does not change how a statement ends. */
  lemma {:induction false} MoreFuel(s: Stmt, st: State, f: nat, g: nat, show: Show)
    requires f <= g && Exec(s, st, f, show).Some?
    ensures Exec(s, st, g, show) == Exec(s, st, f, show)
    decreases f, s, 0
  {
    hide ExecBlock, ExecLoop, ExecForever, ExecTimes, ExecItems, Eval;
    match s {
      case If(c, thn, els) =>
        var r := Eval(c, st, show);
        if r.Ok? { MoreFuelB(if Truthy(r.v) then thn else els, st, f, g, show); }
      case Unless(c, body) =>
        var r := Eval(c, st, show);
        if r.Ok? && !Truthy(r.v) { MoreFuelB(body, st, f, g, show); }
      case While(c, body) => MoreFuelLoop(c, true, body, st, f, g, show);
      case Until(c, body) => MoreFuelLoop(c, false, body, st, f, g, show);
      case Forever(body) => MoreFuelForever(body, st, f, g, show);
      case Repeat(count, body) =>
        var r := Eval(count, st, show);
        if r.Ok? { MoreFuelTimes(Times(r.v), body, st, f, g, show); }
      case ForIn(x, over, body) =>
        var r := Eval(over, st, show);
        if r.Ok? { MoreFuelItems(x, Items(r.v), body, st, f, g, show); }
      case Try(body, x, handler) =>
        MoreFuelB(body, st, f, g, show);
        var o := ExecBlock(body, st, f, show);
        if o.Some? && o.value.Threw? { MoreFuelB(handler, Bind(o.value.st, x, o.value.err), f, g, show); }
      case _ =>
    }
  }

  lemma {:induction false} MoreFuelB(b: seq<Stmt>, st: State, f: nat, g: nat, show: Show)
    requires f <= g && ExecBlock(b, st, f, show).Some?
    ensures ExecBlock(b, st, g, show) == ExecBlock(b, st, f, show)
    decreases f, b, 0
  {
    hide Exec;
    if b != [] {
      MoreFuel(b[0], st, f, g, show);
      var o := Exec(b[0], st, f, show);
      if o.Some? && o.value.Normal? { MoreFuelB(b[1..], o.value.st, f, g, show); }
    }
  }

  lemma {:induction false} MoreFuelLoop(c: Expr, runOn: bool, body: seq<Stmt>, st: State, f: nat, g: nat, show: Show)
    requires f <= g && ExecLoop(c, runOn, body, st, f, show).Some?
    ensures ExecLoop(c, runOn, body, st, g, show) == ExecLoop(c, runOn, body, st, f, show)
    decreases f, body, 1
  {
    hide ExecBlock, Eval;
    var r := Eval(c, st, show);
    if r.Ok? && Truthy(r.v) == runOn {
      MoreFuelB(body, st, f, g, show);
      var o := ExecBlock(body, st, f, show);
      if o.Some? && (o.value.Normal? || o.value.Skipped?) { MoreFuelLoop(c, runOn, body, o.value.st, f - 1, g - 1, show); }
    }
  }

  lemma {:induction false} MoreFuelForever(body: seq<Stmt>, st: State, f: nat, g: nat, show: Show)
    requires f <= g && ExecForever(body, st, f, show).Some?
    ensures ExecForever(body, st, g, show) == ExecForever(body, st, f, show)
    decreases f, body, 1
  {
    hide ExecBlock;
    MoreFuelB(body, st, f, g, show);
    var o := ExecBlock(body, st, f, show);
    if o.Some? && (o.value.Normal? || o.value.Skipped?) { MoreFuelForever(body, o.value.st, f - 1, g - 1, show); }
  }

  lemma {:induction false} MoreFuelTimes(n: nat, body: seq<Stmt>, st: State, f: nat, g: nat, show: Show)
    requires f <= g && ExecTimes(n, body, st, f, show).Some?
    ensures ExecTimes(n, body, st, g, show) == ExecTimes(n, body, st, f, show)
    decreases f, body, 1
  {
    hide ExecBlock;
    if n > 0 {
      MoreFuelB(body, st, f, g, show);
      var o := ExecBlock(body, st, f, show);
      if o.Some? && (o.value.Normal? || o.value.Skipped?) { MoreFuelTimes(n - 1, body, o.value.st, f - 1, g - 1, show); }
    }
  }

  lemma {:induction false} MoreFuelItems(x: string, items: seq<Value>, body: seq<Stmt>, st: State, f: nat, g: nat, show: Show)
    requires f <= g && ExecItems(x, items, body, st, f, show).Some?
    ensures ExecItems(x, items, body, st, g, show) == ExecItems(x, items, body, st, f, show)
    decreases f, body, 1
  {
    hide ExecBlock;
    if items != [] {
      MoreFuelB(body, Bind(st, x, items[0]), f, g, show);
      var o := TrimOutcome(ExecBlock(body, Bind(st, x, items[0]), f, show), |st.env|);
      if o.Some? && (o.value.Normal? || o.value.Skipped?) { MoreFuelItems(x, items[1..], body, o.value.st, f - 1, g - 1, show); }
    }
  }
}
