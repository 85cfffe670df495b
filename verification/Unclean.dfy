/** Why the compiler theorem asks for clean programs: two scripts that compile, and whose
    code does not do what they say. */
module Unclean {
  import opened Values
  import opened Language
  import opened CodeGen
  import opened Machine
  import opened Correctness

  /** A bare true as a statement, then a loop that prints once. */
  const Printing: seq<Stmt> := [Stmt.Print(Num(7.0))]
  const BareTrue: seq<Stmt> := [ExprStmt(Bool(true)), Repeat(Num(1.0), Printing)]

  lemma BareTrueCode(code: Listing)
    requires LayoutScript(code, BareTrue)
    ensures Has(code, 0, PushBool(true)) && Has(code, 1, Const(VNum(1.0))) && Has(code, 4, Const(VNum(0.0)))
    ensures Has(code, 7, GetLocal(2)) && Has(code, 10, GetLocal(1)) && Has(code, 13, Operate(Less)) && Has(code, 14, JumpIfFalse(36))
    ensures Has(code, 36, Instr.Pop) && Has(code, 37, Instr.Pop) && Has(code, 38, Instr.Pop)
    ensures Has(code, 39, PushNull) && Has(code, 40, Instr.Return)
  {
    PrintingSize(EnterLoop(ScriptContext, ["", ""], []));
    hide Has, LayoutB, SizeB;
    BlockOfTwo(code, BareTrue[0], BareTrue[1]);
    RepeatParts(code, Num(1.0), Printing, 1, ScriptContext, Fwd(0), Fwd(0));
  }

  lemma PrintingSize(cx: Context)
    ensures SizeB(Printing, cx) == 4
  {
    assert Printing[1..] == [];
  }

  lemma BlockOfTwo(code: Listing, s: Stmt, t: Stmt)
    requires LayoutScript(code, [s, t])
    ensures var n := SizeS(s, ScriptContext);
            && LayoutS(code, s, 0, ScriptContext, Fwd(0), Fwd(0)) && LayoutS(code, t, n, ScriptContext, Fwd(0), Fwd(0))
            && Has(code, n + SizeS(t, ScriptContext), PushNull) && Has(code, n + SizeS(t, ScriptContext) + 1, Instr.Return)
  {
    hide SizeS, LayoutS, Has;
    assert [s, t][1..] == [t] && [t][1..] == [];
    assert SizeB([t], ScriptContext) == SizeS(t, ScriptContext);
    assert LayoutB(code, [t], SizeS(s, ScriptContext), ScriptContext, Fwd(0), Fwd(0));
  }

  lemma RepeatParts(code: Listing, count: Expr, body: seq<Stmt>, p: nat, cx: Context, stop: Target, skip: Target)
    requires LayoutS(code, Repeat(count, body), p, cx, stop, skip)
    ensures var n := |cx.locals|;
            var p1 := p + SizeE(count);
            var p2 := p1 + 14 + SizeB(body, EnterLoop(cx, ["", ""], []));
            && LayoutE(code, count, p, cx.locals) && Has(code, p1, Const(VNum(0.0)))
            && Has(code, p1 + 3, GetLocal(n + 1)) && Has(code, p1 + 6, GetLocal(n)) && Has(code, p1 + 9, Operate(Less))
            && Has(code, p1 + 10, JumpIfFalse(p2 + 14)) && SizeS(Repeat(count, body), cx) == p2 + 17 - p
            && Has(code, p2 + 14, Instr.Pop) && Has(code, p2 + 15, Instr.Pop) && Has(code, p2 + 16, Instr.Pop)
  {
    hide SizeE, LayoutE, SizeB, LayoutB, Has;
  }

  /** The source prints 7; the code, whose true stays on the stack in the count's slot, does not. */
  lemma BareTrueIsMiscompiled(m: Machine, globals: map<string, Value>)
    requires LayoutScript(m.code, BareTrue)
    ensures Means(BareTrue, globals, m.show, Behaviour(None, globals, [m.show(VNum(7.0))]))
    ensures Halts(m, globals, Behaviour(None, globals, []))
  {
    BareTrueMeans(globals, m.show);
    BareTrueCode(m.code);
    var c := BareTrueStarts(m, globals);
    hide LayoutScript, Run, Binary, Has, Ready;
    BareTrueEnds(m, c);
    Then(m, Start(globals), 5, c, 7, Run(m, c, 7));
    assert HaltsAfter(m, globals, 12, Behaviour(None, globals, []));
  }

  lemma BareTrueStarts(m: Machine, globals: map<string, Value>) returns (c: Config)
    requires var code := m.code;
             && Has(code, 0, PushBool(true)) && Has(code, 1, Const(VNum(1.0))) && Has(code, 4, Const(VNum(0.0)))
             && Has(code, 7, GetLocal(2)) && Has(code, 10, GetLocal(1))
    ensures c == Run(m, Start(globals), 5)
    ensures c == Start(globals).(pc := 13, stack := [VScript, VBool(true), VNum(1.0), VNum(0.0)] + [VNum(1.0)] + [VBool(true)])
  {
    hide Run;
    var c0 := Start(globals);
    DoPush(m, c0, PushBool(true), VBool(true));
    var c1 := Run(m, c0, 1);
    DoPush(m, c1, Const(VNum(1.0)), VNum(1.0));
    var c2 := Run(m, c1, 1);
    DoPush(m, c2, Const(VNum(0.0)), VNum(0.0));
    var c3 := Run(m, c2, 1);
    DoGetLocal(m, c3, 2);
    var c4 := Run(m, c3, 1);
    DoGetLocal(m, c4, 1);
    c := Run(m, c4, 1);
    Then(m, c0, 1, c1, 1, c2);
    Then(m, c0, 2, c2, 1, c3);
    Then(m, c0, 3, c3, 1, c4);
    Then(m, c0, 4, c4, 1, c);
  }

  lemma BareTrueEnds(m: Machine, c0: Config)
    requires var code := m.code;
             && Has(code, 13, Operate(Less)) && Has(code, 14, JumpIfFalse(36)) && Has(code, 36, Instr.Pop) && Has(code, 37, Instr.Pop)
             && Has(code, 38, Instr.Pop) && Has(code, 39, PushNull) && Has(code, 40, Instr.Return)
    requires At(c0, 13) && c0.stack == [VScript, VBool(true), VNum(1.0), VNum(0.0)] + [VNum(1.0)] + [VBool(true)]
    ensures var d := Run(m, c0, 7);
            d.globals == c0.globals && d.out == c0.out && d.status == Finished(VNull)
  {
    OneBelowTrue(m.show);
    hide Run, Binary;
    var base := [VScript, VBool(true)];
    assert c0.stack == (base + [VNum(1.0)] + [VNum(0.0)]) + [VNum(1.0)] + [VBool(true)];
    DoOperate(m, c0, Less, base + [VNum(1.0)] + [VNum(0.0)], VNum(1.0), VBool(true));
    var c1 := Run(m, c0, 1);
    DoJumpIfFalse(m, c1, 36, base + [VNum(1.0)] + [VNum(0.0)], VBool(false));
    var c2 := Run(m, c1, 1);
    DoPop(m, c2, base + [VNum(1.0)] + [VNum(0.0)], VBool(false));
    var c3 := Run(m, c2, 1);
    DoPop(m, c3, base + [VNum(1.0)], VNum(0.0));
    var c4 := Run(m, c3, 1);
    DoPop(m, c4, base, VNum(1.0));
    var c5 := Run(m, c4, 1);
    DoPush(m, c5, PushNull, VNull);
    var c6 := Run(m, c5, 1);
    DoReturn(m, c6, base, VNull);
    var c7 := Run(m, c6, 1);
    Then(m, c0, 1, c1, 1, c2);
    Then(m, c0, 2, c2, 1, c3);
    Then(m, c0, 3, c3, 1, c4);
    Then(m, c0, 4, c4, 1, c5);
    Then(m, c0, 5, c5, 1, c6);
    Then(m, c0, 6, c6, 1, c7);
  }

  lemma OneBelowTrue(show: Show)
    ensures Binary(Less, VNum(1.0), VBool(true), show) == Ok(VBool(false)) && !Truthy(VBool(false))
  {}

  lemma BareTrueMeans(globals: map<string, Value>, show: Show)
    ensures Means(BareTrue, globals, show, Behaviour(None, globals, [show(VNum(7.0))]))
  {
    var st0 := Initial(globals);
    var st1 := st0.(out := [show(VNum(7.0))]);
    assert st0.out + [show(VNum(7.0))] == st1.out;
    assert Exec(Printing[0], st0, 1, show) == Some(Normal(st1));
    assert ExecBlock(Printing[1..], st1, 1, show) == Some(Normal(st1));
    assert ExecBlock(Printing, st0, 1, show) == Some(Normal(st1));
    assert Times(VNum(1.0)) == 1;
    assert ExecTimes(0, Printing, st1, 0, show) == Some(Normal(st1));
    assert ExecTimes(1, Printing, st0, 1, show) == Some(Normal(st1));
    assert Exec(BareTrue[1], st0, 1, show) == Some(Normal(st1));
    assert BareTrue[1..][1..] == [] && BareTrue[1..][0] == BareTrue[1];
    assert ExecBlock(BareTrue[1..], st0, 1, show) == Some(Normal(st1));
    assert ExecBlock(BareTrue, st0, 1, show) == Some(Normal(st1));
    assert MeansWithin(BareTrue, globals, show, 1, Behaviour(None, globals, [show(VNum(7.0))]));
  }

  /** A loop that stores to a variable with the name of the iterator's slot. */
  const Storing: seq<Stmt> := [Assign(["_iter"], Num(5.0))]
  const HiddenName: seq<Stmt> := [ForIn("x", ListLit([Num(1.0)]), Storing)]

  lemma HiddenNameCode(code: Listing)
    requires LayoutScript(code, HiddenName)
    ensures Has(code, 0, Const(VNum(1.0))) && Has(code, 3, MakeList(1)) && Has(code, 5, GetIter) && Has(code, 6, ForIter(20))
    ensures Has(code, 9, Const(VNum(5.0))) && Has(code, 12, SetLocal(1)) && Has(code, 15, Instr.Pop)
    ensures Has(code, 16, Instr.Pop) && Has(code, 17, Loop(6))
  {
    hide Has, LayoutB, SizeB, LayoutE, SizeE, LayoutS, LayoutScript;
    var inner := EnterLoop(ScriptContext, ["_iter"], ["x"]);
    StoringCode(code, inner);
    ListCode(code);
    OneStatement(code, HiddenName[0]);
    ForInParts(code, "x", ListLit([Num(1.0)]), Storing, 0, ScriptContext, Fwd(0), Fwd(0));
  }

  lemma OneStatement(code: Listing, s: Stmt)
    requires LayoutScript(code, [s])
    ensures LayoutS(code, s, 0, ScriptContext, Fwd(0), Fwd(0))
  {
    hide LayoutS, SizeS;
  }

  lemma ForInParts(code: Listing, x: string, over: Expr, body: seq<Stmt>, p: nat, cx: Context, stop: Target, skip: Target)
    requires LayoutS(code, ForIn(x, over, body), p, cx, stop, skip)
    ensures var p1 := p + SizeE(over);
            var inner := EnterLoop(cx, ["_iter"], [x]);
            var p2 := p1 + 4 + SizeB(body, inner);
            && LayoutE(code, over, p, cx.locals) && Has(code, p1, GetIter) && Has(code, p1 + 1, ForIter(p2 + 4))
            && LayoutB(code, body, p1 + 4, inner, Fwd(p2 + 4), Back(p1 + 1))
            && Has(code, p2, Instr.Pop) && Has(code, p2 + 1, Loop(p1 + 1))
  {
    hide SizeE, LayoutE, SizeB, LayoutB, Has;
  }

  lemma StoringCode(code: Listing, inner: Context)
    requires inner == EnterLoop(ScriptContext, ["_iter"], ["x"])
    ensures SizeB(Storing, inner) == 7
    ensures LayoutB(code, Storing, 9, inner, Fwd(20), Back(6)) ==>
              Has(code, 9, Const(VNum(5.0))) && Has(code, 12, SetLocal(1)) && Has(code, 15, Instr.Pop)
  {
    hide Has;
    assert inner.locals == ["", "_iter", "x"] && inner.locals[..2] == ["", "_iter"];
    assert Resolve(inner.locals, "_iter") == 1;
    assert ["_iter"][1..] == [] && Storing[1..] == [];
    assert SizeStores(inner.locals, ["_iter"]) == 4;
  }

  lemma ListCode(code: Listing)
    ensures SizeE(ListLit([Num(1.0)])) == 5
    ensures LayoutE(code, ListLit([Num(1.0)]), 0, [""]) ==> Has(code, 0, Const(VNum(1.0))) && Has(code, 3, MakeList(1))
  {
    assert [Num(1.0)][1..] == [] && SizeEs([Num(1.0)]) == 3;
  }

  /** The source ends normally; the code overwrites its iterator and fails. */
  lemma HiddenNameIsMiscompiled(m: Machine, globals: map<string, Value>)
    requires LayoutScript(m.code, HiddenName)
    ensures Means(HiddenName, globals, m.show, Behaviour(None, globals["_iter" := VNum(5.0)], []))
    ensures Halts(m, globals, Behaviour(Some(VStr("Invalid iterator object")), globals, []))
  {
    HiddenNameMeans(globals, m.show);
    HiddenNameCode(m.code);
    var c := HiddenNameStarts(m, globals);
    hide LayoutScript, Run, Has, Ready;
    HiddenNameEnds(m, c);
    Then(m, Start(globals), 5, c, 6, Run(m, c, 6));
    assert HaltsAfter(m, globals, 11, Behaviour(Some(VStr("Invalid iterator object")), globals, []));
  }

  lemma HiddenNameStarts(m: Machine, globals: map<string, Value>) returns (c: Config)
    requires var code := m.code;
             && Has(code, 0, Const(VNum(1.0))) && Has(code, 3, MakeList(1)) && Has(code, 5, GetIter) && Has(code, 6, ForIter(20))
             && Has(code, 9, Const(VNum(5.0)))
    ensures c == Run(m, Start(globals), 5)
    ensures c == Start(globals).(pc := 12, stack := [VScript, VIter(VList([VNum(1.0)]), 1), VNum(1.0)] + [VNum(5.0)])
  {
    hide Run;
    var c0 := Start(globals);
    var list := VList([VNum(1.0)]);
    DoPush(m, c0, Const(VNum(1.0)), VNum(1.0));
    var c1 := Run(m, c0, 1);
    DoMakeList(m, c1, [VScript], [VNum(1.0)]);
    var c2 := Run(m, c1, 1);
    DoGetIter(m, c2, [VScript], list);
    var c3 := Run(m, c2, 1);
    DoForIter(m, c3, 20, [VScript], list, 0);
    var c4 := Run(m, c3, 1);
    DoPush(m, c4, Const(VNum(5.0)), VNum(5.0));
    c := Run(m, c4, 1);
    Then(m, c0, 1, c1, 1, c2);
    Then(m, c0, 2, c2, 1, c3);
    Then(m, c0, 3, c3, 1, c4);
    Then(m, c0, 4, c4, 1, c);
  }

  lemma HiddenNameEnds(m: Machine, c0: Config)
    requires var code := m.code;
             && Has(code, 12, SetLocal(1)) && Has(code, 15, Instr.Pop) && Has(code, 16, Instr.Pop) && Has(code, 17, Loop(6))
             && Has(code, 6, ForIter(20))
    requires At(c0, 12) && c0.stack == [VScript, VIter(VList([VNum(1.0)]), 1), VNum(1.0)] + [VNum(5.0)] && c0.tries == []
    ensures var d := Run(m, c0, 6);
            d.globals == c0.globals && d.out == c0.out && d.status == Uncaught(VStr("Invalid iterator object"))
  {
    var base := [VScript, VNum(5.0)];
    DoSetLocal(m, c0, 1, [VScript, VIter(VList([VNum(1.0)]), 1), VNum(1.0)], VNum(5.0));
    var c1 := Run(m, c0, 1);
    assert c1.stack == (base + [VNum(1.0)]) + [VNum(5.0)];
    DoPop(m, c1, base + [VNum(1.0)], VNum(5.0));
    var c2 := Run(m, c1, 1);
    DoPop(m, c2, base, VNum(1.0));
    var c3 := Run(m, c2, 1);
    DoJump(m, c3, 6);
    var c4 := Run(m, c3, 1);
    assert Run(m, c4, 1) == Step(m, c4);
    var c5 := Run(m, c4, 1);
    assert Run(m, c5, 1) == Step(m, c5);
    var c6 := Run(m, c5, 1);
    hide Run;
    Then(m, c0, 1, c1, 1, c2);
    Then(m, c0, 2, c2, 1, c3);
    Then(m, c0, 3, c3, 1, c4);
    Then(m, c0, 4, c4, 1, c5);
    Then(m, c0, 5, c5, 1, c6);
  }

  lemma HiddenNameMeans(globals: map<string, Value>, show: Show)
    ensures Means(HiddenName, globals, show, Behaviour(None, globals["_iter" := VNum(5.0)], []))
  {
    var st0 := Initial(globals);
    var st1 := st0.(globals := globals["_iter" := VNum(5.0)]);
    var sb := Bind(st0, "x", VNum(1.0));
    var sc := sb.(globals := st1.globals);
    assert Eval(ListLit([Num(1.0)]), st0, show) == Ok(VList([VNum(1.0)])) by {
      assert [Num(1.0)][1..] == [];
      assert EvalAll([Num(1.0)], st0, show) == Got([VNum(1.0)]);
    }
    assert sb.env == [Binding("x", VNum(1.0))] && sb.env[..0] == [];
    assert EnvFind(sb.env, "_iter") == -1;
    assert ["_iter"][1..] == [] && StoreAll(sb, ["_iter"], VNum(5.0)) == sc;
    assert Exec(Storing[0], sb, 1, show) == Some(Normal(sc));
    assert ExecBlock(Storing[1..], sc, 1, show) == Some(Normal(sc));
    assert ExecBlock(Storing, sb, 1, show) == Some(Normal(sc));
    assert Trim(sc, 0) == st1;
    assert [VNum(1.0)][1..] == [];
    assert ExecItems("x", [], Storing, st1, 0, show) == Some(Normal(st1));
    assert ExecItems("x", [VNum(1.0)], Storing, st0, 1, show) == Some(Normal(st1));
    assert Exec(HiddenName[0], st0, 1, show) == Some(Normal(st1));
    assert ExecBlock(HiddenName[1..], st1, 1, show) == Some(Normal(st1));
    assert ExecBlock(HiddenName, st0, 1, show) == Some(Normal(st1));
    assert MeansWithin(HiddenName, globals, show, 1, Behaviour(None, st1.globals, []));
  }
}
