/** Compiled control flow: branches, loops, stop and skip, try and blocks. */
module SimControl {
  import opened Values
  import opened Language
  import opened CodeGen
  import opened Machine
  import opened Slots
  import opened Programs
  import opened SimExpr
  import opened SimStmt

  // ---- stop and skip ----

  lemma {:induction false} RunEndTries(m: Machine, c: Config, n: nat)
    requires Repeated(m.code, c.pc, n, Instr.EndTry) && At(c, c.pc) && n <= |c.tries|
    ensures Run(m, c, n) == c.(pc := c.pc + n, tries := c.tries[..|c.tries| - n])
    decreases n
  {
    if n == 0 {
      assert c.tries[..|c.tries|] == c.tries;
    } else {
      var t := |c.tries| - 1;
      DoEndTry(m, c, c.tries[..t], c.tries[t]);
      hide Step, At, Has;
      var d := Run(m, c, 1);
      assert At(d, d.pc) by { assert At(c, c.pc); AtMoved(c, d); }
      RunEndTries(m, d, n - 1);
      Then(m, c, 1, d, n - 1, Run(m, d, n - 1));
      assert c.tries[..t][..t - (n - 1)] == c.tries[..t + 1 - n];
    }
  }

  lemma AtMoved(c: Config, d: Config)
    requires At(c, c.pc) && d.status == c.status && d.err == c.err
    ensures At(d, d.pc)
  {}

  lemma {:induction false} RunPops(m: Machine, c: Config, n: nat)
    requires Repeated(m.code, c.pc, n, Instr.Pop) && At(c, c.pc) && n <= |c.stack|
    ensures Run(m, c, n) == c.(pc := c.pc + n, stack := c.stack[..|c.stack| - n])
    decreases n
  {
    if n == 0 {
      assert c.stack[..|c.stack|] == c.stack;
    } else {
      var t := |c.stack| - 1;
      DoPop(m, c, c.stack[..t], c.stack[t]);
      hide Step, At, Has;
      var d := Run(m, c, 1);
      assert At(d, d.pc) by { AtMoved(c, d); }
      RunPops(m, d, n - 1);
      Then(m, c, 1, d, n - 1, Run(m, d, n - 1));
      assert c.stack[..t][..t - (n - 1)] == c.stack[..t + 1 - n];
    }
  }

  /** Leaving a loop from inside: close the tries, drop the locals, jump. */
  lemma SimLeave(m: Machine, p: nat, cx: Context, to: Target, c: Config, st: State) returns (k: nat)
    requires LayoutLeave(m.code, p, cx) && JumpsTo(m.code, p + Leaves(cx), to) && !to.Pending?
    requires ValidContext(cx) && cx.inLoop && Starts(c, p, cx, st)
    ensures k > 0 && Left(Run(m, c, k), c, cx, to, st)
  {
    hide Run, Step, Keeps, Left, Visible, Shown, Trim, Sees;
    SeesKeeps(cx.locals, c, st);
    KeepsBelow(cx.locals, cx.loopLocals, c, c, st);
    var a, b := OpenTries(cx), OpenLocals(cx);
    RunEndTries(m, c, a);
    var d := Run(m, c, a);
    RunPops(m, d, b);
    var e := Run(m, d, b);
    Then(m, c, a, d, b, e);
    DoJump(m, e, to.t);
    var f := Run(m, e, 1);
    Then(m, c, a + b, e, 1, f);
    k := a + b + 1;
    LeftFrom(c, f, cx, to, st);
  }

  lemma LeftFrom(c: Config, f: Config, cx: Context, to: Target, st: State)
    requires ValidContext(cx) && cx.inLoop && !to.Pending? && |c.stack| == |cx.locals| && |c.tries| == cx.tries
    requires |st.env| == Shown(cx.locals) && At(c, c.pc)
    requires Keeps(cx.locals[..cx.loopLocals], c, c, Trim(st, Shown(cx.locals[..cx.loopLocals])))
    requires f == c.(pc := to.t, tries := c.tries[..cx.loopTries], stack := c.stack[..cx.loopLocals])
    ensures Left(f, c, cx, to, st)
  {
    hide Visible, Trim;
    assert f.stack[..cx.loopLocals] == c.stack[..cx.loopLocals];
  }

  // ---- Loops ----

  lemma PlainInner(cx: Context)
    ensures EnterLoop(cx, [], []).locals == cx.locals && cx.locals[..|cx.locals|] == cx.locals
  {}

  /** What one round of a loop body that adds no variables leaves behind. */
  predicate RoundDone(e: Config, d: Config, p2: nat, end: nat, skip: Target, cx: Context, o: Outcome) {
    match o
    case Normal(st) => Starts(e, p2, cx, st) && e.tries == d.tries && Keeps(cx.locals, d, e, st)
    case Skipped(st) => !skip.Pending? && Starts(e, skip.t, cx, st) && e.tries == d.tries && Keeps(cx.locals, d, e, st)
    case Stopped(st) => Starts(e, end, cx, st) && e.tries == d.tries && Keeps(cx.locals, d, e, st)
    case Threw(v, st) => e.status == Running && e.err == Some(v) && e.tries == d.tries && Keeps(cx.locals, d, e, st)
  }

  lemma RoundEnds(e: Config, d: Config, p2: nat, end: nat, skip: Target, cx: Context, st0: State, o: Outcome)
    requires ValidContext(cx) && Starts(d, d.pc, cx, st0) && !skip.Pending?
    requires Ends(e, d, p2, EnterLoop(cx, [], []), Fwd(end), skip, o)
    ensures RoundDone(e, d, p2, end, skip, cx, o)
  {
    var n := |cx.locals|;
    PlainInner(cx);
    if o.Stopped? || o.Skipped? {
      hide Visible;
      assert Trim(o.st, Shown(cx.locals)) == o.st;
      assert e.stack[..n] == e.stack;
      assert d.tries[..|d.tries|] == d.tries;
    }
  }

  /** The test of a while or until loop at p: on to the body at b, or out to end. */
  predicate TestAt(code: Listing, cond: Expr, runOn: bool, p: nat, b: nat, end: nat, locals: seq<string>) {
    var p1 := p + SizeE(cond);
    && Placed(code, cond, p, locals)
    && Has(code, p1 + 3, Instr.Pop)
    && if runOn
       then b == p1 + 4 && end > 0 && Has(code, p1, JumpIfFalse(end - 1)) && Has(code, end - 1, Instr.Pop)
       else b == p1 + 8 && Has(code, p1, JumpIfFalse(p1 + 7)) && Has(code, p1 + 4, Jump(end)) && Has(code, p1 + 7, Instr.Pop)
  }

  lemma SimLoopTest(m: Machine, cond: Expr, runOn: bool, p: nat, b: nat, end: nat, locals: seq<string>, c: Config, st: State)
      returns (k: nat)
    requires TestAt(m.code, cond, runOn, p, b, end, locals) && At(c, p) && Sees(locals, c, st)
    ensures k >= 1
    ensures match Eval(cond, st, m.show)
            case Err(v) => Raised(Run(m, c, k), c, v)
            case Ok(v) => Run(m, c, k) == c.(pc := if Truthy(v) == runOn then b else end)
  {
    hide Run, Sees, Placed, SizeE, Eval, Truthy;
    var p1 := p + SizeE(cond);
    k := SimTest(m, cond, p, locals, c, st, if runOn then end - 1 else p1 + 7);
    var r := Eval(cond, st, m.show);
    if r.Ok? && !runOn && Truthy(r.v) {
      var d := Run(m, c, k);
      DoJump(m, d, end);
      Then(m, c, k, d, 1, Run(m, d, 1));
      k := k + 1;
    }
  }

  /** A loop body at b whose end jumps back to p. */
  predicate LoopBody(code: Listing, body: seq<Stmt>, p: nat, b: nat, end: nat, cx: Context) {
    var inner := EnterLoop(cx, [], []);
    && PlacedB(code, body, b, inner, Fwd(end), Back(p))
    && Has(code, b + SizeB(body, inner), Loop(p)) && ValidContext(cx)
  }

  /** Running a loop body once. */
  lemma {:induction false} SimBody(m: Machine, body: seq<Stmt>, b: nat, end: nat, skip: Target, cx: Context, d: Config, st: State, fuel: nat)
      returns (k: nat)
    requires PlacedB(m.code, body, b, EnterLoop(cx, [], []), Fwd(end), skip) && ValidContext(cx) && Starts(d, b, cx, st)
    ensures match ExecBlock(body, st, fuel, m.show)
            case None => k >= fuel && Run(m, d, k).status == Running
            case Some(o) =>
              && RoundDone(Run(m, d, k), d, b + SizeB(body, EnterLoop(cx, [], [])), end, skip, cx, o)
              && (o.Skipped? ==> k > 0)
    decreases fuel, body, 3
  {
    hide Run, ExecBlock, LayoutB, CleanB, SizeB, Keeps, Ends, Starts, RoundDone;
    var inner := EnterLoop(cx, [], []);
    InnerStarts(d, b, cx, st);
    k := SimB(m, body, b, inner, Fwd(end), skip, d, st, fuel);
    var o := ExecBlock(body, st, fuel, m.show);
    if o.Some? {
      StartsAt(d, b, cx, st);
      RoundEnds(Run(m, d, k), d, b + SizeB(body, inner), end, skip, cx, st, o.value);
    }
  }

  /** Running a loop body once: back at p, or out of the loop. */
  lemma {:induction false} SimRound(m: Machine, body: seq<Stmt>, p: nat, b: nat, end: nat, cx: Context, d: Config, st: State, fuel: nat)
      returns (k: nat)
    requires LoopBody(m.code, body, p, b, end, cx) && Starts(d, b, cx, st)
    ensures match ExecBlock(body, st, fuel, m.show)
            case None => k >= fuel && Run(m, d, k).status == Running
            case Some(o) => RoundDone(Run(m, d, k), d, p, end, Back(p), cx, o) && (Continues(o) ==> k > 0)
    decreases fuel, body, 4
  {
    hide Run, ExecBlock, LayoutB, CleanB, SizeB, Keeps, Ends, Starts, PlacedB, RoundDone;
    var p2 := b + SizeB(body, EnterLoop(cx, [], []));
    k := SimBody(m, body, b, end, Back(p), cx, d, st, fuel);
    var o := ExecBlock(body, st, fuel, m.show);
    if o.Some? {
      var e := Run(m, d, k);
      if o.value.Normal? {
        RoundNormal(e, d, p2, end, Back(p), cx, o.value.st);
        DoJump(m, e, p);
        var f := Run(m, e, 1);
        Then(m, d, k, e, 1, f);
        k := k + 1;
        RoundJumped(e, f, d, p2, p, end, cx, o.value.st);
      } else {
        RoundElse(e, d, p2, p, end, cx, o.value);
      }
    }
  }

  lemma RoundNormal(e: Config, d: Config, p2: nat, end: nat, skip: Target, cx: Context, st: State)
    requires RoundDone(e, d, p2, end, skip, cx, Normal(st))
    ensures Starts(e, p2, cx, st) && At(e, p2)
  {}

  /** From the end of the body back to the start of the loop. */
  lemma RoundJumped(e: Config, f: Config, d: Config, p2: nat, p: nat, end: nat, cx: Context, st: State)
    requires RoundDone(e, d, p2, end, Back(p), cx, Normal(st)) && f == e.(pc := p)
    ensures RoundDone(f, d, p, end, Back(p), cx, Normal(st))
  {
    StartsMoved(e, f, p2, p, cx, d, st);
  }

  lemma RoundElse(e: Config, d: Config, p2: nat, p: nat, end: nat, cx: Context, o: Outcome)
    requires RoundDone(e, d, p2, end, Back(p), cx, o) && !o.Normal?
    ensures RoundDone(e, d, p, end, Back(p), cx, o)
  {}

  lemma StartsAt(e: Config, p: nat, cx: Context, st: State)
    requires Starts(e, p, cx, st)
    ensures At(e, p)
  {}

  lemma StartsMoved(e: Config, f: Config, p2: nat, p: nat, cx: Context, d: Config, st: State)
    requires Starts(e, p2, cx, st) && Keeps(cx.locals, d, e, st) && f == e.(pc := p)
    ensures Starts(f, p, cx, st) && Keeps(cx.locals, d, f, st)
  {}

  lemma InnerStarts(d: Config, b: nat, cx: Context, st: State)
    requires Starts(d, b, cx, st)
    ensures Starts(d, b, EnterLoop(cx, [], []), st)
  {
    PlainInner(cx);
  }

  /** A round after j steps from c ends the loop. */
  lemma LoopOut(m: Machine, c: Config, j: nat, d: Config, kb: nat, e: Config, fuel: nat, p2: nat, end: nat,
                cx: Context, stop: Target, skip: Target, to: Target, st0: State, o: Outcome)
    requires Run(m, c, j) == d && Run(m, d, kb) == e && !to.Pending? && RoundDone(e, d, p2, end, to, cx, o)
    requires Keeps(cx.locals, c, d, st0) && d.tries == c.tries && |c.stack| == |cx.locals|
    requires !Continues(o)
    ensures Simulates(m, c, j + kb, fuel, end, cx, stop, skip, Some(LoopResult(o)))
  {
    hide Run, Keeps, Sees;
    Then(m, c, j, d, kb, e);
    KeepsTrans(cx.locals, c, d, st0, e, o.st);
  }

  /** A round after j steps from c, then the rest of the loop. */
  lemma LoopAgain(m: Machine, c: Config, j: nat, d: Config, kb: nat, e: Config, k: nat, fuel: nat, p2: nat, end: nat,
                  cx: Context, stop: Target, skip: Target, to: Target, st0: State, o: Outcome, r: Option<Outcome>)
    requires Run(m, c, j) == d && Run(m, d, kb) == e && !to.Pending? && RoundDone(e, d, p2, end, to, cx, o)
    requires Keeps(cx.locals, c, d, st0) && d.tries == c.tries && j + kb > 0 && fuel > 0
    requires Continues(o)
    requires Simulates(m, e, k, fuel - 1, end, cx, stop, skip, r)
    ensures Simulates(m, c, j + kb + k, fuel, end, cx, stop, skip, r)
  {
    hide Run, Keeps, Sees, Simulates, Starts;
    Then(m, c, j, d, kb, e);
    KeepsTrans(cx.locals, c, d, st0, e, o.st);
    After(m, c, j + kb, e, o.st, k, fuel - 1, fuel, end, cx, stop, skip, r);
  }

  lemma {:induction false} SimLoop(m: Machine, cond: Expr, runOn: bool, body: seq<Stmt>, p: nat, b: nat, end: nat,
                                   cx: Context, stop: Target, skip: Target, c: Config, st: State, fuel: nat)
      returns (k: nat)
    requires TestAt(m.code, cond, runOn, p, b, end, cx.locals) && LoopBody(m.code, body, p, b, end, cx)
    requires Starts(c, p, cx, st)
    ensures Simulates(m, c, k, fuel, end, cx, stop, skip, ExecLoop(cond, runOn, body, st, fuel, m.show))
    decreases fuel, body, 6
  {
    hide Run, ExecBlock, LoopBody, TestAt, Keeps, Starts, Eval, RoundDone, Sees, Truthy, ExecLoop, Simulates;
    if fuel == 0 {
      k := 0;
      LoopStuck(m, c, p, cx, st, cond, runOn, body, end, stop, skip);
    } else {
      LoopTest(cond, runOn, body, st, fuel, m.show);
      StartsAt(c, p, cx, st);
      StartsSees(c, p, cx, st);
      var j := SimLoopTest(m, cond, runOn, p, b, end, cx.locals, c, st);
      var r := Eval(cond, st, m.show);
      if r.Err? {
        k := j;
        RaisedEnds(m, c, k, fuel, p, r.e, st, end, cx, stop, skip);
      } else if Truthy(r.v) != runOn {
        k := j;
        SeesMoved(cx.locals, c, Run(m, c, j), st);
        MovedEnds(m, c, k, fuel, p, end, cx, stop, skip, st);
      } else {
        k := SimLoopGo(m, cond, runOn, body, p, b, end, cx, stop, skip, c, j, st, fuel);
      }
    }
  }

  lemma LoopStuck(m: Machine, c: Config, p: nat, cx: Context, st: State, cond: Expr, runOn: bool, body: seq<Stmt>,
                  end: nat, stop: Target, skip: Target)
    requires Starts(c, p, cx, st)
    ensures Simulates(m, c, 0, 0, end, cx, stop, skip, ExecLoop(cond, runOn, body, st, 0, m.show))
  {}

  lemma LoopTest(cond: Expr, runOn: bool, body: seq<Stmt>, st: State, fuel: nat, show: Show)
    requires fuel > 0
    ensures var r := Eval(cond, st, show);
            && (r.Err? ==> ExecLoop(cond, runOn, body, st, fuel, show) == Some(Threw(r.e, st)))
            && (r.Ok? && Truthy(r.v) != runOn ==> ExecLoop(cond, runOn, body, st, fuel, show) == Some(Normal(st)))
  {}

  lemma {:induction false} SimLoopGo(m: Machine, cond: Expr, runOn: bool, body: seq<Stmt>, p: nat, b: nat, end: nat,
                                     cx: Context, stop: Target, skip: Target, c: Config, j: nat, st: State, fuel: nat)
      returns (k: nat)
    requires TestAt(m.code, cond, runOn, p, b, end, cx.locals) && LoopBody(m.code, body, p, b, end, cx)
    requires fuel > 0 && j > 0 && Starts(c, p, cx, st) && Run(m, c, j) == c.(pc := b)
    requires Eval(cond, st, m.show).Ok? && Truthy(Eval(cond, st, m.show).v) == runOn
    ensures Simulates(m, c, k, fuel, end, cx, stop, skip, ExecLoop(cond, runOn, body, st, fuel, m.show))
    decreases fuel, body, 5
  {
    hide Run, LoopBody, TestAt, Keeps, Starts, Eval, RoundDone, Sees, Truthy, ExecBlock, ExecLoop, Simulates, Continues, LoopResult;
    StartsSees(c, p, cx, st);
    var d := Run(m, c, j);
    SeesMoved(cx.locals, c, d, st);
    StartsMoved(c, d, p, b, cx, c, st);
    LoopUnfold(cond, runOn, body, st, fuel, m.show);
    var kb := SimRound(m, body, p, b, end, cx, d, st, fuel);
    var e := Run(m, d, kb);
    var o := ExecBlock(body, st, fuel, m.show);
    if o.None? {
      LoopTimeout(m, c, j, d, kb, fuel, end, cx, stop, skip);
      k := j + kb;
    } else if Continues(o.value) {
      var st1 := o.value.st;
      RoundBack(e, d, p, end, cx, o.value);
      var kr := SimLoop(m, cond, runOn, body, p, b, end, cx, stop, skip, e, st1, fuel - 1);
      LoopAgain(m, c, j, d, kb, e, kr, fuel, p, end, cx, stop, skip, Back(p), st, o.value,
                ExecLoop(cond, runOn, body, st1, fuel - 1, m.show));
      k := j + kb + kr;
    } else {
      LoopOut(m, c, j, d, kb, e, fuel, p, end, cx, stop, skip, Back(p), st, o.value);
      k := j + kb;
    }
  }

  predicate Continues(o: Outcome) { o.Normal? || o.Skipped? }

  /** What a loop makes of a round that does not continue. */
  function LoopResult(o: Outcome): Outcome { if o.Stopped? then Normal(o.st) else o }

  lemma LoopUnfold(cond: Expr, runOn: bool, body: seq<Stmt>, st: State, fuel: nat, show: Show)
    requires fuel > 0 && Eval(cond, st, show).Ok? && Truthy(Eval(cond, st, show).v) == runOn
    ensures var o := ExecBlock(body, st, fuel, show);
            ExecLoop(cond, runOn, body, st, fuel, show) ==
            if o.None? then None
            else if Continues(o.value) then ExecLoop(cond, runOn, body, o.value.st, fuel - 1, show)
            else Some(LoopResult(o.value))
  {}

  lemma LoopTimeout(m: Machine, c: Config, j: nat, d: Config, kb: nat, fuel: nat,
                    end: nat, cx: Context, stop: Target, skip: Target)
    requires Run(m, c, j) == d && j + kb >= fuel && Run(m, d, kb).status == Running
    ensures Simulates(m, c, j + kb, fuel, end, cx, stop, skip, None)
  {
    Then(m, c, j, d, kb, Run(m, d, kb));
  }

  lemma RoundBack(e: Config, d: Config, p: nat, end: nat, cx: Context, o: Outcome)
    requires RoundDone(e, d, p, end, Back(p), cx, o) && Continues(o)
    ensures Starts(e, p, cx, o.st)
  {}

  lemma StartsSees(e: Config, p: nat, cx: Context, st: State)
    requires Starts(e, p, cx, st)
    ensures Sees(cx.locals, e, st) && |e.stack| == |cx.locals|
  {}

  /** Having only moved to the end is a normal end. */
  lemma MovedEnds(m: Machine, c: Config, k: nat, fuel: nat, p: nat, end: nat, cx: Context, stop: Target, skip: Target, st: State)
    requires Starts(c, p, cx, st) && Run(m, c, k) == c.(pc := end) && Keeps(cx.locals, c, Run(m, c, k), st)
    ensures Simulates(m, c, k, fuel, end, cx, stop, skip, Some(Normal(st)))
  {
    hide Run;
  }

  lemma {:induction false} SimForever(m: Machine, body: seq<Stmt>, p: nat, end: nat,
                                      cx: Context, stop: Target, skip: Target, c: Config, st: State, fuel: nat)
      returns (k: nat)
    requires LoopBody(m.code, body, p, p, end, cx) && Starts(c, p, cx, st)
    ensures Simulates(m, c, k, fuel, end, cx, stop, skip, ExecForever(body, st, fuel, m.show))
    decreases fuel, body, 5
  {
    hide Run, LoopBody, Keeps, Starts, RoundDone, Sees, ExecBlock, ExecForever, Simulates, Continues, LoopResult;
    ForeverUnfold(body, st, fuel, m.show);
    StartsSees(c, p, cx, st);
    RunZero(m, c);
    SeesKeeps(cx.locals, c, st);
    if fuel == 0 {
      k := 0;
      RunningAt(c, p, cx, st);
      LoopTimeout(m, c, 0, c, 0, 0, end, cx, stop, skip);
    } else {
      var kb := SimRound(m, body, p, p, end, cx, c, st, fuel);
      var e := Run(m, c, kb);
      var o := ExecBlock(body, st, fuel, m.show);
      if o.None? {
        LoopTimeout(m, c, 0, c, kb, fuel, end, cx, stop, skip);
        k := kb;
      } else if Continues(o.value) {
        RoundBack(e, c, p, end, cx, o.value);
        var kr := SimForever(m, body, p, end, cx, stop, skip, e, o.value.st, fuel - 1);
        LoopAgain(m, c, 0, c, kb, e, kr, fuel, p, end, cx, stop, skip, Back(p), st, o.value,
                  ExecForever(body, o.value.st, fuel - 1, m.show));
        k := kb + kr;
      } else {
        LoopOut(m, c, 0, c, kb, e, fuel, p, end, cx, stop, skip, Back(p), st, o.value);
        k := kb;
      }
    }
  }

  lemma ForeverUnfold(body: seq<Stmt>, st: State, fuel: nat, show: Show)
    ensures fuel == 0 ==> ExecForever(body, st, fuel, show) == None
    ensures fuel > 0 ==>
            var o := ExecBlock(body, st, fuel, show);
            ExecForever(body, st, fuel, show) ==
            if o.None? then None
            else if Continues(o.value) then ExecForever(body, o.value.st, fuel - 1, show)
            else Some(LoopResult(o.value))
  {}

  lemma RunningAt(c: Config, p: nat, cx: Context, st: State)
    requires Starts(c, p, cx, st)
    ensures c.status == Running && c.err == None && c.pc == p
  {}

  // ---- Leaving a scope ----

  /** Outside a scope that added locals, an abrupt end is the same abrupt end. */
  lemma EndsOuter(m: Machine, c: Config, j: nat, d: Config, k: nat, fuel: nat, mid: nat, end: nat, cx: Context, names: seq<string>,
                  stop: Target, skip: Target, o: Outcome)
    requires ValidContext(cx) && Run(m, c, j) == d && |cx.locals| <= |c.stack|
    requires Ends(Run(m, d, k), d, mid, AddLocals(cx, names), stop, skip, o) && !o.Normal? && (o.Skipped? ==> k > 0)
    requires d.tries == c.tries && |cx.locals| <= |d.stack|
    requires forall i :: 0 <= i < |cx.locals| && Hidden(cx.locals[i]) ==> d.stack[i] == c.stack[i]
    ensures Simulates(m, c, j + k, fuel, end, cx, stop, skip, TrimOutcome(Some(o), Shown(cx.locals)))
  {
    hide Run, Visible, Step;
    var e := Run(m, d, k);
    Then(m, c, j, d, k, e);
    var n := |cx.locals|;
    var inner := AddLocals(cx, names);
    assert inner.locals[..n] == cx.locals;
    if o.Threw? {
      KeepsBelow(inner.locals, n, d, e, o.st);
    } else {
      LeftOuter(e, d, c, cx, names, if o.Stopped? then stop else skip, o.st);
    }
  }

  lemma LeftOuter(e: Config, d: Config, c: Config, cx: Context, names: seq<string>, to: Target, st: State)
    requires ValidContext(cx) && Left(e, d, AddLocals(cx, names), to, st)
    requires d.tries == c.tries && |cx.locals| <= |c.stack| && |cx.locals| <= |d.stack|
    requires forall i :: 0 <= i < |cx.locals| && Hidden(cx.locals[i]) ==> d.stack[i] == c.stack[i]
    ensures Left(e, c, cx, to, Trim(st, Shown(cx.locals)))
  {
    hide Visible;
    var n := |cx.locals|;
    var l := cx.loopLocals;
    var inner := AddLocals(cx, names);
    assert inner.locals[..n] == cx.locals && inner.locals[..l] == cx.locals[..l];
    ShownMono(inner.locals, n);
    ShownMono(cx.locals, l);
    TrimTrim(st, Shown(cx.locals), Shown(cx.locals[..l]));
  }

  lemma TrimTrim(st: State, a: nat, b: nat)
    requires b <= a <= |st.env|
    ensures Trim(Trim(st, a), b) == Trim(st, b) && |Trim(st, a).env| == a
  {}

  lemma {:induction false} ShownMono(locals: seq<string>, n: nat)
    requires n <= |locals|
    ensures Shown(locals[..n]) <= Shown(locals)
    decreases |locals|
  {
    if n < |locals| {
      var l := |locals| - 1;
      assert locals[..l][..n] == locals[..n];
      ShownMono(locals[..l], n);
    } else {
      assert locals[..n] == locals;
    }
  }

  /** After dropping the added locals, a normal end is a normal end outside. */
  lemma NormalOuter(m: Machine, c: Config, k: nat, e: Config, f: Config, fuel: nat, end: nat, cx: Context, names: seq<string>,
                    stop: Target, skip: Target, st: State)
    requires Run(m, c, k) == f && At(f, end) && f == e.(pc := end, stack := f.stack) && f.tries == c.tries
    requires |f.stack| == |cx.locals| <= |c.stack| && f.stack <= e.stack && |e.stack| == |cx.locals| + |names|
    requires Keeps(cx.locals + names, e, e, st)
    requires forall i :: 0 <= i < |cx.locals| && Hidden(cx.locals[i]) ==> e.stack[i] == c.stack[i]
    ensures Simulates(m, c, k, fuel, end, cx, stop, skip, Some(Normal(Trim(st, Shown(cx.locals)))))
    ensures |st.env| == Shown(cx.locals + names)
  {
    hide Run, Visible, Step;
    var n := |cx.locals|;
    KeepsBelow(cx.locals + names, n, e, e, st);
    assert (cx.locals + names)[..n] == cx.locals;
    assert f.stack[..n] == e.stack[..n];
  }

  // ---- repeat ----

  function RepeatCx(cx: Context): Context { AddLocals(cx, ["", ""]) }

  lemma RepeatInner(cx: Context)
    ensures EnterLoop(RepeatCx(cx), [], []) == EnterLoop(cx, ["", ""], [])
    ensures Shown(RepeatCx(cx).locals) == Shown(cx.locals)
  {
    assert cx.locals + ["", ""] == cx.locals + [""] + [""];
    ShownSnoc(cx.locals, "");
    ShownSnoc(cx.locals + [""], "");
    assert cx.locals + ["", ""] + [] + [] == cx.locals + ["", ""] + [];
  }

  /** A repeat loop from the counting test at start on. */
  predicate RepeatCode(code: Listing, body: seq<Stmt>, start: nat, cx: Context) {
    var n := |cx.locals|;
    var inner := EnterLoop(RepeatCx(cx), [], []);
    var p2 := start + 11 + SizeB(body, inner);
    && ValidContext(cx)
    && Has(code, start, GetLocal(n + 1)) && Has(code, start + 3, GetLocal(n)) && Has(code, start + 6, Operate(Less))
    && Has(code, start + 7, JumpIfFalse(p2 + 14)) && Has(code, start + 10, Instr.Pop)
    && PlacedB(code, body, start + 11, inner, Fwd(p2 + 15), Fwd(p2))
    && Has(code, p2, GetLocal(n + 1)) && Has(code, p2 + 3, Const(VNum(1.0))) && Has(code, p2 + 6, Operate(Add))
    && Has(code, p2 + 7, SetLocal(n + 1)) && Has(code, p2 + 10, Instr.Pop) && Has(code, p2 + 11, Loop(start))
    && Has(code, p2 + 14, Instr.Pop) && Has(code, p2 + 15, Instr.Pop) && Has(code, p2 + 16, Instr.Pop)
  }

  function RepeatEnd(body: seq<Stmt>, start: nat, cx: Context): nat {
    start + 11 + SizeB(body, EnterLoop(RepeatCx(cx), [], []))
  }

  predicate Counting(c: Config, n: nat, count: Value, i: nat) {
    |c.stack| == n + 2 && c.stack[n] == count && c.stack[n + 1] == VNum(i as real)
  }

  lemma CountCode(code: Listing, body: seq<Stmt>, start: nat, cx: Context)
    requires RepeatCode(code, body, start, cx)
    ensures var n := |cx.locals|;
            && Has(code, start, GetLocal(n + 1)) && Has(code, start + 3, GetLocal(n)) && Has(code, start + 6, Operate(Less))
            && Has(code, start + 7, JumpIfFalse(RepeatEnd(body, start, cx) + 14)) && Has(code, start + 10, Instr.Pop)
            && Has(code, RepeatEnd(body, start, cx) + 14, Instr.Pop)
            && RepeatEnd(body, start, cx) == start + 11 + SizeB(body, EnterLoop(RepeatCx(cx), [], []))
  {}

  lemma CountUpCode(code: Listing, body: seq<Stmt>, start: nat, cx: Context)
    requires RepeatCode(code, body, start, cx)
    ensures var n := |cx.locals|;
            var p2 := RepeatEnd(body, start, cx);
            && Has(code, p2, GetLocal(n + 1)) && Has(code, p2 + 3, Const(VNum(1.0))) && Has(code, p2 + 6, Operate(Add))
            && Has(code, p2 + 7, SetLocal(n + 1)) && Has(code, p2 + 10, Instr.Pop) && Has(code, p2 + 11, Loop(start))
  {}

  /** The counting test: to the body while rounds are left, else past the loop. */
  lemma SimCount(m: Machine, body: seq<Stmt>, start: nat, cx: Context, c: Config, count: Value, i: nat)
    requires RepeatCode(m.code, body, start, cx) && At(c, start) && Counting(c, |cx.locals|, count, i)
    ensures Run(m, c, 5) == c.(pc := if i < Times(count) then start + 11 else RepeatEnd(body, start, cx) + 15)
  {
    hide Run, Step, RepeatCode, RepeatEnd, Times, LessThan, Truthy;
    CountCode(m.code, body, start, cx);
    var t := VBool(LessThan(VNum(i as real), count));
    TimesLeft(i, count);
    SimCountTest(m, body, start, cx, c, count, i);
    var c3 := Run(m, c, 3);
    DoJumpIfFalse(m, c3, RepeatEnd(body, start, cx) + 14, c.stack, t);
    var c4 := Run(m, c3, 1);
    Then(m, c, 3, c3, 1, c4);
    DoPop(m, c4, c.stack, t);
    Then(m, c, 4, c4, 1, Run(m, c4, 1));
  }

  /** The comparison of the counter with the count. */
  lemma SimCountTest(m: Machine, body: seq<Stmt>, start: nat, cx: Context, c: Config, count: Value, i: nat)
    requires RepeatCode(m.code, body, start, cx) && At(c, start) && Counting(c, |cx.locals|, count, i)
    ensures Run(m, c, 3) == c.(pc := start + 7, stack := c.stack + [VBool(LessThan(VNum(i as real), count))])
  {
    hide Run, Step, RepeatCode, RepeatEnd, Times, LessThan, Truthy;
    CountCode(m.code, body, start, cx);
    var n := |cx.locals|;
    var a := VNum(i as real);
    DoGetLocal(m, c, n + 1);
    var c1 := Run(m, c, 1);
    DoGetLocal(m, c1, n);
    var c2 := Run(m, c1, 1);
    Then(m, c, 1, c1, 1, c2);
    DoOperate(m, c2, Less, c.stack, a, count);
    Then(m, c, 2, c2, 1, Run(m, c2, 1));
  }

  /** The end of a round: count up and jump back. */
  lemma SimCountUp(m: Machine, body: seq<Stmt>, start: nat, cx: Context, c: Config, count: Value, i: nat)
    requires RepeatCode(m.code, body, start, cx) && At(c, RepeatEnd(body, start, cx)) && Counting(c, |cx.locals|, count, i)
    ensures Run(m, c, 6) == c.(pc := start, stack := c.stack[|cx.locals| + 1 := VNum((i + 1) as real)])
  {
    hide Run, Step, RepeatCode, RepeatEnd;
    CountUpCode(m.code, body, start, cx);
    var n := |cx.locals|;
    var a, b := VNum(i as real), VNum((i + 1) as real);
    DoGetLocal(m, c, n + 1);
    var c1 := Run(m, c, 1);
    DoPush(m, c1, Const(VNum(1.0)), VNum(1.0));
    var c2 := Run(m, c1, 1);
    Then(m, c, 1, c1, 1, c2);
    DoOperate(m, c2, Add, c.stack, a, VNum(1.0));
    var c3 := Run(m, c2, 1);
    assert c3.stack == c.stack + [b];
    Then(m, c, 2, c2, 1, c3);
    DoSetLocal(m, c3, n + 1, c.stack, b);
    var c4 := Run(m, c3, 1);
    Then(m, c, 3, c3, 1, c4);
    DoPop(m, c4, c.stack[n + 1 := b], b);
    var c5 := Run(m, c4, 1);
    Then(m, c, 4, c4, 1, c5);
    DoJump(m, c5, start);
    Then(m, c, 5, c5, 1, Run(m, c5, 1));
  }

  /** Past the loop: drop the count and the index. */
  lemma RepeatExit(m: Machine, body: seq<Stmt>, start: nat, cx: Context, stop: Target, skip: Target,
                   c: Config, j: nat, e: Config, st: State, fuel: nat)
    requires RepeatCode(m.code, body, start, cx) && Run(m, c, j) == e && |c.stack| == |cx.locals| + 2
    requires Starts(e, RepeatEnd(body, start, cx) + 15, RepeatCx(cx), st) && e.tries == c.tries
    requires forall i :: 0 <= i < |cx.locals| && Hidden(cx.locals[i]) ==> e.stack[i] == c.stack[i]
    ensures Simulates(m, c, j + 2, fuel, RepeatEnd(body, start, cx) + 17, cx, stop, skip, Some(Normal(st)))
  {
    hide Run, Step, PlacedB, SizeB, Keeps, Visible;
    var n := |cx.locals|;
    var s1, s2 := e.stack[..n + 1], e.stack[..n];
    assert e.stack == s1 + [e.stack[n + 1]] && s1 == s2 + [e.stack[n]];
    DoPop(m, e, s1, e.stack[n + 1]);
    var e1 := Run(m, e, 1);
    Then(m, c, j, e, 1, e1);
    DoPop(m, e1, s2, e.stack[n]);
    var f := Run(m, e1, 1);
    Then(m, c, j + 1, e1, 1, f);
    SeesKeeps(RepeatCx(cx).locals, e, st);
    NormalOuter(m, c, j + 2, e, f, fuel, f.pc, cx, ["", ""], stop, skip, st);
    RepeatInner(cx);
    assert Trim(st, Shown(cx.locals)) == st;
  }

  /** What a finished round of a repeat loop leaves for the next one. */
  lemma RepeatNext(c: Config, d: Config, e: Config, f: Config, p: nat, start: nat, cx: Context, st0: State, st: State, count: Value, i: nat, v: Value)
    requires Counting(c, |cx.locals|, count, i) && d == c.(pc := d.pc) && |c.tries| == cx.tries
    requires Starts(e, p, RepeatCx(cx), st) && e.tries == d.tries && Keeps(RepeatCx(cx).locals, d, e, st)
    requires f == e.(pc := start, stack := e.stack[|cx.locals| + 1 := v])
    ensures Counting(e, |cx.locals|, count, i)
    ensures Starts(f, start, RepeatCx(cx), st) && Keeps(cx.locals, c, f, st)
  {
    var n := |cx.locals|;
    var ls := RepeatCx(cx).locals;
    assert ls == cx.locals + [""] + [""];
    assert e.stack[..n + 2] == e.stack && f.stack[..n + 2] == f.stack;
    var s1, s2 := e.stack[..n + 1], e.stack[..n];
    assert e.stack == s1 + [e.stack[n + 1]] && s1 == s2 + [e.stack[n]];
    assert f.stack == s1 + [v] && f.stack[..n] == s2;
    hide Visible;
    VisibleAppend(cx.locals + [""], s1, "", e.stack[n + 1]);
    VisibleAppend(cx.locals + [""], s1, "", v);
    VisibleAppend(cx.locals, s2, "", e.stack[n]);
    assert Visible(ls, f.stack) == Visible(cx.locals, s2) == st.env;
    assert ls[n] == "" && ls[n + 1] == "";
    assert forall k :: 0 <= k < n ==> cx.locals[k] == ls[k];
  }

  lemma RepeatThrew(m: Machine, c: Config, j: nat, d: Config, kb: nat, fuel: nat, p2: nat, brk: nat, to: Target, end: nat, cx: Context,
                    stop: Target, skip: Target, st0: State, o: Outcome)
    requires Run(m, c, j) == d && d == c.(pc := d.pc) && o.Threw? && |c.stack| == |cx.locals| + 2
    requires !to.Pending? && RoundDone(Run(m, d, kb), d, p2, brk, to, RepeatCx(cx), o)
    ensures Simulates(m, c, j + kb, fuel, end, cx, stop, skip, Some(o))
  {
    hide Run, Step, Visible;
    var e := Run(m, d, kb);
    Then(m, c, j, d, kb, e);
    var n := |cx.locals|;
    KeepsBelow(RepeatCx(cx).locals, n, d, e, o.st);
    assert RepeatCx(cx).locals[..n] == cx.locals;
    RepeatInner(cx);
    assert Trim(o.st, Shown(cx.locals)) == o.st;
  }

  lemma TimesUnfold(n: nat, body: seq<Stmt>, st: State, fuel: nat, show: Show)
    ensures n == 0 ==> ExecTimes(n, body, st, fuel, show) == Some(Normal(st))
    ensures n > 0 && fuel == 0 ==> ExecTimes(n, body, st, fuel, show) == None
    ensures n > 0 && fuel > 0 ==>
            var o := ExecBlock(body, st, fuel, show);
            ExecTimes(n, body, st, fuel, show) ==
            if o.None? then None
            else if Continues(o.value) then ExecTimes(n - 1, body, o.value.st, fuel - 1, show)
            else Some(LoopResult(o.value))
  {}

  lemma {:induction false} SimTimes(m: Machine, body: seq<Stmt>, start: nat, cx: Context, stop: Target, skip: Target,
                                    c: Config, st: State, count: Value, i: nat, fuel: nat)
      returns (k: nat)
    requires RepeatCode(m.code, body, start, cx) && Starts(c, start, RepeatCx(cx), st)
    requires Counting(c, |cx.locals|, count, i) && i <= Times(count)
    ensures Simulates(m, c, k, fuel, RepeatEnd(body, start, cx) + 17, cx, stop, skip,
                      ExecTimes(Times(count) - i, body, st, fuel, m.show))
    decreases fuel, body, 5
  {
    hide Run, Step, RepeatCode, Keeps, Starts, RoundDone, Sees, ExecBlock, ExecTimes, Simulates, Times, RepeatEnd;
    TimesUnfold(Times(count) - i, body, st, fuel, m.show);
    StartsAt(c, start, RepeatCx(cx), st);
    StartsSees(c, start, RepeatCx(cx), st);
    SimCount(m, body, start, cx, c, count, i);
    var d := Run(m, c, 5);
    SeesMoved(RepeatCx(cx).locals, c, d, st);
    StartsMoved(c, d, start, d.pc, RepeatCx(cx), c, st);
    if i == Times(count) {
      k := 7;
      RepeatExit(m, body, start, cx, stop, skip, c, 5, d, st, fuel);
    } else if fuel == 0 {
      k := 0;
      RunZero(m, c);
      RunningAt(c, start, RepeatCx(cx), st);
      LoopTimeout(m, c, 0, c, 0, 0, RepeatEnd(body, start, cx) + 17, cx, stop, skip);
    } else {
      k := SimTimesGo(m, body, start, cx, stop, skip, c, d, st, count, i, fuel);
    }
  }

  lemma {:induction false} SimTimesGo(m: Machine, body: seq<Stmt>, start: nat, cx: Context, stop: Target, skip: Target,
                                      c: Config, d: Config, st: State, count: Value, i: nat, fuel: nat)
      returns (k: nat)
    requires RepeatCode(m.code, body, start, cx) && fuel > 0 && Run(m, c, 5) == d && d == c.(pc := start + 11)
    requires Counting(c, |cx.locals|, count, i) && i < Times(count) && Starts(d, start + 11, RepeatCx(cx), st)
    ensures Simulates(m, c, k, fuel, RepeatEnd(body, start, cx) + 17, cx, stop, skip,
                      ExecTimes(Times(count) - i, body, st, fuel, m.show))
    decreases fuel, body, 4
  {
    hide Run, Step, RepeatCode, Keeps, Starts, RoundDone, Sees, ExecBlock, ExecTimes, Simulates, Times, RepeatEnd;
    TimesUnfold(Times(count) - i, body, st, fuel, m.show);
    var p2 := RepeatEnd(body, start, cx);
    RepeatBody(m.code, body, start, cx);
    var kb := SimBody(m, body, start + 11, p2 + 15, Fwd(p2), RepeatCx(cx), d, st, fuel);
    var e := Run(m, d, kb);
    Then(m, c, 5, d, kb, e);
    var o := ExecBlock(body, st, fuel, m.show);
    if o.None? {
      k := 5 + kb;
      LoopTimeout(m, c, 5, d, kb, fuel, p2 + 17, cx, stop, skip);
    } else if Continues(o.value) {
      var st1 := o.value.st;
      RoundAt(e, d, p2, p2 + 15, RepeatCx(cx), o.value);
      StartsAt(e, p2, RepeatCx(cx), st1);
      StartsSees(e, p2, RepeatCx(cx), st1);
      StartsTries(d, start + 11, RepeatCx(cx), st);
      RepeatNext(c, d, e, e.(pc := start, stack := e.stack[|cx.locals| + 1 := VNum((i + 1) as real)]),
                 p2, start, cx, st, st1, count, i, VNum((i + 1) as real));
      SimCountUp(m, body, start, cx, e, count, i);
      var f := Run(m, e, 6);
      Then(m, c, 5 + kb, e, 6, f);
      var kr := SimTimes(m, body, start, cx, stop, skip, f, st1, count, i + 1, fuel - 1);
      k := 5 + kb + 6 + kr;
      After(m, c, 5 + kb + 6, f, st1, kr, fuel - 1, fuel, p2 + 17, cx, stop, skip,
            ExecTimes(Times(count) - i - 1, body, st1, fuel - 1, m.show));
    } else if o.value.Stopped? {
      k := 5 + kb + 2;
      RepeatStopped(c, d, e, p2, cx, o.value);
      RepeatExit(m, body, start, cx, stop, skip, c, 5 + kb, e, o.value.st, fuel);
    } else {
      k := 5 + kb;
      RepeatThrew(m, c, 5, d, kb, fuel, p2, p2 + 15, Fwd(p2), p2 + 17, cx, stop, skip, st, o.value);
    }
  }

  lemma RepeatBody(code: Listing, body: seq<Stmt>, start: nat, cx: Context)
    requires RepeatCode(code, body, start, cx)
    ensures var inner := EnterLoop(RepeatCx(cx), [], []);
            && PlacedB(code, body, start + 11, inner, Fwd(RepeatEnd(body, start, cx) + 15), Fwd(RepeatEnd(body, start, cx)))
            && start + 11 + SizeB(body, inner) == RepeatEnd(body, start, cx) && ValidContext(RepeatCx(cx))
  {}

  lemma RoundAt(e: Config, d: Config, p2: nat, end: nat, cx: Context, o: Outcome)
    requires RoundDone(e, d, p2, end, Fwd(p2), cx, o) && Continues(o)
    ensures Starts(e, p2, cx, o.st) && e.tries == d.tries && Keeps(cx.locals, d, e, o.st)
  {}

  lemma StartsTries(e: Config, p: nat, cx: Context, st: State)
    requires Starts(e, p, cx, st)
    ensures |e.tries| == cx.tries
  {}

  lemma RepeatStopped(c: Config, d: Config, e: Config, p2: nat, cx: Context, o: Outcome)
    requires RoundDone(e, d, p2, p2 + 15, Fwd(p2), RepeatCx(cx), o) && o.Stopped? && d.stack == c.stack && d.tries == c.tries
    ensures Starts(e, p2 + 15, RepeatCx(cx), o.st) && e.tries == c.tries
    ensures |cx.locals| <= |e.stack| && |cx.locals| <= |c.stack|
    ensures forall i :: 0 <= i < |cx.locals| && Hidden(cx.locals[i]) ==> e.stack[i] == c.stack[i]
  {
    hide Visible;
    var ls := RepeatCx(cx).locals;
    assert forall i :: 0 <= i < |cx.locals| ==> ls[i] == cx.locals[i];
  }

  // ---- for-in ----

  function ForInner(cx: Context, x: string): Context { EnterLoop(cx, ["_iter"], [x]) }

  /** A for-in loop from its iterator test at start on. */
  predicate ForCode(code: Listing, x: string, body: seq<Stmt>, start: nat, cx: Context) {
    var p2 := ForEnd(x, body, start, cx);
    && ValidContext(cx) && Has(code, start, ForIter(p2 + 4))
    && PlacedB(code, body, start + 3, ForInner(cx, x), Fwd(p2 + 4), Back(start))
    && Has(code, p2, Instr.Pop) && Has(code, p2 + 1, Loop(start)) && Has(code, p2 + 4, Instr.Pop)
  }

  function ForEnd(x: string, body: seq<Stmt>, start: nat, cx: Context): nat {
    start + 3 + SizeB(body, ForInner(cx, x))
  }

  /** The loop stands at its test, with the iterator at element i. */
  predicate Iterating(c: Config, cx: Context, st: State, over: Value, i: nat) {
    && |c.stack| == |cx.locals| + 1 && c.stack[|cx.locals|] == VIter(over, i)
    && |c.tries| == cx.tries && Sees(cx.locals, c, st) && c.status == Running && c.err == None
  }

  lemma IterSplit(c: Config, cx: Context, st: State, over: Value, i: nat)
    requires Iterating(c, cx, st, over, i)
    ensures |c.stack| == |cx.locals| + 1 && At(c, c.pc)
    ensures c.stack == c.stack[..|cx.locals|] + [VIter(over, i)]
  {}

  /** The body starts with the element bound to the loop variable. */
  lemma ForStarts(c: Config, d: Config, x: string, cx: Context, st: State, over: Value, i: nat, v: Value)
    requires Iterating(c, cx, st, over, i)
    requires d == c.(pc := d.pc, stack := c.stack[..|cx.locals|] + [VIter(over, i + 1), v])
    ensures Starts(d, d.pc, ForInner(cx, x), Bind(st, x, v))
    ensures forall i :: 0 <= i < |cx.locals| && Hidden(cx.locals[i]) ==> d.stack[i] == c.stack[i]
  {
    hide Visible;
    var n := |cx.locals|;
    var base := c.stack[..n];
    assert d.stack[..n + 2] == d.stack == base + [VIter(over, i + 1)] + [v];
    VisibleAppend(cx.locals, base, "_iter", VIter(over, i + 1));
    VisibleAppend(cx.locals + ["_iter"], base + [VIter(over, i + 1)], x, v);
    assert st.env + [] == st.env;
  }

  /** The body ended at p2, or was skipped to start: the loop is iterating again. */
  lemma ForRound(c: Config, d: Config, e: Config, x: string, p2: nat, start: nat, cx: Context, st: State, over: Value, i: nat, o: Outcome)
    requires ValidContext(cx) && Iterating(c, cx, st, over, i)
    requires |d.stack| == |cx.locals| + 2 && d.stack[|cx.locals|] == VIter(over, i + 1) && d.tries == c.tries
    requires forall i :: 0 <= i < |cx.locals| && Hidden(cx.locals[i]) ==> d.stack[i] == c.stack[i]
    requires Ends(e, d, p2, ForInner(cx, x), Fwd(p2 + 4), Back(start), o) && !o.Threw?
    ensures e.tries == c.tries && At(e, if o.Normal? then p2 else if o.Stopped? then p2 + 4 else start)
    ensures |e.stack| == |cx.locals| + (if o.Normal? then 2 else 1)
    ensures Iterating(e.(stack := e.stack[..|cx.locals| + 1]), cx, Trim(o.st, Shown(cx.locals)), over, i + 1)
    ensures Keeps(cx.locals, c, e, Trim(o.st, Shown(cx.locals))) && Shown(cx.locals) == |st.env|
  {
    hide Visible;
    var n := |cx.locals|;
    var inner := ForInner(cx, x);
    VisibleCount(cx.locals, c.stack[..n]);
    assert inner.locals[..n + 1][..n] == cx.locals && inner.locals[..n] == cx.locals;
    assert inner.locals[..n + 1] == cx.locals + ["_iter"];
    assert e.stack[..n + 1][..n] == e.stack[..n];
    if o.Normal? {
      KeepsBelow(inner.locals, n, d, e, o.st);
      assert inner.locals[n] == "_iter";
      assert d.tries == c.tries;
    } else {
      var mid := Trim(o.st, Shown(cx.locals + ["_iter"]));
      ShownSnoc(cx.locals, "_iter");
      KeepsBelow(cx.locals + ["_iter"], n, d, e, mid);
      assert (cx.locals + ["_iter"])[n] == "_iter" && (cx.locals + ["_iter"])[..n] == cx.locals;
      assert d.tries[..cx.tries] == c.tries;
      ShownMono(inner.locals, n + 1);
      TrimTrim(o.st, Shown(cx.locals), Shown(cx.locals));
      assert e.stack[..n + 1] == e.stack;
    }
  }

  lemma ItemsUnfold(x: string, items: seq<Value>, body: seq<Stmt>, st: State, fuel: nat, show: Show)
    ensures items == [] ==> ExecItems(x, items, body, st, fuel, show) == Some(Normal(st))
    ensures items != [] && fuel == 0 ==> ExecItems(x, items, body, st, fuel, show) == None
    ensures items != [] && fuel > 0 ==>
            var o := ExecBlock(body, Bind(st, x, items[0]), fuel, show);
            ExecItems(x, items, body, st, fuel, show) ==
            if o.None? then None
            else
              var t := Trim(o.value.st, |st.env|);
              if Continues(o.value) then ExecItems(x, items[1..], body, t, fuel - 1, show)
              else if o.value.Stopped? then Some(Normal(t)) else Some(Threw(o.value.err, t))
  {}

  /** Past the loop: drop the iterator. */
  lemma ForExit(m: Machine, x: string, body: seq<Stmt>, start: nat, cx: Context, stop: Target, skip: Target,
                c: Config, j: nat, e: Config, st: State, over: Value, i: nat, fuel: nat)
    requires ForCode(m.code, x, body, start, cx) && Run(m, c, j) == e && At(e, ForEnd(x, body, start, cx) + 4)
    requires Iterating(e, cx, st, over, i) && e.tries == c.tries && Keeps(cx.locals, c, e, st)
    ensures Simulates(m, c, j + 1, fuel, ForEnd(x, body, start, cx) + 5, cx, stop, skip, Some(Normal(st)))
  {
    hide Run, Step, PlacedB, Visible, ForEnd;
    var n := |cx.locals|;
    IterSplit(e, cx, st, over, i);
    DoPop(m, e, e.stack[..n], VIter(over, i));
    var f := Run(m, e, 1);
    Then(m, c, j, e, 1, f);
    assert f.stack[..n] == e.stack[..n];
  }

  lemma {:induction false} SimItems(m: Machine, x: string, body: seq<Stmt>, start: nat, cx: Context, stop: Target, skip: Target,
                                    c: Config, st: State, over: Value, i: nat, fuel: nat)
      returns (k: nat)
    requires ForCode(m.code, x, body, start, cx) && c.pc == start && Iterating(c, cx, st, over, i) && i <= |Items(over)|
    ensures Simulates(m, c, k, fuel, ForEnd(x, body, start, cx) + 5, cx, stop, skip,
                      ExecItems(x, Items(over)[i..], body, st, fuel, m.show))
    decreases fuel, body, 5
  {
    hide Run, Step, ForCode, Keeps, Starts, Sees, ExecBlock, ExecItems, Simulates, Items, ForEnd, Iterating;
    var items := Items(over);
    ItemsUnfold(x, items[i..], body, st, fuel, m.show);
    var n := |cx.locals|;
    IterSplit(c, cx, st, over, i);
    var base := c.stack[..n];
    ForTest(m.code, x, body, start, cx);
    DoForIter(m, c, ForEnd(x, body, start, cx) + 4, base, over, i);
    if i == |items| {
      k := 2;
      var e := Run(m, c, 1);
      IterMoved(c, e, cx, st, over, i);
      ForExit(m, x, body, start, cx, stop, skip, c, 1, e, st, over, i, fuel);
    } else if fuel == 0 {
      k := 0;
      RunZero(m, c);
      LoopTimeout(m, c, 0, c, 0, 0, ForEnd(x, body, start, cx) + 5, cx, stop, skip);
    } else {
      k := SimItemsGo(m, x, body, start, cx, stop, skip, c, st, over, i, fuel);
    }
  }

  lemma ForTest(code: Listing, x: string, body: seq<Stmt>, start: nat, cx: Context)
    requires ForCode(code, x, body, start, cx)
    ensures Has(code, start, ForIter(ForEnd(x, body, start, cx) + 4)) && ValidContext(cx)
    ensures Has(code, ForEnd(x, body, start, cx), Instr.Pop)
    ensures Has(code, ForEnd(x, body, start, cx) + 1, Loop(start))
    ensures PlacedB(code, body, start + 3, ForInner(cx, x), Fwd(ForEnd(x, body, start, cx) + 4), Back(start))
    ensures ForEnd(x, body, start, cx) == start + 3 + SizeB(body, ForInner(cx, x))
  {}

  lemma IterMoved(c: Config, d: Config, cx: Context, st: State, over: Value, i: nat)
    requires Iterating(c, cx, st, over, i) && d == c.(pc := d.pc)
    ensures Iterating(d, cx, st, over, i) && Keeps(cx.locals, c, d, st)
  {}

  lemma {:induction false} SimItemsGo(m: Machine, x: string, body: seq<Stmt>, start: nat, cx: Context, stop: Target, skip: Target,
                                      c: Config, st: State, over: Value, i: nat, fuel: nat)
      returns (k: nat)
    requires ForCode(m.code, x, body, start, cx) && fuel > 0 && c.pc == start && Iterating(c, cx, st, over, i)
    requires i < |Items(over)|
    requires Run(m, c, 1) == c.(pc := start + 3, stack := c.stack[..|cx.locals|] + [VIter(over, i + 1), Items(over)[i]])
    ensures Simulates(m, c, k, fuel, ForEnd(x, body, start, cx) + 5, cx, stop, skip,
                      ExecItems(x, Items(over)[i..], body, st, fuel, m.show))
    decreases fuel, body, 4
  {
    hide Run, Step, ForCode, Keeps, Starts, Sees, ExecBlock, ExecItems, Ends, Simulates, Items, ForEnd, Iterating, PlacedB, SizeB,
         ForInner, Bind, Trim;
    var items := Items(over);
    ItemsUnfold(x, items[i..], body, st, fuel, m.show);
    assert items[i..][1..] == items[i + 1..];
    IterSplit(c, cx, st, over, i);
    ForTest(m.code, x, body, start, cx);
    ForValid(cx, x);
    var p2, end := ForEnd(x, body, start, cx), ForEnd(x, body, start, cx) + 5;
    var d := Run(m, c, 1);
    ForStarts(c, d, x, cx, st, over, i, items[i]);
    var st0 := Bind(st, x, items[i]);
    var kb := SimB(m, body, start + 3, ForInner(cx, x), Fwd(p2 + 4), Back(start), d, st0, fuel);
    var e := Run(m, d, kb);
    Then(m, c, 1, d, kb, e);
    var o := ExecBlock(body, st0, fuel, m.show);
    SimulatesEnds(m, d, kb, fuel, p2, ForInner(cx, x), Fwd(p2 + 4), Back(start), o);
    if o.None? {
      k := 1 + kb;
      LoopTimeout(m, c, 1, d, kb, fuel, end, cx, stop, skip);
    } else if o.value.Threw? {
      k := 1 + kb;
      ForThrew(m, c, d, x, kb, fuel, p2, start, end, cx, st, over, i, stop, skip, o.value);
    } else {
      ForRound(c, d, e, x, p2, start, cx, st, over, i, o.value);
      var st1 := Trim(o.value.st, |st.env|);
      var f0 := e.(stack := e.stack[..|cx.locals| + 1]);
      if o.value.Stopped? {
        k := 1 + kb + 1;
        assert f0 == e;
        ForExit(m, x, body, start, cx, stop, skip, c, 1 + kb, e, st1, over, i + 1, fuel);
      } else {
        var j, f := 0, e;
        if o.value.Normal? {
          j, f := ForPop(m, e, start, p2, cx, st1, over, i + 1);
        } else {
          RunZero(m, e);
          assert f0 == e;
        }
        KeepsAbove(cx.locals, c, e, f, st1);
        IterAt(f0, f, cx, st1, over, i + 1);
        Then(m, c, 1 + kb, e, j, f);
        var kr := SimItems(m, x, body, start, cx, stop, skip, f, st1, over, i + 1, fuel - 1);
        k := 1 + kb + j + kr;
        After(m, c, 1 + kb + j, f, st1, kr, fuel - 1, fuel, end, cx, stop, skip,
              ExecItems(x, items[i + 1..], body, st1, fuel - 1, m.show));
      }
    }
  }

  lemma ForValid(cx: Context, x: string)
    ensures ValidContext(ForInner(cx, x)) && ForInner(cx, x).inLoop
  {}

  lemma SimulatesEnds(m: Machine, c: Config, k: nat, fuel: nat, end: nat, cx: Context, stop: Target, skip: Target, o: Option<Outcome>)
    requires Simulates(m, c, k, fuel, end, cx, stop, skip, o)
    ensures o.None? ==> k >= fuel && Run(m, c, k).status == Running
    ensures o.Some? ==> Ends(Run(m, c, k), c, end, cx, stop, skip, o.value) && (o.value.Skipped? ==> k > 0)
  {}

  /** From the end of the body: drop the loop variable and jump back. */
  lemma ForPop(m: Machine, e: Config, start: nat, p2: nat, cx: Context, st: State, over: Value, i: nat) returns (j: nat, f: Config)
    requires At(e, p2) && Has(m.code, p2, Instr.Pop) && Has(m.code, p2 + 1, Loop(start)) && |e.stack| == |cx.locals| + 2
    ensures j == 2 && f == Run(m, e, 2) == e.(pc := start, stack := e.stack[..|cx.locals| + 1])
  {
    hide Run, Step;
    var n := |cx.locals|;
    assert e.stack == e.stack[..n + 1] + [e.stack[n + 1]];
    DoPop(m, e, e.stack[..n + 1], e.stack[n + 1]);
    var f1 := Run(m, e, 1);
    DoJump(m, f1, start);
    j, f := 2, Run(m, f1, 1);
    Then(m, e, 1, f1, 1, f);
  }

  lemma KeepsAbove(locals: seq<string>, c: Config, e: Config, f: Config, st: State)
    requires Keeps(locals, c, e, st) && |locals| <= |f.stack| && f.stack <= e.stack && f.globals == e.globals && f.out == e.out
    ensures Keeps(locals, c, f, st)
  {
    assert f.stack[..|locals|] == e.stack[..|locals|];
  }

  lemma IterAt(f0: Config, f: Config, cx: Context, st: State, over: Value, i: nat)
    requires Iterating(f0, cx, st, over, i) && f == f0.(pc := f.pc)
    ensures Iterating(f, cx, st, over, i)
  {}

  lemma ForThrew(m: Machine, c: Config, d: Config, x: string, kb: nat, fuel: nat, p2: nat, start: nat, end: nat, cx: Context,
                 st: State, over: Value, i: nat, stop: Target, skip: Target, o: Outcome)
    requires Iterating(c, cx, st, over, i) && Run(m, c, 1) == d && d.tries == c.tries && |d.stack| == |cx.locals| + 2
    requires forall i :: 0 <= i < |cx.locals| && Hidden(cx.locals[i]) ==> d.stack[i] == c.stack[i]
    requires Ends(Run(m, d, kb), d, p2, ForInner(cx, x), Fwd(p2 + 4), Back(start), o) && o.Threw?
    ensures Simulates(m, c, 1 + kb, fuel, end, cx, stop, skip, Some(Threw(o.err, Trim(o.st, |st.env|))))
  {
    hide Run, Step, Visible;
    var n := |cx.locals|;
    var e := Run(m, d, kb);
    Then(m, c, 1, d, kb, e);
    var inner := ForInner(cx, x);
    VisibleCount(cx.locals, c.stack[..n]);
    KeepsBelow(inner.locals, n, d, e, o.st);
    assert inner.locals[..n] == cx.locals;
  }

  // ---- Branches ----

  /** When the code at mid jumps on, a normal end at mid is a normal end at the target. */
  lemma ThenJump(m: Machine, c: Config, k: nat, fuel: nat, mid: nat, end: nat, cx: Context, stop: Target, skip: Target, o: Option<Outcome>)
      returns (k2: nat)
    requires Simulates(m, c, k, fuel, mid, cx, stop, skip, o) && Has(m.code, mid, Jump(end))
    ensures Simulates(m, c, k2, fuel, end, cx, stop, skip, o)
  {
    hide Run, Keeps, Left;
    k2 := k;
    if o.Some? && o.value.Normal? {
      var d := Run(m, c, k);
      DoJump(m, d, end);
      Then(m, c, k, d, 1, Run(m, d, 1));
      KeepsMoved(cx.locals, c, d, Run(m, d, 1), o.value.st);
      k2 := k + 1;
    }
  }

  lemma IfShape(code: Listing, cond: Expr, thn: seq<Stmt>, els: seq<Stmt>, p: nat, cx: Context, stop: Target, skip: Target)
    requires PlacedS(code, If(cond, thn, els), p, cx, stop, skip)
    ensures var p1 := p + SizeE(cond);
            var p2 := p1 + 4 + SizeB(thn, cx);
            var end := p + SizeS(If(cond, thn, els), cx);
            && Placed(code, cond, p, cx.locals) && Has(code, p1, JumpIfFalse(p2 + 3)) && Has(code, p1 + 3, Instr.Pop)
            && PlacedB(code, thn, p1 + 4, cx, stop, skip) && Has(code, p2, Jump(end)) && Has(code, p2 + 3, Instr.Pop)
            && PlacedB(code, els, p2 + 4, cx, stop, skip) && p2 + 4 + SizeB(els, cx) == end
  {
    hide Has, LayoutE, LayoutB, SizeE, SizeB, CleanE, CleanB, LayoutStores, LayoutLeave, Leaves, SizeStores;
  }

  lemma IfEval(cond: Expr, thn: seq<Stmt>, els: seq<Stmt>, st: State, fuel: nat, show: Show)
    ensures Exec(If(cond, thn, els), st, fuel, show) ==
            var r := Eval(cond, st, show);
            if r.Err? then Some(Threw(r.e, st))
            else if Truthy(r.v) then ExecBlock(thn, st, fuel, show) else ExecBlock(els, st, fuel, show)
  {}

  lemma {:induction false} SimIf(m: Machine, cond: Expr, thn: seq<Stmt>, els: seq<Stmt>, p: nat, cx: Context, stop: Target, skip: Target,
                                 c: Config, st: State, fuel: nat)
      returns (k: nat)
    requires PlacedS(m.code, If(cond, thn, els), p, cx, stop, skip) && Starts(c, p, cx, st)
    ensures Simulates(m, c, k, fuel, p + SizeS(If(cond, thn, els), cx), cx, stop, skip,
                      Exec(If(cond, thn, els), st, fuel, m.show))
    decreases fuel, If(cond, thn, els), 0
  {
    hide Run, Step, PlacedS, PlacedB, Placed, SizeE, SizeS, SizeB, Eval, Exec, ExecBlock, Starts, Sees, Keeps, Simulates, Truthy;
    IfShape(m.code, cond, thn, els, p, cx, stop, skip);
    IfEval(cond, thn, els, st, fuel, m.show);
    var p1 := p + SizeE(cond);
    var p2 := p1 + 4 + SizeB(thn, cx);
    var end := p + SizeS(If(cond, thn, els), cx);
    StartsAt(c, p, cx, st);
    StartsSees(c, p, cx, st);
    var j := SimTest(m, cond, p, cx.locals, c, st, p2 + 3);
    var r := Eval(cond, st, m.show);
    if r.Err? {
      k := j;
      RaisedEnds(m, c, k, fuel, p, r.e, st, end, cx, stop, skip);
    } else {
      var d := Run(m, c, j);
      SeesMoved(cx.locals, c, d, st);
      StartsMoved(c, d, p, d.pc, cx, c, st);
      if Truthy(r.v) {
        var kb := SimB(m, thn, d.pc, cx, stop, skip, d, st, fuel);
        AfterMove(m, c, j, d, st, kb, fuel, p2, cx, stop, skip, ExecBlock(thn, st, fuel, m.show));
        k := ThenJump(m, c, j + kb, fuel, p2, end, cx, stop, skip, ExecBlock(thn, st, fuel, m.show));
      } else {
        var kb := SimB(m, els, d.pc, cx, stop, skip, d, st, fuel);
        AfterMove(m, c, j, d, st, kb, fuel, end, cx, stop, skip, ExecBlock(els, st, fuel, m.show));
        k := j + kb;
      }
    }
  }

  lemma UnlessShape(code: Listing, cond: Expr, body: seq<Stmt>, p: nat, cx: Context, stop: Target, skip: Target)
    requires PlacedS(code, Unless(cond, body), p, cx, stop, skip)
    ensures var p1 := p + SizeE(cond);
            var end := p + SizeS(Unless(cond, body), cx);
            && Placed(code, cond, p, cx.locals) && Has(code, p1, JumpIfFalse(p1 + 7)) && Has(code, p1 + 3, Instr.Pop)
            && Has(code, p1 + 4, Jump(end)) && Has(code, p1 + 7, Instr.Pop)
            && PlacedB(code, body, p1 + 8, cx, stop, skip) && p1 + 8 + SizeB(body, cx) == end
  {
    hide Has, LayoutE, LayoutB, SizeE, SizeB, CleanE, CleanB, LayoutStores, LayoutLeave, Leaves, SizeStores;
  }

  lemma UnlessEval(cond: Expr, body: seq<Stmt>, st: State, fuel: nat, show: Show)
    ensures Exec(Unless(cond, body), st, fuel, show) ==
            var r := Eval(cond, st, show);
            if r.Err? then Some(Threw(r.e, st))
            else if Truthy(r.v) then Some(Normal(st)) else ExecBlock(body, st, fuel, show)
  {}

  lemma {:induction false} SimUnless(m: Machine, cond: Expr, body: seq<Stmt>, p: nat, cx: Context, stop: Target, skip: Target,
                                     c: Config, st: State, fuel: nat)
      returns (k: nat)
    requires PlacedS(m.code, Unless(cond, body), p, cx, stop, skip) && Starts(c, p, cx, st)
    ensures Simulates(m, c, k, fuel, p + SizeS(Unless(cond, body), cx), cx, stop, skip,
                      Exec(Unless(cond, body), st, fuel, m.show))
    decreases fuel, Unless(cond, body), 0
  {
    hide Run, Step, PlacedS, PlacedB, Placed, SizeE, SizeS, SizeB, Eval, Exec, ExecBlock, Starts, Sees, Keeps, Simulates, Truthy;
    UnlessShape(m.code, cond, body, p, cx, stop, skip);
    UnlessEval(cond, body, st, fuel, m.show);
    var p1 := p + SizeE(cond);
    var end := p + SizeS(Unless(cond, body), cx);
    StartsAt(c, p, cx, st);
    StartsSees(c, p, cx, st);
    var j := SimTest(m, cond, p, cx.locals, c, st, p1 + 7);
    var r := Eval(cond, st, m.show);
    if r.Err? {
      k := j;
      RaisedEnds(m, c, k, fuel, p, r.e, st, end, cx, stop, skip);
    } else {
      var d := Run(m, c, j);
      SeesMoved(cx.locals, c, d, st);
      StartsMoved(c, d, p, d.pc, cx, c, st);
      if Truthy(r.v) {
        MovedEnds(m, c, j, fuel, p, p1 + 4, cx, stop, skip, st);
        k := ThenJump(m, c, j, fuel, p1 + 4, end, cx, stop, skip, Some(Normal(st)));
      } else {
        var kb := SimB(m, body, d.pc, cx, stop, skip, d, st, fuel);
        AfterMove(m, c, j, d, st, kb, fuel, end, cx, stop, skip, ExecBlock(body, st, fuel, m.show));
        k := j + kb;
      }
    }
  }

  // ---- The loop statements ----

  lemma LoopShapes(code: Listing, s: Stmt, p: nat, cx: Context, stop: Target, skip: Target)
    requires PlacedS(code, s, p, cx, stop, skip)
    ensures var end := p + SizeS(s, cx);
            match s
            case While(c, body) =>
              TestAt(code, c, true, p, p + SizeE(c) + 4, end, cx.locals) && LoopBody(code, body, p, p + SizeE(c) + 4, end, cx)
            case Until(c, body) =>
              TestAt(code, c, false, p, p + SizeE(c) + 8, end, cx.locals) && LoopBody(code, body, p, p + SizeE(c) + 8, end, cx)
            case Forever(body) => LoopBody(code, body, p, p, end, cx)
            case _ => true
  {
    hide Has, LayoutE, LayoutB, SizeE, SizeB, CleanE, CleanB, LayoutStores, LayoutLeave, Leaves, SizeStores;
  }

  lemma RepeatShape(code: Listing, count: Expr, body: seq<Stmt>, p: nat, cx: Context, stop: Target, skip: Target)
    requires PlacedS(code, Repeat(count, body), p, cx, stop, skip)
    ensures var p1 := p + SizeE(count);
            && Placed(code, count, p, cx.locals) && Has(code, p1, Const(VNum(0.0)))
            && RepeatCode(code, body, p1 + 3, cx)
            && RepeatEnd(body, p1 + 3, cx) + 17 == p + SizeS(Repeat(count, body), cx)
  {
    RepeatInner(cx);
    hide EnterLoop, RepeatCx, Has, LayoutE, LayoutB, SizeE, SizeB, CleanE, CleanB, LayoutS;
    RepeatLaid(code, count, body, p, cx, stop, skip);
    LoopContext(cx);
  }

  lemma RepeatLaid(code: Listing, count: Expr, body: seq<Stmt>, p: nat, cx: Context, stop: Target, skip: Target)
    requires LayoutS(code, Repeat(count, body), p, cx, stop, skip)
    ensures var n := |cx.locals|;
            var p1 := p + SizeE(count);
            var inner := EnterLoop(cx, ["", ""], []);
            var p2 := p1 + 14 + SizeB(body, inner);
            && LayoutE(code, count, p, cx.locals) && Has(code, p1, Const(VNum(0.0)))
            && Has(code, p1 + 3, GetLocal(n + 1)) && Has(code, p1 + 6, GetLocal(n)) && Has(code, p1 + 9, Operate(Less))
            && Has(code, p1 + 10, JumpIfFalse(p2 + 14)) && Has(code, p1 + 13, Instr.Pop)
            && LayoutB(code, body, p1 + 14, inner, Fwd(p2 + 15), Fwd(p2))
            && Has(code, p2, GetLocal(n + 1)) && Has(code, p2 + 3, Const(VNum(1.0))) && Has(code, p2 + 6, Operate(Add))
            && Has(code, p2 + 7, SetLocal(n + 1)) && Has(code, p2 + 10, Instr.Pop) && Has(code, p2 + 11, Loop(p1 + 3))
            && Has(code, p2 + 14, Instr.Pop) && Has(code, p2 + 15, Instr.Pop) && Has(code, p2 + 16, Instr.Pop)
  {
    hide EnterLoop, Has, LayoutE, LayoutB, SizeE, SizeB;
  }

  lemma LoopContext(cx: Context)
    ensures ValidContext(EnterLoop(RepeatCx(cx), [], [])) && EnterLoop(RepeatCx(cx), [], []).inLoop
  {}

  lemma RepeatEval(count: Expr, body: seq<Stmt>, st: State, fuel: nat, show: Show)
    ensures Exec(Repeat(count, body), st, fuel, show) ==
            var r := Eval(count, st, show);
            if r.Err? then Some(Threw(r.e, st)) else ExecTimes(Times(r.v), body, st, fuel, show)
  {}

  lemma RepeatStarts(c: Config, d: Config, p: nat, cx: Context, st: State, v: Value)
    requires Starts(c, p, cx, st) && d == c.(pc := d.pc, stack := c.stack + [v] + [VNum(0.0)])
    ensures Starts(d, d.pc, RepeatCx(cx), st) && Counting(d, |cx.locals|, v, 0) && Keeps(cx.locals, c, d, st)
    ensures |cx.locals| == |c.stack|
  {
    hide Visible;
    var n := |cx.locals|;
    var ls := RepeatCx(cx).locals;
    assert ls == cx.locals + [""] + [""];
    assert c.stack[..n] == c.stack && d.stack[..n + 2] == d.stack && d.stack[..n] == c.stack;
    VisibleAppend(cx.locals, c.stack, "", v);
    VisibleAppend(cx.locals + [""], c.stack + [v], "", VNum(0.0));
  }

  /** A part that starts with values on top of the locals. */
  lemma AfterSetup(m: Machine, c: Config, j: nat, d: Config, st1: State, k: nat, fuel: nat,
                   end: nat, cx: Context, stop: Target, skip: Target, o: Option<Outcome>)
    requires Run(m, c, j) == d && Keeps(cx.locals, c, d, st1) && d.tries == c.tries
    requires Simulates(m, d, k, fuel, end, cx, stop, skip, o)
    ensures Simulates(m, c, j + k, fuel, end, cx, stop, skip, o)
  {
    hide Run, Keeps, Simulates;
    After(m, c, j, d, st1, k, fuel, fuel, end, cx, stop, skip, o);
  }

  lemma {:induction false} SimRepeat(m: Machine, count: Expr, body: seq<Stmt>, p: nat, cx: Context, stop: Target, skip: Target,
                                     c: Config, st: State, fuel: nat)
      returns (k: nat)
    requires PlacedS(m.code, Repeat(count, body), p, cx, stop, skip) && Starts(c, p, cx, st)
    ensures Simulates(m, c, k, fuel, p + SizeS(Repeat(count, body), cx), cx, stop, skip,
                      Exec(Repeat(count, body), st, fuel, m.show))
    decreases fuel, Repeat(count, body), 0
  {
    hide Run, Step, PlacedS, Placed, SizeE, SizeS, Eval, Exec, ExecTimes, Starts, Sees, Keeps, Simulates, RepeatCode, RepeatEnd, Times;
    RepeatShape(m.code, count, body, p, cx, stop, skip);
    RepeatEval(count, body, st, fuel, m.show);
    var p1 := p + SizeE(count);
    var end := p + SizeS(Repeat(count, body), cx);
    StartsAt(c, p, cx, st);
    StartsSees(c, p, cx, st);
    var j := SimE(m, count, p, cx.locals, c, st);
    var r := Eval(count, st, m.show);
    if r.Err? {
      k := j;
      RaisedEnds(m, c, k, fuel, p, r.e, st, end, cx, stop, skip);
    } else {
      var d := Run(m, c, j);
      DoPush(m, d, Const(VNum(0.0)), VNum(0.0));
      var f := Run(m, d, 1);
      Then(m, c, j, d, 1, f);
      RepeatStarts(c, f, p, cx, st, r.v);
      var kr := SimTimes(m, body, p1 + 3, cx, stop, skip, f, st, r.v, 0, fuel);
      AfterSetup(m, c, j + 1, f, st, kr, fuel, end, cx, stop, skip, ExecTimes(Times(r.v), body, st, fuel, m.show));
      k := j + 1 + kr;
    }
  }

  lemma ForShape(code: Listing, x: string, over: Expr, body: seq<Stmt>, p: nat, cx: Context, stop: Target, skip: Target)
    requires PlacedS(code, ForIn(x, over, body), p, cx, stop, skip)
    ensures var p1 := p + SizeE(over);
            && Placed(code, over, p, cx.locals) && Has(code, p1, GetIter) && ForCode(code, x, body, p1 + 1, cx)
            && ForEnd(x, body, p1 + 1, cx) + 5 == p + SizeS(ForIn(x, over, body), cx)
  {
    hide EnterLoop, Has, LayoutE, LayoutB, SizeE, SizeB, CleanE, CleanB;
    var p1 := p + SizeE(over);
    var p2 := p1 + 4 + SizeB(body, ForInner(cx, x));
    assert p2 == ForEnd(x, body, p1 + 1, cx);
    ForValid(cx, x);
    assert PlacedB(code, body, p1 + 4, ForInner(cx, x), Fwd(p2 + 4), Back(p1 + 1));
  }

  lemma ForEval(x: string, over: Expr, body: seq<Stmt>, st: State, fuel: nat, show: Show)
    ensures Exec(ForIn(x, over, body), st, fuel, show) ==
            var r := Eval(over, st, show);
            if r.Err? then Some(Threw(r.e, st)) else ExecItems(x, Items(r.v), body, st, fuel, show)
  {}

  lemma IterStarts(c: Config, d: Config, p: nat, cx: Context, st: State, v: Value)
    requires Starts(c, p, cx, st) && d == c.(pc := d.pc, stack := c.stack + [VIter(v, 0)])
    ensures Iterating(d, cx, st, v, 0) && Keeps(cx.locals, c, d, st)
  {
    assert d.stack[..|cx.locals|] == c.stack[..|cx.locals|];
  }

  lemma {:induction false} SimForIn(m: Machine, x: string, over: Expr, body: seq<Stmt>, p: nat, cx: Context, stop: Target, skip: Target,
                                    c: Config, st: State, fuel: nat)
      returns (k: nat)
    requires PlacedS(m.code, ForIn(x, over, body), p, cx, stop, skip) && Starts(c, p, cx, st)
    ensures Simulates(m, c, k, fuel, p + SizeS(ForIn(x, over, body), cx), cx, stop, skip,
                      Exec(ForIn(x, over, body), st, fuel, m.show))
    decreases fuel, ForIn(x, over, body), 0
  {
    hide Run, Step, PlacedS, Placed, SizeE, SizeS, Eval, Exec, ExecItems, Starts, Sees, Keeps, Simulates, ForCode, ForEnd, Items, Iterating;
    ForShape(m.code, x, over, body, p, cx, stop, skip);
    ForEval(x, over, body, st, fuel, m.show);
    var p1 := p + SizeE(over);
    var end := p + SizeS(ForIn(x, over, body), cx);
    StartsAt(c, p, cx, st);
    StartsSees(c, p, cx, st);
    var j := SimE(m, over, p, cx.locals, c, st);
    var r := Eval(over, st, m.show);
    if r.Err? {
      k := j;
      RaisedEnds(m, c, k, fuel, p, r.e, st, end, cx, stop, skip);
    } else {
      var d := Run(m, c, j);
      DoGetIter(m, d, c.stack, r.v);
      var f := Run(m, d, 1);
      Then(m, c, j, d, 1, f);
      IterStarts(c, f, p, cx, st, r.v);
      assert Items(r.v)[0..] == Items(r.v);
      var kr := SimItems(m, x, body, p1 + 1, cx, stop, skip, f, st, r.v, 0, fuel);
      AfterSetup(m, c, j + 1, f, st, kr, fuel, end, cx, stop, skip, ExecItems(x, Items(r.v), body, st, fuel, m.show));
      k := j + 1 + kr;
    }
  }

  // ---- try ----

  lemma TryShape(code: Listing, body: seq<Stmt>, x: string, handler: seq<Stmt>, p: nat, cx: Context, stop: Target, skip: Target)
    requires PlacedS(code, Try(body, x, handler), p, cx, stop, skip)
    ensures var p1 := p + 3 + SizeB(body, EnterTry(cx));
            var inner := AddLocals(cx, [x]);
            var end := p + SizeS(Try(body, x, handler), cx);
            && ValidContext(cx)
            && Has(code, p, BeginTry(p1 + 4)) && PlacedB(code, body, p + 3, EnterTry(cx), stop, skip)
            && Has(code, p1, Instr.EndTry) && Has(code, p1 + 1, Jump(end))
            && PlacedB(code, handler, p1 + 4, inner, stop, skip)
            && Has(code, end - 1, Instr.Pop) && p1 + 4 + SizeB(handler, inner) == end - 1
  {
    hide Has, LayoutE, LayoutB, SizeE, SizeB, CleanE, CleanB, LayoutStores, LayoutLeave, Leaves, SizeStores;
  }

  lemma TryEval(body: seq<Stmt>, x: string, handler: seq<Stmt>, st: State, fuel: nat, show: Show)
    ensures var o := ExecBlock(body, st, fuel, show);
            Exec(Try(body, x, handler), st, fuel, show) ==
            if o.Some? && o.value.Threw?
            then TrimOutcome(ExecBlock(handler, Bind(o.value.st, x, o.value.err), fuel, show), |o.value.st.env|)
            else o
  {}

  lemma TryStarts(c: Config, d: Config, p: nat, cx: Context, st: State, t: TryFrame)
    requires Starts(c, p, cx, st) && d == c.(pc := d.pc, tries := c.tries + [t])
    ensures Starts(d, d.pc, EnterTry(cx), st) && |d.stack| == |cx.locals| && Keeps(cx.locals, c, d, st)
  {}

  /** The body of a try ended without an error. */
  lemma TryBody(m: Machine, c: Config, d: Config, kb: nat, fuel: nat, p: nat, p1: nat, end: nat, cx: Context, stop: Target, skip: Target,
                st: State, t: TryFrame, o: Outcome)
      returns (k: nat)
    requires ValidContext(cx) && Starts(c, p, cx, st) && Run(m, c, 1) == d && d == c.(pc := d.pc, tries := c.tries + [t])
    requires Ends(Run(m, d, kb), d, p1, EnterTry(cx), stop, skip, o) && !o.Threw?
    requires Has(m.code, p1, Instr.EndTry) && Has(m.code, p1 + 1, Jump(end))
    ensures Simulates(m, c, k, fuel, end, cx, stop, skip, Some(o))
  {
    hide Run, Step, Visible;
    var e := Run(m, d, kb);
    Then(m, c, 1, d, kb, e);
    if o.Normal? {
      DoEndTry(m, e, c.tries, t);
      var f := Run(m, e, 1);
      Then(m, c, 1 + kb, e, 1, f);
      DoJump(m, f, end);
      Then(m, c, 1 + kb + 1, f, 1, Run(m, f, 1));
      k := kb + 3;
    } else {
      k := 1 + kb;
      assert d.tries[..cx.loopTries] == c.tries[..cx.loopTries];
    }
  }

  /** The body raised an error: unwinding enters the handler with the error bound. */
  lemma TryCaught(m: Machine, c: Config, d: Config, kb: nat, p: nat, p1: nat, cx: Context, stop: Target, skip: Target,
                  st: State, x: string, t: TryFrame, o: Outcome)
      returns (f: Config)
    requires Starts(c, p, cx, st) && Run(m, c, 1) == d && d == c.(pc := d.pc, tries := c.tries + [t])
    requires t.height == |c.stack| && Ends(Run(m, d, kb), d, p1, EnterTry(cx), stop, skip, o) && o.Threw?
    ensures Run(m, c, kb + 2) == f && Starts(f, t.catch, AddLocals(cx, [x]), Bind(o.st, x, o.err))
    ensures f.tries == c.tries && |c.stack| == |cx.locals| && |f.stack| == |cx.locals| + 1
    ensures forall i :: 0 <= i < |cx.locals| && Hidden(cx.locals[i]) ==> f.stack[i] == c.stack[i]
    ensures |o.st.env| == Shown(cx.locals)
  {
    hide Run, Step, Visible;
    var e := Run(m, d, kb);
    Then(m, c, 1, d, kb, e);
    DoUnwind(m, e, c.tries, t, o.err);
    f := Run(m, e, 1);
    Then(m, c, 1 + kb, e, 1, f);
    var n := |cx.locals|;
    var base := e.stack[..n];
    assert f.stack == base + [o.err] && f.stack[..n + 1] == f.stack;
    VisibleAppend(cx.locals, base, x, o.err);
    VisibleCount(cx.locals, base);
    assert o.st.env + [] == o.st.env;
  }

  lemma HandlerNormal(m: Machine, c: Config, j: nat, f: Config, kh: nat, fuel: nat, end: nat, cx: Context, x: string,
                      stop: Target, skip: Target, o: Outcome)
    requires Run(m, c, j) == f && f.tries == c.tries && |c.stack| == |cx.locals| && |f.stack| == |cx.locals| + 1
    requires forall i :: 0 <= i < |cx.locals| && Hidden(cx.locals[i]) ==> f.stack[i] == c.stack[i]
    requires end > 0 && Has(m.code, end - 1, Instr.Pop)
    requires Ends(Run(m, f, kh), f, end - 1, AddLocals(cx, [x]), stop, skip, o) && o.Normal?
    ensures Simulates(m, c, j + kh + 1, fuel, end, cx, stop, skip, TrimOutcome(Some(o), Shown(cx.locals)))
  {
    hide Run, Step, Visible;
    var g := Run(m, f, kh);
    Then(m, c, j, f, kh, g);
    var n := |cx.locals|;
    var base := g.stack[..n];
    assert g.stack == base + [g.stack[n]];
    DoPop(m, g, base, g.stack[n]);
    var h := Run(m, g, 1);
    Then(m, c, j + kh, g, 1, h);
    assert forall i :: 0 <= i < n ==> (cx.locals + [x])[i] == cx.locals[i];
    NormalOuter(m, c, j + kh + 1, g, h, fuel, end, cx, [x], stop, skip, o.st);
  }

  lemma {:induction false} SimTry(m: Machine, body: seq<Stmt>, x: string, handler: seq<Stmt>, p: nat, cx: Context, stop: Target, skip: Target,
                                  c: Config, st: State, fuel: nat)
      returns (k: nat)
    requires PlacedS(m.code, Try(body, x, handler), p, cx, stop, skip) && Starts(c, p, cx, st)
    ensures Simulates(m, c, k, fuel, p + SizeS(Try(body, x, handler), cx), cx, stop, skip,
                      Exec(Try(body, x, handler), st, fuel, m.show))
    decreases fuel, Try(body, x, handler), 0
  {
    hide Run, Step, PlacedS, PlacedB, SizeS, SizeB, Exec, ExecBlock, Starts, Sees, Keeps, Ends, Simulates, Bind, TrimOutcome, AddLocals, EnterTry;
    TryShape(m.code, body, x, handler, p, cx, stop, skip);
    TryEval(body, x, handler, st, fuel, m.show);
    var p1 := p + 3 + SizeB(body, EnterTry(cx));
    var end := p + SizeS(Try(body, x, handler), cx);
    StartsAt(c, p, cx, st);
    DoBeginTry(m, c, p1 + 4);
    var t := TryFrame(p1 + 4, |c.stack|);
    var d := Run(m, c, 1);
    TryStarts(c, d, p, cx, st, t);
    var kb := SimB(m, body, p + 3, EnterTry(cx), stop, skip, d, st, fuel);
    var o := ExecBlock(body, st, fuel, m.show);
    SimulatesEnds(m, d, kb, fuel, p1, EnterTry(cx), stop, skip, o);
    if o.None? {
      k := 1 + kb;
      LoopTimeout(m, c, 1, d, kb, fuel, end, cx, stop, skip);
    } else if !o.value.Threw? {
      k := TryBody(m, c, d, kb, fuel, p, p1, end, cx, stop, skip, st, t, o.value);
    } else {
      var f := TryCaught(m, c, d, kb, p, p1, cx, stop, skip, st, x, t, o.value);
      var inner := AddLocals(cx, [x]);
      var st1 := Bind(o.value.st, x, o.value.err);
      var kh := SimB(m, handler, p1 + 4, inner, stop, skip, f, st1, fuel);
      var h := ExecBlock(handler, st1, fuel, m.show);
      SimulatesEnds(m, f, kh, fuel, end - 1, inner, stop, skip, h);
      if h.None? {
        k := kb + 2 + kh;
        TrimNone(|o.value.st.env|);
        LoopTimeout(m, c, kb + 2, f, kh, fuel, end, cx, stop, skip);
      } else if h.value.Normal? {
        k := kb + 2 + kh + 1;
        HandlerNormal(m, c, kb + 2, f, kh, fuel, end, cx, x, stop, skip, h.value);
      } else {
        k := kb + 2 + kh;
        EndsOuter(m, c, kb + 2, f, kh, fuel, end - 1, end, cx, [x], stop, skip, h.value);
      }
    }
  }

  lemma TrimNone(n: nat)
    ensures TrimOutcome(None, n) == None
  {}

  // ---- All statements ----

  lemma LoopEvals(s: Stmt, st: State, fuel: nat, show: Show)
    ensures match s
            case While(c, body) => Exec(s, st, fuel, show) == ExecLoop(c, true, body, st, fuel, show)
            case Until(c, body) => Exec(s, st, fuel, show) == ExecLoop(c, false, body, st, fuel, show)
            case Forever(body) => Exec(s, st, fuel, show) == ExecForever(body, st, fuel, show)
            case _ => true
  {}

  lemma {:induction false} SimLoopStmt(m: Machine, s: Stmt, p: nat, cx: Context, stop: Target, skip: Target, c: Config, st: State, fuel: nat)
      returns (k: nat)
    requires s.While? || s.Until? || s.Forever?
    requires PlacedS(m.code, s, p, cx, stop, skip) && Starts(c, p, cx, st)
    ensures Simulates(m, c, k, fuel, p + SizeS(s, cx), cx, stop, skip, Exec(s, st, fuel, m.show))
    decreases fuel, s, 0
  {
    hide Run, PlacedS, Starts, Simulates, Exec, ExecLoop, ExecForever, SizeS, SizeE, TestAt, LoopBody;
    LoopShapes(m.code, s, p, cx, stop, skip);
    LoopEvals(s, st, fuel, m.show);
    var end := p + SizeS(s, cx);
    match s {
      case While(cond, body) => k := SimLoop(m, cond, true, body, p, p + SizeE(cond) + 4, end, cx, stop, skip, c, st, fuel);
      case Until(cond, body) => k := SimLoop(m, cond, false, body, p, p + SizeE(cond) + 8, end, cx, stop, skip, c, st, fuel);
      case Forever(body) => k := SimForever(m, body, p, end, cx, stop, skip, c, st, fuel);
    }
  }

  /** Compiled statements do what the semantics says, and keep the balance. */
  lemma {:induction false} SimS(m: Machine, s: Stmt, p: nat, cx: Context, stop: Target, skip: Target, c: Config, st: State, fuel: nat)
      returns (k: nat)
    requires PlacedS(m.code, s, p, cx, stop, skip) && Starts(c, p, cx, st)
    ensures Simulates(m, c, k, fuel, p + SizeS(s, cx), cx, stop, skip, Exec(s, st, fuel, m.show))
    decreases fuel, s, 1
  {
    hide Run, PlacedS, Starts, Simulates, Exec, SizeS;
    match s {
      case ExprStmt(e) => k := SimExprStmt(m, e, p, cx, stop, skip, c, st, fuel);
      case Assign(xs, e) => k := SimAssign(m, xs, e, p, cx, stop, skip, c, st, fuel);
      case Print(e) => k := SimPrint(m, e, p, cx, stop, skip, c, st, fuel);
      case Throw(e) => k := SimThrow(m, e, p, cx, stop, skip, c, st, fuel);
      case If(cond, thn, els) => k := SimIf(m, cond, thn, els, p, cx, stop, skip, c, st, fuel);
      case Unless(cond, body) => k := SimUnless(m, cond, body, p, cx, stop, skip, c, st, fuel);
      case Repeat(count, body) => k := SimRepeat(m, count, body, p, cx, stop, skip, c, st, fuel);
      case ForIn(x, over, body) => k := SimForIn(m, x, over, body, p, cx, stop, skip, c, st, fuel);
      case Try(body, x, handler) => k := SimTry(m, body, x, handler, p, cx, stop, skip, c, st, fuel);
      case While(_, _) => k := SimLoopStmt(m, s, p, cx, stop, skip, c, st, fuel);
      case Until(_, _) => k := SimLoopStmt(m, s, p, cx, stop, skip, c, st, fuel);
      case Forever(_) => k := SimLoopStmt(m, s, p, cx, stop, skip, c, st, fuel);
      case _ => k := SimJumpOrPass(m, s, p, cx, stop, skip, c, st, fuel);
    }
  }

  lemma JumpShape(code: Listing, s: Stmt, p: nat, cx: Context, stop: Target, skip: Target)
    requires PlacedS(code, s, p, cx, stop, skip) && (s.Stop? || s.Skip? || s.Pass?)
    ensures ValidContext(cx) && !stop.Pending? && !skip.Pending?
    ensures !s.Pass? ==> cx.inLoop && LayoutLeave(code, p, cx)
    ensures s.Stop? ==> JumpsTo(code, p + Leaves(cx), stop)
    ensures s.Skip? ==> JumpsTo(code, p + Leaves(cx), skip)
    ensures s.Pass? ==> SizeS(s, cx) == 0
  {
    hide Has, LayoutE, LayoutB, SizeE, SizeB, CleanE, CleanB, LayoutStores, LayoutLeave, Leaves, SizeStores, JumpsTo;
  }

  lemma SimJumpOrPass(m: Machine, s: Stmt, p: nat, cx: Context, stop: Target, skip: Target, c: Config, st: State, fuel: nat)
      returns (k: nat)
    requires s.Stop? || s.Skip? || s.Pass?
    requires PlacedS(m.code, s, p, cx, stop, skip) && Starts(c, p, cx, st)
    ensures Simulates(m, c, k, fuel, p + SizeS(s, cx), cx, stop, skip, Exec(s, st, fuel, m.show))
  {
    hide Run, Keeps, Left, Visible, LayoutS, LayoutLeave, CleanS, PlacedS, SizeS, Exec, Starts, Leaves, JumpsTo;
    JumpShape(m.code, s, p, cx, stop, skip);
    JumpEval(s, st, fuel, m.show);
    StartsSees(c, p, cx, st);
    if s.Stop? {
      k := SimLeave(m, p, cx, stop, c, st);
    } else if s.Skip? {
      k := SimLeave(m, p, cx, skip, c, st);
    } else {
      k := 0;
      EmptyBlock(m, p, cx, stop, skip, c, st, fuel);
    }
  }

  lemma JumpEval(s: Stmt, st: State, fuel: nat, show: Show)
    ensures s.Stop? ==> Exec(s, st, fuel, show) == Some(Stopped(st))
    ensures s.Skip? ==> Exec(s, st, fuel, show) == Some(Skipped(st))
    ensures s.Pass? ==> Exec(s, st, fuel, show) == Some(Normal(st))
  {}

  lemma BlockShape(code: Listing, b: seq<Stmt>, p: nat, cx: Context, stop: Target, skip: Target)
    requires b != [] && PlacedB(code, b, p, cx, stop, skip)
    ensures PlacedS(code, b[0], p, cx, stop, skip) && PlacedB(code, b[1..], p + SizeS(b[0], cx), cx, stop, skip)
    ensures SizeB(b, cx) == SizeS(b[0], cx) + SizeB(b[1..], cx)
  {
    hide LayoutS, SizeS, CleanS;
  }

  lemma BlockEval(b: seq<Stmt>, st: State, fuel: nat, show: Show)
    ensures b == [] ==> ExecBlock(b, st, fuel, show) == Some(Normal(st))
    ensures b != [] ==>
            var o := Exec(b[0], st, fuel, show);
            ExecBlock(b, st, fuel, show) ==
            if o.Some? && o.value.Normal? then ExecBlock(b[1..], o.value.st, fuel, show) else o
  {}

  lemma EmptyBlock(m: Machine, p: nat, cx: Context, stop: Target, skip: Target, c: Config, st: State, fuel: nat)
    requires Starts(c, p, cx, st)
    ensures Simulates(m, c, 0, fuel, p, cx, stop, skip, Some(Normal(st))) && SizeB([], cx) == 0
  {
    SeesKeeps(cx.locals, c, st);
  }

  /** An abrupt end does not depend on where the block would end. */
  lemma AbruptEnd(m: Machine, c: Config, k: nat, fuel: nat, mid: nat, end: nat, cx: Context, stop: Target, skip: Target, o: Option<Outcome>)
    requires Simulates(m, c, k, fuel, mid, cx, stop, skip, o) && (o.Some? ==> !o.value.Normal?)
    ensures Simulates(m, c, k, fuel, end, cx, stop, skip, o)
  {
    hide Run, Keeps, Left;
  }

  lemma NormalStarts(m: Machine, c: Config, k: nat, fuel: nat, p: nat, mid: nat, cx: Context, stop: Target, skip: Target, st0: State, st: State)
    requires Simulates(m, c, k, fuel, mid, cx, stop, skip, Some(Normal(st))) && Starts(c, p, cx, st0)
    ensures Starts(Run(m, c, k), mid, cx, st) && Keeps(cx.locals, c, Run(m, c, k), st) && Run(m, c, k).tries == c.tries
  {
    hide Run;
  }

  /** Compiled blocks do what the semantics says, and keep the balance. */
  lemma {:induction false} SimB(m: Machine, b: seq<Stmt>, p: nat, cx: Context, stop: Target, skip: Target, c: Config, st: State, fuel: nat)
      returns (k: nat)
    requires PlacedB(m.code, b, p, cx, stop, skip) && Starts(c, p, cx, st)
    ensures Simulates(m, c, k, fuel, p + SizeB(b, cx), cx, stop, skip, ExecBlock(b, st, fuel, m.show))
    decreases fuel, b, 2
  {
    hide Run, PlacedS, PlacedB, SizeS, SizeB, Exec, ExecBlock, Starts, Keeps, Simulates;
    BlockEval(b, st, fuel, m.show);
    if b == [] {
      k := 0;
      EmptyBlock(m, p, cx, stop, skip, c, st, fuel);
    } else {
      BlockShape(m.code, b, p, cx, stop, skip);
      var mid, end := p + SizeS(b[0], cx), p + SizeB(b, cx);
      var j := SimS(m, b[0], p, cx, stop, skip, c, st, fuel);
      var o := Exec(b[0], st, fuel, m.show);
      if o.Some? && o.value.Normal? {
        var st1 := o.value.st;
        var d := Run(m, c, j);
        NormalStarts(m, c, j, fuel, p, mid, cx, stop, skip, st, st1);
        var kr := SimB(m, b[1..], mid, cx, stop, skip, d, st1, fuel);
        After(m, c, j, d, st1, kr, fuel, fuel, end, cx, stop, skip, ExecBlock(b[1..], st1, fuel, m.show));
        k := j + kr;
      } else {
        k := j;
        AbruptEnd(m, c, j, fuel, mid, end, cx, stop, skip, o);
      }
    }
  }
}
