/**
 * What scripts print, in plain terms: the loop over a list or a string, the branch of a condition, and
 * the operators on numbers, strings and lists. Compiled and run, they print just that.
 */
module ScriptResults {
  import opened Values
  import opened Language
  import opened CodeGen
  import opened Machine
  import opened Programs
  import opened Correctness

  // ---- Scripts that end normally ----

  /** The script means one behaviour, and its code halts with that one and no other. */
  ghost predicate Prints(m: Machine, b: seq<Stmt>, globals: map<string, Value>, out: seq<string>) {
    forall r :: (Means(b, globals, m.show, r) <==> r == Behaviour(None, globals, out)) && (Halts(m, globals, r) <==> r == Behaviour(None, globals, out))
  }

  lemma OneBehaviour(m: Machine, b: seq<Stmt>, globals: map<string, Value>, fuel: nat, st: State)
    requires LayoutScript(m.code, b) && CleanTop(b, ScriptContext)
    requires ExecBlock(b, Initial(globals), fuel, m.show) == Some(Normal(st)) && st.globals == globals
    ensures Prints(m, b, globals, st.out)
  {
    hide LayoutScript, CleanTop, ExecBlock;
    var r0 := Behaviour(None, globals, st.out);
    assert MeansWithin(b, globals, m.show, fuel, r0);
    forall r ensures (Means(b, globals, m.show, r) <==> r == r0) && (Halts(m, globals, r) <==> r == r0) {
      CompiledCodeMeansSource(m, b, globals, r);
      CompiledCodeMeansSource(m, b, globals, r0);
      if Halts(m, globals, r) {
        var n: nat :| HaltsAfter(m, globals, n, r);
        var k: nat :| HaltsAfter(m, globals, k, r0);
        BothHalt(m, globals, n, r, k, r0);
      }
    }
  }

  // ---- Loops over values ----

  /** The texts of the values from number i on. */
  function Shown(vs: seq<Value>, show: Show, i: nat): seq<string>
    requires i <= |vs|
  {
    seq(|vs| - i, k requires 0 <= k < |vs| - i => show(vs[i + k]))
  }

  function PrintEach(x: string): seq<Stmt> { [Stmt.Print(Var(x))] }

  /** One round binds the variable to the next value and prints it. */
  lemma OneRound(x: string, v: Value, st: State, fuel: nat, show: Show)
    requires !Hidden(x)
    ensures TrimOutcome(ExecBlock(PrintEach(x), Bind(st, x, v), fuel, show), |st.env|) == Some(Normal(st.(out := st.out + [show(v)])))
  {
    var inner := Bind(st, x, v);
    assert inner.env[|st.env|] == Binding(x, v);
    assert Eval(Var(x), inner, show) == Ok(v);
    assert PrintEach(x)[1..] == [];
    assert inner.env[..|st.env|] == st.env;
  }

  lemma {:induction false} EachRound(x: string, vs: seq<Value>, i: nat, st: State, fuel: nat, show: Show)
    requires !Hidden(x) && i <= |vs| && fuel >= |vs| - i
    ensures ExecItems(x, vs[i..], PrintEach(x), st, fuel, show) == Some(Normal(st.(out := st.out + Shown(vs, show, i))))
    decreases |vs| - i
  {
    hide ExecBlock;
    if i < |vs| {
      OneRound(x, vs[i], st, fuel, show);
      EachRound(x, vs, i + 1, st.(out := st.out + [show(vs[i])]), fuel - 1, show);
      assert vs[i..][1..] == vs[i + 1..];
      assert st.out + [show(vs[i])] + Shown(vs, show, i + 1) == st.out + Shown(vs, show, i);
    } else {
      assert st.out + Shown(vs, show, i) == st.out;
    }
  }

  /** In any state a for-in that prints its variable appends the texts of the elements of a list, first to last. */
  lemma ListIsVisitedInOrder(x: string, e: Expr, vs: seq<Value>, st: State, fuel: nat, show: Show)
    requires !Hidden(x) && Eval(e, st, show) == Ok(VList(vs)) && fuel >= |vs|
    ensures Exec(ForIn(x, e, [Stmt.Print(Var(x))]), st, fuel, show)
            == Some(Normal(st.(out := st.out + seq(|vs|, i requires 0 <= i < |vs| => show(vs[i])))))
  {
    hide Eval;
    EachRound(x, vs, 0, st, fuel, show);
    assert vs[0..] == vs;
    assert Shown(vs, show, 0) == seq(|vs|, i requires 0 <= i < |vs| => show(vs[i]));
    hide Exec;
    ForInIs(x, e, VList(vs), st, fuel, show);
  }

  lemma ForInIs(x: string, e: Expr, v: Value, st: State, fuel: nat, show: Show)
    requires Eval(e, st, show) == Ok(v)
    ensures Exec(ForIn(x, e, [Stmt.Print(Var(x))]), st, fuel, show) == ExecItems(x, Items(v), PrintEach(x), st, fuel, show)
  {
    hide Eval;
  }

  /** And of a string its characters, each as a string of its own. */
  lemma StringIsVisitedInOrder(x: string, e: Expr, s: string, st: State, fuel: nat, show: Show)
    requires !Hidden(x) && Eval(e, st, show) == Ok(VStr(s)) && fuel >= |s|
    ensures Exec(ForIn(x, e, [Stmt.Print(Var(x))]), st, fuel, show)
            == Some(Normal(st.(out := st.out + seq(|s|, i requires 0 <= i < |s| => show(VStr([s[i]]))))))
  {
    hide Eval;
    var vs := seq(|s|, i requires 0 <= i < |s| => VStr([s[i]]));
    EachRound(x, vs, 0, st, fuel, show);
    assert vs[0..] == vs;
    assert Shown(vs, show, 0) == seq(|s|, i requires 0 <= i < |s| => show(VStr([s[i]])));
    hide Exec;
    ForInIs(x, e, VStr(s), st, fuel, show);
  }

  /** Over anything else there are no rounds. */
  lemma NothingIsVisited(x: string, e: Expr, v: Value, st: State, fuel: nat, show: Show)
    requires Eval(e, st, show) == Ok(v) && !v.VList? && !v.VStr?
    ensures Exec(ForIn(x, e, [Stmt.Print(Var(x))]), st, fuel, show) == Some(Normal(st))
  {
    hide Eval;
    ForInIs(x, e, v, st, fuel, show);
    hide Exec;
  }

  lemma {:induction false} OneStatement(s: Stmt, st: State, fuel: nat, show: Show)
    ensures ExecBlock([s], st, fuel, show) == Exec(s, st, fuel, show)
  {
    hide Exec;
    assert [s][1..] == [];
  }

  lemma CleanLoop(x: string, e: Expr)
    requires !Hidden(x) && CleanE(e, [""])
    ensures CleanTop([ForIn(x, e, [Stmt.Print(Var(x))])], ScriptContext)
  {
    hide CleanE;
    var body := [Stmt.Print(Var(x))];
    assert body[1..] == [];
    var inner := EnterLoop(ScriptContext, ["_iter"], [x]);
    assert CleanE(Var(x), inner.locals) by { ShownName(x, inner.locals); }
    assert CleanB(body, inner);
    assert [ForIn(x, e, body)][1..] == [];
    assert LooseB([], ScriptContext);
  }

  lemma ShownName(x: string, locals: seq<string>)
    requires !Hidden(x)
    ensures CleanE(Var(x), locals)
  {}

  /** The compiled loop over a list prints its elements, first to last. */
  lemma CompiledLoopOverList(m: Machine, x: string, e: Expr, vs: seq<Value>, globals: map<string, Value>)
    requires !Hidden(x) && CleanE(e, [""]) && Eval(e, Initial(globals), m.show) == Ok(VList(vs))
    requires LayoutScript(m.code, [ForIn(x, e, [Stmt.Print(Var(x))])])
    ensures Prints(m, [ForIn(x, e, [Stmt.Print(Var(x))])], globals, seq(|vs|, i requires 0 <= i < |vs| => m.show(vs[i])))
  {
    hide CleanE, Eval, LayoutScript, Prints, CleanTop, Exec, ExecBlock;
    var s := ForIn(x, e, [Stmt.Print(Var(x))]);
    CleanLoop(x, e);
    ListIsVisitedInOrder(x, e, vs, Initial(globals), |vs|, m.show);
    OneStatement(s, Initial(globals), |vs|, m.show);
    var out := seq(|vs|, i requires 0 <= i < |vs| => m.show(vs[i]));
    assert [] + out == out;
    OneBehaviour(m, [s], globals, |vs|, Initial(globals).(out := out));
  }

  /** The compiled loop over a string prints its characters, first to last. */
  lemma CompiledLoopOverString(m: Machine, x: string, e: Expr, s: string, globals: map<string, Value>)
    requires !Hidden(x) && CleanE(e, [""]) && Eval(e, Initial(globals), m.show) == Ok(VStr(s))
    requires LayoutScript(m.code, [ForIn(x, e, [Stmt.Print(Var(x))])])
    ensures Prints(m, [ForIn(x, e, [Stmt.Print(Var(x))])], globals, seq(|s|, i requires 0 <= i < |s| => m.show(VStr([s[i]]))))
  {
    hide CleanE, Eval, LayoutScript, Prints, CleanTop, Exec, ExecBlock;
    var loop := ForIn(x, e, [Stmt.Print(Var(x))]);
    CleanLoop(x, e);
    StringIsVisitedInOrder(x, e, s, Initial(globals), |s|, m.show);
    OneStatement(loop, Initial(globals), |s|, m.show);
    var out := seq(|s|, i requires 0 <= i < |s| => m.show(VStr([s[i]])));
    assert [] + out == out;
    OneBehaviour(m, [loop], globals, |s|, Initial(globals).(out := out));
  }

  // ---- Conditions ----

  /** The values that a condition takes for false: null, false, zero and the empty string. */
  ghost predicate Falsy(v: Value) { v == VNull || v == VBool(false) || v == VNum(0.0) || v == VStr("") }

  lemma BranchTaken(c: Expr, v: Value, thn: seq<Stmt>, els: seq<Stmt>, st: State, fuel: nat, show: Show)
    requires Eval(c, st, show) == Ok(v)
    ensures Exec(If(c, thn, els), st, fuel, show) == if Falsy(v) then ExecBlock(els, st, fuel, show) else ExecBlock(thn, st, fuel, show)
    ensures Exec(Unless(c, thn), st, fuel, show) == if Falsy(v) then ExecBlock(thn, st, fuel, show) else Some(Normal(st))
    ensures Eval(Un(Not, c), st, show) == Ok(VBool(Falsy(v)))
  {
    hide Eval, ExecBlock;
    NotIs(c, v, st, show);
  }

  lemma NotIs(c: Expr, v: Value, st: State, show: Show)
    requires Eval(c, st, show) == Ok(v)
    ensures Eval(Un(Not, c), st, show) == Unary(Not, v)
  {
    hide Unary;
  }

  lemma CleanBranch(c: Expr, a: string, b: string)
    requires CleanE(c, [""])
    ensures CleanTop([If(c, [Stmt.Print(Str(a))], [Stmt.Print(Str(b))])], ScriptContext)
  {
    hide CleanE;
    assert [Stmt.Print(Str(a))][1..] == [] && [Stmt.Print(Str(b))][1..] == [];
    CleanText(a);
    CleanText(b);
    var s := If(c, [Stmt.Print(Str(a))], [Stmt.Print(Str(b))]);
    assert LooseB([], ScriptContext);
    assert LooseB(s.thn, ScriptContext);
    assert LooseB(s.els, ScriptContext);
    assert LooseS(s, ScriptContext);
    assert [s][1..] == [];
  }

  lemma CleanText(a: string)
    ensures CleanE(Str(a), [""])
  {}

  lemma PrintText(a: string, st: State, fuel: nat, show: Show)
    ensures Exec(Stmt.Print(Str(a)), st, fuel, show) == Some(Normal(st.(out := st.out + [show(VStr(a))])))
  {}

  /** A compiled `if` prints in its second branch exactly for null, false, zero and the empty string. */
  lemma CompiledBranch(m: Machine, c: Expr, v: Value, a: string, b: string, globals: map<string, Value>)
    requires CleanE(c, [""]) && Eval(c, Initial(globals), m.show) == Ok(v)
    requires LayoutScript(m.code, [If(c, [Stmt.Print(Str(a))], [Stmt.Print(Str(b))])])
    ensures Prints(m, [If(c, [Stmt.Print(Str(a))], [Stmt.Print(Str(b))])], globals, [m.show(VStr(if Falsy(v) then b else a))])
  {
    hide CleanE, Eval, LayoutScript, Prints, CleanTop, Exec, ExecBlock;
    var s, st := If(c, [Stmt.Print(Str(a))], [Stmt.Print(Str(b))]), Initial(globals);
    var text := if Falsy(v) then b else a;
    CleanBranch(c, a, b);
    BranchTaken(c, v, [Stmt.Print(Str(a))], [Stmt.Print(Str(b))], st, 0, m.show);
    OneStatement(Stmt.Print(Str(text)), st, 0, m.show);
    PrintText(text, st, 0, m.show);
    OneStatement(s, st, 0, m.show);
    assert [] + [m.show(VStr(text))] == [m.show(VStr(text))];
    OneBehaviour(m, [s], globals, 0, st.(out := [m.show(VStr(text))]));
  }

  // ---- Counted loops ----

  /** How often a counted loop runs: the least number of rounds that is not below the count. */
  lemma TimesIs(r: real, n: nat)
    ensures Times(VNum(r)) == n <==> n as real >= r && (n > 0 ==> (n - 1) as real < r)
  {
    if r > 0.0 {
      var k := (-r).Floor;
      assert k as real <= -r < k as real + 1.0;
      if n as real >= r && (n > 0 ==> (n - 1) as real < r) { assert n == -k; }
    }
  }

  lemma TimesOfOthers(v: Value)
    requires !v.VNum?
    ensures Times(v) == 0
  {}

  lemma {:induction false} EachTime(n: nat, a: string, st: State, fuel: nat, show: Show)
    requires fuel >= n
    ensures ExecTimes(n, [Stmt.Print(Str(a))], st, fuel, show) == Some(Normal(st.(out := st.out + seq(n, _ => show(VStr(a))))))
    decreases n
  {
    hide ExecBlock, Exec;
    if n > 0 {
      OneStatement(Stmt.Print(Str(a)), st, fuel, show);
      PrintText(a, st, fuel, show);
      EachTime(n - 1, a, st.(out := st.out + [show(VStr(a))]), fuel - 1, show);
      assert st.out + [show(VStr(a))] + seq(n - 1, _ => show(VStr(a))) == st.out + seq(n, _ => show(VStr(a)));
    } else {
      assert st.out + seq(0, _ => show(VStr(a))) == st.out;
    }
  }

  lemma CleanRepeat(e: Expr, a: string)
    requires CleanE(e, [""])
    ensures CleanTop([Repeat(e, [Stmt.Print(Str(a))])], ScriptContext)
  {
    hide CleanE;
    var body := [Stmt.Print(Str(a))];
    assert body[1..] == [];
    var inner := EnterLoop(ScriptContext, ["", ""], []);
    TextAnywhere(a, inner.locals);
    assert CleanB(body, inner);
    assert [Repeat(e, body)][1..] == [];
    assert LooseB([], ScriptContext);
  }

  lemma TextAnywhere(a: string, locals: seq<string>)
    ensures CleanE(Str(a), locals)
  {}

  /** A compiled `repeat r` prints as often as the least whole number that is not below r. */
  lemma CompiledRepeat(m: Machine, e: Expr, r: real, n: nat, a: string, globals: map<string, Value>)
    requires CleanE(e, [""]) && Eval(e, Initial(globals), m.show) == Ok(VNum(r))
    requires n as real >= r && (n > 0 ==> (n - 1) as real < r)
    requires LayoutScript(m.code, [Repeat(e, [Stmt.Print(Str(a))])])
    ensures Prints(m, [Repeat(e, [Stmt.Print(Str(a))])], globals, seq(n, _ => m.show(VStr(a))))
  {
    hide CleanE, Eval, LayoutScript, Prints, CleanTop, ExecBlock, ExecTimes;
    var s, st := Repeat(e, [Stmt.Print(Str(a))]), Initial(globals);
    TimesIs(r, n);
    hide Times;
    CleanRepeat(e, a);
    EachTime(n, a, st, n, m.show);
    OneStatement(s, st, n, m.show);
    var out := seq(n, _ => m.show(VStr(a)));
    assert [] + out == out;
    OneBehaviour(m, [s], globals, n, st.(out := out));
  }

  // ---- Operators ----

  /** A compiled `print` shows the value of its expression. */
  lemma CompiledPrint(m: Machine, e: Expr, v: Value, globals: map<string, Value>)
    requires CleanE(e, [""]) && Eval(e, Initial(globals), m.show) == Ok(v) && LayoutScript(m.code, [Stmt.Print(e)])
    ensures Prints(m, [Stmt.Print(e)], globals, [m.show(v)])
  {
    hide CleanE, Eval, LayoutScript, Prints, ExecBlock;
    assert [Stmt.Print(e)][1..] == [];
    OneStatement(Stmt.Print(e), Initial(globals), 0, m.show);
    assert [] + [m.show(v)] == [m.show(v)];
    OneBehaviour(m, [Stmt.Print(e)], globals, 0, Initial(globals).(out := [m.show(v)]));
  }

  /** Both operands, left to right. */
  lemma OperandsFirst(op: BinOp, l: Expr, r: Expr, a: Value, b: Value, st: State, show: Show)
    requires Eval(l, st, show) == Ok(a) && Eval(r, st, show) == Ok(b)
    ensures Eval(Bin(op, l, r), st, show) == Binary(op, a, b, show)
  {
    hide Binary;
  }

  /** Sums, differences, products and comparisons of numbers. */
  lemma NumberOperators(a: Value, b: Value, show: Show)
    requires a.VNum? && b.VNum?
    ensures Binary(Add, a, b, show) == Ok(VNum(a.r + b.r)) && Binary(Sub, a, b, show) == Ok(VNum(a.r - b.r))
    ensures Binary(Mul, a, b, show) == Ok(VNum(a.r * b.r)) && Unary(Negate, a) == Ok(VNum(-a.r))
    ensures Binary(Less, a, b, show) == Ok(VBool(a.r < b.r)) && Binary(LessEq, a, b, show) == Ok(VBool(a.r <= b.r))
    ensures Binary(Greater, a, b, show) == Ok(VBool(a.r > b.r)) && Binary(GreaterEq, a, b, show) == Ok(VBool(a.r >= b.r))
  {
    Product(a, b);
    hide InValues, DivideValues, MulValues;
  }

  lemma Product(a: Value, b: Value)
    requires a.VNum? && b.VNum?
    ensures MulValues(a, b) == Ok(VNum(a.r * b.r))
  {}

  /** Division, its rounding towards minus infinity, and the remainder, which lies between zero and the divisor. */
  lemma NumberDivision(a: Value, b: Value, show: Show)
    requires a.VNum? && b.VNum? && b.r != 0.0
    ensures var q := a.r / b.r;
            var k := q.Floor as real;
            var r := a.r - b.r * k;
            && q * b.r == a.r && k <= q < k + 1.0 && (0.0 <= r < b.r || b.r < r <= 0.0)
            && Binary(Div, a, b, show) == Ok(VNum(q)) && Binary(FloorDiv, a, b, show) == Ok(VNum(k)) && Binary(Mod, a, b, show) == Ok(VNum(r))
  {
    hide Binary;
    var q := a.r / b.r;
    QuotientsAre(a, b);
    DivisionIs(a, b, show);
    Remainder(a.r, b.r, q, q.Floor as real);
  }

  lemma QuotientsAre(a: Value, b: Value)
    requires a.VNum? && b.VNum? && b.r != 0.0
    ensures DivideValues(Div, a, b) == Ok(VNum(a.r / b.r)) && DivideValues(FloorDiv, a, b) == Ok(VNum((a.r / b.r).Floor as real))
    ensures DivideValues(Mod, a, b) == Ok(VNum(a.r - b.r * ((a.r / b.r).Floor as real)))
  {
    ModuloIs(a, b);
  }

  lemma ModuloIs(a: Value, b: Value)
    requires a.VNum? && b.VNum? && b.r != 0.0
    ensures DivideValues(Mod, a, b) == Ok(VNum(a.r - b.r * ((a.r / b.r).Floor as real)))
  {}

  lemma DivisionIs(a: Value, b: Value, show: Show)
    ensures Binary(Div, a, b, show) == DivideValues(Div, a, b) && Binary(FloorDiv, a, b, show) == DivideValues(FloorDiv, a, b)
    ensures Binary(Mod, a, b, show) == DivideValues(Mod, a, b)
  {
    hide DivideValues, AddValues, MulValues, InValues, LessThan;
  }

  lemma Remainder(x: real, y: real, q: real, k: real)
    requires y != 0.0 && q == x / y && k <= q < k + 1.0
    ensures q * y == x && (0.0 <= x - y * k < y || y < x - y * k <= 0.0)
  {
    BackAgain(x, y, q);
    Offset(x, y, q, k, q - k);
  }

  lemma BackAgain(x: real, y: real, q: real)
    requires y != 0.0 && q == x / y
    ensures q * y == x
  {
    assert (x / y) * y == x;
    SameFactor(q, x / y, y);
  }

  lemma Offset(x: real, y: real, q: real, k: real, t: real)
    requires y != 0.0 && q * y == x && t == q - k && 0.0 <= t < 1.0
    ensures 0.0 <= x - y * k < y || y < x - y * k <= 0.0
  {
    var r := t * y;
    assert r == x - y * k by { Difference(t, q, k, y); }
    assert 0.0 <= r < y || y < r <= 0.0 by { Between(t, y); }
  }

  lemma SameFactor(q: real, p: real, y: real)
    requires q == p
    ensures q * y == p * y
  {}

  lemma Difference(t: real, q: real, k: real, y: real)
    requires t == q - k
    ensures t * y == q * y - y * k
  {}

  lemma Between(t: real, y: real)
    requires 0.0 <= t < 1.0 && y != 0.0
    ensures 0.0 <= t * y < y || y < t * y <= 0.0
  {}

  lemma DivisionByZero(x: real, show: Show)
    ensures Binary(Div, VNum(x), VNum(0.0), show) == Binary(FloorDiv, VNum(x), VNum(0.0), show) == Err(VStr("Division by zero"))
    ensures Binary(Mod, VNum(x), VNum(0.0), show) == Err(VStr("Modulo by zero"))
  {}

  /** The first place where two strings differ, or where one of them ends. */
  ghost predicate PartAt(a: string, b: string, k: nat) {
    k <= |a| && k <= |b| && a[..k] == b[..k] && (k < |a| && k < |b| ==> a[k] != b[k])
  }

  lemma {:induction false} TextOrder(a: string, b: string, k: nat)
    requires PartAt(a, b, k)
    ensures StrLess(a, b) <==> k < |b| && (k == |a| || a[k] < b[k])
    decreases k
  {
    if k > 0 {
      assert a[0] == a[..k][0] == b[..k][0] == b[0];
      assert a[1..][..k - 1] == a[..k][1..] && b[1..][..k - 1] == b[..k][1..];
      TextOrder(a[1..], b[1..], k - 1);
    } else if a != "" && b != "" && b[0] < a[0] {
      assert !StrLess(a, b);
    }
  }

  lemma {:induction false} TextParts(a: string, b: string) returns (k: nat)
    ensures PartAt(a, b, k) && (k == |a| == |b| <==> a == b)
  {
    if a == "" || b == "" || a[0] != b[0] {
      k := 0;
    } else {
      var j := TextParts(a[1..], b[1..]);
      k := j + 1;
      assert a[..k] == [a[0]] + a[1..][..j] && b[..k] == [b[0]] + b[1..][..j];
      if k == |a| == |b| { assert a == [a[0]] + a[1..] && b == [b[0]] + b[1..]; }
    }
  }

  /** Strings are compared where they first differ; a proper beginning comes first. */
  lemma TextComparison(a: string, b: string, k: nat, show: Show)
    requires PartAt(a, b, k)
    ensures var less := k < |b| && (k == |a| || a[k] < b[k]);
            && Binary(Less, VStr(a), VStr(b), show) == Ok(VBool(less)) && Binary(GreaterEq, VStr(a), VStr(b), show) == Ok(VBool(!less))
            && Binary(LessEq, VStr(a), VStr(b), show) == Ok(VBool(less || k == |a| == |b|))
            && Binary(Greater, VStr(a), VStr(b), show) == Ok(VBool(!(less || k == |a| == |b|)))
  {
    TextOrder(a, b, k);
    hide StrLess;
    if a == b { assert k == |a|; }
    if k == |a| == |b| { assert a[..k] == a && b[..k] == b; }
  }

  /** Every pair of strings has such a place. */
  lemma TextsCompare(a: string, b: string)
    ensures exists k: nat :: PartAt(a, b, k)
  {
    var k := TextParts(a, b);
  }

  /** The copies of a repeated string, one after the other. */
  lemma {:induction false} TextRepeats(s: string, n: nat, i: nat)
    ensures |RepeatText(s, n)| == n * |s|
    ensures i < n ==> 0 <= i * |s| <= i * |s| + |s| <= n * |s| && RepeatText(s, n)[i * |s|..i * |s| + |s|] == s
    decreases n
  {
    if n > 0 {
      TextRepeats(s, n - 1, i);
      MoreCopies(|s|, n - 1, i);
      assert RepeatText(s, n) == RepeatText(s, n - 1) + s;
    }
  }

  lemma MoreCopies(k: nat, n: nat, i: nat)
    ensures (n + 1) * k == n * k + k && (i < n ==> i * k + k <= n * k <= (n + 1) * k) && 0 <= i * k
  {
    if i < n { CopiesGrow(k, i + 1, n); }
  }

  lemma {:induction false} CopiesGrow(k: nat, a: nat, b: nat)
    requires a <= b
    ensures a * k <= b * k
    decreases b
  {
    if a < b { CopiesGrow(k, a, b - 1); }
  }

  /** A string times a number is as many copies, rounded down; `+` joins whatever is next to a string. */
  lemma TextOperators(s: string, n: nat, i: nat, v: Value, r: real, show: Show)
    ensures var t := Binary(Mul, VStr(s), VNum(n as real), show);
            && t.Ok? && t.v.VStr? && |t.v.s| == n * |s|
            && (i < n ==> 0 <= i * |s| <= i * |s| + |s| <= |t.v.s| && t.v.s[i * |s|..i * |s| + |s|] == s)
    ensures r < 1.0 ==> Binary(Mul, VStr(s), VNum(r), show) == Ok(VStr(""))
    ensures Binary(Add, VStr(s), v, show) == Ok(VStr(show(VStr(s)) + show(v))) && Binary(Add, v, VStr(s), show) == Ok(VStr(show(v) + show(VStr(s))))
  {
    assert (n as real).Floor == n;
    TextRepeats(s, n, i);
    if r < 1.0 { assert r.Floor <= 0; }
    hide RepeatText;
    assert RepeatText(s, r.Floor) == "" || r >= 1.0 by { NoCopies(s, r.Floor); }
  }

  lemma NoCopies(s: string, n: int)
    ensures n <= 0 ==> RepeatText(s, n) == ""
  {}

  /** Membership in a list. */
  lemma MembershipOperators(v: Value, vs: seq<Value>, show: Show)
    ensures Binary(In, v, VList(vs), show) == Ok(VBool(exists i :: 0 <= i < |vs| && vs[i] == v))
    ensures Binary(NotIn, v, VList(vs), show) == Ok(VBool(forall i :: 0 <= i < |vs| ==> vs[i] != v))
  {
    hide AddValues, MulValues, DivideValues, LessThan, Contains;
  }

  /** And in a string, of which the text must be a piece. */
  lemma PieceOperators(v: Value, s: string, show: Show)
    ensures Binary(In, v, VStr(s), show) == Ok(VBool(exists a, b :: s == a + show(v) + b))
    ensures Binary(NotIn, v, VStr(s), show) == Ok(VBool(!exists a, b :: s == a + show(v) + b))
  {
    var t := show(v);
    if i :| 0 <= i <= |s| && t <= s[i..] {
      assert s == s[..i] + t + s[i..][|t|..];
    }
    if a, b :| s == a + t + b {
      assert t <= s[|a|..];
    }
    hide AddValues, MulValues, DivideValues, LessThan;
  }

  /** Lists are joined; everything but strings, numbers and lists, or a null beside a number or list, cannot be added. */
  lemma OtherSums(a: Value, b: Value, show: Show)
    requires !a.VStr? && !b.VStr?
    ensures a.VList? && b.VList? ==> Binary(Add, a, b, show) == Ok(VList(a.elems + b.elems))
    ensures (a == VNull || b == VNull) ==> Binary(Add, a, b, show) == Ok(VNull)
    ensures a != VNull && b != VNull && !(a.VNum? && b.VNum?) && !(a.VList? && b.VList?) ==>
              Binary(Add, a, b, show) == Err(VStr("Operands must be numbers, strings, or lists for +"))
  {}

  /** Equality is that of values; two values of which one is neither number nor string are never less. */
  lemma Comparisons(a: Value, b: Value, show: Show)
    ensures Binary(Equal, a, b, show) == Ok(VBool(a == b)) && Binary(NotEqual, a, b, show) == Ok(VBool(a != b))
    ensures !(a.VNum? && b.VNum?) && !(a.VStr? && b.VStr?) ==>
              && Binary(Less, a, b, show) == Ok(VBool(false)) && Binary(GreaterEq, a, b, show) == Ok(VBool(true))
              && Binary(LessEq, a, b, show) == Ok(VBool(a == b)) && Binary(Greater, a, b, show) == Ok(VBool(a != b))
  {}

  /** What cannot be computed with is refused with the operator's own message. */
  lemma RefusedNumbers(a: Value, b: Value, show: Show)
    requires !(a.VNum? && b.VNum?)
    ensures Binary(Sub, a, b, show) == Err(VStr("Operands must be numbers for -"))
    ensures !(a.VStr? && b.VNum?) ==> Binary(Mul, a, b, show) == Err(VStr("Operands must be numbers, or string and number for *"))
    ensures !a.VNum? ==> Unary(Negate, a) == Err(VStr("Operand must be a number for -"))
  {
    hide RepeatText, Contains, StrLess;
  }

  lemma RefusedDivision(a: Value, b: Value, show: Show)
    requires !(a.VNum? && b.VNum?)
    ensures Binary(Div, a, b, show) == Err(VStr("Operands must be numbers for /"))
    ensures Binary(FloorDiv, a, b, show) == Err(VStr("Operands must be numbers for //"))
    ensures Binary(Mod, a, b, show) == Err(VStr("Operands must be numbers for %"))
  {
    hide RepeatText, Contains, StrLess;
  }

  lemma RefusedContainer(a: Value, b: Value, show: Show)
    requires !b.VList? && !b.VStr?
    ensures Binary(In, a, b, show) == InValues(a, b, show) && Binary(NotIn, a, b, show) == InValues(a, b, show)
    ensures InValues(a, b, show) == Err(VStr("Type error: 'in' operator requires a list, dict, or string container."))
  {
    NoContainer(a, b, show);
    hide InValues, AddValues, MulValues, DivideValues, LessThan;
  }

  lemma NoContainer(a: Value, b: Value, show: Show)
    requires !b.VList? && !b.VStr?
    ensures InValues(a, b, show) == Err(VStr("Type error: 'in' operator requires a list, dict, or string container."))
  {}
}
