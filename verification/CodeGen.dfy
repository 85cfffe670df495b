/** Where the compiler puts which instruction: sizes in bytes, and the layout of
    every construct. `cx` is the compile-time context of a piece of code. */
module CodeGen {
  import opened Values
  import opened Language
  import Machine
  import opened M = Machine

  /** locals: the names of the stack slots in use; tries: the open try blocks;
      loopLocals and loopTries: the same counts where the innermost loop starts. */
  datatype Context = Context(locals: seq<string>, tries: nat, inLoop: bool, loopLocals: nat, loopTries: nat)

  predicate ValidContext(cx: Context) {
    cx.inLoop ==> cx.loopLocals <= |cx.locals| && cx.loopTries <= cx.tries
  }

  function AddLocals(cx: Context, names: seq<string>): Context {
    cx.(locals := cx.locals + names)
  }

  function EnterTry(cx: Context): Context { cx.(tries := cx.tries + 1) }

  /** The context of a loop body: the loop owns the given hidden slots, and the
      body starts with the given variables. */
  function EnterLoop(cx: Context, hidden: seq<string>, vars: seq<string>): Context {
    Context(cx.locals + hidden + vars, cx.tries, true, |cx.locals| + |hidden|, cx.tries)
  }

  const ScriptContext := Context([""], 0, false, 0, 0)

  function Resolve(locals: seq<string>, x: string): (i: int)
    ensures -1 <= i < |locals|
    ensures i != -1 ==> locals[i] == x
  {
    if locals == [] then -1
    else if locals[|locals| - 1] == x then |locals| - 1
    else Resolve(locals[..|locals| - 1], x)
  }

  /** Where a stop or a skip goes: back to a known address, forward to a known
      address, or not yet known, with the addresses of the jumps to patch. */
  datatype Target = Back(t: nat) | Fwd(t: nat) | Pending(holes: set<nat>)

  predicate JumpsTo(code: Listing, p: nat, to: Target) {
    match to
    case Back(t) => Has(code, p, Loop(t))
    case Fwd(t) => Has(code, p, Jump(t))
    case Pending(holes) => p in code && code[p].Jump? && p in holes
  }

  // ---- Expressions ----

  function SizeE(e: Expr): nat {
    match e
    case Num(_) => 3
    case Str(_) => 3
    case Bool(_) => 1
    case Var(_) => 3
    case Un(_, a) => SizeE(a) + 1
    case Bin(_, l, r) => SizeE(l) + SizeE(r) + 1
    case And(l, r) => SizeE(l) + 4 + SizeE(r)
    case Or(l, r) => SizeE(l) + 7 + SizeE(r)
    case ListLit(es) => SizeEs(es) + 2
  }

  function SizeEs(es: seq<Expr>): nat {
    if es == [] then 0 else SizeE(es[0]) + SizeEs(es[1..])
  }

  function LoadVar(locals: seq<string>, x: string): Instr {
    var i := Resolve(locals, x);
    if i != -1 then GetLocal(i) else GetGlobal(x)
  }

  predicate LayoutE(code: Listing, e: Expr, p: nat, locals: seq<string>)
    decreases e
  {
    match e
    case Num(n) => Has(code, p, Const(VNum(n)))
    case Str(s) => Has(code, p, Const(VStr(s)))
    case Bool(b) => Has(code, p, PushBool(b))
    case Var(x) => Has(code, p, LoadVar(locals, x))
    case Un(op, a) => LayoutE(code, a, p, locals) && Has(code, p + SizeE(a), Apply(op))
    case Bin(op, l, r) =>
      var p1 := p + SizeE(l);
      LayoutE(code, l, p, locals) && LayoutE(code, r, p1, locals) && Has(code, p1 + SizeE(r), Operate(op))
    case And(l, r) =>
      var p1 := p + SizeE(l);
      && LayoutE(code, l, p, locals) && Has(code, p1, JumpIfFalse(p + SizeE(e)))
      && Has(code, p1 + 3, M.Pop) && LayoutE(code, r, p1 + 4, locals)
    case Or(l, r) =>
      var p1 := p + SizeE(l);
      && LayoutE(code, l, p, locals) && Has(code, p1, JumpIfFalse(p1 + 6))
      && Has(code, p1 + 3, Jump(p + SizeE(e)))
      && Has(code, p1 + 6, M.Pop) && LayoutE(code, r, p1 + 7, locals)
    case ListLit(es) => LayoutEs(code, es, p, locals) && Has(code, p + SizeEs(es), MakeList(|es|))
  }

  predicate LayoutEs(code: Listing, es: seq<Expr>, p: nat, locals: seq<string>)
    decreases es
  {
    es == [] || (LayoutE(code, es[0], p, locals) && LayoutEs(code, es[1..], p + SizeE(es[0]), locals))
  }

  // ---- Statements ----

  /** Whether the compiler pops the value of an expression used as a statement:
      true and false and list literals are left on the stack. */
  predicate Popped(e: Expr) { !e.Bool? && !e.ListLit? }

  function SizeStore(locals: seq<string>, x: string): nat {
    if Resolve(locals, x) != -1 then 4 else 3
  }

  function SizeStores(locals: seq<string>, xs: seq<string>): nat
    decreases xs
  {
    if xs == [] then 0
    else (if |xs| > 1 then 1 else 0) + SizeStore(locals, xs[0]) + SizeStores(locals, xs[1..])
  }

  predicate LayoutStore(code: Listing, x: string, p: nat, locals: seq<string>) {
    var i := Resolve(locals, x);
    if i != -1 then Has(code, p, SetLocal(i)) && Has(code, p + 3, M.Pop)
    else Has(code, p, DefineGlobal(x))
  }

  predicate LayoutStores(code: Listing, xs: seq<string>, p: nat, locals: seq<string>)
    decreases xs
  {
    xs == [] ||
    (var d := if |xs| > 1 then 1 else 0;
     && (d == 1 ==> Has(code, p, Dup))
     && LayoutStore(code, xs[0], p + d, locals)
     && LayoutStores(code, xs[1..], p + d + SizeStore(locals, xs[0]), locals))
  }

  /** How many try blocks, and how many locals, a stop or skip leaves. */
  function OpenTries(cx: Context): nat {
    if cx.tries > cx.loopTries then cx.tries - cx.loopTries else 0
  }

  function OpenLocals(cx: Context): nat {
    if |cx.locals| > cx.loopLocals then |cx.locals| - cx.loopLocals else 0
  }

  function Leaves(cx: Context): nat { OpenTries(cx) + OpenLocals(cx) }

  predicate Repeated(code: Listing, p: nat, n: nat, i: Instr)
    decreases n
  {
    n == 0 || (Has(code, p, i) && Repeated(code, p + 1, n - 1, i))
  }

  /** The cleanup of a stop or skip: close the try blocks, drop the locals. */
  predicate LayoutLeave(code: Listing, p: nat, cx: Context) {
    Repeated(code, p, OpenTries(cx), M.EndTry) && Repeated(code, p + OpenTries(cx), OpenLocals(cx), M.Pop)
  }

  function SizeS(s: Stmt, cx: Context): nat
    decreases s
  {
    match s
    case ExprStmt(e) => SizeE(e) + (if Popped(e) then 1 else 0)
    case Assign(xs, e) => SizeE(e) + SizeStores(cx.locals, xs)
    case Print(e) => SizeE(e) + 1
    case If(c, thn, els) => SizeE(c) + SizeB(thn, cx) + SizeB(els, cx) + 8
    case Unless(c, body) => SizeE(c) + SizeB(body, cx) + 8
    case While(c, body) => SizeE(c) + SizeB(body, EnterLoop(cx, [], [])) + 8
    case Until(c, body) => SizeE(c) + SizeB(body, EnterLoop(cx, [], [])) + 11
    case Forever(body) => SizeB(body, EnterLoop(cx, [], [])) + 3
    case Repeat(count, body) => SizeE(count) + SizeB(body, EnterLoop(cx, ["", ""], [])) + 31
    case ForIn(x, over, body) => SizeE(over) + SizeB(body, EnterLoop(cx, ["_iter"], [x])) + 9
    case Stop => Leaves(cx) + 3
    case Skip => Leaves(cx) + 3
    case Try(body, x, handler) => SizeB(body, EnterTry(cx)) + SizeB(handler, AddLocals(cx, [x])) + 8
    case Throw(e) => SizeE(e) + 1
    case Pass => 0
  }

  function SizeB(b: seq<Stmt>, cx: Context): nat
    decreases b
  {
    if b == [] then 0 else SizeS(b[0], cx) + SizeB(b[1..], cx)
  }

  predicate LayoutS(code: Listing, s: Stmt, p: nat, cx: Context, stop: Target, skip: Target)
    decreases s
  {
    match s
    case ExprStmt(e) => LayoutE(code, e, p, cx.locals) && (Popped(e) ==> Has(code, p + SizeE(e), M.Pop))
    case Assign(xs, e) => LayoutE(code, e, p, cx.locals) && LayoutStores(code, xs, p + SizeE(e), cx.locals)
    case Print(e) => LayoutE(code, e, p, cx.locals) && Has(code, p + SizeE(e), Output)
    case If(c, thn, els) =>
      var p1 := p + SizeE(c);
      var p2 := p1 + 4 + SizeB(thn, cx);
      && LayoutE(code, c, p, cx.locals) && Has(code, p1, JumpIfFalse(p2 + 3)) && Has(code, p1 + 3, M.Pop)
      && LayoutB(code, thn, p1 + 4, cx, stop, skip)
      && Has(code, p2, Jump(p + SizeS(s, cx))) && Has(code, p2 + 3, M.Pop)
      && LayoutB(code, els, p2 + 4, cx, stop, skip)
    case Unless(c, body) =>
      var p1 := p + SizeE(c);
      && LayoutE(code, c, p, cx.locals) && Has(code, p1, JumpIfFalse(p1 + 7)) && Has(code, p1 + 3, M.Pop)
      && Has(code, p1 + 4, Jump(p + SizeS(s, cx))) && Has(code, p1 + 7, M.Pop)
      && LayoutB(code, body, p1 + 8, cx, stop, skip)
    case While(c, body) =>
      var p1 := p + SizeE(c);
      var inner := EnterLoop(cx, [], []);
      var p2 := p1 + 4 + SizeB(body, inner);
      && LayoutE(code, c, p, cx.locals) && Has(code, p1, JumpIfFalse(p2 + 3)) && Has(code, p1 + 3, M.Pop)
      && LayoutB(code, body, p1 + 4, inner, Fwd(p + SizeS(s, cx)), Back(p))
      && Has(code, p2, Loop(p)) && Has(code, p2 + 3, M.Pop)
    case Until(c, body) =>
      var p1 := p + SizeE(c);
      var inner := EnterLoop(cx, [], []);
      var p2 := p1 + 8 + SizeB(body, inner);
      && LayoutE(code, c, p, cx.locals) && Has(code, p1, JumpIfFalse(p1 + 7)) && Has(code, p1 + 3, M.Pop)
      && Has(code, p1 + 4, Jump(p2 + 3)) && Has(code, p1 + 7, M.Pop)
      && LayoutB(code, body, p1 + 8, inner, Fwd(p2 + 3), Back(p))
      && Has(code, p2, Loop(p))
    case Forever(body) =>
      var inner := EnterLoop(cx, [], []);
      var p1 := p + SizeB(body, inner);
      LayoutB(code, body, p, inner, Fwd(p1 + 3), Back(p)) && Has(code, p1, Loop(p))
    case Repeat(count, body) =>
      var n := |cx.locals|;
      var p1 := p + SizeE(count);
      var inner := EnterLoop(cx, ["", ""], []);
      var p2 := p1 + 14 + SizeB(body, inner);
      && LayoutE(code, count, p, cx.locals) && Has(code, p1, Const(VNum(0.0)))
      && Has(code, p1 + 3, GetLocal(n + 1)) && Has(code, p1 + 6, GetLocal(n)) && Has(code, p1 + 9, Operate(Less))
      && Has(code, p1 + 10, JumpIfFalse(p2 + 14)) && Has(code, p1 + 13, M.Pop)
      && LayoutB(code, body, p1 + 14, inner, Fwd(p2 + 15), Fwd(p2))
      && Has(code, p2, GetLocal(n + 1)) && Has(code, p2 + 3, Const(VNum(1.0))) && Has(code, p2 + 6, Operate(Add))
      && Has(code, p2 + 7, SetLocal(n + 1)) && Has(code, p2 + 10, M.Pop) && Has(code, p2 + 11, Loop(p1 + 3))
      && Has(code, p2 + 14, M.Pop) && Has(code, p2 + 15, M.Pop) && Has(code, p2 + 16, M.Pop)
    case ForIn(x, over, body) =>
      var p1 := p + SizeE(over);
      var inner := EnterLoop(cx, ["_iter"], [x]);
      var p2 := p1 + 4 + SizeB(body, inner);
      && LayoutE(code, over, p, cx.locals) && Has(code, p1, GetIter)
      && Has(code, p1 + 1, ForIter(p2 + 4))
      && LayoutB(code, body, p1 + 4, inner, Fwd(p2 + 4), Back(p1 + 1))
      && Has(code, p2, M.Pop) && Has(code, p2 + 1, Loop(p1 + 1)) && Has(code, p2 + 4, M.Pop)
    case Stop => LayoutLeave(code, p, cx) && JumpsTo(code, p + Leaves(cx), stop)
    case Skip => LayoutLeave(code, p, cx) && JumpsTo(code, p + Leaves(cx), skip)
    case Try(body, x, handler) =>
      var p1 := p + 3 + SizeB(body, EnterTry(cx));
      var inner := AddLocals(cx, [x]);
      && Has(code, p, BeginTry(p1 + 4))
      && LayoutB(code, body, p + 3, EnterTry(cx), stop, skip)
      && Has(code, p1, M.EndTry) && Has(code, p1 + 1, Jump(p + SizeS(s, cx)))
      && LayoutB(code, handler, p1 + 4, inner, stop, skip)
      && Has(code, p1 + 4 + SizeB(handler, inner), M.Pop)
    case Throw(e) => LayoutE(code, e, p, cx.locals) && Has(code, p + SizeE(e), Raise)
    case Pass => true
  }

  predicate LayoutB(code: Listing, b: seq<Stmt>, p: nat, cx: Context, stop: Target, skip: Target)
    decreases b
  {
    b == [] ||
    (LayoutS(code, b[0], p, cx, stop, skip) && LayoutB(code, b[1..], p + SizeS(b[0], cx), cx, stop, skip))
  }

  /** A whole script: its statements, then null and return. */
  predicate LayoutScript(code: Listing, b: seq<Stmt>) {
    var n := SizeB(b, ScriptContext);
    LayoutB(code, b, 0, ScriptContext, Fwd(0), Fwd(0)) && Has(code, n, PushNull) && Has(code, n + 1, M.Return)
  }
}
