/** Which programs the compiler accepts: the exact conditions of its error checks. */
module Limits {
  import opened Values
  import opened Language
  import opened CodeGen

  const MAX_CONSTANTS := 65536
  const MAX_JUMP := 65535

  // ---- Constants used ----

  function UsesVar(locals: seq<string>, x: string): nat { if Resolve(locals, x) != -1 then 0 else 1 }

  function UsesE(e: Expr, locals: seq<string>): nat {
    match e
    case Num(_) => 1
    case Str(_) => 1
    case Bool(_) => 0
    case Var(x) => UsesVar(locals, x)
    case Un(_, a) => UsesE(a, locals)
    case Bin(_, l, r) => UsesE(l, locals) + UsesE(r, locals)
    case And(l, r) => UsesE(l, locals) + UsesE(r, locals)
    case Or(l, r) => UsesE(l, locals) + UsesE(r, locals)
    case ListLit(es) => UsesEs(es, locals)
  }

  function UsesEs(es: seq<Expr>, locals: seq<string>): nat {
    if es == [] then 0 else UsesE(es[0], locals) + UsesEs(es[1..], locals)
  }

  function UsesStores(xs: seq<string>, locals: seq<string>): nat {
    if xs == [] then 0 else UsesVar(locals, xs[0]) + UsesStores(xs[1..], locals)
  }

  function UsesS(s: Stmt, cx: Context): nat
    decreases s
  {
    match s
    case ExprStmt(e) => UsesE(e, cx.locals)
    case Assign(xs, e) => UsesE(e, cx.locals) + UsesStores(xs, cx.locals)
    case Print(e) => UsesE(e, cx.locals)
    case If(c, thn, els) => UsesE(c, cx.locals) + UsesB(thn, cx) + UsesB(els, cx)
    case Unless(c, body) => UsesE(c, cx.locals) + UsesB(body, cx)
    case While(c, body) => UsesE(c, cx.locals) + UsesB(body, EnterLoop(cx, [], []))
    case Until(c, body) => UsesE(c, cx.locals) + UsesB(body, EnterLoop(cx, [], []))
    case Forever(body) => UsesB(body, EnterLoop(cx, [], []))
    case Repeat(count, body) => UsesE(count, cx.locals) + 2 + UsesB(body, EnterLoop(cx, ["", ""], []))
    case ForIn(x, over, body) => UsesE(over, cx.locals) + UsesB(body, EnterLoop(cx, ["_iter"], [x]))
    case Try(body, x, handler) => UsesB(body, EnterTry(cx)) + UsesB(handler, AddLocals(cx, [x]))
    case Throw(e) => UsesE(e, cx.locals)
    case _ => 0
  }

  function UsesB(b: seq<Stmt>, cx: Context): nat
    decreases b
  {
    if b == [] then 0 else UsesS(b[0], cx) + UsesB(b[1..], cx)
  }

  // ---- Jump distances, list lengths, stop and skip ----

  predicate FitsE(e: Expr)
    decreases e
  {
    match e
    case Un(_, a) => FitsE(a)
    case Bin(_, l, r) => FitsE(l) && FitsE(r)
    case And(l, r) => FitsE(l) && FitsE(r) && 1 + SizeE(r) <= MAX_JUMP
    case Or(l, r) => FitsE(l) && FitsE(r) && 1 + SizeE(r) <= MAX_JUMP
    case ListLit(es) => |es| <= 255 && FitsEs(es)
    case _ => true
  }

  predicate FitsEs(es: seq<Expr>)
    decreases es
  {
    es == [] || (FitsE(es[0]) && FitsEs(es[1..]))
  }

  /** `skip` is where a skip of the innermost loop goes. */
  predicate FitsS(s: Stmt, p: nat, cx: Context, skip: Target)
    decreases s
  {
    match s
    case ExprStmt(e) => FitsE(e)
    case Assign(xs, e) => FitsE(e)
    case Print(e) => FitsE(e)
    case If(c, thn, els) =>
      var p1 := p + SizeE(c);
      && FitsE(c) && FitsB(thn, p1 + 4, cx, skip) && FitsB(els, p1 + SizeB(thn, cx) + 8, cx, skip)
      && SizeB(thn, cx) + 4 <= MAX_JUMP && SizeB(els, cx) + 1 <= MAX_JUMP
    case Unless(c, body) =>
      FitsE(c) && FitsB(body, p + SizeE(c) + 8, cx, skip) && SizeB(body, cx) + 1 <= MAX_JUMP
    case While(c, body) =>
      var inner := EnterLoop(cx, [], []);
      FitsE(c) && FitsB(body, p + SizeE(c) + 4, inner, Back(p)) && SizeE(c) + SizeB(body, inner) + 7 <= MAX_JUMP
    case Until(c, body) =>
      var inner := EnterLoop(cx, [], []);
      FitsE(c) && FitsB(body, p + SizeE(c) + 8, inner, Back(p)) && SizeE(c) + SizeB(body, inner) + 11 <= MAX_JUMP
    case Forever(body) =>
      var inner := EnterLoop(cx, [], []);
      FitsB(body, p, inner, Back(p)) && SizeB(body, inner) + 3 <= MAX_JUMP
    case Repeat(count, body) =>
      var inner := EnterLoop(cx, ["", ""], []);
      var p1 := p + SizeE(count);
      && FitsE(count) && FitsB(body, p1 + 14, inner, Fwd(p1 + 14 + SizeB(body, inner)))
      && SizeB(body, inner) + 25 <= MAX_JUMP
    case ForIn(x, over, body) =>
      var inner := EnterLoop(cx, ["_iter"], [x]);
      var p1 := p + SizeE(over);
      FitsE(over) && FitsB(body, p1 + 4, inner, Back(p1 + 1)) && SizeB(body, inner) + 7 <= MAX_JUMP
    case Stop => cx.inLoop
    case Skip => cx.inLoop && (skip.Back? ==> p + Leaves(cx) + 3 - skip.t <= MAX_JUMP)
    case Try(body, x, handler) =>
      var inner := AddLocals(cx, [x]);
      && FitsB(body, p + 3, EnterTry(cx), skip)
      && FitsB(handler, p + 7 + SizeB(body, EnterTry(cx)), inner, skip)
      && SizeB(body, EnterTry(cx)) + 4 <= MAX_JUMP && SizeB(handler, inner) + 1 <= MAX_JUMP
    case Throw(e) => FitsE(e)
    case Pass => true
  }

  predicate FitsB(b: seq<Stmt>, p: nat, cx: Context, skip: Target)
    decreases b
  {
    b == [] || (FitsS(b[0], p, cx, skip) && FitsB(b[1..], p + SizeS(b[0], cx), cx, skip))
  }

  /** The scripts that compile without an error. */
  predicate Compiles(b: seq<Stmt>) {
    FitsB(b, 0, ScriptContext, Fwd(0)) && UsesB(b, ScriptContext) <= MAX_CONSTANTS
  }

  /** Few enough locals for two-byte slots, now or once the enclosing jump fits. */
  predicate Narrow(n: nat, size: nat) { n <= 1 || n + size <= 65536 }
}
