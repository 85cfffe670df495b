/** Compiled code is a gapless run of instructions whose jumps stay on instructions. */
module Sealing {
  import opened Values
  import opened Language
  import opened CodeGen
  import opened Machine

  /** The most stack slots a piece of code names at once. */
  function Max(a: nat, b: nat): nat { if a < b then b else a }

  function DepthS(s: Stmt, cx: Context): (n: nat)
    ensures n >= |cx.locals|
    decreases s
  {
    match s
    case If(_, thn, els) => Max(DepthB(thn, cx), DepthB(els, cx))
    case Unless(_, body) => DepthB(body, cx)
    case While(_, body) => DepthB(body, EnterLoop(cx, [], []))
    case Until(_, body) => DepthB(body, EnterLoop(cx, [], []))
    case Forever(body) => DepthB(body, EnterLoop(cx, [], []))
    case Repeat(_, body) => DepthB(body, EnterLoop(cx, ["", ""], []))
    case ForIn(x, _, body) => DepthB(body, EnterLoop(cx, ["_iter"], [x]))
    case Try(body, x, handler) => Max(DepthB(body, EnterTry(cx)), DepthB(handler, AddLocals(cx, [x])))
    case _ => |cx.locals|
  }

  function DepthB(b: seq<Stmt>, cx: Context): (n: nat)
    ensures n >= |cx.locals|
    decreases b
  {
    if b == [] then |cx.locals| else Max(DepthS(b[0], cx), DepthB(b[1..], cx))
  }

  /** Instruction after instruction, from p to x. */
  predicate Walks(code: Listing, p: nat, x: nat)
    decreases x - p
  {
    p == x || (p < x && p in code && Walks(code, p + Len(code[p]), x))
  }

  predicate Slotted(i: Instr, n: nat) {
    (i.GetLocal? ==> i.slot < n) && (i.SetLocal? ==> i.slot < n)
  }

  predicate IsJump(i: Instr) { i.Jump? || i.JumpIfFalse? || i.Loop? || i.BeginTry? || i.ForIter? }

  /** The code from a to b is a run of instructions on slots below n, whose jumps go to
      instructions of the run, to its end, or to an address in out. */
  ghost predicate Sealed(code: Listing, n: nat, out: set<nat>, a: nat, b: nat) {
    && Walks(code, a, b)
    && forall x | a <= x < b && Walks(code, a, x) ::
         && x in code && Slotted(code[x], n)
         && (IsJump(code[x]) ==> code[x].target in out || (a <= code[x].target <= b && Walks(code, a, code[x].target)))
  }

  lemma {:induction false} WalksJoin(code: Listing, a: nat, m: nat, b: nat)
    requires Walks(code, a, m) && Walks(code, m, b)
    ensures Walks(code, a, b) && a <= m <= b
    decreases m - a
  {
    if a != m { WalksJoin(code, a + Len(code[a]), m, b); }
  }

  lemma {:induction false} WalksSplit(code: Listing, a: nat, m: nat, x: nat)
    requires Walks(code, a, m) && Walks(code, a, x) && m <= x
    ensures Walks(code, m, x)
    decreases m - a
  {
    if a != m { WalksSplit(code, a + Len(code[a]), m, x); }
  }

  lemma SealedNone(code: Listing, n: nat, out: set<nat>, a: nat)
    ensures Sealed(code, n, out, a, a)
  {}

  lemma Join(code: Listing, n: nat, out: set<nat>, a: nat, m: nat, b: nat)
    requires Sealed(code, n, out, a, m) && Sealed(code, n, out, m, b)
    ensures Sealed(code, n, out, a, b) && Walks(code, a, m)
  {
    hide Walks, Slotted;
    WalksJoin(code, a, m, b);
    forall x | a <= x < b && Walks(code, a, x)
      ensures x in code && Slotted(code[x], n)
      ensures IsJump(code[x]) ==> code[x].target in out || (a <= code[x].target <= b && Walks(code, a, code[x].target))
    {
      if x >= m {
        WalksSplit(code, a, m, x);
        if IsJump(code[x]) && code[x].target !in out { WalksJoin(code, a, m, code[x].target); }
      }
    }
  }

  /** One more instruction. */
  lemma Step(code: Listing, n: nat, out: set<nat>, a: nat, m: nat, i: Instr)
    requires Sealed(code, n, out, a, m) && Has(code, m, i) && Slotted(i, n) && (IsJump(i) ==> i.target in out)
    ensures Sealed(code, n, out, a, m + Len(i)) && Walks(code, a, m)
  {
    One(code, n, out, m, i);
    hide Walks, Sealed;
    Join(code, n, out, a, m, m + Len(i));
    SealedWalks(code, n, out, a, m);
  }

  lemma One(code: Listing, n: nat, out: set<nat>, m: nat, i: Instr)
    requires Has(code, m, i) && Slotted(i, n) && (IsJump(i) ==> i.target in out)
    ensures Sealed(code, n, out, m, m + Len(i))
  {
    assert Walks(code, m + Len(i), m + Len(i));
    var e := m + Len(i);
    assert forall x | m < x < e :: !Walks(code, e, x);
  }

  lemma SealedWalks(code: Listing, n: nat, out: set<nat>, a: nat, m: nat)
    requires Sealed(code, n, out, a, m)
    ensures Walks(code, a, m) && a <= m
  {}

  /** A target inside the run need not be listed. */
  lemma Discharge(code: Listing, n: nat, out: set<nat>, t: nat, a: nat, b: nat)
    requires Sealed(code, n, out + {t}, a, b) && Walks(code, a, t) && a <= t <= b
    ensures Sealed(code, n, out, a, b)
  {}

  lemma Widen(code: Listing, n: nat, out: set<nat>, wider: set<nat>, a: nat, b: nat)
    requires Sealed(code, n, out, a, b) && out <= wider
    ensures Sealed(code, n, wider, a, b)
  {}

  // ---- Expressions ----

  lemma {:induction false} SealE(code: Listing, e: Expr, p: nat, locals: seq<string>, n: nat)
    requires LayoutE(code, e, p, locals) && |locals| <= n
    ensures Sealed(code, n, {}, p, p + SizeE(e))
    decreases e, 1
  {
    hide Sealed, Has, LayoutEs, SizeEs, Walks;
    SealedNone(code, n, {}, p);
    match e {
      case Num(x) => Step(code, n, {}, p, p, Const(VNum(x)));
      case Str(s) => Step(code, n, {}, p, p, Const(VStr(s)));
      case Bool(b) => Step(code, n, {}, p, p, PushBool(b));
      case Var(x) => Step(code, n, {}, p, p, LoadVar(locals, x));
      case Un(op, a) =>
        SealE(code, a, p, locals, n);
        Step(code, n, {}, p, p + SizeE(a), Apply(op));
      case Bin(op, l, r) =>
        SealE(code, l, p, locals, n);
        SealE(code, r, p + SizeE(l), locals, n);
        Join(code, n, {}, p, p + SizeE(l), p + SizeE(l) + SizeE(r));
        Step(code, n, {}, p, p + SizeE(l) + SizeE(r), Operate(op));
      case And(l, r) => SealAnd(code, l, r, p, locals, n);
      case Or(l, r) => SealOr(code, l, r, p, locals, n);
      case ListLit(es) =>
        SealEs(code, es, p, locals, n);
        Step(code, n, {}, p, p + SizeEs(es), MakeList(|es|));
    }
  }

  lemma {:induction false} SealEs(code: Listing, es: seq<Expr>, p: nat, locals: seq<string>, n: nat)
    requires LayoutEs(code, es, p, locals) && |locals| <= n
    ensures Sealed(code, n, {}, p, p + SizeEs(es))
    decreases es
  {
    hide Sealed, Has, LayoutE, SizeE, Walks;
    if es == [] {
      SealedNone(code, n, {}, p);
    } else {
      SealE(code, es[0], p, locals, n);
      SealEs(code, es[1..], p + SizeE(es[0]), locals, n);
      Join(code, n, {}, p, p + SizeE(es[0]), p + SizeEs(es));
    }
  }

  /** As SealE, for a longer list of targets. */
  lemma {:induction false} SealTo(code: Listing, e: Expr, p: nat, locals: seq<string>, n: nat, out: set<nat>)
    requires LayoutE(code, e, p, locals) && |locals| <= n
    ensures Sealed(code, n, out, p, p + SizeE(e))
    decreases e, 2
  {
    hide Sealed, LayoutE, SizeE, Walks;
    SealE(code, e, p, locals, n);
    Widen(code, n, {}, out, p, p + SizeE(e));
  }

  lemma {:induction false} SealAnd(code: Listing, l: Expr, r: Expr, p: nat, locals: seq<string>, n: nat)
    requires LayoutE(code, And(l, r), p, locals) && |locals| <= n
    ensures Sealed(code, n, {}, p, p + SizeE(And(l, r)))
    decreases And(l, r), 0
  {
    hide Sealed, Has, LayoutEs, SizeEs, LoadVar, Walks;
    var p1, end := p + SizeE(l), p + SizeE(And(l, r));
    var out: set<nat> := {} + {end};
    SealTo(code, l, p, locals, n, out);
    Step(code, n, out, p, p1, JumpIfFalse(end));
    Step(code, n, out, p, p1 + 3, Instr.Pop);
    SealTo(code, r, p1 + 4, locals, n, out);
    Join(code, n, out, p, p1 + 4, end);
    SealedWalks(code, n, out, p, end);
    Discharge(code, n, {}, end, p, end);
  }

  lemma {:induction false} SealOr(code: Listing, l: Expr, r: Expr, p: nat, locals: seq<string>, n: nat)
    requires LayoutE(code, Or(l, r), p, locals) && |locals| <= n
    ensures Sealed(code, n, {}, p, p + SizeE(Or(l, r)))
    decreases Or(l, r), 0
  {
    hide Sealed, Has, LayoutEs, SizeEs, LoadVar, Walks;
    var p1, end := p + SizeE(l), p + SizeE(Or(l, r));
    var out: set<nat> := {} + {end} + {p1 + 6};
    SealTo(code, l, p, locals, n, out);
    Step(code, n, out, p, p1, JumpIfFalse(p1 + 6));
    Step(code, n, out, p, p1 + 3, Jump(end));
    Step(code, n, out, p, p1 + 6, Instr.Pop);
    SealTo(code, r, p1 + 7, locals, n, out);
    Join(code, n, out, p, p1 + 7, end);
    SealedWalks(code, n, out, p, end);
    Discharge(code, n, {} + {end}, p1 + 6, p, end);
    Discharge(code, n, {}, end, p, end);
  }

  // ---- Statements ----

  lemma SealStore(code: Listing, x: string, a: nat, p: nat, locals: seq<string>, n: nat, out: set<nat>)
    requires LayoutStore(code, x, p, locals) && |locals| <= n && Sealed(code, n, out, a, p)
    ensures Sealed(code, n, out, a, p + SizeStore(locals, x))
  {
    hide Sealed, Has, Walks;
    var i := Resolve(locals, x);
    if i != -1 {
      Step(code, n, out, a, p, SetLocal(i));
      Step(code, n, out, a, p + 3, Instr.Pop);
    } else {
      Step(code, n, out, a, p, DefineGlobal(x));
    }
  }

  lemma {:induction false} SealStores(code: Listing, xs: seq<string>, a: nat, p: nat, locals: seq<string>, n: nat, out: set<nat>)
    requires LayoutStores(code, xs, p, locals) && |locals| <= n && Sealed(code, n, out, a, p)
    ensures Sealed(code, n, out, a, p + SizeStores(locals, xs))
    decreases xs
  {
    hide Sealed, Has, Walks, LayoutStore, SizeStore;
    if xs != [] {
      var d := if |xs| > 1 then 1 else 0;
      if d == 1 { Step(code, n, out, a, p, Dup); }
      SealStore(code, xs[0], a, p + d, locals, n, out);
      SealStores(code, xs[1..], a, p + d + SizeStore(locals, xs[0]), locals, n, out);
    }
  }

  lemma {:induction false} SealRepeated(code: Listing, a: nat, p: nat, k: nat, i: Instr, n: nat, out: set<nat>)
    requires Repeated(code, p, k, i) && Sealed(code, n, out, a, p) && Len(i) == 1 && Slotted(i, n) && !IsJump(i)
    ensures Sealed(code, n, out, a, p + k)
    decreases k
  {
    hide Sealed, Has, Walks;
    if k > 0 {
      Step(code, n, out, a, p, i);
      SealRepeated(code, a, p + 1, k - 1, i, n, out);
    }
  }

  lemma SealLeave(code: Listing, s: Stmt, p: nat, cx: Context, stop: Target, skip: Target, n: nat, out: set<nat>)
    requires (s.Stop? || s.Skip?) && LayoutS(code, s, p, cx, stop, skip) && !stop.Pending? && !skip.Pending?
    requires stop.t in out && skip.t in out
    ensures Sealed(code, n, out, p, p + SizeS(s, cx))
  {
    hide Sealed, Has, Walks, Repeated, OpenTries, OpenLocals;
    SealedNone(code, n, out, p);
    SealRepeated(code, p, p, OpenTries(cx), EndTry, n, out);
    SealRepeated(code, p, p + OpenTries(cx), OpenLocals(cx), Instr.Pop, n, out);
    var to := if s.Stop? then stop else skip;
    Step(code, n, out, p, p + Leaves(cx), if to.Back? then Loop(to.t) else Jump(to.t));
  }

  /** Statements without statements inside. */
  lemma SealSimple(code: Listing, s: Stmt, p: nat, cx: Context, stop: Target, skip: Target, n: nat, out: set<nat>)
    requires s.ExprStmt? || s.Assign? || s.Print? || s.Throw? || s.Pass?
    requires LayoutS(code, s, p, cx, stop, skip) && |cx.locals| <= n
    ensures Sealed(code, n, out, p, p + SizeS(s, cx))
  {
    hide Sealed, Has, Walks, LayoutE, SizeE, LayoutStores, SizeStores;
    if s.Pass? {
      SealedNone(code, n, out, p);
    } else {
      var p1 := p + SizeE(s.e);
      SealTo(code, s.e, p, cx.locals, n, out);
      match s {
        case ExprStmt(e) => if Popped(e) { Step(code, n, out, p, p1, Instr.Pop); }
        case Assign(xs, e) => SealStores(code, xs, p, p1, cx.locals, n, out);
        case Print(e) => Step(code, n, out, p, p1, Output);
        case Throw(e) => Step(code, n, out, p, p1, Raise);
        case _ =>
      }
    }
  }

  lemma {:induction false} SealIf(code: Listing, c: Expr, thn: seq<Stmt>, els: seq<Stmt>, p: nat, cx: Context, stop: Target, skip: Target, n: nat, out: set<nat>)
    requires LayoutS(code, If(c, thn, els), p, cx, stop, skip) && DepthS(If(c, thn, els), cx) <= n
    requires !stop.Pending? && !skip.Pending? && stop.t in out && skip.t in out
    ensures Sealed(code, n, out, p, p + SizeS(If(c, thn, els), cx))
    decreases If(c, thn, els), 0
  {
    hide Sealed, Has, Walks, LayoutE, SizeE, LayoutB, SizeB, DepthB;
    var p1, end := p + SizeE(c), p + SizeS(If(c, thn, els), cx);
    var p2 := p1 + 4 + SizeB(thn, cx);
    var all := out + {end} + {p2 + 3};
    SealTo(code, c, p, cx.locals, n, all);
    Step(code, n, all, p, p1, JumpIfFalse(p2 + 3));
    Step(code, n, all, p, p1 + 3, Instr.Pop);
    SealB(code, thn, p1 + 4, cx, stop, skip, n, all);
    Join(code, n, all, p, p1 + 4, p2);
    Step(code, n, all, p, p2, Jump(end));
    Step(code, n, all, p, p2 + 3, Instr.Pop);
    SealB(code, els, p2 + 4, cx, stop, skip, n, all);
    Join(code, n, all, p, p2 + 4, end);
    SealedWalks(code, n, all, p, end);
    Discharge(code, n, out + {end}, p2 + 3, p, end);
    Discharge(code, n, out, end, p, end);
  }

  lemma {:induction false} SealUnless(code: Listing, c: Expr, body: seq<Stmt>, p: nat, cx: Context, stop: Target, skip: Target, n: nat, out: set<nat>)
    requires LayoutS(code, Unless(c, body), p, cx, stop, skip) && DepthS(Unless(c, body), cx) <= n
    requires !stop.Pending? && !skip.Pending? && stop.t in out && skip.t in out
    ensures Sealed(code, n, out, p, p + SizeS(Unless(c, body), cx))
    decreases Unless(c, body), 0
  {
    hide Sealed, Has, Walks, LayoutE, SizeE, LayoutB, SizeB, DepthB;
    var p1, end := p + SizeE(c), p + SizeS(Unless(c, body), cx);
    var all := out + {end} + {p1 + 7};
    SealTo(code, c, p, cx.locals, n, all);
    Step(code, n, all, p, p1, JumpIfFalse(p1 + 7));
    Step(code, n, all, p, p1 + 3, Instr.Pop);
    Step(code, n, all, p, p1 + 4, Jump(end));
    Step(code, n, all, p, p1 + 7, Instr.Pop);
    SealB(code, body, p1 + 8, cx, stop, skip, n, all);
    Join(code, n, all, p, p1 + 8, end);
    SealedWalks(code, n, all, p, end);
    Discharge(code, n, out + {end}, p1 + 7, p, end);
    Discharge(code, n, out, end, p, end);
  }

  lemma {:induction false} SealWhile(code: Listing, c: Expr, body: seq<Stmt>, p: nat, cx: Context, stop: Target, skip: Target, n: nat, out: set<nat>)
    requires LayoutS(code, While(c, body), p, cx, stop, skip) && DepthS(While(c, body), cx) <= n
    ensures Sealed(code, n, out, p, p + SizeS(While(c, body), cx))
    decreases While(c, body), 0
  {
    hide Sealed, Has, Walks, LayoutE, SizeE, LayoutB, SizeB, DepthB;
    var p1, end := p + SizeE(c), p + SizeS(While(c, body), cx);
    var inner := EnterLoop(cx, [], []);
    var p2 := p1 + 4 + SizeB(body, inner);
    var all := out + {p} + {end} + {p2 + 3};
    SealTo(code, c, p, cx.locals, n, all);
    Step(code, n, all, p, p1, JumpIfFalse(p2 + 3));
    Step(code, n, all, p, p1 + 3, Instr.Pop);
    SealB(code, body, p1 + 4, inner, Fwd(end), Back(p), n, all);
    Join(code, n, all, p, p1 + 4, p2);
    Step(code, n, all, p, p2, Loop(p));
    Step(code, n, all, p, p2 + 3, Instr.Pop);
    SealedWalks(code, n, all, p, end);
    WalksSame(code, p);
    Discharge(code, n, out + {p} + {end}, p2 + 3, p, end);
    Discharge(code, n, out + {p}, end, p, end);
    Discharge(code, n, out, p, p, end);
  }

  lemma WalksSame(code: Listing, p: nat)
    ensures Walks(code, p, p)
  {}

  lemma {:induction false} SealUntil(code: Listing, c: Expr, body: seq<Stmt>, p: nat, cx: Context, stop: Target, skip: Target, n: nat, out: set<nat>)
    requires LayoutS(code, Until(c, body), p, cx, stop, skip) && DepthS(Until(c, body), cx) <= n
    ensures Sealed(code, n, out, p, p + SizeS(Until(c, body), cx))
    decreases Until(c, body), 0
  {
    hide Sealed, Has, Walks, LayoutE, SizeE, LayoutB, SizeB, DepthB;
    var p1, end := p + SizeE(c), p + SizeS(Until(c, body), cx);
    var inner := EnterLoop(cx, [], []);
    var all := out + {p} + {end} + {p1 + 7};
    SealTo(code, c, p, cx.locals, n, all);
    Step(code, n, all, p, p1, JumpIfFalse(p1 + 7));
    Step(code, n, all, p, p1 + 3, Instr.Pop);
    Step(code, n, all, p, p1 + 4, Jump(end));
    Step(code, n, all, p, p1 + 7, Instr.Pop);
    SealB(code, body, p1 + 8, inner, Fwd(end), Back(p), n, all);
    Join(code, n, all, p, p1 + 8, p1 + 8 + SizeB(body, inner));
    Step(code, n, all, p, p1 + 8 + SizeB(body, inner), Loop(p));
    SealedWalks(code, n, all, p, end);
    WalksSame(code, p);
    Discharge(code, n, out + {p} + {end}, p1 + 7, p, end);
    Discharge(code, n, out + {p}, end, p, end);
    Discharge(code, n, out, p, p, end);
  }

  lemma {:induction false} SealForever(code: Listing, body: seq<Stmt>, p: nat, cx: Context, stop: Target, skip: Target, n: nat, out: set<nat>)
    requires LayoutS(code, Forever(body), p, cx, stop, skip) && DepthS(Forever(body), cx) <= n
    ensures Sealed(code, n, out, p, p + SizeS(Forever(body), cx))
    decreases Forever(body), 0
  {
    hide Sealed, Has, Walks, LayoutB, SizeB, DepthB;
    var end := p + SizeS(Forever(body), cx);
    var inner := EnterLoop(cx, [], []);
    var all := out + {p} + {end};
    SealB(code, body, p, inner, Fwd(end), Back(p), n, all);
    Step(code, n, all, p, p + SizeB(body, inner), Loop(p));
    SealedWalks(code, n, all, p, end);
    WalksSame(code, p);
    Discharge(code, n, out + {p}, end, p, end);
    Discharge(code, n, out, p, p, end);
  }

  lemma {:induction false} SealForIn(code: Listing, x: string, over: Expr, body: seq<Stmt>, p: nat, cx: Context, stop: Target, skip: Target, n: nat, out: set<nat>)
    requires LayoutS(code, ForIn(x, over, body), p, cx, stop, skip) && DepthS(ForIn(x, over, body), cx) <= n
    ensures Sealed(code, n, out, p, p + SizeS(ForIn(x, over, body), cx))
    decreases ForIn(x, over, body), 0
  {
    hide Sealed, Has, Walks, LayoutE, SizeE, LayoutB, SizeB, DepthB;
    var p1, end := p + SizeE(over), p + SizeS(ForIn(x, over, body), cx);
    var inner := EnterLoop(cx, ["_iter"], [x]);
    var p2 := p1 + 4 + SizeB(body, inner);
    var all := out + {p1 + 1} + {p2 + 4};
    SealTo(code, over, p, cx.locals, n, all);
    Step(code, n, all, p, p1, GetIter);
    Step(code, n, all, p, p1 + 1, ForIter(p2 + 4));
    SealB(code, body, p1 + 4, inner, Fwd(p2 + 4), Back(p1 + 1), n, all);
    Join(code, n, all, p, p1 + 4, p2);
    Step(code, n, all, p, p2, Instr.Pop);
    Step(code, n, all, p, p2 + 1, Loop(p1 + 1));
    Step(code, n, all, p, p2 + 4, Instr.Pop);
    Discharge(code, n, out + {p1 + 1}, p2 + 4, p, end);
    Discharge(code, n, out, p1 + 1, p, end);
  }

  /** Before and after the body of a counted loop. */
  lemma SealCountHead(code: Listing, a: nat, q: nat, k: nat, t: nat, n: nat, out: set<nat>)
    requires Has(code, q, GetLocal(k + 1)) && Has(code, q + 3, GetLocal(k)) && Has(code, q + 6, Operate(Less))
    requires Has(code, q + 7, JumpIfFalse(t)) && Has(code, q + 10, Instr.Pop)
    requires k + 1 < n && t in out && Sealed(code, n, out, a, q)
    ensures Sealed(code, n, out, a, q + 11)
  {
    hide Sealed, Has, Walks;
    Step(code, n, out, a, q, GetLocal(k + 1));
    Step(code, n, out, a, q + 3, GetLocal(k));
    Step(code, n, out, a, q + 6, Operate(Less));
    Step(code, n, out, a, q + 7, JumpIfFalse(t));
    Step(code, n, out, a, q + 10, Instr.Pop);
  }

  lemma SealCountTail(code: Listing, a: nat, q: nat, k: nat, t: nat, n: nat, out: set<nat>)
    requires Has(code, q, GetLocal(k + 1)) && Has(code, q + 3, Const(VNum(1.0))) && Has(code, q + 6, Operate(Add))
    requires Has(code, q + 7, SetLocal(k + 1)) && Has(code, q + 10, Instr.Pop) && Has(code, q + 11, Loop(t))
    requires Has(code, q + 14, Instr.Pop) && Has(code, q + 15, Instr.Pop) && Has(code, q + 16, Instr.Pop)
    requires k + 1 < n && t in out && Sealed(code, n, out, a, q)
    ensures Sealed(code, n, out, a, q + 17) && Walks(code, a, q) && Walks(code, a, q + 14) && Walks(code, a, q + 15)
  {
    hide Sealed, Has, Walks;
    Step(code, n, out, a, q, GetLocal(k + 1));
    Step(code, n, out, a, q + 3, Const(VNum(1.0)));
    Step(code, n, out, a, q + 6, Operate(Add));
    Step(code, n, out, a, q + 7, SetLocal(k + 1));
    Step(code, n, out, a, q + 10, Instr.Pop);
    Step(code, n, out, a, q + 11, Loop(t));
    Step(code, n, out, a, q + 14, Instr.Pop);
    Step(code, n, out, a, q + 15, Instr.Pop);
    Step(code, n, out, a, q + 16, Instr.Pop);
  }

  lemma {:induction false} SealRepeat(code: Listing, count: Expr, body: seq<Stmt>, p: nat, cx: Context, stop: Target, skip: Target, n: nat, out: set<nat>)
    requires LayoutS(code, Repeat(count, body), p, cx, stop, skip) && DepthS(Repeat(count, body), cx) <= n
    ensures Sealed(code, n, out, p, p + SizeS(Repeat(count, body), cx))
    decreases Repeat(count, body), 0
  {
    hide Sealed, Has, Walks, LayoutE, SizeE, LayoutB, SizeB, DepthB;
    var k := |cx.locals|;
    var p1, end := p + SizeE(count), p + SizeS(Repeat(count, body), cx);
    var inner := EnterLoop(cx, ["", ""], []);
    var p2 := p1 + 14 + SizeB(body, inner);
    var all := out + {p1 + 3} + {p2} + {p2 + 14} + {p2 + 15};
    SealTo(code, count, p, cx.locals, n, all);
    Step(code, n, all, p, p1, Const(VNum(0.0)));
    SealedWalks(code, n, all, p, p1 + 3);
    SealCountHead(code, p, p1 + 3, k, p2 + 14, n, all);
    SealB(code, body, p1 + 14, inner, Fwd(p2 + 15), Fwd(p2), n, all);
    Join(code, n, all, p, p1 + 14, p2);
    SealCountTail(code, p, p2, k, p1 + 3, n, all);
    Discharge(code, n, out + {p1 + 3} + {p2} + {p2 + 14}, p2 + 15, p, end);
    Discharge(code, n, out + {p1 + 3} + {p2}, p2 + 14, p, end);
    Discharge(code, n, out + {p1 + 3}, p2, p, end);
    Discharge(code, n, out, p1 + 3, p, end);
  }

  lemma {:induction false} SealTry(code: Listing, body: seq<Stmt>, x: string, handler: seq<Stmt>, p: nat, cx: Context, stop: Target, skip: Target, n: nat, out: set<nat>)
    requires LayoutS(code, Try(body, x, handler), p, cx, stop, skip) && DepthS(Try(body, x, handler), cx) <= n
    requires !stop.Pending? && !skip.Pending? && stop.t in out && skip.t in out
    ensures Sealed(code, n, out, p, p + SizeS(Try(body, x, handler), cx))
    decreases Try(body, x, handler), 0
  {
    hide Sealed, Has, Walks, LayoutB, SizeB, DepthB;
    var p1, end := p + 3 + SizeB(body, EnterTry(cx)), p + SizeS(Try(body, x, handler), cx);
    var inner := AddLocals(cx, [x]);
    var all := out + {end} + {p1 + 4};
    SealedNone(code, n, all, p);
    Step(code, n, all, p, p, BeginTry(p1 + 4));
    SealB(code, body, p + 3, EnterTry(cx), stop, skip, n, all);
    Join(code, n, all, p, p + 3, p1);
    Step(code, n, all, p, p1, EndTry);
    Step(code, n, all, p, p1 + 1, Jump(end));
    SealB(code, handler, p1 + 4, inner, stop, skip, n, all);
    Join(code, n, all, p, p1 + 4, p1 + 4 + SizeB(handler, inner));
    Step(code, n, all, p, p1 + 4 + SizeB(handler, inner), Instr.Pop);
    SealedWalks(code, n, all, p, end);
    Discharge(code, n, out + {end}, p1 + 4, p, end);
    Discharge(code, n, out, end, p, end);
  }

  lemma {:induction false} SealS(code: Listing, s: Stmt, p: nat, cx: Context, stop: Target, skip: Target, n: nat, out: set<nat>)
    requires LayoutS(code, s, p, cx, stop, skip) && DepthS(s, cx) <= n
    requires !stop.Pending? && !skip.Pending? && stop.t in out && skip.t in out
    ensures Sealed(code, n, out, p, p + SizeS(s, cx))
    decreases s, 1
  {
    hide Sealed, Walks, LayoutS, SizeS, DepthS;
    match s {
      case If(c, thn, els) => SealIf(code, c, thn, els, p, cx, stop, skip, n, out);
      case Unless(c, body) => SealUnless(code, c, body, p, cx, stop, skip, n, out);
      case While(c, body) => SealWhile(code, c, body, p, cx, stop, skip, n, out);
      case Until(c, body) => SealUntil(code, c, body, p, cx, stop, skip, n, out);
      case Forever(body) => SealForever(code, body, p, cx, stop, skip, n, out);
      case Repeat(count, body) => SealRepeat(code, count, body, p, cx, stop, skip, n, out);
      case ForIn(x, over, body) => SealForIn(code, x, over, body, p, cx, stop, skip, n, out);
      case Try(body, x, handler) => SealTry(code, body, x, handler, p, cx, stop, skip, n, out);
      case Stop => SealLeave(code, s, p, cx, stop, skip, n, out);
      case Skip => SealLeave(code, s, p, cx, stop, skip, n, out);
      case _ => SealSimple(code, s, p, cx, stop, skip, n, out);
    }
  }

  lemma {:induction false} SealB(code: Listing, b: seq<Stmt>, p: nat, cx: Context, stop: Target, skip: Target, n: nat, out: set<nat>)
    requires LayoutB(code, b, p, cx, stop, skip) && DepthB(b, cx) <= n
    requires !stop.Pending? && !skip.Pending? && stop.t in out && skip.t in out
    ensures Sealed(code, n, out, p, p + SizeB(b, cx))
    decreases b, 2
  {
    hide Sealed, Walks, LayoutS, SizeS, DepthS;
    if b == [] {
      SealedNone(code, n, out, p);
    } else {
      SealS(code, b[0], p, cx, stop, skip, n, out);
      SealB(code, b[1..], p + SizeS(b[0], cx), cx, stop, skip, n, out);
      Join(code, n, out, p, p + SizeS(b[0], cx), p + SizeB(b, cx));
    }
  }

  /** A whole script is sealed: all its jumps stay on its own instructions. */
  lemma SealScript(code: Listing, b: seq<Stmt>, n: nat)
    requires LayoutScript(code, b) && DepthB(b, ScriptContext) <= n
    ensures Sealed(code, n, {}, 0, SizeB(b, ScriptContext))
    ensures Has(code, SizeB(b, ScriptContext), PushNull) && Has(code, SizeB(b, ScriptContext) + 1, Instr.Return)
  {
    hide Sealed, Has, Walks, LayoutB, SizeB, DepthB;
    SealB(code, b, 0, ScriptContext, Fwd(0), Fwd(0), n, {} + {0});
    WalksSame(code, 0);
    Discharge(code, n, {}, 0, 0, SizeB(b, ScriptContext));
  }
}
