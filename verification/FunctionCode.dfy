/**
 * The code emitted for the body of a function, where an assignment to a new name makes a new local
 * that stays on the stack, and where `if` makes the locals of its branches beforehand. The code is
 * kept by its effect on the heights of the value stack and of the try stack; at every statement
 * boundary a mark records what the compiler believes those heights to be.
 */
module FunctionCode {

  datatype Op =
    | Mark(locals: nat, tries: nat)
    | Use(pops: nat, pushes: nat)   // may raise an error
    | Move(pops: nat, pushes: nat)  // never does
    | Pop
    | Jump(target: nat)
    | JumpIfFalse(target: nat)
    | ForIter(target: nat)
    | Try(target: nat)
    | EndTry
    | Throw
    | Return

  /** An operation may fail or, like a comparison, may not. */
  datatype Expr = Atom | Operate(args: seq<Expr>, fails: bool) | And(l: Expr, r: Expr) | Or(l: Expr, r: Expr)

  datatype Stmt =
    | Do(e: Expr)
    | Leave(e: Expr)   // true, false, a list, a dictionary, an element or a function: its value is not popped
    | Print(e: Expr)
    | Assign(x: string, e: Expr)
    | If(c: Expr, thn: seq<Stmt>, els: seq<Stmt>)
    | Unless(c: Expr, body: seq<Stmt>)
    | While(c: Expr, body: seq<Stmt>)
    | Until(c: Expr, body: seq<Stmt>)
    | Forever(body: seq<Stmt>)
    | Repeat(count: Expr, body: seq<Stmt>)
    | ForIn(x: string, over: Expr, body: seq<Stmt>)
    | TryCatch(body: seq<Stmt>, x: string, handler: seq<Stmt>)
    | Raise(e: Expr)
    | Give(e: Expr)
    | Stop
    | Skip
    | Pass

  /** The innermost loop: where stop and skip go, and the heights there. */
  datatype Loop = Loop(locals: nat, tries: nat, stop: nat, skip: nat)

  datatype Option<T> = None | Some(value: T)

  /** The locals by slot, the open try blocks, the innermost loop, and the names found in enclosing functions. */
  datatype Context = Context(locals: seq<string>, tries: nat, loop: Option<Loop>, outer: set<string>)

  // ---- Which locals a statement leaves ----

  predicate Known(x: string, locals: seq<string>, outer: set<string>) { x in locals || x in outer }

  /** The names that the branches of an `if` will make, in the order they are met. */
  function Shallow(b: seq<Stmt>, locals: seq<string>, outer: set<string>, names: seq<string>): seq<string>
    decreases b
  {
    if b == [] then names
    else
      var more :=
        match b[0]
        case Assign(x, _) => if Known(x, locals, outer) || x in names then names else names + [x]
        case If(_, thn, els) => Shallow(els, locals, outer, Shallow(thn, locals, outer, names))
        case TryCatch(body, _, _) => Shallow(body, locals, outer, names)
        case _ => names;
      Shallow(b[1..], locals, outer, more)
  }

  function Hoisted(thn: seq<Stmt>, els: seq<Stmt>, locals: seq<string>, outer: set<string>): seq<string> {
    Shallow(els, locals, outer, Shallow(thn, locals, outer, []))
  }

  function After(s: Stmt, locals: seq<string>, outer: set<string>): (after: seq<string>)
    ensures |after| >= |locals|
    decreases s
  {
    match s
    case Assign(x, _) => if Known(x, locals, outer) then locals else locals + [x]
    case If(_, thn, els) =>
      var inner := locals + Hoisted(thn, els, locals, outer);
      AfterAll(els, AfterAll(thn, inner, outer), outer)
    case Unless(_, body) => AfterAll(body, locals, outer)
    case TryCatch(body, _, _) => AfterAll(body, locals, outer)
    case _ => locals
  }

  function AfterAll(b: seq<Stmt>, locals: seq<string>, outer: set<string>): (after: seq<string>)
    ensures |after| >= |locals|
    decreases b
  {
    if b == [] then locals else AfterAll(b[1..], After(b[0], locals, outer), outer)
  }

  // ---- Code ----

  function Times(op: Op, n: nat): seq<Op> { seq(n, _ => op) }

  function SizeE(e: Expr): (n: nat)
    ensures n >= 1
  {
    match e
    case Atom => 1
    case Operate(args, _) => SizeEs(args) + 1
    case And(l, r) => SizeE(l) + 2 + SizeE(r)
    case Or(l, r) => SizeE(l) + 3 + SizeE(r)
  }

  function SizeEs(es: seq<Expr>): nat { if es == [] then 0 else SizeE(es[0]) + SizeEs(es[1..]) }

  /** The right side is left out, to t, if the left is false. */
  function AndCode(l: seq<Op>, t: nat, r: seq<Op>): (code: seq<Op>)
    ensures |code| == |l| + 2 + |r|
  {
    l + [JumpIfFalse(t), Pop] + r
  }

  /** The right side, from q on, is left out, to t, if the left is true. */
  function OrCode(l: seq<Op>, q: nat, t: nat, r: seq<Op>): (code: seq<Op>)
    ensures |code| == |l| + 3 + |r|
  {
    l + [JumpIfFalse(q), Jump(t), Pop] + r
  }

  function CodeE(e: Expr, p: nat): (code: seq<Op>)
    ensures |code| == SizeE(e)
    decreases e, 1
  {
    match e
    case Atom => [Move(0, 1)]
    case Operate(args, fails) => OperateE(args, fails, p)
    case And(l, r) => AndE(l, r, p)
    case Or(l, r) => OrE(l, r, p)
  }

  function OperateE(args: seq<Expr>, fails: bool, p: nat): (code: seq<Op>)
    ensures |code| == SizeEs(args) + 1
    decreases Operate(args, fails), 0
  {
    CodeEs(args, p) + [if fails then Use(|args|, 1) else Move(|args|, 1)]
  }

  function AndE(l: Expr, r: Expr, p: nat): (code: seq<Op>)
    ensures |code| == SizeE(l) + 2 + SizeE(r)
    decreases And(l, r), 0
  {
    var p1 := p + SizeE(l);
    AndCode(CodeE(l, p), p1 + 2 + SizeE(r), CodeE(r, p1 + 2))
  }

  function OrE(l: Expr, r: Expr, p: nat): (code: seq<Op>)
    ensures |code| == SizeE(l) + 3 + SizeE(r)
    decreases Or(l, r), 0
  {
    var p1 := p + SizeE(l);
    OrCode(CodeE(l, p), p1 + 2, p1 + 3 + SizeE(r), CodeE(r, p1 + 3))
  }

  function CodeEs(es: seq<Expr>, p: nat): (code: seq<Op>)
    ensures |code| == SizeEs(es)
    decreases es, 2
  {
    if es == [] then [] else CodeE(es[0], p) + CodeEs(es[1..], p + SizeE(es[0]))
  }

  /** How many locals a scoped body leaves for the end of the scope to pop. */
  function Scoped(b: seq<Stmt>, locals: seq<string>, outer: set<string>, base: nat): nat
    requires base <= |locals|
  {
    |AfterAll(b, locals, outer)| - base
  }

  function Leaving(cx: Context): nat {
    if cx.loop.None? then 0
    else (if cx.tries >= cx.loop.value.tries then cx.tries - cx.loop.value.tries else 0)
         + (if |cx.locals| >= cx.loop.value.locals then |cx.locals| - cx.loop.value.locals else 0)
  }

  function LeaveCode(cx: Context): (code: seq<Op>)
    ensures |code| == Leaving(cx)
  {
    if cx.loop.None? then []
    else Times(EndTry, if cx.tries >= cx.loop.value.tries then cx.tries - cx.loop.value.tries else 0)
         + Times(Pop, if |cx.locals| >= cx.loop.value.locals then |cx.locals| - cx.loop.value.locals else 0)
  }

  function InLoop(cx: Context, kept: seq<string>, vars: seq<string>, stop: nat, skip: nat): Context {
    Context(cx.locals + kept + vars, cx.tries, Some(Loop(|cx.locals + kept|, cx.tries, stop, skip)), cx.outer)
  }

  /** Sizes do not depend on where a loop is left to. */
  function SizeS(s: Stmt, cx: Context): nat
    decreases s, 0
  {
    match s
    case Do(e) => SizeE(e) + 1
    case Leave(e) => SizeE(e)
    case Print(e) => SizeE(e) + 1
    case Assign(x, e) => SizeE(e) + (if Known(x, cx.locals, cx.outer) then 2 else 0)
    case If(c, thn, els) =>
      var h := Hoisted(thn, els, cx.locals, cx.outer);
      var inner := cx.(locals := cx.locals + h);
      SizeE(c) + 2 + |h| + SizeB(thn, inner) + 2 + |h| + SizeB(els, inner.(locals := AfterAll(thn, inner.locals, cx.outer)))
    case Unless(c, body) => SizeE(c) + 4 + SizeB(body, cx)
    case While(c, body) => SizeE(c) + 2 + SizeScope(body, InLoop(cx, [], [], 0, 0), |cx.locals|) + 2
    case Until(c, body) => SizeE(c) + 4 + SizeScope(body, InLoop(cx, [], [], 0, 0), |cx.locals|) + 1
    case Forever(body) => SizeScope(body, InLoop(cx, [], [], 0, 0), |cx.locals|) + 1
    case Repeat(count, body) => SizeE(count) + 6 + SizeScope(body, InLoop(cx, ["", ""], [], 0, 0), |cx.locals| + 2) + 9
    case ForIn(x, over, body) => SizeE(over) + 2 + SizeScope(body, InLoop(cx, ["_iter"], [x], 0, 0), |cx.locals| + 1) + 2
    case TryCatch(body, x, handler) =>
      1 + SizeB(body, cx.(tries := cx.tries + 1)) + 2
      + SizeScope(handler, cx.(locals := AfterAll(body, cx.locals, cx.outer) + [x]), |AfterAll(body, cx.locals, cx.outer)|)
    case Raise(e) => SizeE(e) + 1
    case Give(e) => SizeE(e) + 1
    case Stop => Leaving(cx) + 1
    case Skip => Leaving(cx) + 1
    case Pass => 0
  }

  /** A block, with a mark at each of its statement boundaries. */
  function SizeB(b: seq<Stmt>, cx: Context): nat
    decreases b, 0
  {
    if b == [] then 1 else 1 + SizeS(b[0], cx) + SizeB(b[1..], cx.(locals := After(b[0], cx.locals, cx.outer)))
  }

  /** A block whose own locals are popped at its end, down to base. */
  function SizeScope(b: seq<Stmt>, cx: Context, base: nat): nat
    decreases b, 1
  {
    SizeB(b, cx) + (if base <= |cx.locals| then Scoped(b, cx.locals, cx.outer, base) else 0)
  }

  function CodeS(s: Stmt, p: nat, cx: Context): seq<Op>
    decreases s, 0
  {
    match s
    case Do(e) => CodeE(e, p) + [Pop]
    case Leave(e) => CodeE(e, p)
    case Print(e) => CodeE(e, p) + [Move(1, 0)]
    case Assign(x, e) => CodeE(e, p) + (if Known(x, cx.locals, cx.outer) then [Move(1, 1), Pop] else [])
    case If(c, thn, els) =>
      var h := Hoisted(thn, els, cx.locals, cx.outer);
      var inner := cx.(locals := cx.locals + h);
      var inner2 := inner.(locals := AfterAll(thn, inner.locals, cx.outer));
      var p1 := p + SizeE(c) + 2 + |h|;
      var p2 := p1 + SizeB(thn, inner) + 1;
      CodeE(c, p) + [JumpIfFalse(p2), Pop] + Times(Move(0, 1), |h|) + CodeB(thn, p1, inner)
      + [Jump(p2 + 1 + |h| + SizeB(els, inner2)), Pop] + Times(Move(0, 1), |h|) + CodeB(els, p2 + 1 + |h|, inner2)
    case Unless(c, body) =>
      var p1 := p + SizeE(c);
      CodeE(c, p) + [JumpIfFalse(p1 + 3), Pop, Jump(p1 + 4 + SizeB(body, cx)), Pop] + CodeB(body, p1 + 4, cx)
    case While(c, body) =>
      var p1 := p + SizeE(c) + 2;
      var inner := InLoop(cx, [], [], p + SizeS(s, cx), p);
      var p2 := p1 + SizeScope(body, inner, |cx.locals|);
      CodeE(c, p) + [JumpIfFalse(p2 + 1), Pop] + CodeScope(body, p1, inner, |cx.locals|) + [Jump(p), Pop]
    case Until(c, body) =>
      var p1 := p + SizeE(c);
      var inner := InLoop(cx, [], [], p + SizeS(s, cx), p);
      CodeE(c, p) + [JumpIfFalse(p1 + 3), Pop, Jump(p + SizeS(s, cx)), Pop]
      + CodeScope(body, p1 + 4, inner, |cx.locals|) + [Jump(p)]
    case Forever(body) =>
      var inner := InLoop(cx, [], [], p + SizeS(s, cx), p);
      CodeScope(body, p, inner, |cx.locals|) + [Jump(p)]
    case Repeat(count, body) =>
      var p1 := p + SizeE(count) + 1;
      var inner0 := InLoop(cx, ["", ""], [], 0, 0);
      var p2 := p1 + 5 + SizeScope(body, inner0, |cx.locals| + 2);
      var inner := InLoop(cx, ["", ""], [], p2 + 7, p2);
      CodeE(count, p) + [Move(0, 1), Move(0, 1), Move(0, 1), Move(2, 1), JumpIfFalse(p2 + 6), Pop]
      + CodeScope(body, p1 + 5, inner, |cx.locals| + 2)
      + [Move(0, 1), Move(0, 1), Move(2, 1), Move(1, 1), Pop, Jump(p1), Pop, Pop, Pop]
    case ForIn(x, over, body) =>
      var p1 := p + SizeE(over) + 1;
      var p2 := p1 + 1 + SizeScope(body, InLoop(cx, ["_iter"], [x], 0, 0), |cx.locals| + 1);
      var inner := InLoop(cx, ["_iter"], [x], p2 + 1, p1);
      CodeE(over, p) + [Move(1, 1), ForIter(p2 + 1)] + CodeScope(body, p1 + 1, inner, |cx.locals| + 1) + [Jump(p1), Pop]
    case TryCatch(body, x, handler) =>
      var after := AfterAll(body, cx.locals, cx.outer);
      var p1 := p + 1 + SizeB(body, cx.(tries := cx.tries + 1));
      [Try(p1 + 2)] + CodeB(body, p + 1, cx.(tries := cx.tries + 1)) + [EndTry, Jump(p + SizeS(s, cx))]
      + CodeScope(handler, p1 + 2, cx.(locals := after + [x]), |after|)
    case Raise(e) => CodeE(e, p) + [Throw]
    case Give(e) => CodeE(e, p) + [Return]
    case Stop => LeaveCode(cx) + [Jump(if cx.loop.Some? then cx.loop.value.stop else 0)]
    case Skip => LeaveCode(cx) + [Jump(if cx.loop.Some? then cx.loop.value.skip else 0)]
    case Pass => []
  }

  function CodeB(b: seq<Stmt>, p: nat, cx: Context): seq<Op>
    decreases b, 0
  {
    [Mark(|cx.locals|, cx.tries)]
    + (if b == [] then []
       else CodeS(b[0], p + 1, cx) + CodeB(b[1..], p + 1 + SizeS(b[0], cx), cx.(locals := After(b[0], cx.locals, cx.outer))))
  }

  function CodeScope(b: seq<Stmt>, p: nat, cx: Context, base: nat): seq<Op>
    decreases b, 1
  {
    CodeB(b, p, cx) + Times(Pop, if base <= |cx.locals| then Scoped(b, cx.locals, cx.outer, base) else 0)
  }

  /** The whole function: the body, and then null is returned. Slot 0 and the arguments are there from the start. */
  function FunctionBody(args: seq<string>, outer: set<string>, body: seq<Stmt>): seq<Op> {
    CodeB(body, 0, Context([""] + args, 0, None, outer)) + [Move(0, 1), Return]
  }

  // ---- Sizes ----

  /** Two contexts that differ only in the addresses of their loop. */
  predicate SameShape(a: Context, b: Context) {
    && a.locals == b.locals && a.tries == b.tries && a.outer == b.outer && (a.loop.Some? <==> b.loop.Some?)
    && (a.loop.Some? ==> a.loop.value.locals == b.loop.value.locals && a.loop.value.tries == b.loop.value.tries)
  }

  lemma {:induction false} SizeSame(s: Stmt, a: Context, b: Context)
    requires SameShape(a, b)
    ensures SizeS(s, a) == SizeS(s, b)
    decreases s, 1
  {
    hide SizeB, SizeScope, Hoisted, AfterAll, SizeE;
    match s
    case If(c, thn, els) => SizeSameIf(c, thn, els, a, b);
    case Unless(c, body) => SizesSame(body, a, b);
    case TryCatch(body, x, handler) => SizeSameTry(body, x, handler, a, b);
    case _ => SizeSameRest(s, a, b);
  }

  /** The body of a loop is measured in the same context on both sides. */
  lemma SizeSameRest(s: Stmt, a: Context, b: Context)
    requires SameShape(a, b) && !s.If? && !s.Unless? && !s.TryCatch?
    ensures SizeS(s, a) == SizeS(s, b)
  {
    hide SizeB, SizeScope, SizeE;
  }

  lemma {:induction false} SizeSameIf(c: Expr, thn: seq<Stmt>, els: seq<Stmt>, a: Context, b: Context)
    requires SameShape(a, b)
    ensures SizeS(If(c, thn, els), a) == SizeS(If(c, thn, els), b)
    decreases If(c, thn, els), 0
  {
    hide SizeB, Hoisted, AfterAll, SizeE;
    var h := Hoisted(thn, els, a.locals, a.outer);
    SizesSame(thn, a.(locals := a.locals + h), b.(locals := b.locals + h));
    var after := AfterAll(thn, a.locals + h, a.outer);
    SizesSame(els, a.(locals := after), b.(locals := after));
  }

  lemma {:induction false} SizeSameTry(body: seq<Stmt>, x: string, handler: seq<Stmt>, a: Context, b: Context)
    requires SameShape(a, b)
    ensures SizeS(TryCatch(body, x, handler), a) == SizeS(TryCatch(body, x, handler), b)
    decreases TryCatch(body, x, handler), 0
  {
    hide SizeB, AfterAll;
    SizesSame(body, a.(tries := a.tries + 1), b.(tries := b.tries + 1));
    var after := AfterAll(body, a.locals, a.outer);
    SizesSame(handler, a.(locals := after + [x]), b.(locals := after + [x]));
  }

  lemma {:induction false} SizesSame(b: seq<Stmt>, a: Context, c: Context)
    requires SameShape(a, c)
    ensures SizeB(b, a) == SizeB(b, c)
    decreases b, 0
  {
    hide SizeS, After;
    if b != [] {
      SizeSame(b[0], a, c);
      var after := After(b[0], a.locals, a.outer);
      SizesSame(b[1..], a.(locals := after), c.(locals := after));
    }
  }

  lemma {:induction false} CodeSizeS(s: Stmt, p: nat, cx: Context)
    ensures |CodeS(s, p, cx)| == SizeS(s, cx)
    decreases s, 2
  {
    hide AfterAll, Hoisted, CodeE, SizeE, Leaving, LeaveCode, SizeB, CodeB, Scoped, SizeScope, CodeScope;
    match s
    case If(c, thn, els) => CodeSizeIf(c, thn, els, p, cx);
    case Unless(c, body) => CodeSizeB(body, p + SizeE(c) + 4, cx);
    case While(_, _) => CodeSizeLoop(s, p, cx);
    case Until(_, _) => CodeSizeLoop(s, p, cx);
    case Forever(_) => CodeSizeLoop(s, p, cx);
    case Repeat(count, body) => CodeSizeRepeat(count, body, p, cx);
    case ForIn(x, over, body) => CodeSizeForIn(x, over, body, p, cx);
    case TryCatch(body, x, handler) =>
      var after := AfterAll(body, cx.locals, cx.outer);
      var p1 := p + 1 + SizeB(body, cx.(tries := cx.tries + 1));
      CodeSizeB(body, p + 1, cx.(tries := cx.tries + 1));
      CodeSizeScope(handler, p1 + 2, cx.(locals := after + [x]), |after|, cx.(locals := after + [x]));
    case _ =>
  }

  lemma {:induction false} CodeSizeLoop(s: Stmt, p: nat, cx: Context)
    requires s.While? || s.Until? || s.Forever?
    ensures |CodeS(s, p, cx)| == SizeS(s, cx)
    decreases s, 1
  {
    hide CodeE, SizeE, SizeScope, CodeScope;
    var start := if s.While? then p + SizeE(s.c) + 2 else if s.Until? then p + SizeE(s.c) + 4 else p;
    CodeSizeScope(s.body, start, InLoop(cx, [], [], p + SizeS(s, cx), p), |cx.locals|, InLoop(cx, [], [], 0, 0));
  }

  lemma {:induction false} CodeSizeRepeat(count: Expr, body: seq<Stmt>, p: nat, cx: Context)
    ensures |CodeS(Repeat(count, body), p, cx)| == SizeS(Repeat(count, body), cx)
    decreases Repeat(count, body), 1
  {
    hide CodeE, SizeE, SizeScope, CodeScope;
    var p1 := p + SizeE(count) + 1;
    var p2 := p1 + 5 + SizeScope(body, InLoop(cx, ["", ""], [], 0, 0), |cx.locals| + 2);
    CodeSizeScope(body, p1 + 5, InLoop(cx, ["", ""], [], p2 + 7, p2), |cx.locals| + 2, InLoop(cx, ["", ""], [], 0, 0));
  }

  lemma {:induction false} CodeSizeForIn(x: string, over: Expr, body: seq<Stmt>, p: nat, cx: Context)
    ensures |CodeS(ForIn(x, over, body), p, cx)| == SizeS(ForIn(x, over, body), cx)
    decreases ForIn(x, over, body), 1
  {
    hide CodeE, SizeE, SizeScope, CodeScope;
    var p1 := p + SizeE(over) + 1;
    var p2 := p1 + 1 + SizeScope(body, InLoop(cx, ["_iter"], [x], 0, 0), |cx.locals| + 1);
    CodeSizeScope(body, p1 + 1, InLoop(cx, ["_iter"], [x], p2 + 1, p1), |cx.locals| + 1, InLoop(cx, ["_iter"], [x], 0, 0));
  }

  lemma {:induction false} CodeSizeIf(c: Expr, thn: seq<Stmt>, els: seq<Stmt>, p: nat, cx: Context)
    ensures |CodeS(If(c, thn, els), p, cx)| == SizeS(If(c, thn, els), cx)
    decreases If(c, thn, els), 1
  {
    hide AfterAll, Hoisted, CodeE, SizeE, SizeB, CodeB;
    var h := Hoisted(thn, els, cx.locals, cx.outer);
    var inner := cx.(locals := cx.locals + h);
    var p1 := p + SizeE(c) + 2 + |h|;
    var p2 := p1 + SizeB(thn, inner) + 1;
    CodeSizeB(thn, p1, inner);
    CodeSizeB(els, p2 + 1 + |h|, inner.(locals := AfterAll(thn, inner.locals, cx.outer)));
  }

  lemma {:induction false} CodeSizeB(b: seq<Stmt>, p: nat, cx: Context)
    ensures |CodeB(b, p, cx)| == SizeB(b, cx)
    decreases b, 0
  {
    hide SizeS, CodeS, After;
    if b != [] {
      CodeSizeS(b[0], p + 1, cx);
      CodeSizeB(b[1..], p + 1 + SizeS(b[0], cx), cx.(locals := After(b[0], cx.locals, cx.outer)));
    }
  }

  lemma {:induction false} CodeSizeScope(b: seq<Stmt>, p: nat, cx: Context, base: nat, other: Context)
    requires SameShape(cx, other)
    ensures |CodeScope(b, p, cx, base)| == SizeScope(b, cx, base) == SizeScope(b, other, base)
    decreases b, 1
  {
    hide SizeB, CodeB, AfterAll;
    CodeSizeB(b, p, cx);
    SizesSame(b, cx, other);
  }
}
