/**
 * Code generation for functions inside functions: closures and the variables they capture, calls,
 * and the locals of each function. Jumps are kept by the number of bytes they pass over.
 */
module ClosureCode {
  import opened Bytes
  import opened Values
  import opened Bytecode

  // ---- Programs ----

  /** One-byte instructions that work on the values on top of the stack. */
  predicate IsOperator(op: byte) {
    OP_EQUAL <= op <= OP_NEGATE || OP_MOD <= op < OP_IMPORT || op in {OP_IN, OP_NOT_IN, OP_FLOORDIV}
  }

  type Operator = op: byte | IsOperator(op) witness OP_ADD

  datatype Expr =
    | Literal
    | Truth(b: bool)
    | Name(x: string)
    | Unary(op: Operator, e: Expr)
    | Binary(op: Operator, l: Expr, r: Expr)
    | And(l: Expr, r: Expr)
    | Or(l: Expr, r: Expr)
    | List(items: seq<Expr>)
    | Index(obj: Expr, index: Expr)
    | Property(obj: Expr)
    | Method(obj: Expr, args: seq<Expr>)
    | Call(callee: Expr, args: seq<Expr>)
    | Lambda(params: seq<string>, result: Expr)
    | LambdaBlock(params: seq<string>, body: seq<Stmt>)

  datatype Stmt =
    | Do(e: Expr)
    | Print(e: Expr)
    | Assign(x: string, e: Expr)
    | If(c: Expr, thn: seq<Stmt>, els: seq<Stmt>)
    | Unless(c: Expr, body: seq<Stmt>)
    | While(c: Expr, body: seq<Stmt>)
    | Until(c: Expr, body: seq<Stmt>)
    | Forever(body: seq<Stmt>)
    | Repeat(count: Expr, body: seq<Stmt>)
    | ForIn(x: string, over: Expr, body: seq<Stmt>)
    | Try(body: seq<Stmt>, x: string, handler: seq<Stmt>)
    | Throw(e: Expr)
    | Return(value: Option<Expr>)
    | Stop
    | Skip
    | Def(name: string, params: seq<string>, defaults: seq<Expr>, body: seq<Stmt>)

  // ---- Code ----

  /** A variable of the enclosing function: one of its locals, or one of its upvalues. */
  datatype Captured = Captured(index: nat, isLocal: bool)

  datatype Ins =
    | Plain(op: byte)
    | Const(op: byte, index: nat)
    | Slot(op: byte, slot: nat)
    | Upvalue(op: byte, index: nat)
    | Count(op: byte, n: nat)
    | Invoke(index: nat, n: nat)
    | Closure(index: nat, captured: seq<Captured>)
    | Hop(op: byte, over: nat)
    | Rewind(over: nat)
    | Exit    // a stop whose loop is still being compiled
    | Again   // a skip whose loop is still being compiled

  function Len(i: Ins): (n: nat)
    ensures n >= 1
  {
    match i
    case Plain(_) => 1
    case Count(_, _) => 2
    case Invoke(_, _) => 4
    case Closure(_, captured) => 3 + 3 * |captured|
    case _ => 3
  }

  function Size(code: seq<Ins>): nat { if code == [] then 0 else Size(code[..|code| - 1]) + Len(code[|code| - 1]) }

  // ---- The state of a function that is being compiled ----

  datatype Local = Local(name: string, depth: nat, captured: bool)

  /** A value, the name of a global, or a function. */
  datatype Constant = Data | Text(x: string) | Code(code: seq<Ins>, constants: seq<Constant>, upvalues: nat, peak: nat)

  /** Peak is the most locals there have been at once. */
  datatype Fn = Top | Fn(enclosing: Fn, depth: nat, tries: nat, locals: seq<Local>, upvalues: seq<Captured>, constants: seq<Constant>, peak: nat)

  /** How many functions are being compiled, one inside the other. */
  function Rank(f: Fn): (n: nat)
    ensures n == 0 <==> f.Top?
  {
    if f.Top? then 0 else 1 + Rank(f.enclosing)
  }

  /** The innermost loop, by the scope and the open try blocks it stands in. */
  datatype Loop = NoLoop | InLoop(depth: nat, tries: nat)

  datatype Made = Made(code: seq<Ins>, fn: Fn)

  function Max(a: nat, b: nat): nat { if a < b then b else a }

  function Declare(f: Fn, x: string): Fn
    requires f.Fn?
  {
    f.(locals := f.locals + [Local(x, f.depth, false)], peak := Max(f.peak, |f.locals| + 1))
  }

  function DeclareAll(f: Fn, xs: seq<string>): (g: Fn)
    requires f.Fn?
    ensures g.Fn? && g.enclosing == f.enclosing
    decreases |xs|
  {
    if xs == [] then f else DeclareAll(Declare(f, xs[0]), xs[1..])
  }

  function Begin(enclosing: Fn, params: seq<string>): (f: Fn)
    ensures f.Fn? && Rank(f) == 1 + Rank(enclosing)
  {
    DeclareAll(Fn(enclosing, 1, 0, [Local("", 0, false)], [], [], 1), params)
  }

  /** The latest local of the name. */
  function FindLocal(locals: seq<Local>, x: string): (r: Option<nat>)
    ensures r.Some? ==> r.value < |locals|
  {
    if locals == [] then None
    else if locals[|locals| - 1].name == x then Some(|locals| - 1)
    else FindLocal(locals[..|locals| - 1], x)
  }

  function FindCaptured(upvalues: seq<Captured>, c: Captured): (r: Option<nat>)
    ensures r.Some? ==> r.value < |upvalues|
  {
    if upvalues == [] then None
    else match FindCaptured(upvalues[..|upvalues| - 1], c)
      case Some(i) => Some(i)
      case None => if upvalues[|upvalues| - 1] == c then Some(|upvalues| - 1) else None
  }

  function AddUpvalue(f: Fn, c: Captured): (Fn, Option<nat>)
    requires f.Fn?
  {
    match FindCaptured(f.upvalues, c)
    case Some(i) => (f, Some(i))
    case None => (f.(upvalues := f.upvalues + [c]), Some(|f.upvalues|))
  }

  /** Looks a name up in the functions around; what is found is passed down from each to the next. */
  function Capture(f: Fn, x: string): (r: (Fn, Option<nat>))
    requires f.Fn?
    ensures r.0.Fn? && Rank(r.0) == Rank(f)
    decreases f
  {
    if f.enclosing.Top? then (f, None)
    else
      match FindLocal(f.enclosing.locals, x)
      case Some(i) =>
        var outer := f.enclosing.(locals := f.enclosing.locals[i := f.enclosing.locals[i].(captured := true)]);
        AddUpvalue(f.(enclosing := outer), Captured(i, true))
      case None =>
        var (outer, up) := Capture(f.enclosing, x);
        match up
        case Some(u) => AddUpvalue(f.(enclosing := outer), Captured(u, false))
        case None => (f.(enclosing := outer), None)
  }

  function AddConstant(f: Fn, c: Constant): Fn
    requires f.Fn?
  {
    f.(constants := f.constants + [c])
  }

  // ---- Putting code together ----

  function Start(f: Fn): Made { Made([], f) }

  function Emit(m: Made, i: Ins): Made { Made(m.code + [i], m.fn) }

  function Join(a: Made, b: Made): Made { Made(a.code + b.code, b.fn) }

  /** A jump between a and b, over the first n bytes of b. */
  function JumpOver(a: Made, op: byte, n: nat, b: Made): Made { Made(a.code + [Hop(op, n)] + b.code, b.fn) }

  function EmitConstant(m: Made, op: byte, c: Constant): Made
    requires m.fn.Fn?
  {
    Made(m.code + [Const(op, |m.fn.constants|)], AddConstant(m.fn, c))
  }

  /** Reads a variable: a local, one of a function around, or a global. */
  function Read(f: Fn, x: string): Made
    requires f.Fn?
  {
    match FindLocal(f.locals, x)
    case Some(i) => Emit(Start(f), Slot(OP_GET_LOCAL, i))
    case None =>
      var (g, up) := Capture(f, x);
      match up
      case Some(u) => Emit(Start(g), Upvalue(OP_GET_UPVALUE, u))
      case None => EmitConstant(Start(g), OP_GET_GLOBAL, Text(x))
  }

  /** Stores the value on top of the stack; in a function a new name keeps it there as a local. */
  function Store(f: Fn, x: string): Made
    requires f.Fn?
  {
    match FindLocal(f.locals, x)
    case Some(i) => Emit(Emit(Start(f), Slot(OP_SET_LOCAL, i)), Plain(OP_POP))
    case None =>
      var (g, up) := Capture(f, x);
      match up
      case Some(u) => Emit(Emit(Start(g), Upvalue(OP_SET_UPVALUE, u)), Plain(OP_POP))
      case None =>
        if g.enclosing.Fn? && g.depth > 0 then Start(Declare(g, x)) else EmitConstant(Start(g), OP_DEFINE_GLOBAL, Text(x))
  }

  // ---- Scopes ----

  function PopsAbove(locals: seq<Local>, d: nat): seq<Ins> {
    if locals == [] || locals[|locals| - 1].depth <= d then []
    else [Plain(if locals[|locals| - 1].captured then OP_CLOSE_UPVALUE else OP_POP)] + PopsAbove(locals[..|locals| - 1], d)
  }

  function LocalsWithin(locals: seq<Local>, d: nat): (r: seq<Local>)
    ensures |r| <= |locals|
  {
    if locals == [] || locals[|locals| - 1].depth <= d then locals else LocalsWithin(locals[..|locals| - 1], d)
  }

  function Deeper(f: Fn): Fn
    requires f.Fn?
  {
    f.(depth := f.depth + 1)
  }

  /** Ends the scope m was made in: its locals are taken off the stack. */
  function EndScope(m: Made): Made
    requires m.fn.Fn?
  {
    var d := if m.fn.depth > 0 then m.fn.depth - 1 else 0;
    Made(m.code + PopsAbove(m.fn.locals, d), m.fn.(depth := d, locals := LocalsWithin(m.fn.locals, d)))
  }

  function Forget(f: Fn, n: nat): Fn
    requires f.Fn?
  {
    f.(locals := f.locals[..if n <= |f.locals| then |f.locals| - n else 0])
  }

  function Copies(i: Ins, n: nat): seq<Ins> { seq(n, _ => i) }

  /** On the way out of a loop, open try blocks are closed and locals taken off the stack. */
  function LeaveLoop(f: Fn, loop: Loop): seq<Ins>
    requires f.Fn?
  {
    if loop.NoLoop? then []
    else Copies(Plain(OP_END_TRY), if f.tries >= loop.tries then f.tries - loop.tries else 0) + PopsAbove(f.locals, loop.depth)
  }

  /** The stops and skips of a finished loop are sent to their targets. */
  function Resolved(i: Ins, p: nat, stop: nat, skip: nat): (r: Ins)
    ensures Len(r) == Len(i)
  {
    match i
    case Exit => if stop >= p + 3 then Hop(OP_JUMP, stop - p - 3) else Rewind(p + 3 - stop)
    case Again => if skip >= p + 3 then Hop(OP_JUMP, skip - p - 3) else Rewind(p + 3 - skip)
    case _ => i
  }

  function Resolve(code: seq<Ins>, stop: nat, skip: nat): (r: seq<Ins>)
    ensures |r| == |code|
    decreases |code|
  {
    if code == [] then []
    else
      var front := code[..|code| - 1];
      Resolve(front, stop, skip) + [Resolved(code[|code| - 1], Size(front), stop, skip)]
  }

  // ---- Names an `if` makes beforehand ----

  /** Whether an assignment would make a local; looking it up may capture it. */
  function Unknown(f: Fn, x: string): (r: (Fn, bool))
    requires f.Fn?
    ensures r.0.Fn? && Rank(r.0) == Rank(f)
  {
    if FindLocal(f.locals, x).Some? then (f, false)
    else
      var (g, up) := Capture(f, x);
      (g, up.None?)
  }

  function Shallow(b: seq<Stmt>, f: Fn, names: seq<string>): (r: (Fn, seq<string>))
    requires f.Fn?
    ensures r.0.Fn? && Rank(r.0) == Rank(f)
    decreases b
  {
    if b == [] then (f, names)
    else
      var more :=
        match b[0]
        case Assign(x, _) =>
          var (g, new_) := Unknown(f, x);
          (g, if new_ && x !in names then names + [x] else names)
        case If(_, thn, els) =>
          var (g, some) := Shallow(thn, f, names);
          Shallow(els, g, some)
        case Try(body, _, _) => Shallow(body, f, names)
        case _ => (f, names);
      Shallow(b[1..], more.0, more.1)
  }

  function Hoisted(thn: seq<Stmt>, els: seq<Stmt>, f: Fn): (r: (Fn, seq<string>))
    requires f.Fn?
    ensures r.0.Fn? && Rank(r.0) == Rank(f)
  {
    if f.enclosing.Fn? && f.depth > 0 then
      var (g, some) := Shallow(thn, f, []);
      Shallow(els, g, some)
    else (f, [])
  }

  // ---- Expressions ----

  /** The value of an expression statement is popped, but not that of a truth value, list, index or nameless function. */
  predicate Dropped(e: Expr) { !e.Truth? && !e.List? && !e.Index? && !e.Lambda? && !e.LambdaBlock? }

  /** The closure of a function whose body is finished, in the function around it. */
  function Finish(m: Made, tail: seq<Ins>): (r: Made)
    requires m.fn.Fn? && Rank(m.fn) >= 2
    ensures r.fn.Fn? && Rank(r.fn) + 1 == Rank(m.fn)
  {
    var c := Code(m.code + tail, m.fn.constants, |m.fn.upvalues|, m.fn.peak);
    Made([Closure(|m.fn.enclosing.constants|, m.fn.upvalues)], AddConstant(m.fn.enclosing, c))
  }

  function CompE(e: Expr, f: Fn): (m: Made)
    requires f.Fn?
    ensures m.fn.Fn? && Rank(m.fn) == Rank(f)
    decreases e
  {
    match e
    case Literal => EmitConstant(Start(f), OP_CONSTANT, Data)
    case Truth(b) => Emit(Start(f), Plain(if b then OP_TRUE else OP_FALSE))
    case Name(x) => Read(f, x)
    case Unary(op, r) => Emit(CompE(r, f), Plain(op))
    case Binary(op, l, r) =>
      var a := CompE(l, f);
      Emit(Join(a, CompE(r, a.fn)), Plain(op))
    case And(l, r) =>
      var a := CompE(l, f);
      var b := Join(Emit(Start(a.fn), Plain(OP_POP)), CompE(r, a.fn));
      JumpOver(a, OP_JUMP_IF_FALSE, Size(b.code), b)
    case Or(l, r) =>
      var a := CompE(l, f);
      var b := Join(Emit(Start(a.fn), Plain(OP_POP)), CompE(r, a.fn));
      JumpOver(a, OP_JUMP_IF_FALSE, 3, JumpOver(Start(a.fn), OP_JUMP, Size(b.code), b))
    case List(items) => Emit(CompEs(items, f), Count(OP_LIST, |items|))
    case Index(obj, index) =>
      var a := CompE(obj, f);
      Emit(Join(a, CompE(index, a.fn)), Plain(OP_GET_INDEX))
    case Property(obj) => EmitConstant(CompE(obj, f), OP_GET_PROPERTY, Data)
    case Method(obj, args) =>
      var a := CompE(obj, f);
      var b := Join(a, CompEs(args, a.fn));
      Emit(Made(b.code, AddConstant(b.fn, Data)), Invoke(|b.fn.constants|, |args|))
    case Call(callee, args) =>
      var a := CompE(callee, f);
      Emit(Join(a, CompEs(args, a.fn)), Count(OP_CALL, |args|))
    case Lambda(params, result) => Finish(CompE(result, Begin(f, params)), [Plain(OP_RETURN)])
    case LambdaBlock(params, body) => Finish(CompB(body, Begin(f, params), NoLoop, false), [Plain(OP_RETURN)])
  }

  function CompEs(es: seq<Expr>, f: Fn): (m: Made)
    requires f.Fn?
    ensures m.fn.Fn? && Rank(m.fn) == Rank(f)
    decreases es
  {
    if es == [] then Start(f)
    else
      var a := CompE(es[0], f);
      Join(a, CompEs(es[1..], a.fn))
  }

  // ---- Statements ----

  function Nulls(f: Fn, n: nat): Made { Made(Copies(Plain(OP_NULL), n), f) }

  /** A condition that leads past the first n bytes of body if it is false; either way it is popped. */
  function Guarded(c: Made, n: nat, body: Made): Made {
    JumpOver(c, OP_JUMP_IF_FALSE, n, Join(Emit(Start(c.fn), Plain(OP_POP)), body))
  }

  /** A block in a scope of its own, in which the names are declared first. */
  function CompScope(b: seq<Stmt>, f: Fn, names: seq<string>, loop: Loop): (m: Made)
    requires f.Fn?
    ensures m.fn.Fn? && Rank(m.fn) == Rank(f)
    decreases b, 1
  {
    EndScope(CompB(b, DeclareAll(Deeper(f), names), loop, true))
  }

  /** Statements; with drop, the value of an expression that stands as a statement is popped. */
  function CompB(b: seq<Stmt>, f: Fn, loop: Loop, drop: bool): (m: Made)
    requires f.Fn?
    ensures m.fn.Fn? && Rank(m.fn) == Rank(f)
    decreases b, 0
  {
    if b == [] then Start(f)
    else
      var a := CompS(b[0], f, loop, drop);
      Join(a, CompB(b[1..], a.fn, loop, drop))
  }

  function CompS(s: Stmt, f: Fn, loop: Loop, drop: bool): (m: Made)
    requires f.Fn?
    ensures m.fn.Fn? && Rank(m.fn) == Rank(f)
    decreases s, 2
  {
    match s
    case Do(e) => if drop && Dropped(e) then Emit(CompE(e, f), Plain(OP_POP)) else CompE(e, f)
    case Print(e) => Emit(CompE(e, f), Plain(OP_PRINT))
    case Assign(x, e) =>
      var a := CompE(e, f);
      Join(a, Store(a.fn, x))
    case If(c, thn, els) => CompIf(c, thn, els, f, loop)
    case Unless(c, body) =>
      var a := CompE(c, f);
      var b := Join(Emit(Start(a.fn), Plain(OP_POP)), CompB(body, a.fn, loop, true));
      Guarded(a, 4, JumpOver(Start(a.fn), OP_JUMP, Size(b.code), b))
    case While(c, body) => CompWhile(c, body, f)
    case Until(c, body) => CompUntil(c, body, f)
    case Forever(body) =>
      var a := CompScope(body, f, [], InLoop(f.depth, f.tries));
      var m := Emit(a, Rewind(Size(a.code) + 3));
      Made(Resolve(m.code, Size(m.code), 0), m.fn)
    case Repeat(count, body) => CompRepeat(count, body, f)
    case ForIn(x, over, body) => CompForIn(x, over, body, f)
    case Try(body, x, handler) => CompTry(body, x, handler, f, loop)
    case Throw(e) => Emit(CompE(e, f), Plain(OP_THROW))
    case Return(None) => Emit(Emit(Start(f), Plain(OP_NULL)), Plain(OP_RETURN))
    case Return(Some(e)) => Emit(CompE(e, f), Plain(OP_RETURN))
    case Stop => Made(LeaveLoop(f, loop) + [Exit], f)
    case Skip => Made(LeaveLoop(f, loop) + [Again], f)
    case Def(name, params, defaults, body) =>
      var a := Finish(CompB(body, Begin(f, params), NoLoop, true), [Plain(OP_NULL), Plain(OP_RETURN)]);
      var b := Join(a, CompEs(defaults, a.fn));
      EmitConstant(if defaults == [] then b else Emit(b, Count(OP_SET_DEFAULTS, |defaults|)), OP_DEFINE_GLOBAL, Text(name))
  }

  /** The locals of both branches are made first, in each of them. */
  function CompIf(c: Expr, thn: seq<Stmt>, els: seq<Stmt>, f: Fn, loop: Loop): (m: Made)
    requires f.Fn?
    ensures m.fn.Fn? && Rank(m.fn) == Rank(f)
    decreases If(c, thn, els), 1
  {
    var a := CompE(c, f);
    var (g, names) := Hoisted(thn, els, a.fn);
    var nulls := Nulls(DeclareAll(g, names), |names|);
    var t := Join(nulls, CompB(thn, nulls.fn, loop, true));
    var e := Join(Emit(Start(t.fn), Plain(OP_POP)), Join(Nulls(t.fn, |names|), CompB(els, t.fn, loop, true)));
    Guarded(a, 1 + Size(t.code) + 3, JumpOver(t, OP_JUMP, Size(e.code), e))
  }

  function CompWhile(c: Expr, body: seq<Stmt>, f: Fn): (m: Made)
    requires f.Fn?
    ensures m.fn.Fn? && Rank(m.fn) == Rank(f)
    decreases While(c, body), 1
  {
    var a := CompE(c, f);
    var b := CompScope(body, a.fn, [], InLoop(f.depth, f.tries));
    var back := Emit(Emit(b, Rewind(Size(a.code) + 4 + Size(b.code) + 3)), Plain(OP_POP));
    var m := Guarded(a, 1 + Size(b.code) + 3, back);
    Made(Resolve(m.code, Size(m.code), 0), m.fn)
  }

  function CompUntil(c: Expr, body: seq<Stmt>, f: Fn): (m: Made)
    requires f.Fn?
    ensures m.fn.Fn? && Rank(m.fn) == Rank(f)
    decreases Until(c, body), 1
  {
    var a := CompE(c, f);
    var b := Join(Emit(Start(a.fn), Plain(OP_POP)), CompScope(body, a.fn, [], InLoop(f.depth, f.tries)));
    var back := Emit(b, Rewind(Size(a.code) + 7 + Size(b.code) + 3));
    var m := Guarded(a, 4, JumpOver(Start(a.fn), OP_JUMP, Size(back.code), back));
    Made(Resolve(m.code, Size(m.code), 0), m.fn)
  }

  /** The test of a counted loop. */
  function RepeatHead(c: Made, g: Fn, k: nat): Made {
    Emit(Emit(Emit(Made(c.code, g), Slot(OP_GET_LOCAL, k + 1)), Slot(OP_GET_LOCAL, k)), Plain(OP_LESS))
  }

  /** Counting up, behind the body. */
  function RepeatUp(b: Made, k: nat): Made
    requires b.fn.Fn?
  {
    Emit(Emit(Emit(EmitConstant(Emit(b, Slot(OP_GET_LOCAL, k + 1)), OP_CONSTANT, Data), Plain(OP_ADD)), Slot(OP_SET_LOCAL, k + 1)), Plain(OP_POP))
  }

  /** The loop around its test and its body: back after counting up, and at the end three values go. */
  function RepeatMade(head: Made, up: Made): Made {
    Made(head.code + [Hop(OP_JUMP_IF_FALSE, 1 + (Size(up.code) + 3))] + ([Plain(OP_POP)] + up.code) + [Rewind(7 + 4 + Size(up.code) + 3)]
         + [Plain(OP_POP), Plain(OP_POP), Plain(OP_POP)], up.fn)
  }

  /** The count and the counter are locals without names. */
  function CompRepeat(count: Expr, body: seq<Stmt>, f: Fn): (m: Made)
    requires f.Fn?
    ensures m.fn.Fn? && Rank(m.fn) == Rank(f)
    decreases Repeat(count, body), 1
  {
    var c := EmitConstant(CompE(count, f), OP_CONSTANT, Data);
    var g, k := DeclareAll(c.fn, ["", ""]), |c.fn.locals|;
    var head := RepeatHead(c, g, k);
    var b := CompScope(body, g, [], InLoop(f.depth, f.tries));
    var up := RepeatUp(b, k);
    var m := RepeatMade(head, up);
    var out := Size(head.code) + 4 + (Size(up.code) + 3);
    Made(Resolve(m.code, out + 1, Size(head.code) + 4 + Size(b.code)), Forget(m.fn, 2))
  }

  function CompForIn(x: string, over: Expr, body: seq<Stmt>, f: Fn): (m: Made)
    requires f.Fn?
    ensures m.fn.Fn? && Rank(m.fn) == Rank(f)
    decreases ForIn(x, over, body), 1
  {
    var a := Emit(CompE(over, f), Plain(OP_GET_ITER));
    var g := Declare(a.fn, "_iter");
    var b := CompScope(body, g, [x], InLoop(f.depth, f.tries));
    var back := Emit(b, Rewind(3 + Size(b.code) + 3));
    var m := JumpOver(Made(a.code, g), OP_FOR_ITER, Size(back.code), Emit(back, Plain(OP_POP)));
    Made(Resolve(m.code, Size(a.code) + 3 + Size(back.code), Size(a.code)), Forget(m.fn, 1))
  }

  function CompTry(body: seq<Stmt>, x: string, handler: seq<Stmt>, f: Fn, loop: Loop): (m: Made)
    requires f.Fn?
    ensures m.fn.Fn? && Rank(m.fn) == Rank(f)
    decreases Try(body, x, handler), 1
  {
    var b := Emit(CompB(body, f.(tries := f.tries + 1), loop, true), Plain(OP_END_TRY));
    var g := b.fn.(tries := f.tries);
    var h := CompScope(handler, g, [x], loop);
    JumpOver(Start(f), OP_TRY, Size(b.code) + 3, JumpOver(Made(b.code, g), OP_JUMP, Size(h.code), h))
  }

  // ---- Whole programs ----

  /** The script around all functions. */
  const ScriptFn := Fn(Top, 0, 0, [Local("", 0, false)], [], [], 1)

  function Script(b: seq<Stmt>): Constant {
    var m := CompB(b, ScriptFn, NoLoop, true);
    Code(m.code + [Plain(OP_NULL), Plain(OP_RETURN)], m.fn.constants, 0, m.fn.peak)
  }
}
