/**
 * The slots that leave a scope: captured ones are closed, the others popped. The slot of a for-in's
 * iterator is always popped, which is right as long as no function in the loop names it.
 */
module IteratorSlot {
  import opened Bytes
  import opened Values
  import opened Bytecode
  import opened ClosureCode
  import U = Upvalues

  // ---- Leaving a scope ----

  /** At the end of a scope and on the way out of a loop, a slot is closed exactly if its variable is captured. */
  lemma {:induction false} ScopeClosesCaptured(locals: seq<Local>, d: nat, k: nat)
    requires k < |PopsAbove(locals, d)|
    ensures |PopsAbove(locals, d)| == |locals| - |LocalsWithin(locals, d)|
    ensures PopsAbove(locals, d)[k] == Plain(if locals[|locals| - 1 - k].captured then OP_CLOSE_UPVALUE else OP_POP)
    decreases |locals|
  {
    if k > 0 {
      ScopeClosesCaptured(locals[..|locals| - 1], d, k - 1);
    } else {
      PopsCount(locals, d);
    }
  }

  lemma {:induction false} PopsCount(locals: seq<Local>, d: nat)
    ensures |PopsAbove(locals, d)| == |locals| - |LocalsWithin(locals, d)|
    decreases |locals|
  {
    if locals != [] { PopsCount(locals[..|locals| - 1], d); }
  }

  // ---- Names of the iterator ----

  const ITER := "_iter"

  /** No function in the expression names the iterator; inside one, neither does the expression itself. */
  predicate QuietE(e: Expr, inside: bool)
    decreases e
  {
    match e
    case Literal => true
    case Truth(_) => true
    case Name(x) => inside ==> x != ITER
    case Unary(_, r) => QuietE(r, inside)
    case Binary(_, l, r) => QuietE(l, inside) && QuietE(r, inside)
    case And(l, r) => QuietE(l, inside) && QuietE(r, inside)
    case Or(l, r) => QuietE(l, inside) && QuietE(r, inside)
    case List(items) => QuietEs(items, inside)
    case Index(obj, index) => QuietE(obj, inside) && QuietE(index, inside)
    case Property(obj) => QuietE(obj, inside)
    case Method(obj, args) => QuietE(obj, inside) && QuietEs(args, inside)
    case Call(callee, args) => QuietE(callee, inside) && QuietEs(args, inside)
    case Lambda(_, result) => QuietE(result, true)
    case LambdaBlock(_, body) => QuietB(body, true)
  }

  predicate QuietEs(es: seq<Expr>, inside: bool)
    decreases es
  {
    es == [] || (QuietE(es[0], inside) && QuietEs(es[1..], inside))
  }

  predicate QuietS(s: Stmt, inside: bool)
    decreases s
  {
    match s
    case Do(e) => QuietE(e, inside)
    case Print(e) => QuietE(e, inside)
    case Assign(x, e) => (inside ==> x != ITER) && QuietE(e, inside)
    case If(c, thn, els) => QuietE(c, inside) && QuietB(thn, inside) && QuietB(els, inside)
    case Unless(c, body) => QuietE(c, inside) && QuietB(body, inside)
    case While(c, body) => QuietE(c, inside) && QuietB(body, inside)
    case Until(c, body) => QuietE(c, inside) && QuietB(body, inside)
    case Forever(body) => QuietB(body, inside)
    case Repeat(count, body) => QuietE(count, inside) && QuietB(body, inside)
    case ForIn(_, over, body) => QuietE(over, inside) && QuietB(body, inside)
    case Try(body, _, handler) => QuietB(body, inside) && QuietB(handler, inside)
    case Throw(e) => QuietE(e, inside)
    case Return(None) => true
    case Return(Some(e)) => QuietE(e, inside)
    case Stop => true
    case Skip => true
    case Def(_, _, defaults, body) => QuietEs(defaults, inside) && QuietB(body, true)
  }

  predicate QuietB(b: seq<Stmt>, inside: bool)
    decreases b
  {
    b == [] || (QuietS(b[0], inside) && QuietB(b[1..], inside))
  }

  // ---- What compilation keeps ----

  /** Scopes hold what was declared in them. */
  predicate Level(f: Fn)
    requires f.Fn?
  {
    forall i | 0 <= i < |f.locals| :: f.locals[i].depth <= f.depth
  }

  predicate SameLocal(a: Local, b: Local) { a.name == b.name && a.depth == b.depth && (a.name == ITER ==> a.captured == b.captured) }

  /** The first locals are as before, with iterators captured just if they were; new ones are of depth d. */
  predicate LocalsKept(a: seq<Local>, b: seq<Local>, d: nat) {
    && |a| <= |b| && (forall i | 0 <= i < |a| :: SameLocal(a[i], b[i])) && forall i | |a| <= i < |b| :: b[i].depth == d
  }

  predicate Grows(f: Fn, g: Fn)
    decreases f, 0
  {
    f.Fn? && g.Fn? && f.depth == g.depth && LocalsKept(f.locals, g.locals, f.depth) && Around(f.enclosing, g.enclosing)
  }

  /** The functions around. */
  predicate Around(f: Fn, g: Fn)
    decreases f, 1
  {
    if f.Top? then g.Top? else Grows(f, g) && |g.locals| == |f.locals|
  }

  lemma {:induction false} GrowsSelf(f: Fn)
    ensures f.Fn? ==> Grows(f, f)
    ensures Around(f, f)
    decreases f
  {
    if f.Fn? { GrowsSelf(f.enclosing); }
  }

  lemma {:induction false} GrowsOn(f: Fn, g: Fn, h: Fn)
    requires Grows(f, g) && Grows(g, h)
    ensures Grows(f, h)
    decreases f
  {
    if f.enclosing.Fn? { GrowsOn(f.enclosing, g.enclosing, h.enclosing); }
  }

  /** Constants, upvalues and open try blocks do not matter. */
  lemma GrowsAlike(f: Fn, g: Fn, h: Fn)
    requires Grows(f, g) && h.Fn? && h.locals == g.locals && h.depth == g.depth && h.enclosing == g.enclosing
    ensures Grows(f, h)
  {}

  lemma GrowsLevel(f: Fn, g: Fn)
    requires Grows(f, g) && Level(f)
    ensures Level(g)
  {
    hide Around;
    forall i | 0 <= i < |g.locals| ensures g.locals[i].depth <= g.depth {
      if i < |f.locals| { assert SameLocal(f.locals[i], g.locals[i]); }
    }
  }

  /** There is a for-in around, in the same function. */
  predicate Iterates(f: Fn)
    requires f.Fn?
  {
    exists i :: 0 <= i < |f.locals| && f.locals[i].name == ITER
  }

  lemma GrowsIterates(f: Fn, g: Fn)
    requires Grows(f, g) && Iterates(f)
    ensures Iterates(g)
  {
    hide Around;
    var i :| 0 <= i < |f.locals| && f.locals[i].name == ITER;
    assert SameLocal(f.locals[i], g.locals[i]);
  }

  lemma {:induction false} IterFound(locals: seq<Local>, i: nat, x: string)
    requires i < |locals| && locals[i].name == x
    ensures FindLocal(locals, x).Some?
    decreases |locals|
  {
    if i < |locals| - 1 { IterFound(locals[..|locals| - 1], i, x); }
  }

  /** A place where code that names the iterator finds it in its own function. */
  predicate Ready(f: Fn, inside: bool)
    requires f.Fn?
  {
    Level(f) && (inside || Iterates(f))
  }

  lemma ReadyOn(f: Fn, g: Fn, inside: bool)
    requires f.Fn? && Ready(f, inside) && Grows(f, g)
    ensures g.Fn? && Ready(g, inside)
  {
    GrowsLevel(f, g);
    if !inside { GrowsIterates(f, g); }
    hide Level, Iterates, Around, LocalsKept;
  }

  // ---- Variables ----

  lemma {:induction false} CaptureKeeps(f: Fn, x: string)
    requires f.Fn? && x != ITER
    ensures var g := Capture(f, x).0; g.locals == f.locals && g.depth == f.depth && Around(f.enclosing, g.enclosing)
    decreases f
  {
    GrowsSelf(f.enclosing);
    if f.enclosing.Fn? {
      match FindLocal(f.enclosing.locals, x)
      case Some(i) =>
        FoundName(f.enclosing.locals, x);
        GrowsSelf(f.enclosing.enclosing);
      case None => CaptureKeeps(f.enclosing, x);
    }
  }

  lemma {:induction false} FoundName(locals: seq<Local>, x: string)
    ensures var r := FindLocal(locals, x); r.Some? ==> locals[r.value].name == x
    decreases |locals|
  {
    if locals != [] { FoundName(locals[..|locals| - 1], x); }
  }

  lemma SelfKept(locals: seq<Local>, d: nat)
    ensures LocalsKept(locals, locals, d)
  {}

  /** Looking up a name that is not found in the function itself. */
  lemma CaptureGrows(f: Fn, x: string, inside: bool)
    requires f.Fn? && Ready(f, inside) && (inside ==> x != ITER) && FindLocal(f.locals, x).None?
    ensures Grows(f, Capture(f, x).0)
  {
    hide Level, Around, Capture, FindLocal;
    if x == ITER {
      var i :| 0 <= i < |f.locals| && f.locals[i].name == ITER;
      IterFound(f.locals, i, x);
    } else {
      CaptureKeeps(f, x);
      SelfKept(f.locals, f.depth);
    }
  }

  lemma ReadGrows(f: Fn, x: string, inside: bool)
    requires f.Fn? && Ready(f, inside) && (inside ==> x != ITER)
    ensures Grows(f, Read(f, x).fn)
  {
    hide Ready, Grows, Capture, FindLocal;
    GrowsSelf(f);
    if FindLocal(f.locals, x).None? {
      CaptureGrows(f, x, inside);
      GrowsAlike(f, Capture(f, x).0, AddConstant(Capture(f, x).0, Text(x)));
    }
  }

  lemma StoreGrows(f: Fn, x: string, inside: bool)
    requires f.Fn? && Ready(f, inside) && (inside ==> x != ITER)
    ensures Grows(f, Store(f, x).fn)
  {
    hide Ready, Grows, Capture, FindLocal, Declare;
    GrowsSelf(f);
    if FindLocal(f.locals, x).None? {
      var g := Capture(f, x).0;
      CaptureGrows(f, x, inside);
      GrowsAlike(f, g, AddConstant(g, Text(x)));
      DeclareGrows(g, x);
      GrowsOn(f, g, Declare(g, x));
    }
  }

  lemma DeclareGrows(f: Fn, x: string)
    requires f.Fn?
    ensures Grows(f, Declare(f, x))
  {
    GrowsSelf(f.enclosing);
  }

  lemma {:induction false} DeclareAllGrows(f: Fn, xs: seq<string>)
    requires f.Fn?
    ensures Grows(f, DeclareAll(f, xs)) && |DeclareAll(f, xs).locals| == |f.locals| + |xs|
    decreases |xs|
  {
    hide Grows;
    GrowsSelf(f);
    if xs != [] {
      DeclareGrows(f, xs[0]);
      DeclareAllGrows(Declare(f, xs[0]), xs[1..]);
      GrowsOn(f, Declare(f, xs[0]), DeclareAll(f, xs));
    }
  }

  lemma UnknownGrows(f: Fn, x: string, inside: bool)
    requires f.Fn? && Ready(f, inside) && (inside ==> x != ITER)
    ensures Grows(f, Unknown(f, x).0)
  {
    hide Ready, Grows, Capture, FindLocal;
    GrowsSelf(f);
    if FindLocal(f.locals, x).None? { CaptureGrows(f, x, inside); }
  }

  lemma {:induction false} ShallowGrows(b: seq<Stmt>, f: Fn, names: seq<string>, inside: bool)
    requires f.Fn? && Ready(f, inside) && QuietB(b, inside)
    ensures Grows(f, Shallow(b, f, names).0)
    decreases b
  {
    hide Ready, Grows, Unknown, QuietE;
    GrowsSelf(f);
    if b != [] {
      match b[0] {
        case Assign(x, _) =>
          var (g, new_) := Unknown(f, x);
          UnknownGrows(f, x, inside);
          ShallowOn(b, f, g, if new_ && x !in names then names + [x] else names, inside);
        case If(_, thn, els) =>
          var (g, some) := Shallow(thn, f, names);
          var (h, more) := Shallow(els, g, some);
          ShallowGrows(thn, f, names, inside);
          ReadyOn(f, g, inside);
          ShallowGrows(els, g, some, inside);
          GrowsOn(f, g, h);
          ShallowOn(b, f, h, more, inside);
        case Try(body, _, _) =>
          var (g, some) := Shallow(body, f, names);
          ShallowGrows(body, f, names, inside);
          ShallowOn(b, f, g, some, inside);
        case _ => ShallowOn(b, f, f, names, inside);
      }
    }
  }

  lemma {:induction false} ShallowOn(b: seq<Stmt>, f: Fn, g: Fn, names: seq<string>, inside: bool)
    requires f.Fn? && Ready(f, inside) && b != [] && QuietB(b, inside) && Grows(f, g)
    ensures g.Fn? && Grows(f, Shallow(b[1..], g, names).0)
    decreases b, 0
  {
    ReadyOn(f, g, inside);
    hide Ready, Grows, Shallow, QuietS;
    ShallowGrows(b[1..], g, names, inside);
    GrowsOn(f, g, Shallow(b[1..], g, names).0);
  }

  lemma HoistedGrows(thn: seq<Stmt>, els: seq<Stmt>, f: Fn, inside: bool)
    requires f.Fn? && Ready(f, inside) && QuietB(thn, inside) && QuietB(els, inside)
    ensures Grows(f, Hoisted(thn, els, f).0)
  {
    hide Ready, Grows, Shallow, QuietB;
    GrowsSelf(f);
    var (g, some) := Shallow(thn, f, []);
    ShallowGrows(thn, f, [], inside);
    ReadyOn(f, g, inside);
    ShallowGrows(els, g, some, inside);
    GrowsOn(f, g, Shallow(els, g, some).0);
  }

  // ---- Scopes and functions ----

  /** A scope gives back just the locals it found. */
  lemma ScopeGrows(f: Fn, h: Fn, m: Made)
    requires f.Fn? && Level(f) && h.Fn? && h.depth == f.depth + 1 && h.enclosing == f.enclosing && |f.locals| <= |h.locals|
    requires h.locals[..|f.locals|] == f.locals && (forall i | |f.locals| <= i < |h.locals| :: h.locals[i].depth == h.depth)
    requires Grows(h, m.fn)
    ensures var g := EndScope(m).fn; Grows(f, g) && |g.locals| == |f.locals|
  {
    hide Around;
    var n, ls := |f.locals|, m.fn.locals;
    forall i | 0 <= i < |ls| ensures i < n ==> SameLocal(f.locals[i], ls[i]) && ls[i].depth <= f.depth
                             ensures i >= n ==> ls[i].depth == f.depth + 1
    {
      if i < |h.locals| { assert SameLocal(h.locals[i], ls[i]); }
      if i < n { assert h.locals[i] == h.locals[..n][i]; }
    }
    WithinIs(ls, f.depth, n);
  }

  lemma {:induction false} WithinIs(locals: seq<Local>, d: nat, n: nat)
    requires n <= |locals| && (n > 0 ==> locals[n - 1].depth <= d) && forall i | n <= i < |locals| :: locals[i].depth > d
    ensures LocalsWithin(locals, d) == locals[..n]
    decreases |locals|
  {
    if n < |locals| {
      WithinIs(locals[..|locals| - 1], d, n);
      assert locals[..|locals| - 1][..n] == locals[..n];
    } else {
      assert locals[..n] == locals;
    }
  }

  lemma {:induction false} DeclaredBehind(f: Fn, xs: seq<string>)
    requires f.Fn?
    ensures var g := DeclareAll(f, xs);
            && |g.locals| == |f.locals| + |xs| && g.locals[..|f.locals|] == f.locals && g.depth == f.depth
            && forall i | |f.locals| <= i < |g.locals| :: g.locals[i].depth == f.depth
    decreases |xs|
  {
    if xs != [] {
      var h := Declare(f, xs[0]);
      DeclaredBehind(h, xs[1..]);
      var g := DeclareAll(h, xs[1..]);
      assert g.locals[..|f.locals|] == g.locals[..|h.locals|][..|f.locals|];
      assert g.locals[|f.locals|] == g.locals[..|h.locals|][|f.locals|];
    }
  }

  lemma BeginReady(f: Fn, params: seq<string>)
    ensures Ready(Begin(f, params), true) && Begin(f, params).enclosing == f
  {
    var g := Fn(f, 1, 0, [Local("", 0, false)], [], [], 1);
    DeclaredBehind(g, params);
    var h := DeclareAll(g, params);
    forall i | 0 <= i < |h.locals| ensures h.locals[i].depth <= h.depth {
      if i < 1 { assert h.locals[i] == h.locals[..1][i]; }
    }
  }

  /** Compiling a function leaves the one around it with the same iterators captured. */
  lemma FinishGrows(f: Fn, g: Fn, m: Made, tail: seq<Ins>)
    requires f.Fn? && g.Fn? && g.enclosing == f && Grows(g, m.fn) && Rank(m.fn) >= 2
    ensures Grows(f, Finish(m, tail).fn)
  {
    hide LocalsKept;
    var c := Code(m.code + tail, m.fn.constants, |m.fn.upvalues|, m.fn.peak);
    GrowsAlike(f, m.fn.enclosing, AddConstant(m.fn.enclosing, c));
  }

  // ---- Expressions ----

  lemma {:induction false} GrowsE(e: Expr, f: Fn, inside: bool)
    requires f.Fn? && Ready(f, inside) && QuietE(e, inside)
    ensures Grows(f, CompE(e, f).fn)
    decreases e, 2
  {
    GrowsSelf(f);
    hide Grows, Ready, Read, Finish, Begin, CompEs, CompB, Around;
    match e
    case Literal => GrowsAlike(f, f, AddConstant(f, Data));
    case Truth(_) =>
    case Name(x) => ReadGrows(f, x, inside);
    case Unary(_, r) => GrowsE(r, f, inside);
    case Binary(_, l, r) => GrowsPair(e, l, r, f, inside);
    case And(l, r) => GrowsPair(e, l, r, f, inside);
    case Or(l, r) => GrowsPair(e, l, r, f, inside);
    case List(items) => GrowsEs(items, f, inside);
    case Index(obj, index) => GrowsPair(e, obj, index, f, inside);
    case Property(obj) =>
      GrowsE(obj, f, inside);
      GrowsAlike(f, CompE(obj, f).fn, AddConstant(CompE(obj, f).fn, Data));
    case Method(obj, args) =>
      GrowsCall(e, obj, args, f, inside);
      var g := CompEs(args, CompE(obj, f).fn).fn;
      GrowsAlike(f, g, AddConstant(g, Data));
    case Call(callee, args) => GrowsCall(e, callee, args, f, inside);
    case Lambda(_, _) => GrowsFunction(e, f);
    case LambdaBlock(_, _) => GrowsFunction(e, f);
  }

  /** Two parts of an expression, one after the other. */
  lemma {:induction false} GrowsPair(whole: Expr, l: Expr, r: Expr, f: Fn, inside: bool)
    requires l < whole && r < whole && f.Fn? && Ready(f, inside) && QuietE(l, inside) && QuietE(r, inside)
    ensures Grows(f, CompE(r, CompE(l, f).fn).fn)
    decreases whole, 1
  {
    hide Grows, Ready, CompE, QuietE;
    var g := CompE(l, f).fn;
    GrowsE(l, f, inside);
    ReadyOn(f, g, inside);
    GrowsE(r, g, inside);
    GrowsOn(f, g, CompE(r, g).fn);
  }

  lemma {:induction false} GrowsCall(whole: Expr, callee: Expr, args: seq<Expr>, f: Fn, inside: bool)
    requires (whole.Method? && callee == whole.obj && args == whole.args) || (whole.Call? && callee == whole.callee && args == whole.args)
    requires f.Fn? && Ready(f, inside) && QuietE(callee, inside) && QuietEs(args, inside)
    ensures Grows(f, CompEs(args, CompE(callee, f).fn).fn)
    decreases whole, 1
  {
    hide Grows, Ready, CompE, CompEs, QuietE, QuietEs;
    var g := CompE(callee, f).fn;
    GrowsE(callee, f, inside);
    ReadyOn(f, g, inside);
    GrowsEs(args, g, inside);
    GrowsOn(f, g, CompEs(args, g).fn);
  }

  lemma {:induction false} GrowsEs(es: seq<Expr>, f: Fn, inside: bool)
    requires f.Fn? && Ready(f, inside) && QuietEs(es, inside)
    ensures Grows(f, CompEs(es, f).fn)
    decreases es, 0
  {
    hide Grows, Ready, CompE, QuietE;
    GrowsSelf(f);
    if es != [] {
      var g := CompE(es[0], f).fn;
      GrowsE(es[0], f, inside);
      ReadyOn(f, g, inside);
      GrowsEs(es[1..], g, inside);
      GrowsOn(f, g, CompEs(es[1..], g).fn);
    }
  }

  lemma {:induction false} GrowsFunction(e: Expr, f: Fn)
    requires (e.Lambda? || e.LambdaBlock?) && f.Fn? && QuietE(e, true)
    ensures Grows(f, CompE(e, f).fn)
    decreases e, 1
  {
    hide Grows, Ready, Begin, Finish, CompB, QuietB;
    match e
    case Lambda(params, result) =>
      BeginReady(f, params);
      GrowsE(result, Begin(f, params), true);
      FinishGrows(f, Begin(f, params), CompE(result, Begin(f, params)), [Plain(OP_RETURN)]);
    case LambdaBlock(params, body) =>
      BeginReady(f, params);
      GrowsB(body, Begin(f, params), NoLoop, false, true);
      FinishGrows(f, Begin(f, params), CompB(body, Begin(f, params), NoLoop, false), [Plain(OP_RETURN)]);
  }

  // ---- Statements ----

  lemma {:induction false} GrowsB(b: seq<Stmt>, f: Fn, loop: Loop, drop: bool, inside: bool)
    requires f.Fn? && Ready(f, inside) && QuietB(b, inside)
    ensures Grows(f, CompB(b, f, loop, drop).fn)
    decreases b, 0
  {
    hide Grows, Ready, CompS, QuietS;
    GrowsSelf(f);
    if b != [] {
      var g := CompS(b[0], f, loop, drop).fn;
      GrowsS(b[0], f, loop, drop, inside);
      ReadyOn(f, g, inside);
      GrowsB(b[1..], g, loop, drop, inside);
      GrowsOn(f, g, CompB(b[1..], g, loop, drop).fn);
    }
  }

  lemma {:induction false} GrowsScope(b: seq<Stmt>, f: Fn, names: seq<string>, loop: Loop, inside: bool)
    requires f.Fn? && Ready(f, inside) && QuietB(b, inside)
    ensures var g := CompScope(b, f, names, loop).fn; Grows(f, g) && |g.locals| == |f.locals|
    decreases b, 1
  {
    hide Grows, CompB, EndScope, QuietB;
    DeclaredBehind(Deeper(f), names);
    var h := DeclareAll(Deeper(f), names);
    DeepReady(f, h, inside);
    hide Ready, Level;
    GrowsB(b, h, loop, true, inside);
    ScopeGrows(f, h, CompB(b, h, loop, true));
  }

  lemma DeepReady(f: Fn, h: Fn, inside: bool)
    requires f.Fn? && Ready(f, inside) && h.Fn? && h.depth == f.depth + 1 && |f.locals| <= |h.locals| && h.locals[..|f.locals|] == f.locals
    requires forall i | |f.locals| <= i < |h.locals| :: h.locals[i].depth == h.depth
    ensures Ready(h, inside) && Level(f)
  {
    forall i | 0 <= i < |f.locals| ensures h.locals[i] == f.locals[i] { assert h.locals[..|f.locals|][i] == h.locals[i]; }
    if !inside {
      var i :| 0 <= i < |f.locals| && f.locals[i].name == ITER;
      assert h.locals[i].name == ITER;
    }
  }

  /** An expression and then a scope. */
  lemma {:induction false} GrowsThenScope(whole: Stmt, e: Expr, b: seq<Stmt>, f: Fn, loop: Loop, inside: bool)
    requires (whole == While(e, b) || whole == Until(e, b)) && f.Fn? && Ready(f, inside) && QuietE(e, inside) && QuietB(b, inside)
    ensures Grows(f, CompScope(b, CompE(e, f).fn, [], loop).fn)
    decreases whole, 1
  {
    hide Grows, Ready, CompE, CompScope, QuietE, QuietB;
    var g := CompE(e, f).fn;
    GrowsE(e, f, inside);
    ReadyOn(f, g, inside);
    GrowsScope(b, g, [], loop, inside);
    GrowsOn(f, g, CompScope(b, g, [], loop).fn);
  }

  lemma {:induction false} GrowsS(s: Stmt, f: Fn, loop: Loop, drop: bool, inside: bool)
    requires f.Fn? && Ready(f, inside) && QuietS(s, inside)
    ensures Grows(f, CompS(s, f, loop, drop).fn)
    decreases s, 2
  {
    GrowsSelf(f);
    hide Grows, Ready, Around, Store, CompE, CompEs, CompB, CompScope, CompIf, CompRepeat, CompForIn, CompTry, QuietE, QuietB, Size, Resolve, LeaveLoop, Finish, Begin;
    match s
    case Do(e) => GrowsE(e, f, inside);
    case Print(e) => GrowsE(e, f, inside);
    case Throw(e) => GrowsE(e, f, inside);
    case Return(None) =>
    case Return(Some(e)) => GrowsE(e, f, inside);
    case Stop =>
    case Skip =>
    case Assign(x, e) => GrowsAssign(x, e, f, inside);
    case If(c, thn, els) => GrowsIf(c, thn, els, f, loop, inside);
    case Unless(c, body) => GrowsUnless(c, body, f, loop, inside);
    case While(c, body) => GrowsThenScope(s, c, body, f, InLoop(f.depth, f.tries), inside);
    case Until(c, body) => GrowsThenScope(s, c, body, f, InLoop(f.depth, f.tries), inside);
    case Forever(body) => GrowsScope(body, f, [], InLoop(f.depth, f.tries), inside);
    case Repeat(count, body) => GrowsRepeat(count, body, f, inside);
    case ForIn(x, over, body) => GrowsForIn(x, over, body, f, inside);
    case Try(body, x, handler) => GrowsTry(body, x, handler, f, loop, inside);
    case Def(name, params, defaults, body) => GrowsDef(name, params, defaults, body, f, inside);
  }

  lemma {:induction false} GrowsAssign(x: string, e: Expr, f: Fn, inside: bool)
    requires f.Fn? && Ready(f, inside) && (inside ==> x != ITER) && QuietE(e, inside)
    ensures Grows(f, Store(CompE(e, f).fn, x).fn)
    decreases Assign(x, e), 1
  {
    hide Grows, Ready, CompE, Store, QuietE;
    var g := CompE(e, f).fn;
    GrowsE(e, f, inside);
    ReadyOn(f, g, inside);
    StoreGrows(g, x, inside);
    GrowsOn(f, g, Store(g, x).fn);
  }

  lemma {:induction false} GrowsUnless(c: Expr, body: seq<Stmt>, f: Fn, loop: Loop, inside: bool)
    requires f.Fn? && Ready(f, inside) && QuietE(c, inside) && QuietB(body, inside)
    ensures Grows(f, CompB(body, CompE(c, f).fn, loop, true).fn)
    decreases Unless(c, body), 1
  {
    hide Grows, Ready, CompE, CompB, QuietE, QuietB;
    var g := CompE(c, f).fn;
    GrowsE(c, f, inside);
    ReadyOn(f, g, inside);
    GrowsB(body, g, loop, true, inside);
    GrowsOn(f, g, CompB(body, g, loop, true).fn);
  }

  lemma {:induction false} GrowsIf(c: Expr, thn: seq<Stmt>, els: seq<Stmt>, f: Fn, loop: Loop, inside: bool)
    requires f.Fn? && Ready(f, inside) && QuietE(c, inside) && QuietB(thn, inside) && QuietB(els, inside)
    ensures Grows(f, CompIf(c, thn, els, f, loop).fn)
    decreases If(c, thn, els), 1
  {
    hide Grows, Ready, CompE, CompB, QuietE, QuietB, Hoisted, Size, DeclareAll;
    var a := CompE(c, f).fn;
    GrowsE(c, f, inside);
    ReadyOn(f, a, inside);
    var (g, names) := Hoisted(thn, els, a);
    HoistedGrows(thn, els, a, inside);
    GrowsOn(f, a, g);
    var h := DeclareAll(g, names);
    DeclareAllGrows(g, names);
    GrowsOn(f, g, h);
    ReadyOn(f, h, inside);
    var t := CompB(thn, h, loop, true).fn;
    GrowsB(thn, h, loop, true, inside);
    GrowsOn(f, h, t);
    ReadyOn(f, t, inside);
    GrowsB(els, t, loop, true, inside);
    GrowsOn(f, t, CompB(els, t, loop, true).fn);
  }

  /** The last locals are forgotten, down to those there were. */
  lemma ForgetGrows(f: Fn, g: Fn, n: nat)
    requires Grows(f, g) && |g.locals| == |f.locals| + n
    ensures Grows(f, Forget(g, n)) && |Forget(g, n).locals| == |f.locals|
  {
    hide Around;
  }

  lemma {:induction false} GrowsRepeat(count: Expr, body: seq<Stmt>, f: Fn, inside: bool)
    requires f.Fn? && Ready(f, inside) && QuietE(count, inside) && QuietB(body, inside)
    ensures Grows(f, CompRepeat(count, body, f).fn)
    decreases Repeat(count, body), 1
  {
    hide Grows, Ready, CompE, CompScope, QuietE, QuietB, Size, Resolve, DeclareAll;
    var e := CompE(count, f).fn;
    GrowsE(count, f, inside);
    var c := AddConstant(e, Data);
    GrowsAlike(f, e, c);
    ReadyOn(f, c, inside);
    var g := DeclareAll(c, ["", ""]);
    DeclareAllGrows(c, ["", ""]);
    ReadyOn(c, g, inside);
    var b := CompScope(body, g, [], InLoop(f.depth, f.tries)).fn;
    GrowsScope(body, g, [], InLoop(f.depth, f.tries), inside);
    GrowsOn(c, g, b);
    GrowsAlike(c, b, AddConstant(b, Data));
    ForgetGrows(c, AddConstant(b, Data), 2);
    GrowsOn(f, c, Forget(AddConstant(b, Data), 2));
  }

  lemma {:induction false} GrowsForIn(x: string, over: Expr, body: seq<Stmt>, f: Fn, inside: bool)
    requires f.Fn? && Ready(f, inside) && QuietE(over, inside) && QuietB(body, inside)
    ensures Grows(f, CompForIn(x, over, body, f).fn)
    decreases ForIn(x, over, body), 1
  {
    hide Grows, Ready, CompE, CompScope, QuietE, QuietB, Size, Resolve, Declare;
    var e := CompE(over, f).fn;
    GrowsE(over, f, inside);
    ReadyOn(f, e, inside);
    var g := Declare(e, ITER);
    DeclareGrows(e, ITER);
    ReadyOn(e, g, inside);
    var b := CompScope(body, g, [x], InLoop(f.depth, f.tries)).fn;
    GrowsScope(body, g, [x], InLoop(f.depth, f.tries), inside);
    GrowsOn(e, g, b);
    DeclareOne(e, ITER);
    ForgetGrows(e, b, 1);
    GrowsOn(f, e, Forget(b, 1));
  }

  lemma DeclareOne(f: Fn, x: string)
    requires f.Fn?
    ensures |Declare(f, x).locals| == |f.locals| + 1
  {}

  lemma {:induction false} GrowsTry(body: seq<Stmt>, x: string, handler: seq<Stmt>, f: Fn, loop: Loop, inside: bool)
    requires f.Fn? && Ready(f, inside) && QuietB(body, inside) && QuietB(handler, inside)
    ensures Grows(f, CompTry(body, x, handler, f, loop).fn)
    decreases Try(body, x, handler), 1
  {
    GrowsSelf(f);
    hide Grows, Ready, CompB, CompScope, QuietB, Size, Around;
    var t := f.(tries := f.tries + 1);
    GrowsAlike(f, f, t);
    ReadyOn(f, t, inside);
    var b := CompB(body, t, loop, true).fn;
    GrowsB(body, t, loop, true, inside);
    GrowsOn(f, t, b);
    var g := b.(tries := f.tries);
    GrowsAlike(f, b, g);
    ReadyOn(f, g, inside);
    GrowsScope(handler, g, [x], loop, inside);
    GrowsOn(f, g, CompScope(handler, g, [x], loop).fn);
  }

  lemma {:induction false} GrowsDef(name: string, params: seq<string>, defaults: seq<Expr>, body: seq<Stmt>, f: Fn, inside: bool)
    requires f.Fn? && Ready(f, inside) && QuietEs(defaults, inside) && QuietB(body, true)
    ensures Grows(f, CompS(Def(name, params, defaults, body), f, NoLoop, true).fn)
    ensures forall loop, drop :: CompS(Def(name, params, defaults, body), f, loop, drop).fn == CompS(Def(name, params, defaults, body), f, NoLoop, true).fn
    decreases Def(name, params, defaults, body), 1
  {
    hide Grows, Ready, Begin, Finish, CompB, CompEs, QuietB, QuietEs;
    var tail := [Plain(OP_NULL), Plain(OP_RETURN)];
    BeginReady(f, params);
    GrowsB(body, Begin(f, params), NoLoop, true, true);
    FinishGrows(f, Begin(f, params), CompB(body, Begin(f, params), NoLoop, true), tail);
    var a := Finish(CompB(body, Begin(f, params), NoLoop, true), tail).fn;
    ReadyOn(f, a, inside);
    GrowsEs(defaults, a, inside);
    var b := CompEs(defaults, a).fn;
    GrowsOn(f, a, b);
    GrowsAlike(f, b, AddConstant(b, Text(name)));
  }

  // ---- The iterator of a for-in ----

  /** If no function in a for-in's body names the iterator, its slot is not captured when the loop pops it. */
  lemma IteratorStaysFree(x: string, body: seq<Stmt>, f: Fn, loop: Loop)
    requires f.Fn? && Level(f) && QuietB(body, false)
    ensures var g := CompScope(body, Declare(f, ITER), [x], loop).fn;
            |g.locals| == |f.locals| + 1 && g.locals[|f.locals|].name == ITER && !g.locals[|f.locals|].captured
  {
    hide CompScope, QuietB;
    var h, n := Declare(f, ITER), |f.locals|;
    assert h.locals[n] == Local(ITER, f.depth, false);
    GrowsScope(body, h, [x], loop, false);
    hide Around;
    assert SameLocal(h.locals[n], CompScope(body, h, [x], loop).fn.locals[n]);
  }

  /** Whatever was captured, the loop ends by popping the slot. */
  lemma IteratorIsPopped(x: string, over: Expr, body: seq<Stmt>, f: Fn)
    requires f.Fn?
    ensures var m := CompForIn(x, over, body, f); m.code != [] && m.code[|m.code| - 1] == Plain(OP_POP)
  {
    hide CompE, CompScope, Size, Resolved;
    var a := Emit(CompE(over, f), Plain(OP_GET_ITER));
    var g := Declare(a.fn, ITER);
    var b := CompScope(body, g, [x], InLoop(f.depth, f.tries));
    var back := Emit(b, Rewind(3 + Size(b.code) + 3));
    var m := JumpOver(Made(a.code, g), OP_FOR_ITER, Size(back.code), Emit(back, Plain(OP_POP)));
    LastResolved(m.code, Size(a.code) + 3 + Size(back.code), Size(a.code));
  }

  lemma LastResolved(code: seq<Ins>, stop: nat, skip: nat)
    requires code != [] && code[|code| - 1] == Plain(OP_POP)
    ensures Resolve(code, stop, skip)[|code| - 1] == Plain(OP_POP)
  {
    hide Size;
  }

  /** A function in the loop that names the iterator: its slot is captured, and popped all the same. */
  lemma IteratorIsCaptured()
    ensures var body := [Def("f", [], [], [Return(Some(Name(ITER)))])];
            var g := CompScope(body, Declare(ScriptFn, ITER), ["x"], InLoop(0, 0)).fn;
            Level(ScriptFn) && |g.locals| == 2 && g.locals[1] == Local(ITER, 0, true)
  {
    hide CompB, CompS;
    var f := DeclareAll(Deeper(Declare(ScriptFn, ITER)), ["x"]);
    assert f == Declare(Deeper(Declare(ScriptFn, ITER)), "x") by { assert ["x"][1..] == []; }
    IteratorFound(f);
    InnerCaptures(f);
    var def := Def("f", [], [], [Return(Some(Name(ITER)))]);
    DefCaptures(f, def);
    OneStmt(def, f, InLoop(0, 0));
    var g := CompB([def], f, InLoop(0, 0), true).fn;
    assert g.locals[..2] == [Local("", 0, false), Local(ITER, 0, true)];
    assert LocalsWithin(g.locals, 0) == g.locals[..2];
  }

  /** The function around, with its iterator captured. */
  function Taken(f: Fn): Fn
    requires f.Fn? && |f.locals| > 1
  {
    f.(locals := f.locals[1 := Local(ITER, 0, true)])
  }

  lemma InnerCaptures(f: Fn)
    requires f.Fn? && |f.locals| > 1 && FindLocal(f.locals, ITER) == Some(1) && f.locals[1] == Local(ITER, 0, false)
    ensures var g := CompS(Return(Some(Name(ITER))), Begin(f, []), NoLoop, true).fn; g.Fn? && g.enclosing == Taken(f)
  {
    var inner := Begin(f, []);
    assert inner == Fn(f, 1, 0, [Local("", 0, false)], [], [], 1);
    assert FindLocal(inner.locals, ITER) == None by { assert inner.locals[..0] == []; }
    hide FindLocal;
    assert Read(inner, ITER).fn.enclosing == Taken(f);
  }

  lemma DefCaptures(f: Fn, def: Stmt)
    requires f.Fn? && |f.locals| > 1 && def == Def("f", [], [], [Return(Some(Name(ITER)))])
    requires var g := CompS(def.body[0], Begin(f, []), NoLoop, true).fn; g.Fn? && g.enclosing == Taken(f)
    ensures var g := CompS(def, f, InLoop(0, 0), true).fn; g.locals == Taken(f).locals && g.depth == f.depth
  {
    hide CompB, Begin, Capture;
    OneStmt(def.body[0], Begin(f, []), NoLoop);
    var a := Finish(CompB(def.body, Begin(f, []), NoLoop, true), [Plain(OP_NULL), Plain(OP_RETURN)]);
    assert CompEs([], a.fn) == Start(a.fn);
  }

  lemma IteratorFound(f: Fn)
    requires f == Declare(Deeper(Declare(ScriptFn, ITER)), "x")
    ensures f.locals == [Local("", 0, false), Local(ITER, 0, false), Local("x", 1, false)] && FindLocal(f.locals, ITER) == Some(1)
  {
    assert f.locals[..2] == [Local("", 0, false), Local(ITER, 0, false)];
    assert FindLocal(f.locals[..2], ITER) == Some(1);
  }

  lemma OneStmt(s: Stmt, f: Fn, loop: Loop)
    requires f.Fn?
    ensures CompB([s], f, loop, true).fn == CompS(s, f, loop, true).fn
  {
    hide CompS;
    assert [s][1..] == [];
  }

  // ---- In the machine ----

  /** The slot is popped plainly and the next value is pushed into it. */
  ghost function Reused(v: U.View, slot: nat, x: Value): (w: U.View)
    requires U.WellFormed(v) && slot < |v.vals|
    ensures U.WellFormed(w) && w.at == v.at
  {
    v.(vals := v.vals[slot := x])
  }

  /** A plain pop leaves to every closure what it reads, whatever is pushed next, exactly if no upvalue points to the slot. */
  lemma PlainPopIsSafe(v: U.View, slot: nat)
    requires U.WellFormed(v) && slot < |v.vals|
    ensures (forall u | u in v.at :: v.at[u] != slot)
            <==> (forall u, x | u in v.at :: U.ReadOf(Reused(v, slot, x), u) == U.ReadOf(v, u))
  {
    if u :| u in v.at && v.at[u] == slot {
      var x := if v.vals[slot] == VNull then VBool(true) else VNull;
      assert U.ReadOf(Reused(v, slot, x), u) == x != U.ReadOf(v, u);
    }
    if forall u | u in v.at :: v.at[u] != slot {
      forall u, x | u in v.at ensures U.ReadOf(Reused(v, slot, x), u) == U.ReadOf(v, u) { assert v.at[u] != slot; }
    }
  }
}
