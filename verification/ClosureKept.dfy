/** Every construct of the language keeps its code sealed and its operands legal. */
module ClosureKept {
  import opened Bytes
  import opened Values
  import opened Bytecode
  import opened ClosureCode
  import opened ClosureSeals
  import CV = ChunkVerify

  // ---- Variables ----

  lemma KeptVariable(f: Fn, m: Made, i: Ins)
    requires Kept(f, m) && (i.Upvalue? || (i.Slot? && i.slot < m.fn.peak)) && InsOk(i, m.fn.constants, m.fn.peak, |m.fn.upvalues|)
    ensures Kept(f, Emit(m, i))
  {
    hide Kept;
    KeptEmit(f, m, i);
  }

  lemma GoodLocals(f: Fn)
    requires f.Fn? && Good(f)
    ensures |f.locals| <= f.peak
  {}

  lemma ReadKept(f: Fn, x: string)
    requires f.Fn? && Good(f)
    ensures Kept(f, Read(f, x))
  {
    hide Good, Kept, Extends, FindLocal, Capture;
    GoodLocals(f);
    KeptSelf(f);
    match FindLocal(f.locals, x)
    case Some(i) => KeptVariable(f, Start(f), Slot(OP_GET_LOCAL, i));
    case None =>
      var (g, up) := Capture(f, x);
      CaptureGood(f, x);
      KeptStart(f, g);
      match up
      case Some(u) => KeptVariable(f, Start(g), Upvalue(OP_GET_UPVALUE, u));
      case None => KeptConstant(f, Start(g), OP_GET_GLOBAL, Text(x));
  }

  lemma StoreKept(f: Fn, x: string)
    requires f.Fn? && Good(f)
    ensures Kept(f, Store(f, x))
  {
    hide Good, Kept, Extends, FindLocal, Capture;
    GoodLocals(f);
    KeptSelf(f);
    match FindLocal(f.locals, x)
    case Some(i) =>
      KeptVariable(f, Start(f), Slot(OP_SET_LOCAL, i));
      KeptPlain(f, Emit(Start(f), Slot(OP_SET_LOCAL, i)), OP_POP);
    case None =>
      var (g, up) := Capture(f, x);
      CaptureGood(f, x);
      KeptStart(f, g);
      match up
      case Some(u) =>
        KeptVariable(f, Start(g), Upvalue(OP_SET_UPVALUE, u));
        KeptPlain(f, Emit(Start(g), Upvalue(OP_SET_UPVALUE, u)), OP_POP);
      case None =>
        if g.enclosing.Fn? && g.depth > 0 {
          DeclareGood(g, x);
          KeptFn(f, Start(g), Declare(g, x));
        } else {
          KeptConstant(f, Start(g), OP_DEFINE_GLOBAL, Text(x));
        }
  }

  lemma DeclareGood(f: Fn, x: string)
    requires f.Fn? && Good(f)
    ensures Good(Declare(f, x)) && Extends(f, Declare(f, x))
  {
    hide WellMade;
    ExtendsSelf(f.enclosing);
  }

  // ---- Scopes ----

  /** Changes of scope depth, of open try blocks and of fewer locals. */
  lemma SameGood(f: Fn, g: Fn)
    requires f.Fn? && g.Fn? && Good(f) && g.enclosing == f.enclosing && g.constants == f.constants && g.peak == f.peak && g.upvalues == f.upvalues
    requires |g.locals| <= |f.locals|
    ensures Good(g) && Extends(f, g)
  {
    hide WellMade;
    ExtendsSelf(f.enclosing);
  }

  lemma {:induction false} PopsPlain(locals: seq<Local>, d: nat)
    ensures forall i | i in PopsAbove(locals, d) :: i == Plain(OP_POP) || i == Plain(OP_CLOSE_UPVALUE)
    decreases |locals|
  {
    if locals != [] { PopsPlain(locals[..|locals| - 1], d); }
  }

  lemma EndScopeKept(f: Fn, m: Made)
    requires Kept(f, m)
    ensures Kept(f, EndScope(m))
  {
    hide Kept, Good, PopsAbove, LocalsWithin;
    KeptGood(f, m);
    var d := if m.fn.depth > 0 then m.fn.depth - 1 else 0;
    PopsPlain(m.fn.locals, d);
    KeptMany(f, m, PopsAbove(m.fn.locals, d));
    var g := m.fn.(depth := d, locals := LocalsWithin(m.fn.locals, d));
    SameGood(m.fn, g);
    KeptFn(f, Made(m.code + PopsAbove(m.fn.locals, d), m.fn), g);
  }

  lemma LeaveLoopKept(f: Fn, loop: Loop, i: Ins)
    requires f.Fn? && Good(f) && (i.Exit? || i.Again?)
    ensures Kept(f, Made(LeaveLoop(f, loop) + [i], f))
  {
    hide Kept, Good, PopsAbove;
    KeptSelf(f);
    if loop.InLoop? { PopsPlain(f.locals, loop.depth); }
    assert [] + LeaveLoop(f, loop) == LeaveLoop(f, loop);
    KeptMany(f, Start(f), LeaveLoop(f, loop));
    KeptEmit(f, Made(LeaveLoop(f, loop), f), i);
  }

  lemma {:induction false} ShallowGood(b: seq<Stmt>, f: Fn, names: seq<string>)
    requires f.Fn? && Good(f)
    ensures var g := Shallow(b, f, names).0; Good(g) && Extends(f, g)
    decreases b
  {
    hide Good, Extends, Capture, FindLocal;
    ExtendsSelf(f);
    if b != [] {
      match b[0] {
        case Assign(x, _) =>
          CaptureGood(f, x);
          var (g, new_) := Unknown(f, x);
          ShallowOn(b, f, g, if new_ && x !in names then names + [x] else names);
        case If(_, thn, els) =>
          var (g, some) := Shallow(thn, f, names);
          var (h, more) := Shallow(els, g, some);
          ShallowGood(thn, f, names);
          ShallowGood(els, g, some);
          ExtendsOn(f, g, h);
          ShallowOn(b, f, h, more);
        case Try(body, _, _) =>
          var (g, some) := Shallow(body, f, names);
          ShallowGood(body, f, names);
          ShallowOn(b, f, g, some);
        case _ => ShallowOn(b, f, f, names);
      }
    }
  }

  lemma {:induction false} ShallowOn(b: seq<Stmt>, f: Fn, g: Fn, names: seq<string>)
    requires f.Fn? && g.Fn? && b != [] && Good(g) && Extends(f, g)
    ensures var h := Shallow(b[1..], g, names).0; Good(h) && Extends(f, h)
    decreases b, 0
  {
    hide Good, Extends, Shallow;
    ShallowGood(b[1..], g, names);
    ExtendsOn(f, g, Shallow(b[1..], g, names).0);
  }

  lemma HoistedGood(thn: seq<Stmt>, els: seq<Stmt>, f: Fn)
    requires f.Fn? && Good(f)
    ensures var g := Hoisted(thn, els, f).0; Good(g) && Extends(f, g)
  {
    hide Good, Extends, Shallow;
    ExtendsSelf(f);
    var (g, some) := Shallow(thn, f, []);
    ShallowGood(thn, f, []);
    ShallowGood(els, g, some);
    ExtendsOn(f, g, Shallow(els, g, some).0);
  }

  // ---- Functions inside functions ----

  lemma BeginGood(f: Fn, params: seq<string>)
    requires f.Fn? && Good(f)
    ensures Good(Begin(f, params)) && Extends(f, Begin(f, params).enclosing)
  {
    hide WellMade;
    var g := Fn(f, 1, 0, [Local("", 0, false)], [], [], 1);
    assert Good(g);
    ExtendsSelf(f);
    DeclareAllGood(g, params);
  }

  lemma FinishKept(f: Fn, params: seq<string>, m: Made, tail: seq<Ins>)
    requires f.Fn? && Good(f) && Kept(Begin(f, params), m) && Rank(m.fn) >= 2
    requires tail == [Plain(OP_RETURN)] || tail == [Plain(OP_NULL), Plain(OP_RETURN)]
    ensures Kept(f, Finish(m, tail))
  {
    hide Sealed, Valid, WellMade, Begin;
    FinishMade(m, tail, Begin(f, params));
    BeginEncloses(f, params);
    ExtendsFacts(Begin(f, params), m.fn);
    var c := Code(m.code + tail, m.fn.constants, |m.fn.upvalues|, m.fn.peak);
    var outer := m.fn.enclosing;
    KeptStart(f, outer);
    AddConstantGood(outer, c);
    KeptFn(f, Start(outer), AddConstant(outer, c));
    hide Kept, Good, Extends;
    assert Finish(m, tail) == Emit(Made([], AddConstant(outer, c)), Closure(|outer.constants|, m.fn.upvalues));
    KeptEmit(f, Made([], AddConstant(outer, c)), Closure(|outer.constants|, m.fn.upvalues));
  }

  lemma BeginEncloses(f: Fn, params: seq<string>)
    ensures Begin(f, params).Fn? && Begin(f, params).enclosing == f
  {}

  lemma FinishMade(m: Made, tail: seq<Ins>, f: Fn)
    requires Kept(f, m)
    requires tail == [Plain(OP_RETURN)] || tail == [Plain(OP_NULL), Plain(OP_RETURN)]
    ensures WellMade(Code(m.code + tail, m.fn.constants, |m.fn.upvalues|, m.fn.peak))
  {
    hide SealedAt, Extends;
    var code := m.code + tail;
    ValidJoin(m.code, tail, m.fn.constants, m.fn.peak, |m.fn.upvalues|);
    if |tail| == 1 {
      assert code[..|code| - 1] == m.code;
    } else {
      SealedOne(Plain(OP_NULL), 0, [Plain(OP_NULL)]);
      SealedJoin(m.code, [Plain(OP_NULL)]);
      assert code[..|code| - 1] == m.code + [Plain(OP_NULL)];
    }
  }

  // ---- Expressions ----

  lemma {:induction false} KeepsE(e: Expr, f: Fn)
    requires f.Fn? && Good(f)
    ensures Kept(f, CompE(e, f))
    decreases e, 2
  {
    hide Kept, Good, CompE;
    match e
    case Literal => KeepsLeaf(e, f);
    case Truth(_) => KeepsLeaf(e, f);
    case Name(_) => KeepsLeaf(e, f);
    case And(l, r) => KeepsAnd(l, r, f);
    case Or(l, r) => KeepsOr(l, r, f);
    case Lambda(_, _) => KeepsLambda(e, f);
    case LambdaBlock(_, _) => KeepsLambda(e, f);
    case Unary(_, _) => KeepsOperator(e, f);
    case Binary(_, _, _) => KeepsOperator(e, f);
    case _ => KeepsParts(e, f);
  }

  lemma KeepsLeaf(e: Expr, f: Fn)
    requires (e.Literal? || e.Truth? || e.Name?) && f.Fn? && Good(f)
    ensures Kept(f, CompE(e, f))
  {
    hide Kept, Good, Read;
    KeptSelf(f);
    match e
    case Literal => KeptConstant(f, Start(f), OP_CONSTANT, Data);
    case Truth(b) => KeptPlain(f, Start(f), if b then OP_TRUE else OP_FALSE);
    case Name(x) => ReadKept(f, x);
  }

  lemma {:induction false} KeepsOperator(e: Expr, f: Fn)
    requires (e.Unary? || e.Binary?) && f.Fn? && Good(f)
    ensures Kept(f, CompE(e, f))
    decreases e, 1
  {
    hide Kept, Good;
    match e
    case Unary(op, r) =>
      KeepsE(r, f);
      KeptPlain(f, CompE(r, f), op);
    case Binary(op, l, r) =>
      var a := CompE(l, f);
      KeepsE(l, f);
      KeptGood(f, a);
      KeepsE(r, a.fn);
      KeptJoin(f, a, CompE(r, a.fn));
      KeptPlain(f, Join(a, CompE(r, a.fn)), op);
  }

  lemma {:induction false} KeepsLambda(e: Expr, f: Fn)
    requires (e.Lambda? || e.LambdaBlock?) && f.Fn? && Good(f)
    ensures Kept(f, CompE(e, f))
    decreases e, 1
  {
    hide Kept, Good, Begin, Finish, CompB;
    match e
    case Lambda(params, result) =>
      BeginGood(f, params);
      KeepsE(result, Begin(f, params));
      FinishKept(f, params, CompE(result, Begin(f, params)), [Plain(OP_RETURN)]);
    case LambdaBlock(params, body) =>
      BeginGood(f, params);
      KeepsB(body, Begin(f, params), NoLoop, false);
      FinishKept(f, params, CompB(body, Begin(f, params), NoLoop, false), [Plain(OP_RETURN)]);
  }

  lemma {:induction false} KeepsParts(e: Expr, f: Fn)
    requires e.List? || e.Index? || e.Property? || e.Method? || e.Call?
    requires f.Fn? && Good(f)
    ensures Kept(f, CompE(e, f))
    decreases e, 1
  {
    hide Kept, Good, CompEs, Size;
    match e
    case List(items) =>
      KeepsEs(items, f);
      KeptEmit(f, CompEs(items, f), Count(OP_LIST, |items|));
    case Index(obj, index) =>
      var a := CompE(obj, f);
      KeepsE(obj, f);
      KeptGood(f, a);
      KeepsE(index, a.fn);
      KeptJoin(f, a, CompE(index, a.fn));
      KeptPlain(f, Join(a, CompE(index, a.fn)), OP_GET_INDEX);
    case Property(obj) =>
      KeepsE(obj, f);
      KeptConstant(f, CompE(obj, f), OP_GET_PROPERTY, Data);
    case _ => KeepsCall(e, f);
  }

  lemma {:induction false} KeepsCall(e: Expr, f: Fn)
    requires e.Method? || e.Call?
    requires f.Fn? && Good(f)
    ensures Kept(f, CompE(e, f))
    decreases e, 0
  {
    hide Kept, Good, CompEs, Size;
    match e
    case Method(obj, args) =>
      var a := CompE(obj, f);
      var b := Join(a, CompEs(args, a.fn));
      KeepsE(obj, f);
      KeptGood(f, a);
      KeepsEs(args, a.fn);
      KeptJoin(f, a, CompEs(args, a.fn));
      KeptGood(f, b);
      AddConstantGood(b.fn, Data);
      KeptFn(f, b, AddConstant(b.fn, Data));
      KeptEmit(f, Made(b.code, AddConstant(b.fn, Data)), Invoke(|b.fn.constants|, |args|));
    case Call(callee, args) =>
      var a := CompE(callee, f);
      KeepsE(callee, f);
      KeptGood(f, a);
      KeepsEs(args, a.fn);
      KeptJoin(f, a, CompEs(args, a.fn));
      KeptEmit(f, Join(a, CompEs(args, a.fn)), Count(OP_CALL, |args|));
  }

  lemma {:induction false} KeepsEs(es: seq<Expr>, f: Fn)
    requires f.Fn? && Good(f)
    ensures Kept(f, CompEs(es, f))
    decreases es, 0
  {
    hide Kept, Good, CompE;
    if es == [] {
      KeptSelf(f);
    } else {
      var a := CompE(es[0], f);
      KeepsE(es[0], f);
      KeptGood(f, a);
      KeepsEs(es[1..], a.fn);
      KeptJoin(f, a, CompEs(es[1..], a.fn));
    }
  }

  /** A piece behind a pop. */
  lemma PoppedKept(f: Fn, m: Made)
    requires f.Fn? && Good(f) && Kept(f, m)
    ensures Kept(f, Join(Emit(Start(f), Plain(OP_POP)), m))
  {
    hide Kept, Good;
    KeptSelf(f);
    KeptPlain(f, Start(f), OP_POP);
    KeptJoin(f, Emit(Start(f), Plain(OP_POP)), m);
  }

  lemma {:induction false} KeepsAnd(l: Expr, r: Expr, f: Fn)
    requires f.Fn? && Good(f)
    ensures Kept(f, CompE(And(l, r), f))
    decreases And(l, r), 0
  {
    hide Kept, Good, Starts, Size;
    var a := CompE(l, f);
    KeepsE(l, f);
    KeptGood(f, a);
    KeepsE(r, a.fn);
    var b := Join(Emit(Start(a.fn), Plain(OP_POP)), CompE(r, a.fn));
    PoppedKept(a.fn, CompE(r, a.fn));
    StartsEnd(b.code);
    KeptJump(f, a, OP_JUMP_IF_FALSE, Size(b.code), b);
  }

  lemma {:induction false} KeepsOr(l: Expr, r: Expr, f: Fn)
    requires f.Fn? && Good(f)
    ensures Kept(f, CompE(Or(l, r), f))
    decreases Or(l, r), 0
  {
    hide Kept, Good, Starts, Size;
    var a := CompE(l, f);
    KeepsE(l, f);
    KeptGood(f, a);
    KeepsE(r, a.fn);
    var b := Join(Emit(Start(a.fn), Plain(OP_POP)), CompE(r, a.fn));
    PoppedKept(a.fn, CompE(r, a.fn));
    KeptSelf(a.fn);
    StartsEnd(b.code);
    var c := JumpOver(Start(a.fn), OP_JUMP, Size(b.code), b);
    KeptJump(a.fn, Start(a.fn), OP_JUMP, Size(b.code), b);
    SizeNone();
    AfterHop(Start(a.fn).code, OP_JUMP, Size(b.code), b.code);
    KeptJump(f, a, OP_JUMP_IF_FALSE, 3, c);
  }

  lemma SizeNone()
    ensures Size([]) == 0
  {}

  /** What a jump passes over starts right behind it. */
  lemma AfterHop(a: seq<Ins>, op: byte, n: nat, b: seq<Ins>)
    ensures Starts(a + [Hop(op, n)] + b, Size(a) + 3) && Starts(a + [Hop(op, n)] + b, Size(a))
  {
    SizeEmit(a, Hop(op, n));
    StartsEnd(a + [Hop(op, n)]);
    StartsLeft(a + [Hop(op, n)], b, Size(a) + 3);
    StartsEnd(a);
    StartsLeft(a, [Hop(op, n)], Size(a));
    StartsLeft(a + [Hop(op, n)], b, Size(a));
  }

  // ---- Statements ----

  lemma {:induction false} KeepsB(b: seq<Stmt>, f: Fn, loop: Loop, drop: bool)
    requires f.Fn? && Good(f)
    ensures Kept(f, CompB(b, f, loop, drop))
    decreases b, 0
  {
    hide Kept, Good, CompS;
    if b == [] {
      KeptSelf(f);
    } else {
      var a := CompS(b[0], f, loop, drop);
      KeepsS(b[0], f, loop, drop);
      KeptGood(f, a);
      KeepsB(b[1..], a.fn, loop, drop);
      KeptJoin(f, a, CompB(b[1..], a.fn, loop, drop));
    }
  }

  lemma {:induction false} KeepsScope(b: seq<Stmt>, f: Fn, names: seq<string>, loop: Loop)
    requires f.Fn? && Good(f)
    ensures Kept(f, CompScope(b, f, names, loop))
    decreases b, 1
  {
    hide Kept, Good, Extends, CompB, EndScope;
    var g := Deeper(f);
    var h := DeclareAll(g, names);
    SameGood(f, g);
    DeclareAllGood(g, names);
    KeptStart(f, g);
    KeptFn(f, Start(g), h);
    KeepsB(b, h, loop, true);
    KeptJoin(f, Start(h), CompB(b, h, loop, true));
    JoinStart(h, CompB(b, h, loop, true));
    EndScopeKept(f, CompB(b, h, loop, true));
  }

  lemma JoinStart(f: Fn, m: Made)
    ensures Join(Start(f), m) == m
  {}

  lemma {:induction false} KeepsS(s: Stmt, f: Fn, loop: Loop, drop: bool)
    requires f.Fn? && Good(f)
    ensures Kept(f, CompS(s, f, loop, drop))
    decreases s, 2
  {
    hide Kept, Good, Extends, Size, CompE, CompB, CompIf, CompWhile, CompUntil, CompRepeat, CompForIn, CompTry, CompScope, LeaveLoop, Resolve;
    match s
    case If(c, thn, els) => KeepsIf(c, thn, els, f, loop);
    case Unless(c, body) => KeepsUnless(c, body, f, loop, drop);
    case While(c, body) => KeepsWhile(c, body, f);
    case Until(c, body) => KeepsUntil(c, body, f);
    case Forever(body) => KeepsForever(body, f, loop, drop);
    case Repeat(count, body) => KeepsRepeat(count, body, f);
    case ForIn(x, over, body) => KeepsForIn(x, over, body, f);
    case Try(body, x, handler) => KeepsTry(body, x, handler, f, loop);
    case Stop => LeaveLoopKept(f, loop, Exit);
    case Skip => LeaveLoopKept(f, loop, Again);
    case Def(name, params, defaults, body) => KeepsDef(name, params, defaults, body, f, loop, drop);
    case _ => KeepsSimple(s, f, loop, drop);
  }

  lemma {:induction false} KeepsSimple(s: Stmt, f: Fn, loop: Loop, drop: bool)
    requires (s.Do? || s.Print? || s.Assign? || s.Throw? || s.Return?) && f.Fn? && Good(f)
    ensures Kept(f, CompS(s, f, loop, drop))
    decreases s, 1
  {
    hide Kept, Good, Extends, Size, CompE, Store;
    match s
    case Do(e) =>
      KeepsE(e, f);
      if drop && Dropped(e) { KeptPlain(f, CompE(e, f), OP_POP); }
    case Print(e) =>
      KeepsE(e, f);
      KeptPlain(f, CompE(e, f), OP_PRINT);
    case Assign(x, e) =>
      KeepsE(e, f);
      KeptGood(f, CompE(e, f));
      StoreKept(CompE(e, f).fn, x);
      KeptJoin(f, CompE(e, f), Store(CompE(e, f).fn, x));
    case Throw(e) =>
      KeepsE(e, f);
      KeptPlain(f, CompE(e, f), OP_THROW);
    case Return(None) =>
      KeptSelf(f);
      KeptPlain(f, Start(f), OP_NULL);
      KeptPlain(f, Emit(Start(f), Plain(OP_NULL)), OP_RETURN);
    case Return(Some(e)) =>
      KeepsE(e, f);
      KeptPlain(f, CompE(e, f), OP_RETURN);
  }

  lemma {:induction false} KeepsDef(name: string, params: seq<string>, defaults: seq<Expr>, body: seq<Stmt>, f: Fn, loop: Loop, drop: bool)
    requires f.Fn? && Good(f)
    ensures Kept(f, CompS(Def(name, params, defaults, body), f, loop, drop))
    decreases Def(name, params, defaults, body), 1
  {
    hide Kept, Good, Extends, CompB, CompEs, Begin;
    BeginGood(f, params);
    var inner := CompB(body, Begin(f, params), NoLoop, true);
    KeepsB(body, Begin(f, params), NoLoop, true);
    FinishKept(f, params, inner, [Plain(OP_NULL), Plain(OP_RETURN)]);
    hide Finish;
    var a := Finish(inner, [Plain(OP_NULL), Plain(OP_RETURN)]);
    KeptGood(f, a);
    KeepsEs(defaults, a.fn);
    var b := Join(a, CompEs(defaults, a.fn));
    KeptJoin(f, a, CompEs(defaults, a.fn));
    KeptEmit(f, b, Count(OP_SET_DEFAULTS, |defaults|));
    KeptConstant(f, if defaults == [] then b else Emit(b, Count(OP_SET_DEFAULTS, |defaults|)), OP_DEFINE_GLOBAL, Text(name));
  }

  lemma GuardedKept(f: Fn, c: Made, n: nat, body: Made)
    requires Kept(f, c) && Kept(c.fn, body) && Starts(Join(Emit(Start(c.fn), Plain(OP_POP)), body).code, n)
    ensures Kept(f, Guarded(c, n, body))
  {
    hide Kept, Good, Starts, Size;
    KeptGood(f, c);
    PoppedKept(c.fn, body);
    KeptJump(f, c, OP_JUMP_IF_FALSE, n, Join(Emit(Start(c.fn), Plain(OP_POP)), body));
  }

  /** One instruction further in. */
  lemma StartsPopped(f: Fn, m: Made, t: nat)
    requires Starts(m.code, t)
    ensures Starts(Join(Emit(Start(f), Plain(OP_POP)), m).code, 1 + t) && Size(Join(Emit(Start(f), Plain(OP_POP)), m).code) == 1 + Size(m.code)
  {
    hide Starts, Size;
    assert [] + [Plain(OP_POP)] == [Plain(OP_POP)];
    SizeOne(Plain(OP_POP));
    SizeJoin([Plain(OP_POP)], m.code);
    StartsRight([Plain(OP_POP)], m.code, t);
  }

  lemma {:induction false} KeepsUnless(c: Expr, body: seq<Stmt>, f: Fn, loop: Loop, drop: bool)
    requires f.Fn? && Good(f)
    ensures Kept(f, CompS(Unless(c, body), f, loop, drop))
    decreases Unless(c, body), 1
  {
    hide Kept, Good, CompE, CompB, Starts, Size;
    var a := CompE(c, f);
    KeepsE(c, f);
    KeptGood(f, a);
    KeepsB(body, a.fn, loop, true);
    PoppedKept(a.fn, CompB(body, a.fn, loop, true));
    var b := Join(Emit(Start(a.fn), Plain(OP_POP)), CompB(body, a.fn, loop, true));
    StartsEnd(b.code);
    KeptSelf(a.fn);
    KeptJump(a.fn, Start(a.fn), OP_JUMP, Size(b.code), b);
    var m := JumpOver(Start(a.fn), OP_JUMP, Size(b.code), b);
    SizeNone();
    AfterHop(Start(a.fn).code, OP_JUMP, Size(b.code), b.code);
    StartsPopped(a.fn, m, 3);
    GuardedKept(f, a, 4, m);
  }

  lemma NullsKept(f: Fn, n: nat)
    requires f.Fn? && Good(f)
    ensures Kept(f, Nulls(f, n))
  {
    hide Kept, Good;
    KeptSelf(f);
    assert [] + Copies(Plain(OP_NULL), n) == Copies(Plain(OP_NULL), n);
    KeptMany(f, Start(f), Copies(Plain(OP_NULL), n));
  }

  lemma {:induction false} KeepsIf(c: Expr, thn: seq<Stmt>, els: seq<Stmt>, f: Fn, loop: Loop)
    requires f.Fn? && Good(f)
    ensures Kept(f, CompIf(c, thn, els, f, loop))
    decreases If(c, thn, els), 1
  {
    hide Kept, Good, Extends, CompE, CompB, Starts, Hoisted, Nulls, Guarded, Size;
    var a := CompE(c, f);
    KeepsE(c, f);
    KeptGood(f, a);
    var (g, names) := Hoisted(thn, els, a.fn);
    HoistedGood(thn, els, a.fn);
    DeclareAllGood(g, names);
    var h := DeclareAll(g, names);
    ExtendsOn(a.fn, g, h);
    NullsKept(h, |names|);
    NullsFn(h, |names|);
    KeptGood(h, Nulls(h, |names|));
    KeptStart(a.fn, h);
    KeptJoin(a.fn, Start(h), Nulls(h, |names|));
    JoinStart(h, Nulls(h, |names|));
    KeepsB(thn, h, loop, true);
    var t := Join(Nulls(h, |names|), CompB(thn, h, loop, true));
    KeptJoin(a.fn, Nulls(h, |names|), CompB(thn, h, loop, true));
    KeptGood(a.fn, t);
    KeepsElse(els, t.fn, |names|, loop);
    var e := Join(Emit(Start(t.fn), Plain(OP_POP)), Join(Nulls(t.fn, |names|), CompB(els, t.fn, loop, true)));
    StartsEnd(e.code);
    KeptJump(a.fn, t, OP_JUMP, Size(e.code), e);
    AfterHop(t.code, OP_JUMP, Size(e.code), e.code);
    StartsPopped(a.fn, JumpOver(t, OP_JUMP, Size(e.code), e), Size(t.code) + 3);
    GuardedKept(f, a, 1 + Size(t.code) + 3, JumpOver(t, OP_JUMP, Size(e.code), e));
  }

  lemma NullsFn(f: Fn, n: nat)
    ensures Nulls(f, n).fn == f
  {}

  lemma {:induction false} KeepsElse(els: seq<Stmt>, f: Fn, n: nat, loop: Loop)
    requires f.Fn? && Good(f)
    ensures Kept(f, Join(Emit(Start(f), Plain(OP_POP)), Join(Nulls(f, n), CompB(els, f, loop, true))))
    decreases els, 1
  {
    hide Kept, Good, CompB, Nulls;
    NullsKept(f, n);
    NullsFn(f, n);
    KeepsB(els, f, loop, true);
    KeptJoin(f, Nulls(f, n), CompB(els, f, loop, true));
    PoppedKept(f, Join(Nulls(f, n), CompB(els, f, loop, true)));
  }

  // ---- Loops ----

  /** Where the parts of code with two jumps in it begin. */
  lemma AroundStarts(a: seq<Ins>, i: Ins, b: seq<Ins>, j: Ins, c: seq<Ins>, t: nat)
    requires Starts(c, t)
    ensures var w := a + [i] + b + [j] + c;
            var after := Size(a) + Len(i) + Size(b) + Len(j);
            && Starts(w, 0) && Starts(w, Size(a)) && Starts(w, Size(w)) && Starts(w, after + t) && Size(w) == after + Size(c)
  {
    hide Starts, Size;
    var w := a + [i] + b + [j] + c;
    AroundSizes(a, i, b, j);
    SizeJoin(a + [i] + b + [j], c);
    StartsZero(w);
    StartsEnd(w);
    StartsEnd(a);
    StartsLeft(a, [i] + b + [j] + c, Size(a));
    assert a + ([i] + b + [j] + c) == w;
    StartsRight(a + [i] + b + [j], c, t);
  }

  lemma {:induction false} KeepsForever(body: seq<Stmt>, f: Fn, loop: Loop, drop: bool)
    requires f.Fn? && Good(f)
    ensures Kept(f, CompS(Forever(body), f, loop, drop))
    decreases Forever(body), 1
  {
    hide Kept, Good, CompScope, Starts, Resolve, Size;
    var a := CompScope(body, f, [], InLoop(f.depth, f.tries));
    KeepsScope(body, f, [], InLoop(f.depth, f.tries));
    StartsZero(a.code);
    KeptBack(f, a, Size(a.code) + 3);
    var m := Emit(a, Rewind(Size(a.code) + 3));
    StartsZero(m.code);
    StartsEnd(m.code);
    KeptResolved(f, m, Size(m.code), 0);
  }

  lemma {:induction false} KeepsWhile(c: Expr, body: seq<Stmt>, f: Fn)
    requires f.Fn? && Good(f)
    ensures Kept(f, CompWhile(c, body, f))
    decreases While(c, body), 1
  {
    hide Kept, Good, CompE, CompScope, Starts, Resolve, Size, Guarded;
    var a := CompE(c, f);
    KeepsE(c, f);
    KeptGood(f, a);
    var b := CompScope(body, a.fn, [], InLoop(f.depth, f.tries));
    KeepsScope(body, a.fn, [], InLoop(f.depth, f.tries));
    WhileKept(f, a, b);
  }

  function WhileMade(a: Made, b: Made): Made {
    var back := Emit(Emit(b, Rewind(Size(a.code) + 4 + Size(b.code) + 3)), Plain(OP_POP));
    Guarded(a, 1 + Size(b.code) + 3, back)
  }

  lemma WhileKept(f: Fn, a: Made, b: Made)
    requires Kept(f, a) && a.fn.Fn? && Good(a.fn) && Kept(a.fn, b)
    ensures var m := WhileMade(a, b); m.fn.Fn? && Kept(f, Made(Resolve(m.code, Size(m.code), 0), m.fn))
  {
    hide Kept, Good, Starts, Resolve, Size, Lands;
    PoppedKept(a.fn, b);
    var p := Join(Emit(Start(a.fn), Plain(OP_POP)), b);
    KeptGood(a.fn, b);
    KeptSelf(b.fn);
    KeptPlain(b.fn, Start(b.fn), OP_POP);
    var q := Emit(Start(b.fn), Plain(OP_POP));
    StartsEnd(b.code);
    StartsPopped(a.fn, b, Size(b.code));
    var i, j := Hop(OP_JUMP_IF_FALSE, 1 + Size(b.code) + 3), Rewind(Size(a.code) + 4 + Size(b.code) + 3);
    StartsZero(q.code);
    AroundStarts(a.code, i, p.code, j, q.code, 0);
    var m := WhileMade(a, b);
    assert m.code == a.code + [i] + p.code + [j] + q.code;
    WhileLands(a.code, p.code, q.code, Size(b.code));
    KeptAround(f, a, i, p, j, q);
    KeptResolved(f, m, Size(m.code), 0);
  }

  lemma WhileLands(a: seq<Ins>, p: seq<Ins>, q: seq<Ins>, n: nat)
    requires Size(p) == 1 + n
    requires var w := a + [Hop(OP_JUMP_IF_FALSE, 1 + n + 3)] + p + [Rewind(Size(a) + 4 + n + 3)] + q;
             Starts(w, 0) && Starts(w, Size(a) + 3 + Size(p) + 3)
    ensures var i, j := Hop(OP_JUMP_IF_FALSE, 1 + n + 3), Rewind(Size(a) + 4 + n + 3);
            var w := a + [i] + p + [j] + q;
            Lands(i, Size(a), w) && Lands(j, Size(a) + 3 + Size(p), w)
  {
    hide Starts, Size;
  }

  lemma {:induction false} KeepsUntil(c: Expr, body: seq<Stmt>, f: Fn)
    requires f.Fn? && Good(f)
    ensures Kept(f, CompUntil(c, body, f))
    decreases Until(c, body), 1
  {
    hide Kept, Good, CompE, CompScope, Starts, Resolve, Size, Guarded;
    var a := CompE(c, f);
    KeepsE(c, f);
    KeptGood(f, a);
    var s := CompScope(body, a.fn, [], InLoop(f.depth, f.tries));
    KeepsScope(body, a.fn, [], InLoop(f.depth, f.tries));
    PoppedKept(a.fn, s);
    var b := Join(Emit(Start(a.fn), Plain(OP_POP)), s);
    var back := Emit(b, Rewind(Size(a.code) + 7 + Size(b.code) + 3));
    var m := Guarded(a, 4, JumpOver(Start(a.fn), OP_JUMP, Size(back.code), back));
    UntilKept(f, a, b);
    hide Guarded, UntilMade;
    assert m == UntilMade(a, b) by { UntilIs(a, b); }
    StartsZero(m.code);
    StartsEnd(m.code);
    KeptResolved(f, m, Size(m.code), 0);
  }

  lemma UntilIs(a: Made, b: Made)
    requires Size(b.code + [Rewind(Size(a.code) + 7 + Size(b.code) + 3)]) == Size(b.code) + 3
    ensures var back := Emit(b, Rewind(Size(a.code) + 7 + Size(b.code) + 3));
            Guarded(a, 4, JumpOver(Start(a.fn), OP_JUMP, Size(back.code), back)) == UntilMade(a, b)
  {
    hide Size;
  }

  function UntilMade(a: Made, b: Made): Made {
    Made(a.code + [Hop(OP_JUMP_IF_FALSE, 4)] + [Plain(OP_POP)] + [Hop(OP_JUMP, Size(b.code) + 3)] + b.code
         + [Rewind(Size(a.code) + 7 + Size(b.code) + 3)], b.fn)
  }

  /** The way out of an until loop passes over the jump back. */
  lemma UntilKept(f: Fn, a: Made, b: Made)
    requires Kept(f, a) && Kept(a.fn, b)
    ensures Kept(f, UntilMade(a, b)) && Size(b.code + [Rewind(Size(a.code) + 7 + Size(b.code) + 3)]) == Size(b.code) + 3
  {
    hide Good, Extends, SealedAt, Starts, InsOk, Size;
    var i, p, j, k := Hop(OP_JUMP_IF_FALSE, 4), [Plain(OP_POP)], Hop(OP_JUMP, Size(b.code) + 3), Rewind(Size(a.code) + 7 + Size(b.code) + 3);
    var front := a.code + [i] + p + [j] + b.code;
    SizeEmit(b.code, k);
    SizeOne(Plain(OP_POP));
    AroundSizes(a.code, i, p, j);
    SizeJoin(a.code + [i] + p + [j], b.code);
    SizeEmit(front, k);
    StartsEnd(front + [k]);
    StartsZero(front + [k]);
    StartsEnd(a.code + [i] + p + [j]);
    StartsLeft(a.code + [i] + p + [j], b.code + [k], Size(a.code + [i] + p + [j]));
    assert a.code + [i] + p + [j] + (b.code + [k]) == front + [k];
    SealedOne(Plain(OP_POP), 0, p);
    SealedAround(a.code, i, p, j, b.code, [k]);
    SealedOne(k, Size(front), front + [k]);
    SealedTogether(front, [k], 0, front + [k]);
    KeptFn(f, a, b.fn);
    UntilValid(a.code, i, p, j, b.code, k, b.fn.constants, b.fn.peak, |b.fn.upvalues|);
  }

  lemma UntilValid(a: seq<Ins>, i: Ins, p: seq<Ins>, j: Ins, b: seq<Ins>, k: Ins, constants: seq<Constant>, peak: nat, ups: nat)
    requires Valid(a, constants, peak, ups) && Valid(b, constants, peak, ups) && Hop(OP_JUMP_IF_FALSE, 4) == i && p == [Plain(OP_POP)] && j.Hop? && j.op == OP_JUMP && k.Rewind?
    ensures Valid(a + [i] + p + [j] + b + [k], constants, peak, ups)
  {}

  lemma {:induction false} KeepsForIn(x: string, over: Expr, body: seq<Stmt>, f: Fn)
    requires f.Fn? && Good(f)
    ensures Kept(f, CompForIn(x, over, body, f))
    decreases ForIn(x, over, body), 1
  {
    hide Kept, Good, Extends, CompE, CompScope, Starts, Resolve, Size;
    var e := CompE(over, f);
    KeepsE(over, f);
    KeptPlain(f, e, OP_GET_ITER);
    KeptGood(f, Emit(e, Plain(OP_GET_ITER)));
    var g := Declare(e.fn, "_iter");
    DeclareGood(e.fn, "_iter");
    var a := Made(Emit(e, Plain(OP_GET_ITER)).code, g);
    KeptFn(f, Emit(e, Plain(OP_GET_ITER)), g);
    var b := CompScope(body, g, [x], InLoop(f.depth, f.tries));
    KeepsScope(body, g, [x], InLoop(f.depth, f.tries));
    ForInKept(f, a, b);
    var m := ForInMade(a, b);
    ForgetKept(f, Made(Resolve(m.code, Size(a.code) + 3 + Size(Emit(b, Rewind(3 + Size(b.code) + 3)).code), Size(a.code)), m.fn), 1);
  }

  function ForInMade(a: Made, b: Made): Made {
    var back := Emit(b, Rewind(3 + Size(b.code) + 3));
    JumpOver(a, OP_FOR_ITER, Size(back.code), Emit(back, Plain(OP_POP)))
  }

  lemma ForInKept(f: Fn, a: Made, b: Made)
    requires Kept(f, a) && a.fn.Fn? && Kept(a.fn, b)
    ensures var m, back := ForInMade(a, b), Emit(b, Rewind(3 + Size(b.code) + 3));
            m.fn.Fn? && Kept(f, Made(Resolve(m.code, Size(a.code) + 3 + Size(back.code), Size(a.code)), m.fn))
  {
    hide Kept, Good, Starts, Resolve, Size;
    KeptGood(a.fn, b);
    KeptSelf(b.fn);
    KeptPlain(b.fn, Start(b.fn), OP_POP);
    var q := Emit(Start(b.fn), Plain(OP_POP));
    var j := Rewind(3 + Size(b.code) + 3);
    SizeEmit(b.code, j);
    var i := Hop(OP_FOR_ITER, Size(b.code) + 3);
    StartsZero(q.code);
    AroundStarts(a.code, i, b.code, j, q.code, 0);
    KeptAround(f, a, i, b, j, q);
    var m := ForInMade(a, b);
    assert m.code == a.code + [i] + b.code + [j] + q.code;
    KeptResolved(f, m, Size(a.code) + 3 + (Size(b.code) + 3), Size(a.code));
  }

  lemma ForgetKept(f: Fn, m: Made, n: nat)
    requires Kept(f, m)
    ensures Kept(f, Made(m.code, Forget(m.fn, n)))
  {
    hide Kept, Good, Extends;
    KeptGood(f, m);
    SameGood(m.fn, Forget(m.fn, n));
    KeptFn(f, m, Forget(m.fn, n));
  }

  lemma {:induction false} KeepsTry(body: seq<Stmt>, x: string, handler: seq<Stmt>, f: Fn, loop: Loop)
    requires f.Fn? && Good(f)
    ensures Kept(f, CompTry(body, x, handler, f, loop))
    decreases Try(body, x, handler), 1
  {
    hide Kept, Good, Extends, CompB, CompScope, Starts, Size;
    var g := f.(tries := f.tries + 1);
    SameGood(f, g);
    var c := CompB(body, g, loop, true);
    KeepsB(body, g, loop, true);
    var b := Emit(c, Plain(OP_END_TRY));
    KeptPlain(g, c, OP_END_TRY);
    KeptGood(g, b);
    var h := b.fn.(tries := f.tries);
    SameGood(b.fn, h);
    KeptFn(g, b, h);
    KeptStart(f, g);
    KeptJoin(f, Start(g), Made(b.code, h));
    JoinStart(g, Made(b.code, h));
    var r := CompScope(handler, h, [x], loop);
    KeepsScope(handler, h, [x], loop);
    StartsEnd(r.code);
    KeptJump(f, Made(b.code, h), OP_JUMP, Size(r.code), r);
    AfterHop(b.code, OP_JUMP, Size(r.code), r.code);
    KeptSelf(f);
    KeptJump(f, Start(f), OP_TRY, Size(b.code) + 3, JumpOver(Made(b.code, h), OP_JUMP, Size(r.code), r));
  }

  // ---- Counted loops ----

  lemma RepeatHeadKept(f: Fn, c: Made, g: Fn, k: nat)
    requires Kept(f, c) && g.Fn? && Good(g) && Extends(c.fn, g) && k + 1 < g.peak
    ensures var h := RepeatHead(c, g, k); Kept(f, h) && h.fn == g && Starts(h.code, Size(c.code)) && Size(h.code) == Size(c.code) + 7
  {
    hide Kept, Good, Extends, Starts, Size;
    var m0 := Made(c.code, g);
    var m1 := Emit(m0, Slot(OP_GET_LOCAL, k + 1));
    var m2 := Emit(m1, Slot(OP_GET_LOCAL, k));
    KeptFn(f, c, g);
    KeptVariable(f, m0, Slot(OP_GET_LOCAL, k + 1));
    KeptVariable(f, m1, Slot(OP_GET_LOCAL, k));
    KeptPlain(f, m2, OP_LESS);
    StartsEnd(c.code);
    StartsLeft(c.code, [Slot(OP_GET_LOCAL, k + 1)], Size(c.code));
    StartsLeft(m1.code, [Slot(OP_GET_LOCAL, k)], Size(c.code));
    StartsLeft(m2.code, [Plain(OP_LESS)], Size(c.code));
    SizeEmit(c.code, Slot(OP_GET_LOCAL, k + 1));
    SizeEmit(m1.code, Slot(OP_GET_LOCAL, k));
    SizeEmit(m2.code, Plain(OP_LESS));
  }

  lemma RepeatUpKept(f: Fn, b: Made, k: nat)
    requires Kept(f, b) && b.fn.Fn? && k + 1 < b.fn.peak
    ensures var u := RepeatUp(b, k); Kept(f, u) && Starts(u.code, Size(b.code))
  {
    hide Kept, Good, Starts, Size;
    var i := Slot(OP_GET_LOCAL, k + 1);
    var m1 := Emit(b, i);
    var m2 := EmitConstant(m1, OP_CONSTANT, Data);
    var m3 := Emit(m2, Plain(OP_ADD));
    var m4 := Emit(m3, Slot(OP_SET_LOCAL, k + 1));
    KeptVariable(f, b, i);
    KeptConstant(f, m1, OP_CONSTANT, Data);
    KeptPlain(f, m2, OP_ADD);
    KeptVariable(f, m3, Slot(OP_SET_LOCAL, k + 1));
    KeptPlain(f, m4, OP_POP);
    StartsEnd(b.code);
    StartsLeft(b.code, [i], Size(b.code));
    StartsLeft(m1.code, [Const(OP_CONSTANT, |m1.fn.constants|)], Size(b.code));
    StartsLeft(m2.code, [Plain(OP_ADD)], Size(b.code));
    StartsLeft(m3.code, [Slot(OP_SET_LOCAL, k + 1)], Size(b.code));
    StartsLeft(m4.code, [Plain(OP_POP)], Size(b.code));
  }

  lemma {:induction false} KeepsRepeat(count: Expr, body: seq<Stmt>, f: Fn)
    requires f.Fn? && Good(f)
    ensures Kept(f, CompRepeat(count, body, f))
    decreases Repeat(count, body), 1
  {
    hide Kept, Good, Extends, CompE, CompScope, Starts, Resolve, Lands, DeclareAll, Size;
    var e := CompE(count, f);
    KeepsE(count, f);
    var c := EmitConstant(e, OP_CONSTANT, Data);
    KeptConstant(f, e, OP_CONSTANT, Data);
    KeptGood(f, c);
    var g, k := DeclareAll(c.fn, ["", ""]), |c.fn.locals|;
    DeclareAllGood(c.fn, ["", ""]);
    GoodLocals(g);
    var head := RepeatHead(c, g, k);
    RepeatHeadKept(f, c, g, k);
    var b := CompScope(body, g, [], InLoop(f.depth, f.tries));
    KeepsScope(body, g, [], InLoop(f.depth, f.tries));
    KeptGood(g, b);
    ExtendsFacts(g, b.fn);
    var up := RepeatUp(b, k);
    RepeatUpKept(g, b, k);
    hide RepeatHead, RepeatUp;
    RepeatLoopKept(f, head, b, up, Size(c.code));
    var m := RepeatMade(head, up);
    ForgetKept(f, Made(Resolve(m.code, Size(head.code) + 4 + (Size(up.code) + 3) + 1, Size(head.code) + 4 + Size(b.code)), m.fn), 2);
  }

  lemma RepeatLoopKept(f: Fn, head: Made, b: Made, up: Made, start: nat)
    requires Kept(f, head) && head.fn.Fn? && Kept(head.fn, up) && Starts(up.code, Size(b.code)) && Starts(head.code, start)
    requires Size(head.code) == start + 7
    ensures var m := RepeatMade(head, up);
            m.fn.Fn? && Kept(f, Made(Resolve(m.code, Size(head.code) + 4 + (Size(up.code) + 3) + 1, Size(head.code) + 4 + Size(b.code)), m.fn))
  {
    hide Kept, Good, Starts, Resolve, Size;
    KeptGood(f, head);
    PoppedKept(head.fn, up);
    var p := Join(Emit(Start(head.fn), Plain(OP_POP)), up);
    assert p.code == [Plain(OP_POP)] + up.code;
    StartsPopped(head.fn, up, Size(b.code));
    KeptGood(head.fn, up);
    KeptSelf(up.fn);
    var pops := [Plain(OP_POP), Plain(OP_POP), Plain(OP_POP)];
    KeptMany(up.fn, Start(up.fn), pops);
    assert [] + pops == pops;
    var q := Made(pops, up.fn);
    PopsStart();
    var i, j := Hop(OP_JUMP_IF_FALSE, 1 + (Size(up.code) + 3)), Rewind(7 + 4 + Size(up.code) + 3);
    var m := RepeatMade(head, up);
    AroundStarts(head.code, i, p.code, j, pops, 0);
    AroundStarts(head.code, i, p.code, j, pops, 1);
    StartsLeft(head.code, [i] + p.code + [j] + pops, start);
    assert head.code + ([i] + p.code + [j] + pops) == m.code;
    InnerStarts(head.code, i, p.code, j, pops, 1 + Size(b.code));
    KeptAround(f, head, i, p, j, q);
    KeptResolved(f, m, Size(head.code) + 4 + (Size(up.code) + 3) + 1, Size(head.code) + 4 + Size(b.code));
  }

  lemma PopsStart()
    ensures var pops := [Plain(OP_POP), Plain(OP_POP), Plain(OP_POP)]; Starts(pops, 0) && Starts(pops, 1)
  {
    var pops := [Plain(OP_POP), Plain(OP_POP), Plain(OP_POP)];
    var one := [Plain(OP_POP)];
    SizeOne(Plain(OP_POP));
    assert pops == one + (one + one);
    StartsZero(pops);
    StartsLeft(one, one + one, 1);
  }

  lemma InnerStarts(a: seq<Ins>, i: Ins, b: seq<Ins>, j: Ins, c: seq<Ins>, t: nat)
    requires Starts(b, t)
    ensures Starts(a + [i] + b + [j] + c, Size(a) + Len(i) + t)
  {
    hide Starts, Size;
    SizeEmit(a, i);
    StartsRight(a + [i], b, t);
    StartsLeft(a + [i] + b, [j], Size(a) + Len(i) + t);
    StartsLeft(a + [i] + b + [j], c, Size(a) + Len(i) + t);
  }

  // ---- Whole programs ----

  /** Every function of a script, and the script itself, is well made. */
  lemma ScriptIsWellMade(b: seq<Stmt>)
    ensures WellMade(Script(b))
  {
    hide Kept, CompB, WellMade;
    KeepsB(b, ScriptFn, NoLoop, true);
    var m := CompB(b, ScriptFn, NoLoop, true);
    FinishMade(m, [Plain(OP_NULL), Plain(OP_RETURN)], ScriptFn);
    KeptGood(ScriptFn, m);
    TopCapturesNothing(m.fn);
  }

  lemma TopCapturesNothing(f: Fn)
    requires f.Fn? && Good(f) && Extends(ScriptFn, f)
    ensures f.upvalues == []
  {
    hide WellMade;
  }
}
