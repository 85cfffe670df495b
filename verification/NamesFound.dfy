/** Every construct of the language keeps it: the variable instructions it emits are the uses of its walk. */
module NamesFound {
  import opened Bytes
  import opened Values
  import opened Bytecode
  import opened ClosureCode
  import opened ClosureSeals
  import opened ClosureKept
  import opened ClosureNames
  import I = IteratorSlot

  // ---- Pieces ----

  /** The piece m, made in state f, does what was walked. */
  predicate Done(f: Fn, m: Made, w: Walk) {
    f.Fn? && m.fn.Fn? && Extends(f, m.fn) && Gains(f, m.fn, w.made) && AllFit(m.code, w.events, ChainOf(m.fn), m.fn.constants)
  }

  lemma DoneStart(f: Fn)
    requires f.Fn?
    ensures Done(f, Start(f), Walk([], []))
  {
    ExtendsSelf(f);
    MadeNothing(f, f);
  }

  lemma NoneJoined()
    ensures var none: seq<string> := []; none + none == none
  {}

  lemma FitLater(code: seq<Ins>, events: seq<Event>, f: Fn, g: Fn)
    requires f.Fn? && g.Fn? && Extends(f, g) && AllFit(code, events, ChainOf(f), f.constants)
    ensures AllFit(code, events, ChainOf(g), g.constants)
  {
    ChainLonger(f, g);
    ExtendsFacts(f, g);
    hide AllFit, ChainOf, Extends;
    AllStays(code, events, ChainOf(f), f.constants, ChainOf(g), g.constants);
  }

  lemma DoneFn(f: Fn, m: Made, w: Walk, g: Fn, names: seq<string>)
    requires Done(f, m, w) && g.Fn? && Extends(m.fn, g) && Gains(m.fn, g, names)
    ensures Done(f, Made(m.code, g), Walk(w.events, w.made + names))
  {
    ExtendsOn(f, m.fn, g);
    MadeOn(f, m.fn, g, w.made, names);
    FitLater(m.code, w.events, m.fn, g);
    hide AllFit, Extends, Gains;
  }

  lemma DoneJoin(f: Fn, a: Made, wa: Walk, b: Made, wb: Walk)
    requires Done(f, a, wa) && Done(a.fn, b, wb)
    ensures Done(f, Join(a, b), Walk(wa.events + wb.events, wa.made + wb.made))
  {
    DoneFn(f, a, wa, b.fn, wb.made);
    hide AllFit, Extends, Gains;
    AllJoin(a.code, wa.events, b.code, wb.events, ChainOf(b.fn), b.fn.constants);
  }

  /** What does not name variables can come in between. */
  lemma DoneCode(f: Fn, m: Made, w: Walk, code: seq<Ins>)
    requires Done(f, m, w) && Uses(code) == Uses(m.code)
    ensures Done(f, Made(code, m.fn), w)
  {
    hide Extends, Gains;
  }

  lemma DoneEmit(f: Fn, m: Made, w: Walk, i: Ins)
    requires Done(f, m, w) && !IsUse(i)
    ensures Done(f, Emit(m, i), w)
  {
    hide Done;
    UsesEmit(m.code, i);
    DoneCode(f, m, w, m.code + [i]);
  }

  lemma ConstantAdded(f: Fn, c: Constant)
    requires f.Fn?
    ensures Extends(f, AddConstant(f, c)) && Gains(f, AddConstant(f, c), [])
  {
    ExtendsSelf(f.enclosing);
    MadeNothing(f, AddConstant(f, c));
  }

  lemma DoneAdded(f: Fn, m: Made, w: Walk, c: Constant)
    requires Done(f, m, w)
    ensures m.fn.Fn? && Done(f, Made(m.code, AddConstant(m.fn, c)), w)
  {
    hide AllFit, Extends, Gains;
    ConstantAdded(m.fn, c);
    DoneFn(f, m, w, AddConstant(m.fn, c), []);
    assert w.made + [] == w.made;
  }

  lemma DoneConstant(f: Fn, m: Made, w: Walk, op: byte, c: Constant)
    requires Done(f, m, w) && op !in {OP_GET_GLOBAL, OP_DEFINE_GLOBAL}
    ensures m.fn.Fn? && Done(f, EmitConstant(m, op, c), w)
  {
    hide Done;
    DoneAdded(f, m, w, c);
    DoneEmit(f, Made(m.code, AddConstant(m.fn, c)), w, Const(op, |m.fn.constants|));
  }

  /** One instruction for one use. */
  lemma DoneUse(f: Fn, m: Made, w: Walk, i: Ins, e: Event)
    requires Done(f, m, w) && IsUse(i) && m.fn.Fn? && Fits(i, e, ChainOf(m.fn), m.fn.constants)
    ensures Done(f, Emit(m, i), Walk(w.events + [e], w.made))
  {
    hide Fits, Extends, Gains, ChainOf;
    UsesOne(i);
    assert AllFit([i], [e], ChainOf(m.fn), m.fn.constants);
    hide AllFit;
    AllJoin(m.code, w.events, [i], [e], ChainOf(m.fn), m.fn.constants);
  }

  /** A global by its name. */
  lemma DoneGlobal(f: Fn, m: Made, w: Walk, op: byte, x: string, e: Event)
    requires Done(f, m, w) && op in {OP_GET_GLOBAL, OP_DEFINE_GLOBAL}
    requires e == Define(x) || (e.Use? && e.x == x && !Visible(e.scopes, x))
    requires op == if e.Use? && !e.write then OP_GET_GLOBAL else OP_DEFINE_GLOBAL
    ensures m.fn.Fn? && Done(f, EmitConstant(m, op, Text(x)), Walk(w.events + [e], w.made))
  {
    hide Done, Visible, Means;
    DoneAdded(f, m, w, Text(x));
    var n := Made(m.code, AddConstant(m.fn, Text(x)));
    DoneUse(f, n, w, Const(op, |m.fn.constants|), e);
  }

  lemma DoneFacts(f: Fn, m: Made, w: Walk)
    requires Done(f, m, w)
    ensures m.fn.Fn? && Extends(f, m.fn) && ScopesOf(f) != [] && ScopesOf(m.fn) == With(ScopesOf(f), w.made)
    ensures w.made == [] ==> ScopesOf(m.fn) == ScopesOf(f)
    ensures Level(f) ==> Level(m.fn)
  {
    MadeScopes(f, m.fn, w.made);
    if Level(f) { MadeLevel(f, m.fn, w.made); }
    hide AllFit, Extends, Gains, Level;
    if w.made == [] { WithNothing(ScopesOf(f)); }
  }

  lemma WithNothing(scopes: Scopes)
    requires scopes != []
    ensures With(scopes, []) == scopes
  {
    assert scopes[0] + [] == scopes[0];
  }

  // ---- Variables ----

  lemma LocalMeans(f: Fn, x: string)
    requires f.Fn?
    ensures var r := FindLocal(f.locals, x);
            if r.Some? then Means(ScopesOf(f), x, 0, r.value) && Visible(ScopesOf(f), x)
            else (Visible(ScopesOf(f), x) <==> Visible(ScopesOf(f.enclosing), x))
  {
    hide FindLocal, Visible, Means;
    LatestFound(f.locals, x);
    var r := FindLocal(f.locals, x);
    if r.Some? {
      HereMeans(ScopesOf(f), x, r.value);
      MeansVisible(ScopesOf(f), x, 0, r.value);
    } else {
      NotHere(f, x);
    }
  }

  lemma MeansVisible(scopes: Scopes, x: string, level: nat, slot: nat)
    requires Means(scopes, x, level, slot)
    ensures Visible(scopes, x)
  {
    assert x in scopes[level];
  }

  /** The state after a name was looked up around. */
  lemma LookedDone(f: Fn, x: string)
    requires f.Fn? && FindLocal(f.locals, x).None?
    ensures var (g, up) := Capture(f, x);
            && Done(f, Start(g), Walk([], [])) && g.enclosing.Fn? == f.enclosing.Fn? && g.depth == f.depth
            && ScopesOf(g) == ScopesOf(f)
            && (up.None? <==> !Visible(ScopesOf(f), x))
            && (up.Some? ==> var end := EndOf(ChainOf(g), up.value);
                             end.Some? && Means(ScopesOf(f), x, end.value.level, end.value.slot))
  {
    hide Capture, FindLocal, Visible, Means, Gains, Extends;
    LocalMeans(f, x);
    CaptureMeans(f, x);
    var (g, up) := Capture(f, x);
    MadeNothing(f, g);
    SameScopes(f, g);
    FramesApart(f, g);
    SomeFrames(f.enclosing);
    SomeFrames(g.enclosing);
    if up.Some? {
      var end := EndOf(ChainOf(g), up.value).value;
      AbsentHere(f, x);
      MeansFurther(ScopesOf(f), x, end.level - 1, end.slot);
      MeansVisible(ScopesOf(f), x, end.level, end.slot);
    }
  }

  lemma AbsentHere(f: Fn, x: string)
    requires f.Fn? && FindLocal(f.locals, x).None?
    ensures x !in ScopesOf(f)[0] && ScopesOf(f)[1..] == ScopesOf(f.enclosing)
  {
    hide FindLocal, Visible;
    LatestFound(f.locals, x);
    NotHere(f, x);
  }

  lemma ReadDone(f: Fn, x: string)
    requires f.Fn?
    ensures Done(f, Read(f, x), Walk([Use(false, x, ScopesOf(f))], []))
  {
    hide FindLocal, Capture, Done, Visible, Means, ChainOf, ScopesOf, EndOf;
    var e := Use(false, x, ScopesOf(f));
    assert [] + [e] == [e];
    LocalMeans(f, x);
    match FindLocal(f.locals, x)
    case Some(i) =>
      DoneStart(f);
      DoneUse(f, Start(f), Walk([], []), Slot(OP_GET_LOCAL, i), e);
    case None =>
      LookedDone(f, x);
      var (g, up) := Capture(f, x);
      match up
      case Some(u) => DoneUse(f, Start(g), Walk([], []), Upvalue(OP_GET_UPVALUE, u), e);
      case None => DoneGlobal(f, Start(g), Walk([], []), OP_GET_GLOBAL, x, e);
  }

  /** What an assignment to the name does, behind its value. */
  function WalkStore(x: string, scopes: Scopes): Walk {
    if |scopes| > 1 && !Visible(scopes, x) then Walk([], [x]) else Walk([Use(true, x, scopes)], [])
  }

  lemma StoreDone(f: Fn, x: string)
    requires f.Fn? && Level(f)
    ensures Done(f, Store(f, x), WalkStore(x, ScopesOf(f)))
  {
    hide FindLocal, Capture, Done, Visible, Means, ChainOf, ScopesOf, EndOf, Declare;
    var e := Use(true, x, ScopesOf(f));
    assert [] + [e] == [e];
    LocalMeans(f, x);
    HowMany(f);
    match FindLocal(f.locals, x)
    case Some(i) =>
      DoneStart(f);
      DoneUse(f, Start(f), Walk([], []), Slot(OP_SET_LOCAL, i), e);
      DoneEmit(f, Emit(Start(f), Slot(OP_SET_LOCAL, i)), Walk([e], []), Plain(OP_POP));
    case None =>
      LookedDone(f, x);
      var (g, up) := Capture(f, x);
      match up
      case Some(u) =>
        DoneUse(f, Start(g), Walk([], []), Upvalue(OP_SET_UPVALUE, u), e);
        DoneEmit(f, Emit(Start(g), Upvalue(OP_SET_UPVALUE, u)), Walk([e], []), Plain(OP_POP));
      case None =>
        if g.enclosing.Fn? && g.depth > 0 {
          DoneDeclare(f, Start(g), Walk([], []), x);
          assert [] + [x] == [x];
        } else {
          DoneGlobal(f, Start(g), Walk([], []), OP_DEFINE_GLOBAL, x, e);
        }
  }

  lemma HowMany(f: Fn)
    requires f.Fn?
    ensures |ScopesOf(f)| > 1 <==> f.enclosing.Fn?
  {}

  lemma Declares(f: Fn, x: string)
    requires f.Fn?
    ensures Extends(f, Declare(f, x)) && Gains(f, Declare(f, x), [x])
  {
    ExtendsSelf(f.enclosing);
    assert Tags(Declare(f, x).locals) == Tags(f.locals) + Tagged([x], f.depth);
  }

  lemma DoneDeclare(f: Fn, m: Made, w: Walk, x: string)
    requires Done(f, m, w)
    ensures m.fn.Fn? && Done(f, Made(m.code, Declare(m.fn, x)), Walk(w.events, w.made + [x]))
  {
    hide AllFit, Gains, Extends, Declare;
    Declares(m.fn, x);
    DoneFn(f, m, w, Declare(m.fn, x), [x]);
  }

  lemma {:induction false} DeclaresAll(f: Fn, xs: seq<string>)
    requires f.Fn?
    ensures var g := DeclareAll(f, xs); Extends(f, g) && Gains(f, g, xs)
    decreases |xs|
  {
    hide Gains, Declare, Extends;
    ExtendsSelf(f);
    MadeNothing(f, f);
    if xs != [] {
      var g := Declare(f, xs[0]);
      Declares(f, xs[0]);
      DeclaresAll(g, xs[1..]);
      ExtendsOn(f, g, DeclareAll(f, xs));
      MadeOn(f, g, DeclareAll(f, xs), [xs[0]], xs[1..]);
      assert [xs[0]] + xs[1..] == xs;
    }
  }

  // ---- Scopes ----

  lemma PopsNone(locals: seq<Local>, d: nat)
    ensures Uses(PopsAbove(locals, d)) == []
  {
    PopsPlain(locals, d);
    UsesNone(PopsAbove(locals, d));
  }

  lemma DeepGains(f: Fn, names: seq<string>)
    requires f.Fn? && Level(f)
    ensures var h := DeclareAll(Deeper(f), names);
            && Extends(f, h) && Level(h) && h.depth == f.depth + 1 && Frames(h.enclosing) == Frames(f.enclosing)
            && Tags(h.locals) == Tags(f.locals) + Tagged(names, f.depth + 1)
            && ScopesOf(h) == With(ScopesOf(f), names)
  {
    var d := Deeper(f);
    var h := DeclareAll(d, names);
    DeclaresAll(d, names);
    assert Extends(f, d) by { ExtendsSelf(f.enclosing); }
    ExtendsOn(f, d, h);
    MadeLevel(d, h, names);
    MadeScopes(d, h, names);
    hide Extends, Tags;
  }

  /** The tags of a scope that goes away. */
  lemma ScopeTags(f: Fn, ls: seq<Local>, names: seq<string>)
    requires f.Fn? && Level(f) && Tags(ls) == Tags(f.locals) + Tagged(names, f.depth + 1)
    ensures Tags(LocalsWithin(ls, f.depth)) == Tags(f.locals)
  {
    var n := |f.locals|;
    assert |ls| == n + |names|;
    forall k | 0 <= k < |ls| ensures if k < n then ls[k].depth <= f.depth && ls[k].name == f.locals[k].name && ls[k].depth == f.locals[k].depth
                                     else ls[k].depth == f.depth + 1
    {
      assert Tags(ls)[k] == (Tags(f.locals) + Tagged(names, f.depth + 1))[k];
    }
    I.WithinIs(ls, f.depth, n);
  }

  lemma ScopeDone(f: Fn, names: seq<string>, m: Made, w: Walk)
    requires f.Fn? && Level(f) && Done(DeclareAll(Deeper(f), names), m, w)
    ensures m.fn.Fn? && Done(f, EndScope(m), Walk(w.events, []))
  {
    hide AllFit, Extends, Tags, Tagged, PopsAbove, LocalsWithin, DeclareAll, Level, Frames;
    var h := DeclareAll(Deeper(f), names);
    DeepGains(f, names);
    ExtendsOn(f, h, m.fn);
    assert Tagged(names, f.depth + 1) + Tagged(w.made, f.depth + 1) == Tagged(names + w.made, f.depth + 1) by { TaggedJoin(names, w.made, f.depth + 1); }
    assert Tags(m.fn.locals) == Tags(f.locals) + Tagged(names + w.made, f.depth + 1);
    ScopeTags(f, m.fn.locals, names + w.made);
    var g := EndScope(m).fn;
    SameExtends(m.fn, g);
    ExtendsOn(f, m.fn, g);
    GainsNothing(f, g);
    UsesJoin(m.code, PopsAbove(m.fn.locals, f.depth));
    PopsNone(m.fn.locals, f.depth);
    FitLater(m.code, w.events, m.fn, g);
    SameUses(EndScope(m).code, m.code, w.events, g);
  }

  lemma TaggedJoin(a: seq<string>, b: seq<string>, d: nat)
    ensures Tagged(a + b, d) == Tagged(a, d) + Tagged(b, d)
  {}

  lemma SameUses(a: seq<Ins>, b: seq<Ins>, events: seq<Event>, g: Fn)
    requires g.Fn? && Uses(a) == Uses(b) && AllFit(b, events, ChainOf(g), g.constants)
    ensures AllFit(a, events, ChainOf(g), g.constants)
  {}

  lemma GainsNothing(f: Fn, g: Fn)
    requires f.Fn? && g.Fn? && f.depth == g.depth && Tags(g.locals) == Tags(f.locals) && Frames(g.enclosing) == Frames(f.enclosing)
    ensures Gains(f, g, [])
  {
    hide Tags, Frames;
    assert Tagged([], f.depth) == [];
    assert Tags(f.locals) + [] == Tags(f.locals);
  }

  /** Locals, scopes and open try blocks do not matter for what is captured. */
  lemma SameExtends(f: Fn, g: Fn)
    requires f.Fn? && g.Fn? && g.enclosing == f.enclosing && g.constants == f.constants && g.peak == f.peak && g.upvalues == f.upvalues
    ensures Extends(f, g)
  {
    ExtendsSelf(f.enclosing);
  }

  lemma GainsTries(f: Fn, g: Fn)
    requires f.Fn? && g.Fn? && g == f.(tries := g.tries)
    ensures Extends(f, g) && Gains(f, g, []) && ScopesOf(g) == ScopesOf(f) && (Level(f) ==> Level(g))
  {
    SameExtends(f, g);
    GainsNothing(f, g);
  }

  // ---- Functions ----

  lemma BeginNames(f: Fn, params: seq<string>)
    requires f.Fn?
    ensures var g := Begin(f, params);
            && g.enclosing == f && ScopesOf(g) == Callee(params, ScopesOf(f)) && Level(g)
  {
    var s := Fn(f, 1, 0, [Local("", 0, false)], [], [], 1);
    var g := DeclareAll(s, params);
    DeclaresAll(s, params);
    MadeLevel(s, g, params);
    MadeScopes(s, g, params);
    hide Frames, Extends, Gains;
    assert ScopesOf(s)[0] == [""];
  }

  /** The closure of a finished function. */
  lemma FinishDone(f: Fn, params: seq<string>, m: Made, w: Walk, tail: seq<Ins>)
    requires f.Fn? && Done(Begin(f, params), m, w) && m.fn.Fn? && Rank(m.fn) >= 2 && Uses(tail) == []
    ensures Done(f, Finish(m, tail), Walk([Inner(w.events)], []))
  {
    hide AllFit, Begin, ScopesOf, Rank;
    BeginNames(f, params);
    var b, outer := Begin(f, params), m.fn.enclosing;
    ExtendsFacts(b, m.fn);
    hide Extends;
    MadeNothing(f, outer);
    OuterIsFn(f, outer);
    var c := Code(m.code + tail, m.fn.constants, |m.fn.upvalues|, m.fn.peak);
    var g := AddConstant(outer, c);
    ExtendsSelf(outer);
    DoneStart(f);
    hide Gains;
    DoneFn(f, Start(f), Walk([], []), outer, []);
    NoneJoined();
    DoneAdded(f, Start(outer), Walk([], []), c);
    UsesJoin(m.code, tail);
    assert Uses(c.code) == Uses(m.code);
    InnerFits(m, w.events, c, g);
    DoneUse(f, Start(g), Walk([], []), Closure(|outer.constants|, m.fn.upvalues), Inner(w.events));
    assert [] + [Inner(w.events)] == [Inner(w.events)];
    var i := Closure(|outer.constants|, m.fn.upvalues);
    assert [] + [i] == [i];
  }

  lemma OuterIsFn(f: Fn, outer: Fn)
    requires f.Fn? && Frames(f) == Frames(outer)
    ensures outer.Fn?
  {}

  lemma InnerFits(m: Made, events: seq<Event>, c: Constant, g: Fn)
    requires m.fn.Fn? && m.fn.enclosing.Fn? && AllFit(m.code, events, ChainOf(m.fn), m.fn.constants)
    requires c.Code? && c == Code(c.code, m.fn.constants, |m.fn.upvalues|, m.fn.peak) && Uses(c.code) == Uses(m.code) && g == AddConstant(m.fn.enclosing, c)
    ensures Fits(Closure(|m.fn.enclosing.constants|, m.fn.upvalues), Inner(events), ChainOf(g), g.constants)
  {
    assert ChainOf(g) == ChainOf(m.fn.enclosing);
    assert ChainOf(m.fn) == [m.fn.upvalues] + ChainOf(g);
    assert g.constants[|m.fn.enclosing.constants|] == c;
    SameUses(c.code, m.code, events, m.fn);
  }

  // ---- Expressions ----

  lemma DonePair(f: Fn, a: Made, ea: seq<Event>, b: Made, eb: seq<Event>)
    requires Done(f, a, Walk(ea, [])) && Done(a.fn, b, Walk(eb, []))
    ensures Done(f, Join(a, b), Walk(ea + eb, []))
  {
    hide Done;
    DoneJoin(f, a, Walk(ea, []), b, Walk(eb, []));
    NoneJoined();
  }

  lemma {:induction false} NamesE(e: Expr, f: Fn)
    requires f.Fn?
    ensures ScopesOf(f) != [] && Done(f, CompE(e, f), Walk(WalkE(e, ScopesOf(f)), []))
    decreases e, 3
  {
    hide Done, CompEs, CompB, Begin, Finish, ScopesOf, WalkEs, WalkB, Read, Callee;
    NotNone(f);
    match e
    case Literal =>
      DoneStart(f);
      DoneConstant(f, Start(f), Walk([], []), OP_CONSTANT, Data);
    case Truth(b) =>
      DoneStart(f);
      DoneEmit(f, Start(f), Walk([], []), Plain(if b then OP_TRUE else OP_FALSE));
    case Name(x) => ReadDone(f, x);
    case Unary(op, r) =>
      NamesE(r, f);
      DoneEmit(f, CompE(r, f), Walk(WalkE(r, ScopesOf(f)), []), Plain(op));
    case Binary(op, l, r) =>
      NamesPair(e, l, r, f);
      DoneEmit(f, Join(CompE(l, f), CompE(r, CompE(l, f).fn)), Walk(WalkE(e, ScopesOf(f)), []), Plain(op));
    case And(l, r) => NamesLogic(e, f);
    case Or(l, r) => NamesLogic(e, f);
    case List(items) =>
      NamesEs(items, f);
      DoneEmit(f, CompEs(items, f), Walk(WalkEs(items, ScopesOf(f)), []), Count(OP_LIST, |items|));
    case Index(obj, index) =>
      NamesPair(e, obj, index, f);
      DoneEmit(f, Join(CompE(obj, f), CompE(index, CompE(obj, f).fn)), Walk(WalkE(e, ScopesOf(f)), []), Plain(OP_GET_INDEX));
    case Property(obj) =>
      NamesE(obj, f);
      DoneConstant(f, CompE(obj, f), Walk(WalkE(obj, ScopesOf(f)), []), OP_GET_PROPERTY, Data);
    case Method(obj, args) => NamesCall(e, obj, args, f);
    case Call(callee, args) => NamesCall(e, callee, args, f);
    case Lambda(_, _) => NamesLambda(e, f);
    case LambdaBlock(_, _) => NamesLambda(e, f);
  }

  lemma NotNone(f: Fn)
    requires f.Fn?
    ensures ScopesOf(f) != []
  {}

  lemma {:induction false} NamesPair(whole: Expr, l: Expr, r: Expr, f: Fn)
    requires l < whole && r < whole && f.Fn?
    ensures ScopesOf(f) != [] && Done(f, Join(CompE(l, f), CompE(r, CompE(l, f).fn)), Walk(WalkE(l, ScopesOf(f)) + WalkE(r, ScopesOf(f)), []))
    decreases whole, 1
  {
    hide Done, CompE, WalkE, ScopesOf;
    NotNone(f);
    var a := CompE(l, f);
    NamesE(l, f);
    DoneFacts(f, a, Walk(WalkE(l, ScopesOf(f)), []));
    NamesE(r, a.fn);
    DonePair(f, a, WalkE(l, ScopesOf(f)), CompE(r, a.fn), WalkE(r, ScopesOf(f)));
  }

  /** Jumps and pops in between. */
  lemma UsesBetween(a: seq<Ins>, i: Ins, b: seq<Ins>)
    ensures Uses(a + [i] + b) == Uses(a) + (if IsUse(i) then [i] else []) + Uses(b)
  {
    hide Uses;
    UsesEmit(a, i);
    UsesJoin(a + [i], b);
  }

  lemma UsesPopped(f: Fn, m: Made)
    ensures Uses(Join(Emit(Start(f), Plain(OP_POP)), m).code) == Uses(m.code)
  {
    hide Uses;
    UsesBetween([], Plain(OP_POP), m.code);
    UsesNone([]);
  }

  lemma {:induction false} NamesLogic(e: Expr, f: Fn)
    requires (e.And? || e.Or?) && f.Fn?
    ensures ScopesOf(f) != [] && Done(f, CompE(e, f), Walk(WalkE(e, ScopesOf(f)), []))
    decreases e, 2
  {
    hide Done, ScopesOf, Uses, Size;
    NotNone(f);
    var a := CompE(e.l, f);
    var c := CompE(e.r, a.fn);
    NamesPair(e, e.l, e.r, f);
    var b := Join(Emit(Start(a.fn), Plain(OP_POP)), c);
    UsesPopped(a.fn, c);
    UsesJoin(a.code, c.code);
    if e.And? {
      UsesBetween(a.code, Hop(OP_JUMP_IF_FALSE, Size(b.code)), b.code);
    } else {
      UsesBetween([], Hop(OP_JUMP, Size(b.code)), b.code);
      UsesNone([]);
      UsesBetween(a.code, Hop(OP_JUMP_IF_FALSE, 3), [] + [Hop(OP_JUMP, Size(b.code))] + b.code);
    }
    DoneCode(f, Join(a, c), Walk(WalkE(e, ScopesOf(f)), []), CompE(e, f).code);
  }

  lemma {:induction false} NamesCall(whole: Expr, callee: Expr, args: seq<Expr>, f: Fn)
    requires (whole.Method? && callee == whole.obj && args == whole.args) || (whole.Call? && callee == whole.callee && args == whole.args)
    requires f.Fn?
    ensures ScopesOf(f) != [] && Done(f, CompE(whole, f), Walk(WalkE(whole, ScopesOf(f)), []))
    decreases whole, 1
  {
    hide Done, CompEs, WalkEs, ScopesOf;
    NotNone(f);
    var a := CompE(callee, f);
    NamesE(callee, f);
    DoneFacts(f, a, Walk(WalkE(callee, ScopesOf(f)), []));
    NamesEs(args, a.fn);
    DonePair(f, a, WalkE(callee, ScopesOf(f)), CompEs(args, a.fn), WalkEs(args, ScopesOf(f)));
    var b, w := Join(a, CompEs(args, a.fn)), Walk(WalkE(whole, ScopesOf(f)), []);
    if whole.Method? {
      DoneAdded(f, b, w, Data);
      DoneEmit(f, Made(b.code, AddConstant(b.fn, Data)), w, Invoke(|b.fn.constants|, |args|));
    } else {
      DoneEmit(f, b, w, Count(OP_CALL, |args|));
    }
  }

  lemma {:induction false} NamesEs(es: seq<Expr>, f: Fn)
    requires f.Fn?
    ensures ScopesOf(f) != [] && Done(f, CompEs(es, f), Walk(WalkEs(es, ScopesOf(f)), []))
    decreases es, 0
  {
    hide Done, CompE, WalkE, ScopesOf;
    NotNone(f);
    if es == [] {
      DoneStart(f);
    } else {
      var a := CompE(es[0], f);
      NamesE(es[0], f);
      DoneFacts(f, a, Walk(WalkE(es[0], ScopesOf(f)), []));
      NamesEs(es[1..], a.fn);
      DonePair(f, a, WalkE(es[0], ScopesOf(f)), CompEs(es[1..], a.fn), WalkEs(es[1..], ScopesOf(f)));
    }
  }

  lemma TailsNone()
    ensures Uses([Plain(OP_RETURN)]) == [] && Uses([Plain(OP_NULL), Plain(OP_RETURN)]) == []
  {
    UsesNone([Plain(OP_RETURN)]);
    UsesNone([Plain(OP_NULL), Plain(OP_RETURN)]);
  }

  lemma {:induction false} NamesLambda(e: Expr, f: Fn)
    requires (e.Lambda? || e.LambdaBlock?) && f.Fn?
    ensures ScopesOf(f) != [] && Done(f, CompE(e, f), Walk(WalkE(e, ScopesOf(f)), []))
    decreases e, 1
  {
    hide Done, ScopesOf, Begin, Finish, CompB, WalkB, Level, Callee, Uses;
    NotNone(f);
    TailsNone();
    BeginNames(f, e.params);
    var g := Begin(f, e.params);
    match e
    case Lambda(params, result) =>
      NamesE(result, g);
      FinishDone(f, params, CompE(result, g), Walk(WalkE(result, ScopesOf(g)), []), [Plain(OP_RETURN)]);
    case LambdaBlock(params, body) =>
      NamesB(body, g, NoLoop, false);
      FinishDone(f, params, CompB(body, g, NoLoop, false), WalkB(body, ScopesOf(g)), [Plain(OP_RETURN)]);
  }

  // ---- Statements ----

  lemma {:induction false} NamesB(b: seq<Stmt>, f: Fn, loop: Loop, drop: bool)
    requires f.Fn? && Level(f)
    ensures ScopesOf(f) != [] && Done(f, CompB(b, f, loop, drop), WalkB(b, ScopesOf(f)))
    decreases b, 0
  {
    hide Done, CompS, WalkS, ScopesOf, Level, With;
    NotNone(f);
    if b == [] {
      DoneStart(f);
    } else {
      var a, w := CompS(b[0], f, loop, drop), WalkS(b[0], ScopesOf(f));
      NamesS(b[0], f, loop, drop);
      DoneFacts(f, a, w);
      NamesB(b[1..], a.fn, loop, drop);
      DoneJoin(f, a, w, CompB(b[1..], a.fn, loop, drop), WalkB(b[1..], ScopesOf(a.fn)));
    }
  }

  lemma {:induction false} NamesScope(b: seq<Stmt>, f: Fn, names: seq<string>, loop: Loop)
    requires f.Fn? && Level(f)
    ensures ScopesOf(f) != [] && Done(f, CompScope(b, f, names, loop), Walk(WalkB(b, With(ScopesOf(f), names)).events, []))
    decreases b, 1
  {
    hide Done, CompB, WalkB, ScopesOf, Level, With, EndScope, DeclareAll;
    NotNone(f);
    DeepGains(f, names);
    var h := DeclareAll(Deeper(f), names);
    NamesB(b, h, loop, true);
    ScopeDone(f, names, CompB(b, h, loop, true), WalkB(b, ScopesOf(h)));
  }

  lemma {:induction false} NamesS(s: Stmt, f: Fn, loop: Loop, drop: bool)
    requires f.Fn? && Level(f)
    ensures ScopesOf(f) != [] && Done(f, CompS(s, f, loop, drop), WalkS(s, ScopesOf(f)))
    decreases s, 3
  {
    hide Done, CompE, CompB, CompIf, CompWhile, CompUntil, CompRepeat, CompForIn, CompTry, CompScope, LeaveLoop, Resolve;
    hide WalkE, WalkB, ScopesOf, Level, With, Fresh, Visible, Size;
    NotNone(f);
    match s
    case Assign(x, e) => NamesAssign(x, e, f, loop, drop);
    case If(c, thn, els) => NamesIf(c, thn, els, f, loop);
    case Unless(c, body) => NamesUnless(c, body, f, loop, drop);
    case While(c, body) => NamesWhile(c, body, f);
    case Until(c, body) => NamesUntil(c, body, f);
    case Forever(body) => NamesForever(body, f, loop, drop);
    case Repeat(count, body) => NamesRepeat(count, body, f);
    case ForIn(x, over, body) => NamesForIn(x, over, body, f);
    case Try(body, x, handler) => NamesTry(body, x, handler, f, loop);
    case Stop => NamesLeave(f, loop, Exit);
    case Skip => NamesLeave(f, loop, Again);
    case Def(name, params, defaults, body) => NamesDef(name, params, defaults, body, f, loop, drop);
    case _ => NamesSimple(s, f, loop, drop);
  }

  lemma {:induction false} NamesSimple(s: Stmt, f: Fn, loop: Loop, drop: bool)
    requires (s.Do? || s.Print? || s.Throw? || s.Return?) && f.Fn?
    ensures ScopesOf(f) != [] && Done(f, CompS(s, f, loop, drop), WalkS(s, ScopesOf(f)))
    decreases s, 2
  {
    hide Done, CompE, WalkE, ScopesOf;
    NotNone(f);
    if s == Return(None) {
      DoneStart(f);
      DoneEmit(f, Start(f), Walk([], []), Plain(OP_NULL));
      DoneEmit(f, Emit(Start(f), Plain(OP_NULL)), Walk([], []), Plain(OP_RETURN));
    } else {
      var e := if s.Return? then s.value.value else s.e;
      NamesE(e, f);
      var w := Walk(WalkE(e, ScopesOf(f)), []);
      DoneEmit(f, CompE(e, f), w, Plain(OP_POP));
      DoneEmit(f, CompE(e, f), w, Plain(OP_PRINT));
      DoneEmit(f, CompE(e, f), w, Plain(OP_THROW));
      DoneEmit(f, CompE(e, f), w, Plain(OP_RETURN));
    }
  }

  lemma NamesLeave(f: Fn, loop: Loop, i: Ins)
    requires f.Fn? && (i.Exit? || i.Again?)
    ensures Done(f, Made(LeaveLoop(f, loop) + [i], f), Walk([], []))
  {
    hide Done, PopsAbove;
    DoneStart(f);
    var out := LeaveLoop(f, loop);
    if loop.InLoop? { PopsPlain(f.locals, loop.depth); }
    UsesNone(out);
    UsesEmit(out, i);
    UsesNone([]);
    DoneCode(f, Start(f), Walk([], []), out + [i]);
  }

  lemma {:induction false} NamesAssign(x: string, e: Expr, f: Fn, loop: Loop, drop: bool)
    requires f.Fn? && Level(f)
    ensures ScopesOf(f) != [] && Done(f, CompS(Assign(x, e), f, loop, drop), WalkS(Assign(x, e), ScopesOf(f)))
    decreases Assign(x, e), 2
  {
    hide Done, CompE, WalkE, ScopesOf, Level, Store, Visible;
    NotNone(f);
    var a, w := CompE(e, f), Walk(WalkE(e, ScopesOf(f)), []);
    NamesE(e, f);
    DoneFacts(f, a, w);
    StoreDone(a.fn, x);
    DoneJoin(f, a, w, Store(a.fn, x), WalkStore(x, ScopesOf(f)));
    assert w.events + [] == w.events && [] + [x] == [x];
    NoneJoined();
  }

  /** An expression, then statements that stay in the scope. */
  lemma DoneThen(f: Fn, a: Made, ea: seq<Event>, b: Made, w: Walk)
    requires Done(f, a, Walk(ea, [])) && Done(a.fn, b, w)
    ensures Done(f, Join(a, b), Walk(ea + w.events, w.made))
  {
    hide Done;
    DoneJoin(f, a, Walk(ea, []), b, w);
    assert [] + w.made == w.made;
  }

  lemma {:induction false} NamesUnless(c: Expr, body: seq<Stmt>, f: Fn, loop: Loop, drop: bool)
    requires f.Fn? && Level(f)
    ensures ScopesOf(f) != [] && Done(f, CompS(Unless(c, body), f, loop, drop), WalkS(Unless(c, body), ScopesOf(f)))
    decreases Unless(c, body), 2
  {
    hide Done, CompE, CompB, WalkE, WalkB, ScopesOf, Level, Uses, Size;
    NotNone(f);
    var a, w := CompE(c, f), Walk(WalkE(c, ScopesOf(f)), []);
    NamesE(c, f);
    DoneFacts(f, a, w);
    var d, v := CompB(body, a.fn, loop, true), WalkB(body, ScopesOf(f));
    NamesB(body, a.fn, loop, true);
    DoneThen(f, a, w.events, d, v);
    var b := Join(Emit(Start(a.fn), Plain(OP_POP)), d);
    UsesPopped(a.fn, d);
    var j := JumpOver(Start(a.fn), OP_JUMP, Size(b.code), b);
    UsesBetween([], Hop(OP_JUMP, Size(b.code)), b.code);
    UsesNone([]);
    UsesGuarded(a, 4, j);
    UsesJoin(a.code, d.code);
    DoneCode(f, Join(a, d), WalkS(Unless(c, body), ScopesOf(f)), Guarded(a, 4, j).code);
  }

  lemma UsesGuarded(c: Made, n: nat, body: Made)
    ensures Uses(Guarded(c, n, body).code) == Uses(c.code) + Uses(body.code)
  {
    hide Uses;
    UsesPopped(c.fn, body);
    UsesBetween(c.code, Hop(OP_JUMP_IF_FALSE, n), Join(Emit(Start(c.fn), Plain(OP_POP)), body).code);
  }

  // ---- Branches ----

  /** Names looked up in between are passed on, and the new ones are those of the walk. */
  predicate Settled(f: Fn, r: (Fn, seq<string>), names: seq<string>) {
    f.Fn? && r.0.Fn? && Extends(f, r.0) && Frames(r.0) == Frames(f) && r.1 == names
  }

  lemma UnknownSettled(f: Fn, x: string)
    requires f.Fn?
    ensures var r := Unknown(f, x); Extends(f, r.0) && Frames(r.0) == Frames(f) && (r.1 <==> !Visible(ScopesOf(f), x))
  {
    hide FindLocal, Capture, Visible, Frames, Extends;
    LocalMeans(f, x);
    ExtendsSelf(f);
    if FindLocal(f.locals, x).None? {
      LookedDone(f, x);
      CaptureMeans(f, x);
    }
  }

  lemma {:induction false} ShallowSettled(b: seq<Stmt>, f: Fn, names: seq<string>)
    requires f.Fn?
    ensures Settled(f, Shallow(b, f, names), Fresh(b, ScopesOf(f), names))
    decreases b, 1
  {
    hide Extends, Frames, ScopesOf, Unknown, Visible;
    ExtendsSelf(f);
    if b != [] {
      match b[0] {
        case Assign(x, _) =>
          UnknownSettled(f, x);
          var (g, new_) := Unknown(f, x);
          ShallowAfter(b, f, g, if new_ && x !in names then names + [x] else names);
        case If(_, thn, els) =>
          var (g, some) := Shallow(thn, f, names);
          ShallowSettled(thn, f, names);
          SameScopes(f, g);
          ShallowSettled(els, g, some);
          var (h, more) := Shallow(els, g, some);
          ExtendsOn(f, g, h);
          ShallowAfter(b, f, h, more);
        case Try(body, _, _) =>
          ShallowSettled(body, f, names);
          var (g, some) := Shallow(body, f, names);
          ShallowAfter(b, f, g, some);
        case _ => ShallowAfter(b, f, f, names);
      }
    }
  }

  lemma {:induction false} ShallowAfter(b: seq<Stmt>, f: Fn, g: Fn, names: seq<string>)
    requires b != [] && f.Fn? && g.Fn? && Extends(f, g) && Frames(g) == Frames(f)
    ensures Settled(f, Shallow(b[1..], g, names), Fresh(b[1..], ScopesOf(f), names))
    decreases b, 0
  {
    hide Extends, Frames, ScopesOf, Shallow, Fresh;
    SameScopes(f, g);
    ShallowSettled(b[1..], g, names);
    ExtendsOn(f, g, Shallow(b[1..], g, names).0);
  }

  /** The names an `if` makes beforehand. */
  function Early(thn: seq<Stmt>, els: seq<Stmt>, scopes: Scopes): seq<string> {
    if |scopes| > 1 then Fresh(els, scopes, Fresh(thn, scopes, [])) else []
  }

  lemma HoistedSettled(thn: seq<Stmt>, els: seq<Stmt>, f: Fn)
    requires f.Fn? && Level(f)
    ensures Settled(f, Hoisted(thn, els, f), Early(thn, els, ScopesOf(f)))
  {
    hide Extends, Frames, ScopesOf, Shallow, Fresh;
    HowMany(f);
    ExtendsSelf(f);
    if f.enclosing.Fn? {
      ShallowSettled(thn, f, []);
      var (g, some) := Shallow(thn, f, []);
      SameScopes(f, g);
      ShallowSettled(els, g, some);
      ExtendsOn(f, g, Shallow(els, g, some).0);
    }
  }

  /** Making the names. */
  lemma HoistedDone(thn: seq<Stmt>, els: seq<Stmt>, f: Fn)
    requires f.Fn? && Level(f)
    ensures var (g, names) := Hoisted(thn, els, f);
            names == Early(thn, els, ScopesOf(f)) && Done(f, Nulls(DeclareAll(g, names), |names|), Walk([], names))
  {
    hide Extends, Frames, ScopesOf, Hoisted, Early, Level, Gains, DeclareAll, ChainOf;
    HoistedSettled(thn, els, f);
    var (g, names) := Hoisted(thn, els, f);
    MadeNothing(f, g);
    var h := DeclareAll(g, names);
    DeclaresAll(g, names);
    ExtendsOn(f, g, h);
    MadeOn(f, g, h, [], names);
    assert [] + names == names;
    UsesNone(Copies(Plain(OP_NULL), |names|));
  }

  lemma NullsDone(f: Fn, n: nat)
    requires f.Fn?
    ensures Done(f, Nulls(f, n), Walk([], [])) && Nulls(f, n).fn == f
  {
    hide Done;
    DoneStart(f);
    UsesNone(Copies(Plain(OP_NULL), n));
    UsesNone([]);
    DoneCode(f, Start(f), Walk([], []), Copies(Plain(OP_NULL), n));
  }

  lemma {:induction false} NamesIf(c: Expr, thn: seq<Stmt>, els: seq<Stmt>, f: Fn, loop: Loop)
    requires f.Fn? && Level(f)
    ensures ScopesOf(f) != [] && Done(f, CompIf(c, thn, els, f, loop), WalkS(If(c, thn, els), ScopesOf(f)))
    decreases If(c, thn, els), 2
  {
    hide Done, CompE, CompB, WalkE, WalkB, ScopesOf, Level, Uses, Size, Hoisted, Nulls, DeclareAll, With, Fresh, Guarded;
    NotNone(f);
    var scopes := ScopesOf(f);
    var a, w := CompE(c, f), Walk(WalkE(c, scopes), []);
    NamesE(c, f);
    DoneFacts(f, a, w);
    var (g, names) := Hoisted(thn, els, a.fn);
    HoistedDone(thn, els, a.fn);
    var h := Nulls(DeclareAll(g, names), |names|);
    NullsFn(DeclareAll(g, names), |names|);
    DoneFacts(a.fn, h, Walk([], names));
    var tb, tw := CompB(thn, h.fn, loop, true), WalkB(thn, With(scopes, names));
    NamesB(thn, h.fn, loop, true);
    var t := Join(h, tb);
    DoneJoin(a.fn, h, Walk([], names), tb, tw);
    assert [] + tw.events == tw.events;
    var wt := Walk(tw.events, names + tw.made);
    DoneFacts(a.fn, t, wt);
    var eb, ew := CompB(els, t.fn, loop, true), WalkB(els, With(scopes, names + tw.made));
    NamesB(els, t.fn, loop, true);
    DoneJoin(a.fn, t, wt, eb, ew);
    var both, v := Join(t, eb), Walk(tw.events + ew.events, names + tw.made + ew.made);
    DoneThen(f, a, w.events, both, v);
    assert names + tw.made + ew.made == names + (tw.made + ew.made);
    var e := Join(Emit(Start(t.fn), Plain(OP_POP)), Join(Nulls(t.fn, |names|), eb));
    IfUses(a, t, e, eb, |names|, Size(e.code));
    GuardedFn(a, 1 + Size(t.code) + 3, JumpOver(t, OP_JUMP, Size(e.code), e));
    DoneCode(f, Join(a, both), WalkS(If(c, thn, els), scopes), CompIf(c, thn, els, f, loop).code);
  }

  lemma IfUses(a: Made, t: Made, e: Made, eb: Made, n: nat, over: nat)
    requires e == Join(Emit(Start(t.fn), Plain(OP_POP)), Join(Nulls(t.fn, n), eb))
    ensures forall k: nat :: Uses(Guarded(a, k, JumpOver(t, OP_JUMP, over, e)).code) == Uses(Join(a, Join(t, eb)).code)
  {
    hide Uses, Guarded;
    UsesPopped(t.fn, Join(Nulls(t.fn, n), eb));
    UsesNone(Copies(Plain(OP_NULL), n));
    UsesJoin(Copies(Plain(OP_NULL), n), eb.code);
    UsesBetween(t.code, Hop(OP_JUMP, over), e.code);
    UsesJoin(t.code, eb.code);
    UsesJoin(a.code, t.code + eb.code);
    forall k: nat ensures Uses(Guarded(a, k, JumpOver(t, OP_JUMP, over, e)).code) == Uses(Join(a, Join(t, eb)).code) {
      UsesGuarded(a, k, JumpOver(t, OP_JUMP, over, e));
    }
  }

  // ---- Loops ----

  /** A condition and the scope of a loop. */
  lemma {:induction false} NamesThenScope(whole: Stmt, c: Expr, body: seq<Stmt>, f: Fn, loop: Loop)
    requires f.Fn? && Level(f) && (whole == While(c, body) || whole == Until(c, body))
    ensures var a := CompE(c, f);
            ScopesOf(f) != [] && Done(f, Join(a, CompScope(body, a.fn, [], loop)), WalkS(whole, ScopesOf(f)))
    decreases whole, 1
  {
    hide Done, CompE, CompScope, WalkE, WalkB, ScopesOf, Level;
    NotNone(f);
    var a, w := CompE(c, f), Walk(WalkE(c, ScopesOf(f)), []);
    NamesE(c, f);
    DoneFacts(f, a, w);
    NamesScope(body, a.fn, [], loop);
    WithNothing(ScopesOf(f));
    DonePair(f, a, w.events, CompScope(body, a.fn, [], loop), WalkB(body, ScopesOf(f)).events);
  }

  lemma {:induction false} NamesWhile(c: Expr, body: seq<Stmt>, f: Fn)
    requires f.Fn? && Level(f)
    ensures ScopesOf(f) != [] && Done(f, CompWhile(c, body, f), WalkS(While(c, body), ScopesOf(f)))
    decreases While(c, body), 2
  {
    hide Done, CompE, CompScope, WalkS, ScopesOf, Level, Uses, Size, Guarded, Resolve;
    var a := CompE(c, f);
    var b := CompScope(body, a.fn, [], InLoop(f.depth, f.tries));
    NamesThenScope(While(c, body), c, body, f, InLoop(f.depth, f.tries));
    var j := Rewind(Size(a.code) + 4 + Size(b.code) + 3);
    var back := Emit(Emit(b, j), Plain(OP_POP));
    UsesEmit(b.code, j);
    UsesEmit(b.code + [j], Plain(OP_POP));
    var m := Guarded(a, 1 + Size(b.code) + 3, back);
    UsesGuarded(a, 1 + Size(b.code) + 3, back);
    GuardedFn(a, 1 + Size(b.code) + 3, back);
    UsesResolved(m.code, Size(m.code), 0);
    UsesJoin(a.code, b.code);
    DoneCode(f, Join(a, b), WalkS(While(c, body), ScopesOf(f)), Resolve(m.code, Size(m.code), 0));
  }

  lemma GuardedFn(c: Made, n: nat, body: Made)
    ensures Guarded(c, n, body).fn == body.fn
  {}

  lemma {:induction false} NamesUntil(c: Expr, body: seq<Stmt>, f: Fn)
    requires f.Fn? && Level(f)
    ensures ScopesOf(f) != [] && Done(f, CompUntil(c, body, f), WalkS(Until(c, body), ScopesOf(f)))
    decreases Until(c, body), 2
  {
    hide Done, CompE, CompScope, WalkS, ScopesOf, Level, Uses, Size, Guarded, Resolve;
    var a := CompE(c, f);
    var s := CompScope(body, a.fn, [], InLoop(f.depth, f.tries));
    NamesThenScope(Until(c, body), c, body, f, InLoop(f.depth, f.tries));
    var b := Join(Emit(Start(a.fn), Plain(OP_POP)), s);
    UsesPopped(a.fn, s);
    var j := Rewind(Size(a.code) + 7 + Size(b.code) + 3);
    var back := Emit(b, j);
    UsesEmit(b.code, j);
    UsesBetween([], Hop(OP_JUMP, Size(back.code)), back.code);
    UsesNone([]);
    var over := JumpOver(Start(a.fn), OP_JUMP, Size(back.code), back);
    var m := Guarded(a, 4, over);
    UsesGuarded(a, 4, over);
    GuardedFn(a, 4, over);
    UsesResolved(m.code, Size(m.code), 0);
    UsesJoin(a.code, s.code);
    DoneCode(f, Join(a, s), WalkS(Until(c, body), ScopesOf(f)), Resolve(m.code, Size(m.code), 0));
  }

  lemma {:induction false} NamesForever(body: seq<Stmt>, f: Fn, loop: Loop, drop: bool)
    requires f.Fn? && Level(f)
    ensures ScopesOf(f) != [] && Done(f, CompS(Forever(body), f, loop, drop), WalkS(Forever(body), ScopesOf(f)))
    decreases Forever(body), 2
  {
    hide Done, CompScope, WalkB, ScopesOf, Level, Uses, Size, Resolve;
    NotNone(f);
    var a := CompScope(body, f, [], InLoop(f.depth, f.tries));
    NamesScope(body, f, [], InLoop(f.depth, f.tries));
    WithNothing(ScopesOf(f));
    var m := Emit(a, Rewind(Size(a.code) + 3));
    UsesEmit(a.code, Rewind(Size(a.code) + 3));
    UsesResolved(m.code, Size(m.code), 0);
    DoneCode(f, a, WalkS(Forever(body), ScopesOf(f)), Resolve(m.code, Size(m.code), 0));
  }

  /** The locals of a loop go away: the state has the names it had. */
  lemma ForgetDone(f: Fn, m: Made, w: Walk, n: nat)
    requires Done(f, m, w) && |w.made| == n
    ensures m.fn.Fn? && Done(f, Made(m.code, Forget(m.fn, n)), Walk(w.events, []))
  {
    hide AllFit, Extends, Frames;
    var g := Forget(m.fn, n);
    SameExtends(m.fn, g);
    ExtendsOn(f, m.fn, g);
    FitLater(m.code, w.events, m.fn, g);
    ForgetTags(f.locals, m.fn.locals, w.made, f.depth);
    GainsNothing(f, g);
  }

  lemma ForgetTags(a: seq<Local>, b: seq<Local>, names: seq<string>, d: nat)
    requires Tags(b) == Tags(a) + Tagged(names, d)
    ensures |names| <= |b| && Tags(b[..|b| - |names|]) == Tags(a)
  {
    assert |b| == |a| + |names|;
    forall k | 0 <= k < |a| ensures Tags(b)[k] == Tags(a)[k] { assert Tags(b)[k] == (Tags(a) + Tagged(names, d))[k]; }
  }

  lemma {:induction false} NamesForIn(x: string, over: Expr, body: seq<Stmt>, f: Fn)
    requires f.Fn? && Level(f)
    ensures ScopesOf(f) != [] && Done(f, CompForIn(x, over, body, f), WalkS(ForIn(x, over, body), ScopesOf(f)))
    decreases ForIn(x, over, body), 2
  {
    hide Done, CompE, CompScope, WalkE, WalkB, ScopesOf, Level, Uses, Size, Resolve, Declare, With;
    NotNone(f);
    var scopes := ScopesOf(f);
    var e, w := CompE(over, f), Walk(WalkE(over, scopes), []);
    NamesE(over, f);
    DoneDeclare(f, e, w, "_iter");
    assert [] + ["_iter"] == ["_iter"];
    var g := Declare(e.fn, "_iter");
    var c, v := Made(e.code, g), Walk(w.events, ["_iter"]);
    DoneFacts(f, c, v);
    var b, u := CompScope(body, g, [x], InLoop(f.depth, f.tries)), Walk(WalkB(body, With(scopes, ["_iter", x])).events, []);
    NamesScope(body, g, [x], InLoop(f.depth, f.tries));
    WithTwice(scopes, ["_iter"], [x]);
    assert ["_iter"] + [x] == ["_iter", x];
    DoneJoin(f, c, v, b, u);
    assert ["_iter"] + [] == ["_iter"];
    var all := Walk(w.events + u.events, ["_iter"]);
    ForgetDone(f, Join(c, b), all, 1);
    var m := ForInMade(Made(Emit(e, Plain(OP_GET_ITER)).code, g), b);
    ForInUses(e, g, b);
    UsesResolved(m.code, Size(Emit(e, Plain(OP_GET_ITER)).code) + 3 + Size(Emit(b, Rewind(3 + Size(b.code) + 3)).code), Size(Emit(e, Plain(OP_GET_ITER)).code));
    DoneCode(f, Made(Join(c, b).code, Forget(b.fn, 1)), Walk(all.events, []), CompForIn(x, over, body, f).code);
  }

  lemma WithTwice(scopes: Scopes, a: seq<string>, b: seq<string>)
    requires scopes != []
    ensures With(With(scopes, a), b) == With(scopes, a + b)
  {
    assert scopes[0] + a + b == scopes[0] + (a + b);
  }

  lemma ForInUses(e: Made, g: Fn, b: Made)
    ensures Uses(ForInMade(Made(Emit(e, Plain(OP_GET_ITER)).code, g), b).code) == Uses(e.code + b.code)
  {
    hide Uses, Size;
    var j := Rewind(3 + Size(b.code) + 3);
    UsesEmit(e.code, Plain(OP_GET_ITER));
    UsesEmit(b.code, j);
    UsesEmit(b.code + [j], Plain(OP_POP));
    UsesBetween(e.code + [Plain(OP_GET_ITER)], Hop(OP_FOR_ITER, Size(Emit(b, j).code)), b.code + [j] + [Plain(OP_POP)]);
    UsesJoin(e.code, b.code);
  }

  lemma {:induction false} NamesTry(body: seq<Stmt>, x: string, handler: seq<Stmt>, f: Fn, loop: Loop)
    requires f.Fn? && Level(f)
    ensures ScopesOf(f) != [] && Done(f, CompTry(body, x, handler, f, loop), WalkS(Try(body, x, handler), ScopesOf(f)))
    decreases Try(body, x, handler), 2
  {
    hide Done, CompB, CompScope, WalkB, ScopesOf, Level, Uses, Size, With, Gains, Extends;
    NotNone(f);
    var scopes, g := ScopesOf(f), f.(tries := f.tries + 1);
    GainsTries(f, g);
    DoneStart(f);
    DoneFn(f, Start(f), Walk([], []), g, []);
    NoneJoined();
    var c, w := CompB(body, g, loop, true), WalkB(body, scopes);
    NamesB(body, g, loop, true);
    DoneThen(f, Start(g), [], c, w);
    JoinStart(g, c);
    assert [] + w.events == w.events;
    var h := c.fn.(tries := f.tries);
    GainsTries(c.fn, h);
    DoneFacts(f, c, w);
    DoneFn(f, c, w, h, []);
    assert w.made + [] == w.made;
    var d := Made(c.code, h);
    var r, v := CompScope(handler, h, [x], loop), Walk(WalkB(handler, With(scopes, w.made + [x])).events, []);
    NamesScope(handler, h, [x], loop);
    WithTwice(scopes, w.made, [x]);
    DoneJoin(f, d, w, r, v);
    TryUses(f, c, h, r);
    DoneCode(f, Join(d, r), WalkS(Try(body, x, handler), scopes), CompTry(body, x, handler, f, loop).code);
  }

  lemma TryUses(f: Fn, c: Made, h: Fn, r: Made)
    ensures var b := Emit(c, Plain(OP_END_TRY));
            var m := JumpOver(Start(f), OP_TRY, Size(b.code) + 3, JumpOver(Made(b.code, h), OP_JUMP, Size(r.code), r));
            Uses(m.code) == Uses(c.code + r.code)
  {
    hide Uses, Size;
    var b := Emit(c, Plain(OP_END_TRY));
    UsesEmit(c.code, Plain(OP_END_TRY));
    UsesBetween(b.code, Hop(OP_JUMP, Size(r.code)), r.code);
    UsesBetween([], Hop(OP_TRY, Size(b.code) + 3), b.code + [Hop(OP_JUMP, Size(r.code))] + r.code);
    UsesNone([]);
    UsesJoin(c.code, r.code);
  }

  lemma {:induction false} NamesDef(name: string, params: seq<string>, defaults: seq<Expr>, body: seq<Stmt>, f: Fn, loop: Loop, drop: bool)
    requires f.Fn? && Level(f)
    ensures ScopesOf(f) != [] && Done(f, CompS(Def(name, params, defaults, body), f, loop, drop), WalkS(Def(name, params, defaults, body), ScopesOf(f)))
    decreases Def(name, params, defaults, body), 2
  {
    hide Done, ScopesOf, Begin, Finish, CompB, CompEs, WalkB, WalkEs, Level, Callee, Uses;
    NotNone(f);
    TailsNone();
    BeginNames(f, params);
    var g, tail := Begin(f, params), [Plain(OP_NULL), Plain(OP_RETURN)];
    var c, w := CompB(body, g, NoLoop, true), WalkB(body, ScopesOf(g));
    NamesB(body, g, NoLoop, true);
    FinishDone(f, params, c, w, tail);
    var a := Finish(c, tail);
    DoneFacts(f, a, Walk([Inner(w.events)], []));
    NamesEs(defaults, a.fn);
    var b := Join(a, CompEs(defaults, a.fn));
    var v := Walk([Inner(w.events)] + WalkEs(defaults, ScopesOf(f)), []);
    DonePair(f, a, [Inner(w.events)], CompEs(defaults, a.fn), WalkEs(defaults, ScopesOf(f)));
    DoneEmit(f, b, v, Count(OP_SET_DEFAULTS, |defaults|));
    DoneGlobal(f, if defaults == [] then b else Emit(b, Count(OP_SET_DEFAULTS, |defaults|)), v, OP_DEFINE_GLOBAL, name, Define(name));
  }

  // ---- Counted loops ----

  lemma HeadDone(f: Fn, c: Made, w: Walk, k: nat)
    requires Done(f, c, w) && c.fn.Fn?
    ensures Done(f, RepeatHead(c, c.fn, k), Walk(w.events + [Hidden(false, k + 1), Hidden(false, k)], w.made))
  {
    hide Done, ChainOf;
    var i, j := Slot(OP_GET_LOCAL, k + 1), Slot(OP_GET_LOCAL, k);
    DoneUse(f, c, w, i, Hidden(false, k + 1));
    DoneUse(f, Emit(c, i), Walk(w.events + [Hidden(false, k + 1)], w.made), j, Hidden(false, k));
    assert w.events + [Hidden(false, k + 1)] + [Hidden(false, k)] == w.events + [Hidden(false, k + 1), Hidden(false, k)];
    DoneEmit(f, Emit(Emit(c, i), j), Walk(w.events + [Hidden(false, k + 1), Hidden(false, k)], w.made), Plain(OP_LESS));
  }

  lemma UpDone(f: Fn, b: Made, w: Walk, k: nat)
    requires Done(f, b, w) && b.fn.Fn?
    ensures Done(f, RepeatUp(b, k), Walk(w.events + [Hidden(false, k + 1), Hidden(true, k + 1)], w.made))
  {
    hide Done, ChainOf;
    var i, j := Slot(OP_GET_LOCAL, k + 1), Slot(OP_SET_LOCAL, k + 1);
    var v := Walk(w.events + [Hidden(false, k + 1)], w.made);
    DoneUse(f, b, w, i, Hidden(false, k + 1));
    DoneConstant(f, Emit(b, i), v, OP_CONSTANT, Data);
    var m := EmitConstant(Emit(b, i), OP_CONSTANT, Data);
    DoneEmit(f, m, v, Plain(OP_ADD));
    DoneUse(f, Emit(m, Plain(OP_ADD)), v, j, Hidden(true, k + 1));
    assert v.events + [Hidden(true, k + 1)] == w.events + [Hidden(false, k + 1), Hidden(true, k + 1)];
    DoneEmit(f, Emit(Emit(m, Plain(OP_ADD)), j), Walk(w.events + [Hidden(false, k + 1), Hidden(true, k + 1)], w.made), Plain(OP_POP));
  }

  lemma {:induction false} NamesRepeat(count: Expr, body: seq<Stmt>, f: Fn)
    requires f.Fn? && Level(f)
    ensures ScopesOf(f) != [] && Done(f, CompRepeat(count, body, f), WalkS(Repeat(count, body), ScopesOf(f)))
    decreases Repeat(count, body), 2
  {
    hide Done, CompE, CompScope, WalkE, WalkB, ScopesOf, Level, Uses, Size, Resolve, DeclareAll, With, RepeatHead, RepeatUp, RepeatMade, Gains;
    NotNone(f);
    var scopes := ScopesOf(f);
    var e, w := CompE(count, f), Walk(WalkE(count, scopes), []);
    NamesE(count, f);
    DoneConstant(f, e, w, OP_CONSTANT, Data);
    var c := EmitConstant(e, OP_CONSTANT, Data);
    DoneFacts(f, c, w);
    var g, k, two := DeclareAll(c.fn, ["", ""]), |c.fn.locals|, ["", ""];
    SlotCount(c.fn);
    DeclaresAll(c.fn, two);
    DoneFn(f, c, w, g, two);
    assert [] + two == two;
    var v := Walk(w.events, two);
    DoneFacts(f, Made(c.code, g), v);
    var head := RepeatHead(c, g, k);
    HeadDone(f, Made(c.code, g), v, k);
    HeadIs(c, g, k);
    var hw := Walk(w.events + [Hidden(false, k + 1), Hidden(false, k)], two);
    var b := CompScope(body, g, [], InLoop(f.depth, f.tries));
    var bw := Walk(WalkB(body, With(scopes, two)).events, []);
    NamesScope(body, g, [], InLoop(f.depth, f.tries));
    WithTwice(scopes, two, []);
    assert two + [] == two;
    var up := RepeatUp(b, k);
    var uw := Walk(bw.events + [Hidden(false, k + 1), Hidden(true, k + 1)], []);
    UpDone(g, b, bw, k);
    DoneJoin(f, head, hw, up, uw);
    var all := Walk(hw.events + uw.events, two);
    ForgetDone(f, Join(head, up), all, 2);
    var m := RepeatMade(head, up);
    RepeatUses(head, up);
    var out := Size(head.code) + 4 + (Size(up.code) + 3);
    UsesResolved(m.code, out + 1, Size(head.code) + 4 + Size(b.code));
    assert hw.events + uw.events == w.events + [Hidden(false, k + 1), Hidden(false, k)] + bw.events + [Hidden(false, k + 1), Hidden(true, k + 1)];
    DoneCode(f, Made(Join(head, up).code, Forget(up.fn, 2)), Walk(all.events, []), CompRepeat(count, body, f).code);
  }

  lemma HeadIs(c: Made, g: Fn, k: nat)
    ensures RepeatHead(c, g, k) == RepeatHead(Made(c.code, g), g, k) && RepeatHead(c, g, k).fn == g
  {}

  lemma SlotCount(f: Fn)
    requires f.Fn?
    ensures ScopesOf(f) != [] && |ScopesOf(f)[0]| == |f.locals|
  {}

  lemma RepeatUses(head: Made, up: Made)
    ensures Uses(RepeatMade(head, up).code) == Uses(head.code + up.code) && RepeatMade(head, up).fn == up.fn
  {
    hide Uses, Size;
    var i, j, pops := Hop(OP_JUMP_IF_FALSE, 1 + (Size(up.code) + 3)), Rewind(7 + 4 + Size(up.code) + 3), [Plain(OP_POP), Plain(OP_POP), Plain(OP_POP)];
    UsesOne(Plain(OP_POP));
    UsesJoin([Plain(OP_POP)], up.code);
    UsesBetween(head.code, i, [Plain(OP_POP)] + up.code);
    UsesBetween(head.code + [i] + ([Plain(OP_POP)] + up.code), j, pops);
    UsesNone(pops);
    UsesJoin(head.code, up.code);
  }

  // ---- Whole programs ----

  /**
   * In every program, the variable instructions of the script and of all functions in it are the uses of
   * the source, one for one: a local at its slot, a variable of a function around through the upvalues
   * that lead to it, and a global exactly when no function has a local of the name.
   */
  lemma EveryNameIsItsVariable(b: seq<Stmt>)
    ensures Script(b).Code? && AllFit(Script(b).code, WalkB(b, [[""]]).events, [[]], Script(b).constants)
  {
    hide AllFit, CompB, WalkB, Extends, Gains, Good;
    var m, tail := CompB(b, ScriptFn, NoLoop, true), [Plain(OP_NULL), Plain(OP_RETURN)];
    ScriptScopes();
    NamesB(b, ScriptFn, NoLoop, true);
    NoUpvalues(b);
    TailsNone();
    UsesJoin(m.code, tail);
    SameUses(m.code + tail, m.code, WalkB(b, [[""]]).events, m.fn);
  }

  lemma ScriptScopes()
    ensures ScopesOf(ScriptFn) == [[""]] && Level(ScriptFn)
  {
    assert ScopesOf(Top) == [] && ScopesOf(ScriptFn)[0] == [""];
  }

  lemma NoUpvalues(b: seq<Stmt>)
    ensures var m := CompB(b, ScriptFn, NoLoop, true); m.fn.Fn? && m.fn.enclosing.Top? && ChainOf(m.fn) == [[]]
  {
    hide CompB, WellMade, Sealed, Valid;
    KeepsB(b, ScriptFn, NoLoop, true);
    var m := CompB(b, ScriptFn, NoLoop, true);
    KeptGood(ScriptFn, m);
    TopCapturesNothing(m.fn);
  }
}
