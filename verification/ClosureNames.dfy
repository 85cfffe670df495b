/**
 * Every variable instruction names the variable that the source means. The source is walked with the
 * names of the locals of all functions around, in the order of the code; what a name means there is said
 * over these lists alone: the latest local of the name in the nearest function that has one, or a global.
 */
module ClosureNames {
  import opened Bytes
  import opened Values
  import opened Bytecode
  import opened ClosureCode
  import opened ClosureSeals
  import opened ClosureKept
  import I = IteratorSlot

  // ---- What names mean ----

  /** The names of the locals by slot, of each function around, the innermost function first. */
  type Scopes = seq<seq<string>>

  predicate Visible(scopes: Scopes, x: string) { exists l | 0 <= l < |scopes| :: x in scopes[l] }

  /** The local at the slot is the latest of the name, and no function further in has one. */
  predicate Means(scopes: Scopes, x: string, level: nat, slot: nat) {
    && level < |scopes| && slot < |scopes[level]| && scopes[level][slot] == x
    && (forall j | slot < j < |scopes[level]| :: scopes[level][j] != x)
    && (forall m | 0 <= m < level :: x !in scopes[m])
  }

  /** Uses of variables: a name among these locals, a local without a name, the global of a function, or the uses of a function in this one. */
  datatype Event =
    | Use(write: bool, x: string, scopes: Scopes)
    | Hidden(write: bool, slot: nat)
    | Define(x: string)
    | Inner(events: seq<Event>)

  /** The uses in a statement, and the names it makes in the function. */
  datatype Walk = Walk(events: seq<Event>, made: seq<string>)

  function With(scopes: Scopes, names: seq<string>): (r: Scopes)
    requires scopes != []
    ensures |r| == |scopes|
  {
    [scopes[0] + names] + scopes[1..]
  }

  /** The locals of a function: the callee and the parameters. */
  function Callee(params: seq<string>, scopes: Scopes): Scopes { [[""] + params] + scopes }

  // ---- The walk ----

  function WalkE(e: Expr, scopes: Scopes): seq<Event>
    requires scopes != []
    decreases e
  {
    match e
    case Literal => []
    case Truth(_) => []
    case Name(x) => [Use(false, x, scopes)]
    case Unary(_, r) => WalkE(r, scopes)
    case Binary(_, l, r) => WalkE(l, scopes) + WalkE(r, scopes)
    case And(l, r) => WalkE(l, scopes) + WalkE(r, scopes)
    case Or(l, r) => WalkE(l, scopes) + WalkE(r, scopes)
    case List(items) => WalkEs(items, scopes)
    case Index(obj, index) => WalkE(obj, scopes) + WalkE(index, scopes)
    case Property(obj) => WalkE(obj, scopes)
    case Method(obj, args) => WalkE(obj, scopes) + WalkEs(args, scopes)
    case Call(callee, args) => WalkE(callee, scopes) + WalkEs(args, scopes)
    case Lambda(params, result) => [Inner(WalkE(result, Callee(params, scopes)))]
    case LambdaBlock(params, body) => [Inner(WalkB(body, Callee(params, scopes)).events)]
  }

  function WalkEs(es: seq<Expr>, scopes: Scopes): seq<Event>
    requires scopes != []
    decreases es
  {
    if es == [] then [] else WalkE(es[0], scopes) + WalkEs(es[1..], scopes)
  }

  /** The names that the branches of an `if` assign without knowing them. */
  function Fresh(b: seq<Stmt>, scopes: Scopes, names: seq<string>): seq<string>
    decreases b
  {
    if b == [] then names
    else
      Fresh(b[1..], scopes,
        match b[0]
        case Assign(x, _) => if !Visible(scopes, x) && x !in names then names + [x] else names
        case If(_, thn, els) => Fresh(els, scopes, Fresh(thn, scopes, names))
        case Try(body, _, _) => Fresh(body, scopes, names)
        case _ => names)
  }

  function WalkB(b: seq<Stmt>, scopes: Scopes): Walk
    requires scopes != []
    decreases b, 0
  {
    if b == [] then Walk([], [])
    else
      var a := WalkS(b[0], scopes);
      var r := WalkB(b[1..], With(scopes, a.made));
      Walk(a.events + r.events, a.made + r.made)
  }

  function WalkS(s: Stmt, scopes: Scopes): Walk
    requires scopes != []
    decreases s, 2
  {
    match s
    case Do(e) => Walk(WalkE(e, scopes), [])
    case Print(e) => Walk(WalkE(e, scopes), [])
    case Assign(x, e) =>
      // in a function, a name that is nowhere becomes a local
      if |scopes| > 1 && !Visible(scopes, x) then Walk(WalkE(e, scopes), [x]) else Walk(WalkE(e, scopes) + [Use(true, x, scopes)], [])
    case If(c, thn, els) =>
      var early := if |scopes| > 1 then Fresh(els, scopes, Fresh(thn, scopes, [])) else [];
      var t := WalkB(thn, With(scopes, early));
      var e := WalkB(els, With(scopes, early + t.made));
      Walk(WalkE(c, scopes) + (t.events + e.events), early + (t.made + e.made))
    case Unless(c, body) =>
      var w := WalkB(body, scopes);
      Walk(WalkE(c, scopes) + w.events, w.made)
    case While(c, body) => Walk(WalkE(c, scopes) + WalkB(body, scopes).events, [])
    case Until(c, body) => Walk(WalkE(c, scopes) + WalkB(body, scopes).events, [])
    case Forever(body) => Walk(WalkB(body, scopes).events, [])
    case Repeat(count, body) =>
      var k := |scopes[0]|;
      Walk(WalkE(count, scopes) + [Hidden(false, k + 1), Hidden(false, k)] + WalkB(body, With(scopes, ["", ""])).events
           + [Hidden(false, k + 1), Hidden(true, k + 1)], [])
    case ForIn(x, over, body) => Walk(WalkE(over, scopes) + WalkB(body, With(scopes, ["_iter", x])).events, [])
    case Try(body, x, handler) =>
      var w := WalkB(body, scopes);
      Walk(w.events + WalkB(handler, With(scopes, w.made + [x])).events, w.made)
    case Throw(e) => Walk(WalkE(e, scopes), [])
    case Return(None) => Walk([], [])
    case Return(Some(e)) => Walk(WalkE(e, scopes), [])
    case Stop => Walk([], [])
    case Skip => Walk([], [])
    case Def(name, params, defaults, body) =>
      Walk([Inner(WalkB(body, Callee(params, scopes)).events)] + WalkEs(defaults, scopes) + [Define(name)], [])
  }

  // ---- What instructions name ----

  predicate IsUse(i: Ins) { i.Slot? || i.Upvalue? || i.Closure? || (i.Const? && i.op in {OP_GET_GLOBAL, OP_DEFINE_GLOBAL}) }

  /** The instructions that name variables. */
  function Uses(code: seq<Ins>): seq<Ins> {
    if code == [] then [] else Uses(code[..|code| - 1]) + if IsUse(code[|code| - 1]) then [code[|code| - 1]] else []
  }

  datatype Spot = Spot(level: nat, slot: nat)

  /** What the functions around capture, the innermost first. */
  type Chain = seq<seq<Captured>>

  /** Where an upvalue ends, followed from function to function: at a slot, so many functions out. */
  function EndOf(chain: Chain, u: nat): (r: Option<Spot>)
    ensures r.Some? ==> 1 <= r.value.level
  {
    if chain == [] || u >= |chain[0]| then None
    else if chain[0][u].isLocal then Some(Spot(1, chain[0][u].index))
    else
      match EndOf(chain[1..], chain[0][u].index)
      case Some(s) => Some(Spot(s.level + 1, s.slot))
      case None => None
  }

  /** The instruction does what the event says. */
  predicate Fits(i: Ins, e: Event, chain: Chain, constants: seq<Constant>)
    decreases e, 0
  {
    match e
    case Use(write, x, scopes) =>
      || (i.Slot? && i.op == (if write then OP_SET_LOCAL else OP_GET_LOCAL) && Means(scopes, x, 0, i.slot))
      || (&& i.Upvalue? && i.op == (if write then OP_SET_UPVALUE else OP_GET_UPVALUE)
          && var end := EndOf(chain, i.index); end.Some? && Means(scopes, x, end.value.level, end.value.slot))
      || (&& i.Const? && i.op == (if write then OP_DEFINE_GLOBAL else OP_GET_GLOBAL) && !Visible(scopes, x)
          && i.index < |constants| && constants[i.index] == Text(x))
    case Hidden(write, slot) => i == Slot(if write then OP_SET_LOCAL else OP_GET_LOCAL, slot)
    case Define(x) => i.Const? && i.op == OP_DEFINE_GLOBAL && i.index < |constants| && constants[i.index] == Text(x)
    case Inner(events) =>
      && i.Closure? && i.index < |constants| && constants[i.index].Code?
      && AllFit(constants[i.index].code, events, [i.captured] + chain, constants[i.index].constants)
  }

  /** The variable instructions of the code are the events, one for one. */
  predicate AllFit(code: seq<Ins>, events: seq<Event>, chain: Chain, constants: seq<Constant>)
    decreases events, 1
  {
    |Uses(code)| == |events| && forall k | 0 <= k < |events| :: Fits(Uses(code)[k], events[k], chain, constants)
  }

  // ---- Pieces of code ----

  lemma {:induction false} UsesJoin(a: seq<Ins>, b: seq<Ins>)
    ensures Uses(a + b) == Uses(a) + Uses(b)
    decreases |b|
  {
    if b == [] {
      assert a + b == a;
    } else {
      var front := b[..|b| - 1];
      assert (a + b)[..|a + b| - 1] == a + front;
      UsesJoin(a, front);
    }
  }

  lemma UsesOne(i: Ins)
    ensures Uses([i]) == if IsUse(i) then [i] else []
  {
    assert [i][..0] == [];
  }

  lemma UsesEmit(code: seq<Ins>, i: Ins)
    ensures Uses(code + [i]) == Uses(code) + if IsUse(i) then [i] else []
  {
    UsesOne(i);
    UsesJoin(code, [i]);
  }

  lemma {:induction false} UsesNone(code: seq<Ins>)
    requires forall i | i in code :: !IsUse(i)
    ensures Uses(code) == []
    decreases |code|
  {
    if code != [] { UsesNone(code[..|code| - 1]); }
  }

  lemma {:induction false} UsesResolved(code: seq<Ins>, stop: nat, skip: nat)
    ensures Uses(Resolve(code, stop, skip)) == Uses(code)
    decreases |code|
  {
    hide Size;
    if code != [] {
      var front := code[..|code| - 1];
      UsesResolved(front, stop, skip);
      UsesEmit(Resolve(front, stop, skip), Resolved(code[|code| - 1], Size(front), stop, skip));
    }
  }

  // ---- More constants and more captured variables change nothing ----

  predicate Longer(a: Chain, b: Chain) { |a| == |b| && forall l | 0 <= l < |a| :: a[l] <= b[l] }

  lemma {:induction false} EndStays(a: Chain, b: Chain, u: nat)
    requires Longer(a, b) && EndOf(a, u).Some?
    ensures EndOf(b, u) == EndOf(a, u)
  {
    assert a[0] <= b[0];
    if !a[0][u].isLocal { EndStays(a[1..], b[1..], a[0][u].index); }
  }

  lemma {:induction false} FitsStays(i: Ins, e: Event, a: Chain, cs: seq<Constant>, b: Chain, ds: seq<Constant>)
    requires Fits(i, e, a, cs) && Longer(a, b) && cs <= ds
    ensures Fits(i, e, b, ds)
    decreases e, 0
  {
    hide Uses, Means, Visible;
    match e
    case Use(write, x, scopes) => if i.Upvalue? { EndStays(a, b, i.index); }
    case Inner(events) => AllStays(ds[i.index].code, events, [i.captured] + a, ds[i.index].constants, [i.captured] + b, ds[i.index].constants);
    case _ =>
  }

  lemma {:induction false} AllStays(code: seq<Ins>, events: seq<Event>, a: Chain, cs: seq<Constant>, b: Chain, ds: seq<Constant>)
    requires AllFit(code, events, a, cs) && Longer(a, b) && cs <= ds
    ensures AllFit(code, events, b, ds)
    decreases events, 1
  {
    hide Fits, Uses;
    forall k | 0 <= k < |events| ensures Fits(Uses(code)[k], events[k], b, ds) { FitsStays(Uses(code)[k], events[k], a, cs, b, ds); }
  }

  lemma AllJoin(a: seq<Ins>, ea: seq<Event>, b: seq<Ins>, eb: seq<Event>, chain: Chain, cs: seq<Constant>)
    requires AllFit(a, ea, chain, cs) && AllFit(b, eb, chain, cs)
    ensures AllFit(a + b, ea + eb, chain, cs)
  {
    hide Fits, Uses;
    UsesJoin(a, b);
    var u := Uses(a + b);
    forall k | 0 <= k < |ea + eb| ensures Fits(u[k], (ea + eb)[k], chain, cs) {
      if k < |ea| { assert Fits(Uses(a)[k], ea[k], chain, cs); } else { assert Fits(Uses(b)[k - |ea|], eb[k - |ea|], chain, cs); }
    }
  }

  // ---- The state, as the names see it ----

  datatype Tag = Tag(name: string, depth: nat)

  datatype Frame = Frame(depth: nat, tags: seq<Tag>)

  function Tags(locals: seq<Local>): seq<Tag> { seq(|locals|, k requires 0 <= k < |locals| => Tag(locals[k].name, locals[k].depth)) }

  function Tagged(names: seq<string>, d: nat): seq<Tag> { seq(|names|, k requires 0 <= k < |names| => Tag(names[k], d)) }

  function Frames(f: Fn): seq<Frame> { if f.Top? then [] else [Frame(f.depth, Tags(f.locals))] + Frames(f.enclosing) }

  function Named(locals: seq<Local>): seq<string> { seq(|locals|, k requires 0 <= k < |locals| => locals[k].name) }

  function ScopesOf(f: Fn): (r: Scopes)
    ensures f.Fn? <==> r != []
  {
    if f.Top? then [] else [Named(f.locals)] + ScopesOf(f.enclosing)
  }

  function ChainOf(f: Fn): Chain { if f.Top? then [] else [f.upvalues] + ChainOf(f.enclosing) }

  /** Scopes hold what was declared in them, and a function has one of its own. */
  predicate Level(f: Fn)
    requires f.Fn?
  {
    (forall k | 0 <= k < |f.locals| :: f.locals[k].depth <= f.depth) && (f.enclosing.Fn? ==> f.depth > 0)
  }

  /** From f to g there are new locals of these names in the scope, and nothing else is changed for names. */
  predicate Gains(f: Fn, g: Fn, names: seq<string>) {
    && f.Fn? && g.Fn? && g.depth == f.depth && Frames(g.enclosing) == Frames(f.enclosing)
    && Tags(g.locals) == Tags(f.locals) + Tagged(names, f.depth)
  }

  lemma NamesOfTags(a: seq<Local>, b: seq<Local>, names: seq<string>, d: nat)
    requires Tags(b) == Tags(a) + Tagged(names, d)
    ensures Named(b) == Named(a) + names
  {
    assert |b| == |a| + |names|;
    forall k | 0 <= k < |b| ensures Named(b)[k] == (Named(a) + names)[k] {
      assert Tags(b)[k] == (Tags(a) + Tagged(names, d))[k];
    }
  }

  lemma {:induction false} SameScopes(f: Fn, g: Fn)
    requires Frames(f) == Frames(g)
    ensures ScopesOf(f) == ScopesOf(g)
    decreases f
  {
    if f.Fn? {
      FramesApart(f, g);
      SameScopes(f.enclosing, g.enclosing);
      assert Tags(g.locals) == Tags(f.locals) + Tagged([], f.depth);
      NamesOfTags(f.locals, g.locals, [], f.depth);
      assert Named(f.locals) + [] == Named(f.locals);
    }
  }

  lemma FramesApart(f: Fn, g: Fn)
    requires Frames(f) == Frames(g) && f.Fn?
    ensures g.Fn? && f.depth == g.depth && Tags(f.locals) == Tags(g.locals) && Frames(f.enclosing) == Frames(g.enclosing)
  {
    assert Frames(f)[0] == Frames(g)[0] && Frames(f)[1..] == Frames(g)[1..];
  }

  lemma FramesJoin(f: Fn, g: Fn)
    requires f.Fn? && g.Fn? && f.depth == g.depth && Tags(f.locals) == Tags(g.locals) && Frames(f.enclosing) == Frames(g.enclosing)
    ensures Frames(f) == Frames(g)
  {}

  lemma MadeNothing(f: Fn, g: Fn)
    requires f.Fn?
    ensures Gains(f, g, []) <==> Frames(g) == Frames(f)
  {
    hide Tags;
    assert Tagged([], f.depth) == [];
    assert Tags(f.locals) + [] == Tags(f.locals);
    if Frames(g) == Frames(f) { FramesApart(f, g); }
  }

  lemma MadeScopes(f: Fn, g: Fn, names: seq<string>)
    requires Gains(f, g, names)
    ensures ScopesOf(g) == With(ScopesOf(f), names)
  {
    hide Tags, Tagged, Named;
    NamesOfTags(f.locals, g.locals, names, f.depth);
    SameScopes(f.enclosing, g.enclosing);
  }

  lemma MadeOn(f: Fn, g: Fn, h: Fn, a: seq<string>, b: seq<string>)
    requires Gains(f, g, a) && Gains(g, h, b)
    ensures Gains(f, h, a + b)
  {
    hide Tags;
    assert Tagged(a + b, f.depth) == Tagged(a, f.depth) + Tagged(b, f.depth);
  }

  lemma MadeLevel(f: Fn, g: Fn, names: seq<string>)
    requires Gains(f, g, names) && Level(f)
    ensures Level(g)
  {
    hide Frames;
    forall k | 0 <= k < |g.locals| ensures g.locals[k].depth <= g.depth {
      assert Tags(g.locals)[k] == (Tags(f.locals) + Tagged(names, f.depth))[k];
    }
    SomeFrames(f.enclosing);
    SomeFrames(g.enclosing);
  }

  lemma SomeFrames(f: Fn)
    ensures f.Fn? <==> Frames(f) != []
  {}

  lemma {:induction false} ChainLonger(f: Fn, g: Fn)
    requires Extends(f, g)
    ensures Longer(ChainOf(f), ChainOf(g))
    decreases f
  {
    if f.Fn? {
      ChainLonger(f.enclosing, g.enclosing);
      var a, b := ChainOf(f), ChainOf(g);
      forall l | 0 <= l < |a| ensures a[l] <= b[l] {
        if l > 0 { assert ChainOf(f.enclosing)[l - 1] <= ChainOf(g.enclosing)[l - 1]; }
      }
    }
  }

  // ---- Looking names up ----

  lemma {:induction false} LatestFound(locals: seq<Local>, x: string)
    ensures var r := FindLocal(locals, x);
            && (r.Some? ==> locals[r.value].name == x && forall j | r.value < j < |locals| :: locals[j].name != x)
            && (r.None? ==> forall j | 0 <= j < |locals| :: locals[j].name != x)
    decreases |locals|
  {
    if locals != [] { LatestFound(locals[..|locals| - 1], x); }
  }

  lemma {:induction false} CapturedFound(upvalues: seq<Captured>, c: Captured)
    ensures var r := FindCaptured(upvalues, c); r.Some? ==> upvalues[r.value] == c
    decreases |upvalues|
  {
    if upvalues != [] { CapturedFound(upvalues[..|upvalues| - 1], c); }
  }

  lemma UpvalueAdded(f: Fn, c: Captured)
    requires f.Fn?
    ensures var (g, u) := AddUpvalue(f, c);
            && g.Fn? && g == f.(upvalues := g.upvalues) && f.upvalues <= g.upvalues
            && u.Some? && u.value < |g.upvalues| && g.upvalues[u.value] == c
  {
    CapturedFound(f.upvalues, c);
  }

  /** Looking for a name in the functions around. */
  predicate Looked(f: Fn, x: string, g: Fn, up: Option<nat>) {
    && f.Fn? && g.Fn? && Extends(f, g) && Frames(g) == Frames(f) && g.locals == f.locals
    && (up.None? ==> !Visible(ScopesOf(f.enclosing), x))
    && (up.Some? ==> var end := EndOf(ChainOf(g), up.value);
                     end.Some? && Means(ScopesOf(f.enclosing), x, end.value.level - 1, end.value.slot))
  }

  lemma {:induction false} CaptureMeans(f: Fn, x: string)
    requires f.Fn?
    ensures var (g, up) := Capture(f, x); Looked(f, x, g, up)
    decreases f
  {
    hide Looked, AddUpvalue;
    ExtendsSelf(f);
    if f.enclosing.Top? {
      NothingAround(f, x);
    } else {
      LatestFound(f.enclosing.locals, x);
      match FindLocal(f.enclosing.locals, x)
      case Some(i) => CaptureHere(f, x, i);
      case None => CaptureFurther(f, x);
    }
  }

  lemma NothingAround(f: Fn, x: string)
    requires f.Fn? && f.enclosing.Top?
    ensures Looked(f, x, f, None)
  {
    ExtendsSelf(f);
  }

  lemma CaptureHere(f: Fn, x: string, i: nat)
    requires f.Fn? && f.enclosing.Fn? && i < |f.enclosing.locals| && f.enclosing.locals[i].name == x
    requires forall j | i < j < |f.enclosing.locals| :: f.enclosing.locals[j].name != x
    ensures var outer := f.enclosing.(locals := f.enclosing.locals[i := f.enclosing.locals[i].(captured := true)]);
            var (g, up) := AddUpvalue(f.(enclosing := outer), Captured(i, true));
            Looked(f, x, g, up)
  {
    hide AddUpvalue, Visible;
    var outer := f.enclosing.(locals := f.enclosing.locals[i := f.enclosing.locals[i].(captured := true)]);
    UpvalueAdded(f.(enclosing := outer), Captured(i, true));
    ExtendsSelf(f.enclosing.enclosing);
    assert Tags(outer.locals) == Tags(f.enclosing.locals);
    assert Frames(outer) == Frames(f.enclosing);
    HereMeans(ScopesOf(f.enclosing), x, i);
    assert Extends(f.enclosing, outer);
    var (g, up) := AddUpvalue(f.(enclosing := outer), Captured(i, true));
    assert Extends(f, g);
    assert EndOf(ChainOf(g), up.value) == Some(Spot(1, i));
  }

  lemma HereMeans(scopes: Scopes, x: string, i: nat)
    requires scopes != [] && i < |scopes[0]| && scopes[0][i] == x && forall j | i < j < |scopes[0]| :: scopes[0][j] != x
    ensures Means(scopes, x, 0, i)
  {}

  lemma {:induction false} CaptureFurther(f: Fn, x: string)
    requires f.Fn? && f.enclosing.Fn? && forall j | 0 <= j < |f.enclosing.locals| :: f.enclosing.locals[j].name != x
    ensures var (outer, up) := Capture(f.enclosing, x);
            match up
            case Some(u) => var (g, v) := AddUpvalue(f.(enclosing := outer), Captured(u, false)); Looked(f, x, g, v)
            case None => Looked(f, x, f.(enclosing := outer), None)
    decreases f, 0
  {
    hide AddUpvalue, Visible, Means;
    CaptureMeans(f.enclosing, x);
    var (outer, up) := Capture(f.enclosing, x);
    hide Capture;
    NotHere(f.enclosing, x);
    if up.Some? {
      UpvalueAdded(f.(enclosing := outer), Captured(up.value, false));
      var (g, v) := AddUpvalue(f.(enclosing := outer), Captured(up.value, false));
      assert ChainOf(g)[1..] == ChainOf(outer);
      var end := EndOf(ChainOf(outer), up.value).value;
      MeansFurther(ScopesOf(f.enclosing), x, end.level - 1, end.slot);
    }
  }

  lemma NotHere(f: Fn, x: string)
    requires f.Fn? && forall j | 0 <= j < |f.locals| :: f.locals[j].name != x
    ensures x !in ScopesOf(f)[0] && ScopesOf(f)[1..] == ScopesOf(f.enclosing)
    ensures Visible(ScopesOf(f), x) <==> Visible(ScopesOf(f.enclosing), x)
  {
    var s, t := ScopesOf(f), ScopesOf(f.enclosing);
    forall k | 0 <= k < |t| ensures s[k + 1] == t[k] {}
    if Visible(t, x) {
      var l :| 0 <= l < |t| && x in t[l];
      assert x in s[l + 1];
    }
  }

  lemma MeansFurther(scopes: Scopes, x: string, level: nat, slot: nat)
    requires scopes != [] && x !in scopes[0] && Means(scopes[1..], x, level, slot)
    ensures Means(scopes, x, level + 1, slot)
  {
    forall m | 0 <= m < level + 1 ensures x !in scopes[m] {
      if m > 0 { assert x !in scopes[1..][m - 1]; }
    }
  }
}
