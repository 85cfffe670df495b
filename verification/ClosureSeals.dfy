/**
 * What code generation keeps, through functions inside functions: every operand names something
 * that exists, and every jump lands on an instruction.
 */
module ClosureSeals {
  import opened Bytes
  import opened Bytecode
  import opened ClosureCode
  import CV = ChunkVerify

  // ---- Instructions ----

  predicate IsPlain(op: byte) {
    op <= OP_HALT && !CV.NamesConstant(op) && !CV.NamesSlot(op) && !CV.NamesUpvalue(op) && !CV.JumpsForward(op) && !CV.Counts(op)
    && op != OP_LOOP && op != OP_INVOKE && op != OP_CLOSURE
  }

  /** Captured variables are among the locals and the upvalues of the function around. */
  predicate Captures(captured: seq<Captured>, peak: nat, ups: nat) {
    forall c | c in captured :: c.index < (if c.isLocal then peak else ups)
  }

  /** The operands name a constant, a slot, an upvalue, and for a closure a function with as many upvalues as it lists. */
  predicate InsOk(i: Ins, constants: seq<Constant>, peak: nat, ups: nat) {
    match i
    case Plain(op) => IsPlain(op)
    case Const(op, k) => CV.NamesConstant(op) && k < |constants|
    case Slot(op, n) => CV.NamesSlot(op) && n < peak
    case Upvalue(op, u) => CV.NamesUpvalue(op) && u < ups
    case Count(op, _) => CV.Counts(op)
    case Invoke(k, _) => k < |constants|
    case Closure(k, captured) =>
      k < |constants| && constants[k].Code? && constants[k].upvalues == |captured| && Captures(captured, peak, ups)
    case Hop(op, _) => CV.JumpsForward(op)
    case _ => true
  }

  ghost predicate Valid(code: seq<Ins>, constants: seq<Constant>, peak: nat, ups: nat) { forall i | i in code :: InsOk(i, constants, peak, ups) }

  lemma ValidMore(code: seq<Ins>, constants: seq<Constant>, peak: nat, ups: nat, constants2: seq<Constant>, peak2: nat, ups2: nat)
    requires Valid(code, constants, peak, ups) && constants <= constants2 && peak <= peak2 && ups <= ups2
    ensures Valid(code, constants2, peak2, ups2)
  {}

  // ---- Where instructions start ----

  /** t is where an instruction of the code starts, or the end of the code. */
  predicate Starts(code: seq<Ins>, t: nat)
    decreases |code|
  {
    t == Size(code) || (code != [] && Starts(code[..|code| - 1], t))
  }

  lemma {:induction false} SizeJoin(a: seq<Ins>, b: seq<Ins>)
    ensures Size(a + b) == Size(a) + Size(b)
    decreases |b|
  {
    if b == [] {
      assert a + b == a;
    } else {
      var front := b[..|b| - 1];
      assert (a + b)[..|a + b| - 1] == a + front;
      SizeJoin(a, front);
    }
  }

  lemma {:induction false} StartsLeft(a: seq<Ins>, b: seq<Ins>, t: nat)
    requires Starts(a, t)
    ensures Starts(a + b, t)
    decreases |b|
  {
    if b == [] {
      assert a + b == a;
    } else {
      assert (a + b)[..|a + b| - 1] == a + b[..|b| - 1];
      StartsLeft(a, b[..|b| - 1], t);
    }
  }

  lemma {:induction false} StartsRight(a: seq<Ins>, b: seq<Ins>, t: nat)
    requires Starts(b, t)
    ensures Starts(a + b, Size(a) + t)
    decreases |b|
  {
    SizeJoin(a, b);
    if t != Size(b) {
      assert (a + b)[..|a + b| - 1] == a + b[..|b| - 1];
      StartsRight(a, b[..|b| - 1], t);
    }
  }

  lemma {:induction false} StartsZero(code: seq<Ins>)
    ensures Starts(code, 0)
    decreases |code|
  {
    if code != [] { StartsZero(code[..|code| - 1]); }
  }

  // ---- Jumps ----

  /** The jump at p, if there is one, lands on an instruction of the whole or at its end. */
  predicate Lands(i: Ins, p: nat, whole: seq<Ins>) {
    match i
    case Hop(_, n) => Starts(whole, p + 3 + n)
    case Rewind(n) => n <= p + 3 && Starts(whole, p + 3 - n)
    case _ => true
  }

  /** The code, standing at p, jumps only to instructions of the whole. */
  predicate SealedAt(code: seq<Ins>, p: nat, whole: seq<Ins>)
    decreases |code|
  {
    code == [] || (var front := code[..|code| - 1]; SealedAt(front, p, whole) && Lands(code[|code| - 1], p + Size(front), whole))
  }

  predicate Sealed(code: seq<Ins>) { SealedAt(code, 0, code) }

  lemma {:induction false} SealedWider(code: seq<Ins>, p: nat, a: seq<Ins>, w: seq<Ins>, b: seq<Ins>)
    requires SealedAt(code, p, w)
    ensures SealedAt(code, Size(a) + p, a + w + b)
    decreases |code|
  {
    hide Starts;
    if code != [] {
      var front, i := code[..|code| - 1], code[|code| - 1];
      SealedWider(front, p, a, w, b);
      var q := p + Size(front);
      if i.Hop? {
        StartsRight(a, w, q + 3 + i.over);
        StartsLeft(a + w, b, Size(a) + (q + 3 + i.over));
      } else if i.Rewind? {
        StartsRight(a, w, q + 3 - i.over);
        StartsLeft(a + w, b, Size(a) + (q + 3 - i.over));
      }
    }
  }

  lemma {:induction false} SealedTogether(a: seq<Ins>, b: seq<Ins>, p: nat, w: seq<Ins>)
    requires SealedAt(a, p, w) && SealedAt(b, p + Size(a), w)
    ensures SealedAt(a + b, p, w)
    decreases |b|
  {
    if b == [] {
      assert a + b == a;
    } else {
      var front := b[..|b| - 1];
      assert (a + b)[..|a + b| - 1] == a + front && (a + b)[|a + b| - 1] == b[|b| - 1];
      SealedTogether(a, front, p, w);
      SizeJoin(a, front);
    }
  }

  /** A sealed stretch in the middle of something. */
  lemma SealedInside(a: seq<Ins>, code: seq<Ins>, b: seq<Ins>)
    requires Sealed(code)
    ensures SealedAt(code, Size(a), a + code + b)
  {
    SealedWider(code, 0, a, code, b);
  }

  lemma SealedOne(i: Ins, p: nat, w: seq<Ins>)
    requires Lands(i, p, w)
    ensures SealedAt([i], p, w)
  {
    hide Lands;
    assert [i][..0] == [];
  }

  lemma SealedJoin(a: seq<Ins>, b: seq<Ins>)
    requires Sealed(a) && Sealed(b)
    ensures Sealed(a + b)
  {
    hide SealedAt;
    SealedInside([], a, b);
    SealedInside(a, b, []);
    assert [] + a + b == a + b && a + b + [] == a + b;
    SealedTogether(a, b, 0, a + b);
  }

  /** Two jumps in sealed surroundings, where d follows. */
  lemma SealedAround(a: seq<Ins>, i: Ins, b: seq<Ins>, j: Ins, c: seq<Ins>, d: seq<Ins>)
    requires Sealed(a) && Sealed(b) && Sealed(c)
    requires var w := a + [i] + b + [j] + c + d; Lands(i, Size(a), w) && Lands(j, Size(a) + Len(i) + Size(b), w)
    ensures SealedAt(a + [i] + b + [j] + c, 0, a + [i] + b + [j] + c + d)
  {
    hide SealedAt, Lands;
    var w := a + [i] + b + [j] + c + d;
    AroundInside(a, i, b, j, c, d);
    AroundSizes(a, i, b, j);
    SealedOne(i, Size(a), w);
    SealedOne(j, Size(a) + Len(i) + Size(b), w);
    SealedTogether(a, [i], 0, w);
    SealedTogether(a + [i], b, 0, w);
    SealedTogether(a + [i] + b, [j], 0, w);
    SealedTogether(a + [i] + b + [j], c, 0, w);
  }

  lemma SealedAroundAlone(a: seq<Ins>, i: Ins, b: seq<Ins>, j: Ins, c: seq<Ins>)
    requires Sealed(a) && Sealed(b) && Sealed(c)
    requires var w := a + [i] + b + [j] + c; Lands(i, Size(a), w) && Lands(j, Size(a) + Len(i) + Size(b), w)
    ensures Sealed(a + [i] + b + [j] + c)
  {
    hide SealedAt, Lands;
    var w := a + [i] + b + [j] + c;
    assert w + [] == w;
    SealedAround(a, i, b, j, c, []);
  }

  lemma AroundInside(a: seq<Ins>, i: Ins, b: seq<Ins>, j: Ins, c: seq<Ins>, d: seq<Ins>)
    requires Sealed(a) && Sealed(b) && Sealed(c)
    ensures var w := a + [i] + b + [j] + c + d;
            SealedAt(a, 0, w) && SealedAt(b, Size(a + [i]), w) && SealedAt(c, Size(a + [i] + b + [j]), w)
  {
    hide SealedAt;
    WholeAround(a, [i], b, [j], c, d);
    SealedInside([], a, [i] + b + [j] + c + d);
    SealedInside(a + [i], b, [j] + c + d);
    SealedInside(a + [i] + b + [j], c, d);
  }

  lemma WholeAround(a: seq<Ins>, i: seq<Ins>, b: seq<Ins>, j: seq<Ins>, c: seq<Ins>, d: seq<Ins>)
    ensures [] + a + (i + b + j + c + d) == a + i + b + j + c + d
    ensures (a + i) + b + (j + c + d) == a + i + b + j + c + d
  {}

  lemma AroundSizes(a: seq<Ins>, i: Ins, b: seq<Ins>, j: Ins)
    ensures Size(a + [i]) == Size(a) + Len(i) && Size(a + [i] + b) == Size(a) + Len(i) + Size(b)
    ensures Size(a + [i] + b + [j]) == Size(a) + Len(i) + Size(b) + Len(j)
  {
    SizeOne(i);
    SizeOne(j);
    SizeJoin(a, [i]);
    SizeJoin(a + [i], b);
    SizeJoin(a + [i] + b, [j]);
  }

  lemma SizeOne(i: Ins)
    ensures Size([i]) == Len(i)
  {
    assert [i][..0] == [];
  }

  lemma SizeEmit(code: seq<Ins>, i: Ins)
    ensures Size(code + [i]) == Size(code) + Len(i)
  {
    SizeOne(i);
    SizeJoin(code, [i]);
  }

  /** A forward jump into sealed code. */
  lemma SealedHop(a: seq<Ins>, op: byte, n: nat, b: seq<Ins>)
    requires Sealed(a) && Sealed(b) && Starts(b, n)
    ensures Sealed(a + [Hop(op, n)] + b)
  {
    hide SealedAt, Starts;
    var i := Hop(op, n);
    var w := a + [i] + b;
    SizeEmit(a, i);
    StartsRight(a + [i], b, n);
    assert w == [] + a + ([i] + b) && w == (a + [i]) + b + [];
    SealedInside([], a, [i] + b);
    SealedInside(a + [i], b, []);
    SealedOne(i, Size(a), w);
    SealedTogether(a, [i], 0, w);
    SealedTogether(a + [i], b, 0, w);
  }

  // ---- Finished loops ----

  lemma {:induction false} ResolveSize(code: seq<Ins>, stop: nat, skip: nat)
    ensures Size(Resolve(code, stop, skip)) == Size(code)
    decreases |code|
  {
    hide Resolved;
    if code != [] {
      var front := code[..|code| - 1];
      ResolveSize(front, stop, skip);
      SizeEmit(Resolve(front, stop, skip), Resolved(code[|code| - 1], Size(front), stop, skip));
    }
  }

  lemma {:induction false} ResolveStarts(code: seq<Ins>, stop: nat, skip: nat, t: nat)
    requires Starts(code, t)
    ensures Starts(Resolve(code, stop, skip), t)
    decreases |code|
  {
    hide Resolved;
    ResolveSize(code, stop, skip);
    if t != Size(code) {
      var front := code[..|code| - 1];
      ResolveStarts(front, stop, skip, t);
      StartsLeft(Resolve(front, stop, skip), [Resolved(code[|code| - 1], Size(front), stop, skip)], t);
    }
  }

  lemma {:induction false} ResolveSealedAt(code: seq<Ins>, w: seq<Ins>, stop: nat, skip: nat)
    requires SealedAt(code, 0, w) && Starts(w, stop) && Starts(w, skip)
    ensures SealedAt(Resolve(code, stop, skip), 0, Resolve(w, stop, skip))
    decreases |code|
  {
    hide Starts;
    if code != [] {
      var front, i := code[..|code| - 1], code[|code| - 1];
      var p := Size(front);
      ResolveSealedAt(front, w, stop, skip);
      ResolveSize(front, stop, skip);
      ResolveStarts(w, stop, skip, stop);
      ResolveStarts(w, stop, skip, skip);
      if i.Hop? { ResolveStarts(w, stop, skip, p + 3 + i.over); }
      if i.Rewind? { ResolveStarts(w, stop, skip, p + 3 - i.over); }
      var r := Resolved(i, p, stop, skip);
      SealedOne(r, p, Resolve(w, stop, skip));
      SealedTogether(Resolve(front, stop, skip), [r], 0, Resolve(w, stop, skip));
    }
  }

  lemma {:induction false} ResolveValid(code: seq<Ins>, stop: nat, skip: nat, constants: seq<Constant>, peak: nat, ups: nat)
    requires Valid(code, constants, peak, ups)
    ensures Valid(Resolve(code, stop, skip), constants, peak, ups)
    decreases |code|
  {
    if code != [] { ResolveValid(code[..|code| - 1], stop, skip, constants, peak, ups); }
  }

  // ---- The state ----

  /** A finished function: sealed code with legal operands, closed by a return; and so its own functions. */
  ghost predicate WellMade(c: Constant)
    decreases c
  {
    c.Code? ==>
      && c.code != [] && c.code[|c.code| - 1] == Plain(OP_RETURN) && Sealed(c.code[..|c.code| - 1])
      && Valid(c.code, c.constants, c.peak, c.upvalues) && forall d | d in c.constants :: WellMade(d)
  }

  ghost predicate Good(f: Fn)
    decreases f
  {
    f.Top?
    || (&& |f.locals| <= f.peak && (forall c | c in f.constants :: WellMade(c))
        && (if f.enclosing.Top? then f.upvalues == [] else Captures(f.upvalues, f.enclosing.peak, |f.enclosing.upvalues|))
        && Good(f.enclosing))
  }

  /** Constants are only added, in this function and those around it, and the peak only rises. */
  predicate Extends(f: Fn, g: Fn)
    decreases f
  {
    (f.Top? && g.Top?) || (f.Fn? && g.Fn? && f.constants <= g.constants && f.peak <= g.peak && f.upvalues <= g.upvalues && Extends(f.enclosing, g.enclosing))
  }

  lemma {:induction false} ExtendsSelf(f: Fn)
    ensures Extends(f, f)
    decreases f
  {
    if f.Fn? { ExtendsSelf(f.enclosing); }
  }

  lemma {:induction false} ExtendsOn(f: Fn, g: Fn, h: Fn)
    requires Extends(f, g) && Extends(g, h)
    ensures Extends(f, h)
    decreases f
  {
    if f.Fn? { ExtendsOn(f.enclosing, g.enclosing, h.enclosing); }
  }

  /** A captured variable stays where it was found. */
  lemma CapturesMore(captured: seq<Captured>, f: Fn, g: Fn)
    requires f.Fn? && g.Fn? && Captures(captured, f.peak, |f.upvalues|) && Extends(f, g)
    ensures Captures(captured, g.peak, |g.upvalues|)
  {}

  /** One more captured variable. */
  lemma AddUpvalueGood(f: Fn, outer: Fn, c: Captured)
    requires f.Fn? && f.enclosing.Fn? && outer.Fn? && Good(f) && Good(outer) && Extends(f.enclosing, outer)
    requires c.index < (if c.isLocal then outer.peak else |outer.upvalues|)
    ensures var (g, u) := AddUpvalue(f.(enclosing := outer), c); g.Fn? && Good(g) && Extends(f, g) && u.Some? && u.value < |g.upvalues|
  {
    hide WellMade, FindCaptured;
    CapturesMore(f.upvalues, f.enclosing, outer);
  }

  /** What is found around exists. */
  lemma {:induction false} CaptureGood(f: Fn, x: string)
    requires f.Fn? && Good(f)
    ensures var (g, u) := Capture(f, x); Good(g) && Extends(f, g) && (u.Some? ==> u.value < |g.upvalues|)
    decreases f
  {
    hide WellMade, FindLocal, FindCaptured, AddUpvalue;
    ExtendsSelf(f);
    if f.enclosing.Fn? {
      match FindLocal(f.enclosing.locals, x)
      case Some(i) =>
        var outer := f.enclosing.(locals := f.enclosing.locals[i := f.enclosing.locals[i].(captured := true)]);
        ExtendsSelf(f.enclosing.enclosing);
        AddUpvalueGood(f, outer, Captured(i, true));
      case None =>
        var (outer, up) := Capture(f.enclosing, x);
        CaptureGood(f.enclosing, x);
        if up.Some? {
          AddUpvalueGood(f, outer, Captured(up.value, false));
        } else {
          CapturesMore(f.upvalues, f.enclosing, outer);
        }
    }
  }

  lemma {:induction false} DeclareAllGood(f: Fn, xs: seq<string>)
    requires f.Fn? && Good(f)
    ensures var g := DeclareAll(f, xs); Good(g) && Extends(f, g) && |g.locals| == |f.locals| + |xs|
    decreases |xs|
  {
    hide WellMade;
    ExtendsSelf(f);
    if xs != [] {
      DeclareAllGood(Declare(f, xs[0]), xs[1..]);
      ExtendsOn(f, Declare(f, xs[0]), DeclareAll(f, xs));
    }
  }

  // ---- What every piece of code generation keeps ----

  ghost predicate Kept(f: Fn, m: Made) {
    m.fn.Fn? && Good(m.fn) && Extends(f, m.fn) && Valid(m.code, m.fn.constants, m.fn.peak, |m.fn.upvalues|) && Sealed(m.code)
  }

  lemma ExtendsFacts(f: Fn, g: Fn)
    requires Extends(f, g) && g.Fn?
    ensures f.Fn? && f.constants <= g.constants && f.peak <= g.peak && f.upvalues <= g.upvalues && Extends(f.enclosing, g.enclosing)
  {}

  lemma KeptStart(f: Fn, g: Fn)
    requires g.Fn? && Good(g) && Extends(f, g)
    ensures Kept(f, Start(g))
  {}

  lemma KeptSelf(f: Fn)
    requires f.Fn? && Good(f)
    ensures Kept(f, Start(f))
  {
    ExtendsSelf(f);
    KeptStart(f, f);
  }

  /** The state changes between pieces. */
  lemma KeptFn(f: Fn, m: Made, g: Fn)
    requires Kept(f, m) && g.Fn? && Good(g) && Extends(m.fn, g)
    ensures Kept(f, Made(m.code, g))
  {
    hide Good, Valid, Sealed, Extends;
    ExtendsOn(f, m.fn, g);
    ExtendsFacts(m.fn, g);
    ValidMore(m.code, m.fn.constants, m.fn.peak, |m.fn.upvalues|, g.constants, g.peak, |g.upvalues|);
  }

  lemma ValidJoin(a: seq<Ins>, b: seq<Ins>, constants: seq<Constant>, peak: nat, ups: nat)
    requires Valid(a, constants, peak, ups) && Valid(b, constants, peak, ups)
    ensures Valid(a + b, constants, peak, ups)
  {
    hide InsOk;
  }

  lemma KeptJoin(f: Fn, a: Made, b: Made)
    requires Kept(f, a) && Kept(a.fn, b)
    ensures Kept(f, Join(a, b))
  {
    hide Good, Valid, Sealed, Extends;
    KeptFn(f, a, b.fn);
    SealedJoin(a.code, b.code);
    ValidJoin(a.code, b.code, b.fn.constants, b.fn.peak, |b.fn.upvalues|);
  }

  predicate IsJump(i: Ins) { i.Hop? || i.Rewind? }

  lemma KeptEmit(f: Fn, m: Made, i: Ins)
    requires Kept(f, m) && InsOk(i, m.fn.constants, m.fn.peak, |m.fn.upvalues|) && !IsJump(i)
    ensures Kept(f, Emit(m, i))
  {
    hide Good, Extends, SealedAt, InsOk;
    SealedOne(i, 0, [i]);
    SealedJoin(m.code, [i]);
    ValidJoin(m.code, [i], m.fn.constants, m.fn.peak, |m.fn.upvalues|);
  }

  lemma KeptPlain(f: Fn, m: Made, op: byte)
    requires Kept(f, m) && IsPlain(op)
    ensures Kept(f, Emit(m, Plain(op)))
  {
    hide Kept;
    KeptEmit(f, m, Plain(op));
  }

  lemma AddConstantGood(f: Fn, c: Constant)
    requires f.Fn? && Good(f) && WellMade(c)
    ensures Good(AddConstant(f, c)) && Extends(f, AddConstant(f, c))
  {
    hide WellMade;
    ExtendsSelf(f.enclosing);
  }

  lemma KeptConstant(f: Fn, m: Made, op: byte, c: Constant)
    requires Kept(f, m) && CV.NamesConstant(op) && !c.Code?
    ensures Kept(f, EmitConstant(m, op, c))
  {
    hide Good, Extends, Valid, Sealed;
    AddConstantGood(m.fn, c);
    KeptFn(f, m, AddConstant(m.fn, c));
    KeptEmit(f, Made(m.code, AddConstant(m.fn, c)), Const(op, |m.fn.constants|));
  }

  lemma KeptJump(f: Fn, a: Made, op: byte, n: nat, b: Made)
    requires Kept(f, a) && Kept(a.fn, b) && CV.JumpsForward(op) && Starts(b.code, n)
    ensures Kept(f, JumpOver(a, op, n, b))
  {
    hide Good, Sealed, Extends, Starts, Valid;
    KeptFn(f, a, b.fn);
    SealedHop(a.code, op, n, b.code);
    ValidThree(a.code, Hop(op, n), b.code, b.fn.constants, b.fn.peak, |b.fn.upvalues|);
  }

  lemma ValidThree(a: seq<Ins>, i: Ins, b: seq<Ins>, constants: seq<Constant>, peak: nat, ups: nat)
    requires Valid(a, constants, peak, ups) && InsOk(i, constants, peak, ups) && Valid(b, constants, peak, ups)
    ensures Valid(a + [i] + b, constants, peak, ups)
  {
    hide InsOk;
  }

  lemma StartsEnd(code: seq<Ins>)
    ensures Starts(code, Size(code))
  {}

  /** Two jumps around pieces, as in a loop. */
  lemma KeptAround(f: Fn, a: Made, i: Ins, b: Made, j: Ins, c: Made)
    requires Kept(f, a) && Kept(a.fn, b) && Kept(b.fn, c)
    requires InsOk(i, c.fn.constants, c.fn.peak, |c.fn.upvalues|) && InsOk(j, c.fn.constants, c.fn.peak, |c.fn.upvalues|)
    requires var w := a.code + [i] + b.code + [j] + c.code;
             Lands(i, Size(a.code), w) && Lands(j, Size(a.code) + Len(i) + Size(b.code), w)
    ensures Kept(f, Made(a.code + [i] + b.code + [j] + c.code, c.fn))
  {
    hide Good, Valid, Sealed, Extends, Lands, InsOk;
    KeptFn(f, a, b.fn);
    KeptFn(f, Made(a.code, b.fn), c.fn);
    KeptFn(a.fn, b, c.fn);
    SealedAroundAlone(a.code, i, b.code, j, c.code);
    ValidThree(a.code, i, b.code, c.fn.constants, c.fn.peak, |c.fn.upvalues|);
    ValidThree(a.code + [i] + b.code, j, c.code, c.fn.constants, c.fn.peak, |c.fn.upvalues|);
  }

  lemma KeptResolved(f: Fn, m: Made, stop: nat, skip: nat)
    requires Kept(f, m) && Starts(m.code, stop) && Starts(m.code, skip)
    ensures Kept(f, Made(Resolve(m.code, stop, skip), m.fn))
  {
    hide Good, Extends, Valid, SealedAt, Starts;
    ResolveSealedAt(m.code, m.code, stop, skip);
    ResolveValid(m.code, stop, skip, m.fn.constants, m.fn.peak, |m.fn.upvalues|);
  }

  /** Instructions without jumps. */
  lemma {:induction false} KeptMany(f: Fn, m: Made, code: seq<Ins>)
    requires Kept(f, m) && forall i | i in code :: InsOk(i, m.fn.constants, m.fn.peak, |m.fn.upvalues|) && !IsJump(i)
    ensures Kept(f, Made(m.code + code, m.fn))
    decreases |code|
  {
    hide Kept, InsOk;
    if code == [] {
      assert m.code + code == m.code;
    } else {
      assert m.code + code == (m.code + [code[0]]) + code[1..];
      KeptEmit(f, m, code[0]);
      KeptMany(f, Emit(m, code[0]), code[1..]);
    }
  }

  /** A jump back to what has been emitted. */
  lemma KeptBack(f: Fn, m: Made, n: nat)
    requires Kept(f, m) && n <= Size(m.code) + 3 && Starts(m.code, Size(m.code) + 3 - n)
    ensures Kept(f, Emit(m, Rewind(n)))
  {
    hide Good, Extends, SealedAt, Starts;
    var i := Rewind(n);
    StartsLeft(m.code, [i], Size(m.code) + 3 - n);
    SealedInside([], m.code, [i]);
    assert [] + m.code + [i] == m.code + [i];
    SealedOne(i, Size(m.code), m.code + [i]);
    SealedTogether(m.code, [i], 0, m.code + [i]);
    assert Valid([i], m.fn.constants, m.fn.peak, |m.fn.upvalues|);
    ValidJoin(m.code, [i], m.fn.constants, m.fn.peak, |m.fn.upvalues|);
  }

  lemma KeptGood(f: Fn, m: Made)
    requires Kept(f, m)
    ensures m.fn.Fn? && Good(m.fn) && Extends(f, m.fn)
  {}
}
