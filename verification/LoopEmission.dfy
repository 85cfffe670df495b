/** Putting the code of loops together. */
module LoopEmission {
  import opened Values
  import opened Language
  import opened CodeGen
  import opened Machine
  import opened Emission
  import opened ExprEmission
  import opened Limits
  import opened StmtEmission
  import opened ScopeEmission

  /** No stop or skip yet, in a loop that starts at p. */
  function NoOutlets(p: nat): Outlets { Outlets(p, [], []) }

  lemma FreshOutlets(v: View, p: nat, stop: nat, skip: Target)
    ensures OutletsOk(v, NoOutlets(p), stop, skip) && AllHoles(NoOutlets(p)) == {}
  {}

  /** Every stop jump of the loop is patched. */
  function CloseAll(v: View, xs: seq<nat>): View { v.(pending := v.pending - HoleSet(xs)) }

  lemma BackOutlets(v: View, o: Outlets, stop: nat, t: nat)
    requires OutletsOk(v, o, stop, Back(t))
    ensures AllHoles(o) == HoleSet(o.exits)
  {}

  /** A loop is done: no jump of it is open, and the outlets around it are untouched. */
  lemma LoopGrown(v0: View, o: Outlets, v1: View, s: Stmt, cx: Context, stop: nat, skip: Target)
    requires OutletsOk(v0, o, stop, skip) && Within(v0.asm, v1.asm) && v1.pending == v0.pending
    requires v1.size == v0.size + SizeS(s, cx) && v1.consts == v0.consts + UsesS(s, cx)
    requires Narrow(|cx.locals|, SizeS(s, cx)) ==> LaidS(v1.asm, s, v0.size, cx, Fwd(stop), skip)
    ensures GrownS(v0, o, v1, o, s, cx, stop, skip) && OutletsOk(v1, o, stop, skip)
  {
    hide OutletsOk, Within, AllHoles, SizeS, UsesS, LaidS, Narrow;
    SameOutlets(v0, o, v1, stop, skip);
  }

  /** The loop's own jump at q and all its holes are closed: what was open before is open after. */
  lemma AllClosed(p0: set<nat>, q: nat, p1: set<nat>, h: set<nat>)
    requires q !in p0 && p1 - h == p0 + {q}
    ensures p1 - {q} - h == p0
  {
    assert p1 - {q} - h == (p1 - h) - {q};
  }

  // ---- while ----

  lemma WhileSizes(c: Expr, body: seq<Stmt>, p: nat, cx: Context, skip: Target)
    ensures var s := While(c, body);
            var inner := EnterLoop(cx, [], []);
            && SizeS(s, cx) == SizeE(c) + SizeB(body, inner) + 8 && UsesS(s, cx) == UsesE(c, cx.locals) + UsesB(body, inner)
            && (FitsS(s, p, cx, skip) <==>
                FitsE(c) && FitsB(body, p + SizeE(c) + 4, inner, Back(p)) && SizeE(c) + SizeB(body, inner) + 7 <= MAX_JUMP)
            && inner.locals == cx.locals
  {
    hide SizeE, SizeB, UsesE, UsesB, FitsE, FitsB;
  }

  lemma FoldWhile(code: Listing, c: Expr, body: seq<Stmt>, p: nat, cx: Context, stop: Target, skip: Target)
    requires var p1 := p + SizeE(c);
             var inner := EnterLoop(cx, [], []);
             var p2 := p1 + 4 + SizeB(body, inner);
             && LayoutE(code, c, p, cx.locals) && Has(code, p1, JumpIfFalse(p2 + 3)) && Has(code, p1 + 3, Instr.Pop)
             && LayoutB(code, body, p1 + 4, inner, Fwd(p + SizeS(While(c, body), cx)), Back(p))
             && Has(code, p2, Loop(p)) && Has(code, p2 + 3, Instr.Pop)
    ensures LayoutS(code, While(c, body), p, cx, stop, skip)
  {
    hide Has, LayoutE, LayoutB, SizeE, SizeB;
  }

  lemma WhileCode(v0: View, v1: View, v2: View, v3: View, v7: View, c: Expr, body: seq<Stmt>, cx: Context, stop: Target, skip: Target)
    requires var inner := EnterLoop(cx, [], []);
             var end := v0.size + SizeS(While(c, body), cx);
             && v1.size == v0.size + SizeE(c) && v3.size == v1.size + 4 + SizeB(body, inner)
             && LaidE(v1.asm, c, v0.size, cx.locals) && LaidB(v3.asm, body, v1.size + 4, inner, Fwd(end), Back(v0.size))
             && Has(v2.asm, v1.size, JumpIfFalse(v3.size + 3)) && Has(v2.asm, v1.size + 3, Instr.Pop)
             && Has(v7.asm, v3.size, Loop(v0.size)) && Has(v7.asm, v3.size + 3, Instr.Pop)
    requires Within(v1.asm, v2.asm) && Within(v2.asm, v3.asm) && Within(v3.asm, v7.asm)
    ensures LaidS(v7.asm, While(c, body), v0.size, cx, stop, skip)
  {
    hide SizeE, SizeB, SizeS, LayoutE, LayoutB, LayoutS, Within, Has, EnterLoop;
    WithinTrans(v1.asm, v2.asm, v3.asm);
    var inner, end := EnterLoop(cx, [], []), v0.size + SizeS(While(c, body), cx);
    forall fin | Within(v7.asm, fin) ensures LayoutS(fin, While(c, body), v0.size, cx, stop, skip) {
      WithinTrans(v3.asm, v7.asm, fin);
      WithinTrans(v2.asm, v3.asm, fin);
      WithinTrans(v1.asm, v3.asm, fin);
      LaidEAt(v1.asm, c, v0.size, cx.locals, fin);
      LaidBAt(v3.asm, body, v1.size + 4, inner, Fwd(end), Back(v0.size), fin);
      HasMono(v2.asm, fin, v1.size, JumpIfFalse(v3.size + 3));
      HasMono(v2.asm, fin, v1.size + 3, Instr.Pop);
      HasMono(v7.asm, fin, v3.size, Loop(v0.size));
      HasMono(v7.asm, fin, v3.size + 3, Instr.Pop);
      FoldWhile(fin, c, body, v0.size, cx, stop, skip);
    }
  }

  /** The end of a while loop: back to the start, and the pop of the false condition. */
  function LoopEnd(v: View, start: nat, q: nat): View { Put(Close(Put(v, Loop(start)), q), Instr.Pop) }

  lemma LoopEndFacts(v: View, start: nat, q: nat)
    requires Tidy(v) && q < v.size
    ensures var w := LoopEnd(v, start, q);
            && Tidy(w) && Within(v.asm, w.asm) && w.size == v.size + 4 && w.consts == v.consts && w.pending == v.pending - {q}
            && Has(w.asm, v.size, Loop(start)) && Has(w.asm, v.size + 3, Instr.Pop)
  {
    PutFacts(v, Loop(start));
    PutFacts(Close(Put(v, Loop(start)), q), Instr.Pop);
  }

  lemma WhileGrown(v0: View, o: Outlets, v1: View, v2: View, v3: View, o3: Outlets, v7: View,
                   c: Expr, body: seq<Stmt>, cx: Context, stop: nat, skip: Target)
    requires var inner := EnterLoop(cx, [], []);
             var end := v0.size + SizeS(While(c, body), cx);
             && OutletsOk(v0, o, stop, skip) && Tidy(v1) && GrownE(v0, v1, c, cx.locals)
             && v2 == Test(v1, v1.size + SizeB(body, inner) + 7)
             && GrownScope(v2, NoOutlets(v0.size), v3, o3, body, 0, inner, end, Back(v0.size))
             && OutletsOk(v3, o3, end, Back(v0.size))
    requires v7 == CloseAll(LoopEnd(v3, v0.size, v1.size), o3.exits)
    ensures GrownS(v0, o, v7, o, While(c, body), cx, stop, skip) && OutletsOk(v7, o, stop, skip)
  {
    hide SizeE, SizeB, SizeS, UsesE, UsesB, UsesS, LaidE, LaidB, LaidS, Test, LoopEnd, OutletsOk, Within, Has, Tidy, Repeated, EnterLoop, AllHoles, HoleSet;
    WhileSizes(c, body, v0.size, cx, skip);
    TestFacts(v1, v1.size + SizeB(body, EnterLoop(cx, [], [])) + 7);
    LoopEndFacts(v3, v0.size, v1.size);
    FreshOutlets(v2, v0.size, 0, Fwd(0));
    BackOutlets(v3, o3, v0.size + SizeS(While(c, body), cx), v0.size);
    PendingBelow(v1, v1.size);
    AllClosed(v0.pending, v1.size, v3.pending, HoleSet(o3.exits));
    WithinTrans(v0.asm, v1.asm, v2.asm);
    WithinTrans(v0.asm, v2.asm, v3.asm);
    WithinTrans(v0.asm, v3.asm, v7.asm);
    if Narrow(|cx.locals|, SizeS(While(c, body), cx)) {
      WhileCode(v0, v1, v2, v3, v7, c, body, cx, Fwd(stop), skip);
    }
    LoopGrown(v0, o, v7, While(c, body), cx, stop, skip);
  }

  // ---- until ----

  lemma UntilSizes(c: Expr, body: seq<Stmt>, p: nat, cx: Context, skip: Target)
    ensures var s := Until(c, body);
            var inner := EnterLoop(cx, [], []);
            && SizeS(s, cx) == SizeE(c) + SizeB(body, inner) + 11 && UsesS(s, cx) == UsesE(c, cx.locals) + UsesB(body, inner)
            && (FitsS(s, p, cx, skip) <==>
                FitsE(c) && FitsB(body, p + SizeE(c) + 8, inner, Back(p)) && SizeE(c) + SizeB(body, inner) + 11 <= MAX_JUMP)
            && inner.locals == cx.locals
  {
    hide SizeE, SizeB, UsesE, UsesB, FitsE, FitsB;
  }

  lemma FoldUntil(code: Listing, c: Expr, body: seq<Stmt>, p: nat, cx: Context, stop: Target, skip: Target)
    requires var p1 := p + SizeE(c);
             var inner := EnterLoop(cx, [], []);
             var end := p + SizeS(Until(c, body), cx);
             && LayoutE(code, c, p, cx.locals) && SplitAt(code, p1, end)
             && LayoutB(code, body, p1 + 8, inner, Fwd(end), Back(p)) && Has(code, p1 + 8 + SizeB(body, inner), Loop(p))
    ensures LayoutS(code, Until(c, body), p, cx, stop, skip)
  {
    hide Has, LayoutE, LayoutB, SizeE, SizeB;
  }

  lemma UntilCode(v0: View, v1: View, v2: View, v3: View, v7: View, c: Expr, body: seq<Stmt>, cx: Context, stop: Target, skip: Target)
    requires var inner := EnterLoop(cx, [], []);
             var end := v0.size + SizeS(Until(c, body), cx);
             && v1.size == v0.size + SizeE(c) && v3.size == v1.size + 8 + SizeB(body, inner)
             && LaidE(v1.asm, c, v0.size, cx.locals) && LaidB(v3.asm, body, v1.size + 8, inner, Fwd(end), Back(v0.size))
             && SplitAt(v2.asm, v1.size, end) && Has(v7.asm, v3.size, Loop(v0.size))
    requires Within(v1.asm, v2.asm) && Within(v2.asm, v3.asm) && Within(v3.asm, v7.asm)
    ensures LaidS(v7.asm, Until(c, body), v0.size, cx, stop, skip)
  {
    hide SizeE, SizeB, SizeS, LayoutE, LayoutB, LayoutS, Within, Has, SplitAt, EnterLoop;
    WithinTrans(v1.asm, v2.asm, v3.asm);
    var inner, end := EnterLoop(cx, [], []), v0.size + SizeS(Until(c, body), cx);
    forall fin | Within(v7.asm, fin) ensures LayoutS(fin, Until(c, body), v0.size, cx, stop, skip) {
      WithinTrans(v3.asm, v7.asm, fin);
      WithinTrans(v2.asm, v3.asm, fin);
      WithinTrans(v1.asm, v3.asm, fin);
      LaidEAt(v1.asm, c, v0.size, cx.locals, fin);
      LaidBAt(v3.asm, body, v1.size + 8, inner, Fwd(end), Back(v0.size), fin);
      SplitMono(v2.asm, fin, v1.size, end);
      HasMono(v7.asm, fin, v3.size, Loop(v0.size));
      FoldUntil(fin, c, body, v0.size, cx, stop, skip);
    }
  }

  lemma UntilGrown(v0: View, o: Outlets, v1: View, v2: View, v3: View, o3: Outlets, v7: View,
                   c: Expr, body: seq<Stmt>, cx: Context, stop: nat, skip: Target)
    requires var inner := EnterLoop(cx, [], []);
             var end := v0.size + SizeS(Until(c, body), cx);
             && OutletsOk(v0, o, stop, skip) && Tidy(v1) && GrownE(v0, v1, c, cx.locals) && v2 == Split(v1, end)
             && GrownScope(v2, NoOutlets(v0.size), v3, o3, body, 0, inner, end, Back(v0.size))
             && OutletsOk(v3, o3, end, Back(v0.size))
    requires v7 == CloseAll(Close(Put(v3, Loop(v0.size)), v1.size + 4), o3.exits)
    ensures GrownS(v0, o, v7, o, Until(c, body), cx, stop, skip) && OutletsOk(v7, o, stop, skip)
  {
    hide SizeE, SizeB, SizeS, UsesE, UsesB, UsesS, LaidE, LaidB, LaidS, Split, SplitAt, OutletsOk, Within, Has, Tidy, Repeated, EnterLoop, AllHoles, HoleSet;
    UntilSizes(c, body, v0.size, cx, skip);
    SplitFacts(v1, v0.size + SizeS(Until(c, body), cx));
    PutFacts(v3, Loop(v0.size));
    FreshOutlets(v2, v0.size, 0, Fwd(0));
    BackOutlets(v3, o3, v0.size + SizeS(Until(c, body), cx), v0.size);
    PendingBelow(v1, v1.size + 4);
    AllClosed(v0.pending, v1.size + 4, v3.pending, HoleSet(o3.exits));
    WithinTrans(v0.asm, v1.asm, v2.asm);
    WithinTrans(v0.asm, v2.asm, v3.asm);
    WithinTrans(v0.asm, v3.asm, v7.asm);
    if Narrow(|cx.locals|, SizeS(Until(c, body), cx)) {
      UntilCode(v0, v1, v2, v3, v7, c, body, cx, Fwd(stop), skip);
    }
    LoopGrown(v0, o, v7, Until(c, body), cx, stop, skip);
  }

  // ---- forever ----

  lemma ForeverSizes(body: seq<Stmt>, p: nat, cx: Context, skip: Target)
    ensures var s := Forever(body);
            var inner := EnterLoop(cx, [], []);
            && SizeS(s, cx) == SizeB(body, inner) + 3 && UsesS(s, cx) == UsesB(body, inner)
            && (FitsS(s, p, cx, skip) <==> FitsB(body, p, inner, Back(p)) && SizeB(body, inner) + 3 <= MAX_JUMP)
            && inner.locals == cx.locals
  {
    hide SizeB, UsesB, FitsB;
  }

  lemma FoldForever(code: Listing, body: seq<Stmt>, p: nat, cx: Context, stop: Target, skip: Target)
    requires var inner := EnterLoop(cx, [], []);
             && LayoutB(code, body, p, inner, Fwd(p + SizeS(Forever(body), cx)), Back(p))
             && Has(code, p + SizeB(body, inner), Loop(p))
    ensures LayoutS(code, Forever(body), p, cx, stop, skip)
  {
    hide Has, LayoutB, SizeB;
  }

  lemma ForeverGrown(v0: View, o: Outlets, v3: View, o3: Outlets, v7: View, body: seq<Stmt>, cx: Context, stop: nat, skip: Target)
    requires var inner := EnterLoop(cx, [], []);
             var end := v0.size + SizeS(Forever(body), cx);
             && OutletsOk(v0, o, stop, skip)
             && GrownScope(v0, NoOutlets(v0.size), v3, o3, body, 0, inner, end, Back(v0.size))
             && OutletsOk(v3, o3, end, Back(v0.size))
    requires v7 == CloseAll(Put(v3, Loop(v0.size)), o3.exits)
    ensures GrownS(v0, o, v7, o, Forever(body), cx, stop, skip) && OutletsOk(v7, o, stop, skip)
  {
    hide SizeB, SizeS, UsesB, UsesS, LayoutB, LayoutS, LaidB, OutletsOk, Within, Has, Tidy, Repeated, EnterLoop, AllHoles, HoleSet;
    ForeverSizes(body, v0.size, cx, skip);
    var end := v0.size + SizeS(Forever(body), cx);
    PutFacts(v3, Loop(v0.size));
    FreshOutlets(v0, v0.size, 0, Fwd(0));
    BackOutlets(v3, o3, end, v0.size);
    WithinTrans(v0.asm, v3.asm, v7.asm);
    if Narrow(|cx.locals|, SizeS(Forever(body), cx)) {
      forall fin | Within(v7.asm, fin) ensures LayoutS(fin, Forever(body), v0.size, cx, Fwd(stop), skip) {
        WithinTrans(v3.asm, v7.asm, fin);
        LaidBAt(v3.asm, body, v0.size, EnterLoop(cx, [], []), Fwd(end), Back(v0.size), fin);
        HasMono(v7.asm, fin, v3.size, Loop(v0.size));
        FoldForever(fin, body, v0.size, cx, Fwd(stop), skip);
      }
    }
    LoopGrown(v0, o, v7, Forever(body), cx, stop, skip);
  }

  // ---- for-in ----

  lemma ForInSizes(x: string, over: Expr, body: seq<Stmt>, p: nat, cx: Context, skip: Target)
    ensures var s := ForIn(x, over, body);
            var inner := EnterLoop(cx, ["_iter"], [x]);
            var p1 := p + SizeE(over);
            && SizeS(s, cx) == SizeE(over) + SizeB(body, inner) + 9 && UsesS(s, cx) == UsesE(over, cx.locals) + UsesB(body, inner)
            && (FitsS(s, p, cx, skip) <==>
                FitsE(over) && FitsB(body, p1 + 4, inner, Back(p1 + 1)) && SizeB(body, inner) + 7 <= MAX_JUMP)
            && |inner.locals| == |cx.locals| + 2
  {
    hide SizeE, SizeB, UsesE, UsesB, FitsE, FitsB;
  }

  lemma FoldForIn(code: Listing, x: string, over: Expr, body: seq<Stmt>, p: nat, cx: Context, stop: Target, skip: Target)
    requires var p1 := p + SizeE(over);
             var inner := EnterLoop(cx, ["_iter"], [x]);
             var p2 := p1 + 4 + SizeB(body, inner);
             && LayoutE(code, over, p, cx.locals) && Has(code, p1, GetIter) && Has(code, p1 + 1, ForIter(p2 + 4))
             && LayoutB(code, body, p1 + 4, inner, Fwd(p2 + 4), Back(p1 + 1))
             && Has(code, p2, Instr.Pop) && Has(code, p2 + 1, Loop(p1 + 1)) && Has(code, p2 + 4, Instr.Pop)
    ensures LayoutS(code, ForIn(x, over, body), p, cx, stop, skip)
  {
    hide Has, LayoutE, LayoutB, SizeE, SizeB;
  }

  /** Before the body of a for-in loop. */
  function IterHead(v: View, t: nat): View { PutOpen(Put(v, GetIter), ForIter(t)) }

  lemma IterHeadFacts(v: View, t: nat)
    requires Tidy(v)
    ensures var w := IterHead(v, t);
            && Tidy(w) && Within(v.asm, w.asm) && w.size == v.size + 4 && w.consts == v.consts
            && w.pending == v.pending + {v.size + 1} && v.size + 1 !in v.pending
            && Has(w.asm, v.size, GetIter) && Has(w.asm, v.size + 1, ForIter(t))
  {
    PutFacts(v, GetIter);
    PutFacts(Put(v, GetIter), ForIter(t));
  }

  /** After the body of a for-in loop. */
  function IterTail(v: View, start: nat, exits: seq<nat>): View {
    Put(CloseAll(Close(Put(v, Loop(start)), start), exits), Instr.Pop)
  }

  lemma IterTailFacts(v: View, start: nat, exits: seq<nat>)
    requires Tidy(v)
    ensures var w := IterTail(v, start, exits);
            && Tidy(w) && Within(v.asm, w.asm) && w.size == v.size + 4 && w.consts == v.consts
            && w.pending == v.pending - {start} - HoleSet(exits)
            && Has(w.asm, v.size, Loop(start)) && Has(w.asm, v.size + 3, Instr.Pop)
  {
    hide HoleSet;
    PutFacts(v, Loop(start));
    PutFacts(CloseAll(Close(Put(v, Loop(start)), start), exits), Instr.Pop);
  }

  lemma ForInCode(v0: View, v1: View, v3: View, v4: View, v8: View,
                  x: string, over: Expr, body: seq<Stmt>, cx: Context, stop: Target, skip: Target)
    requires var inner := EnterLoop(cx, ["_iter"], [x]);
             && v1.size == v0.size + SizeE(over) && v3.size == v1.size + 4 && v4.size == v3.size + SizeB(body, inner) + 1
             && LaidE(v1.asm, over, v0.size, cx.locals) && LaidB(v4.asm, body, v3.size, inner, Fwd(v4.size + 3), Back(v1.size + 1))
             && Has(v3.asm, v1.size, GetIter) && Has(v3.asm, v1.size + 1, ForIter(v4.size + 3))
             && Repeated(v4.asm, v3.size + SizeB(body, inner), 1, Instr.Pop)
             && Has(v8.asm, v4.size, Loop(v1.size + 1)) && Has(v8.asm, v4.size + 3, Instr.Pop)
    requires Within(v1.asm, v3.asm) && Within(v3.asm, v4.asm) && Within(v4.asm, v8.asm)
    ensures LaidS(v8.asm, ForIn(x, over, body), v0.size, cx, stop, skip)
  {
    hide SizeE, SizeB, SizeS, LayoutE, LayoutB, LayoutS, Within, Has, EnterLoop;
    var inner := EnterLoop(cx, ["_iter"], [x]);
    RepeatedOne(v4.asm, v3.size + SizeB(body, inner), Instr.Pop);
    hide Repeated;
    WithinTrans(v1.asm, v3.asm, v4.asm);
    forall fin | Within(v8.asm, fin) ensures LayoutS(fin, ForIn(x, over, body), v0.size, cx, stop, skip) {
      WithinTrans(v4.asm, v8.asm, fin);
      WithinTrans(v3.asm, v4.asm, fin);
      WithinTrans(v1.asm, v4.asm, fin);
      LaidEAt(v1.asm, over, v0.size, cx.locals, fin);
      LaidBAt(v4.asm, body, v3.size, inner, Fwd(v4.size + 3), Back(v1.size + 1), fin);
      HasMono(v3.asm, fin, v1.size, GetIter);
      HasMono(v3.asm, fin, v1.size + 1, ForIter(v4.size + 3));
      HasMono(v4.asm, fin, v3.size + SizeB(body, inner), Instr.Pop);
      HasMono(v8.asm, fin, v4.size, Loop(v1.size + 1));
      HasMono(v8.asm, fin, v4.size + 3, Instr.Pop);
      FoldForIn(fin, x, over, body, v0.size, cx, stop, skip);
    }
  }

  lemma ForInGrown(v0: View, o: Outlets, v1: View, v3: View, v4: View, o4: Outlets, v8: View,
                   x: string, over: Expr, body: seq<Stmt>, cx: Context, stop: nat, skip: Target)
    requires var inner := EnterLoop(cx, ["_iter"], [x]);
             var start := v1.size + 1;
             var end := v1.size + 8 + SizeB(body, inner);
             && OutletsOk(v0, o, stop, skip) && Tidy(v1) && GrownE(v0, v1, over, cx.locals) && v3 == IterHead(v1, end)
             && GrownScope(v3, NoOutlets(start), v4, o4, body, 1, inner, end, Back(start))
             && OutletsOk(v4, o4, end, Back(start)) && v8 == IterTail(v4, start, o4.exits)
             && SizeB(body, inner) + 7 <= MAX_JUMP
    ensures GrownS(v0, o, v8, o, ForIn(x, over, body), cx, stop, skip) && OutletsOk(v8, o, stop, skip)
  {
    hide SizeE, SizeB, SizeS, UsesE, UsesB, UsesS, LaidE, LaidB, LaidS, IterHead, IterTail, OutletsOk, Within, Has, Tidy, Repeated, EnterLoop, AllHoles, HoleSet;
    ForInSizes(x, over, body, v0.size, cx, skip);
    IterHeadFacts(v1, v1.size + 8 + SizeB(body, EnterLoop(cx, ["_iter"], [x])));
    IterTailFacts(v4, v1.size + 1, o4.exits);
    FreshOutlets(v3, v1.size + 1, 0, Fwd(0));
    BackOutlets(v4, o4, v4.size + 3, v1.size + 1);
    AllClosed(v0.pending, v1.size + 1, v4.pending, HoleSet(o4.exits));
    WithinTrans(v0.asm, v1.asm, v3.asm);
    WithinTrans(v0.asm, v3.asm, v4.asm);
    WithinTrans(v0.asm, v4.asm, v8.asm);
    if Narrow(|cx.locals|, SizeS(ForIn(x, over, body), cx)) {
      ForInCode(v0, v1, v3, v4, v8, x, over, body, cx, Fwd(stop), skip);
    }
    LoopGrown(v0, o, v8, ForIn(x, over, body), cx, stop, skip);
  }

  // ---- repeat ----

  lemma RepeatSizes(count: Expr, body: seq<Stmt>, p: nat, cx: Context, skip: Target)
    ensures var s := Repeat(count, body);
            var inner := EnterLoop(cx, ["", ""], []);
            var p1 := p + SizeE(count);
            && SizeS(s, cx) == SizeE(count) + SizeB(body, inner) + 31
            && UsesS(s, cx) == UsesE(count, cx.locals) + 2 + UsesB(body, inner)
            && (FitsS(s, p, cx, skip) <==>
                && FitsE(count) && FitsB(body, p1 + 14, inner, Fwd(p1 + 14 + SizeB(body, inner)))
                && SizeB(body, inner) + 25 <= MAX_JUMP)
            && |inner.locals| == |cx.locals| + 2
  {
    hide SizeE, SizeB, UsesE, UsesB, FitsE, FitsB;
  }

  function Three(v: View, i: Instr, j: Instr, k: Instr): View { Put(Put(Put(v, i), j), k) }

  lemma ThreeFacts(v: View, i: Instr, j: Instr, k: Instr)
    requires Tidy(v)
    ensures var w := Three(v, i, j, k);
            var p1, p2 := v.size + Len(i), v.size + Len(i) + Len(j);
            && Tidy(w) && Within(v.asm, w.asm) && w.size == p2 + Len(k) && w.consts == v.consts && w.pending == v.pending
            && Has(w.asm, v.size, i) && Has(w.asm, p1, j) && Has(w.asm, p2, k)
  {
    hide Len;
    PutFacts(v, i);
    PutFacts(Put(v, i), j);
    PutFacts(Put(Put(v, i), j), k);
  }

  /** The test of a counted loop: the index slot n + 1 below the count slot n. */
  function CountHead(v: View, n: nat, t: nat): View {
    Test(Three(v, GetLocal((n + 1) % 65536), GetLocal(n % 65536), Operate(Less)), t)
  }

  predicate CountHeadAt(asm: Listing, p: nat, n: nat, t: nat) {
    && Has(asm, p, GetLocal(n + 1)) && Has(asm, p + 3, GetLocal(n)) && Has(asm, p + 6, Operate(Less))
    && Has(asm, p + 7, JumpIfFalse(t)) && Has(asm, p + 10, Instr.Pop)
  }

  lemma CountHeadFacts(v: View, n: nat, t: nat)
    requires Tidy(v)
    ensures var w := CountHead(v, n, t);
            && Tidy(w) && Within(v.asm, w.asm) && w.size == v.size + 11 && w.consts == v.consts
            && w.pending == v.pending + {v.size + 7}
            && Has(w.asm, v.size + 7, JumpIfFalse(t)) && (n + 1 < 65536 ==> CountHeadAt(w.asm, v.size, n, t))
  {
    hide Test, Three, Within, Has, Tidy, CountHeadAt;
    var g, h := GetLocal((n + 1) % 65536), GetLocal(n % 65536);
    var u := Three(v, g, h, Operate(Less));
    var w := CountHead(v, n, t);
    ThreeFacts(v, g, h, Operate(Less));
    TestFacts(u, t);
    WithinTrans(v.asm, u.asm, w.asm);
    HasMono(u.asm, w.asm, v.size, g);
    HasMono(u.asm, w.asm, v.size + 3, h);
    HasMono(u.asm, w.asm, v.size + 6, Operate(Less));
    if n + 1 < 65536 { HeadParts(w.asm, v.size, n, t); }
  }

  lemma HeadParts(asm: Listing, p: nat, n: nat, t: nat)
    requires n + 1 < 65536 && Has(asm, p, GetLocal((n + 1) % 65536)) && Has(asm, p + 3, GetLocal(n % 65536))
    requires Has(asm, p + 6, Operate(Less)) && Has(asm, p + 7, JumpIfFalse(t)) && Has(asm, p + 10, Instr.Pop)
    ensures CountHeadAt(asm, p, n, t)
  {}

  /** The step of a counted loop: one more on the index. */
  function CountStep(v: View, n: nat, start: nat): View {
    var v1 := Three(v, GetLocal((n + 1) % 65536), Const(VNum(1.0)), Operate(Add)).(consts := v.consts + 1);
    Three(v1, SetLocal((n + 1) % 65536), Instr.Pop, Loop(start))
  }

  predicate CountStepAt(asm: Listing, p: nat, n: nat, start: nat) {
    && Has(asm, p, GetLocal(n + 1)) && Has(asm, p + 3, Const(VNum(1.0))) && Has(asm, p + 6, Operate(Add))
    && Has(asm, p + 7, SetLocal(n + 1)) && Has(asm, p + 10, Instr.Pop) && Has(asm, p + 11, Loop(start))
  }

  lemma TidyConsts(v: View, n: nat)
    requires Tidy(v)
    ensures Tidy(v.(consts := n))
  {}

  lemma CountStepFacts(v: View, n: nat, start: nat)
    requires Tidy(v)
    ensures var w := CountStep(v, n, start);
            && Tidy(w) && Within(v.asm, w.asm) && w.size == v.size + 14 && w.consts == v.consts + 1
            && w.pending == v.pending && (n + 1 < 65536 ==> CountStepAt(w.asm, v.size, n, start))
  {
    hide Three, Within, Has, Tidy;
    var g, h := GetLocal((n + 1) % 65536), SetLocal((n + 1) % 65536);
    var u := Three(v, g, Const(VNum(1.0)), Operate(Add));
    var w := CountStep(v, n, start);
    ThreeFacts(v, g, Const(VNum(1.0)), Operate(Add));
    TidyConsts(u, v.consts + 1);
    ThreeFacts(u.(consts := v.consts + 1), h, Instr.Pop, Loop(start));
    WithinTrans(v.asm, u.asm, w.asm);
    HasMono(u.asm, w.asm, v.size, g);
    HasMono(u.asm, w.asm, v.size + 3, Const(VNum(1.0)));
    HasMono(u.asm, w.asm, v.size + 6, Operate(Add));
  }

  /** After the step: pop the condition, then the index and the count. */
  function CountEnd(v: View, q: nat, exits: seq<nat>): View {
    Put(Put(CloseAll(Put(Close(v, q), Instr.Pop), exits), Instr.Pop), Instr.Pop)
  }

  predicate PopsAt(asm: Listing, p: nat) {
    Has(asm, p, Instr.Pop) && Has(asm, p + 1, Instr.Pop) && Has(asm, p + 2, Instr.Pop)
  }

  lemma CountEndFacts(v: View, q: nat, exits: seq<nat>)
    requires Tidy(v)
    ensures var w := CountEnd(v, q, exits);
            && Tidy(w) && Within(v.asm, w.asm) && w.size == v.size + 3 && w.consts == v.consts
            && w.pending == v.pending - {q} - HoleSet(exits) && PopsAt(w.asm, v.size)
  {
    hide HoleSet;
    var v1 := Put(Close(v, q), Instr.Pop);
    PutFacts(Close(v, q), Instr.Pop);
    PutFacts(CloseAll(v1, exits), Instr.Pop);
    PutFacts(Put(CloseAll(v1, exits), Instr.Pop), Instr.Pop);
  }

  lemma CountMono(a: Listing, b: Listing, p: nat, n: nat, t: nat)
    requires Within(a, b)
    ensures CountHeadAt(a, p, n, t) ==> CountHeadAt(b, p, n, t)
    ensures CountStepAt(a, p, n, t) ==> CountStepAt(b, p, n, t)
    ensures PopsAt(a, p) ==> PopsAt(b, p)
  {}

  lemma FoldRepeat(code: Listing, count: Expr, body: seq<Stmt>, p: nat, cx: Context, stop: Target, skip: Target)
    requires var n := |cx.locals|;
             var p1 := p + SizeE(count);
             var inner := EnterLoop(cx, ["", ""], []);
             var p2 := p1 + 14 + SizeB(body, inner);
             && LayoutE(code, count, p, cx.locals) && Has(code, p1, Const(VNum(0.0))) && CountHeadAt(code, p1 + 3, n, p2 + 14)
             && LayoutB(code, body, p1 + 14, inner, Fwd(p2 + 15), Fwd(p2))
             && CountStepAt(code, p2, n, p1 + 3) && PopsAt(code, p2 + 14)
    ensures LayoutS(code, Repeat(count, body), p, cx, stop, skip)
  {
    hide Has, LayoutE, LayoutB, SizeE, SizeB;
  }

  lemma RepeatCode(v0: View, v1: View, v2: View, v3: View, v4: View, v6: View, v7: View,
                   count: Expr, body: seq<Stmt>, cx: Context, stop: Target, skip: Target)
    requires var inner := EnterLoop(cx, ["", ""], []);
             var n := |cx.locals|;
             && v1.size == v0.size + SizeE(count) && v2.size == v1.size + 3 && v3.size == v2.size + 11
             && v4.size == v3.size + SizeB(body, inner) && v6.size == v4.size + 14
             && LaidE(v1.asm, count, v0.size, cx.locals) && Has(v2.asm, v1.size, Const(VNum(0.0)))
             && CountHeadAt(v3.asm, v2.size, n, v6.size)
             && LaidB(v4.asm, body, v3.size, inner, Fwd(v4.size + 15), Fwd(v4.size))
             && CountStepAt(v6.asm, v4.size, n, v2.size) && PopsAt(v7.asm, v6.size)
    requires Within(v1.asm, v2.asm) && Within(v2.asm, v3.asm) && Within(v3.asm, v4.asm) && Within(v4.asm, v6.asm) && Within(v6.asm, v7.asm)
    ensures LaidS(v7.asm, Repeat(count, body), v0.size, cx, stop, skip)
  {
    hide SizeE, SizeB, SizeS, LayoutE, LayoutB, LayoutS, Within, Has, EnterLoop, CountHeadAt, CountStepAt, PopsAt;
    var n := |cx.locals|;
    WithinTrans(v2.asm, v3.asm, v4.asm);
    WithinTrans(v1.asm, v2.asm, v4.asm);
    forall fin | Within(v7.asm, fin) ensures LayoutS(fin, Repeat(count, body), v0.size, cx, stop, skip) {
      WithinTrans(v6.asm, v7.asm, fin);
      WithinTrans(v4.asm, v6.asm, fin);
      WithinTrans(v3.asm, v4.asm, fin);
      WithinTrans(v2.asm, v4.asm, fin);
      WithinTrans(v1.asm, v4.asm, fin);
      LaidEAt(v1.asm, count, v0.size, cx.locals, fin);
      HasMono(v2.asm, fin, v1.size, Const(VNum(0.0)));
      CountMono(v3.asm, fin, v2.size, n, v6.size);
      LaidBAt(v4.asm, body, v3.size, EnterLoop(cx, ["", ""], []), Fwd(v4.size + 15), Fwd(v4.size), fin);
      CountMono(v6.asm, fin, v4.size, n, v2.size);
      CountMono(v7.asm, fin, v6.size, n, 0);
      FoldRepeat(fin, count, body, v0.size, cx, stop, skip);
    }
  }

  /** Both lists of holes are closed, the skips before the stops. */
  lemma BothClosed(p0: set<nat>, q: nat, v: View, o: Outlets)
    requires q !in p0 && v.pending - AllHoles(o) == p0 + {q}
    ensures v.pending - HoleSet(o.continues) - {q} - HoleSet(o.exits) == p0
  {
    hide HoleSet;
    assert v.pending - HoleSet(o.continues) - {q} - HoleSet(o.exits) == (v.pending - AllHoles(o)) - {q};
  }

  lemma RepeatGrown(v0: View, o: Outlets, v1: View, v2: View, v3: View, v4: View, o4: Outlets, v6: View, v7: View,
                    count: Expr, body: seq<Stmt>, cx: Context, stop: nat, skip: Target)
    requires var inner := EnterLoop(cx, ["", ""], []);
             var n := |cx.locals|;
             var p2 := v2.size + 11 + SizeB(body, inner);
             && OutletsOk(v0, o, stop, skip) && Tidy(v1) && GrownE(v0, v1, count, cx.locals)
             && v2 == Put(v1, Const(VNum(0.0))).(consts := v1.consts + 1) && v3 == CountHead(v2, n, p2 + 14)
             && GrownScope(v3, NoOutlets(v2.size), v4, o4, body, 0, inner, p2 + 15, Fwd(p2))
             && v6 == CountStep(CloseAll(v4, o4.continues), n, v2.size) && v7 == CountEnd(v6, v2.size + 7, o4.exits)
             && SizeB(body, inner) + 25 <= MAX_JUMP
    ensures GrownS(v0, o, v7, o, Repeat(count, body), cx, stop, skip) && OutletsOk(v7, o, stop, skip)
  {
    hide SizeE, SizeB, SizeS, UsesE, UsesB, UsesS, LaidE, LaidB, LaidS, CountHead, CountStep, CountEnd, CountHeadAt, CountStepAt, PopsAt,
         OutletsOk, Within, Has, Repeated, EnterLoop, AllHoles, HoleSet;
    RepeatSizes(count, body, v0.size, cx, skip);
    PutFacts(v1, Const(VNum(0.0)));
    CountHeadFacts(v2, |cx.locals|, v2.size + 25 + SizeB(body, EnterLoop(cx, ["", ""], [])));
    PendingBelow(v2, v2.size + 7);
    CountStepFacts(CloseAll(v4, o4.continues), |cx.locals|, v2.size);
    CountEndFacts(v6, v2.size + 7, o4.exits);
    FreshOutlets(v3, v2.size, 0, Fwd(0));
    BothClosed(v0.pending, v2.size + 7, v4, o4);
    RepeatWithin(v0, v1, v2, v3, v4, v6, v7);
    if Narrow(|cx.locals|, SizeS(Repeat(count, body), cx)) {
      RepeatCode(v0, v1, v2, v3, v4, v6, v7, count, body, cx, Fwd(stop), skip);
    }
    LoopGrown(v0, o, v7, Repeat(count, body), cx, stop, skip);
  }

  lemma RepeatWithin(v0: View, v1: View, v2: View, v3: View, v4: View, v6: View, v7: View)
    requires Within(v0.asm, v1.asm) && Within(v1.asm, v2.asm) && Within(v2.asm, v3.asm) && Within(v3.asm, v4.asm)
    requires Within(v4.asm, v6.asm) && Within(v6.asm, v7.asm)
    ensures Within(v0.asm, v7.asm)
  {
    hide Within;
    WithinTrans(v0.asm, v1.asm, v2.asm);
    WithinTrans(v0.asm, v2.asm, v3.asm);
    WithinTrans(v0.asm, v3.asm, v4.asm);
    WithinTrans(v0.asm, v4.asm, v6.asm);
    WithinTrans(v0.asm, v6.asm, v7.asm);
  }
}
