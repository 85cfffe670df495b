/** Putting the code of statements together. */
module StmtEmission {
  import opened Values
  import opened Language
  import opened CodeGen
  import opened Machine
  import opened Emission
  import opened ExprEmission
  import opened Limits

  /** The innermost loop's start, and the operand offsets of its stop and skip jumps. */
  datatype Outlets = Outlets(start: nat, exits: seq<nat>, continues: seq<nat>)

  function HoleSet(xs: seq<nat>): set<nat> { set x | x in xs && x > 0 :: x - 1 }

  function AllHoles(o: Outlets): set<nat> { HoleSet(o.exits) + HoleSet(o.continues) }

  /** The open jumps that are not the innermost loop's own. */
  function Loose(v: View, o: Outlets): set<nat> { v.pending - AllHoles(o) }

  ghost predicate HolesOk(v: View, start: nat, xs: seq<nat>, i: Instr) {
    && (forall x | x in xs :: x > start && x - 1 in v.pending && x - 1 in v.asm && v.asm[x - 1] == i)
    && (forall j, k | 0 <= j < k < |xs| :: xs[j] < xs[k])
  }

  ghost predicate OutletsOk(v: View, o: Outlets, stop: nat, skip: Target) {
    && HolesOk(v, o.start, o.exits, Jump(stop))
    && (if skip.Fwd? then HolesOk(v, o.start, o.continues, Jump(skip.t)) else o.continues == [])
  }

  /** From v0 to v1 the code of s was written; its stops and skips are in the outlets. */
  ghost predicate GrownS(v0: View, o0: Outlets, v1: View, o1: Outlets, s: Stmt, cx: Context, stop: nat, skip: Target) {
    && v1.size == v0.size + SizeS(s, cx) && v1.consts == v0.consts + UsesS(s, cx)
    && Within(v0.asm, v1.asm) && Loose(v1, o1) == Loose(v0, o0)
    && (Narrow(|cx.locals|, SizeS(s, cx)) ==> LaidS(v1.asm, s, v0.size, cx, Fwd(stop), skip))
  }

  ghost predicate GrownB(v0: View, o0: Outlets, v1: View, o1: Outlets, b: seq<Stmt>, cx: Context, stop: nat, skip: Target) {
    && v1.size == v0.size + SizeB(b, cx) && v1.consts == v0.consts + UsesB(b, cx)
    && Within(v0.asm, v1.asm) && Loose(v1, o1) == Loose(v0, o0)
    && (Narrow(|cx.locals|, SizeB(b, cx)) ==> LaidB(v1.asm, b, v0.size, cx, Fwd(stop), skip))
  }

  /** More output keeps the outlets, as long as their jumps stay open. */
  lemma OutletsKept(v: View, w: View, o: Outlets, stop: nat, skip: Target)
    requires OutletsOk(v, o, stop, skip) && Within(v.asm, w.asm) && AllHoles(o) <= w.pending
    ensures OutletsOk(w, o, stop, skip)
  {
    forall x | x in o.exits && x > 0 ensures x - 1 in w.pending { assert x - 1 in HoleSet(o.exits); }
    forall x | x in o.continues && x > 0 ensures x - 1 in w.pending { assert x - 1 in HoleSet(o.continues); }
  }

  lemma HolesPending(v: View, o: Outlets, stop: nat, skip: Target)
    requires OutletsOk(v, o, stop, skip)
    ensures AllHoles(o) <= v.pending
  {}

  // ---- Blocks, statement by statement ----

  lemma {:induction false} SizeBAppend(b: seq<Stmt>, s: Stmt, cx: Context)
    ensures SizeB(b + [s], cx) == SizeB(b, cx) + SizeS(s, cx)
    ensures UsesB(b + [s], cx) == UsesB(b, cx) + UsesS(s, cx)
    decreases |b|
  {
    hide SizeS, UsesS;
    if b == [] {
      assert [s][1..] == [];
    } else {
      assert (b + [s])[1..] == b[1..] + [s];
      SizeBAppend(b[1..], s, cx);
    }
  }

  lemma {:induction false} FitsBAppend(b: seq<Stmt>, s: Stmt, p: nat, cx: Context, skip: Target)
    ensures FitsB(b + [s], p, cx, skip) <==> FitsB(b, p, cx, skip) && FitsS(s, p + SizeB(b, cx), cx, skip)
    decreases |b|
  {
    hide SizeS, FitsS;
    if b == [] {
      assert [s][1..] == [];
    } else {
      assert (b + [s])[1..] == b[1..] + [s];
      FitsBAppend(b[1..], s, p + SizeS(b[0], cx), cx, skip);
    }
  }

  lemma {:induction false} BlockPrefix(b: seq<Stmt>, n: nat, p: nat, cx: Context, skip: Target)
    requires n <= |b|
    ensures FitsB(b, p, cx, skip) ==> FitsB(b[..n], p, cx, skip)
    ensures UsesB(b[..n], cx) <= UsesB(b, cx) && SizeB(b[..n], cx) <= SizeB(b, cx)
    decreases |b| - n
  {
    if n < |b| {
      assert b[..n + 1] == b[..n] + [b[n]];
      SizeBAppend(b[..n], b[n], cx);
      FitsBAppend(b[..n], b[n], p, cx, skip);
      BlockPrefix(b, n + 1, p, cx, skip);
    } else {
      assert b[..n] == b;
    }
  }

  lemma {:induction false} LayoutBAppend(code: Listing, b: seq<Stmt>, s: Stmt, p: nat, cx: Context, stop: Target, skip: Target)
    requires LayoutB(code, b, p, cx, stop, skip) && LayoutS(code, s, p + SizeB(b, cx), cx, stop, skip)
    ensures LayoutB(code, b + [s], p, cx, stop, skip)
    decreases |b|
  {
    hide SizeS, LayoutS;
    if b == [] {
      assert [s][1..] == [];
    } else {
      assert (b + [s])[1..] == b[1..] + [s];
      LayoutBAppend(code, b[1..], s, p + SizeS(b[0], cx), cx, stop, skip);
    }
  }

  lemma EmptyGrown(v: View, o: Outlets, cx: Context, stop: nat, skip: Target)
    ensures GrownB(v, o, v, o, [], cx, stop, skip)
  {}

  lemma StmtGrown(v0: View, o0: Outlets, v1: View, o1: Outlets, v2: View, o2: Outlets,
                  b: seq<Stmt>, s: Stmt, cx: Context, stop: nat, skip: Target)
    requires GrownB(v0, o0, v1, o1, b, cx, stop, skip) && GrownS(v1, o1, v2, o2, s, cx, stop, skip)
    ensures GrownB(v0, o0, v2, o2, b + [s], cx, stop, skip)
  {
    hide SizeS, UsesS, SizeB, UsesB, LayoutS, LayoutB, AllHoles;
    SizeBAppend(b, s, cx);
    WithinTrans(v0.asm, v1.asm, v2.asm);
    if Narrow(|cx.locals|, SizeB(b + [s], cx)) {
      forall fin | Within(v2.asm, fin) ensures LayoutB(fin, b + [s], v0.size, cx, Fwd(stop), skip) {
        WithinTrans(v1.asm, v2.asm, fin);
        LayoutBAppend(fin, b, s, v0.size, cx, Fwd(stop), skip);
      }
    }
  }

  lemma LaidBAt(asm: Listing, b: seq<Stmt>, p: nat, cx: Context, stop: Target, skip: Target, fin: Listing)
    requires LaidB(asm, b, p, cx, stop, skip) && Within(asm, fin)
    ensures LayoutB(fin, b, p, cx, stop, skip)
  {}

  // ---- if ----

  lemma IfSizes(c: Expr, thn: seq<Stmt>, els: seq<Stmt>, p: nat, cx: Context, skip: Target)
    ensures var s := If(c, thn, els);
            && SizeS(s, cx) == SizeE(c) + SizeB(thn, cx) + SizeB(els, cx) + 8
            && UsesS(s, cx) == UsesE(c, cx.locals) + UsesB(thn, cx) + UsesB(els, cx)
            && (FitsS(s, p, cx, skip) <==>
                && FitsE(c) && FitsB(thn, p + SizeE(c) + 4, cx, skip)
                && FitsB(els, p + SizeE(c) + SizeB(thn, cx) + 8, cx, skip)
                && SizeB(thn, cx) + 4 <= MAX_JUMP && SizeB(els, cx) + 1 <= MAX_JUMP)
  {
    hide SizeE, SizeB, UsesE, UsesB, FitsE, FitsB;
  }

  lemma FoldIf(code: Listing, c: Expr, thn: seq<Stmt>, els: seq<Stmt>, p: nat, cx: Context, stop: Target, skip: Target)
    requires var p1 := p + SizeE(c);
             var p2 := p1 + 4 + SizeB(thn, cx);
             && LayoutE(code, c, p, cx.locals) && Has(code, p1, JumpIfFalse(p2 + 3)) && Has(code, p1 + 3, Instr.Pop)
             && LayoutB(code, thn, p1 + 4, cx, stop, skip)
             && Has(code, p2, Jump(p + SizeS(If(c, thn, els), cx))) && Has(code, p2 + 3, Instr.Pop)
             && LayoutB(code, els, p2 + 4, cx, stop, skip)
    ensures LayoutS(code, If(c, thn, els), p, cx, stop, skip)
  {
    hide Has, LayoutE, LayoutB, SizeE, SizeB;
  }

  lemma IfLaid(a1: Listing, a3: Listing, a5: Listing, c: Expr, thn: seq<Stmt>, els: seq<Stmt>, p: nat, cx: Context, stop: Target, skip: Target)
    requires var p1 := p + SizeE(c);
             var p2 := p1 + 4 + SizeB(thn, cx);
             && LaidE(a1, c, p, cx.locals) && LaidB(a3, thn, p1 + 4, cx, stop, skip) && LaidB(a5, els, p2 + 4, cx, stop, skip)
             && Has(a5, p1, JumpIfFalse(p2 + 3)) && Has(a5, p1 + 3, Instr.Pop)
             && Has(a5, p2, Jump(p + SizeS(If(c, thn, els), cx))) && Has(a5, p2 + 3, Instr.Pop)
    requires Within(a1, a5) && Within(a3, a5)
    ensures LaidS(a5, If(c, thn, els), p, cx, stop, skip)
  {
    hide SizeE, SizeB, SizeS, LayoutE, LayoutB, LayoutS, Within, Has;
    var p1, p2 := p + SizeE(c), p + SizeE(c) + 4 + SizeB(thn, cx);
    forall fin | Within(a5, fin) ensures LayoutS(fin, If(c, thn, els), p, cx, stop, skip) {
      WithinTrans(a1, a5, fin);
      WithinTrans(a3, a5, fin);
      LaidEAt(a1, c, p, cx.locals, fin);
      LaidBAt(a3, thn, p1 + 4, cx, stop, skip, fin);
      LaidBAt(a5, els, p2 + 4, cx, stop, skip, fin);
      HasMono(a5, fin, p1, JumpIfFalse(p2 + 3));
      HasMono(a5, fin, p1 + 3, Instr.Pop);
      HasMono(a5, fin, p2, Jump(p + SizeS(If(c, thn, els), cx)));
      HasMono(a5, fin, p2 + 3, Instr.Pop);
      FoldIf(fin, c, thn, els, p, cx, stop, skip);
    }
  }

  lemma EmptyFits(p: nat, cx: Context, skip: Target)
    ensures FitsB([], p, cx, skip) && UsesB([], cx) == 0
  {}

  /** An open jump of a statement survives the statements inside it. */
  lemma OpenSurvives(v: View, o: Outlets, w: View, u: Outlets, q: nat, i: Instr)
    requires q in Loose(v, o) && Has(v.asm, q, i) && Within(v.asm, w.asm) && Loose(w, u) == Loose(v, o)
    ensures q in w.pending && q in w.asm && w.asm[q] == i
    ensures q in Loose(w, u) && Has(w.asm, q, i)
  {
    hide AllHoles;
    assert q in Loose(w, u);
  }

  /** After the code of a condition, with its test. */
  lemma AfterTest(v0: View, o: Outlets, v1: View, v2: View, t: nat, c: Expr, locals: seq<string>, stop: nat, skip: Target)
    requires OutletsOk(v0, o, stop, skip) && Tidy(v1) && GrownE(v0, v1, c, locals) && v2 == Test(v1, t)
    ensures OutletsOk(v2, o, stop, skip) && v2.size == v1.size + 4 && v2.consts == v1.consts
    ensures v1.size in Loose(v2, o) && Has(v2.asm, v1.size, JumpIfFalse(t))
  {
    hide Test, OutletsOk, AllHoles, LaidE;
    TestFacts(v1, t);
    HolesPending(v0, o, stop, skip);
    WithinTrans(v0.asm, v1.asm, v2.asm);
    OutletsKept(v0, v2, o, stop, skip);
    PendingBelow(v1, v1.size);
  }

  /** Between the branches: the outlets stay, and the jump over the else part is open. */
  lemma AfterElse(v: View, o: Outlets, w: View, q: nat, t: nat, stop: nat, skip: Target)
    requires OutletsOk(v, o, stop, skip) && Tidy(v) && q in Loose(v, o) && w == Else(v, q, t)
    ensures OutletsOk(w, o, stop, skip) && w.size == v.size + 4 && w.consts == v.consts
    ensures v.size in Loose(w, o) && Has(w.asm, v.size, Jump(t))
  {
    hide Else, OutletsOk, AllHoles;
    PendingBelow(v, v.size);
    assert q < v.size;
    ElseFacts(v, q, t);
    HolesPending(v, o, stop, skip);
    OutletsKept(v, w, o, stop, skip);
  }

  /** The parts of an if, written in order, are the if. */
  lemma IfGrown(v0: View, o0: Outlets, v1: View, v2: View, v3: View, o1: Outlets, v4: View, v5: View, o2: Outlets, v6: View,
                c: Expr, thn: seq<Stmt>, els: seq<Stmt>, cx: Context, stop: nat, skip: Target)
    requires OutletsOk(v0, o0, stop, skip) && Tidy(v0) && Tidy(v1) && Tidy(v3)
    requires GrownE(v0, v1, c, cx.locals) && v2 == Test(v1, v1.size + 4 + SizeB(thn, cx) + 3)
    requires GrownB(v2, o0, v3, o1, thn, cx, stop, skip) && OutletsOk(v3, o1, stop, skip)
    requires v4 == Else(v3, v1.size, v0.size + SizeS(If(c, thn, els), cx))
    requires GrownB(v4, o1, v5, o2, els, cx, stop, skip) && OutletsOk(v5, o2, stop, skip) && v6 == Close(v5, v3.size)
    ensures GrownS(v0, o0, v6, o2, If(c, thn, els), cx, stop, skip) && OutletsOk(v6, o2, stop, skip)
  {
    hide SizeE, SizeB, SizeS, UsesE, UsesB, UsesS, LaidE, LaidB, LaidS, Test, Else, OutletsOk, AllHoles, Within, Has;
    IfSizes(c, thn, els, v0.size, cx, skip);
    TestFacts(v1, v1.size + 4 + SizeB(thn, cx) + 3);
    ElseFacts(v3, v1.size, v0.size + SizeS(If(c, thn, els), cx));
    IfKept(v0, o0, v1, v2, v3, o1, v4, v5, o2, v6, stop, skip);
    if Narrow(|cx.locals|, SizeS(If(c, thn, els), cx)) {
      IfCode(v0, v1, v2, v3, v4, v6, c, thn, els, cx, stop, skip);
    }
  }

  lemma IfCode(v0: View, v1: View, v2: View, v3: View, v4: View, v6: View,
               c: Expr, thn: seq<Stmt>, els: seq<Stmt>, cx: Context, stop: nat, skip: Target)
    requires var end := v0.size + SizeS(If(c, thn, els), cx);
             && v1.size == v0.size + SizeE(c) && v3.size == v1.size + 4 + SizeB(thn, cx)
             && LaidE(v1.asm, c, v0.size, cx.locals) && LaidB(v3.asm, thn, v1.size + 4, cx, Fwd(stop), skip)
             && LaidB(v6.asm, els, v3.size + 4, cx, Fwd(stop), skip)
             && Has(v2.asm, v1.size, JumpIfFalse(v3.size + 3)) && Has(v2.asm, v1.size + 3, Instr.Pop)
             && Has(v4.asm, v3.size, Jump(end)) && Has(v4.asm, v3.size + 3, Instr.Pop)
    requires Within(v1.asm, v2.asm) && Within(v2.asm, v3.asm) && Within(v3.asm, v4.asm) && Within(v4.asm, v6.asm)
    ensures LaidS(v6.asm, If(c, thn, els), v0.size, cx, Fwd(stop), skip)
  {
    hide SizeE, SizeB, SizeS, LaidE, LaidB, LaidS, Within, Has;
    WithinTrans(v3.asm, v4.asm, v6.asm);
    WithinTrans(v2.asm, v3.asm, v6.asm);
    WithinTrans(v1.asm, v2.asm, v6.asm);
    HasMono(v2.asm, v6.asm, v1.size, JumpIfFalse(v3.size + 3));
    HasMono(v2.asm, v6.asm, v1.size + 3, Instr.Pop);
    HasMono(v4.asm, v6.asm, v3.size, Jump(v0.size + SizeS(If(c, thn, els), cx)));
    HasMono(v4.asm, v6.asm, v3.size + 3, Instr.Pop);
    IfLaid(v1.asm, v3.asm, v6.asm, c, thn, els, v0.size, cx, Fwd(stop), skip);
  }

  /** The open jumps and the outlets over an if. */
  lemma IfKept(v0: View, o0: Outlets, v1: View, v2: View, v3: View, o1: Outlets, v4: View, v5: View, o2: Outlets, v6: View,
               stop: nat, skip: Target)
    requires Tidy(v1) && Tidy(v3) && v1.size < v3.size && v0.pending == v1.pending
    requires OutletsOk(v0, o0, stop, skip) && OutletsOk(v3, o1, stop, skip) && OutletsOk(v5, o2, stop, skip)
    requires v2.pending == v1.pending + {v1.size} && Loose(v3, o1) == Loose(v2, o0)
    requires v4.pending == v3.pending - {v1.size} + {v3.size} && Loose(v5, o2) == Loose(v4, o1)
    requires v6 == Close(v5, v3.size) && Within(v0.asm, v1.asm) && Within(v1.asm, v2.asm) && Within(v2.asm, v3.asm)
    requires Within(v3.asm, v4.asm) && Within(v4.asm, v5.asm)
    ensures Loose(v6, o2) == Loose(v0, o0) && OutletsOk(v6, o2, stop, skip) && Within(v0.asm, v6.asm)
  {
    hide AllHoles, OutletsOk, Within, Tidy;
    HolesPending(v0, o0, stop, skip);
    HolesPending(v3, o1, stop, skip);
    HolesPending(v5, o2, stop, skip);
    IfLoose(v1, v2, v3, v4, v5, o0, o1, o2);
    WithinTrans(v0.asm, v1.asm, v2.asm);
    WithinTrans(v0.asm, v2.asm, v3.asm);
    WithinTrans(v0.asm, v3.asm, v4.asm);
    WithinTrans(v0.asm, v4.asm, v5.asm);
    WithinSame(v5.asm);
    OutletsKept(v5, v6, o2, stop, skip);
  }

  /** Opening and closing the two jumps of an if leaves the other open jumps alone. */
  lemma IfLoose(v1: View, v2: View, v3: View, v4: View, v5: View, o0: Outlets, o1: Outlets, o2: Outlets)
    requires Tidy(v1) && Tidy(v3) && v1.size < v3.size
    requires AllHoles(o0) <= v1.pending && AllHoles(o1) <= v3.pending && AllHoles(o2) <= v5.pending
    requires v2.pending == v1.pending + {v1.size} && Loose(v3, o1) == Loose(v2, o0)
    requires v4.pending == v3.pending - {v1.size} + {v3.size} && Loose(v5, o2) == Loose(v4, o1)
    ensures v5.pending - {v3.size} - AllHoles(o2) == v1.pending - AllHoles(o0)
    ensures AllHoles(o2) <= v5.pending - {v3.size}
    ensures v1.size in v3.pending && v3.size in v5.pending && AllHoles(o1) <= v4.pending
  {
    hide AllHoles;
    PendingBelow(v1, v1.size);
    PendingBelow(v1, v3.size);
    PendingBelow(v3, v3.size);
    SwapOpen(v1.pending, AllHoles(o0), v3.pending, AllHoles(o1), v1.size, v3.size);
    assert v3.size in Loose(v4, o1);
  }

  lemma PendingBelow(v: View, q: nat)
    requires Tidy(v) && v.size <= q
    ensures q !in v.pending
  {}

  lemma SwapOpen(p0: set<nat>, h0: set<nat>, p1: set<nat>, h1: set<nat>, q: nat, r: nat)
    requires h0 <= p0 && h1 <= p1 && q !in p0 && r !in p0 && r !in p1 && q != r
    requires p1 - h1 == p0 + {q} - h0
    ensures q in p1 && q !in h1 && r !in h1 && h1 <= p1 - {q} + {r}
    ensures p1 - {q} + {r} - h1 - {r} == p0 - h0
  {
    assert q in p0 + {q} - h0;
    assert p1 - {q} + {r} - h1 - {r} == (p1 - h1) - {q};
    assert p0 + {q} - h0 - {q} == p0 - h0;
  }

  lemma SameOutlets(v0: View, o: Outlets, v1: View, stop: nat, skip: Target)
    requires OutletsOk(v0, o, stop, skip) && Within(v0.asm, v1.asm) && v1.pending == v0.pending
    ensures OutletsOk(v1, o, stop, skip) && Loose(v1, o) == Loose(v0, o)
  {
    hide OutletsOk, Within, AllHoles;
    HolesPending(v0, o, stop, skip);
    OutletsKept(v0, v1, o, stop, skip);
  }

  // ---- Statements that evaluate one expression ----

  /** s evaluates e and then does i. */
  predicate Simple(s: Stmt, e: Expr, i: Instr) {
    (s == ExprStmt(e) && Popped(e) && i == Instr.Pop) || (s == Stmt.Print(e) && i == Output) || (s == Stmt.Throw(e) && i == Raise)
  }

  lemma SimpleSizes(s: Stmt, e: Expr, i: Instr, p: nat, cx: Context, skip: Target)
    requires Simple(s, e, i)
    ensures SizeS(s, cx) == SizeE(e) + 1 && UsesS(s, cx) == UsesE(e, cx.locals) && Len(i) == 1
    ensures FitsS(s, p, cx, skip) <==> FitsE(e)
  {
    hide SizeE, UsesE, FitsE;
  }

  lemma FoldSimple(code: Listing, s: Stmt, e: Expr, i: Instr, p: nat, cx: Context, stop: Target, skip: Target)
    requires Simple(s, e, i) && LayoutE(code, e, p, cx.locals) && Has(code, p + SizeE(e), i)
    ensures LayoutS(code, s, p, cx, stop, skip)
  {
    hide SizeE, LayoutE, Has;
  }

  lemma SimpleGrown(v0: View, o: Outlets, v1: View, v2: View, s: Stmt, e: Expr, i: Instr, cx: Context, stop: nat, skip: Target)
    requires Simple(s, e, i) && OutletsOk(v0, o, stop, skip) && GrownE(v0, v1, e, cx.locals) && Tidy(v1) && v2 == Put(v1, i)
    ensures GrownS(v0, o, v2, o, s, cx, stop, skip) && OutletsOk(v2, o, stop, skip)
  {
    hide SizeE, UsesE, SizeS, UsesS, LayoutE, LayoutS, LaidE, OutletsOk, Simple, Within, Has, AllHoles;
    SimpleSizes(s, e, i, v0.size, cx, skip);
    PutFacts(v1, i);
    WithinTrans(v0.asm, v1.asm, v2.asm);
    SameOutlets(v0, o, v2, stop, skip);
    if Narrow(|cx.locals|, SizeS(s, cx)) {
      forall fin | Within(v2.asm, fin) ensures LayoutS(fin, s, v0.size, cx, Fwd(stop), skip) {
        WithinTrans(v1.asm, v2.asm, fin);
        LaidEAt(v1.asm, e, v0.size, cx.locals, fin);
        HasMono(v2.asm, fin, v1.size, i);
        FoldSimple(fin, s, e, i, v0.size, cx, Fwd(stop), skip);
      }
    }
  }

  /** true, false and list literals are left on the stack. */
  lemma UnpoppedSizes(e: Expr, p: nat, cx: Context, skip: Target)
    requires !Popped(e)
    ensures SizeS(ExprStmt(e), cx) == SizeE(e) && UsesS(ExprStmt(e), cx) == UsesE(e, cx.locals)
    ensures FitsS(ExprStmt(e), p, cx, skip) <==> FitsE(e)
  {
    hide SizeE, UsesE, FitsE;
  }

  lemma FoldUnpopped(code: Listing, e: Expr, p: nat, cx: Context, stop: Target, skip: Target)
    requires !Popped(e) && LayoutE(code, e, p, cx.locals)
    ensures LayoutS(code, ExprStmt(e), p, cx, stop, skip)
  {
    hide SizeE, LayoutE, Has;
  }

  lemma UnpoppedGrown(v0: View, o: Outlets, v1: View, e: Expr, cx: Context, stop: nat, skip: Target)
    requires !Popped(e) && OutletsOk(v0, o, stop, skip) && GrownE(v0, v1, e, cx.locals)
    ensures GrownS(v0, o, v1, o, ExprStmt(e), cx, stop, skip) && OutletsOk(v1, o, stop, skip)
  {
    hide SizeE, UsesE, SizeS, UsesS, LayoutE, LayoutS, LaidE, OutletsOk, Within, AllHoles, Popped;
    UnpoppedSizes(e, v0.size, cx, skip);
    SameOutlets(v0, o, v1, stop, skip);
    if Narrow(|cx.locals|, SizeS(ExprStmt(e), cx)) {
      forall fin | Within(v1.asm, fin) ensures LayoutS(fin, ExprStmt(e), v0.size, cx, Fwd(stop), skip) {
        LaidEAt(v1.asm, e, v0.size, cx.locals, fin);
        FoldUnpopped(fin, e, v0.size, cx, Fwd(stop), skip);
      }
    }
  }

  lemma PassGrown(v: View, o: Outlets, cx: Context, p: nat, stop: nat, skip: Target)
    ensures GrownS(v, o, v, o, Stmt.Pass, cx, stop, skip)
    ensures UsesS(Stmt.Pass, cx) == 0 && FitsS(Stmt.Pass, p, cx, skip)
  {}

  // ---- Assignment ----

  /** From v0 to v1 the value on the stack was stored to x. */
  ghost predicate GrownStore(v0: View, v1: View, x: string, locals: seq<string>) {
    && v1.size == v0.size + SizeStore(locals, x) && v1.consts == v0.consts + UsesVar(locals, x) && v1.pending == v0.pending
    && Within(v0.asm, v1.asm) && Tidy(v1) && (|locals| <= 65536 ==> LayoutStore(v1.asm, x, v0.size, locals))
  }

  /** From v0 to v1 the first n targets were stored to: what remains completes the stores. */
  ghost predicate StoredSome(v0: View, v1: View, xs: seq<string>, n: nat, locals: seq<string>)
    requires n <= |xs|
  {
    && v1.size + SizeStores(locals, xs[n..]) == v0.size + SizeStores(locals, xs)
    && v1.consts + UsesStores(xs[n..], locals) == v0.consts + UsesStores(xs, locals)
    && v1.pending == v0.pending && Within(v0.asm, v1.asm)
    && (|locals| <= 65536 ==>
          forall fin | Within(v1.asm, fin) && LayoutStores(fin, xs[n..], v1.size, locals) :: LayoutStores(fin, xs, v0.size, locals))
  }

  lemma StoreLocalGrown(v0: View, v2: View, x: string, slot: nat, locals: seq<string>)
    requires Tidy(v0) && Resolve(locals, x) == slot && v2 == Put(Put(v0, SetLocal(slot % 65536)), Instr.Pop)
    ensures GrownStore(v0, v2, x, locals)
  {
    PutFacts(v0, SetLocal(slot % 65536));
    PutFacts(Put(v0, SetLocal(slot % 65536)), Instr.Pop);
    hide Resolve;
  }

  lemma StoreGlobalGrown(v0: View, v1: View, x: string, locals: seq<string>)
    requires Tidy(v0) && Resolve(locals, x) == -1 && v1 == Put(v0, DefineGlobal(x)).(consts := v0.consts + 1)
    ensures GrownStore(v0, v1, x, locals)
  {
    PutFacts(v0, DefineGlobal(x));
    hide Resolve;
  }

  lemma StoresUnfold(xs: seq<string>, n: nat, locals: seq<string>)
    requires n < |xs|
    ensures SizeStores(locals, xs[n..]) == (if n + 1 < |xs| then 1 else 0) + SizeStore(locals, xs[n]) + SizeStores(locals, xs[n + 1..])
    ensures UsesStores(xs[n..], locals) == UsesVar(locals, xs[n]) + UsesStores(xs[n + 1..], locals)
  {
    assert xs[n..][1..] == xs[n + 1..];
    hide SizeStore, UsesVar;
  }

  lemma StoresFold(code: Listing, xs: seq<string>, n: nat, p: nat, locals: seq<string>)
    requires n < |xs|
    requires var d := if n + 1 < |xs| then 1 else 0;
             && (d == 1 ==> Has(code, p, Dup)) && LayoutStore(code, xs[n], p + d, locals)
             && LayoutStores(code, xs[n + 1..], p + d + SizeStore(locals, xs[n]), locals)
    ensures LayoutStores(code, xs[n..], p, locals)
  {
    assert xs[n..][1..] == xs[n + 1..];
    hide SizeStore, LayoutStore, Has;
  }

  lemma StoreMono(a: Listing, b: Listing, x: string, p: nat, locals: seq<string>)
    requires Within(a, b) && LayoutStore(a, x, p, locals)
    ensures LayoutStore(b, x, p, locals)
  {}

  lemma StoredNext(v0: View, v1: View, v2: View, v3: View, xs: seq<string>, n: nat, locals: seq<string>)
    requires n < |xs| && StoredSome(v0, v1, xs, n, locals) && Tidy(v1)
    requires v2 == (if n + 1 < |xs| then Put(v1, Dup) else v1) && GrownStore(v2, v3, xs[n], locals)
    ensures StoredSome(v0, v3, xs, n + 1, locals)
  {
    hide LayoutStores, LayoutStore, SizeStores, UsesStores, SizeStore, UsesVar, Within, Has;
    StoresUnfold(xs, n, locals);
    PutFacts(v1, Dup);
    WithinSame(v1.asm);
    WithinTrans(v1.asm, v2.asm, v3.asm);
    WithinTrans(v0.asm, v1.asm, v3.asm);
    if |locals| <= 65536 {
      forall fin | Within(v3.asm, fin) && LayoutStores(fin, xs[n + 1..], v3.size, locals)
        ensures LayoutStores(fin, xs, v0.size, locals)
      {
        WithinTrans(v1.asm, v3.asm, fin);
        WithinTrans(v2.asm, v3.asm, fin);
        StoreMono(v3.asm, fin, xs[n], v2.size, locals);
        if n + 1 < |xs| { HasMono(v2.asm, fin, v1.size, Dup); }
        StoresFold(fin, xs, n, v1.size, locals);
      }
    }
  }

  lemma StoredNone(v: View, xs: seq<string>, locals: seq<string>)
    ensures StoredSome(v, v, xs, 0, locals)
  {
    assert xs[0..] == xs;
  }

  lemma AssignSizes(xs: seq<string>, e: Expr, p: nat, cx: Context, skip: Target)
    ensures SizeS(Assign(xs, e), cx) == SizeE(e) + SizeStores(cx.locals, xs)
    ensures UsesS(Assign(xs, e), cx) == UsesE(e, cx.locals) + UsesStores(xs, cx.locals)
    ensures FitsS(Assign(xs, e), p, cx, skip) <==> FitsE(e)
  {
    hide SizeE, UsesE, FitsE, SizeStores, UsesStores;
  }

  lemma FoldAssign(code: Listing, xs: seq<string>, e: Expr, p: nat, cx: Context, stop: Target, skip: Target)
    requires LayoutE(code, e, p, cx.locals) && LayoutStores(code, xs, p + SizeE(e), cx.locals)
    ensures LayoutS(code, Assign(xs, e), p, cx, stop, skip)
  {
    hide SizeE, LayoutE, LayoutStores, Has;
  }

  lemma AllStored(code: Listing, xs: seq<string>, p: nat, locals: seq<string>)
    ensures LayoutStores(code, xs[|xs|..], p, locals)
    ensures SizeStores(locals, xs[|xs|..]) == 0 && UsesStores(xs[|xs|..], locals) == 0
  {}

  lemma AssignGrown(v0: View, o: Outlets, v1: View, v2: View, xs: seq<string>, e: Expr, cx: Context, stop: nat, skip: Target)
    requires OutletsOk(v0, o, stop, skip) && GrownE(v0, v1, e, cx.locals) && StoredSome(v1, v2, xs, |xs|, cx.locals)
    ensures GrownS(v0, o, v2, o, Assign(xs, e), cx, stop, skip) && OutletsOk(v2, o, stop, skip)
  {
    hide SizeE, UsesE, SizeS, UsesS, LayoutE, LayoutS, LaidE, OutletsOk, Within, AllHoles, SizeStores, UsesStores, LayoutStores;
    AssignSizes(xs, e, v0.size, cx, skip);
    AllStored(v2.asm, xs, v2.size, cx.locals);
    WithinTrans(v0.asm, v1.asm, v2.asm);
    SameOutlets(v0, o, v2, stop, skip);
    if Narrow(|cx.locals|, SizeS(Assign(xs, e), cx)) {
      forall fin | Within(v2.asm, fin) ensures LayoutS(fin, Assign(xs, e), v0.size, cx, Fwd(stop), skip) {
        WithinTrans(v1.asm, v2.asm, fin);
        LaidEAt(v1.asm, e, v0.size, cx.locals, fin);
        AllStored(fin, xs, v2.size, cx.locals);
        FoldAssign(fin, xs, e, v0.size, cx, Fwd(stop), skip);
      }
    }
  }
}
