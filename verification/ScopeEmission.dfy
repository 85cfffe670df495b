/** Putting the code of `unless`, `try`, `stop` and `skip` together. */
module ScopeEmission {
  import opened Values
  import opened Language
  import opened CodeGen
  import opened Machine
  import opened Emission
  import opened ExprEmission
  import opened Limits
  import opened StmtEmission

  // ---- A condition with two ways out ----

  /** A test whose false side goes on, and whose true side jumps to t. */
  function Split(v: View, t: nat): View { Else(Test(v, v.size + 7), v.size, t) }

  predicate SplitAt(asm: Listing, p: nat, t: nat) {
    && Has(asm, p, JumpIfFalse(p + 7)) && Has(asm, p + 3, Instr.Pop)
    && Has(asm, p + 4, Jump(t)) && Has(asm, p + 7, Instr.Pop)
  }

  lemma SplitFacts(v: View, t: nat)
    requires Tidy(v)
    ensures var w := Split(v, t);
            && Tidy(w) && Within(v.asm, w.asm) && w.size == v.size + 8 && w.consts == v.consts
            && w.pending == v.pending + {v.size + 4} && SplitAt(w.asm, v.size, t)
  {
    hide Test, Else, Within, Has, Tidy;
    var u := Test(v, v.size + 7);
    TestFacts(v, v.size + 7);
    PendingBelow(v, v.size);
    ElseFacts(u, v.size, t);
    WithinTrans(v.asm, u.asm, Split(v, t).asm);
    HasMono(u.asm, Split(v, t).asm, v.size, JumpIfFalse(v.size + 7));
    HasMono(u.asm, Split(v, t).asm, v.size + 3, Instr.Pop);
  }

  lemma SplitMono(a: Listing, b: Listing, p: nat, t: nat)
    requires SplitAt(a, p, t) && Within(a, b)
    ensures SplitAt(b, p, t)
  {}

  /** After a condition and its split, as AfterTest. */
  lemma AfterSplit(v0: View, o: Outlets, v1: View, v2: View, t: nat, c: Expr, locals: seq<string>, stop: nat, skip: Target)
    requires OutletsOk(v0, o, stop, skip) && Tidy(v1) && GrownE(v0, v1, c, locals) && v2 == Split(v1, t)
    ensures OutletsOk(v2, o, stop, skip) && v2.size == v1.size + 8 && v2.consts == v1.consts
    ensures v1.size + 4 in Loose(v2, o) && Has(v2.asm, v1.size + 4, Jump(t))
  {
    hide Split, OutletsOk, AllHoles, LaidE;
    SplitFacts(v1, t);
    HolesPending(v0, o, stop, skip);
    WithinTrans(v0.asm, v1.asm, v2.asm);
    OutletsKept(v0, v2, o, stop, skip);
    PendingBelow(v1, v1.size + 4);
  }

  /** A jump opened at q and closed again after a block leaves the others alone. */
  lemma OpenClose(v0: View, o0: Outlets, v1: View, v2: View, o1: Outlets, v3: View, q: nat, stop: nat, skip: Target)
    requires OutletsOk(v0, o0, stop, skip) && OutletsOk(v2, o1, stop, skip) && q !in v0.pending
    requires v1.pending == v0.pending + {q} && Loose(v2, o1) == Loose(v1, o0)
    requires v3.pending == v2.pending - {q} && Within(v2.asm, v3.asm)
    ensures Loose(v3, o1) == Loose(v0, o0) && OutletsOk(v3, o1, stop, skip)
  {
    hide AllHoles, OutletsOk, Within;
    HolesPending(v0, o0, stop, skip);
    HolesPending(v2, o1, stop, skip);
    assert q in Loose(v1, o0);
    assert Loose(v3, o1) == Loose(v2, o1) - {q};
    assert Loose(v0, o0) == Loose(v1, o0) - {q};
    OutletsKept(v2, v3, o1, stop, skip);
  }

  // ---- unless ----

  lemma UnlessSizes(c: Expr, body: seq<Stmt>, p: nat, cx: Context, skip: Target)
    ensures var s := Unless(c, body);
            && SizeS(s, cx) == SizeE(c) + SizeB(body, cx) + 8 && UsesS(s, cx) == UsesE(c, cx.locals) + UsesB(body, cx)
            && (FitsS(s, p, cx, skip) <==>
                FitsE(c) && FitsB(body, p + SizeE(c) + 8, cx, skip) && SizeB(body, cx) + 1 <= MAX_JUMP)
  {
    hide SizeE, SizeB, UsesE, UsesB, FitsE, FitsB;
  }

  lemma FoldUnless(code: Listing, c: Expr, body: seq<Stmt>, p: nat, cx: Context, stop: Target, skip: Target)
    requires LayoutE(code, c, p, cx.locals) && SplitAt(code, p + SizeE(c), p + SizeS(Unless(c, body), cx))
    requires LayoutB(code, body, p + SizeE(c) + 8, cx, stop, skip)
    ensures LayoutS(code, Unless(c, body), p, cx, stop, skip)
  {
    hide Has, LayoutE, LayoutB, SizeE, SizeB;
  }

  lemma UnlessGrown(v0: View, o0: Outlets, v1: View, v2: View, v3: View, o1: Outlets, v4: View,
                    c: Expr, body: seq<Stmt>, cx: Context, stop: nat, skip: Target)
    requires OutletsOk(v0, o0, stop, skip) && Tidy(v1) && GrownE(v0, v1, c, cx.locals)
    requires v2 == Split(v1, v0.size + SizeS(Unless(c, body), cx)) && GrownB(v2, o0, v3, o1, body, cx, stop, skip)
    requires OutletsOk(v3, o1, stop, skip) && v4 == Close(v3, v1.size + 4)
    ensures GrownS(v0, o0, v4, o1, Unless(c, body), cx, stop, skip) && OutletsOk(v4, o1, stop, skip)
  {
    hide SizeE, SizeB, SizeS, UsesE, UsesB, UsesS, LayoutE, LayoutB, LayoutS, LaidE, LaidB, Split, SplitAt, OutletsOk, AllHoles, Within;
    UnlessSizes(c, body, v0.size, cx, skip);
    var end := v0.size + SizeS(Unless(c, body), cx);
    SplitFacts(v1, end);
    PendingBelow(v1, v1.size + 4);
    WithinSame(v3.asm);
    WithinTrans(v1.asm, v2.asm, v3.asm);
    WithinTrans(v0.asm, v1.asm, v3.asm);
    OpenCloseFrom(v0, v1, o0, v2, v3, o1, v4, v1.size + 4, stop, skip);
    if Narrow(|cx.locals|, SizeS(Unless(c, body), cx)) {
      forall fin | Within(v4.asm, fin) ensures LayoutS(fin, Unless(c, body), v0.size, cx, Fwd(stop), skip) {
        WithinTrans(v1.asm, v3.asm, fin);
        WithinTrans(v2.asm, v3.asm, fin);
        LaidEAt(v1.asm, c, v0.size, cx.locals, fin);
        SplitMono(v2.asm, fin, v1.size, end);
        LaidBAt(v3.asm, body, v2.size, cx, Fwd(stop), skip, fin);
        FoldUnless(fin, c, body, v0.size, cx, Fwd(stop), skip);
      }
    }
  }

  /** OpenClose, with an expression before the jump. */
  lemma OpenCloseFrom(u: View, v0: View, o0: Outlets, v1: View, v2: View, o1: Outlets, v3: View, q: nat, stop: nat, skip: Target)
    requires OutletsOk(u, o0, stop, skip) && Within(u.asm, v0.asm) && v0.pending == u.pending
    requires OutletsOk(v2, o1, stop, skip) && q !in v0.pending
    requires v1.pending == v0.pending + {q} && Loose(v2, o1) == Loose(v1, o0)
    requires v3.pending == v2.pending - {q} && Within(v2.asm, v3.asm)
    ensures Loose(v3, o1) == Loose(u, o0) && OutletsOk(v3, o1, stop, skip)
  {
    hide AllHoles, OutletsOk, Within;
    SameOutlets(u, o0, v0, stop, skip);
    OpenClose(v0, o0, v1, v2, o1, v3, q, stop, skip);
  }

  // ---- The same one-byte instruction several times ----

  function Many(v: View, n: nat, i: Instr): View
    decreases n
  {
    if n == 0 then v else Put(Many(v, n - 1, i), i)
  }

  lemma {:induction false} RepeatedSnoc(code: Listing, p: nat, n: nat, i: Instr)
    requires Repeated(code, p, n, i) && Has(code, p + n, i)
    ensures Repeated(code, p, n + 1, i)
    decreases n
  {
    hide Has;
    if n > 0 { RepeatedSnoc(code, p + 1, n - 1, i); }
  }

  lemma {:induction false} RepeatedMono(a: Listing, b: Listing, p: nat, n: nat, i: Instr)
    requires Within(a, b) && Repeated(a, p, n, i)
    ensures Repeated(b, p, n, i)
    decreases n
  {
    hide Within, Has;
    if n > 0 {
      HasMono(a, b, p, i);
      RepeatedMono(a, b, p + 1, n - 1, i);
    }
  }

  lemma {:induction false} ManyFacts(v: View, n: nat, i: Instr)
    requires Tidy(v) && Len(i) == 1
    ensures var w := Many(v, n, i);
            && Tidy(w) && Within(v.asm, w.asm) && w.size == v.size + n && w.consts == v.consts && w.pending == v.pending
            && Repeated(w.asm, v.size, n, i)
    decreases n
  {
    hide Within, Has, Tidy, Repeated;
    if n == 0 {
      WithinSame(v.asm);
      RepeatedNone(v.asm, v.size, i);
    } else {
      var u := Many(v, n - 1, i);
      ManyFacts(v, n - 1, i);
      PutFacts(u, i);
      WithinTrans(v.asm, u.asm, Put(u, i).asm);
      RepeatedMono(u.asm, Put(u, i).asm, v.size, n - 1, i);
      RepeatedSnoc(Put(u, i).asm, v.size, n - 1, i);
    }
  }

  lemma RepeatedNone(code: Listing, p: nat, i: Instr)
    ensures Repeated(code, p, 0, i)
  {}

  // ---- stop and skip ----

  /** The cleanup of a stop or skip. */
  function Leave(v: View, cx: Context): View {
    Many(Many(v, OpenTries(cx), EndTry), OpenLocals(cx), Instr.Pop)
  }

  lemma LeaveFacts(v: View, cx: Context)
    requires Tidy(v)
    ensures var w := Leave(v, cx);
            && Tidy(w) && Within(v.asm, w.asm) && w.size == v.size + Leaves(cx) && w.consts == v.consts
            && w.pending == v.pending && LaidLeave(w.asm, v.size, cx)
  {
    hide Many, Within, Tidy, Repeated;
    var u := Many(v, OpenTries(cx), EndTry);
    ManyFacts(v, OpenTries(cx), EndTry);
    ManyFacts(u, OpenLocals(cx), Instr.Pop);
    var w := Leave(v, cx);
    WithinTrans(v.asm, u.asm, w.asm);
    forall fin | Within(w.asm, fin) ensures LayoutLeave(fin, v.size, cx) {
      WithinTrans(u.asm, w.asm, fin);
      RepeatedMono(u.asm, fin, v.size, OpenTries(cx), EndTry);
      RepeatedMono(w.asm, fin, u.size, OpenLocals(cx), Instr.Pop);
    }
  }

  /** Opening one more stop or skip jump at the end of the code. */
  lemma HoleAdded(v0: View, xs: seq<nat>, v1: View, start: nat, i: Instr)
    requires HolesOk(v0, start, xs, i) && Tidy(v0) && v1 == PutOpen(v0, i) && start <= v0.size
    ensures HolesOk(v1, start, xs + [v0.size + 1], i) && HoleSet(xs + [v0.size + 1]) == HoleSet(xs) + {v0.size}
  {
    HoleSetSnoc(xs, v0.size);
    var ys := xs + [v0.size + 1];
    forall x | x in ys ensures x > start && x - 1 in v1.pending && x - 1 in v1.asm && v1.asm[x - 1] == i {
      if x != v0.size + 1 { assert x in xs; }
    }
    forall j, k | 0 <= j < k < |ys| ensures ys[j] < ys[k] {
      assert ys[j] == xs[j] && xs[j] in xs;
    }
  }

  lemma HoleSetSnoc(xs: seq<nat>, q: nat)
    ensures HoleSet(xs + [q + 1]) == HoleSet(xs) + {q}
  {
    var ys := xs + [q + 1];
    forall x | x in HoleSet(ys) ensures x in HoleSet(xs) + {q} { assert x + 1 in ys; }
    forall x | x in HoleSet(xs) + {q} ensures x in HoleSet(ys) { assert x + 1 in ys; }
  }

  lemma HolesKept(v: View, w: View, start: nat, xs: seq<nat>, i: Instr)
    requires HolesOk(v, start, xs, i) && Within(v.asm, w.asm) && v.pending <= w.pending
    ensures HolesOk(w, start, xs, i)
  {}

  lemma StopSizes(s: Stmt, p: nat, cx: Context, skip: Target)
    requires s.Stop? || s.Skip?
    ensures SizeS(s, cx) == Leaves(cx) + 3 && UsesS(s, cx) == 0
    ensures s.Stop? ==> (FitsS(s, p, cx, skip) <==> cx.inLoop)
    ensures s.Skip? ==> (FitsS(s, p, cx, skip) <==> cx.inLoop && (skip.Back? ==> p + Leaves(cx) + 3 - skip.t <= MAX_JUMP))
  {
    hide OpenTries, OpenLocals;
  }

  lemma JumpLaid(a1: Listing, a2: Listing, s: Stmt, p: nat, cx: Context, stop: Target, skip: Target)
    requires s.Stop? || s.Skip?
    requires LaidLeave(a1, p, cx) && Within(a1, a2)
    requires var to := if s.Stop? then stop else skip;
             !to.Pending? && Has(a2, p + Leaves(cx), if to.Back? then Loop(to.t) else Jump(to.t))
    ensures LaidS(a2, s, p, cx, stop, skip)
  {
    hide Within, Has, LayoutLeave, OpenTries, OpenLocals;
    forall fin | Within(a2, fin) ensures LayoutS(fin, s, p, cx, stop, skip) {
      WithinTrans(a1, a2, fin);
      var to := if s.Stop? then stop else skip;
      HasMono(a2, fin, p + Leaves(cx), if to.Back? then Loop(to.t) else Jump(to.t));
    }
  }

  lemma StopGrown(v0: View, o: Outlets, v1: View, v2: View, cx: Context, stop: nat, skip: Target)
    requires Tidy(v0) && OutletsOk(v0, o, stop, skip) && o.start <= v0.size && !skip.Pending?
    requires v1 == Leave(v0, cx) && v2 == PutOpen(v1, Jump(stop))
    ensures var o2 := o.(exits := o.exits + [v1.size + 1]);
            GrownS(v0, o, v2, o2, Stmt.Stop, cx, stop, skip) && OutletsOk(v2, o2, stop, skip)
  {
    hide Leave, Leaves, SizeS, UsesS, LaidS, LaidLeave, Within, Has, HolesOk, HoleSet;
    StopSizes(Stmt.Stop, v0.size, cx, skip);
    LeaveFacts(v0, cx);
    PutFacts(v1, Jump(stop));
    WithinTrans(v0.asm, v1.asm, v2.asm);
    HolesKept(v0, v1, o.start, o.exits, Jump(stop));
    HoleAdded(v1, o.exits, v2, o.start, Jump(stop));
    if skip.Fwd? { HolesKept(v0, v2, o.start, o.continues, Jump(skip.t)); }
    PendingBelow(v1, v1.size);
    JumpLaid(v1.asm, v2.asm, Stmt.Stop, v0.size, cx, Fwd(stop), skip);
  }

  lemma SkipFwdGrown(v0: View, o: Outlets, v1: View, v2: View, cx: Context, stop: nat, skip: Target)
    requires Tidy(v0) && OutletsOk(v0, o, stop, skip) && o.start <= v0.size && skip.Fwd?
    requires v1 == Leave(v0, cx) && v2 == PutOpen(v1, Jump(skip.t))
    ensures var o2 := o.(continues := o.continues + [v1.size + 1]);
            GrownS(v0, o, v2, o2, Stmt.Skip, cx, stop, skip) && OutletsOk(v2, o2, stop, skip)
  {
    hide Leave, Leaves, SizeS, UsesS, LaidS, LaidLeave, Within, Has, HolesOk, HoleSet;
    StopSizes(Stmt.Skip, v0.size, cx, skip);
    LeaveFacts(v0, cx);
    PutFacts(v1, Jump(skip.t));
    WithinTrans(v0.asm, v1.asm, v2.asm);
    HolesKept(v0, v1, o.start, o.continues, Jump(skip.t));
    HoleAdded(v1, o.continues, v2, o.start, Jump(skip.t));
    HolesKept(v0, v2, o.start, o.exits, Jump(stop));
    PendingBelow(v1, v1.size);
    JumpLaid(v1.asm, v2.asm, Stmt.Skip, v0.size, cx, Fwd(stop), skip);
  }

  lemma SkipBackGrown(v0: View, o: Outlets, v1: View, v2: View, cx: Context, stop: nat, skip: Target)
    requires Tidy(v0) && OutletsOk(v0, o, stop, skip) && skip.Back?
    requires v1 == Leave(v0, cx) && v2 == Put(v1, Loop(skip.t))
    ensures GrownS(v0, o, v2, o, Stmt.Skip, cx, stop, skip) && OutletsOk(v2, o, stop, skip)
  {
    hide Leave, Leaves, SizeS, UsesS, LaidS, LaidLeave, Within, Has, OutletsOk, AllHoles;
    StopSizes(Stmt.Skip, v0.size, cx, skip);
    LeaveFacts(v0, cx);
    PutFacts(v1, Loop(skip.t));
    WithinTrans(v0.asm, v1.asm, v2.asm);
    SameOutlets(v0, o, v2, stop, skip);
    JumpLaid(v1.asm, v2.asm, Stmt.Skip, v0.size, cx, Fwd(stop), skip);
  }

  // ---- Leaving a scope ----

  /** From v0 to v1: a block, then a pop for each of the variables of its scope. */
  ghost predicate GrownScope(v0: View, o0: Outlets, v1: View, o1: Outlets, b: seq<Stmt>, vars: nat, cx: Context, stop: nat, skip: Target) {
    && v1.size == v0.size + SizeB(b, cx) + vars && v1.consts == v0.consts + UsesB(b, cx)
    && Within(v0.asm, v1.asm) && Tidy(v1) && Loose(v1, o1) == Loose(v0, o0)
    && Repeated(v1.asm, v0.size + SizeB(b, cx), vars, Instr.Pop)
    && (Narrow(|cx.locals|, SizeB(b, cx)) ==> LaidB(v1.asm, b, v0.size, cx, Fwd(stop), skip))
  }

  lemma LaidBMono(a: Listing, c: Listing, b: seq<Stmt>, p: nat, cx: Context, stop: Target, skip: Target)
    requires LaidB(a, b, p, cx, stop, skip) && Within(a, c)
    ensures LaidB(c, b, p, cx, stop, skip)
  {
    hide Within, LayoutB;
    forall fin | Within(c, fin) ensures LayoutB(fin, b, p, cx, stop, skip) { WithinTrans(a, c, fin); }
  }

  lemma ScopeGrown(v0: View, o0: Outlets, v1: View, o1: Outlets, v2: View, b: seq<Stmt>, vars: nat, cx: Context, stop: nat, skip: Target)
    requires GrownB(v0, o0, v1, o1, b, cx, stop, skip) && OutletsOk(v1, o1, stop, skip) && Tidy(v1)
    requires v2 == Many(v1, vars, Instr.Pop)
    ensures GrownScope(v0, o0, v2, o1, b, vars, cx, stop, skip) && OutletsOk(v2, o1, stop, skip)
  {
    hide SizeB, UsesB, LaidB, OutletsOk, AllHoles, Within, Many, Repeated, Tidy;
    ManyFacts(v1, vars, Instr.Pop);
    WithinTrans(v0.asm, v1.asm, v2.asm);
    SameOutlets(v1, o1, v2, stop, skip);
    if Narrow(|cx.locals|, SizeB(b, cx)) { LaidBMono(v1.asm, v2.asm, b, v0.size, cx, Fwd(stop), skip); }
  }

  // ---- try ----

  lemma TrySizes(body: seq<Stmt>, x: string, handler: seq<Stmt>, p: nat, cx: Context, skip: Target)
    ensures var s := Try(body, x, handler);
            var inner := AddLocals(cx, [x]);
            && SizeS(s, cx) == SizeB(body, EnterTry(cx)) + SizeB(handler, inner) + 8
            && UsesS(s, cx) == UsesB(body, EnterTry(cx)) + UsesB(handler, inner)
            && (FitsS(s, p, cx, skip) <==>
                && FitsB(body, p + 3, EnterTry(cx), skip)
                && FitsB(handler, p + 7 + SizeB(body, EnterTry(cx)), inner, skip)
                && SizeB(body, EnterTry(cx)) + 4 <= MAX_JUMP && SizeB(handler, inner) + 1 <= MAX_JUMP)
  {
    hide SizeB, UsesB, FitsB;
  }

  lemma FoldTry(code: Listing, body: seq<Stmt>, x: string, handler: seq<Stmt>, p: nat, cx: Context, stop: Target, skip: Target)
    requires var p1 := p + 3 + SizeB(body, EnterTry(cx));
             var inner := AddLocals(cx, [x]);
             && Has(code, p, BeginTry(p1 + 4)) && LayoutB(code, body, p + 3, EnterTry(cx), stop, skip)
             && Has(code, p1, EndTry) && Has(code, p1 + 1, Jump(p + SizeS(Try(body, x, handler), cx)))
             && LayoutB(code, handler, p1 + 4, inner, stop, skip) && Has(code, p1 + 4 + SizeB(handler, inner), Instr.Pop)
    ensures LayoutS(code, Try(body, x, handler), p, cx, stop, skip)
  {
    hide Has, LayoutB, SizeB;
  }

  /** Between body and handler: the end of the try block and the jump over the handler. */
  function TryMid(v: View, q: nat, t: nat): View { Close(PutOpen(Put(v, EndTry), Jump(t)), q) }

  lemma TryMidFacts(v: View, o: Outlets, q: nat, t: nat, stop: nat, skip: Target)
    requires Tidy(v) && OutletsOk(v, o, stop, skip) && q in Loose(v, o)
    ensures var w := TryMid(v, q, t);
            && Tidy(w) && Within(v.asm, w.asm) && w.size == v.size + 4 && w.consts == v.consts
            && w.pending == v.pending - {q} + {v.size + 1} && OutletsOk(w, o, stop, skip)
            && Has(w.asm, v.size, EndTry) && Has(w.asm, v.size + 1, Jump(t))
            && v.size + 1 in Loose(w, o)
  {
    hide OutletsOk, AllHoles, Within;
    var u := Put(v, EndTry);
    PutFacts(v, EndTry);
    PutFacts(u, Jump(t));
    var w := TryMid(v, q, t);
    WithinTrans(v.asm, u.asm, w.asm);
    HasMono(u.asm, w.asm, v.size, EndTry);
    HolesPending(v, o, stop, skip);
    PendingBelow(v, v.size);
    PendingBelow(v, v.size + 1);
    OutletsKept(v, w, o, stop, skip);
  }

  lemma TryOpen(v0: View, o: Outlets, v1: View, t: nat, stop: nat, skip: Target)
    requires Tidy(v0) && OutletsOk(v0, o, stop, skip) && v1 == PutOpen(v0, BeginTry(t))
    ensures Tidy(v1) && Within(v0.asm, v1.asm) && OutletsOk(v1, o, stop, skip) && v1.size == v0.size + 3
    ensures v0.size in Loose(v1, o) && Has(v1.asm, v0.size, BeginTry(t)) && v1.pending == v0.pending + {v0.size}
  {
    hide OutletsOk, AllHoles, Within;
    PutFacts(v0, BeginTry(t));
    HolesPending(v0, o, stop, skip);
    PendingBelow(v0, v0.size);
    OutletsKept(v0, v1, o, stop, skip);
  }

  lemma TryKept(v0: View, o0: Outlets, v1: View, v2: View, o1: Outlets, v3: View, v4: View, o2: Outlets, v5: View, stop: nat, skip: Target)
    requires Tidy(v0) && Tidy(v2) && v0.size < v2.size
    requires OutletsOk(v0, o0, stop, skip) && OutletsOk(v2, o1, stop, skip) && OutletsOk(v4, o2, stop, skip)
    requires v1.pending == v0.pending + {v0.size} && Loose(v2, o1) == Loose(v1, o0)
    requires v3.pending == v2.pending - {v0.size} + {v2.size + 1} && Loose(v4, o2) == Loose(v3, o1)
    requires v5 == Close(v4, v2.size + 1) && Within(v0.asm, v1.asm) && Within(v1.asm, v2.asm)
    requires Within(v2.asm, v3.asm) && Within(v3.asm, v4.asm)
    ensures Loose(v5, o2) == Loose(v0, o0) && OutletsOk(v5, o2, stop, skip) && Within(v0.asm, v5.asm)
  {
    hide AllHoles, OutletsOk, Within, Tidy;
    HolesPending(v0, o0, stop, skip);
    HolesPending(v2, o1, stop, skip);
    HolesPending(v4, o2, stop, skip);
    PendingBelow(v0, v0.size);
    PendingBelow(v0, v2.size + 1);
    PendingBelow(v2, v2.size + 1);
    SwapOpen(v0.pending, AllHoles(o0), v2.pending, AllHoles(o1), v0.size, v2.size + 1);
    assert v2.size + 1 in Loose(v3, o1);
    assert Loose(v5, o2) == Loose(v4, o2) - {v2.size + 1};
    WithinTrans(v0.asm, v1.asm, v2.asm);
    WithinTrans(v0.asm, v2.asm, v3.asm);
    WithinTrans(v0.asm, v3.asm, v4.asm);
    WithinSame(v4.asm);
    OutletsKept(v4, v5, o2, stop, skip);
  }

  lemma TryNarrow(body: seq<Stmt>, x: string, handler: seq<Stmt>, cx: Context)
    requires Narrow(|cx.locals|, SizeS(Try(body, x, handler), cx)) && SizeB(handler, AddLocals(cx, [x])) + 1 <= MAX_JUMP
    ensures Narrow(|EnterTry(cx).locals|, SizeB(body, EnterTry(cx)))
    ensures Narrow(|AddLocals(cx, [x]).locals|, SizeB(handler, AddLocals(cx, [x])))
  {
    hide SizeB, FitsB, UsesB;
    TrySizes(body, x, handler, 0, cx, Fwd(0));
    hide SizeS;
  }

  lemma TryGrown(v0: View, o0: Outlets, v1: View, v2: View, o1: Outlets, v3: View, v4: View, o2: Outlets, v5: View,
                 body: seq<Stmt>, x: string, handler: seq<Stmt>, cx: Context, stop: nat, skip: Target)
    requires OutletsOk(v0, o0, stop, skip) && Tidy(v0) && Tidy(v2)
    requires v1 == PutOpen(v0, BeginTry(v0.size + 7 + SizeB(body, EnterTry(cx))))
    requires GrownB(v1, o0, v2, o1, body, EnterTry(cx), stop, skip) && OutletsOk(v2, o1, stop, skip)
    requires v0.size in Loose(v2, o1) && v3 == TryMid(v2, v0.size, v0.size + SizeS(Try(body, x, handler), cx))
    requires GrownScope(v3, o1, v4, o2, handler, 1, AddLocals(cx, [x]), stop, skip) && OutletsOk(v4, o2, stop, skip)
    requires v5 == Close(v4, v2.size + 1) && SizeB(handler, AddLocals(cx, [x])) + 1 <= MAX_JUMP
    ensures GrownS(v0, o0, v5, o2, Try(body, x, handler), cx, stop, skip) && OutletsOk(v5, o2, stop, skip)
  {
    hide SizeB, SizeS, UsesB, UsesS, LaidB, LaidS, TryMid, OutletsOk, AllHoles, Within, Has, AddLocals, EnterTry, Tidy, Repeated, Narrow;
    TrySizes(body, x, handler, v0.size, cx, skip);
    var end := v0.size + SizeS(Try(body, x, handler), cx);
    TryOpen(v0, o0, v1, v0.size + 7 + SizeB(body, EnterTry(cx)), stop, skip);
    TryMidFacts(v2, o1, v0.size, end, stop, skip);
    TryKept(v0, o0, v1, v2, o1, v3, v4, o2, v5, stop, skip);
    if Narrow(|cx.locals|, SizeS(Try(body, x, handler), cx)) {
      TryNarrow(body, x, handler, cx);
      TryCode(v0, v1, v2, v3, v4, body, x, handler, cx, stop, skip);
    }
  }

  lemma RepeatedOne(code: Listing, p: nat, i: Instr)
    requires Repeated(code, p, 1, i)
    ensures Has(code, p, i)
  {}

  lemma TryCode(v0: View, v1: View, v2: View, v3: View, v4: View,
                body: seq<Stmt>, x: string, handler: seq<Stmt>, cx: Context, stop: nat, skip: Target)
    requires var end := v0.size + SizeS(Try(body, x, handler), cx);
             var inner := AddLocals(cx, [x]);
             && v2.size == v0.size + 3 + SizeB(body, EnterTry(cx)) && v4.size == v2.size + 5 + SizeB(handler, inner)
             && LaidB(v2.asm, body, v0.size + 3, EnterTry(cx), Fwd(stop), skip)
             && LaidB(v4.asm, handler, v2.size + 4, inner, Fwd(stop), skip)
             && Has(v1.asm, v0.size, BeginTry(v2.size + 4)) && Has(v3.asm, v2.size, EndTry) && Has(v3.asm, v2.size + 1, Jump(end))
             && Repeated(v4.asm, v2.size + 4 + SizeB(handler, inner), 1, Instr.Pop)
    requires Within(v1.asm, v2.asm) && Within(v2.asm, v3.asm) && Within(v3.asm, v4.asm)
    ensures LaidS(v4.asm, Try(body, x, handler), v0.size, cx, Fwd(stop), skip)
  {
    hide SizeB, SizeS, LayoutB, LayoutS, Within, Has, EnterTry, AddLocals;
    RepeatedOne(v4.asm, v2.size + 4 + SizeB(handler, AddLocals(cx, [x])), Instr.Pop);
    hide Repeated;
    var end := v0.size + SizeS(Try(body, x, handler), cx);
    WithinTrans(v1.asm, v2.asm, v3.asm);
    WithinTrans(v1.asm, v3.asm, v4.asm);
    WithinTrans(v2.asm, v3.asm, v4.asm);
    forall fin | Within(v4.asm, fin) ensures LayoutS(fin, Try(body, x, handler), v0.size, cx, Fwd(stop), skip) {
      WithinTrans(v1.asm, v4.asm, fin);
      WithinTrans(v2.asm, v4.asm, fin);
      WithinTrans(v3.asm, v4.asm, fin);
      HasMono(v1.asm, fin, v0.size, BeginTry(v2.size + 4));
      HasMono(v3.asm, fin, v2.size, EndTry);
      HasMono(v3.asm, fin, v2.size + 1, Jump(end));
      HasMono(v4.asm, fin, v2.size + 4 + SizeB(handler, AddLocals(cx, [x])), Instr.Pop);
      LaidBAt(v2.asm, body, v0.size + 3, EnterTry(cx), Fwd(stop), skip, fin);
      LaidBAt(v4.asm, handler, v2.size + 4, AddLocals(cx, [x]), Fwd(stop), skip, fin);
      FoldTry(fin, body, x, handler, v0.size, cx, Fwd(stop), skip);
    }
  }
}
