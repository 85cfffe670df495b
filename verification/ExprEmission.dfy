/** Putting the code of expressions together. */
module ExprEmission {
  import opened Values
  import opened Language
  import opened CodeGen
  import opened Machine
  import opened Bytecode
  import opened Emission
  import opened Limits

  /** From v0 to v1 the code of e was written, and nothing else changed. */
  ghost predicate GrownE(v0: View, v1: View, e: Expr, locals: seq<string>) {
    && v1.size == v0.size + SizeE(e) && v1.consts == v0.consts + UsesE(e, locals) && v1.pending == v0.pending
    && Within(v0.asm, v1.asm) && (|locals| <= 65536 ==> LaidE(v1.asm, e, v0.size, locals))
  }

  ghost predicate GrownEs(v0: View, v1: View, es: seq<Expr>, locals: seq<string>) {
    && v1.size == v0.size + SizeEs(es) && v1.consts == v0.consts + UsesEs(es, locals) && v1.pending == v0.pending
    && Within(v0.asm, v1.asm) && (|locals| <= 65536 ==> LaidEs(v1.asm, es, v0.size, locals))
  }

  lemma LaidEAt(asm: Listing, e: Expr, p: nat, locals: seq<string>, fin: Listing)
    requires LaidE(asm, e, p, locals) && Within(asm, fin)
    ensures LayoutE(fin, e, p, locals)
  {}

  // Assembling a layout from its parts.

  lemma FoldUn(code: Listing, op: UnOp, a: Expr, p: nat, locals: seq<string>)
    requires LayoutE(code, a, p, locals) && Has(code, p + SizeE(a), Apply(op))
    ensures LayoutE(code, Un(op, a), p, locals)
  {
    hide LayoutEs, SizeEs, LoadVar, Has;
  }

  lemma FoldBin(code: Listing, op: BinOp, l: Expr, r: Expr, p: nat, locals: seq<string>)
    requires LayoutE(code, l, p, locals) && LayoutE(code, r, p + SizeE(l), locals)
    requires Has(code, p + SizeE(l) + SizeE(r), Operate(op))
    ensures LayoutE(code, Bin(op, l, r), p, locals)
  {
    hide LayoutEs, SizeEs, LoadVar, Has;
  }

  lemma FoldAnd(code: Listing, l: Expr, r: Expr, p: nat, locals: seq<string>)
    requires LayoutE(code, l, p, locals) && LayoutE(code, r, p + SizeE(l) + 4, locals)
    requires Has(code, p + SizeE(l), JumpIfFalse(p + SizeE(And(l, r)))) && Has(code, p + SizeE(l) + 3, Instr.Pop)
    ensures LayoutE(code, And(l, r), p, locals)
  {
    hide LayoutEs, SizeEs, LoadVar, Has;
  }

  lemma FoldOr(code: Listing, l: Expr, r: Expr, p: nat, locals: seq<string>)
    requires LayoutE(code, l, p, locals) && LayoutE(code, r, p + SizeE(l) + 7, locals)
    requires Has(code, p + SizeE(l), JumpIfFalse(p + SizeE(l) + 6)) && Has(code, p + SizeE(l) + 6, Instr.Pop)
    requires Has(code, p + SizeE(l) + 3, Jump(p + SizeE(Or(l, r))))
    ensures LayoutE(code, Or(l, r), p, locals)
  {
    hide LayoutEs, SizeEs, LoadVar, Has;
  }

  lemma AtomGrown(v0: View, v1: View, e: Expr, locals: seq<string>, i: Instr)
    requires (e.Num? && i == Const(VNum(e.n))) || (e.Str? && i == Const(VStr(e.s))) || (e.Bool? && i == PushBool(e.b))
             || (e.Var? && (|locals| <= 65536 ==> i == LoadVar(locals, e.x)))
    requires Tidy(v0) && v1 == Put(v0, i).(consts := v0.consts + UsesE(e, locals)) && Len(i) == SizeE(e)
    ensures GrownE(v0, v1, e, locals)
  {
    PutFacts(v0, i);
    hide LoadVar, UsesVar;
  }

  lemma UnGrown(v0: View, v1: View, v2: View, op: UnOp, a: Expr, locals: seq<string>)
    requires GrownE(v0, v1, a, locals) && Tidy(v1) && v2 == Put(v1, Apply(op))
    ensures GrownE(v0, v2, Un(op, a), locals)
  {
    hide LaidE, UsesE, SizeE;
    PutFacts(v1, Apply(op));
    UnUses(op, a, locals);
    if |locals| <= 65536 { UnLaid(v1.asm, v2.asm, op, a, v0.size, locals); }
  }

  lemma UnUses(op: UnOp, a: Expr, locals: seq<string>)
    ensures UsesE(Un(op, a), locals) == UsesE(a, locals) && SizeE(Un(op, a)) == SizeE(a) + 1
  {}

  lemma UnLaid(a1: Listing, a2: Listing, op: UnOp, a: Expr, p: nat, locals: seq<string>)
    requires LaidE(a1, a, p, locals) && Within(a1, a2) && Has(a2, p + SizeE(a), Apply(op))
    ensures LaidE(a2, Un(op, a), p, locals)
  {
    hide LayoutE, SizeE;
    forall fin | Within(a2, fin) ensures LayoutE(fin, Un(op, a), p, locals) {
      LaidEAt(a1, a, p, locals, fin);
      FoldUn(fin, op, a, p, locals);
    }
  }

  lemma BinGrown(v0: View, v1: View, v2: View, v3: View, op: BinOp, l: Expr, r: Expr, locals: seq<string>)
    requires GrownE(v0, v1, l, locals) && GrownE(v1, v2, r, locals) && Tidy(v2) && v3 == Put(v2, Operate(op))
    ensures GrownE(v0, v3, Bin(op, l, r), locals)
  {
    hide LaidE, UsesE, SizeE;
    PutFacts(v2, Operate(op));
    BinUses(op, l, r, locals);
    if |locals| <= 65536 {
      BinLaid(v1.asm, v2.asm, v3.asm, op, l, r, v0.size, locals);
    }
  }

  lemma BinUses(op: BinOp, l: Expr, r: Expr, locals: seq<string>)
    ensures UsesE(Bin(op, l, r), locals) == UsesE(l, locals) + UsesE(r, locals)
    ensures UsesE(And(l, r), locals) == UsesE(Or(l, r), locals) == UsesE(l, locals) + UsesE(r, locals)
    ensures SizeE(Bin(op, l, r)) == SizeE(l) + SizeE(r) + 1
    ensures SizeE(And(l, r)) == SizeE(l) + SizeE(r) + 4 && SizeE(Or(l, r)) == SizeE(l) + SizeE(r) + 7
  {}

  lemma BinLaid(a1: Listing, a2: Listing, a3: Listing, op: BinOp, l: Expr, r: Expr, p: nat, locals: seq<string>)
    requires LaidE(a1, l, p, locals) && LaidE(a2, r, p + SizeE(l), locals) && Within(a1, a2) && Within(a2, a3)
    requires Has(a3, p + SizeE(l) + SizeE(r), Operate(op))
    ensures LaidE(a3, Bin(op, l, r), p, locals)
  {
    hide LayoutE, SizeE;
    forall fin | Within(a3, fin) ensures LayoutE(fin, Bin(op, l, r), p, locals) {
      LaidEAt(a1, l, p, locals, fin);
      LaidEAt(a2, r, p + SizeE(l), locals, fin);
      FoldBin(fin, op, l, r, p, locals);
    }
  }

  lemma TestOpen(v1: View, v3: View, v4: View, t: nat)
    requires Tidy(v1) && v3 == Test(v1, t) && Within(v3.asm, v4.asm) && v4.pending == v3.pending
    ensures v1.size in v4.pending && v1.size in v4.asm && v4.asm[v1.size] == JumpIfFalse(t)
    ensures v3.size == v1.size + 4
  {
    TestFacts(v1, t);
    hide Test;
  }

  /** The code of an `or` between its operands. */
  function OrMid(v1: View, t: nat): View { Else(PutOpen(v1, JumpIfFalse(v1.size + 6)), v1.size, t) }

  lemma OrFacts(v: View, t: nat)
    requires Tidy(v)
    ensures var w := OrMid(v, t);
            && Tidy(w) && Within(v.asm, w.asm) && w.size == v.size + 7 && w.consts == v.consts
            && w.pending == v.pending + {v.size + 3}
            && Has(w.asm, v.size, JumpIfFalse(v.size + 6)) && Has(w.asm, v.size + 3, Jump(t)) && Has(w.asm, v.size + 6, Instr.Pop)
  {
    hide Else;
    var i := JumpIfFalse(v.size + 6);
    PutFacts(v, i);
    ElseFacts(PutOpen(v, i), v.size, t);
  }

  lemma OrOpen(v1: View, v5: View, v6: View, t: nat)
    requires Tidy(v1) && v5 == OrMid(v1, t) && Within(v5.asm, v6.asm) && v6.pending == v5.pending
    ensures v1.size + 3 in v6.pending && v1.size + 3 in v6.asm && v6.asm[v1.size + 3] == Jump(t)
    ensures v5.size == v1.size + 7
  {
    hide OrMid;
    OrFacts(v1, t);
  }

  lemma AndGrown(v0: View, v1: View, v3: View, v4: View, v5: View, l: Expr, r: Expr, locals: seq<string>)
    requires Tidy(v0) && GrownE(v0, v1, l, locals) && Tidy(v1) && v3 == Test(v1, v0.size + SizeE(And(l, r)))
    requires GrownE(v3, v4, r, locals) && v5 == Close(v4, v1.size)
    ensures GrownE(v0, v5, And(l, r), locals)
  {
    hide LaidE, UsesE, SizeE, Test;
    TestFacts(v1, v0.size + SizeE(And(l, r)));
    BinUses(Add, l, r, locals);
    if |locals| <= 65536 {
      AndLaid(v1.asm, v5.asm, l, r, v0.size, locals);
    }
  }

  lemma AndLaid(a1: Listing, a5: Listing, l: Expr, r: Expr, p: nat, locals: seq<string>)
    requires LaidE(a1, l, p, locals) && LaidE(a5, r, p + SizeE(l) + 4, locals) && Within(a1, a5)
    requires Has(a5, p + SizeE(l), JumpIfFalse(p + SizeE(And(l, r)))) && Has(a5, p + SizeE(l) + 3, Instr.Pop)
    ensures LaidE(a5, And(l, r), p, locals)
  {
    hide LayoutE, SizeE;
    forall fin | Within(a5, fin) ensures LayoutE(fin, And(l, r), p, locals) {
      LaidEAt(a1, l, p, locals, fin);
      LaidEAt(a5, r, p + SizeE(l) + 4, locals, fin);
      FoldAnd(fin, l, r, p, locals);
    }
  }

  lemma OrGrown(v0: View, v1: View, v5: View, v6: View, v7: View, l: Expr, r: Expr, locals: seq<string>)
    requires Tidy(v0) && GrownE(v0, v1, l, locals) && Tidy(v1) && v5 == OrMid(v1, v0.size + SizeE(Or(l, r)))
    requires GrownE(v5, v6, r, locals) && v7 == Close(v6, v1.size + 3)
    ensures GrownE(v0, v7, Or(l, r), locals)
  {
    hide LaidE, UsesE, SizeE, OrMid;
    OrFacts(v1, v0.size + SizeE(Or(l, r)));
    BinUses(Add, l, r, locals);
    if |locals| <= 65536 {
      OrLaid(v1.asm, v7.asm, l, r, v0.size, locals);
    }
  }

  lemma OrLaid(a1: Listing, a7: Listing, l: Expr, r: Expr, p: nat, locals: seq<string>)
    requires LaidE(a1, l, p, locals) && LaidE(a7, r, p + SizeE(l) + 7, locals) && Within(a1, a7)
    requires Has(a7, p + SizeE(l), JumpIfFalse(p + SizeE(l) + 6)) && Has(a7, p + SizeE(l) + 6, Instr.Pop)
    requires Has(a7, p + SizeE(l) + 3, Jump(p + SizeE(Or(l, r))))
    ensures LaidE(a7, Or(l, r), p, locals)
  {
    hide LayoutE, SizeE;
    forall fin | Within(a7, fin) ensures LayoutE(fin, Or(l, r), p, locals) {
      LaidEAt(a1, l, p, locals, fin);
      LaidEAt(a7, r, p + SizeE(l) + 7, locals, fin);
      FoldOr(fin, l, r, p, locals);
    }
  }

  lemma ListGrown(v0: View, v1: View, v2: View, es: seq<Expr>, locals: seq<string>)
    requires GrownEs(v0, v1, es, locals) && Tidy(v1) && v2 == Put(v1, MakeList(|es|))
    ensures GrownE(v0, v2, ListLit(es), locals)
  {
    PutFacts(v1, MakeList(|es|));
    if |locals| <= 65536 {
      forall fin | Within(v2.asm, fin) ensures LayoutE(fin, ListLit(es), v0.size, locals) {
        assert Within(v1.asm, fin);
        assert LayoutEs(fin, es, v0.size, locals);
        hide LaidE, LaidEs;
      }
    }
  }

  // ---- The elements of a list literal, left to right ----

  lemma {:induction false} SizeEsAppend(es: seq<Expr>, e: Expr, locals: seq<string>)
    ensures SizeEs(es + [e]) == SizeEs(es) + SizeE(e)
    ensures UsesEs(es + [e], locals) == UsesEs(es, locals) + UsesE(e, locals)
    ensures FitsEs(es + [e]) <==> FitsEs(es) && FitsE(e)
    decreases |es|
  {
    hide SizeE, UsesE, FitsE;
    if es == [] {
      assert [e][1..] == [];
    } else {
      assert (es + [e])[1..] == es[1..] + [e];
      SizeEsAppend(es[1..], e, locals);
    }
  }

  lemma {:induction false} LayoutEsAppend(code: Listing, es: seq<Expr>, e: Expr, p: nat, locals: seq<string>)
    requires LayoutEs(code, es, p, locals) && LayoutE(code, e, p + SizeEs(es), locals)
    ensures LayoutEs(code, es + [e], p, locals)
    decreases |es|
  {
    hide SizeE, LayoutE;
    if es == [] {
      assert [e][1..] == [];
    } else {
      assert (es + [e])[1..] == es[1..] + [e];
      LayoutEsAppend(code, es[1..], e, p + SizeE(es[0]), locals);
    }
  }

  lemma SnocGrown(v0: View, v1: View, v2: View, es: seq<Expr>, e: Expr, locals: seq<string>)
    requires GrownEs(v0, v1, es, locals) && GrownE(v1, v2, e, locals)
    ensures GrownEs(v0, v2, es + [e], locals)
  {
    hide Within, LayoutE, LayoutEs, SizeE, SizeEs, UsesE, UsesEs, FitsE, FitsEs;
    SizeEsAppend(es, e, locals);
    WithinTrans(v0.asm, v1.asm, v2.asm);
    if |locals| <= 65536 {
      forall fin | Within(v2.asm, fin) ensures LayoutEs(fin, es + [e], v0.size, locals) {
        WithinTrans(v1.asm, v2.asm, fin);
        LaidEAt(v2.asm, e, v1.size, locals, fin);
        LayoutEsAppend(fin, es, e, v0.size, locals);
      }
    }
  }

  lemma EmptyEs(v: View, locals: seq<string>)
    ensures GrownEs(v, v, [], locals) && FitsEs([])
  {}

  lemma ListSizes(es: seq<Expr>, locals: seq<string>)
    ensures FitsE(ListLit(es)) <==> |es| <= 255 && FitsEs(es)
    ensures UsesE(ListLit(es), locals) == UsesEs(es, locals)
  {
    hide FitsEs, UsesEs;
  }

  lemma ShortLimits(l: Expr, r: Expr)
    ensures FitsE(And(l, r)) <==> FitsE(l) && FitsE(r) && 1 + SizeE(r) <= MAX_JUMP
    ensures FitsE(Or(l, r)) <==> FitsE(l) && FitsE(r) && 1 + SizeE(r) <= MAX_JUMP
  {}

  lemma {:induction false} EsPrefix(es: seq<Expr>, n: nat, locals: seq<string>)
    requires n <= |es|
    ensures FitsEs(es) ==> FitsEs(es[..n])
    ensures UsesEs(es[..n], locals) <= UsesEs(es, locals)
    decreases |es| - n
  {
    if n < |es| {
      assert es[..n + 1] == es[..n] + [es[n]];
      SizeEsAppend(es[..n], es[n], locals);
      EsPrefix(es, n + 1, locals);
    } else {
      assert es[..n] == es;
    }
  }
}
