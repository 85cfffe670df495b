/** The one-pass compiler: it appends bytes, keeps the list of locals and a stack
    of open loops, and patches forward jumps once their targets are known. */
module Compiler {
  import opened Bytes
  import opened Values
  import opened Language
  import opened CodeGen
  import opened Machine
  import opened Bytecode
  import opened Emission
  import opened ExprEmission
  import opened StmtEmission
  import opened ScopeEmission
  import opened LoopEmission
  import opened Limits

  /** A stack slot of the code being compiled: its name and its scope depth. */
  datatype Local = Local(name: string, depth: nat)

  /** An open loop: where it starts, operand offsets of the stop and skip jumps to
      patch, where a skip jumps back to (or -1 when it jumps forward), and its depths. */
  datatype LoopFrame = LoopFrame(start: nat, exits: seq<nat>, continues: seq<nat>, target: int, depth: nat, tryDepth: nat)

  function Names(locals: seq<Local>): (names: seq<string>)
    ensures |names| == |locals|
    ensures forall i | 0 <= i < |locals| :: names[i] == locals[i].name
  {
    seq(|locals|, i requires 0 <= i < |locals| => locals[i].name)
  }

  /** The compile-time state besides the output. */
  datatype Scope = Scope(locals: seq<Local>, scopeDepth: nat, tryDepth: nat, loops: seq<LoopFrame>)

  function OutletsOf(loops: seq<LoopFrame>): Outlets {
    if loops == [] then Outlets(0, [], []) else
    var f := loops[|loops| - 1];
    Outlets(f.start, f.exits, f.continues)
  }

  /** The compile-time state is the context cx, with skip going to `skip`. */
  predicate Matches(s: Scope, cx: Context, skip: Target) {
    && Names(s.locals) == cx.locals && s.tryDepth == cx.tries && (cx.inLoop <==> s.loops != [])
    && (forall i | 0 <= i < |s.locals| :: s.locals[i].depth <= s.scopeDepth)
    && (s.loops != [] ==>
          var f := s.loops[|s.loops| - 1];
          && f.tryDepth == cx.loopTries <= s.tryDepth && cx.loopLocals <= |s.locals| && f.depth <= s.scopeDepth
          && (forall i | 0 <= i < |s.locals| :: s.locals[i].depth > f.depth <==> i >= cx.loopLocals)
          && f.target == (if skip.Back? then skip.t else -1))
  }

  /** The scopes and the open loops are the same, except for the outlets of the innermost loop. */
  predicate Steady(a: Scope, b: Scope) {
    && b.locals == a.locals && b.scopeDepth == a.scopeDepth && b.tryDepth == a.tryDepth && |b.loops| == |a.loops|
    && (b.loops != [] ==>
          var n := |b.loops| - 1;
          && b.loops[..n] == a.loops[..n] && b.loops[n].start == a.loops[n].start && b.loops[n].target == a.loops[n].target
          && b.loops[n].depth == a.loops[n].depth && b.loops[n].tryDepth == a.loops[n].tryDepth)
  }

  lemma SteadyTrans(a: Scope, b: Scope, c: Scope)
    requires Steady(a, b) && Steady(b, c)
    ensures Steady(a, c)
  {}

  lemma MatchesNames(s: Scope, cx: Context, skip: Target)
    requires Matches(s, cx, skip)
    ensures Names(s.locals) == cx.locals
  {}

  lemma SteadySame(s: Scope)
    ensures Steady(s, s)
  {}

  // ---- Entering and leaving scopes, try blocks and loops ----

  function Fresh(names: seq<string>, depth: nat): seq<Local> {
    seq(|names|, i requires 0 <= i < |names| => Local(names[i], depth))
  }

  lemma NamesFresh(locals: seq<Local>, names: seq<string>, depth: nat)
    ensures Names(locals + Fresh(names, depth)) == Names(locals) + names
  {}

  function Opened(s: Scope, vars: seq<string>): Scope {
    s.(scopeDepth := s.scopeDepth + 1, locals := s.locals + Fresh(vars, s.scopeDepth + 1))
  }

  lemma ScopeIn(s: Scope, cx: Context, skip: Target, vars: seq<string>)
    requires Matches(s, cx, skip)
    ensures Matches(Opened(s, vars), AddLocals(cx, vars), skip)
  {
    NamesFresh(s.locals, vars, s.scopeDepth + 1);
  }

  lemma ScopeOut(s: Scope, s1: Scope, cx: Context, skip: Target, vars: seq<string>)
    requires Matches(s, cx, skip) && Steady(Opened(s, vars), s1)
    ensures var n := |s.locals|;
            && |s1.locals| == n + |vars| && s1.scopeDepth == s.scopeDepth + 1 && s1.locals[..n] == s.locals
            && (forall i | 0 <= i < n :: s1.locals[i].depth < s1.scopeDepth)
            && (forall i | n <= i < |s1.locals| :: s1.locals[i].depth == s1.scopeDepth)
            && Steady(s, s1.(locals := s.locals, scopeDepth := s.scopeDepth))
  {}

  lemma SteadyMatches(a: Scope, b: Scope, cx: Context, skip: Target)
    requires Steady(a, b) && Matches(a, cx, skip)
    ensures Matches(b, cx, skip)
  {}

  function Tried(s: Scope): Scope { s.(tryDepth := s.tryDepth + 1) }

  lemma TryIn(s: Scope, cx: Context, skip: Target)
    requires Matches(s, cx, skip)
    ensures Matches(Tried(s), EnterTry(cx), skip)
  {}

  lemma TryOut(s: Scope, s1: Scope)
    requires Steady(Tried(s), s1)
    ensures s1.tryDepth == s.tryDepth + 1 && Steady(s, s1.(tryDepth := s.tryDepth))
  {}

  function SkipTarget(skip: Target): int { if skip.Back? then skip.t else -1 }

  function Looped(s: Scope, hidden: seq<string>, start: nat, target: int): Scope {
    s.(locals := s.locals + Fresh(hidden, s.scopeDepth),
       loops := s.loops + [LoopFrame(start, [], [], target, s.scopeDepth, s.tryDepth)])
  }

  lemma LoopIn(s: Scope, cx: Context, skip: Target, hidden: seq<string>, start: nat, inner: Target)
    requires Matches(s, cx, skip)
    ensures Matches(Looped(s, hidden, start, SkipTarget(inner)), EnterLoop(cx, hidden, []), inner)
    ensures OutletsOf(Looped(s, hidden, start, SkipTarget(inner)).loops) == NoOutlets(start)
  {
    NamesFresh(s.locals, hidden, s.scopeDepth);
  }

  lemma LoopOut(s: Scope, hidden: seq<string>, start: nat, target: int, s1: Scope)
    requires Steady(Looped(s, hidden, start, target), s1)
    ensures var n := |s.loops|;
            && |s1.loops| == n + 1 && |s1.locals| == |s.locals| + |hidden|
            && s1.(locals := s1.locals[..|s.locals|], loops := s1.loops[..n]) == s
            && OutletsOf(s1.loops).start == start
  {}

  lemma LoopVars(cx: Context, hidden: seq<string>, vars: seq<string>)
    ensures AddLocals(EnterLoop(cx, hidden, []), vars) == EnterLoop(cx, hidden, vars)
    ensures AddLocals(EnterLoop(cx, hidden, []), []) == EnterLoop(cx, hidden, [])
  {}

  lemma ExitsKept(v: View, w: View, o: Outlets, stop: nat, skip: Target)
    requires OutletsOk(v, o, stop, skip) && Within(v.asm, w.asm) && AllHoles(o) <= w.pending
    ensures HolesOk(w, o.start, o.exits, Jump(stop))
  {
    hide AllHoles, Within, HolesOk, HoleSet;
    OutletsKept(v, w, o, stop, skip);
  }

  /** Closing a jump that is not a hole of the loop keeps the loop's exits open. */
  lemma ExitsOpen(v: View, w: View, o: Outlets, q: nat, stop: nat, skip: Target)
    requires OutletsOk(v, o, stop, skip) && q in Loose(v, o) && Within(v.asm, w.asm) && w.pending == v.pending - {q}
    ensures HolesOk(w, o.start, o.exits, Jump(stop))
  {
    hide AllHoles, Within, HolesOk, OutletsOk;
    HolesPending(v, o, stop, skip);
    ExitsKept(v, w, o, stop, skip);
  }

  lemma AfterExpr(v0: View, v1: View, e: Expr, locals: seq<string>, o: Outlets, stop: nat, skip: Target)
    requires GrownE(v0, v1, e, locals) && OutletsOk(v0, o, stop, skip)
    ensures OutletsOk(v1, o, stop, skip)
  {
    hide OutletsOk, LaidE, Within, AllHoles;
    SameOutlets(v0, o, v1, stop, skip);
  }

  lemma ReadyMore(v0: View, v1: View, o: Outlets, i: Instr, stop: nat, skip: Target)
    requires Tidy(v0) && v1 == Put(v0, i) && OutletsOk(v0, o, stop, skip)
    ensures OutletsOk(v1, o, stop, skip)
  {
    hide OutletsOk, Within, AllHoles;
    PutFacts(v0, i);
    SameOutlets(v0, o, v1, stop, skip);
  }

  lemma ConstReady(v0: View, v1: View, o: Outlets, stop: nat, skip: Target)
    requires Tidy(v0) && v1 == Put(v0, Const(VNum(0.0))).(consts := v0.consts + 1) && OutletsOk(v0, o, stop, skip)
    ensures OutletsOk(v1, o, stop, skip)
  {
    hide OutletsOk, Within, AllHoles;
    PutFacts(v0, Const(VNum(0.0)));
    SameOutlets(v0, o, v1, stop, skip);
  }

  lemma AfterCountHead(v: View, w: View, o: Outlets, n: nat, t: nat, stop: nat, skip: Target)
    requires Tidy(v) && w == CountHead(v, n, t) && OutletsOk(v, o, stop, skip)
    ensures OutletsOk(w, o, stop, skip) && v.size + 7 in Loose(w, o) && Has(w.asm, v.size + 7, JumpIfFalse(t))
    ensures w.size == v.size + 11
  {
    hide OutletsOk, Within, AllHoles, CountHead, Has, CountHeadAt;
    CountHeadFacts(v, n, t);
    HolesPending(v, o, stop, skip);
    PendingBelow(v, v.size + 7);
    OutletsKept(v, w, o, stop, skip);
  }

  lemma ExitsAfter(v0: View, o: Outlets, v: View, q: nat, stop: nat, t: nat)
    requires OutletsOk(v0, o, stop, Fwd(t)) && t != stop && q in Loose(v0, o) && Within(v0.asm, v.asm)
    requires v.pending == v0.pending - HoleSet(o.continues)
    ensures HolesOk(v.(pending := v.pending - {q}), o.start, o.exits, Jump(stop)) && q in v.pending
    ensures q in v0.asm ==> q in v.asm && v.asm[q] == v0.asm[q]
  {
    forall x | x in o.exits ensures x - 1 in v.pending - {q} {
      assert x - 1 in HoleSet(o.exits);
      assert v0.asm[x - 1] != Jump(t);
    }
  }

  lemma CountHeadSize(v: View, n: nat, t: nat)
    ensures CountHead(v, n, t).consts == v.consts
  {}

  lemma LeaveSize(v: View, cx: Context)
    requires Tidy(v)
    ensures Leave(v, cx).size == v.size + Leaves(cx) && Leave(v, cx).consts == v.consts
  {
    hide Leave;
    LeaveFacts(v, cx);
  }

  lemma ExitAdded(s0: Scope, s1: Scope, offset: nat)
    requires s0.loops != []
    requires var n := |s0.loops| - 1;
             s1 == s0.(loops := s0.loops[..n] + [s0.loops[n].(exits := s0.loops[n].exits + [offset])])
    ensures Steady(s0, s1) && OutletsOf(s1.loops) == OutletsOf(s0.loops).(exits := OutletsOf(s0.loops).exits + [offset])
  {}

  lemma ContinueAdded(s0: Scope, s1: Scope, offset: nat)
    requires s0.loops != []
    requires var n := |s0.loops| - 1;
             s1 == s0.(loops := s0.loops[..n] + [s0.loops[n].(continues := s0.loops[n].continues + [offset])])
    ensures Steady(s0, s1) && OutletsOf(s1.loops) == OutletsOf(s0.loops).(continues := OutletsOf(s0.loops).continues + [offset])
  {}

  lemma PrintOps(e: Expr)
    ensures One(OP_PRINT) == Some(Output) && One(OP_THROW) == Some(Raise)
    ensures Simple(Stmt.Print(e), e, Output) && Simple(Stmt.Throw(e), e, Raise)
  {}

  lemma EmptySound()
    ensures Sound([], [], map[], {})
    ensures One(OP_NULL) == Some(PushNull) && One(OP_RETURN) == Some(Instr.Return)
  {}

  /** A block compiled at the top of a script is laid out there, and null and return follow it. */
  lemma ScriptLaid(v1: View, v2: View, b: seq<Stmt>)
    requires GrownB(View(0, map[], {}, 0), Outlets(0, [], []), v1, Outlets(0, [], []), b, ScriptContext, 0, Fwd(0))
    requires Tidy(v1) && v2 == Put(Put(v1, PushNull), Instr.Return)
    ensures v2.pending == {} && forall fin | Within(v2.asm, fin) :: LayoutScript(fin, b)
  {
    hide LayoutB, SizeB, UsesB, Within, Has, LaidB;
    PutFacts(v1, PushNull);
    PutFacts(Put(v1, PushNull), Instr.Return);
    FreshOutlets(v1, 0, 0, Fwd(0));
    assert Loose(v1, NoOutlets(0)) == v1.pending && Loose(View(0, map[], {}, 0), NoOutlets(0)) == {};
    forall fin | Within(v2.asm, fin) ensures LayoutScript(fin, b) {
      WithinTrans(Put(v1, PushNull).asm, v2.asm, fin);
      WithinTrans(v1.asm, Put(v1, PushNull).asm, fin);
      LaidBAt(v1.asm, b, 0, ScriptContext, Fwd(0), Fwd(0), fin);
      HasMono(Put(v1, PushNull).asm, fin, v1.size, PushNull);
      HasMono(v2.asm, fin, v1.size + 1, Instr.Return);
    }
  }

  /** Once no jump is open, the bytes decode to the instructions decided on. */
  lemma AllDecoded(code: seq<byte>, constants: seq<Value>, asm: Listing, pending: set<nat>)
    requires Sound(code, constants, asm, pending) && pending == {}
    ensures Within(asm, Disassemble(code, constants))
  {
    hide Decode;
    forall q | q in asm ensures Has(Disassemble(code, constants), q, asm[q]) { CodedEnd(code, constants, q, asm[q], false); }
  }

  lemma SameLocals(cx: Context)
    ensures EnterLoop(cx, [], []).locals == cx.locals
  {}

  lemma IterHeadSize(v: View, t: nat)
    ensures IterHead(v, t).size == v.size + 4 && IterHead(v, t).consts == v.consts
  {}

  lemma IterTailSize(v: View, start: nat, exits: seq<nat>)
    ensures IterTail(v, start, exits).consts == v.consts
  {}

  lemma OpenSize(v0: View, v1: View, i: Instr)
    requires v1 == PutOpen(v0, i)
    ensures v1.size == v0.size + Len(i) && v1.consts == v0.consts
  {}

  lemma NoHoles()
    ensures HoleSet([]) == {}
  {}

  lemma StoreConsts(v0: View, v1: View, x: string, locals: seq<string>)
    requires GrownStore(v0, v1, x, locals)
    ensures v1.consts == v0.consts + UsesVar(locals, x)
  {}

  /** The holes of a list, one by one. */
  lemma NextHole(v: View, start: nat, xs: seq<nat>, i: Instr, k: nat)
    requires HolesOk(v, start, xs, i) && k < |xs|
    ensures xs[k] > start && xs[k] - 1 in v.pending - HoleSet(xs[..k]) && xs[k] - 1 in v.asm && v.asm[xs[k] - 1] == i
    ensures HoleSet(xs[..k + 1]) == HoleSet(xs[..k]) + {xs[k] - 1}
  {
    assert xs[k] in xs;
    assert xs[..k + 1] == xs[..k] + [xs[k] - 1 + 1];
    HoleSetSnoc(xs[..k], xs[k] - 1);
    assert forall j | 0 <= j < k :: xs[..k][j] < xs[k];
  }

  class ProperCompiler {
    var code: seq<byte>
    var constants: seq<Value>
    var locals: seq<Local>
    var scopeDepth: nat
    var tryDepth: nat
    var loops: seq<LoopFrame>
    // The instructions decided on, and the jumps among them still to be patched.
    ghost var asm: Listing
    ghost var pending: set<nat>

    ghost function V(): View
      reads this`code, this`constants, this`asm, this`pending
    {
      View(|code|, asm, pending, |constants|)
    }

    ghost predicate Valid()
      reads this`code, this`constants, this`asm, this`pending
    {
      Sound(code, constants, asm, pending)
    }

    constructor ()
      ensures Valid() && code == [] && constants == [] && asm == map[] && pending == {}
      ensures locals == [Local("", 0)] && scopeDepth == 0 && tryDepth == 0 && loops == []
    {
      code, constants, locals, scopeDepth, tryDepth, loops := [], [], [Local("", 0)], 0, 0, [];
      asm, pending := map[], {};
    }

    // ---- Emitting ----

    method EmitByte(b: byte)
      modifies this`code
      ensures code == old(code) + [b]
    {
      code := code + [b];
    }

    method EmitShort(n: nat)
      modifies this`code
      ensures code == old(code) + Big(n)
    {
      EmitByte(n / 256 % 256);
      EmitByte(n % 256);
    }

    method EmitOp(op: byte, ghost i: Instr)
      requires Valid() && One(op) == Some(i)
      modifies this`code, this`asm
      ensures Valid() && V() == Put(old(V()), i)
    {
      OneDecodes(code, constants, op, i);
      AppendSound(code, constants, asm, pending, [op], i, false);
      asm := asm[|code| := i];
      EmitByte(op);
    }

    method EmitPop()
      requires Valid()
      modifies this`code, this`asm
      ensures Valid() && V() == Put(old(V()), Instr.Pop)
    {
      EmitOp(OP_POP, Instr.Pop);
    }

    method EmitWide(op: byte, n: nat, ghost i: Instr)
      requires Valid() && Wide(op, n % 65536, |code| + 3, constants) == Some(i)
      modifies this`code, this`asm
      ensures Valid() && V() == Put(old(V()), i)
    {
      hide Wide, Decode;
      WideDecodes(code, constants, op, n, i);
      assert code + [op] + Big(n) == code + ([op] + Big(n));
      AppendSound(code, constants, asm, pending, [op] + Big(n), i, false);
      asm := asm[|code| := i];
      EmitByte(op);
      EmitShort(n);
    }

    method EmitGetLocal(slot: nat)
      requires Valid()
      modifies this`code, this`asm
      ensures Valid() && V() == Put(old(V()), GetLocal(slot % 65536))
    {
      hide Sound;
      EmitWide(OP_GET_LOCAL, slot, GetLocal(slot % 65536));
    }

    method EmitSetLocal(slot: nat)
      requires Valid()
      modifies this`code, this`asm
      ensures Valid() && V() == Put(old(V()), SetLocal(slot % 65536))
    {
      hide Sound;
      EmitWide(OP_SET_LOCAL, slot, SetLocal(slot % 65536));
    }

    method EmitOperate(op: BinOp)
      requires Valid()
      modifies this`code, this`asm
      ensures Valid() && V() == Put(old(V()), Operate(op))
    {
      hide Sound, One;
      OneOpOf(op);
      EmitOp(OpOf(op), Operate(op));
    }

    method EmitListSize(n: nat)
      requires Valid() && n <= 255
      modifies this`code, this`asm
      ensures Valid() && V() == Put(old(V()), MakeList(n))
    {
      ghost var i := MakeList(n);
      assert code + [OP_LIST] + [n] == code + [OP_LIST, n];
      AppendSound(code, constants, asm, pending, [OP_LIST, n], i, false);
      asm := asm[|code| := i];
      EmitByte(OP_LIST);
      EmitByte(n);
    }

    /** A jump whose target is not known yet; returns the offset of its operand. */
    method EmitJump(op: byte, ghost i: Instr) returns (offset: nat)
      requires Valid() && IsForward(i) && Opcode(i) == op
      modifies this`code, this`asm, this`pending
      ensures Valid() && V() == PutOpen(old(V()), i) && offset == old(|code|) + 1
    {
      assert code + [op] + [255] + [255] == code + [op, 255, 255];
      AppendSound(code, constants, asm, pending, [op, 255, 255], i, true);
      asm, pending := asm[|code| := i], pending + {|code|};
      EmitByte(op);
      EmitByte(255);
      EmitByte(255);
      offset := |code| - 2;
    }

    /** Writes the distance from the operand at `offset` to the end of the code. */
    method PatchJump(offset: nat) returns (ok: bool)
      requires Valid() && offset > 0 && offset - 1 in pending
      requires IsForward(asm[offset - 1]) && Destination(asm[offset - 1]) == |code|
      modifies this`code, this`pending
      ensures ok <==> |code| - (offset - 1) - 3 <= MAX_JUMP
      ensures ok ==> Valid() && V() == Close(old(V()), offset - 1)
      ensures |code| == old(|code|)
    {
      CodedBounds(code, constants, asm, pending);
      hide Sound;
      var jump := |code| - offset - 2;
      if jump > MAX_JUMP { return false; }
      PatchSound(code, constants, asm, pending, offset - 1, jump);
      code := code[offset := jump / 256][offset + 1 := jump % 256];
      pending := pending - {offset - 1};
      ok := true;
    }

    /** A conditional jump, and the pop of the condition when it falls through. */
    method EmitTest(ghost target: nat) returns (offset: nat)
      requires Valid()
      modifies this`code, this`asm, this`pending
      ensures Valid() && V() == Test(old(V()), target) && offset == old(|code|) + 1
    {
      offset := EmitJump(OP_JUMP_IF_FALSE, JumpIfFalse(target));
      EmitPop();
    }

    /** A jump to `target`; then the jump at `offset` lands here, on a pop. */
    method EmitElse(offset: nat, ghost target: nat) returns (ok: bool, jump: nat)
      requires Valid() && offset > 0 && offset - 1 in pending
      requires IsForward(asm[offset - 1]) && Destination(asm[offset - 1]) == |code| + 3
      modifies this`code, this`asm, this`pending
      ensures ok <==> old(|code|) + 3 - (offset - 1) - 3 <= MAX_JUMP
      ensures jump == old(|code|) + 1
      ensures ok ==> Valid() && V() == Else(old(V()), offset - 1, target)
    {
      CodedEnd(code, constants, offset - 1, asm[offset - 1], true);
      ghost var v0 := V();
      SoundTidy(code, constants, asm, pending);
      jump := EmitJump(OP_JUMP, Jump(target));
      PutFacts(v0, Jump(target));
      ok := PatchJump(offset);
      if ok { EmitPop(); }
    }

    method EmitLoop(start: nat) returns (ok: bool)
      requires Valid() && start <= |code|
      modifies this`code, this`asm
      ensures ok <==> old(|code|) + 3 - start <= MAX_JUMP
      ensures ok ==> Valid() && V() == Put(old(V()), Loop(start))
    {
      var offset := |code| + 1 - start + 2;
      if offset > MAX_JUMP {
        EmitByte(OP_LOOP);
        return false;
      }
      EmitWide(OP_LOOP, offset, Loop(start));
      ok := true;
    }

    method MakeConstant(v: Value) returns (ok: bool, index: nat)
      requires Valid()
      modifies this`constants
      ensures constants == old(constants) + [v] && index == old(|constants|)
      ensures ok <==> |constants| <= MAX_CONSTANTS
      ensures Valid()
    {
      ConstantSound(code, constants, asm, pending, v);
      index := |constants|;
      constants := constants + [v];
      ok := index <= 65535;
    }

    /** An instruction whose operand is a fresh constant. */
    method EmitConstant(op: byte, v: Value, ghost i: Instr) returns (ok: bool)
      requires Valid()
      requires (op == OP_CONSTANT && i == Const(v)) || (op == OP_GET_GLOBAL && v.VStr? && i == GetGlobal(v.s))
               || (op == OP_DEFINE_GLOBAL && v.VStr? && i == DefineGlobal(v.s))
      modifies this`code, this`constants, this`asm
      ensures ok <==> old(|constants|) + 1 <= MAX_CONSTANTS
      ensures ok ==> Valid() && V() == Put(old(V()), i).(consts := old(|constants|) + 1)
    {
      var index;
      ok, index := MakeConstant(v);
      if !ok { return; }
      EmitWide(op, index, i);
    }

    /** Between the operands of an `or`: false goes on to the right operand. */
    method EmitOrJumps(ghost target: nat) returns (jump: nat)
      requires Valid()
      modifies this`code, this`asm, this`pending
      ensures Valid() && V() == OrMid(old(V()), target) && jump == old(|code|) + 4
    {
      ghost var v1 := V();
      SoundTidy(code, constants, asm, pending);
      var elseJump := EmitJump(OP_JUMP_IF_FALSE, JumpIfFalse(v1.size + 6));
      PutFacts(v1, JumpIfFalse(v1.size + 6));
      var ok;
      ok, jump := EmitElse(elseJump, target);
    }

    // ---- Names and scopes ----

    /** The innermost slot with the given name, or -1. */
    method ResolveLocal(name: string) returns (slot: int)
      ensures slot == Resolve(Names(locals), name)
    {
      slot := |locals| - 1;
      assert Names(locals)[..|locals|] == Names(locals);
      while slot >= 0
        invariant -1 <= slot < |locals|
        invariant Resolve(Names(locals), name) == Resolve(Names(locals)[..slot + 1], name)
      {
        assert Names(locals)[..slot + 1][..slot] == Names(locals)[..slot];
        if locals[slot].name == name { return; }
        slot := slot - 1;
      }
    }

    method BeginScope()
      modifies this`scopeDepth
      ensures scopeDepth == old(scopeDepth) + 1
    {
      scopeDepth := scopeDepth + 1;
    }

    // ---- Expressions ----

    method VisitVar(x: string) returns (ok: bool)
      requires Valid()
      modifies this`code, this`constants, this`asm
      ensures ok <==> old(|constants|) + UsesVar(Names(locals), x) <= MAX_CONSTANTS || UsesVar(Names(locals), x) == 0
      ensures ok ==> Valid() && GrownE(old(V()), V(), Var(x), Names(locals))
    {
      ghost var v0 := V();
      SoundTidy(code, constants, asm, pending);
      var slot := ResolveLocal(x);
      if slot != -1 {
        EmitGetLocal(slot);
        AtomGrown(v0, V(), Var(x), Names(locals), GetLocal(slot % 65536));
        ok := true;
      } else {
        ok := EmitConstant(OP_GET_GLOBAL, VStr(x), GetGlobal(x));
        if ok { AtomGrown(v0, V(), Var(x), Names(locals), GetGlobal(x)); }
      }
    }

    method VisitExpr(e: Expr) returns (ok: bool)
      requires Valid() && |constants| <= MAX_CONSTANTS
      modifies this`code, this`constants, this`asm, this`pending
      ensures ok <==> FitsE(e) && old(|constants|) + UsesE(e, Names(locals)) <= MAX_CONSTANTS
      ensures ok ==> Valid() && GrownE(old(V()), V(), e, Names(locals))
      decreases e, 1
    {
      ghost var v0 := V();
      SoundTidy(code, constants, asm, pending);
      match e {
        case Num(n) =>
          ok := EmitConstant(OP_CONSTANT, VNum(n), Const(VNum(n)));
          if ok { AtomGrown(v0, V(), e, Names(locals), Const(VNum(n))); }
        case Str(s) =>
          ok := EmitConstant(OP_CONSTANT, VStr(s), Const(VStr(s)));
          if ok { AtomGrown(v0, V(), e, Names(locals), Const(VStr(s))); }
        case Bool(b) =>
          EmitOp(if b then OP_TRUE else OP_FALSE, PushBool(b));
          AtomGrown(v0, V(), e, Names(locals), PushBool(b));
          ok := true;
        case Var(x) => ok := VisitVar(x);
        case Un(op, a) => ok := VisitUn(op, a);
        case Bin(op, l, r) => ok := VisitBin(op, l, r);
        case And(l, r) => ok := VisitAnd(l, r);
        case Or(l, r) => ok := VisitOr(l, r);
        case ListLit(es) => ok := VisitList(es);
      }
    }

    method VisitUn(op: UnOp, a: Expr) returns (ok: bool)
      requires Valid() && |constants| <= MAX_CONSTANTS
      modifies this`code, this`constants, this`asm, this`pending
      ensures ok <==> FitsE(Un(op, a)) && old(|constants|) + UsesE(Un(op, a), Names(locals)) <= MAX_CONSTANTS
      ensures ok ==> Valid() && GrownE(old(V()), V(), Un(op, a), Names(locals))
      decreases Un(op, a), 0
    {
      ghost var v0 := V();
      ok := VisitExpr(a);
      if !ok { return; }
      ghost var v1 := V();
      SoundTidy(code, constants, asm, pending);
      EmitOp(if op == Not then OP_NOT else OP_NEGATE, Apply(op));
      UnGrown(v0, v1, V(), op, a, Names(locals));
    }

    method VisitBin(op: BinOp, l: Expr, r: Expr) returns (ok: bool)
      requires Valid() && |constants| <= MAX_CONSTANTS
      modifies this`code, this`constants, this`asm, this`pending
      ensures ok <==> FitsE(Bin(op, l, r)) && old(|constants|) + UsesE(Bin(op, l, r), Names(locals)) <= MAX_CONSTANTS
      ensures ok ==> Valid() && GrownE(old(V()), V(), Bin(op, l, r), Names(locals))
      decreases Bin(op, l, r), 0
    {
      ghost var v0 := V();
      ok := VisitExpr(l);
      if !ok { return; }
      ghost var v1 := V();
      ok := VisitExpr(r);
      if !ok { return; }
      ghost var v2 := V();
      SoundTidy(code, constants, asm, pending);
      EmitOperate(op);
      BinGrown(v0, v1, v2, V(), op, l, r, Names(locals));
    }

    method VisitAnd(l: Expr, r: Expr) returns (ok: bool)
      requires Valid() && |constants| <= MAX_CONSTANTS
      modifies this`code, this`constants, this`asm, this`pending
      ensures ok <==> FitsE(And(l, r)) && old(|constants|) + UsesE(And(l, r), Names(locals)) <= MAX_CONSTANTS
      ensures ok ==> Valid() && GrownE(old(V()), V(), And(l, r), Names(locals))
      decreases And(l, r), 0
    {
      hide Sound, LaidE, SizeE, UsesE, FitsE, Test;
      ShortLimits(l, r);
      BinUses(Add, l, r, Names(locals));
      ghost var v0 := V();
      SoundTidy(code, constants, asm, pending);
      ok := VisitExpr(l);
      if !ok { return; }
      ghost var v1 := V();
      SoundTidy(code, constants, asm, pending);
      var endJump := EmitTest(v0.size + SizeE(And(l, r)));
      ghost var v3 := V();
      ok := VisitExpr(r);
      if !ok { return; }
      ghost var v4 := V();
      TestOpen(v1, v3, v4, v0.size + SizeE(And(l, r)));
      ok := PatchJump(endJump);
      if ok { AndGrown(v0, v1, v3, v4, V(), l, r, Names(locals)); }
    }

    method VisitOr(l: Expr, r: Expr) returns (ok: bool)
      requires Valid() && |constants| <= MAX_CONSTANTS
      modifies this`code, this`constants, this`asm, this`pending
      ensures ok <==> FitsE(Or(l, r)) && old(|constants|) + UsesE(Or(l, r), Names(locals)) <= MAX_CONSTANTS
      ensures ok ==> Valid() && GrownE(old(V()), V(), Or(l, r), Names(locals))
      decreases Or(l, r), 0
    {
      hide Sound, LaidE, SizeE, UsesE, FitsE, Else;
      ShortLimits(l, r);
      BinUses(Add, l, r, Names(locals));
      ghost var v0 := V();
      SoundTidy(code, constants, asm, pending);
      ok := VisitExpr(l);
      if !ok { return; }
      ghost var v1 := V();
      SoundTidy(code, constants, asm, pending);
      var jump := EmitOrJumps(v0.size + SizeE(Or(l, r)));
      ghost var v5 := V();
      ok := VisitExpr(r);
      if !ok { return; }
      ghost var v6 := V();
      OrOpen(v1, v5, v6, v0.size + SizeE(Or(l, r)));
      ok := PatchJump(jump);
      if ok { OrGrown(v0, v1, v5, v6, V(), l, r, Names(locals)); }
    }

    method VisitList(es: seq<Expr>) returns (ok: bool)
      requires Valid() && |constants| <= MAX_CONSTANTS
      modifies this`code, this`constants, this`asm, this`pending
      ensures ok <==> FitsE(ListLit(es)) && old(|constants|) + UsesE(ListLit(es), Names(locals)) <= MAX_CONSTANTS
      ensures ok ==> Valid() && GrownE(old(V()), V(), ListLit(es), Names(locals))
      decreases ListLit(es), 0
    {
      ListSizes(es, Names(locals));
      hide Sound, LaidE, LaidEs, SizeE, SizeEs, UsesE, UsesEs, FitsE, FitsEs, Within;
      if |es| > 255 { return false; }
      ghost var v0 := V();
      EmptyEs(v0, Names(locals));
      var i := 0;
      while i < |es|
        invariant 0 <= i <= |es| && Valid() && |constants| <= MAX_CONSTANTS
        invariant GrownEs(v0, V(), es[..i], Names(locals)) && FitsEs(es[..i])
      {
        ghost var v1 := V();
        ok := VisitExpr(es[i]);
        assert es[..i + 1] == es[..i] + [es[i]];
        SizeEsAppend(es[..i], es[i], Names(locals));
        if !ok {
          EsPrefix(es, i + 1, Names(locals));
          return;
        }
        SnocGrown(v0, v1, V(), es[..i], es[i], Names(locals));
        i := i + 1;
      }
      assert es[..|es|] == es;
      ghost var v1 := V();
      SoundTidy(code, constants, asm, pending);
      EmitListSize(|es|);
      ListGrown(v0, v1, V(), es, Names(locals));
      ok := true;
    }

    // ---- Statements ----

    ghost function S(): Scope
      reads this`locals, this`scopeDepth, this`tryDepth, this`loops
    {
      Scope(locals, scopeDepth, tryDepth, loops)
    }

    ghost function O(): Outlets
      reads this`loops
    {
      OutletsOf(loops)
    }

    ghost predicate Ready(cx: Context, stop: nat, skip: Target)
      reads this`code, this`constants, this`asm, this`pending, this`locals, this`scopeDepth, this`tryDepth, this`loops
    {
      && Valid() && |constants| <= MAX_CONSTANTS && Matches(S(), cx, skip) && OutletsOk(V(), O(), stop, skip)
      && O().start <= |code| && !skip.Pending? && (skip.Back? ==> skip.t <= |code|) && (loops != [] && skip.Fwd? ==> skip.t != stop)
    }

    /** A condition and its test, jumping `reach` bytes past the condition when false. */
    method VisitTest(c: Expr, ghost reach: nat, ghost cx: Context, ghost stop: nat, ghost skip: Target)
        returns (ok: bool, jump: nat, ghost v1: View)
      requires Ready(cx, stop, skip)
      modifies this`code, this`constants, this`asm, this`pending
      ensures ok <==> FitsE(c) && old(|constants|) + UsesE(c, cx.locals) <= MAX_CONSTANTS
      ensures ok ==> Ready(cx, stop, skip) && GrownE(old(V()), v1, c, cx.locals) && Tidy(v1)
      ensures ok ==> V() == Test(v1, v1.size + reach) && jump == v1.size + 1
      ensures ok ==> |code| == v1.size + 4 && |constants| == v1.consts
      ensures ok ==> v1.size in Loose(V(), O()) && Has(asm, v1.size, JumpIfFalse(v1.size + reach))
    {
      hide Sound, LaidE, SizeE, UsesE, FitsE, Test, OutletsOk, AllHoles, Matches, OutletsOf;
      ghost var v0 := V();
      MatchesNames(S(), cx, skip);
      ok := VisitExpr(c);
      v1 := V();
      jump := 0;
      if !ok { return; }
      SoundTidy(code, constants, asm, pending);
      jump := EmitTest(v1.size + reach);
      AfterTest(v0, O(), v1, V(), v1.size + reach, c, cx.locals, stop, skip);
    }

    /** Condition, test and then-branch of an if. */
    method VisitThen(c: Expr, thn: seq<Stmt>, ghost cx: Context, ghost stop: nat, ghost skip: Target)
        returns (ok: bool, thenJump: nat, ghost v1: View, ghost v2: View)
      requires Ready(cx, stop, skip)
      modifies this
      ensures ok <==> FitsE(c) && FitsB(thn, old(|code|) + SizeE(c) + 4, cx, skip)
                      && old(|constants|) + UsesE(c, cx.locals) + UsesB(thn, cx) <= MAX_CONSTANTS
      ensures ok ==> && GrownE(old(V()), v1, c, cx.locals) && Tidy(v1) && v2 == Test(v1, v1.size + 4 + SizeB(thn, cx) + 3)
                     && v2.size == v1.size + 4 && v2.consts == v1.consts && thenJump == v1.size + 1
                     && GrownB(v2, old(O()), V(), O(), thn, cx, stop, skip) && v1.size in Loose(V(), O()) && v1.size in pending
                     && v1.size in asm && asm[v1.size] == JumpIfFalse(v1.size + 4 + SizeB(thn, cx) + 3)
      ensures ok ==> Ready(cx, stop, skip) && Steady(old(S()), S())
      decreases thn, 3
    {
      hide Sound, LaidE, SizeE, UsesE, FitsE, Test, SizeB, UsesB, LaidB, FitsB, OutletsOk, AllHoles, Matches, Steady, Within, Has, Loose, OutletsOf;
      ghost var o0, reach := O(), 4 + SizeB(thn, cx) + 3;
      ok, thenJump, v1 := VisitTest(c, reach, cx, stop, skip);
      v2 := V();
      if !ok { return; }
      ok := VisitBlock(thn, cx, stop, skip);
      if !ok { return; }
      OpenSurvives(v2, o0, V(), O(), v1.size, JumpIfFalse(v1.size + reach));
    }

    method VisitIf(c: Expr, thn: seq<Stmt>, els: seq<Stmt>, ghost cx: Context, ghost stop: nat, ghost skip: Target)
        returns (ok: bool)
      requires Ready(cx, stop, skip)
      modifies this
      ensures ok <==> FitsS(If(c, thn, els), old(|code|), cx, skip)
                      && old(|constants|) + UsesS(If(c, thn, els), cx) <= MAX_CONSTANTS
      ensures ok ==> Ready(cx, stop, skip) && Steady(old(S()), S())
      ensures ok ==> GrownS(old(V()), old(O()), V(), O(), If(c, thn, els), cx, stop, skip)
      decreases If(c, thn, els), 0
    {
      hide Sound, LaidE, SizeE, UsesE, FitsE, Test, Else, SizeB, UsesB, SizeS, UsesS, LaidB, LaidS, FitsB, FitsS, OutletsOk, AllHoles,
           Matches, Steady, Within, Has, Loose, OutletsOf;
      ghost var v0, o0, s0 := V(), O(), S();
      IfSizes(c, thn, els, v0.size, cx, skip);
      SoundTidy(code, constants, asm, pending);
      ghost var end := v0.size + SizeS(If(c, thn, els), cx);
      var thenJump; ghost var v1, v2;
      ok, thenJump, v1, v2 := VisitThen(c, thn, cx, stop, skip);
      if !ok { return; }
      ghost var v3, o1, s3 := V(), O(), S();
      SoundTidy(code, constants, asm, pending);
      var elseJump;
      ok, elseJump := EmitElse(thenJump, end);
      if !ok { return; }
      ghost var v4 := V();
      AfterElse(v3, o1, v4, v1.size, end, stop, skip);
      ok := VisitBlock(els, cx, stop, skip);
      if !ok { return; }
      ghost var v5, o2 := V(), O();
      OpenSurvives(v4, o1, v5, o2, v3.size, Jump(end));
      ok := PatchJump(elseJump);
      SteadyTrans(s0, s3, S());
      if ok { IfGrown(v0, o0, v1, v2, v3, o1, v4, v5, o2, V(), c, thn, els, cx, stop, skip); }
    }

    method VisitBlock(b: seq<Stmt>, ghost cx: Context, ghost stop: nat, ghost skip: Target) returns (ok: bool)
      requires Ready(cx, stop, skip)
      modifies this
      ensures ok <==> FitsB(b, old(|code|), cx, skip) && old(|constants|) + UsesB(b, cx) <= MAX_CONSTANTS
      ensures ok ==> Ready(cx, stop, skip) && Steady(old(S()), S()) && GrownB(old(V()), old(O()), V(), O(), b, cx, stop, skip)
      decreases b, 2
    {
      hide Sound, SizeB, UsesB, SizeS, UsesS, LaidB, LaidS, FitsB, FitsS, OutletsOk, AllHoles, Matches, Steady, OutletsOf;
      ghost var v0, o0, s0 := V(), O(), S();
      SteadySame(s0);
      EmptyGrown(v0, o0, cx, stop, skip);
      var i := 0;
      ok := true;
      EmptyFits(v0.size, cx, skip);
      while i < |b|
        invariant 0 <= i <= |b| && Ready(cx, stop, skip) && Steady(old(S()), S()) && ok
        invariant GrownB(v0, o0, V(), O(), b[..i], cx, stop, skip) && FitsB(b[..i], v0.size, cx, skip)
      {
        ghost var v1, o1, s1 := V(), O(), S();
        ok := VisitStmt(b[i], cx, stop, skip);
        assert b[..i + 1] == b[..i] + [b[i]];
        SizeBAppend(b[..i], b[i], cx);
        FitsBAppend(b[..i], b[i], v0.size, cx, skip);
        if !ok {
          BlockPrefix(b, i + 1, v0.size, cx, skip);
          return;
        }
        SteadyTrans(s0, s1, S());
        StmtGrown(v0, o0, v1, o1, V(), O(), b[..i], b[i], cx, stop, skip);
        i := i + 1;
      }
      assert b[..|b|] == b;
    }

    /** An expression inside a statement. */
    method VisitOperand(e: Expr, ghost cx: Context, ghost stop: nat, ghost skip: Target) returns (ok: bool)
      requires Ready(cx, stop, skip)
      modifies this`code, this`constants, this`asm, this`pending
      ensures ok <==> FitsE(e) && old(|constants|) + UsesE(e, cx.locals) <= MAX_CONSTANTS
      ensures ok ==> Ready(cx, stop, skip) && GrownE(old(V()), V(), e, cx.locals) && Tidy(V())
    {
      hide Sound, LaidE, SizeE, UsesE, FitsE, OutletsOk, Matches, OutletsOf;
      ghost var v0 := V();
      MatchesNames(S(), cx, skip);
      ok := VisitExpr(e);
      if !ok { return; }
      SoundTidy(code, constants, asm, pending);
      AfterExpr(v0, V(), e, cx.locals, O(), stop, skip);
    }

    // ---- Statements of one expression ----

    method VisitSimple(s: Stmt, e: Expr, op: byte, ghost i: Instr, ghost cx: Context, ghost stop: nat, ghost skip: Target)
        returns (ok: bool)
      requires Ready(cx, stop, skip) && Simple(s, e, i) && One(op) == Some(i)
      modifies this`code, this`constants, this`asm, this`pending
      ensures ok <==> FitsS(s, old(|code|), cx, skip) && old(|constants|) + UsesS(s, cx) <= MAX_CONSTANTS
      ensures ok ==> Ready(cx, stop, skip) && GrownS(old(V()), O(), V(), O(), s, cx, stop, skip)
    {
      hide Sound, LaidE, SizeE, UsesE, FitsE, SizeS, UsesS, LaidS, FitsS, OutletsOk, AllHoles, Matches, OutletsOf, Simple, One;
      ghost var v0 := V();
      SimpleSizes(s, e, i, v0.size, cx, skip);
      MatchesNames(S(), cx, skip);
      ok := VisitExpr(e);
      if !ok { return; }
      ghost var v1 := V();
      SoundTidy(code, constants, asm, pending);
      EmitOp(op, i);
      SimpleGrown(v0, O(), v1, V(), s, e, i, cx, stop, skip);
    }

    method VisitExprStmt(e: Expr, ghost cx: Context, ghost stop: nat, ghost skip: Target) returns (ok: bool)
      requires Ready(cx, stop, skip)
      modifies this`code, this`constants, this`asm, this`pending
      ensures ok <==> FitsS(ExprStmt(e), old(|code|), cx, skip) && old(|constants|) + UsesS(ExprStmt(e), cx) <= MAX_CONSTANTS
      ensures ok ==> Ready(cx, stop, skip) && GrownS(old(V()), O(), V(), O(), ExprStmt(e), cx, stop, skip)
    {
      hide Sound, LaidE, SizeE, UsesE, FitsE, SizeS, UsesS, LaidS, FitsS, OutletsOk, AllHoles, Matches, OutletsOf, GrownS;
      if Popped(e) {
        ok := VisitSimple(ExprStmt(e), e, OP_POP, Instr.Pop, cx, stop, skip);
      } else {
        ghost var v0 := V();
        UnpoppedSizes(e, v0.size, cx, skip);
        MatchesNames(S(), cx, skip);
        ok := VisitExpr(e);
        if ok { UnpoppedGrown(v0, O(), V(), e, cx, stop, skip); }
      }
    }

    method EmitAssignment(x: string) returns (ok: bool)
      requires Valid()
      modifies this`code, this`constants, this`asm
      ensures ok <==> old(|constants|) + UsesVar(Names(locals), x) <= MAX_CONSTANTS || UsesVar(Names(locals), x) == 0
      ensures ok ==> Valid() && GrownStore(old(V()), V(), x, Names(locals))
    {
      hide GrownStore;
      ghost var v0 := V();
      SoundTidy(code, constants, asm, pending);
      var slot := ResolveLocal(x);
      if slot != -1 {
        EmitSetLocal(slot);
        EmitPop();
        StoreLocalGrown(v0, V(), x, slot, Names(locals));
        ok := true;
      } else {
        ok := EmitConstant(OP_DEFINE_GLOBAL, VStr(x), DefineGlobal(x));
        if ok { StoreGlobalGrown(v0, V(), x, Names(locals)); }
      }
    }

    /** Stores the value on the stack to every target, duplicating it while more remain. */
    method VisitStores(xs: seq<string>) returns (ok: bool)
      requires Valid() && |constants| <= MAX_CONSTANTS
      modifies this`code, this`constants, this`asm
      ensures ok <==> old(|constants|) + UsesStores(xs, Names(locals)) <= MAX_CONSTANTS
      ensures ok ==> Valid() && StoredSome(old(V()), V(), xs, |xs|, Names(locals))
    {
      hide Sound, GrownStore, SizeStores, UsesStores, LayoutStores;
      ghost var v0, names := V(), Names(locals);
      StoredNone(v0, xs, names);
      SoundTidy(code, constants, asm, pending);
      var i := 0;
      while i < |xs|
        invariant 0 <= i <= |xs| && Valid() && Tidy(V()) && |constants| <= MAX_CONSTANTS
        invariant StoredSome(v0, V(), xs, i, names)
      {
        ghost var v1 := V();
        var remaining := |xs| - i;
        if remaining > 1 { EmitOp(OP_DUP, Dup); }
        ghost var v2 := V();
        ok := EmitAssignment(xs[i]);
        StoresUnfold(xs, i, names);
        if !ok { return; }
        StoredNext(v0, v1, v2, V(), xs, i, names);
        StoreConsts(v2, V(), xs[i], names);
        SoundTidy(code, constants, asm, pending);
        i := i + 1;
      }
      AllStored(asm, xs, |code|, names);
      ok := true;
    }

    method VisitAssign(xs: seq<string>, e: Expr, ghost cx: Context, ghost stop: nat, ghost skip: Target) returns (ok: bool)
      requires Ready(cx, stop, skip)
      modifies this`code, this`constants, this`asm, this`pending
      ensures ok <==> FitsS(Assign(xs, e), old(|code|), cx, skip) && old(|constants|) + UsesS(Assign(xs, e), cx) <= MAX_CONSTANTS
      ensures ok ==> Ready(cx, stop, skip) && GrownS(old(V()), O(), V(), O(), Assign(xs, e), cx, stop, skip)
    {
      hide Sound, LaidE, SizeE, UsesE, FitsE, SizeS, UsesS, LaidS, FitsS, OutletsOk, AllHoles, Matches, OutletsOf, StoredSome, UsesStores, SizeStores;
      ghost var v0 := V();
      AssignSizes(xs, e, v0.size, cx, skip);
      MatchesNames(S(), cx, skip);
      ok := VisitExpr(e);
      if !ok { return; }
      ghost var v1 := V();
      ok := VisitStores(xs);
      if ok { AssignGrown(v0, O(), v1, V(), xs, e, cx, stop, skip); }
    }

    // ---- Scopes and patch lists ----

    /** Drops the locals of the innermost scope, above the first n. */
    method EndScope(ghost n: nat)
      requires Valid() && n <= |locals| && scopeDepth > 0
      requires forall i | 0 <= i < n :: locals[i].depth < scopeDepth
      requires forall i | n <= i < |locals| :: locals[i].depth == scopeDepth
      modifies this`code, this`asm, this`locals, this`scopeDepth
      ensures scopeDepth == old(scopeDepth) - 1 && locals == old(locals)[..n]
      ensures Valid() && V() == Many(old(V()), |old(locals)| - n, Instr.Pop)
    {
      hide Sound;
      ghost var all, depth := locals, scopeDepth;
      assert forall i | 0 <= i < n :: all[i].depth < depth;
      assert forall i | n <= i < |all| :: all[i].depth == depth;
      scopeDepth := scopeDepth - 1;
      while |locals| > 0 && locals[|locals| - 1].depth > scopeDepth
        invariant n <= |locals| <= |all| && locals == all[..|locals|] && scopeDepth == depth - 1
        invariant Valid() && V() == Many(old(V()), |all| - |locals|, Instr.Pop)
      {
        assert locals[|locals| - 1] == all[|locals| - 1];
        EmitPop();
        locals := locals[..|locals| - 1];
      }
      if |locals| > 0 { assert locals[|locals| - 1] == all[|locals| - 1]; }
    }

    /** A block in a scope of its own, with the given variables on the stack. */
    method VisitScope(b: seq<Stmt>, vars: seq<string>, ghost cx: Context, ghost stop: nat, ghost skip: Target) returns (ok: bool)
      requires Ready(cx, stop, skip)
      modifies this
      ensures var inner := AddLocals(cx, vars);
              ok <==> FitsB(b, old(|code|), inner, skip) && old(|constants|) + UsesB(b, inner) <= MAX_CONSTANTS
      ensures ok ==> Ready(cx, stop, skip) && Steady(old(S()), S())
      ensures ok ==> GrownScope(old(V()), old(O()), V(), O(), b, |vars|, AddLocals(cx, vars), stop, skip)
      decreases b, 3
    {
      hide Sound, SizeB, UsesB, LaidB, FitsB, OutletsOk, AllHoles, Matches, Steady, OutletsOf, AddLocals, Many, Repeated, Within;
      ghost var v0, o0, s0, inner := V(), O(), S(), AddLocals(cx, vars);
      ScopeIn(s0, cx, skip, vars);
      BeginScope();
      locals := locals + Fresh(vars, scopeDepth);
      ok := VisitBlock(b, inner, stop, skip);
      if !ok { return; }
      ghost var v1, o1, s1 := V(), O(), S();
      ScopeOut(s0, s1, cx, skip, vars);
      SoundTidy(code, constants, asm, pending);
      EndScope(|s0.locals|);
      ScopeGrown(v0, o0, v1, o1, V(), b, |vars|, inner, stop, skip);
      SteadyMatches(s0, S(), cx, skip);
    }

    /** Patches the jumps of a loop to the end of the code. */
    method PatchAll(xs: seq<nat>, ghost start: nat, ghost i: Instr) returns (ok: bool)
      requires Valid() && HolesOk(V(), start, xs, i) && IsForward(i) && Destination(i) == |code|
      modifies this`code, this`pending
      ensures |code| == old(|code|) && (|code| <= start + MAX_JUMP + 3 ==> ok)
      ensures ok ==> Valid() && V() == CloseAll(old(V()), xs)
    {
      hide Sound, HolesOk, HoleSet;
      ghost var v0 := V();
      NoHoles();
      assert xs[..0] == [];
      var k := 0;
      while k < |xs|
        invariant 0 <= k <= |xs| && Valid() && V() == CloseAll(v0, xs[..k]) && |code| == v0.size
      {
        NextHole(v0, start, xs, i, k);
        ok := PatchJump(xs[k]);
        if !ok { return; }
        k := k + 1;
      }
      assert xs[..|xs|] == xs;
      ok := true;
    }

    /** Back to the start of a loop; the loop's own exit lands here. */
    method EmitBack(start: nat, exit: nat) returns (ok: bool)
      requires Valid() && start <= |code| && exit > start && exit - 1 in pending
      requires IsForward(asm[exit - 1]) && Destination(asm[exit - 1]) == |code| + 3
      modifies this`code, this`asm, this`pending
      ensures ok <==> old(|code|) + 3 - start <= MAX_JUMP
      ensures ok ==> Valid() && V() == Close(Put(old(V()), Loop(start)), exit - 1)
    {
      hide Sound;
      ghost var v0 := V();
      SoundTidy(code, constants, asm, pending);
      ok := EmitLoop(start);
      if !ok { return; }
      PutFacts(v0, Loop(start));
      ok := PatchJump(exit);
    }

    // ---- unless and try ----

    /** A condition whose true side jumps to `end` and whose false side goes on. */
    method VisitSplit(c: Expr, ghost end: nat, ghost cx: Context, ghost stop: nat, ghost skip: Target)
        returns (ok: bool, jump: nat, ghost v1: View)
      requires Ready(cx, stop, skip)
      modifies this`code, this`constants, this`asm, this`pending
      ensures ok <==> FitsE(c) && old(|constants|) + UsesE(c, cx.locals) <= MAX_CONSTANTS
      ensures ok ==> Ready(cx, stop, skip) && GrownE(old(V()), v1, c, cx.locals) && Tidy(v1)
      ensures ok ==> V() == Split(v1, end) && jump == v1.size + 5
      ensures ok ==> |code| == v1.size + 8 && |constants| == v1.consts
      ensures ok ==> v1.size + 4 in Loose(V(), O()) && Has(asm, v1.size + 4, Jump(end))
    {
      hide Sound, LaidE, SizeE, UsesE, FitsE, Test, Else, OutletsOk, AllHoles, Matches, Within, Loose, OutletsOf;
      ghost var v0 := V();
      MatchesNames(S(), cx, skip);
      ok := VisitExpr(c);
      v1 := V();
      jump := 0;
      if !ok { return; }
      SoundTidy(code, constants, asm, pending);
      TestFacts(v1, v1.size + 7);
      var runBody := EmitTest(v1.size + 7);
      ok, jump := EmitElse(runBody, end);
      AfterSplit(v0, O(), v1, V(), end, c, cx.locals, stop, skip);
    }

    method VisitUnless(c: Expr, body: seq<Stmt>, ghost cx: Context, ghost stop: nat, ghost skip: Target) returns (ok: bool)
      requires Ready(cx, stop, skip)
      modifies this
      ensures ok <==> FitsS(Unless(c, body), old(|code|), cx, skip) && old(|constants|) + UsesS(Unless(c, body), cx) <= MAX_CONSTANTS
      ensures ok ==> Ready(cx, stop, skip) && Steady(old(S()), S())
      ensures ok ==> GrownS(old(V()), old(O()), V(), O(), Unless(c, body), cx, stop, skip)
      decreases Unless(c, body), 0
    {
      hide Sound, LaidE, SizeE, UsesE, FitsE, Split, SizeB, UsesB, SizeS, UsesS, LaidB, LaidS, FitsB, FitsS, OutletsOk, AllHoles, Matches, Steady, Within, Has, Loose, OutletsOf;
      ghost var v0, o0 := V(), O();
      UnlessSizes(c, body, v0.size, cx, skip);
      ghost var end := v0.size + SizeS(Unless(c, body), cx);
      var endJump; ghost var v1;
      ok, endJump, v1 := VisitSplit(c, end, cx, stop, skip);
      if !ok { return; }
      ghost var v2 := V();
      ok := VisitBlock(body, cx, stop, skip);
      if !ok { return; }
      ghost var v3, o1 := V(), O();
      OpenSurvives(v2, o0, v3, o1, v1.size + 4, Jump(end));
      ok := PatchJump(endJump);
      if ok { UnlessGrown(v0, o0, v1, v2, v3, o1, V(), c, body, cx, stop, skip); }
    }

    /** The body of a try statement, with its BEGIN_TRY. */
    method VisitTried(body: seq<Stmt>, ghost t: nat, ghost cx: Context, ghost stop: nat, ghost skip: Target)
        returns (ok: bool, ghost v1: View)
      requires Ready(cx, stop, skip)
      modifies this
      ensures var inner := EnterTry(cx);
              ok <==> FitsB(body, old(|code|) + 3, inner, skip) && old(|constants|) + UsesB(body, inner) <= MAX_CONSTANTS
      ensures ok ==> Ready(cx, stop, skip) && Steady(old(S()), S())
      ensures ok ==> v1 == PutOpen(old(V()), BeginTry(t)) && GrownB(v1, old(O()), V(), O(), body, EnterTry(cx), stop, skip)
      ensures ok ==> old(|code|) in Loose(V(), O()) && old(|code|) in asm && asm[old(|code|)] == BeginTry(t)
      decreases body, 3
    {
      hide Sound, SizeB, UsesB, LaidB, FitsB, OutletsOk, AllHoles, Matches, Steady, Loose, OutletsOf, EnterTry;
      ghost var v0, o0, s0, inner := V(), O(), S(), EnterTry(cx);
      SoundTidy(code, constants, asm, pending);
      TryIn(s0, cx, skip);
      tryDepth := tryDepth + 1;
      var catchJump := EmitJump(OP_TRY, BeginTry(t));
      v1 := V();
      TryOpen(v0, o0, v1, t, stop, skip);
      ok := VisitBlock(body, inner, stop, skip);
      if !ok { return; }
      TryOut(s0, S());
      tryDepth := tryDepth - 1;
      SteadyMatches(s0, S(), cx, skip);
      OpenSurvives(v1, o0, V(), O(), v0.size, BeginTry(t));
    }

    /** After the body of a try: END_TRY, the jump over the handler, and the handler starts here. */
    method EmitCatch(catchJump: nat, ghost end: nat, ghost stop: nat, ghost skip: Target) returns (ok: bool, endJump: nat)
      requires Valid() && OutletsOk(V(), O(), stop, skip) && catchJump > 0 && catchJump - 1 in Loose(V(), O())
      requires catchJump - 1 in asm && IsForward(asm[catchJump - 1]) && Destination(asm[catchJump - 1]) == |code| + 4
      modifies this`code, this`asm, this`pending
      ensures ok <==> old(|code|) + 4 - (catchJump - 1) - 3 <= MAX_JUMP
      ensures endJump == old(|code|) + 2
      ensures ok ==> Valid() && V() == TryMid(old(V()), catchJump - 1, end) && OutletsOk(V(), O(), stop, skip)
      ensures ok ==> old(|code|) + 1 in Loose(V(), O()) && Has(asm, old(|code|) + 1, Jump(end)) && |code| == old(|code|) + 4
    {
      hide Sound, OutletsOk, AllHoles, OutletsOf;
      ghost var v0 := V();
      SoundTidy(code, constants, asm, pending);
      TryMidFacts(v0, O(), catchJump - 1, end, stop, skip);
      EmitOp(OP_END_TRY, EndTry);
      PutFacts(v0, EndTry);
      PutFacts(V(), Jump(end));
      endJump := EmitJump(OP_JUMP, Jump(end));
      ok := PatchJump(catchJump);
    }

    method VisitTry(body: seq<Stmt>, x: string, handler: seq<Stmt>, ghost cx: Context, ghost stop: nat, ghost skip: Target)
        returns (ok: bool)
      requires Ready(cx, stop, skip)
      modifies this
      ensures ok <==> FitsS(Try(body, x, handler), old(|code|), cx, skip)
                      && old(|constants|) + UsesS(Try(body, x, handler), cx) <= MAX_CONSTANTS
      ensures ok ==> Ready(cx, stop, skip) && Steady(old(S()), S())
      ensures ok ==> GrownS(old(V()), old(O()), V(), O(), Try(body, x, handler), cx, stop, skip)
      decreases Try(body, x, handler), 0
    {
      hide Sound, SizeB, UsesB, SizeS, UsesS, LaidB, LaidS, FitsB, FitsS, OutletsOk, AllHoles, Matches, Steady, Within, Has, Loose, OutletsOf, EnterTry, AddLocals, TryMid, PutOpen;
      ghost var v0, o0, s0 := V(), O(), S();
      TrySizes(body, x, handler, v0.size, cx, skip);
      SoundTidy(code, constants, asm, pending);
      ghost var t, end := v0.size + 7 + SizeB(body, EnterTry(cx)), v0.size + SizeS(Try(body, x, handler), cx);
      var catchJump := |code| + 1;
      ghost var v1;
      ok, v1 := VisitTried(body, t, cx, stop, skip);
      if !ok { return; }
      OpenSize(v0, v1, BeginTry(t));
      ghost var v2, o1, s2 := V(), O(), S();
      SoundTidy(code, constants, asm, pending);
      var endJump;
      ok, endJump := EmitCatch(catchJump, end, stop, skip);
      if !ok { return; }
      ghost var v3 := V();
      ok := VisitScope(handler, [x], cx, stop, skip);
      if !ok { return; }
      ghost var v4, o2 := V(), O();
      OpenSurvives(v3, o1, v4, o2, v2.size + 1, Jump(end));
      ok := PatchJump(endJump);
      SteadyTrans(s0, s2, S());
      if ok { TryGrown(v0, o0, v1, v2, o1, v3, v4, o2, V(), body, x, handler, cx, stop, skip); }
    }

    // ---- Loops ----

    /** Opens a loop at the end of the code, whose hidden slots are on the stack. */
    method BeginLoop(hidden: seq<string>, back: bool, ghost cx: Context, ghost stop: nat, ghost skip: Target,
                     ghost end: nat, ghost inner: Target)
      requires Ready(cx, stop, skip) && !inner.Pending? && back == inner.Back?
      requires if back then inner.t == |code| else inner.t != end
      modifies this`locals, this`loops
      ensures S() == Looped(old(S()), hidden, |code|, SkipTarget(inner))
      ensures Ready(EnterLoop(cx, hidden, []), end, inner) && O() == NoOutlets(|code|)
    {
      hide Sound, OutletsOk, Matches, OutletsOf, EnterLoop;
      LoopIn(S(), cx, skip, hidden, |code|, inner);
      FreshOutlets(V(), |code|, end, inner);
      locals := locals + Fresh(hidden, scopeDepth);
      loops := loops + [LoopFrame(|code|, [], [], if back then |code| else -1, scopeDepth, tryDepth)];
    }

    /** Closes the innermost loop and forgets its hidden slots. */
    method EndLoop(hidden: nat)
      requires loops != [] && hidden <= |locals|
      modifies this`locals, this`loops
      ensures loops == old(loops)[..|old(loops)| - 1] && locals == old(locals)[..|old(locals)| - hidden]
    {
      loops := loops[..|loops| - 1];
      locals := locals[..|locals| - hidden];
    }

    method EndWhile(start: nat, exitJump: nat, ghost end: nat) returns (ok: bool)
      requires Valid() && loops != [] && OutletsOk(V(), O(), end, Back(start)) && O().start == start <= |code|
      requires exitJump > start && exitJump - 1 in Loose(V(), O()) && exitJump - 1 in asm
      requires IsForward(asm[exitJump - 1]) && Destination(asm[exitJump - 1]) == |code| + 3 && end == |code| + 4
      modifies this`code, this`asm, this`pending
      ensures ok <==> old(|code|) + 3 - start <= MAX_JUMP
      ensures ok ==> Valid() && V() == CloseAll(LoopEnd(old(V()), start, exitJump - 1), O().exits)
    {
      hide Sound, OutletsOk, AllHoles, HolesOk, HoleSet;
      ghost var v0 := V();
      SoundTidy(code, constants, asm, pending);
      LoopEndFacts(v0, start, exitJump - 1);
      ok := EmitBack(start, exitJump);
      if !ok { return; }
      EmitPop();
      ExitsOpen(v0, V(), O(), exitJump - 1, end, Back(start));
      ok := PatchAll(loops[|loops| - 1].exits, start, Jump(end));
    }

    /** Condition, test and body of a while loop. */
    method VisitWhileBody(c: Expr, body: seq<Stmt>, ghost cx: Context, ghost stop: nat, ghost skip: Target)
        returns (ok: bool, exitJump: nat, ghost v1: View, ghost v2: View)
      requires Ready(cx, stop, skip)
      modifies this
      ensures var inner, start := EnterLoop(cx, [], []), old(|code|);
              ok <==> FitsE(c) && FitsB(body, start + SizeE(c) + 4, inner, Back(start))
                      && old(|constants|) + UsesE(c, cx.locals) + UsesB(body, inner) <= MAX_CONSTANTS
      ensures var inner, start := EnterLoop(cx, [], []), old(|code|);
              var end := start + SizeE(c) + SizeB(body, inner) + 8;
              ok ==> && GrownE(old(V()), v1, c, cx.locals) && Tidy(v1) && v2 == Test(v1, v1.size + SizeB(body, inner) + 7)
                     && v2.size == v1.size + 4 && v2.consts == v1.consts && loops != [] && O().start == start
                     && GrownScope(v2, NoOutlets(start), V(), O(), body, 0, inner, end, Back(start))
                     && OutletsOk(V(), O(), end, Back(start)) && exitJump == v1.size + 1 && v1.size in Loose(V(), O())
                     && v1.size in asm && asm[v1.size] == JumpIfFalse(v1.size + SizeB(body, inner) + 7)
      ensures ok ==> Valid() && Steady(Looped(old(S()), [], old(|code|), old(|code|)), S())
      decreases body, 4
    {
      hide Sound, LaidE, SizeE, UsesE, FitsE, Test, SizeB, UsesB, LaidB, FitsB, OutletsOk, AllHoles,
           Matches, Steady, OutletsOf, EnterLoop, Looped, AddLocals, Within, Has, Loose, NoOutlets;
      LoopVars(cx, [], []);
      var start := |code|;
      ghost var s0, inner := S(), EnterLoop(cx, [], []);
      ghost var end := start + SizeE(c) + SizeB(body, inner) + 8;
      SameLocals(cx);
      BeginLoop([], true, cx, stop, skip, end, Back(start));
      ok, exitJump, v1 := VisitTest(c, SizeB(body, inner) + 7, inner, end, Back(start));
      v2 := V();
      if !ok { return; }
      ok := VisitScope(body, [], inner, end, Back(start));
      if !ok { return; }
      OpenSurvives(v2, NoOutlets(start), V(), O(), v1.size, JumpIfFalse(v1.size + SizeB(body, inner) + 7));
      LoopOut(s0, [], start, start, S());
    }

    method VisitWhile(c: Expr, body: seq<Stmt>, ghost cx: Context, ghost stop: nat, ghost skip: Target) returns (ok: bool)
      requires Ready(cx, stop, skip)
      modifies this
      ensures ok <==> FitsS(While(c, body), old(|code|), cx, skip) && old(|constants|) + UsesS(While(c, body), cx) <= MAX_CONSTANTS
      ensures ok ==> Ready(cx, stop, skip) && S() == old(S())
      ensures ok ==> GrownS(old(V()), old(O()), V(), O(), While(c, body), cx, stop, skip)
      decreases While(c, body), 0
    {
      hide Sound, LaidE, SizeE, UsesE, FitsE, Test, SizeB, UsesB, SizeS, UsesS, LaidB, LaidS, FitsB, FitsS, OutletsOk, AllHoles,
           Matches, Steady, OutletsOf, EnterLoop, LoopEnd, Looped, AddLocals, Within, Has, Loose, NoOutlets;
      ghost var v0, o0, s0 := V(), O(), S();
      WhileSizes(c, body, v0.size, cx, skip);
      var start, exitJump := |code|, 0;
      ghost var v1, v2;
      ok, exitJump, v1, v2 := VisitWhileBody(c, body, cx, stop, skip);
      if !ok { return; }
      ghost var v3, o3 := V(), O();
      LoopOut(s0, [], start, start, S());
      ok := EndWhile(start, exitJump, v0.size + SizeS(While(c, body), cx));
      if !ok { return; }
      WhileGrown(v0, o0, v1, v2, v3, o3, V(), c, body, cx, stop, skip);
      EndLoop(0);
    }

    method EndUntil(start: nat, exitJump: nat, ghost end: nat) returns (ok: bool)
      requires Valid() && loops != [] && OutletsOk(V(), O(), end, Back(start)) && O().start == start <= |code|
      requires exitJump > start && exitJump - 1 in Loose(V(), O()) && exitJump - 1 in asm
      requires IsForward(asm[exitJump - 1]) && Destination(asm[exitJump - 1]) == |code| + 3 == end
      modifies this`code, this`asm, this`pending
      ensures ok <==> old(|code|) + 3 - start <= MAX_JUMP
      ensures ok ==> Valid() && V() == CloseAll(Close(Put(old(V()), Loop(start)), exitJump - 1), O().exits)
    {
      hide Sound, OutletsOk, AllHoles, HolesOk, HoleSet;
      ghost var v0 := V();
      SoundTidy(code, constants, asm, pending);
      PutFacts(v0, Loop(start));
      ok := EmitBack(start, exitJump);
      if !ok { return; }
      ExitsOpen(v0, V(), O(), exitJump - 1, end, Back(start));
      ok := PatchAll(loops[|loops| - 1].exits, start, Jump(end));
    }

    /** Condition, split and body of an until loop. */
    method VisitUntilBody(c: Expr, body: seq<Stmt>, ghost cx: Context, ghost stop: nat, ghost skip: Target)
        returns (ok: bool, exitJump: nat, ghost v1: View, ghost v2: View)
      requires Ready(cx, stop, skip)
      modifies this
      ensures var inner, start := EnterLoop(cx, [], []), old(|code|);
              ok <==> FitsE(c) && FitsB(body, start + SizeE(c) + 8, inner, Back(start))
                      && old(|constants|) + UsesE(c, cx.locals) + UsesB(body, inner) <= MAX_CONSTANTS
      ensures var inner, start := EnterLoop(cx, [], []), old(|code|);
              var end := start + SizeE(c) + SizeB(body, inner) + 11;
              ok ==> && GrownE(old(V()), v1, c, cx.locals) && Tidy(v1) && v2 == Split(v1, end)
                     && v2.size == v1.size + 8 && v2.consts == v1.consts && loops != [] && O().start == start
                     && GrownScope(v2, NoOutlets(start), V(), O(), body, 0, inner, end, Back(start))
                     && OutletsOk(V(), O(), end, Back(start)) && exitJump == v1.size + 5 && v1.size + 4 in Loose(V(), O())
                     && v1.size + 4 in asm && asm[v1.size + 4] == Jump(end)
      ensures ok ==> Valid() && Steady(Looped(old(S()), [], old(|code|), old(|code|)), S())
      decreases body, 4
    {
      hide Sound, LaidE, SizeE, UsesE, FitsE, Split, SizeB, UsesB, LaidB, FitsB, OutletsOk, AllHoles,
           Matches, Steady, OutletsOf, EnterLoop, Looped, AddLocals, Within, Has, Loose, NoOutlets;
      LoopVars(cx, [], []);
      var start := |code|;
      ghost var s0, inner := S(), EnterLoop(cx, [], []);
      ghost var end := start + SizeE(c) + SizeB(body, inner) + 11;
      SameLocals(cx);
      BeginLoop([], true, cx, stop, skip, end, Back(start));
      ok, exitJump, v1 := VisitSplit(c, end, inner, end, Back(start));
      v2 := V();
      if !ok { return; }
      ok := VisitScope(body, [], inner, end, Back(start));
      if !ok { return; }
      OpenSurvives(v2, NoOutlets(start), V(), O(), v1.size + 4, Jump(end));
      LoopOut(s0, [], start, start, S());
    }

    method VisitUntil(c: Expr, body: seq<Stmt>, ghost cx: Context, ghost stop: nat, ghost skip: Target) returns (ok: bool)
      requires Ready(cx, stop, skip)
      modifies this
      ensures ok <==> FitsS(Until(c, body), old(|code|), cx, skip) && old(|constants|) + UsesS(Until(c, body), cx) <= MAX_CONSTANTS
      ensures ok ==> Ready(cx, stop, skip) && S() == old(S())
      ensures ok ==> GrownS(old(V()), old(O()), V(), O(), Until(c, body), cx, stop, skip)
      decreases Until(c, body), 0
    {
      hide Sound, LaidE, SizeE, UsesE, FitsE, Split, SizeB, UsesB, SizeS, UsesS, LaidB, LaidS, FitsB, FitsS, OutletsOk, AllHoles,
           Matches, Steady, OutletsOf, EnterLoop, Looped, AddLocals, Within, Has, Loose, NoOutlets;
      ghost var v0, o0, s0 := V(), O(), S();
      UntilSizes(c, body, v0.size, cx, skip);
      var start, exitJump := |code|, 0;
      ghost var v1, v2;
      ok, exitJump, v1, v2 := VisitUntilBody(c, body, cx, stop, skip);
      if !ok { return; }
      ghost var v3, o3 := V(), O();
      LoopOut(s0, [], start, start, S());
      ok := EndUntil(start, exitJump, v0.size + SizeS(Until(c, body), cx));
      if !ok { return; }
      UntilGrown(v0, o0, v1, v2, v3, o3, V(), c, body, cx, stop, skip);
      EndLoop(0);
    }

    method EndForever(start: nat, ghost end: nat) returns (ok: bool)
      requires Valid() && loops != [] && OutletsOk(V(), O(), end, Back(start)) && O().start == start <= |code|
      requires end == |code| + 3
      modifies this`code, this`asm, this`pending
      ensures ok <==> old(|code|) + 3 - start <= MAX_JUMP
      ensures ok ==> Valid() && V() == CloseAll(Put(old(V()), Loop(start)), O().exits)
    {
      hide Sound, OutletsOk, AllHoles, HolesOk, HoleSet;
      ghost var v0 := V();
      SoundTidy(code, constants, asm, pending);
      PutFacts(v0, Loop(start));
      HolesPending(v0, O(), end, Back(start));
      ok := EmitLoop(start);
      if !ok { return; }
      ExitsKept(v0, V(), O(), end, Back(start));
      ok := PatchAll(loops[|loops| - 1].exits, start, Jump(end));
    }

    method VisitForever(body: seq<Stmt>, ghost cx: Context, ghost stop: nat, ghost skip: Target) returns (ok: bool)
      requires Ready(cx, stop, skip)
      modifies this
      ensures ok <==> FitsS(Forever(body), old(|code|), cx, skip) && old(|constants|) + UsesS(Forever(body), cx) <= MAX_CONSTANTS
      ensures ok ==> Ready(cx, stop, skip) && S() == old(S())
      ensures ok ==> GrownS(old(V()), old(O()), V(), O(), Forever(body), cx, stop, skip)
      decreases Forever(body), 0
    {
      hide Sound, LaidE, SizeE, UsesE, FitsE, Test, SizeB, UsesB, SizeS, UsesS, LaidB, LaidS, FitsB, FitsS, OutletsOk, AllHoles,
           Matches, Steady, Loose, NoOutlets, OutletsOf, EnterLoop, Looped, AddLocals, Within, Has;
      ghost var v0, o0, s0 := V(), O(), S();
      ForeverSizes(body, v0.size, cx, skip);
      LoopVars(cx, [], []);
      var start := |code|;
      ghost var inner, end := EnterLoop(cx, [], []), v0.size + SizeS(Forever(body), cx);
      BeginLoop([], true, cx, stop, skip, end, Back(start));
      ok := VisitScope(body, [], inner, end, Back(start));
      if !ok { return; }
      ghost var v3, o3 := V(), O();
      LoopOut(s0, [], start, start, S());
      ok := EndForever(start, end);
      if !ok { return; }
      ForeverGrown(v0, o0, v3, o3, V(), body, cx, stop, skip);
      EndLoop(0);
    }

    method EndForIn(start: nat, ghost end: nat) returns (ok: bool)
      requires Valid() && loops != [] && OutletsOk(V(), O(), end, Back(start)) && O().start == start <= |code|
      requires start in Loose(V(), O()) && Has(asm, start, ForIter(end)) && end == |code| + 3
      modifies this`code, this`asm, this`pending
      ensures ok <==> old(|code|) + 3 - start <= MAX_JUMP
      ensures ok ==> Valid() && V() == IterTail(old(V()), start, O().exits)
    {
      hide Sound, OutletsOk, AllHoles, HolesOk, HoleSet;
      ghost var v0 := V();
      SoundTidy(code, constants, asm, pending);
      PutFacts(v0, Loop(start));
      ok := EmitBack(start, start + 1);
      if !ok { return; }
      ExitsOpen(v0, V(), O(), start, end, Back(start));
      ok := PatchAll(loops[|loops| - 1].exits, start, Jump(end));
      EmitPop();
    }

    /** The iterator, and the loop's exit test. */
    method BeginIter(ghost end: nat, ghost cx: Context, ghost stop: nat, ghost skip: Target) returns (start: nat)
      requires Ready(cx, stop, skip)
      modifies this`code, this`asm, this`pending, this`locals, this`loops
      ensures V() == IterHead(old(V()), end) && start == old(|code|) + 1 && |code| == start + 3
      ensures S() == Looped(old(S()), ["_iter"], start, start)
      ensures Ready(EnterLoop(cx, ["_iter"], []), end, Back(start)) && O() == NoOutlets(start)
      ensures start in Loose(V(), O()) && Has(asm, start, ForIter(end))
    {
      hide Sound, OutletsOk, AllHoles, Matches, OutletsOf, EnterLoop, Looped;
      ghost var v1 := V();
      SoundTidy(code, constants, asm, pending);
      IterHeadFacts(v1, end);
      EmitOp(OP_GET_ITER, GetIter);
      start := |code|;
      ReadyMore(v1, V(), O(), GetIter, stop, skip);
      BeginLoop(["_iter"], true, cx, stop, skip, end, Back(start));
      var exitJump := EmitJump(OP_FOR_ITER, ForIter(end));
      FreshOutlets(V(), start, end, Back(start));
    }

    /** What is iterated over, and the body of the loop. */
    method VisitIterBody(x: string, over: Expr, body: seq<Stmt>, ghost cx: Context, ghost stop: nat, ghost skip: Target)
        returns (ok: bool, start: nat, ghost v1: View, ghost v3: View)
      requires Ready(cx, stop, skip)
      modifies this
      ensures var inner := EnterLoop(cx, ["_iter"], [x]);
              var p1 := old(|code|) + SizeE(over);
              ok <==> FitsE(over) && FitsB(body, p1 + 4, inner, Back(p1 + 1))
                      && old(|constants|) + UsesE(over, cx.locals) + UsesB(body, inner) <= MAX_CONSTANTS
      ensures var inner := EnterLoop(cx, ["_iter"], [x]);
              var end := v1.size + 8 + SizeB(body, inner);
              ok ==> && GrownE(old(V()), v1, over, cx.locals) && Tidy(v1) && v3 == IterHead(v1, end) && start == v1.size + 1
                     && v3.size == start + 3 && v3.consts == v1.consts && loops != [] && O().start == start
                     && GrownScope(v3, NoOutlets(start), V(), O(), body, 1, inner, end, Back(start))
                     && OutletsOk(V(), O(), end, Back(start)) && start in Loose(V(), O()) && Has(asm, start, ForIter(end))
      ensures ok ==> Valid() && Steady(Looped(old(S()), ["_iter"], start, start), S())
      decreases body, 4
    {
      hide Sound, LaidE, SizeE, UsesE, FitsE, SizeB, UsesB, LaidB, FitsB, OutletsOk, AllHoles, IterHead,
           Matches, Steady, OutletsOf, EnterLoop, Looped, AddLocals, Within, Has, Loose, NoOutlets;
      LoopVars(cx, ["_iter"], [x]);
      ghost var s0 := S();
      start := 0;
      ok := VisitOperand(over, cx, stop, skip);
      v1, v3 := V(), V();
      if !ok { return; }
      ghost var end := v1.size + 8 + SizeB(body, EnterLoop(cx, ["_iter"], [x]));
      start := BeginIter(end, cx, stop, skip);
      v3 := V();
      ok := VisitScope(body, [x], EnterLoop(cx, ["_iter"], []), end, Back(start));
      IterHeadSize(v1, end);
      if !ok { return; }
      OpenSurvives(v3, NoOutlets(start), V(), O(), start, ForIter(end));
      LoopOut(s0, ["_iter"], start, start, S());
    }

    method VisitForIn(x: string, over: Expr, body: seq<Stmt>, ghost cx: Context, ghost stop: nat, ghost skip: Target) returns (ok: bool)
      requires Ready(cx, stop, skip)
      modifies this
      ensures ok <==> FitsS(ForIn(x, over, body), old(|code|), cx, skip)
                      && old(|constants|) + UsesS(ForIn(x, over, body), cx) <= MAX_CONSTANTS
      ensures ok ==> Ready(cx, stop, skip) && S() == old(S())
      ensures ok ==> GrownS(old(V()), old(O()), V(), O(), ForIn(x, over, body), cx, stop, skip)
      decreases ForIn(x, over, body), 0
    {
      hide Sound, LaidE, SizeE, UsesE, FitsE, SizeB, UsesB, SizeS, UsesS, LaidB, LaidS, FitsB, FitsS, OutletsOk, AllHoles,
           Matches, Steady, OutletsOf, EnterLoop, Looped, Within, Has, Loose, NoOutlets, IterHead, IterTail;
      ghost var v0, o0, s0 := V(), O(), S();
      ForInSizes(x, over, body, v0.size, cx, skip);
      var start; ghost var v1, v3;
      ok, start, v1, v3 := VisitIterBody(x, over, body, cx, stop, skip);
      if !ok { return; }
      ghost var v4, o4 := V(), O();
      LoopOut(s0, ["_iter"], start, start, S());
      ok := EndForIn(start, v1.size + 8 + SizeB(body, EnterLoop(cx, ["_iter"], [x])));
      if !ok { return; }
      IterTailSize(v4, start, o4.exits);
      ForInGrown(v0, o0, v1, v3, v4, o4, V(), x, over, body, cx, stop, skip);
      EndLoop(1);
    }

    /** The zero index of a counted loop, above its count; the loop starts after it. */
    method BeginCount(ghost reach: nat, ghost cx: Context, ghost stop: nat, ghost skip: Target) returns (ok: bool)
      requires Ready(cx, stop, skip)
      modifies this`code, this`constants, this`asm, this`locals, this`loops
      ensures ok <==> old(|constants|) + 1 <= MAX_CONSTANTS
      ensures ok ==> V() == Put(old(V()), Const(VNum(0.0))).(consts := old(|constants|) + 1)
      ensures ok ==> S() == Looped(old(S()), ["", ""], |code|, -1) && O() == NoOutlets(|code|)
      ensures ok ==> Ready(EnterLoop(cx, ["", ""], []), |code| + reach + 15, Fwd(|code| + reach))
      ensures ok ==> |code| == old(|code|) + 3 && |constants| == old(|constants|) + 1
    {
      hide Sound, OutletsOk, AllHoles, Matches, OutletsOf, EnterLoop, Looped;
      ghost var v1 := V();
      SoundTidy(code, constants, asm, pending);
      ok := EmitConstant(OP_CONSTANT, VNum(0.0), Const(VNum(0.0)));
      if !ok { return; }
      ConstReady(v1, V(), O(), stop, skip);
      BeginLoop(["", ""], false, cx, stop, skip, |code| + reach + 15, Fwd(|code| + reach));
    }

    /** The test of a counted loop, on its two innermost slots. */
    method EmitCountTest(ghost n: nat, ghost t: nat, ghost stop: nat, ghost skip: Target) returns (exitJump: nat)
      requires Valid() && |locals| == n + 2 && OutletsOk(V(), O(), stop, skip)
      modifies this`code, this`asm, this`pending
      ensures Valid() && V() == CountHead(old(V()), n, t) && exitJump == old(|code|) + 8 && |code| == old(|code|) + 11
      ensures OutletsOk(V(), O(), stop, skip) && exitJump - 1 in Loose(V(), O()) && Has(asm, exitJump - 1, JumpIfFalse(t))
    {
      hide Sound, Test, OutletsOk, AllHoles, OutletsOf;
      ghost var v0 := V();
      SoundTidy(code, constants, asm, pending);
      var countSlot, idxSlot := |locals| - 2, |locals| - 1;
      EmitGetLocal(idxSlot);
      EmitGetLocal(countSlot);
      EmitOperate(Less);
      exitJump := EmitTest(t);
      AfterCountHead(v0, V(), O(), n, t, stop, skip);
    }

    /** One more on the index slot, and back to the test. */
    method EmitCountStep(ghost n: nat, start: nat) returns (ok: bool)
      requires Valid() && |locals| == n + 2 && start <= |code|
      modifies this`code, this`constants, this`asm
      ensures ok <==> old(|constants|) + 1 <= MAX_CONSTANTS && old(|code|) + 14 - start <= MAX_JUMP
      ensures ok ==> Valid() && V() == CountStep(old(V()), n, start)
    {
      hide Sound;
      var idxSlot := |locals| - 1;
      EmitGetLocal(idxSlot);
      ok := EmitConstant(OP_CONSTANT, VNum(1.0), Const(VNum(1.0)));
      if !ok { return; }
      EmitOperate(Add);
      EmitSetLocal(idxSlot);
      EmitPop();
      ok := EmitLoop(start);
    }

    /** The end of a counted loop: pop the condition, then the index and the count. */
    method EmitCountEnd(exitJump: nat, start: nat, ghost end: nat) returns (ok: bool)
      requires Valid() && loops != [] && exitJump > start && exitJump - 1 in pending && exitJump - 1 in asm
      requires IsForward(asm[exitJump - 1]) && Destination(asm[exitJump - 1]) == |code| && |code| <= start + MAX_JUMP
      requires HolesOk(V().(pending := pending - {exitJump - 1}), start, O().exits, Jump(|code| + 1))
      modifies this`code, this`asm, this`pending
      ensures ok && Valid() && V() == CountEnd(old(V()), exitJump - 1, O().exits)
    {
      hide Sound, HolesOk, HoleSet;
      ghost var v0 := V();
      SoundTidy(code, constants, asm, pending);
      ok := PatchJump(exitJump);
      ghost var v1 := V();
      SoundTidy(code, constants, asm, pending);
      PutFacts(v1, Instr.Pop);
      EmitPop();
      HolesKept(v1, V(), start, O().exits, Jump(v0.size + 1));
      ok := PatchAll(loops[|loops| - 1].exits, start, Jump(v0.size + 1));
      EmitPop();
      EmitPop();
    }

    /** Index, loop entry and test of a counted loop. */
    method BeginRepeat(ghost reach: nat, ghost cx: Context, ghost stop: nat, ghost skip: Target)
        returns (ok: bool, start: nat, exitJump: nat, ghost v2: View)
      requires Ready(cx, stop, skip)
      modifies this`code, this`constants, this`asm, this`pending, this`locals, this`loops
      ensures start == old(|code|) + 3 && exitJump == start + 8
      ensures ok <==> old(|constants|) + 1 <= MAX_CONSTANTS
      ensures ok ==> v2 == Put(old(V()), Const(VNum(0.0))).(consts := old(|constants|) + 1)
      ensures ok ==> V() == CountHead(v2, |cx.locals|, start + reach + 14)
      ensures ok ==> |code| == start + 11 && v2.size == start && |constants| == old(|constants|) + 1
      ensures ok ==> S() == Looped(old(S()), ["", ""], start, -1) && O() == NoOutlets(start)
      ensures ok ==> Ready(EnterLoop(cx, ["", ""], []), start + reach + 15, Fwd(start + reach))
      ensures ok ==> exitJump - 1 in Loose(V(), O()) && Has(asm, exitJump - 1, JumpIfFalse(start + reach + 14))
    {
      hide Sound, OutletsOk, AllHoles, Matches, OutletsOf, Looped, CountHead, Has;
      start, exitJump := |code| + 3, |code| + 11;
      MatchesNames(S(), cx, skip);
      ok := BeginCount(reach, cx, stop, skip);
      v2 := V();
      if !ok { return; }
      MatchesNames(S(), EnterLoop(cx, ["", ""], []), Fwd(start + reach));
      exitJump := EmitCountTest(|cx.locals|, start + reach + 14, start + reach + 15, Fwd(start + reach));
      CountHeadSize(v2, |cx.locals|, start + reach + 14);
    }

    method EndRepeat(ghost n: nat, start: nat, exitJump: nat) returns (ok: bool)
      requires Valid() && loops != [] && |locals| == n + 2 && OutletsOk(V(), O(), |code| + 15, Fwd(|code|))
      requires O().start == start <= |code| && exitJump > start && exitJump - 1 in Loose(V(), O())
      requires exitJump - 1 in asm && asm[exitJump - 1] == JumpIfFalse(|code| + 14)
      modifies this`code, this`constants, this`asm, this`pending
      ensures ok <==> old(|constants|) + 1 <= MAX_CONSTANTS && old(|code|) + 14 - start <= MAX_JUMP
      ensures ok ==> Valid()
      ensures ok ==> V() == CountEnd(CountStep(CloseAll(old(V()), O().continues), n, start), exitJump - 1, O().exits)
    {
      hide Sound, HolesOk, HoleSet, CountStep, CountEnd, Within, AllHoles;
      ghost var v0, o := V(), O();
      SoundTidy(code, constants, asm, pending);
      CountStepFacts(CloseAll(v0, o.continues), n, start);
      ok := PatchAll(loops[|loops| - 1].continues, start, Jump(v0.size));
      if !ok { return; }
      ok := EmitCountStep(n, start);
      if !ok { return; }
      ExitsAfter(v0, o, V(), exitJump - 1, v0.size + 15, v0.size);
      ok := EmitCountEnd(exitJump, start, v0.size + 15);
    }

    /** The count and the body of a counted loop. */
    method VisitCountBody(count: Expr, body: seq<Stmt>, ghost cx: Context, ghost stop: nat, ghost skip: Target)
        returns (ok: bool, start: nat, exitJump: nat, ghost v1: View, ghost v2: View, ghost v3: View)
      requires Ready(cx, stop, skip)
      modifies this
      ensures var inner := EnterLoop(cx, ["", ""], []);
              var p1 := old(|code|) + SizeE(count);
              ok <==> FitsE(count) && FitsB(body, p1 + 14, inner, Fwd(p1 + 14 + SizeB(body, inner)))
                      && old(|constants|) + UsesE(count, cx.locals) + 1 + UsesB(body, inner) <= MAX_CONSTANTS
      ensures var inner := EnterLoop(cx, ["", ""], []);
              var p2 := start + 11 + SizeB(body, inner);
              ok ==> && GrownE(old(V()), v1, count, cx.locals) && Tidy(v1) && start == v1.size + 3 == v2.size
                     && v2 == Put(v1, Const(VNum(0.0))).(consts := v1.consts + 1) && v3 == CountHead(v2, |cx.locals|, p2 + 14)
                     && v3.size == start + 11 && v3.consts == v2.consts && loops != [] && O().start == start
                     && GrownScope(v3, NoOutlets(start), V(), O(), body, 0, inner, p2 + 15, Fwd(p2))
                     && OutletsOk(V(), O(), p2 + 15, Fwd(p2))
                     && exitJump == start + 8 && exitJump - 1 in Loose(V(), O())
                     && exitJump - 1 in asm && asm[exitJump - 1] == JumpIfFalse(p2 + 14)
      ensures ok ==> Valid() && Steady(Looped(old(S()), ["", ""], start, -1), S()) && |locals| == |cx.locals| + 2
      decreases body, 4
    {
      hide Sound, LaidE, SizeE, UsesE, FitsE, SizeB, UsesB, LaidB, FitsB, OutletsOk, AllHoles, CountHead,
           Matches, Steady, OutletsOf, EnterLoop, Looped, AddLocals, Within, Has, Loose, NoOutlets;
      LoopVars(cx, ["", ""], []);
      ghost var s0, inner := S(), EnterLoop(cx, ["", ""], []);
      ghost var reach := 11 + SizeB(body, inner);
      start, exitJump := 0, 0;
      MatchesNames(S(), cx, skip);
      ok := VisitOperand(count, cx, stop, skip);
      v1, v2, v3 := V(), V(), V();
      if !ok { return; }
      ok, start, exitJump, v2 := BeginRepeat(reach, cx, stop, skip);
      v3 := V();
      if !ok { return; }
      ok := VisitScope(body, [], inner, start + reach + 15, Fwd(start + reach));
      if !ok { return; }
      OpenSurvives(v3, NoOutlets(start), V(), O(), exitJump - 1, JumpIfFalse(start + reach + 14));
      LoopOut(s0, ["", ""], start, -1, S());
    }

    method VisitRepeat(count: Expr, body: seq<Stmt>, ghost cx: Context, ghost stop: nat, ghost skip: Target) returns (ok: bool)
      requires Ready(cx, stop, skip)
      modifies this
      ensures ok <==> FitsS(Repeat(count, body), old(|code|), cx, skip)
                      && old(|constants|) + UsesS(Repeat(count, body), cx) <= MAX_CONSTANTS
      ensures ok ==> Ready(cx, stop, skip) && S() == old(S())
      ensures ok ==> GrownS(old(V()), old(O()), V(), O(), Repeat(count, body), cx, stop, skip)
      decreases Repeat(count, body), 0
    {
      hide Sound, LaidE, SizeE, UsesE, FitsE, SizeB, UsesB, SizeS, UsesS, LaidB, LaidS, FitsB, FitsS, OutletsOk, AllHoles,
           Matches, Steady, OutletsOf, EnterLoop, Looped, Within, Has, Loose, NoOutlets, CountHead, CountStep, CountEnd;
      ghost var v0, o0, s0 := V(), O(), S();
      RepeatSizes(count, body, v0.size, cx, skip);
      var start, exitJump; ghost var v1, v2, v3;
      ok, start, exitJump, v1, v2, v3 := VisitCountBody(count, body, cx, stop, skip);
      if !ok { return; }
      ghost var v4, o4 := V(), O();
      LoopOut(s0, ["", ""], start, -1, S());
      ok := EndRepeat(|cx.locals|, start, exitJump);
      if !ok { return; }
      RepeatGrown(v0, o0, v1, v2, v3, v4, o4, CountStep(CloseAll(v4, o4.continues), |cx.locals|, start), V(), count, body, cx, stop, skip);
      EndLoop(2);
    }

    // ---- stop and skip ----

    /** Drops the locals above the given scope depth, which stay declared. */
    method EmitLoopExits(depth: nat, ghost n: nat)
      requires Valid() && n <= |locals| && forall i | 0 <= i < |locals| :: locals[i].depth > depth <==> i >= n
      modifies this`code, this`asm
      ensures Valid() && V() == Many(old(V()), |locals| - n, Instr.Pop)
    {
      hide Sound;
      var i := |locals| - 1;
      while i >= 0 && locals[i].depth > depth
        invariant n - 1 <= i < |locals|
        invariant Valid() && V() == Many(old(V()), |locals| - 1 - i, Instr.Pop)
      {
        EmitPop();
        i := i - 1;
      }
    }

    method EmitCleanup(ghost cx: Context, ghost skip: Target)
      requires Valid() && loops != [] && Matches(S(), cx, skip)
      modifies this`code, this`asm
      ensures Valid() && V() == Leave(old(V()), cx)
    {
      hide Sound;
      var triesToPop := tryDepth - loops[|loops| - 1].tryDepth;
      var i := 0;
      while i < triesToPop
        invariant 0 <= i <= triesToPop && Valid() && V() == Many(old(V()), i, EndTry)
      {
        EmitOp(OP_END_TRY, EndTry);
        i := i + 1;
      }
      EmitLoopExits(loops[|loops| - 1].depth, cx.loopLocals);
    }

    method VisitStop(ghost cx: Context, ghost stop: nat, ghost skip: Target) returns (ok: bool)
      requires Ready(cx, stop, skip)
      modifies this`code, this`asm, this`pending, this`loops
      ensures ok <==> FitsS(Stmt.Stop, old(|code|), cx, skip)
      ensures UsesS(Stmt.Stop, cx) == 0
      ensures ok ==> Ready(cx, stop, skip) && Steady(old(S()), S()) && GrownS(old(V()), old(O()), V(), O(), Stmt.Stop, cx, stop, skip)
    {
      hide Sound, OutletsOk, AllHoles, SizeS, UsesS, LaidS, FitsS, Leave;
      ghost var v0, o0, s0 := V(), O(), S();
      StopSizes(Stmt.Stop, v0.size, cx, skip);
      if loops == [] { return false; }
      SoundTidy(code, constants, asm, pending);
      EmitCleanup(cx, skip);
      ghost var v1 := V();
      LeaveSize(v0, cx);
      var offset := EmitJump(OP_JUMP, Jump(stop));
      var n := |loops| - 1;
      loops := loops[..n] + [loops[n].(exits := loops[n].exits + [offset])];
      ExitAdded(s0, S(), offset);
      SteadyMatches(s0, S(), cx, skip);
      StopGrown(v0, o0, v1, V(), cx, stop, skip);
      ok := true;
    }

    method VisitSkip(ghost cx: Context, ghost stop: nat, ghost skip: Target) returns (ok: bool)
      requires Ready(cx, stop, skip)
      modifies this`code, this`asm, this`pending, this`loops
      ensures ok <==> FitsS(Stmt.Skip, old(|code|), cx, skip)
      ensures UsesS(Stmt.Skip, cx) == 0
      ensures ok ==> Ready(cx, stop, skip) && Steady(old(S()), S()) && GrownS(old(V()), old(O()), V(), O(), Stmt.Skip, cx, stop, skip)
    {
      hide Sound, OutletsOk, AllHoles, SizeS, UsesS, LaidS, FitsS, Leave;
      ghost var v0, o0, s0 := V(), O(), S();
      StopSizes(Stmt.Skip, v0.size, cx, skip);
      if loops == [] { return false; }
      SoundTidy(code, constants, asm, pending);
      EmitCleanup(cx, skip);
      ghost var v1 := V();
      LeaveSize(v0, cx);
      var n := |loops| - 1;
      if loops[n].target != -1 {
        ok := EmitLoop(loops[n].target);
        if !ok { return; }
        SkipBackGrown(v0, o0, v1, V(), cx, stop, skip);
        SteadySame(s0);
      } else {
        var offset := EmitJump(OP_JUMP, Jump(skip.t));
        loops := loops[..n] + [loops[n].(continues := loops[n].continues + [offset])];
        ContinueAdded(s0, S(), offset);
        SteadyMatches(s0, S(), cx, skip);
        SkipFwdGrown(v0, o0, v1, V(), cx, stop, skip);
        ok := true;
      }
    }

    // ---- All statements ----

    method VisitStmt(s: Stmt, ghost cx: Context, ghost stop: nat, ghost skip: Target) returns (ok: bool)
      requires Ready(cx, stop, skip)
      modifies this
      ensures ok <==> FitsS(s, old(|code|), cx, skip) && old(|constants|) + UsesS(s, cx) <= MAX_CONSTANTS
      ensures ok ==> Ready(cx, stop, skip) && Steady(old(S()), S()) && GrownS(old(V()), old(O()), V(), O(), s, cx, stop, skip)
      decreases s, 1
    {
      hide Sound, UsesS, FitsS, GrownS, Matches, OutletsOk, OutletsOf, Steady, One;
      SteadySame(S());
      match s {
        case ExprStmt(e) => ok := VisitExprStmt(e, cx, stop, skip);
        case Assign(xs, e) => ok := VisitAssign(xs, e, cx, stop, skip);
        case Print(e) =>
          PrintOps(e);
          ok := VisitSimple(s, e, OP_PRINT, Output, cx, stop, skip);
        case Throw(e) =>
          PrintOps(e);
          ok := VisitSimple(s, e, OP_THROW, Raise, cx, stop, skip);
        case If(c, thn, els) => ok := VisitIf(c, thn, els, cx, stop, skip);
        case Unless(c, body) => ok := VisitUnless(c, body, cx, stop, skip);
        case While(c, body) => ok := VisitWhile(c, body, cx, stop, skip);
        case Until(c, body) => ok := VisitUntil(c, body, cx, stop, skip);
        case Forever(body) => ok := VisitForever(body, cx, stop, skip);
        case Repeat(count, body) => ok := VisitRepeat(count, body, cx, stop, skip);
        case ForIn(x, over, body) => ok := VisitForIn(x, over, body, cx, stop, skip);
        case Stop => ok := VisitStop(cx, stop, skip);
        case Skip => ok := VisitSkip(cx, stop, skip);
        case Try(body, x, handler) => ok := VisitTry(body, x, handler, cx, stop, skip);
        case Pass =>
          PassGrown(V(), O(), cx, |code|, stop, skip);
          ok := true;
      }
    }

    /** Compiles a script: its statements, then null and return. */
    method Compile(b: seq<Stmt>) returns (ok: bool)
      requires code == [] && constants == [] && asm == map[] && pending == {}
      requires locals == [Local("", 0)] && scopeDepth == 0 && tryDepth == 0 && loops == []
      modifies this
      ensures ok <==> Compiles(b)
      ensures ok ==> LayoutScript(Disassemble(code, constants), b) && |code| == SizeB(b, ScriptContext) + 2
    {
      hide Sound, LayoutS, LayoutB, SizeB, UsesB, FitsB, OutletsOk, One, Disassemble, LaidB;
      FreshOutlets(V(), 0, 0, Fwd(0));
      EmptySound();
      ok := VisitBlock(b, ScriptContext, 0, Fwd(0));
      if !ok { return; }
      ghost var v1 := V();
      SoundTidy(code, constants, asm, pending);
      EmitOp(OP_NULL, PushNull);
      EmitOp(OP_RETURN, Instr.Return);
      ScriptLaid(v1, V(), b);
      AllDecoded(code, constants, asm, pending);
    }
  }
}
