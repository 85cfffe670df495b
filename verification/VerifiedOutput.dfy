/** The verifier accepts what the compiler emits. */
module VerifiedOutput {
  import opened Bytes
  import opened Values
  import opened Language
  import opened CodeGen
  import opened Machine
  import opened Bytecode
  import opened Sealing
  import CV = ChunkVerify
  import M = Machine

  /** A script's constants are numbers and strings. */
  function Entries(constants: seq<Value>): seq<CV.Entry> { seq(|constants|, _ => CV.Plain) }

  /** A decoded instruction on few slots passes the first check, with its own length. */
  lemma DecodedPasses(code: seq<byte>, constants: seq<Value>, p: nat, i: Instr)
    requires Decode(code, constants, p) == Some(i) && Slotted(i, CV.MAX_SLOTS)
    ensures CV.Next(code, Entries(constants), p) == Some(p + Len(i))
  {
    DecodeLength(code, constants, p, i);
    OperandsInRange(code, constants, p, i);
  }

  lemma OperandsInRange(code: seq<byte>, constants: seq<Value>, p: nat, i: Instr)
    requires Decode(code, constants, p) == Some(i)
    ensures CV.NamesConstant(code[p]) ==> Short(code, p + 1) < |constants|
    ensures CV.NamesSlot(code[p]) ==> (i.GetLocal? && i.slot == Short(code, p + 1)) || (i.SetLocal? && i.slot == Short(code, p + 1))
  {}

  /** Every instruction on the way from p to x is one, on few slots. */
  predicate Passable(l: Listing, p: nat, x: nat) {
    Walks(l, p, x) && forall y | p <= y < x && Walks(l, p, y) :: y in l && Slotted(l[y], CV.MAX_SLOTS)
  }

  lemma PassableStep(l: Listing, p: nat, x: nat)
    requires Passable(l, p, x) && p != x
    ensures p in l && Slotted(l[p], CV.MAX_SLOTS) && p + Len(l[p]) <= x && Passable(l, p + Len(l[p]), x)
  {
    assert Walks(l, p, p);
    var next := p + Len(l[p]);
    assert Walks(l, next, x);
    forall y | next <= y < x && Walks(l, next, y) ensures y in l && Slotted(l[y], CV.MAX_SLOTS) { assert Walks(l, p, y); }
  }

  lemma {:induction false} WalksReach(code: seq<byte>, constants: seq<Value>, p: nat, x: nat)
    requires Passable(Disassemble(code, constants), p, x)
    ensures CV.Reaches(code, Entries(constants), p, x)
    decreases x - p
  {
    hide CV.Next, Decode, Slotted, Walks, Passable;
    if p != x {
      var l := Disassemble(code, constants);
      PassableStep(l, p, x);
      DecodedPasses(code, constants, p, l[p]);
      WalksReach(code, constants, p + Len(l[p]), x);
    }
  }

  lemma {:induction false} ReachesWalk(code: seq<byte>, constants: seq<Value>, p: nat, x: nat, end: nat)
    requires Passable(Disassemble(code, constants), p, end)
    requires CV.Reaches(code, Entries(constants), p, x) && x <= end
    ensures Walks(Disassemble(code, constants), p, x)
    decreases x - p
  {
    hide CV.Next, Decode, Slotted, Passable;
    if p != x {
      var l := Disassemble(code, constants);
      PassableStep(l, p, end);
      DecodedPasses(code, constants, p, l[p]);
      ReachesWalk(code, constants, p + Len(l[p]), x, end);
    }
  }

  /** The jump of a sealed script at p lands as the verifier wants. */
  lemma SealedLands(code: seq<byte>, constants: seq<Value>, end: nat, p: nat)
    requires Sealed(Disassemble(code, constants), CV.MAX_SLOTS, {}, 0, end) && end <= |code|
    requires p < end && Walks(Disassemble(code, constants), 0, p) && end < |code|
    ensures CV.JumpLands(code, Entries(constants), p)
  {
    hide CV.Next, Decode, Sealed, Walks, Disassemble, CV.JumpsForward, Short, Slotted, Passable, Entries;
    var l := Disassemble(code, constants);
    SealedAt(l, end, p);
    ListedAt(code, constants, p);
    JumpOperand(code, constants, p, l[p]);
    if IsJump(l[p]) {
      PrefixSealed(l, end, l[p].target);
      WalksReach(code, constants, 0, l[p].target);
    }
  }

  lemma SealedAt(l: Listing, end: nat, p: nat)
    requires Sealed(l, CV.MAX_SLOTS, {}, 0, end) && p < end && Walks(l, 0, p)
    ensures p in l && (IsJump(l[p]) ==> l[p].target <= end && Walks(l, 0, l[p].target))
  {}

  lemma ListedAt(code: seq<byte>, constants: seq<Value>, p: nat)
    requires p in Disassemble(code, constants)
    ensures Decode(code, constants, p) == Some(Disassemble(code, constants)[p])
  {
    hide Decode;
  }

  lemma PrefixSealed(l: Listing, end: nat, x: nat)
    requires Sealed(l, CV.MAX_SLOTS, {}, 0, end) && x <= end && Walks(l, 0, x)
    ensures Passable(l, 0, x)
  {}

  lemma JumpOperand(code: seq<byte>, constants: seq<Value>, p: nat, i: Instr)
    requires Decode(code, constants, p) == Some(i)
    ensures CV.JumpsForward(code[p]) ==> IsJump(i) && p + 3 <= |code| && i.target == p + 3 + Short(code, p + 1)
    ensures code[p] == OP_LOOP ==> IsJump(i) && p + 3 <= |code| && Short(code, p + 1) <= p + 3 && i.target == p + 3 - Short(code, p + 1)
  {}

  /** A sealed run of code, then null and return, up to the end. */
  ghost predicate Whole(code: seq<byte>, constants: seq<Value>, end: nat) {
    && end + 2 == |code| && Sealed(Disassemble(code, constants), CV.MAX_SLOTS, {}, 0, end)
    && Decode(code, constants, end) == Some(PushNull) && Decode(code, constants, end + 1) == Some(Instr.Return)
  }

  lemma ScriptWhole(code: seq<byte>, constants: seq<Value>, b: seq<Stmt>)
    requires LayoutScript(Disassemble(code, constants), b) && |code| == SizeB(b, ScriptContext) + 2
    requires DepthB(b, ScriptContext) <= CV.MAX_SLOTS
    ensures Whole(code, constants, SizeB(b, ScriptContext))
  {
    hide LayoutScript, DepthB, SizeB, Sealed, Decode;
    SealScript(Disassemble(code, constants), b, CV.MAX_SLOTS);
  }

  lemma WholeEnds(code: seq<byte>, constants: seq<Value>, end: nat)
    requires Whole(code, constants, end)
    ensures CV.Boundary(code, Entries(constants), |code|) && code[end + 1] == OP_RETURN
  {
    hide CV.Next, CV.Reaches, Decode, Sealed, Walks;
    var l := Disassemble(code, constants);
    LastBytes(code, constants, end);
    SealedWalks(l, CV.MAX_SLOTS, {}, 0, end);
    PrefixSealed(l, end, end);
    WalksReach(code, constants, 0, end);
    DecodedPasses(code, constants, end, PushNull);
    CV.BoundaryStep(code, Entries(constants), end);
    DecodedPasses(code, constants, end + 1, Instr.Return);
    CV.BoundaryStep(code, Entries(constants), end + 1);
  }

  lemma WholeLands(code: seq<byte>, constants: seq<Value>, end: nat, p: nat)
    requires Whole(code, constants, end) && p < |code| && CV.Boundary(code, Entries(constants), p)
    ensures CV.JumpLands(code, Entries(constants), p)
  {
    hide CV.JumpLands, CV.Next, Decode;
    var l := Disassemble(code, constants);
    if p < end {
      SealedWalks(l, CV.MAX_SLOTS, {}, 0, end);
      PrefixSealed(l, end, end);
      ReachesWalk(code, constants, 0, p, end);
      SealedLands(code, constants, end, p);
    } else {
      LastLand(code, constants, p, if p == end then PushNull else Instr.Return);
    }
  }

  lemma WholeClosed(code: seq<byte>, constants: seq<Value>, end: nat, p: nat)
    requires Whole(code, constants, end) && p < |code| && CV.Boundary(code, Entries(constants), p)
    requires CV.Next(code, Entries(constants), p) == Some(|code|)
    ensures p == end + 1
  {
    hide CV.Next, Decode;
    var l := Disassemble(code, constants);
    SealedWalks(l, CV.MAX_SLOTS, {}, 0, end);
    PrefixSealed(l, end, end);
    WalksReach(code, constants, 0, end);
    DecodedPasses(code, constants, end, PushNull);
    CV.BoundaryStep(code, Entries(constants), end);
    if p < end + 1 { CV.BoundaryStep(code, Entries(constants), p); }
  }

  /** The verifier accepts every compiled script that never names more than 1024 slots at
      once, and control cannot fall off its end. */
  lemma CompiledCodeIsAccepted(code: seq<byte>, constants: seq<Value>, b: seq<Stmt>)
    requires LayoutScript(Disassemble(code, constants), b) && |code| == SizeB(b, ScriptContext) + 2
    requires DepthB(b, ScriptContext) <= CV.MAX_SLOTS
    ensures CV.Accepts(code, Entries(constants)) && CV.EndsClosed(code, Entries(constants))
  {
    hide LayoutScript, DepthB, SizeB, Whole, CV.Boundary, CV.Next, CV.JumpLands, Sealed, Decode;
    var end, entries := SizeB(b, ScriptContext), Entries(constants);
    ScriptWhole(code, constants, b);
    WholeEnds(code, constants, end);
    forall p | 0 <= p < |code| && CV.Boundary(code, entries, p) ensures CV.JumpLands(code, entries, p) {
      WholeLands(code, constants, end, p);
    }
    forall p | 0 <= p < |code| && CV.Boundary(code, entries, p) ensures !CV.OpenEnd(code, entries, p) {
      if CV.Next(code, entries, p) == Some(|code|) { WholeClosed(code, constants, end, p); }
    }
  }

  lemma LastBytes(code: seq<byte>, constants: seq<Value>, end: nat)
    requires end + 2 == |code| && Decode(code, constants, end) == Some(PushNull) && Decode(code, constants, end + 1) == Some(Instr.Return)
    ensures code[end + 1] == OP_RETURN
  {}

  lemma LastLand(code: seq<byte>, constants: seq<Value>, p: nat, i: Instr)
    requires Decode(code, constants, p) == Some(i) && (i == PushNull || i == Instr.Return)
    ensures CV.JumpLands(code, Entries(constants), p)
  {
    hide CV.Boundary;
  }

  // ---- The machine on an accepted chunk ----

  /** The machine, unless it halted or is about to unwind, stands at an instruction, and so
      does every open handler. */
  predicate OnBoundaries(code: seq<byte>, entries: seq<CV.Entry>, c: Config) {
    && (c.status == Running && c.err.None? ==> c.pc < |code| && CV.Boundary(code, entries, c.pc))
    && forall t | t in c.tries :: t.catch < |code| && CV.Boundary(code, entries, t.catch)
  }

  /** The verifier's reading of the constants agrees with the machine's. */
  lemma DecodedNext(code: seq<byte>, constants: seq<Value>, p: nat, i: Instr)
    requires Decode(code, constants, p) == Some(i) && CV.Next(code, Entries(constants), p).Some?
    ensures CV.Next(code, Entries(constants), p) == Some(p + Len(i))
  {}

  /** Control can go on to the next instruction. */
  predicate Passes(i: Instr) { i != Instr.Return && i != Raise && !i.Jump? && !i.Loop? }

  /** Where an instruction can leave the machine: at the next one or at its target. */
  lemma PerformMoves(i: Instr, show: Show, c: Config)
    ensures var d := Perform(i, show, c);
            && (d.status == Running && d.err.None? ==>
                  (d.pc == c.pc + Len(i) && Passes(i)) || (IsJump(i) && d.pc == i.target))
            && forall t | t in d.tries :: t in c.tries || (IsJump(i) && t.catch == i.target)
  {
    hide Binary, Unary, Items, Truthy;
  }

  /** A pending error leaves the machine at a handler. */
  lemma UnwindMoves(c: Config)
    requires c.err.Some?
    ensures var d := M.Unwind(c);
            && (d.status == Running && d.err.None? ==> exists t :: t in c.tries && d.pc == t.catch)
            && forall t | t in d.tries :: t in c.tries
  {}

  lemma StepStays(code: seq<byte>, constants: seq<Value>, show: Show, c: Config)
    requires CV.Accepts(code, Entries(constants)) && CV.EndsClosed(code, Entries(constants))
    requires OnBoundaries(code, Entries(constants), c)
    ensures OnBoundaries(code, Entries(constants), M.Step(M.Machine(Disassemble(code, constants), show), c))
  {
    hide CV.Next, CV.JumpLands, CV.Boundary, Decode, Perform, M.Unwind, CV.EndsClosed, IsJump, Disassemble;
    var entries, l := Entries(constants), Disassemble(code, constants);
    if c.err.Some? { UnwindMoves(c); }
    if c.pc in l && c.err.None? && c.status == Running {
      var i := l[c.pc];
      ListedAt(code, constants, c.pc);
      CV.BoundaryInside(code, entries, c.pc);
      DecodedNext(code, constants, c.pc, i);
      CV.BoundaryStep(code, entries, c.pc);
      assert CV.JumpLands(code, entries, c.pc);
      if IsJump(i) { TargetLands(code, constants, c.pc, i); }
      ClosedNext(code, constants, c.pc, i);
      PerformMoves(i, show, c);
    }
  }

  lemma TargetLands(code: seq<byte>, constants: seq<Value>, p: nat, i: Instr)
    requires Decode(code, constants, p) == Some(i) && CV.JumpLands(code, Entries(constants), p) && IsJump(i)
    ensures i.target < |code| && CV.Boundary(code, Entries(constants), i.target)
  {
    hide CV.Boundary;
  }

  lemma ClosedNext(code: seq<byte>, constants: seq<Value>, p: nat, i: Instr)
    requires Decode(code, constants, p) == Some(i) && CV.EndsClosed(code, Entries(constants))
    requires CV.Boundary(code, Entries(constants), p) && CV.Next(code, Entries(constants), p) == Some(p + Len(i))
    ensures p + Len(i) == |code| ==> !Passes(i)
  {
    DecodeLength(code, constants, p, i);
    hide CV.Boundary, CV.Next;
  }

  /** On an accepted chunk that does not fall off its end, the machine only ever stands at
      instruction boundaries inside the code. */
  lemma {:induction false} AcceptedChunkRunsOnBoundaries(code: seq<byte>, constants: seq<Value>, show: Show, c: Config, n: nat)
    requires CV.Accepts(code, Entries(constants)) && CV.EndsClosed(code, Entries(constants))
    requires OnBoundaries(code, Entries(constants), c)
    ensures OnBoundaries(code, Entries(constants), Run(M.Machine(Disassemble(code, constants), show), c, n))
    decreases n
  {
    hide M.Step, CV.Accepts, CV.EndsClosed, OnBoundaries;
    if n > 0 {
      StepStays(code, constants, show, c);
      AcceptedChunkRunsOnBoundaries(code, constants, show, M.Step(M.Machine(Disassemble(code, constants), show), c), n - 1);
    }
  }
}
