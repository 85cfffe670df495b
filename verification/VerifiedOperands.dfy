/**
 * What acceptance by the bytecode verifier means for operands: which chunks are accepted, said of their
 * bytes alone, and what holds wherever control gets to in one.
 */
module VerifiedOperands {
  import opened Bytes
  import opened Values
  import opened Bytecode
  import opened ChunkVerify
  import Machine
  import VO = VerifiedOutput

  // ---- Legal instructions ----

  /** The two bytes behind the opcode, high byte first. */
  function Operand(code: seq<byte>, p: nat): nat
    requires p + 2 < |code|
  {
    (code[p + 1] as int) * 0x100 + code[p + 2] as int
  }

  const CONSTANT_USERS: set<byte> := {OP_CONSTANT, OP_GET_GLOBAL, OP_DEFINE_GLOBAL, OP_SET_GLOBAL, OP_GET_PROPERTY, OP_SET_PROPERTY,
                                      OP_CLASS, OP_METHOD, OP_PROPERTY, OP_GET_SELF_PROPERTY, OP_SET_SELF_PROPERTY}

  /** The instruction at p is whole, and what it names is there. */
  ghost predicate Legal(code: seq<byte>, entries: seq<Entry>, p: nat) {
    && p < |code| && code[p] <= OP_HALT
    && (code[p] in CONSTANT_USERS ==> p + 3 <= |code| && Operand(code, p) < |entries|)
    && (code[p] in {OP_GET_LOCAL, OP_SET_LOCAL} ==> p + 3 <= |code| && Operand(code, p) < 1024)
    && (code[p] in {OP_GET_UPVALUE, OP_SET_UPVALUE, OP_JUMP, OP_JUMP_IF_FALSE, OP_LOOP, OP_TRY, OP_FOR_ITER} ==> p + 3 <= |code|)
    && (code[p] == OP_INVOKE ==> p + 4 <= |code| && Operand(code, p) < |entries|)
    && (code[p] == OP_CLOSURE ==>
          && p + 3 <= |code| && Operand(code, p) < |entries| && entries[Operand(code, p)].Function?
          && p + 3 + 3 * entries[Operand(code, p)].upvalues <= |code|)
    && (code[p] in {OP_CALL, OP_NATIVE_CALL, OP_LIST, OP_DICT, OP_LIST_APPEND, OP_SET_DEFAULTS, OP_CALL_PARENT_INIT, OP_SPAWN} ==> p + 2 <= |code|)
  }

  /** The instruction at p takes its opcode and the bytes that the dispatch loop reads behind it, up to q. */
  ghost predicate Spans(code: seq<byte>, entries: seq<Entry>, p: nat, q: nat) {
    p < |code| && OperandBytes(code, entries, p) == Some(q - p - 1) && q <= |code| && p < q
  }

  lemma LegalIsNext(code: seq<byte>, entries: seq<Entry>, p: nat)
    ensures Next(code, entries, p).Some? <==> Legal(code, entries, p)
  {}

  lemma SpanIsNext(code: seq<byte>, entries: seq<Entry>, p: nat, q: nat)
    requires Legal(code, entries, p)
    ensures Spans(code, entries, p, q) <==> Next(code, entries, p) == Some(q)
  {
    LegalIsNext(code, entries, p);
    ReadsWhatIsChecked(code, entries, p);
    hide Legal, OperandBytes, Next;
  }

  // ---- Accepted chunks ----

  /** From place number i to the next there is one legal instruction. */
  ghost predicate CutAt(code: seq<byte>, entries: seq<Entry>, starts: seq<nat>, i: nat)
    requires i + 1 < |starts|
  {
    Legal(code, entries, starts[i]) && Spans(code, entries, starts[i], starts[i + 1])
  }

  /** The code from the first place to the last is cut into legal instructions. */
  ghost predicate Cut(code: seq<byte>, entries: seq<Entry>, starts: seq<nat>) {
    starts != [] && forall i | 0 <= i < |starts| - 1 :: CutAt(code, entries, starts, i)
  }

  /** The jump at p, if there is one, goes to one of the places. */
  ghost predicate GoesTo(code: seq<byte>, p: nat, starts: seq<nat>) {
    && (p + 2 < |code| && code[p] in {OP_JUMP, OP_JUMP_IF_FALSE, OP_TRY, OP_FOR_ITER} ==> p + 3 + Operand(code, p) in starts)
    && (p + 2 < |code| && code[p] == OP_LOOP ==> p + 3 - Operand(code, p) in starts)
  }

  /** Places where instructions start, and all jumps go from one of them to one of them. */
  ghost predicate Divides(code: seq<byte>, entries: seq<Entry>, starts: seq<nat>) {
    && starts != [] && starts[0] == 0 && Cut(code, entries, starts + [|code|])
    && forall i | 0 <= i < |starts| :: GoesTo(code, starts[i], starts)
  }

  lemma {:induction false} CutReaches(code: seq<byte>, entries: seq<Entry>, starts: seq<nat>, i: nat)
    requires Cut(code, entries, starts) && i < |starts|
    ensures Reaches(code, entries, starts[0], starts[i]) && starts[0] <= starts[i]
    decreases |starts|
  {
    hide Legal, OperandBytes, Next;
    if i > 0 {
      assert CutAt(code, entries, starts, 0);
      SpanIsNext(code, entries, starts[0], starts[1]);
      CutRest(code, entries, starts);
      CutReaches(code, entries, starts[1..], i - 1);
    }
  }

  lemma CutRest(code: seq<byte>, entries: seq<Entry>, starts: seq<nat>)
    requires Cut(code, entries, starts) && |starts| > 1
    ensures Cut(code, entries, starts[1..])
  {
    hide Legal, Spans;
    var rest := starts[1..];
    forall i | 0 <= i < |rest| - 1 ensures CutAt(code, entries, rest, i) { assert CutAt(code, entries, starts, i + 1); }
  }

  /** What decoding reaches before the end of the code is one of the starts. */
  lemma {:induction false} ReachedIsCut(code: seq<byte>, entries: seq<Entry>, starts: seq<nat>, x: nat)
    requires Cut(code, entries, starts) && Reaches(code, entries, starts[0], x) && x <= starts[|starts| - 1]
    ensures x in starts
    decreases |starts|
  {
    hide Legal, OperandBytes, Next;
    if x != starts[0] {
      CutReaches(code, entries, starts, |starts| - 1);
      assert |starts| > 1;
      assert CutAt(code, entries, starts, 0);
      SpanIsNext(code, entries, starts[0], starts[1]);
      CutRest(code, entries, starts);
      ReachedIsCut(code, entries, starts[1..], x);
    }
  }

  /** The places decoding goes through on its way from p to x. */
  lemma {:induction false} ReachesCut(code: seq<byte>, entries: seq<Entry>, p: nat, x: nat) returns (starts: seq<nat>)
    requires Reaches(code, entries, p, x)
    ensures Cut(code, entries, starts) && starts[0] == p && starts[|starts| - 1] == x
    ensures forall i | 0 <= i < |starts| :: Reaches(code, entries, p, starts[i]) && starts[i] <= x
    decreases x - p
  {
    hide Legal, OperandBytes, Next;
    if p == x {
      starts := [p];
    } else {
      var q := Next(code, entries, p).value;
      var rest := ReachesCut(code, entries, q, x);
      LegalIsNext(code, entries, p);
      SpanIsNext(code, entries, p, q);
      starts := [p] + rest;
      CutMore(code, entries, p, rest);
      forall i | 0 <= i < |starts| ensures Reaches(code, entries, p, starts[i]) && starts[i] <= x {
        if i > 0 { assert starts[i] == rest[i - 1]; }
      }
    }
  }

  lemma CutMore(code: seq<byte>, entries: seq<Entry>, p: nat, rest: seq<nat>)
    requires Cut(code, entries, rest) && Legal(code, entries, p) && Spans(code, entries, p, rest[0])
    ensures Cut(code, entries, [p] + rest)
  {
    hide Legal, Spans;
    var starts := [p] + rest;
    forall i | 0 <= i < |starts| - 1 ensures CutAt(code, entries, starts, i) {
      if i > 0 { assert CutAt(code, entries, rest, i - 1); }
    }
  }

  lemma GoesToIsLands(code: seq<byte>, entries: seq<Entry>, starts: seq<nat>, p: nat)
    requires Legal(code, entries, p) && forall x: nat :: x in starts <==> x < |code| && Boundary(code, entries, x)
    ensures GoesTo(code, p, starts) <==> JumpLands(code, entries, p)
  {
    hide Boundary;
  }

  lemma StartsAreBoundaries(code: seq<byte>, entries: seq<Entry>, starts: seq<nat>)
    requires starts != [] && starts[0] == 0 && Cut(code, entries, starts + [|code|])
    ensures Boundary(code, entries, |code|) && forall x: nat :: x in starts <==> x < |code| && Boundary(code, entries, x)
  {
    hide Legal, Spans, Reaches;
    var cut := starts + [|code|];
    CutReaches(code, entries, cut, |starts|);
    forall x: nat ensures x in starts <==> x < |code| && Boundary(code, entries, x) {
      if x in starts {
        var i :| 0 <= i < |starts| && starts[i] == x;
        CutReaches(code, entries, cut, i);
        InsideCode(code, entries, cut, i);
      }
      if x < |code| && Boundary(code, entries, x) { ReachedIsCut(code, entries, cut, x); }
    }
  }

  lemma InsideCode(code: seq<byte>, entries: seq<Entry>, starts: seq<nat>, i: nat)
    requires Cut(code, entries, starts) && i + 1 < |starts|
    ensures starts[i] < |code| && Legal(code, entries, starts[i])
  {
    assert CutAt(code, entries, starts, i);
  }

  /**
   * The verifier accepts exactly the code that can be cut, from its first byte to its last, into whole
   * instructions whose constants, slots and functions exist, with all jumps between their starts.
   */
  lemma AcceptedExactly(code: seq<byte>, entries: seq<Entry>)
    ensures Accepts(code, entries) <==> exists starts: seq<nat> :: Divides(code, entries, starts)
  {
    hide Legal, Spans, JumpLands, Reaches, GoesTo;
    if Accepts(code, entries) {
      var cut := ReachesCut(code, entries, 0, |code|);
      var n := |cut| - 1;
      var starts := cut[..n];
      assert cut == starts + [|code|];
      assert n > 0;
      StartsAreBoundaries(code, entries, starts);
      forall i | 0 <= i < |starts| ensures GoesTo(code, starts[i], starts) {
        InsideCode(code, entries, cut, i);
        assert starts[i] in starts;
        GoesToIsLands(code, entries, starts, starts[i]);
      }
      assert Divides(code, entries, starts);
    }
    if starts: seq<nat> :| Divides(code, entries, starts) {
      StartsAreBoundaries(code, entries, starts);
      assert starts[0] in starts;
      forall p | 0 <= p < |code| && Boundary(code, entries, p) ensures JumpLands(code, entries, p) {
        var i :| 0 <= i < |starts| && starts[i] == p;
        InsideCode(code, entries, starts + [|code|], i);
        GoesToIsLands(code, entries, starts, p);
      }
    }
  }

  // ---- Where control gets to ----

  /** Wherever control gets to in an accepted chunk, the operands name what exists. */
  lemma OperandsAreLegal(code: seq<byte>, entries: seq<Entry>, path: seq<int>, i: nat)
    requires Accepts(code, entries) && Path(code, entries, path) && i < |path| && 0 <= path[i] < |code|
    ensures Legal(code, entries, path[i])
  {
    hide Legal, Flows, Accepts, JumpLands, Boundary, OpenEnd, Reaches, Next;
    OnTheWay(code, entries, path, i);
    BoundaryIs(code, entries, path[i]);
    LegalIsNext(code, entries, path[i]);
  }

  lemma BoundaryIs(code: seq<byte>, entries: seq<Entry>, x: nat)
    requires Accepts(code, entries) && Boundary(code, entries, x) && x < |code|
    ensures Next(code, entries, x).Some?
  {
    hide Next, Reaches;
    BoundaryInside(code, entries, x);
  }

  /** From an open end control leaves the code for good. */
  lemma {:induction false} OnTheWay(code: seq<byte>, entries: seq<Entry>, path: seq<int>, i: nat)
    requires Accepts(code, entries) && Path(code, entries, path) && i < |path| && 0 <= path[i] < |code|
    ensures Boundary(code, entries, path[i])
    decreases i
  {
    hide Accepts, JumpLands, Boundary, Next, OperandBytes, OpenEnd;
    if i == 0 {
      StartBoundary(code, entries);
    } else {
      var p, j := path[i - 1], i - 1;
      assert Flows(code, entries, p, path[i]);
      OnTheWay(code, entries, path, i - 1);
      if OpenEnd(code, entries, p) {
        EndGoesNowhereElse(code, entries, p, path[i]);
      } else {
        FlowStays(code, entries, p, path[i]);
      }
    }
  }

  /** An instruction that ends the code goes on to its end, or jumps to an instruction. */
  lemma EndGoesNowhereElse(code: seq<byte>, entries: seq<Entry>, p: nat, q: int)
    requires Accepts(code, entries) && p < |code| && Boundary(code, entries, p) && OpenEnd(code, entries, p) && Flows(code, entries, p, q)
    ensures 0 <= q < |code| ==> Boundary(code, entries, q)
  {
    hide Boundary;
    BoundaryIs(code, entries, p);
    ReadsWhatIsChecked(code, entries, p);
    hide Next, OperandBytes;
    assert JumpLands(code, entries, p);
  }

  // ---- The machine of scripts ----

  const FRAGMENT: set<byte> := {OP_CONSTANT, OP_NULL, OP_TRUE, OP_FALSE, OP_POP, OP_GET_LOCAL, OP_SET_LOCAL, OP_GET_GLOBAL, OP_DEFINE_GLOBAL,
                                OP_EQUAL, OP_NOT_EQUAL, OP_GREATER, OP_LESS, OP_GREATER_EQUAL, OP_LESS_EQUAL, OP_ADD, OP_SUBTRACT,
                                OP_MULTIPLY, OP_DIVIDE, OP_FLOORDIV, OP_MOD, OP_IN, OP_NOT_IN, OP_NOT, OP_NEGATE, OP_PRINT, OP_JUMP,
                                OP_JUMP_IF_FALSE, OP_LOOP, OP_RETURN, OP_TRY, OP_END_TRY, OP_THROW, OP_LIST, OP_GET_ITER, OP_FOR_ITER, OP_DUP}

  /** Opcodes of scripts only, and names that are strings, at every instruction start. */
  ghost predicate OfScripts(code: seq<byte>, constants: seq<Value>) {
    forall p: nat | p < |code| && Boundary(code, VO.Entries(constants), p) :: Readable(code, constants, p)
  }

  ghost predicate Readable(code: seq<byte>, constants: seq<Value>, p: nat) {
    && p < |code| && code[p] in FRAGMENT
    && (code[p] in {OP_GET_GLOBAL, OP_DEFINE_GLOBAL} && p + 2 < |code| && Operand(code, p) < |constants| ==> constants[Operand(code, p)].VStr?)
  }

  lemma LegalDecodes(code: seq<byte>, constants: seq<Value>, p: nat)
    requires Legal(code, VO.Entries(constants), p) && Readable(code, constants, p)
    requires code[p] == OP_LOOP ==> Operand(code, p) <= p + 3
    ensures Decode(code, constants, p).Some?
  {}

  lemma LoopFits(code: seq<byte>, entries: seq<Entry>, p: nat)
    requires Accepts(code, entries) && p < |code| && Boundary(code, entries, p)
    ensures code[p] == OP_LOOP ==> p + 2 < |code| && Operand(code, p) <= p + 3
  {
    hide Boundary;
    assert JumpLands(code, entries, p);
  }

  /** A machine that runs an accepted chunk of a script never lacks an instruction. */
  lemma NeverWithoutInstruction(code: seq<byte>, constants: seq<Value>, show: Show, globals: map<string, Value>, n: nat)
    requires Accepts(code, VO.Entries(constants)) && EndsClosed(code, VO.Entries(constants)) && OfScripts(code, constants)
    ensures var c := Machine.Run(Machine.Machine(Disassemble(code, constants), show), Machine.Start(globals), n);
            c.status == Machine.Running && c.err.None? ==> c.pc in Disassemble(code, constants)
  {
    hide Decode, Legal, Next, JumpLands, Reaches, Machine.Run, Readable, EndsClosed;
    var entries := VO.Entries(constants);
    StartBoundary(code, entries);
    assert VO.OnBoundaries(code, entries, Machine.Start(globals));
    VO.AcceptedChunkRunsOnBoundaries(code, constants, show, Machine.Start(globals), n);
    var c := Machine.Run(Machine.Machine(Disassemble(code, constants), show), Machine.Start(globals), n);
    if c.status == Machine.Running && c.err.None? {
      BoundaryIs(code, entries, c.pc);
      LegalIsNext(code, entries, c.pc);
      LoopFits(code, entries, c.pc);
      LegalDecodes(code, constants, c.pc);
    }
  }
}
