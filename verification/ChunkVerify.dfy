/** The bytecode verifier: two passes over the bytes of a chunk. */
module ChunkVerify {
  import opened Bytes
  import opened Values
  import opened Bytecode

  /** What the verifier looks at in a constant: functions have upvalues. */
  datatype Entry = Plain | Function(upvalues: nat)

  const MAX_SLOTS := 1024

  predicate NamesConstant(op: byte) {
    op in {OP_CONSTANT, OP_GET_GLOBAL, OP_DEFINE_GLOBAL, OP_SET_GLOBAL, OP_GET_PROPERTY, OP_SET_PROPERTY,
           OP_CLASS, OP_METHOD, OP_PROPERTY, OP_GET_SELF_PROPERTY, OP_SET_SELF_PROPERTY}
  }

  predicate NamesSlot(op: byte) { op == OP_GET_LOCAL || op == OP_SET_LOCAL }

  predicate NamesUpvalue(op: byte) { op == OP_GET_UPVALUE || op == OP_SET_UPVALUE }

  predicate JumpsForward(op: byte) { op in {OP_JUMP, OP_JUMP_IF_FALSE, OP_TRY, OP_FOR_ITER} }

  predicate Counts(op: byte) {
    op in {OP_CALL, OP_NATIVE_CALL, OP_LIST, OP_DICT, OP_LIST_APPEND, OP_SET_DEFAULTS, OP_CALL_PARENT_INIT, OP_SPAWN}
  }

  /** Where the instruction at p ends, if it is a whole one with legal operands. */
  function Next(code: seq<byte>, entries: seq<Entry>, p: nat): (r: Option<nat>)
    ensures r.Some? ==> p < r.value <= |code|
  {
    if p >= |code| || code[p] > OP_HALT then None else
    var op, q := code[p], p + 1;
    if NamesConstant(op) then
      if q + 2 <= |code| && Short(code, q) < |entries| then Some(q + 2) else None
    else if NamesSlot(op) then
      if q + 2 <= |code| && Short(code, q) < MAX_SLOTS then Some(q + 2) else None
    else if NamesUpvalue(op) || JumpsForward(op) || op == OP_LOOP then
      if q + 2 <= |code| then Some(q + 2) else None
    else if op == OP_INVOKE then
      if q + 3 <= |code| && Short(code, q) < |entries| then Some(q + 3) else None
    else if op == OP_CLOSURE then
      if q + 2 <= |code| && Short(code, q) < |entries| && entries[Short(code, q)].Function?
         && q + 2 + 3 * entries[Short(code, q)].upvalues <= |code|
      then Some(q + 2 + 3 * entries[Short(code, q)].upvalues) else None
    else if Counts(op) then
      if q + 1 <= |code| then Some(q + 1) else None
    else Some(q)
  }

  /** Decoding from p, instruction after instruction, arrives at x. */
  predicate Reaches(code: seq<byte>, entries: seq<Entry>, p: nat, x: nat)
    decreases x - p
  {
    p == x || (p < x && Next(code, entries, p).Some? && Reaches(code, entries, Next(code, entries, p).value, x))
  }

  /** x is an instruction boundary: decoding from the start arrives there. */
  predicate Boundary(code: seq<byte>, entries: seq<Entry>, x: nat) { Reaches(code, entries, 0, x) }

  /** The jump at p, if there is one, lands on an instruction. */
  predicate JumpLands(code: seq<byte>, entries: seq<Entry>, p: nat)
    requires p < |code|
  {
    && (JumpsForward(code[p]) ==>
          && p + 3 <= |code|
          && var t := p + 3 + Short(code, p + 1); t < |code| && Boundary(code, entries, t))
    && (code[p] == OP_LOOP ==>
          && p + 3 <= |code| && Short(code, p + 1) <= p + 3
          && var t := p + 3 - Short(code, p + 1); t < |code| && Boundary(code, entries, t))
  }

  predicate Accepts(code: seq<byte>, entries: seq<Entry>) {
    && code != [] && Boundary(code, entries, |code|)
    && forall p | 0 <= p < |code| && Boundary(code, entries, p) :: JumpLands(code, entries, p)
  }

  // ---- Boundaries ----

  lemma {:induction false} ReachesNext(code: seq<byte>, entries: seq<Entry>, p: nat, x: nat)
    requires Reaches(code, entries, p, x) && Next(code, entries, x).Some?
    ensures Reaches(code, entries, p, Next(code, entries, x).value)
    decreases x - p
  {
    hide Next;
    if p != x { ReachesNext(code, entries, Next(code, entries, p).value, x); }
  }

  /** Between an instruction and the next there is no boundary. */
  lemma {:induction false} ReachesGap(code: seq<byte>, entries: seq<Entry>, p: nat, x: nat, y: nat)
    requires Reaches(code, entries, p, x) && Reaches(code, entries, p, y) && x < y
    ensures Next(code, entries, x).Some? && Reaches(code, entries, Next(code, entries, x).value, y)
    decreases x - p
  {
    hide Next;
    if p != x { ReachesGap(code, entries, Next(code, entries, p).value, x, y); }
  }

  lemma BoundaryStep(code: seq<byte>, entries: seq<Entry>, x: nat)
    requires Boundary(code, entries, x) && Next(code, entries, x).Some?
    ensures Boundary(code, entries, Next(code, entries, x).value)
    ensures forall y: nat | x < y < Next(code, entries, x).value :: !Boundary(code, entries, y)
  {
    hide Next;
    ReachesNext(code, entries, 0, x);
    forall y: nat | x < y < Next(code, entries, x).value ensures !Boundary(code, entries, y) {
      if Boundary(code, entries, y) {
        ReachesGap(code, entries, 0, x, y);
        ReachesForward(code, entries, Next(code, entries, x).value, y);
      }
    }
  }

  lemma ReachesForward(code: seq<byte>, entries: seq<Entry>, p: nat, x: nat)
    requires Reaches(code, entries, p, x)
    ensures p <= x
  {}

  /** Where decoding stops, nothing behind is reached. */
  lemma BoundaryStuck(code: seq<byte>, entries: seq<Entry>, x: nat)
    requires Boundary(code, entries, x) && Next(code, entries, x).None? && x < |code|
    ensures !Boundary(code, entries, |code|)
  {
    hide Next;
    if Boundary(code, entries, |code|) { ReachesGap(code, entries, 0, x, |code|); }
  }

  // ---- The verifier ----

  class Chunk {
    const code: seq<byte>
    const constants: seq<Entry>

    constructor (code: seq<byte>, constants: seq<Entry>)
      ensures this.code == code && this.constants == constants
    {
      this.code, this.constants := code, constants;
    }

    /** First pass, one instruction: checks its operands and finds its end. */
    method ScanInstruction(start: nat) returns (ok: bool, end: nat)
      requires start < |code|
      ensures ok <==> Next(code, constants, start).Some?
      ensures ok ==> Next(code, constants, start) == Some(end)
    {
      var op, ip := code[start], start + 1;
      end := ip;
      if op > OP_HALT { return false, ip; }
      if NamesConstant(op) {
        if ip + 2 > |code| { return false, ip; }
        var idx := Short(code, ip);
        ip := ip + 2;
        if idx >= |constants| { return false, ip; }
      } else if NamesSlot(op) {
        if ip + 2 > |code| { return false, ip; }
        var slot := Short(code, ip);
        ip := ip + 2;
        if slot >= MAX_SLOTS { return false, ip; }
      } else if NamesUpvalue(op) || JumpsForward(op) || op == OP_LOOP {
        if ip + 2 > |code| { return false, ip; }
        ip := ip + 2;
      } else if op == OP_INVOKE {
        if ip + 3 > |code| { return false, ip; }
        var idx := Short(code, ip);
        ip := ip + 3;
        if idx >= |constants| { return false, ip; }
      } else if op == OP_CLOSURE {
        if ip + 2 > |code| { return false, ip; }
        var idx := Short(code, ip);
        ip := ip + 2;
        if idx >= |constants| { return false, ip; }
        if !constants[idx].Function? { return false, ip; }
        var uvs := constants[idx].upvalues;
        if ip + uvs * 3 > |code| { return false, ip; }
        ip := ip + uvs * 3;
      } else if Counts(op) {
        if ip + 1 > |code| { return false, ip; }
        ip := ip + 1;
      }
      return true, ip;
    }

    /** Second pass, one instruction: checks where it jumps to. */
    method CheckJump(start: nat, isInstruction: array<bool>) returns (ok: bool, end: nat)
      requires start < |code| && Next(code, constants, start).Some? && isInstruction.Length == |code|
      requires forall j | 0 <= j < |code| :: isInstruction[j] <==> Boundary(code, constants, j)
      ensures ok <==> JumpLands(code, constants, start)
      ensures ok ==> Next(code, constants, start) == Some(end)
    {
      hide Boundary;
      var op, ip := code[start], start + 1;
      if NamesConstant(op) || NamesSlot(op) || NamesUpvalue(op) {
        ip := ip + 2;
      } else if JumpsForward(op) {
        var offset := Short(code, ip);
        ip := ip + 2;
        var target := ip + offset;
        if target >= |code| || !isInstruction[target] { return false, ip; }
      } else if op == OP_LOOP {
        var offset := Short(code, ip);
        ip := ip + 2;
        if ip < offset { return false, ip; }
        var target := ip - offset;
        if target >= |code| || !isInstruction[target] { return false, ip; }
      } else if op == OP_INVOKE {
        ip := ip + 3;
      } else if op == OP_CLOSURE {
        var idx := Short(code, ip);
        ip := ip + 2;
        ip := ip + constants[idx].upvalues * 3;
      } else if Counts(op) {
        ip := ip + 1;
      }
      return true, ip;
    }

    method Verify() returns (ok: bool)
      ensures ok <==> Accepts(code, constants)
    {
      hide Next, Reaches, JumpLands;
      if |code| == 0 { return false; }
      var isInstruction := new bool[|code|](_ => false);
      StartBoundary(code, constants);
      var ip := 0;
      while ip < |code|
        invariant 0 <= ip <= |code| && Boundary(code, constants, ip)
        invariant forall j | 0 <= j < ip :: isInstruction[j] <==> Boundary(code, constants, j)
        invariant forall j | ip <= j < |code| :: !isInstruction[j]
        decreases |code| - ip
      {
        isInstruction[ip] := true;
        var good, end := ScanInstruction(ip);
        if !good {
          BoundaryStuck(code, constants, ip);
          return false;
        }
        BoundaryStep(code, constants, ip);
        NextForward(code, constants, ip);
        ip := end;
      }
      ip := 0;
      while ip < |code|
        invariant 0 <= ip <= |code| && Boundary(code, constants, ip)
        invariant forall j | 0 <= j < |code| :: isInstruction[j] <==> Boundary(code, constants, j)
        invariant forall j | 0 <= j < ip && Boundary(code, constants, j) :: JumpLands(code, constants, j)
        decreases |code| - ip
      {
        BoundaryInside(code, constants, ip);
        var good, end := CheckJump(ip, isInstruction);
        if !good { return false; }
        BoundaryStep(code, constants, ip);
        NextForward(code, constants, ip);
        ip := end;
      }
      return true;
    }
  }

  lemma StartBoundary(code: seq<byte>, entries: seq<Entry>)
    ensures Boundary(code, entries, 0)
  {}

  lemma NextForward(code: seq<byte>, entries: seq<Entry>, p: nat)
    requires Next(code, entries, p).Some?
    ensures p < Next(code, entries, p).value <= |code|
  {}

  /** In a chunk that decodes to its end, every boundary inside starts an instruction. */
  lemma BoundaryInside(code: seq<byte>, entries: seq<Entry>, x: nat)
    requires Boundary(code, entries, x) && Boundary(code, entries, |code|) && x < |code|
    ensures Next(code, entries, x).Some?
  {
    hide Next;
    ReachesGap(code, entries, 0, x, |code|);
  }

  // ---- What the machine executes ----

  /** The operand bytes the dispatch loop reads for the instruction at p. */
  function OperandBytes(code: seq<byte>, entries: seq<Entry>, p: nat): Option<nat>
    requires p < |code|
  {
    var op := code[p];
    if op in {OP_CALL, OP_NATIVE_CALL, OP_LIST, OP_DICT, OP_LIST_APPEND, OP_CALL_PARENT_INIT, OP_SET_DEFAULTS, OP_SPAWN} then Some(1)
    else if op == OP_INVOKE then Some(3)
    else if op == OP_CLOSURE then
      if p + 3 <= |code| && Short(code, p + 1) < |entries| && entries[Short(code, p + 1)].Function?
      then Some(2 + 3 * entries[Short(code, p + 1)].upvalues) else None
    else if op in {OP_CONSTANT, OP_GET_LOCAL, OP_SET_LOCAL, OP_GET_GLOBAL, OP_DEFINE_GLOBAL, OP_SET_GLOBAL, OP_GET_UPVALUE,
                   OP_SET_UPVALUE, OP_FOR_ITER, OP_CLASS, OP_METHOD, OP_PROPERTY, OP_GET_SELF_PROPERTY, OP_SET_SELF_PROPERTY,
                   OP_GET_PROPERTY, OP_SET_PROPERTY, OP_JUMP, OP_JUMP_IF_FALSE, OP_LOOP, OP_TRY} then Some(2)
    else Some(0)
  }

  /** Whether control can go on from an instruction to the one behind it. */
  predicate GoesOn(op: byte) { op !in {OP_JUMP, OP_LOOP, OP_RETURN, OP_THROW, OP_HALT} }

  /** Control may go from the instruction at p to address q, in the same call frame. An
      error raised after a TRY may go to its catch target. */
  predicate Flows(code: seq<byte>, entries: seq<Entry>, p: nat, q: int) {
    && p < |code|
    && var n := OperandBytes(code, entries, p);
    && n.Some? && p + 1 + n.value <= |code|
    && var next := p + 1 + n.value;
       var op := code[p];
       || (GoesOn(op) && q == next)
       || (op in {OP_JUMP, OP_JUMP_IF_FALSE, OP_FOR_ITER, OP_TRY} && q == next + Short(code, p + 1))
       || (op == OP_LOOP && q == next - Short(code, p + 1))
  }

  /** Control goes on from the instruction at p past the end of the code. */
  predicate OpenEnd(code: seq<byte>, entries: seq<Entry>, p: int) {
    0 <= p < |code| && Next(code, entries, p) == Some(|code|) && GoesOn(code[p])
  }

  /** The last instruction does not fall off the end of the code. */
  predicate EndsClosed(code: seq<byte>, entries: seq<Entry>) {
    forall p | 0 <= p < |code| && Boundary(code, entries, p) :: !OpenEnd(code, entries, p)
  }

  /** The dispatch loop reads exactly the bytes the verifier skips. */
  lemma ReadsWhatIsChecked(code: seq<byte>, entries: seq<Entry>, p: nat)
    requires Next(code, entries, p).Some?
    ensures OperandBytes(code, entries, p).Some? && Next(code, entries, p).value == p + 1 + OperandBytes(code, entries, p).value
  {}

  lemma FlowStays(code: seq<byte>, entries: seq<Entry>, p: nat, q: int)
    requires Accepts(code, entries) && p < |code| && Boundary(code, entries, p) && !OpenEnd(code, entries, p)
    requires Flows(code, entries, p, q)
    ensures 0 <= q < |code| && Boundary(code, entries, q)
  {
    hide Next, Reaches;
    BoundaryInside(code, entries, p);
    ReadsWhatIsChecked(code, entries, p);
    BoundaryStep(code, entries, p);
    NextForward(code, entries, p);
    hide OperandBytes, Boundary;
    assert JumpLands(code, entries, p);
  }

  /** Every address control goes through, from the first instruction on. */
  predicate Path(code: seq<byte>, entries: seq<Entry>, path: seq<int>) {
    && path != [] && path[0] == 0
    && forall i, j | 0 <= i < |path| && 0 <= j < |path| && j == i + 1 :: path[i] >= 0 && Flows(code, entries, path[i], path[j])
  }

  /** All addresses are starts of instructions. */
  predicate OnInstructions(code: seq<byte>, entries: seq<Entry>, path: seq<int>) {
    forall i | 0 <= i < |path| :: 0 <= path[i] < |code| && Boundary(code, entries, path[i])
  }

  lemma {:induction false} PathStays(code: seq<byte>, entries: seq<Entry>, path: seq<int>)
    requires Accepts(code, entries) && Path(code, entries, path)
    requires forall i | 0 <= i < |path| - 1 :: !OpenEnd(code, entries, path[i])
    ensures OnInstructions(code, entries, path)
    decreases |path|
  {
    hide Flows, JumpLands, Next, Reaches, OpenEnd;
    var n := |path| - 1;
    if n == 0 {
      StartBoundary(code, entries);
    } else {
      PathStays(code, entries, path[..n]);
      assert path[..n][n - 1] == path[n - 1];
      FlowStays(code, entries, path[n - 1], path[n]);
      forall i | 0 <= i < |path| ensures 0 <= path[i] < |code| && Boundary(code, entries, path[i]) {
        if i < n { assert path[..n][i] == path[i]; }
      }
    }
  }

  /** In an accepted chunk control never leaves the code and never lands inside an instruction. */
  lemma {:induction false} AcceptedCodeStaysOnInstructions(code: seq<byte>, entries: seq<Entry>, path: seq<int>)
    requires Accepts(code, entries) && EndsClosed(code, entries) && Path(code, entries, path)
    ensures OnInstructions(code, entries, path)
    decreases |path|
  {
    hide Flows, Accepts, OpenEnd, Boundary;
    var n := |path| - 1;
    if n > 0 {
      AcceptedCodeStaysOnInstructions(code, entries, path[..n]);
      forall i | 0 <= i < n ensures !OpenEnd(code, entries, path[i]) { assert path[..n][i] == path[i]; }
    }
    PathStays(code, entries, path);
  }

  /** From an open end control leaves the code. */
  lemma OpenEndIsLeft(code: seq<byte>, entries: seq<Entry>, path: seq<int>)
    requires Path(code, entries, path) && OpenEnd(code, entries, path[|path| - 1])
    ensures Path(code, entries, path + [|code|])
  {
    hide Next, OperandBytes;
    ReadsWhatIsChecked(code, entries, path[|path| - 1]);
    assert Flows(code, entries, path[|path| - 1], |code|);
  }

  /** Control stays on the instructions of an accepted chunk exactly when it reaches no open end. */
  lemma StaysExactlyWithoutOpenEnds(code: seq<byte>, entries: seq<Entry>)
    requires Accepts(code, entries)
    ensures (forall path | Path(code, entries, path) :: OnInstructions(code, entries, path))
            <==> (forall path | Path(code, entries, path) :: !OpenEnd(code, entries, path[|path| - 1]))
  {
    hide Flows, Accepts, OpenEnd, Boundary;
    if forall path | Path(code, entries, path) :: !OpenEnd(code, entries, path[|path| - 1]) {
      forall path | Path(code, entries, path) ensures OnInstructions(code, entries, path) {
        forall i | 0 <= i < |path| - 1 ensures !OpenEnd(code, entries, path[i]) {
          assert Path(code, entries, path[..i + 1]);
        }
        PathStays(code, entries, path);
      }
    }
    if path :| Path(code, entries, path) && OpenEnd(code, entries, path[|path| - 1]) {
      OpenEndIsLeft(code, entries, path);
      var left := path + [|code|];
      assert left[|path|] == |code|;
      assert !OnInstructions(code, entries, left);
    }
  }

  /** Acceptance alone is not enough: this chunk is accepted, and control leaves it. */
  lemma OpenEndFallsOff()
    ensures Accepts([OP_NULL], []) && Path([OP_NULL], [], [0, 1])
  {
    var code: seq<byte> := [OP_NULL];
    assert Next(code, [], 0) == Some(1);
    assert Boundary(code, [], 1);
  }
}
