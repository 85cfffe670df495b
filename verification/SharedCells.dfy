/**
 * What captured variables mean: every slot of the stack names a cell, a closure that captures a
 * variable keeps the name of its cell, and a cell lives on when its slot is dropped.
 */
module SharedCells {
  import opened Values

  /** The cells made so far, the cells of the live slots, the captured cells, the frame bases. */
  datatype Shared = Shared(cells: seq<Value>, slots: seq<nat>, handles: seq<nat>, bases: seq<nat>)

  /** The steps of the virtual machine that touch slots, frames or captured variables. */
  datatype Op =
    | OpPush(v: Value)
    | OpPop
    | OpGetLocal(slot: nat)
    | OpSetLocal(slot: nat)
    | OpCapture(slot: nat)
    | OpGetUpvalue(handle: nat)
    | OpSetUpvalue(handle: nat)
    | OpCloseUpvalue
    | OpCall(args: nat)
    | OpReturn
    | OpUnwind(frameCount: nat, stackCount: nat, error: Value)

  predicate Good(sh: Shared) {
    && (forall i | 0 <= i < |sh.slots| :: sh.slots[i] < |sh.cells|)
    && (forall i, j | 0 <= i < j < |sh.slots| :: sh.slots[i] != sh.slots[j])
    && (forall k | 0 <= k < |sh.handles| :: sh.handles[k] < |sh.cells|)
    && sh.bases != []
  }

  function Base(sh: Shared): nat
    requires sh.bases != []
  {
    sh.bases[|sh.bases| - 1]
  }

  /** The steps the compiled code takes: a captured slot is closed, not popped. */
  predicate Legal(sh: Shared, op: Op)
    requires Good(sh)
  {
    var top := |sh.slots|;
    match op
    case OpPush(_) => true
    case OpPop => top > 0 && sh.slots[top - 1] !in sh.handles
    case OpGetLocal(i) => Base(sh) + i < top
    case OpSetLocal(i) => Base(sh) + i < top
    case OpCapture(i) => Base(sh) + i < top
    case OpGetUpvalue(k) => k < |sh.handles|
    case OpSetUpvalue(k) => k < |sh.handles| && top > 0
    case OpCloseUpvalue => top > 0
    case OpCall(args) => args <= top
    case OpReturn => |sh.bases| > 1 && Base(sh) < top
    case OpUnwind(n, h, _) => 1 <= n <= |sh.bases| && h <= top && forall k | n <= k < |sh.bases| :: sh.bases[k] >= h
  }

  function NewSlot(sh: Shared, v: Value): Shared { sh.(cells := sh.cells + [v], slots := sh.slots + [|sh.cells|]) }

  function Store(sh: Shared, cell: nat, v: Value): Shared
    requires cell < |sh.cells|
  {
    sh.(cells := sh.cells[cell := v])
  }

  function Keep(sh: Shared, n: nat): Shared
    requires n <= |sh.slots|
  {
    sh.(slots := sh.slots[..n])
  }

  function Top(sh: Shared): Value
    requires Good(sh) && sh.slots != []
  {
    sh.cells[sh.slots[|sh.slots| - 1]]
  }

  function Step(sh: Shared, op: Op): Shared
    requires Good(sh) && Legal(sh, op)
  {
    var top := |sh.slots|;
    match op
    case OpPush(v) => NewSlot(sh, v)
    case OpPop => Keep(sh, top - 1)
    case OpGetLocal(i) => NewSlot(sh, sh.cells[sh.slots[Base(sh) + i]])
    case OpSetLocal(i) => Store(sh, sh.slots[Base(sh) + i], Top(sh))
    case OpCapture(i) => sh.(handles := sh.handles + [sh.slots[Base(sh) + i]])
    case OpGetUpvalue(k) => NewSlot(sh, sh.cells[sh.handles[k]])
    case OpSetUpvalue(k) => Store(sh, sh.handles[k], Top(sh))
    case OpCloseUpvalue => Keep(sh, top - 1)
    case OpCall(args) => sh.(bases := sh.bases + [top - args])
    case OpReturn => NewSlot(Drop(sh, Base(sh), |sh.bases| - 1), Top(sh))
    case OpUnwind(n, h, error) => NewSlot(Drop(sh, h, n), error)
  }

  function Drop(sh: Shared, n: nat, frames: nat): Shared
    requires n <= |sh.slots| && frames <= |sh.bases|
  {
    Keep(sh, n).(bases := sh.bases[..frames])
  }

  lemma StepIsGood(sh: Shared, op: Op)
    requires Good(sh) && Legal(sh, op)
    ensures Good(Step(sh, op))
  {
    match op
    case OpPush(v) => NewSlotIsGood(sh, v);
    case OpGetLocal(i) => NewSlotIsGood(sh, sh.cells[sh.slots[Base(sh) + i]]);
    case OpGetUpvalue(k) => NewSlotIsGood(sh, sh.cells[sh.handles[k]]);
    case OpReturn =>
      DropIsGood(sh, Base(sh), |sh.bases| - 1);
      NewSlotIsGood(Drop(sh, Base(sh), |sh.bases| - 1), Top(sh));
    case OpUnwind(n, h, error) =>
      DropIsGood(sh, h, n);
      NewSlotIsGood(Drop(sh, h, n), error);
    case _ =>
  }

  lemma NewSlotIsGood(sh: Shared, v: Value)
    requires Good(sh)
    ensures Good(NewSlot(sh, v))
  {}

  lemma DropIsGood(sh: Shared, n: nat, frames: nat)
    requires Good(sh) && n <= |sh.slots| && 0 < frames <= |sh.bases|
    ensures Good(Drop(sh, n, frames))
  {}

  /** Every step of the run is legal when its turn comes. */
  predicate AllLegal(sh: Shared, ops: seq<Op>)
    requires Good(sh)
    decreases |ops|
  {
    ops == [] || (Legal(sh, ops[0]) && (StepIsGood(sh, ops[0]); AllLegal(Step(sh, ops[0]), ops[1..])))
  }

  function Run(sh: Shared, ops: seq<Op>): Shared
    requires Good(sh) && AllLegal(sh, ops)
    decreases |ops|
  {
    if ops == [] then sh
    else
      StepIsGood(sh, ops[0]);
      Run(Step(sh, ops[0]), ops[1..])
  }

  const START: Shared := Shared([], [], [], [0])
}
