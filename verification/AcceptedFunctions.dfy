/** The verifier accepts every function the compiler emits, with the functions inside it. */
module AcceptedFunctions {
  import opened Bytes
  import opened Values
  import opened Bytecode
  import opened ClosureCode
  import opened ClosureSeals
  import opened ClosureKept
  import CV = ChunkVerify

  // ---- Bytes ----

  /** A two-byte operand, high byte first; what does not fit is cut off. */
  function Wide(n: nat): (b: seq<byte>)
    ensures |b| == 2
  {
    [n / 256 % 256, n % 256]
  }

  function Pairs(captured: seq<Captured>): (b: seq<byte>)
    ensures |b| == 3 * |captured|
  {
    if captured == [] then []
    else Pairs(captured[..|captured| - 1]) + [if captured[|captured| - 1].isLocal then 1 else 0] + Wide(captured[|captured| - 1].index)
  }

  function Encode(i: Ins): (b: seq<byte>)
    ensures |b| == Len(i)
  {
    match i
    case Plain(op) => [op]
    case Const(op, k) => [op] + Wide(k)
    case Slot(op, n) => [op] + Wide(n)
    case Upvalue(op, u) => [op] + Wide(u)
    case Count(op, n) => [op, n % 256]
    case Invoke(k, n) => [OP_INVOKE] + Wide(k) + [n % 256]
    case Closure(k, captured) => [OP_CLOSURE] + Wide(k) + Pairs(captured)
    case Hop(op, n) => [op] + Wide(n)
    case Rewind(n) => [OP_LOOP] + Wide(n)
    case Exit => [OP_JUMP, 255, 255]
    case Again => [OP_JUMP, 255, 255]
  }

  function Encoded(code: seq<Ins>): (b: seq<byte>)
    ensures |b| == Size(code)
  {
    if code == [] then [] else Encoded(code[..|code| - 1]) + Encode(code[|code| - 1])
  }

  function EntryOf(c: Constant): CV.Entry { if c.Code? then CV.Function(c.upvalues) else CV.Plain }

  function Entries(constants: seq<Constant>): seq<CV.Entry> { seq(|constants|, i requires 0 <= i < |constants| => EntryOf(constants[i])) }

  /** What is not a compile error: operands that fit two bytes, and stop and skip in loops only. */
  predicate Fits(i: Ins) {
    match i
    case Const(_, k) => k < 65536
    case Invoke(k, _) => k < 65536
    case Closure(k, _) => k < 65536
    case Hop(_, n) => n < 65536
    case Rewind(n) => n < 65536
    case Exit => false
    case Again => false
    case _ => true
  }

  ghost predicate Compiles(code: seq<Ins>) { forall i | i in code :: Fits(i) }

  // ---- One instruction ----

  lemma WideIs(b: seq<byte>, p: nat, n: nat)
    requires StandsAt(b, p, Wide(n)) && n < 65536
    ensures Short(b, p) == n
  {
    StandsByte(b, p, Wide(n), 0);
    StandsByte(b, p, Wide(n), 1);
  }

  /** An instruction with a two-byte operand after its first byte. */
  lemma OperandIs(b: seq<byte>, p: nat, op: byte, n: nat, rest: seq<byte>)
    requires StandsAt(b, p, [op] + Wide(n) + rest) && n < 65536
    ensures p + 3 + |rest| <= |b| && b[p] == op && Short(b, p + 1) == n
  {
    StandsSplit(b, p, [op] + Wide(n), rest);
    StandsSplit(b, p, [op], Wide(n));
    StandsByte(b, p, [op], 0);
    WideIs(b, p + 1, n);
  }

  lemma NextIs(b: seq<byte>, constants: seq<Constant>, p: nat, i: Ins, ups: nat)
    requires StandsAt(b, p, Encode(i)) && InsOk(i, constants, CV.MAX_SLOTS, ups) && Fits(i)
    ensures CV.Next(b, Entries(constants), p) == Some(p + Len(i))
  {
    hide StandsAt, Short;
    match i
    case Plain(op) => StandsByte(b, p, [op], 0);
    case Count(op, n) =>
      StandsByte(b, p, [op, n % 256], 0);
      StandsByte(b, p, [op, n % 256], 1);
    case Invoke(k, n) => OperandIs(b, p, OP_INVOKE, k, [n % 256]);
    case Closure(k, captured) => OperandIs(b, p, OP_CLOSURE, k, Pairs(captured));
    case Upvalue(op, u) => StandsPlain(b, p, op, u);
    case Const(op, k) => OperandAlone(b, p, op, k);
    case Slot(op, n) => OperandAlone(b, p, op, n);
    case Hop(op, n) => OperandAlone(b, p, op, n);
    case Rewind(n) => OperandAlone(b, p, OP_LOOP, n);
  }

  lemma OperandAlone(b: seq<byte>, p: nat, op: byte, n: nat)
    requires StandsAt(b, p, [op] + Wide(n)) && n < 65536
    ensures p + 3 <= |b| && b[p] == op && Short(b, p + 1) == n
  {
    assert [op] + Wide(n) == [op] + Wide(n) + [];
    OperandIs(b, p, op, n, []);
  }

  lemma StandsPlain(b: seq<byte>, p: nat, op: byte, n: nat)
    requires StandsAt(b, p, [op] + Wide(n))
    ensures p + 3 <= |b| && b[p] == op
  {
    StandsByte(b, p, [op] + Wide(n), 0);
    StandsByte(b, p, [op] + Wide(n), 2);
  }

  // ---- The whole chunk ----

  lemma {:induction false} InsAt(code: seq<Ins>, k: nat)
    requires k < |code|
    ensures StandsAt(Encoded(code), Size(code[..k]), Encode(code[k])) && Size(code[..k + 1]) == Size(code[..k]) + Len(code[k])
    decreases |code|
  {
    hide Encode;
    var front := code[..|code| - 1];
    assert code[..k + 1][..k] == code[..k];
    if k < |code| - 1 {
      InsAt(front, k);
      assert front[..k] == code[..k] && front[..k + 1] == code[..k + 1];
      var s, t := Encoded(front), Encode(code[k]);
      assert Encoded(code)[..|s|] == s;
    } else {
      assert code[..k] == front && code[..k + 1] == code;
    }
  }

  /** A function that compiles, on few enough slots. */
  ghost predicate Ready(c: Constant) {
    c.Code? && WellMade(c) && Compiles(c.code) && c.peak <= CV.MAX_SLOTS
  }

  lemma StepAt(c: Constant, k: nat)
    requires c.Code? && Ready(c) && k < |c.code|
    ensures CV.Next(Encoded(c.code), Entries(c.constants), Size(c.code[..k])) == Some(Size(c.code[..k + 1]))
    ensures Size(c.code[..k]) < Size(c.code[..k + 1])
  {
    hide StandsAt, Encode, CV.Next, Sealed;
    InsAt(c.code, k);
    var i := c.code[k];
    assert i in c.code;
    ValidMore(c.code, c.constants, c.peak, c.upvalues, c.constants, CV.MAX_SLOTS, c.upvalues);
    NextIs(Encoded(c.code), c.constants, Size(c.code[..k]), i, c.upvalues);
  }

  lemma {:induction false} IndexIsBoundary(c: Constant, k: nat)
    requires c.Code? && Ready(c) && k <= |c.code|
    ensures CV.Boundary(Encoded(c.code), Entries(c.constants), Size(c.code[..k]))
    decreases k
  {
    hide Ready, CV.Next, CV.Boundary;
    if k == 0 {
      CV.StartBoundary(Encoded(c.code), Entries(c.constants));
    } else {
      IndexIsBoundary(c, k - 1);
      StepAt(c, k - 1);
      CV.BoundaryStep(Encoded(c.code), Entries(c.constants), Size(c.code[..k - 1]));
    }
  }

  lemma {:induction false} StartIndex(code: seq<Ins>, t: nat) returns (k: nat)
    requires Starts(code, t)
    ensures k <= |code| && Size(code[..k]) == t
    decreases |code|
  {
    if t == Size(code) {
      k := |code|;
      assert code[..k] == code;
    } else {
      k := StartIndex(code[..|code| - 1], t);
      assert code[..|code| - 1][..k] == code[..k];
    }
  }

  lemma {:induction false} BoundaryIndex(c: Constant, k: nat, x: nat) returns (i: nat)
    requires c.Code? && Ready(c) && k <= |c.code| && Size(c.code[..k]) <= x <= |Encoded(c.code)|
    requires CV.Boundary(Encoded(c.code), Entries(c.constants), x)
    ensures i <= |c.code| && Size(c.code[..i]) == x
    decreases |c.code| - k
  {
    hide Ready, CV.Next, CV.Boundary, Encoded;
    if k == |c.code| {
      assert c.code[..k] == c.code;
      i := k;
    } else if Size(c.code[..k]) == x {
      i := k;
    } else {
      StepAt(c, k);
      IndexIsBoundary(c, k);
      CV.BoundaryStep(Encoded(c.code), Entries(c.constants), Size(c.code[..k]));
      i := BoundaryIndex(c, k + 1, x);
    }
  }

  lemma {:induction false} SealedIndex(code: seq<Ins>, w: seq<Ins>, k: nat)
    requires SealedAt(code, 0, w) && k < |code|
    ensures Lands(code[k], Size(code[..k]), w)
    decreases |code|
  {
    hide Lands;
    var front := code[..|code| - 1];
    if k < |code| - 1 {
      SealedIndex(front, w, k);
      assert front[..k] == code[..k];
    }
  }

  lemma {:induction false} StartsInside(code: seq<Ins>, t: nat)
    requires Starts(code, t)
    ensures t <= Size(code)
    decreases |code|
  {
    if t != Size(code) { StartsInside(code[..|code| - 1], t); }
  }

  /** A target in the code before the last return is an instruction of the chunk. */
  lemma TargetIsBoundary(c: Constant, t: nat)
    requires c.Code? && Ready(c) && c.code != [] && Starts(c.code[..|c.code| - 1], t)
    ensures t < |Encoded(c.code)| && CV.Boundary(Encoded(c.code), Entries(c.constants), t)
  {
    hide Ready, CV.Boundary, Starts, Encode;
    var front := c.code[..|c.code| - 1];
    StartsInside(front, t);
    var k := StartIndex(front, t);
    assert front[..k] == c.code[..k];
    IndexIsBoundary(c, k);
  }

  lemma MadeFacts(c: Constant)
    requires c.Code? && Ready(c)
    ensures c.code != [] && c.code[|c.code| - 1] == Plain(OP_RETURN) && Sealed(c.code[..|c.code| - 1]) && Compiles(c.code)
    ensures Valid(c.code, c.constants, c.peak, c.upvalues)
  {
    hide Sealed, Valid, Compiles;
  }

  lemma TargetsAreBoundaries(c: Constant, k: nat)
    requires c.Code? && Ready(c) && k + 1 < |c.code|
    ensures var p, i, b := Size(c.code[..k]), c.code[k], Encoded(c.code);
            && (i.Hop? ==> p + 3 + i.over < |b| && CV.Boundary(b, Entries(c.constants), p + 3 + i.over))
            && (i.Rewind? ==> i.over <= p + 3 && p + 3 - i.over < |b| && CV.Boundary(b, Entries(c.constants), p + 3 - i.over))
  {
    hide Ready, CV.Boundary, Starts, SealedAt, Size, Encoded;
    MadeFacts(c);
    var front, p, i := c.code[..|c.code| - 1], Size(c.code[..k]), c.code[k];
    SealedIndex(front, front, k);
    assert front[..k] == c.code[..k] && front[k] == i;
    if i.Hop? { TargetIsBoundary(c, p + 3 + i.over); }
    if i.Rewind? { TargetIsBoundary(c, p + 3 - i.over); }
  }

  lemma IndexLands(c: Constant, k: nat)
    requires c.Code? && Ready(c) && k < |c.code|
    ensures Size(c.code[..k]) < |Encoded(c.code)|
    ensures CV.JumpLands(Encoded(c.code), Entries(c.constants), Size(c.code[..k]))
  {
    hide Ready, CV.Boundary, Starts, StandsAt, SealedAt, Size;
    MadeFacts(c);
    var p, i := Size(c.code[..k]), c.code[k];
    var b := Encoded(c.code);
    InsAt(c.code, k);
    assert i in c.code;
    if k < |c.code| - 1 { TargetsAreBoundaries(c, k); }
    hide Encoded;
    JumpByte(b, p, i, c.constants, c.peak, c.upvalues);
  }

  /** Only jumps look like jumps, and their operands are read back. */
  lemma JumpByte(b: seq<byte>, p: nat, i: Ins, constants: seq<Constant>, peak: nat, ups: nat)
    requires StandsAt(b, p, Encode(i)) && InsOk(i, constants, peak, ups) && Fits(i)
    ensures p < |b|
    ensures CV.JumpsForward(b[p]) ==> i.Hop? && p + 3 <= |b| && Short(b, p + 1) == i.over
    ensures b[p] == OP_LOOP ==> i.Rewind? && p + 3 <= |b| && Short(b, p + 1) == i.over
  {
    hide StandsAt, Short;
    StandsByte(b, p, Encode(i), 0);
    if i.Hop? { OperandAlone(b, p, i.op, i.over); }
    if i.Rewind? { OperandAlone(b, p, OP_LOOP, i.over); }
  }

  /** The verifier accepts a function that compiles on at most 1024 slots, and control cannot fall off its end. */
  lemma FunctionIsAccepted(c: Constant)
    requires c.Code? && Ready(c)
    ensures CV.Accepts(Encoded(c.code), Entries(c.constants)) && CV.EndsClosed(Encoded(c.code), Entries(c.constants))
  {
    hide Ready, CV.Boundary, CV.Next, CV.JumpLands, Encoded, Size, Sealed;
    var b, entries, n := Encoded(c.code), Entries(c.constants), |c.code|;
    MadeFacts(c);
    assert c.code[..n] == c.code;
    IndexIsBoundary(c, n);
    SizeNone();
    assert c.code[..0] == [];
    StepAt(c, 0);
    forall p | 0 <= p < |b| && CV.Boundary(b, entries, p) ensures CV.JumpLands(b, entries, p) {
      var k := BoundaryIndex(c, 0, p);
      IndexLands(c, k);
    }
    forall p | 0 <= p < |b| && CV.Boundary(b, entries, p) ensures !CV.OpenEnd(b, entries, p) {
      if CV.Next(b, entries, p) == Some(|b|) {
        var k := BoundaryIndex(c, 0, p);
        LastIs(c, k);
      }
    }
  }

  lemma LastIs(c: Constant, k: nat)
    requires c.Code? && Ready(c) && k <= |c.code| && Size(c.code[..k]) < |Encoded(c.code)|
    requires CV.Next(Encoded(c.code), Entries(c.constants), Size(c.code[..k])) == Some(|Encoded(c.code)|)
    ensures Encoded(c.code)[Size(c.code[..k])] == OP_RETURN
  {
    hide Ready, CV.Next, Sealed, StandsAt;
    MadeFacts(c);
    assert c.code[..|c.code|] == c.code;
    if k < |c.code| - 1 {
      StepAt(c, k);
      StepAt(c, |c.code| - 1);
      SizesGrow(c.code, k + 1, |c.code| - 1);
    } else {
      InsAt(c.code, k);
      StandsByte(Encoded(c.code), Size(c.code[..k]), Encode(c.code[k]), 0);
    }
  }

  lemma {:induction false} SizesGrow(code: seq<Ins>, i: nat, j: nat)
    requires i <= j <= |code|
    ensures Size(code[..i]) <= Size(code[..j])
    decreases j
  {
    if i < j {
      assert code[..j][..j - 1] == code[..j - 1];
      SizesGrow(code, i, j - 1);
    }
  }

  // ---- Every function of a program ----

  /** d is c, or a function in it at any depth. */
  ghost predicate Inside(d: Constant, c: Constant)
    decreases c
  {
    d == c || (c.Code? && exists e | e in c.constants :: Inside(d, e))
  }

  lemma {:induction false} MadeInside(d: Constant, c: Constant)
    requires Inside(d, c) && WellMade(c)
    ensures WellMade(d)
    decreases c
  {
    hide Sealed, Valid;
    if d != c {
      var e :| e in c.constants && Inside(d, e);
      MadeInside(d, e);
    }
  }

  /**
   * Of every compiled program, the verifier accepts each function, however deep, that has at most
   * 1024 locals at once: with its closures, the variables they capture, and its calls.
   */
  lemma EveryFunctionIsAccepted(b: seq<Stmt>, c: Constant)
    requires Inside(c, Script(b)) && c.Code? && Compiles(c.code) && c.peak <= CV.MAX_SLOTS
    ensures CV.Accepts(Encoded(c.code), Entries(c.constants)) && CV.EndsClosed(Encoded(c.code), Entries(c.constants))
  {
    hide CV.Accepts, CV.EndsClosed, WellMade, Script, Encoded, Inside;
    ScriptIsWellMade(b);
    MadeInside(c, Script(b));
    FunctionIsAccepted(c);
  }

  /**
   * Every variable the code names is there: slots are below the most locals there have been, upvalues
   * are among those of the function, and what a closure captures is a local or an upvalue of the
   * function around it. The verifier checks none of the last two.
   */
  lemma VariablesExist(b: seq<Stmt>, c: Constant, i: Ins)
    requires Inside(c, Script(b)) && c.Code? && i in c.code
    ensures i.Slot? ==> i.slot < c.peak
    ensures i.Upvalue? ==> i.index < c.upvalues
    ensures i.Closure? ==> forall v | v in i.captured :: v.index < (if v.isLocal then c.peak else c.upvalues)
  {
    hide Script, Inside, Sealed;
    ScriptIsWellMade(b);
    MadeInside(c, Script(b));
  }
}
