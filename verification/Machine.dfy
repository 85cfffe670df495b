/** The virtual machine on decoded instructions: one step per dispatch, plus one
    step per error unwinding. Jump operands are absolute byte addresses here;
    Bytecode relates them to the relative big-endian operands of the real code. */
module Machine {
  import opened Values

  datatype Instr =
    | Const(v: Value)
    | PushNull
    | PushBool(b: bool)
    | Pop
    | GetLocal(slot: nat)
    | SetLocal(slot: nat)
    | GetGlobal(x: string)
    | DefineGlobal(x: string)
    | Operate(op: BinOp)
    | Apply(uop: UnOp)
    | Output
    | Jump(target: nat)
    | JumpIfFalse(target: nat)
    | Loop(target: nat)
    | Return
    | BeginTry(target: nat)
    | EndTry
    | Raise
    | MakeList(n: nat)
    | GetIter
    | ForIter(target: nat)
    | Dup

  /** The instruction that starts at each byte address. */
  type Listing = map<nat, Instr>

  datatype Machine = Machine(code: Listing, show: Show)


  /** A try-stack entry: where the handler starts and the stack height to restore. */
  datatype TryFrame = TryFrame(catch: nat, height: nat)

  datatype Status = Running | Finished(v: Value) | Uncaught(v: Value) | Stuck

  datatype Config = Config(
    pc: nat, stack: seq<Value>, tries: seq<TryFrame>,
    globals: map<string, Value>, out: seq<string>, err: Option<Value>, status: Status)

  function Start(globals: map<string, Value>): Config {
    Config(0, [VScript], [], globals, [], None, Running)
  }

  function Step(m: Machine, c: Config): Config {
    if c.status != Running then c
    else if c.err.Some? then Unwind(c)
    else if c.pc !in m.code then c.(status := Stuck)
    else Perform(m.code[c.pc], m.show, c)
  }

  /** A pending error goes to the innermost handler, or ends the run. */
  function Unwind(c: Config): Config
    requires c.err.Some?
  {
    if c.tries == [] then c.(err := None, status := Uncaught(c.err.value)) else
    var t := c.tries[|c.tries| - 1];
    if t.height > |c.stack| then c.(status := Stuck) else
    c.(pc := t.catch, stack := c.stack[..t.height] + [c.err.value], tries := c.tries[..|c.tries| - 1], err := None)
  }

  /** How many operands an instruction needs on the stack. */
  function Needs(i: Instr): nat {
    match i
    case Pop => 1
    case SetLocal(_) => 1
    case DefineGlobal(_) => 1
    case Operate(_) => 2
    case Apply(_) => 1
    case Output => 1
    case JumpIfFalse(_) => 1
    case Return => 1
    case Raise => 1
    case MakeList(n) => n
    case GetIter => 1
    case ForIter(_) => 1
    case Dup => 1
    case _ => 0
  }

  /** The length of an instruction in bytes. */
  function Len(i: Instr): nat {
    match i
    case Const(_) => 3
    case GetLocal(_) => 3
    case SetLocal(_) => 3
    case GetGlobal(_) => 3
    case DefineGlobal(_) => 3
    case Jump(_) => 3
    case JumpIfFalse(_) => 3
    case Loop(_) => 3
    case BeginTry(_) => 3
    case ForIter(_) => 3
    case MakeList(_) => 2
    case _ => 1
  }

  function Push(c: Config, pc: nat, base: seq<Value>, v: Value): Config {
    c.(pc := pc, stack := base + [v])
  }

  function Settle(c: Config, pc: nat, base: seq<Value>, r: Result): Config {
    match r
    case Ok(v) => Push(c, pc, base, v)
    case Err(e) => c.(pc := pc, stack := base, err := Some(e))
  }

  function Perform(i: Instr, show: Show, c: Config): Config {
    var n := |c.stack|;
    if Needs(i) > n then c.(status := Stuck) else
    var next := c.pc + Len(i);
    var top := if n > 0 then c.stack[n - 1] else VNull;
    match i
    case Const(v) => Push(c, next, c.stack, v)
    case PushNull => Push(c, next, c.stack, VNull)
    case PushBool(b) => Push(c, next, c.stack, VBool(b))
    case Pop => c.(pc := next, stack := c.stack[..n - 1])
    case GetLocal(slot) =>
      if slot < n then Push(c, next, c.stack, c.stack[slot]) else c.(status := Stuck)
    case SetLocal(slot) =>
      if slot < n then c.(pc := next, stack := c.stack[slot := top]) else c.(status := Stuck)
    case GetGlobal(x) =>
      Settle(c, next, c.stack, if x in c.globals then Ok(c.globals[x]) else Fault("Undefined variable: " + x))
    case DefineGlobal(x) => c.(pc := next, stack := c.stack[..n - 1], globals := c.globals[x := top])
    case Operate(op) => Settle(c, next, c.stack[..n - 2], Binary(op, c.stack[n - 2], top, show))
    case Apply(op) =>
      var r := Unary(op, top);
      if r.Err? then c.(pc := next, err := Some(r.e)) else Push(c, next, c.stack[..n - 1], r.v)
    case Output => c.(pc := next, stack := c.stack[..n - 1], out := c.out + [show(top)])
    case Jump(t) => c.(pc := t)
    case JumpIfFalse(t) => c.(pc := if Truthy(top) then next else t)
    case Loop(t) => c.(pc := t)
    case Return => c.(status := Finished(top))
    case BeginTry(t) => c.(pc := next, tries := c.tries + [TryFrame(t, n)])
    case EndTry => if c.tries == [] then c.(status := Stuck) else c.(pc := next, tries := c.tries[..|c.tries| - 1])
    case Raise => c.(pc := next, stack := c.stack[..n - 1], err := Some(top))
    case MakeList(k) => Push(c, next, c.stack[..n - k], VList(c.stack[n - k..]))
    case GetIter => Push(c, next, c.stack[..n - 1], VIter(top, 0))
    case ForIter(t) =>
      if !top.VIter? then c.(pc := next, err := Some(VStr("Invalid iterator object")))
      else if top.index < |Items(top.over)| then
        c.(pc := next, stack := c.stack[..n - 1] + [VIter(top.over, top.index + 1), Items(top.over)[top.index]])
      else c.(pc := t)
    case Dup => Push(c, next, c.stack, top)
  }

  /** n steps. */
  function Run(m: Machine, c: Config, n: nat): Config
    decreases n
  {
    if n == 0 then c else Run(m, Step(m, c), n - 1)
  }

  lemma {:induction false} RunAdd(m: Machine, c: Config, a: nat, b: nat)
    ensures Run(m, Run(m, c, a), b) == Run(m, c, a + b)
    decreases a
  {
    if a > 0 { RunAdd(m, Step(m, c), a - 1, b); }
  }

  lemma {:induction false} RunHalted(m: Machine, c: Config, n: nat)
    requires c.status != Running
    ensures Run(m, c, n) == c
  {
    if n > 0 { RunHalted(m, c, n - 1); }
  }

  /** Two runs, one after the other. */
  lemma Then(m: Machine, c: Config, j: nat, d: Config, k: nat, e: Config)
    requires Run(m, c, j) == d && Run(m, d, k) == e
    ensures Run(m, c, j + k) == e
  {
    RunAdd(m, c, j, k);
  }

  // ---- What each instruction does, one lemma each ----

  predicate Has(code: Listing, p: nat, i: Instr) { p in code && code[p] == i }

  predicate At(c: Config, p: nat) { c.status == Running && c.err == None && c.pc == p }

  /** The machine stands at instruction i. */
  predicate Ready(m: Machine, c: Config, i: Instr) { At(c, c.pc) && Has(m.code, c.pc, i) }

  lemma DoPush(m: Machine, c: Config, i: Instr, v: Value)
    requires Ready(m, c, i) && (i == Const(v) || (i == PushNull && v == VNull) || (i.PushBool? && v == VBool(i.b)))
    ensures Run(m, c, 1) == Push(c, c.pc + Len(i), c.stack, v)
  {
    assert Run(m, c, 1) == Step(m, c);
  }

  lemma DoGetLocal(m: Machine, c: Config, slot: nat)
    requires Ready(m, c, GetLocal(slot)) && slot < |c.stack|
    ensures Run(m, c, 1) == Push(c, c.pc + 3, c.stack, c.stack[slot])
  {
    assert Run(m, c, 1) == Step(m, c);
  }

  lemma DoSetLocal(m: Machine, c: Config, slot: nat, base: seq<Value>, v: Value)
    requires Ready(m, c, SetLocal(slot)) && slot < |base| && c.stack == base + [v]
    ensures Run(m, c, 1) == c.(pc := c.pc + 3, stack := base[slot := v] + [v])
  {
    assert Run(m, c, 1) == Step(m, c);
    assert c.stack[slot := v] == base[slot := v] + [v];
  }

  lemma DoGetGlobal(m: Machine, c: Config, x: string)
    requires Ready(m, c, GetGlobal(x))
    ensures x in c.globals ==> Run(m, c, 1) == Push(c, c.pc + 3, c.stack, c.globals[x])
    ensures x !in c.globals ==>
              Run(m, c, 1) == c.(pc := c.pc + 3, err := Some(VStr("Undefined variable: " + x)))
  {
    assert Run(m, c, 1) == Step(m, c);
  }

  lemma DoDefineGlobal(m: Machine, c: Config, x: string, base: seq<Value>, v: Value)
    requires Ready(m, c, DefineGlobal(x)) && c.stack == base + [v]
    ensures Run(m, c, 1) == c.(pc := c.pc + 3, stack := base, globals := c.globals[x := v])
  {
    assert Run(m, c, 1) == Step(m, c);
  }

  lemma DoPop(m: Machine, c: Config, base: seq<Value>, v: Value)
    requires Ready(m, c, Instr.Pop) && c.stack == base + [v]
    ensures Run(m, c, 1) == c.(pc := c.pc + 1, stack := base)
  {
    assert Run(m, c, 1) == Step(m, c);
  }

  lemma DoDup(m: Machine, c: Config, base: seq<Value>, v: Value)
    requires Ready(m, c, Dup) && c.stack == base + [v]
    ensures Run(m, c, 1) == Push(c, c.pc + 1, base + [v], v)
  {
    assert Run(m, c, 1) == Step(m, c);
  }

  lemma DoOperate(m: Machine, c: Config, op: BinOp, base: seq<Value>, a: Value, b: Value)
    requires Ready(m, c, Operate(op)) && c.stack == base + [a] + [b]
    ensures Run(m, c, 1) == Settle(c, c.pc + 1, base, Binary(op, a, b, m.show))
  {
    hide Binary;
    assert Run(m, c, 1) == Step(m, c);
    assert c.stack[..|c.stack| - 2] == base;
  }

  lemma DoApply(m: Machine, c: Config, op: UnOp, base: seq<Value>, a: Value)
    requires Ready(m, c, Apply(op)) && c.stack == base + [a]
    ensures var r := Unary(op, a);
            Run(m, c, 1) == if r.Ok? then Push(c, c.pc + 1, base, r.v) else c.(pc := c.pc + 1, err := Some(r.e))
  {
    hide Unary;
    assert Run(m, c, 1) == Step(m, c);
  }

  lemma DoOutput(m: Machine, c: Config, base: seq<Value>, v: Value)
    requires Ready(m, c, Output) && c.stack == base + [v]
    ensures Run(m, c, 1) == c.(pc := c.pc + 1, stack := base, out := c.out + [m.show(v)])
  {
    assert Run(m, c, 1) == Step(m, c);
  }

  lemma DoJump(m: Machine, c: Config, t: nat)
    requires Ready(m, c, Jump(t)) || Ready(m, c, Loop(t))
    ensures Run(m, c, 1) == c.(pc := t)
  {
    assert Run(m, c, 1) == Step(m, c);
  }

  lemma DoJumpIfFalse(m: Machine, c: Config, t: nat, base: seq<Value>, v: Value)
    requires Ready(m, c, JumpIfFalse(t)) && c.stack == base + [v]
    ensures Run(m, c, 1) == c.(pc := if Truthy(v) then c.pc + 3 else t)
  {
    assert Run(m, c, 1) == Step(m, c);
  }

  lemma DoReturn(m: Machine, c: Config, base: seq<Value>, v: Value)
    requires Ready(m, c, Return) && c.stack == base + [v]
    ensures Run(m, c, 1) == c.(status := Finished(v))
  {
    assert Run(m, c, 1) == Step(m, c);
  }

  lemma DoBeginTry(m: Machine, c: Config, t: nat)
    requires Ready(m, c, BeginTry(t))
    ensures Run(m, c, 1) == c.(pc := c.pc + 3, tries := c.tries + [TryFrame(t, |c.stack|)])
  {
    assert Run(m, c, 1) == Step(m, c);
  }

  lemma DoEndTry(m: Machine, c: Config, tries: seq<TryFrame>, t: TryFrame)
    requires Ready(m, c, EndTry) && c.tries == tries + [t]
    ensures Run(m, c, 1) == c.(pc := c.pc + 1, tries := tries)
  {
    assert Run(m, c, 1) == Step(m, c);
  }

  lemma DoRaise(m: Machine, c: Config, base: seq<Value>, v: Value)
    requires Ready(m, c, Raise) && c.stack == base + [v]
    ensures Run(m, c, 1) == c.(pc := c.pc + 1, stack := base, err := Some(v))
  {
    assert Run(m, c, 1) == Step(m, c);
  }

  lemma DoUnwind(m: Machine, c: Config, tries: seq<TryFrame>, t: TryFrame, v: Value)
    requires c.status == Running && c.err == Some(v) && c.tries == tries + [t] && t.height <= |c.stack|
    ensures Run(m, c, 1) == c.(pc := t.catch, stack := c.stack[..t.height] + [v], tries := tries, err := None)
  {
    assert Run(m, c, 1) == Step(m, c);
  }

  lemma DoMakeList(m: Machine, c: Config, base: seq<Value>, vs: seq<Value>)
    requires Ready(m, c, MakeList(|vs|)) && c.stack == base + vs
    ensures Run(m, c, 1) == Push(c, c.pc + 2, base, VList(vs))
  {
    assert Run(m, c, 1) == Step(m, c);
    assert c.stack[..|c.stack| - |vs|] == base && c.stack[|c.stack| - |vs|..] == vs;
  }

  lemma DoGetIter(m: Machine, c: Config, base: seq<Value>, v: Value)
    requires Ready(m, c, GetIter) && c.stack == base + [v]
    ensures Run(m, c, 1) == Push(c, c.pc + 1, base, VIter(v, 0))
  {
    assert Run(m, c, 1) == Step(m, c);
  }

  lemma DoForIter(m: Machine, c: Config, t: nat, base: seq<Value>, over: Value, n: nat)
    requires Ready(m, c, ForIter(t)) && c.stack == base + [VIter(over, n)]
    ensures Run(m, c, 1) ==
            if n < |Items(over)|
            then c.(pc := c.pc + 3, stack := base + [VIter(over, n + 1), Items(over)[n]])
            else c.(pc := t)
  {
    hide Items;
    assert Run(m, c, 1) == Step(m, c);
  }
}
