/** The dispatch loop of the virtual machine, on bytes. Operand underflow and bytes
    that are no instruction end the modelled run as Stuck. */
module Vm {
  import opened Bytes
  import opened Values
  import opened Machine
  import opened Bytecode

  class VM {
    const code: seq<byte>
    const constants: seq<Value>
    const show: Show
    var ip: nat
    var stack: seq<Value>
    var tryStack: seq<TryFrame>
    var globals: map<string, Value>
    var output: seq<string>
    var errorValue: Option<Value>
    var status: Status

    ghost function C(): Config
      reads this
    {
      Config(ip, stack, tryStack, globals, output, errorValue, status)
    }

    ghost function M(): Machine { Machine(Disassemble(code, constants), show) }

    constructor (code: seq<byte>, constants: seq<Value>, show: Show, globals: map<string, Value>)
      ensures this.code == code && this.constants == constants && this.show == show && C() == Start(globals)
    {
      this.code, this.constants, this.show, this.globals := code, constants, show, globals;
      ip, stack, tryStack, output, errorValue, status := 0, [VScript], [], [], None, Running;
    }

    method Push(v: Value)
      modifies this`stack
      ensures stack == old(stack) + [v]
    {
      stack := stack + [v];
    }

    method Pop() returns (v: Value)
      requires stack != []
      modifies this`stack
      ensures old(stack) == stack + [v]
    {
      v := stack[|stack| - 1];
      stack := stack[..|stack| - 1];
    }

    method ReadByte() returns (b: byte)
      requires ip < |code|
      modifies this`ip
      ensures ip == old(ip) + 1 && b == code[old(ip)]
    {
      b := code[ip];
      ip := ip + 1;
    }

    method ReadShort() returns (n: nat)
      requires ip + 2 <= |code|
      modifies this`ip
      ensures ip == old(ip) + 2 && n == Short(code, old(ip))
    {
      ip := ip + 2;
      var high: int, low: int := code[ip - 2], code[ip - 1];
      n := high * 256 + low;
    }

    /** A pending error: to the innermost handler, or out of the script. */
    method UnwindError()
      requires status == Running && errorValue.Some?
      modifies this
      ensures C() == Unwind(old(C()))
    {
      if tryStack == [] {
        status, errorValue := Uncaught(errorValue.value), None;
        return;
      }
      var tf := tryStack[|tryStack| - 1];
      if tf.height > |stack| {
        status := Stuck;
        return;
      }
      tryStack := tryStack[..|tryStack| - 1];
      stack := stack[..tf.height];
      Push(errorValue.value);
      ip := tf.catch;
      errorValue := None;
    }

    /** The opcode at p has been read, and its instruction is i. */
    ghost predicate Reading(p: nat, op: byte, i: Instr)
      reads this
    {
      && status == Running && errorValue == None && ip == p + 1 && p < |code| && code[p] == op
      && Decode(code, constants, p) == Some(i) && p + Len(i) <= |code| && Needs(i) <= |stack|
    }


    method BuildList()
      requires ip < |code| && code[ip] as int <= |stack|
      modifies this`ip, this`stack
      ensures var n: int := code[old(ip)];
              ip == old(ip) + 1 && stack == old(stack)[..|old(stack)| - n] + [VList(old(stack)[|old(stack)| - n..])]
    {
      var n := ReadByte();
      stack := stack[..|stack| - n] + [VList(stack[|stack| - n..])];
    }

    method DispatchStack(op: byte, ghost p: nat, ghost i: Instr) returns (done: bool)
      requires Reading(p, op, i)
      modifies this
      ensures done <==> op in {OP_CONSTANT, OP_NULL, OP_TRUE, OP_FALSE, OP_POP, OP_DUP, OP_LIST}
      ensures if done then C() == Perform(i, show, old(C()).(pc := p)) else C() == old(C())
    {
      hide Decode, Short, Perform, Len;
      StackOps(code, constants, p, i);
      PerformStackOps(i, show, C().(pc := p));
      if i.MakeList? { PerformList(i, show, C().(pc := p)); }
      done := true;
      if op == OP_CONSTANT {
        var n := ReadShort();
        Push(constants[n]);
      } else if op == OP_NULL {
        Push(VNull);
      } else if op == OP_TRUE {
        Push(VBool(true));
      } else if op == OP_FALSE {
        Push(VBool(false));
      } else if op == OP_POP {
        var _ := Pop();
      } else if op == OP_DUP {
        Push(stack[|stack| - 1]);
      } else if op == OP_LIST {
        BuildList();
      } else {
        done := false;
      }
    }

    method DispatchVariable(op: byte, ghost p: nat, ghost i: Instr) returns (done: bool)
      requires Reading(p, op, i)
      modifies this
      ensures done <==> op in {OP_GET_LOCAL, OP_SET_LOCAL, OP_GET_GLOBAL, OP_DEFINE_GLOBAL}
      ensures if done then C() == Perform(i, show, old(C()).(pc := p)) else C() == old(C())
    {
      hide Decode, Short, Perform, Needs, Len;
      VariableOps(code, constants, p, i);
      PerformVariable(i, show, C().(pc := p));
      done := true;
      if op == OP_GET_LOCAL {
        var slot := ReadShort();
        if slot >= |stack| {
          ip, status := ip - 3, Stuck;
          return;
        }
        Push(stack[slot]);
      } else if op == OP_SET_LOCAL {
        var slot := ReadShort();
        if slot >= |stack| {
          ip, status := ip - 3, Stuck;
          return;
        }
        stack := stack[slot := stack[|stack| - 1]];
      } else if op == OP_GET_GLOBAL {
        var n := ReadShort();
        var name := constants[n].s;
        if name in globals { Push(globals[name]); } else { errorValue := Some(VStr("Undefined variable: " + name)); }
      } else if op == OP_DEFINE_GLOBAL {
        var n := ReadShort();
        var v := Pop();
        globals := globals[constants[n].s := v];
      } else {
        done := false;
      }
    }

    /** A binary operator: both operands are popped, then the result is pushed or the error raised. */
    method BinaryOp(op: BinOp)
      requires |stack| >= 2
      modifies this`stack, this`errorValue
      ensures old(errorValue) == None ==>
                var n := |old(stack)|;
                C() == Settle(old(C()), ip, old(stack)[..n - 2], Binary(op, old(stack)[n - 2], old(stack)[n - 1], show))
    {
      hide Binary;
      var b := Pop();
      var a := Pop();
      var r := Binary(op, a, b, show);
      if r.Ok? { Push(r.v); } else { errorValue := Some(r.e); }
    }

    method DispatchOperator(op: byte, ghost p: nat, ghost i: Instr) returns (done: bool)
      requires Reading(p, op, i)
      modifies this
      ensures done <==> i.Operate?
      ensures if done then C() == Perform(i, show, old(C()).(pc := p)) else C() == old(C())
    {
      hide Binary, Unary;
      OperatorOps(code, constants, p, i);
      done := true;
      if op == OP_ADD { BinaryOp(Add); }
      else if op == OP_SUBTRACT { BinaryOp(Sub); }
      else if op == OP_MULTIPLY { BinaryOp(Mul); }
      else if op == OP_DIVIDE { BinaryOp(Div); }
      else if op == OP_FLOORDIV { BinaryOp(FloorDiv); }
      else if op == OP_MOD { BinaryOp(Mod); }
      else if op == OP_EQUAL { BinaryOp(Equal); }
      else if op == OP_NOT_EQUAL { BinaryOp(NotEqual); }
      else if op == OP_GREATER { BinaryOp(Greater); }
      else if op == OP_LESS { BinaryOp(Less); }
      else if op == OP_GREATER_EQUAL { BinaryOp(GreaterEq); }
      else if op == OP_LESS_EQUAL { BinaryOp(LessEq); }
      else if op == OP_IN { BinaryOp(In); }
      else if op == OP_NOT_IN { BinaryOp(NotIn); }
      else { done := false; }
    }

    method DispatchJump(op: byte, ghost p: nat, ghost i: Instr) returns (done: bool)
      requires Reading(p, op, i)
      modifies this
      ensures done <==> op in {OP_JUMP, OP_JUMP_IF_FALSE, OP_LOOP}
      ensures if done then C() == Perform(i, show, old(C()).(pc := p)) else C() == old(C())
    {
      WideOps(code, constants, p, i);
      hide Decode, Short;
      done := true;
      if op == OP_JUMP {
        var n := ReadShort();
        ip := ip + n;
      } else if op == OP_JUMP_IF_FALSE {
        var n := ReadShort();
        if !Truthy(stack[|stack| - 1]) { ip := ip + n; }
      } else if op == OP_LOOP {
        var n := ReadShort();
        ip := ip - n;
      } else {
        done := false;
      }
    }

    method BeginTryBlock()
      requires ip + 2 <= |code|
      modifies this`ip, this`tryStack
      ensures C() == old(C()).(pc := old(ip) + 2, tries := old(tryStack) + [TryFrame(old(ip) + 2 + Short(code, old(ip)), |stack|)])
    {
      var n := ReadShort();
      tryStack := tryStack + [TryFrame(ip + n, |stack|)];
    }

    method EndTryBlock()
      requires ip > 0
      modifies this`ip, this`status, this`tryStack
      ensures C() == if old(tryStack) == [] then old(C()).(pc := old(ip) - 1, status := Stuck)
                     else old(C()).(tries := old(tryStack)[..|old(tryStack)| - 1])
    {
      if tryStack == [] {
        ip, status := ip - 1, Stuck;
        return;
      }
      tryStack := tryStack[..|tryStack| - 1];
    }

    method ThrowTop()
      requires stack != []
      modifies this`stack, this`errorValue
      ensures C() == old(C()).(stack := old(stack)[..|old(stack)| - 1], err := Some(old(stack)[|old(stack)| - 1]))
    {
      var v := Pop();
      errorValue := Some(v);
    }

    method DispatchControl(op: byte, ghost p: nat, ghost i: Instr) returns (done: bool)
      requires Reading(p, op, i)
      modifies this
      ensures done <==> op in {OP_TRY, OP_END_TRY, OP_THROW, OP_RETURN}
      ensures if done then C() == Perform(i, show, old(C()).(pc := p)) else C() == old(C())
    {
      hide Decode, Short, Perform, Needs, Len;
      WideOps(code, constants, p, i);
      PlainOps(code, constants, p, i);
      PerformControl(i, show, C().(pc := p));
      done := true;
      if op == OP_TRY {
        BeginTryBlock();
      } else if op == OP_END_TRY {
        EndTryBlock();
      } else if op == OP_THROW {
        ThrowTop();
      } else if op == OP_RETURN {
        ip, status := ip - 1, Finished(stack[|stack| - 1]);
      } else {
        done := false;
      }
    }

    /** The next item of the iterator on the stack, or out of the loop. */
    method NextItem()
      requires ip + 2 <= |code| && stack != []
      modifies this
      ensures var c, top := old(C()).(pc := old(ip) + 2), old(stack[|stack| - 1]);
              C() ==
              if !top.VIter? then c.(err := Some(VStr("Invalid iterator object")))
              else if top.index < |Items(top.over)| then
                c.(stack := c.stack[..|c.stack| - 1] + [VIter(top.over, top.index + 1), Items(top.over)[top.index]])
              else c.(pc := c.pc + Short(code, old(ip)))
    {
      hide Items, Short;
      var n := ReadShort();
      var top := stack[|stack| - 1];
      if !top.VIter? {
        errorValue := Some(VStr("Invalid iterator object"));
      } else if top.index < |Items(top.over)| {
        stack := stack[..|stack| - 1] + [VIter(top.over, top.index + 1), Items(top.over)[top.index]];
      } else {
        ip := ip + n;
      }
    }

    method DispatchIter(op: byte, ghost p: nat, ghost i: Instr) returns (done: bool)
      requires Reading(p, op, i)
      modifies this
      ensures done <==> op in {OP_GET_ITER, OP_FOR_ITER}
      ensures if done then C() == Perform(i, show, old(C()).(pc := p)) else C() == old(C())
    {
      hide Items, Decode, Short, Perform, Len;
      WideOps(code, constants, p, i);
      PlainOps(code, constants, p, i);
      PerformIter(i, show, C().(pc := p));
      done := true;
      if op == OP_GET_ITER {
        var v := Pop();
        Push(VIter(v, 0));
      } else if op == OP_FOR_ITER {
        NextItem();
      } else {
        done := false;
      }
    }

    method DispatchRest(op: byte, ghost p: nat, ghost i: Instr)
      requires Reading(p, op, i) && (i.Apply? || i.Output?)
      modifies this
      ensures C() == Perform(i, show, old(C()).(pc := p))
    {
      RestOps(code, constants, p, i);
      hide Unary, Decode;
      if op == OP_NOT || op == OP_NEGATE {
        var r := Unary(if op == OP_NOT then Not else Negate, stack[|stack| - 1]);
        if r.Ok? { stack := stack[..|stack| - 1] + [r.v]; } else { errorValue := Some(r.e); }
      } else {
        var v := Pop();
        output := output + [show(v)];
      }
    }

    /** One turn of the dispatch loop. */
    method Dispatch()
      requires status == Running
      modifies this
      ensures C() == Step(M(), old(C()))
    {
      hide Perform, Decode, Unwind;
      if errorValue.Some? {
        UnwindError();
        return;
      }
      var d := Decode(code, constants, ip);
      if d.None? {
        status := Stuck;
        return;
      }
      ghost var p, i := ip, d.value;
      DecodeLength(code, constants, p, i);
      if Needs(d.value) > |stack| {
        status := Stuck;
        PerformStuck(i, show, old(C()));
        return;
      }
      var op := ReadByte();
      Groups(code, constants, p, i);
      var done := DispatchStack(op, p, i);
      if !done { done := DispatchVariable(op, p, i); }
      if !done { done := DispatchOperator(op, p, i); }
      if !done { done := DispatchJump(op, p, i); }
      if !done { done := DispatchControl(op, p, i); }
      if !done { done := DispatchIter(op, p, i); }
      if !done { DispatchRest(op, p, i); }
    }

    /** At most `limit` turns of the dispatch loop. */
    method RunFor(limit: nat)
      modifies this
      ensures C() == Run(M(), old(C()), limit)
    {
      hide Step;
      var n := 0;
      while n < limit && status == Running
        invariant n <= limit && Run(M(), C(), limit - n) == Run(M(), old(C()), limit)
      {
        Dispatch();
        n := n + 1;
      }
      RunRest(M(), C(), limit - n);
    }
  }

  lemma RunRest(m: Machine, c: Config, n: nat)
    requires c.status != Running || n == 0
    ensures Run(m, c, n) == c
  {
    if n > 0 { RunHalted(m, c, n); }
  }

  lemma PerformStuck(i: Instr, show: Show, c: Config)
    requires Needs(i) > |c.stack|
    ensures Perform(i, show, c) == c.(status := Stuck)
  {}

  lemma OperatorOps(code: seq<byte>, constants: seq<Value>, p: nat, i: Instr)
    requires Decode(code, constants, p) == Some(i)
    ensures i.Operate? ==> code[p] == OpOf(i.op)
    ensures !i.Operate? ==> forall op: BinOp :: code[p] != OpOf(op)
  {}

  /** Constants and plain stack moves. */
  lemma StackOps(code: seq<byte>, constants: seq<Value>, p: nat, i: Instr)
    requires Decode(code, constants, p) == Some(i)
    ensures code[p] == OP_CONSTANT ==> p + 3 <= |code| && Short(code, p + 1) < |constants| && i == Const(constants[Short(code, p + 1)])
    ensures code[p] == OP_NULL ==> i == PushNull
    ensures code[p] == OP_TRUE ==> i == PushBool(true)
    ensures code[p] == OP_FALSE ==> i == PushBool(false)
    ensures code[p] == OP_POP ==> i == Instr.Pop
    ensures code[p] == OP_DUP ==> i == Dup
    ensures code[p] == OP_LIST ==> p + 2 <= |code| && i == MakeList(code[p + 1])
  {}

  lemma PerformStackOps(i: Instr, show: Show, c: Config)
    requires Needs(i) <= |c.stack|
    ensures i.Const? ==> Perform(i, show, c) == c.(pc := c.pc + 3, stack := c.stack + [i.v])
    ensures i == PushNull ==> Perform(i, show, c) == c.(pc := c.pc + 1, stack := c.stack + [VNull])
    ensures i.PushBool? ==> Perform(i, show, c) == c.(pc := c.pc + 1, stack := c.stack + [VBool(i.b)])
    ensures i == Instr.Pop ==> c.stack != [] && Perform(i, show, c) == c.(pc := c.pc + 1, stack := c.stack[..|c.stack| - 1])
    ensures i == Dup ==> c.stack != [] && Perform(i, show, c) == c.(pc := c.pc + 1, stack := c.stack + [c.stack[|c.stack| - 1]])
  {}

  lemma PerformList(i: Instr, show: Show, c: Config)
    requires i.MakeList? && i.n <= |c.stack|
    ensures Perform(i, show, c) == c.(pc := c.pc + 2, stack := c.stack[..|c.stack| - i.n] + [VList(c.stack[|c.stack| - i.n..])])
  {}

  lemma VariableOps(code: seq<byte>, constants: seq<Value>, p: nat, i: Instr)
    requires Decode(code, constants, p) == Some(i)
    ensures code[p] in {OP_GET_LOCAL, OP_SET_LOCAL, OP_GET_GLOBAL, OP_DEFINE_GLOBAL} ==> p + 3 <= |code|
    ensures code[p] == OP_GET_LOCAL ==> i == GetLocal(Short(code, p + 1))
    ensures code[p] == OP_SET_LOCAL ==> i == SetLocal(Short(code, p + 1))
    ensures code[p] in {OP_GET_GLOBAL, OP_DEFINE_GLOBAL} ==> Short(code, p + 1) < |constants| && constants[Short(code, p + 1)].VStr?
    ensures code[p] == OP_GET_GLOBAL ==> i == GetGlobal(constants[Short(code, p + 1)].s)
    ensures code[p] == OP_DEFINE_GLOBAL ==> i == DefineGlobal(constants[Short(code, p + 1)].s)
  {}

  lemma PerformVariable(i: Instr, show: Show, c: Config)
    requires Needs(i) <= |c.stack|
    ensures i.GetLocal? ==>
              Perform(i, show, c) ==
              if i.slot < |c.stack| then c.(pc := c.pc + 3, stack := c.stack + [c.stack[i.slot]]) else c.(status := Stuck)
    ensures i.SetLocal? || i.DefineGlobal? ==> c.stack != []
    ensures i.SetLocal? ==>
              Perform(i, show, c) ==
              if i.slot < |c.stack| then c.(pc := c.pc + 3, stack := c.stack[i.slot := c.stack[|c.stack| - 1]]) else c.(status := Stuck)
    ensures i.GetGlobal? ==>
              Perform(i, show, c) ==
              if i.x in c.globals then c.(pc := c.pc + 3, stack := c.stack + [c.globals[i.x]])
              else c.(pc := c.pc + 3, err := Some(VStr("Undefined variable: " + i.x)))
    ensures i.DefineGlobal? ==>
              Perform(i, show, c) ==
              c.(pc := c.pc + 3, stack := c.stack[..|c.stack| - 1], globals := c.globals[i.x := c.stack[|c.stack| - 1]])
  {}

  lemma PerformControl(i: Instr, show: Show, c: Config)
    requires Needs(i) <= |c.stack|
    ensures i == Raise || i == Instr.Return ==> c.stack != []
    ensures i.BeginTry? ==> Perform(i, show, c) == c.(pc := c.pc + 3, tries := c.tries + [TryFrame(i.target, |c.stack|)])
    ensures i == EndTry && c.tries == [] ==> Perform(i, show, c) == c.(status := Stuck)
    ensures i == EndTry && c.tries != [] ==> Perform(i, show, c) == c.(pc := c.pc + 1, tries := c.tries[..|c.tries| - 1])
    ensures i == Raise ==> Perform(i, show, c) == c.(pc := c.pc + 1, stack := c.stack[..|c.stack| - 1], err := Some(c.stack[|c.stack| - 1]))
    ensures i == Instr.Return ==> Perform(i, show, c) == c.(status := Finished(c.stack[|c.stack| - 1]))
  {}

  lemma PerformIter(i: Instr, show: Show, c: Config)
    requires Needs(i) <= |c.stack|
    ensures i == GetIter ==> Perform(i, show, c) == c.(pc := c.pc + 1, stack := c.stack[..|c.stack| - 1] + [VIter(c.stack[|c.stack| - 1], 0)])
    ensures i.ForIter? ==>
              var top := c.stack[|c.stack| - 1];
              Perform(i, show, c) ==
              if !top.VIter? then c.(pc := c.pc + 3, err := Some(VStr("Invalid iterator object")))
              else if top.index < |Items(top.over)| then
                c.(pc := c.pc + 3, stack := c.stack[..|c.stack| - 1] + [VIter(top.over, top.index + 1), Items(top.over)[top.index]])
              else c.(pc := i.target)
  {
    hide Items;
  }

  /** The instructions with a jump operand. */
  lemma WideOps(code: seq<byte>, constants: seq<Value>, p: nat, i: Instr)
    requires Decode(code, constants, p) == Some(i)
    ensures code[p] in {OP_JUMP, OP_JUMP_IF_FALSE, OP_LOOP, OP_TRY, OP_FOR_ITER} ==> p + 3 <= |code|
    ensures code[p] == OP_JUMP ==> i == Jump(p + 3 + Short(code, p + 1))
    ensures code[p] == OP_JUMP_IF_FALSE ==> i == JumpIfFalse(p + 3 + Short(code, p + 1))
    ensures code[p] == OP_LOOP ==> Short(code, p + 1) <= p + 3 && i == Loop(p + 3 - Short(code, p + 1))
    ensures code[p] == OP_TRY ==> i == BeginTry(p + 3 + Short(code, p + 1))
    ensures code[p] == OP_FOR_ITER ==> i == ForIter(p + 3 + Short(code, p + 1))
  {}

  lemma PlainOps(code: seq<byte>, constants: seq<Value>, p: nat, i: Instr)
    requires Decode(code, constants, p) == Some(i)
    ensures code[p] == OP_END_TRY ==> i == EndTry
    ensures code[p] == OP_THROW ==> i == Raise
    ensures code[p] == OP_RETURN ==> i == Instr.Return
    ensures code[p] == OP_GET_ITER ==> i == GetIter
  {}

  lemma RestOps(code: seq<byte>, constants: seq<Value>, p: nat, i: Instr)
    requires Decode(code, constants, p) == Some(i)
    ensures i.Apply? ==> code[p] == if i.uop == Not then OP_NOT else OP_NEGATE
    ensures i == Output ==> code[p] == OP_PRINT
  {}

  lemma Groups(code: seq<byte>, constants: seq<Value>, p: nat, i: Instr)
    requires Decode(code, constants, p) == Some(i)
    ensures i.Operate? || i.Apply? || i.Output?
            || code[p] in {OP_CONSTANT, OP_NULL, OP_TRUE, OP_FALSE, OP_POP, OP_DUP, OP_LIST}
            || code[p] in {OP_GET_LOCAL, OP_SET_LOCAL, OP_GET_GLOBAL, OP_DEFINE_GLOBAL}
            || code[p] in {OP_JUMP, OP_JUMP_IF_FALSE, OP_LOOP} || code[p] in {OP_TRY, OP_END_TRY, OP_THROW, OP_RETURN}
            || code[p] in {OP_GET_ITER, OP_FOR_ITER}
  {}
}
