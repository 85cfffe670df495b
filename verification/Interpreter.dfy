/** From source to result: compile a script, then run its bytes. */
module Interpreter {
  import opened Values
  import opened Language
  import opened CodeGen
  import opened Machine
  import opened Bytecode
  import opened Programs
  import opened Limits
  import opened Compiler
  import opened Correctness
  import opened Vm

  /** Compiles b and runs it for at most `limit` turns. A result is what the source means,
      and there is none only while the machine still runs. */
  method Interpret(b: seq<Stmt>, globals: map<string, Value>, show: Show, limit: nat)
      returns (ok: bool, r: Option<Behaviour>, ghost m: Machine)
    ensures ok <==> Compiles(b)
    ensures ok ==> LayoutScript(m.code, b) && m.show == show
    ensures ok && CleanTop(b, ScriptContext) && r.Some? ==> Means(b, globals, show, r.value)
    ensures ok && CleanTop(b, ScriptContext) && r.None? ==> Run(m, Start(globals), limit).status == Running
  {
    hide LayoutScript, Compiles, CleanTop, Disassemble, Run;
    var c := new ProperCompiler();
    m := Machine(map[], show);
    ok := c.Compile(b);
    r := None;
    if !ok { return; }
    var vm := new VM(c.code, c.constants, show, globals);
    m := vm.M();
    vm.RunFor(limit);
    ghost var end := vm.C();
    if vm.status.Finished? { r := Some(Behaviour(None, vm.globals, vm.output)); }
    else if vm.status.Uncaught? { r := Some(Behaviour(Some(vm.status.v), vm.globals, vm.output)); }
    if CleanTop(b, ScriptContext) && end.status != Running {
      ghost var r1 := HaltedMeansSource(m, b, globals, limit);
    }
  }
}
