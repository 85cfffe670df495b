/** The source language: syntax trees of the modelled fragment and a big-step
    semantics for them. The semantics knows names, not slots: a for-in variable
    and a catch variable are local bindings, every other name is global. */
module Language {
  import opened Values

  datatype Expr =
    | Num(n: real)
    | Str(s: string)
    | Bool(b: bool)
    | Var(x: string)
    | Un(uop: UnOp, e: Expr)
    | Bin(op: BinOp, l: Expr, r: Expr)
    | And(l: Expr, r: Expr)
    | Or(l: Expr, r: Expr)
    | ListLit(es: seq<Expr>)

  datatype Stmt =
    | ExprStmt(e: Expr)
    | Assign(targets: seq<string>, e: Expr)
    | Print(e: Expr)
    | If(cond: Expr, thn: seq<Stmt>, els: seq<Stmt>)
    | Unless(cond: Expr, body: seq<Stmt>)
    | While(cond: Expr, body: seq<Stmt>)
    | Until(cond: Expr, body: seq<Stmt>)
    | Forever(body: seq<Stmt>)
    | Repeat(count: Expr, body: seq<Stmt>)
    | ForIn(x: string, over: Expr, body: seq<Stmt>)
    | Stop
    | Skip
    | Try(body: seq<Stmt>, x: string, handler: seq<Stmt>)
    | Throw(e: Expr)
    | Pass

  /** Names the compiler uses for its own stack slots. */
  predicate Hidden(x: string) { x == "" || x == "_iter" }

  datatype Binding = Binding(name: string, val: Value)

  datatype State = State(globals: map<string, Value>, env: seq<Binding>, out: seq<string>)

  function EnvFind(env: seq<Binding>, x: string): (i: int)
    ensures -1 <= i < |env|
    ensures i != -1 ==> env[i].name == x
  {
    if env == [] then -1
    else if env[|env| - 1].name == x then |env| - 1
    else EnvFind(env[..|env| - 1], x)
  }

  function Lookup(st: State, x: string): Result {
    var i := EnvFind(st.env, x);
    if i != -1 then Ok(st.env[i].val)
    else if x in st.globals then Ok(st.globals[x])
    else Fault("Undefined variable: " + x)
  }

  function Store(st: State, x: string, v: Value): State {
    var i := EnvFind(st.env, x);
    if i != -1 then st.(env := st.env[i := Binding(x, v)])
    else st.(globals := st.globals[x := v])
  }

  function StoreAll(st: State, xs: seq<string>, v: Value): State
    decreases xs
  {
    if xs == [] then st else StoreAll(Store(st, xs[0], v), xs[1..], v)
  }

  function Bind(st: State, x: string, v: Value): State {
    if Hidden(x) then st else st.(env := st.env + [Binding(x, v)])
  }

  /** Leaves the scopes opened since the environment had n bindings. */
  function Trim(st: State, n: nat): State {
    if n <= |st.env| then st.(env := st.env[..n]) else st
  }

  datatype EvalList = Got(vs: seq<Value>) | Failed(e: Value)

  function Eval(e: Expr, st: State, show: Show): Result
    decreases e
  {
    match e
    case Num(n) => Ok(VNum(n))
    case Str(s) => Ok(VStr(s))
    case Bool(b) => Ok(VBool(b))
    case Var(x) => Lookup(st, x)
    case Un(op, a) =>
      var r := Eval(a, st, show);
      if r.Err? then r else Unary(op, r.v)
    case Bin(op, l, r) =>
      var a := Eval(l, st, show);
      if a.Err? then a else
      var b := Eval(r, st, show);
      if b.Err? then b else Binary(op, a.v, b.v, show)
    case And(l, r) =>
      var a := Eval(l, st, show);
      if a.Err? || !Truthy(a.v) then a else Eval(r, st, show)
    case Or(l, r) =>
      var a := Eval(l, st, show);
      if a.Err? || Truthy(a.v) then a else Eval(r, st, show)
    case ListLit(es) =>
      match EvalAll(es, st, show)
      case Got(vs) => Ok(VList(vs))
      case Failed(err) => Err(err)
  }

  function EvalAll(es: seq<Expr>, st: State, show: Show): (r: EvalList)
    ensures r.Got? ==> |r.vs| == |es|
    decreases es
  {
    if es == [] then Got([]) else
    match Eval(es[0], st, show)
    case Err(err) => Failed(err)
    case Ok(v) =>
      match EvalAll(es[1..], st, show)
      case Failed(err) => Failed(err)
      case Got(vs) => Got([v] + vs)
  }

  /** How a statement ends: normally, by `stop`, by `skip`, or by an error. */
  datatype Outcome =
    | Normal(st: State)
    | Stopped(st: State)
    | Skipped(st: State)
    | Threw(err: Value, st: State)


  function TrimOutcome(o: Option<Outcome>, n: nat): Option<Outcome> {
    match o
    case None => None
    case Some(Normal(st)) => Some(Normal(Trim(st, n)))
    case Some(Stopped(st)) => Some(Stopped(Trim(st, n)))
    case Some(Skipped(st)) => Some(Skipped(Trim(st, n)))
    case Some(Threw(v, st)) => Some(Threw(v, Trim(st, n)))
  }

  /** Big-step execution. Fuel bounds the number of rounds of every loop, so that
      the function is total; None means a loop ran out of rounds. */
  function Exec(s: Stmt, st: State, fuel: nat, show: Show): Option<Outcome>
    decreases fuel, s, 0
  {
    match s
    case ExprStmt(e) =>
      (match Eval(e, st, show) case Err(v) => Some(Threw(v, st)) case Ok(_) => Some(Normal(st)))
    case Assign(xs, e) =>
      (match Eval(e, st, show)
       case Err(v) => Some(Threw(v, st))
       case Ok(v) => Some(Normal(StoreAll(st, xs, v))))
    case Print(e) =>
      (match Eval(e, st, show)
       case Err(v) => Some(Threw(v, st))
       case Ok(v) => Some(Normal(st.(out := st.out + [show(v)]))))
    case If(c, thn, els) =>
      (match Eval(c, st, show)
       case Err(v) => Some(Threw(v, st))
       case Ok(v) => if Truthy(v) then ExecBlock(thn, st, fuel, show) else ExecBlock(els, st, fuel, show))
    case Unless(c, body) =>
      (match Eval(c, st, show)
       case Err(v) => Some(Threw(v, st))
       case Ok(v) => if Truthy(v) then Some(Normal(st)) else ExecBlock(body, st, fuel, show))
    case While(c, body) => ExecLoop(c, true, body, st, fuel, show)
    case Until(c, body) => ExecLoop(c, false, body, st, fuel, show)
    case Forever(body) => ExecForever(body, st, fuel, show)
    case Repeat(count, body) =>
      (match Eval(count, st, show)
       case Err(v) => Some(Threw(v, st))
       case Ok(v) => ExecTimes(Times(v), body, st, fuel, show))
    case ForIn(x, over, body) =>
      (match Eval(over, st, show)
       case Err(v) => Some(Threw(v, st))
       case Ok(v) => ExecItems(x, Items(v), body, st, fuel, show))
    case Stop => Some(Stopped(st))
    case Skip => Some(Skipped(st))
    case Try(body, x, handler) =>
      (match ExecBlock(body, st, fuel, show)
       case Some(Threw(v, st1)) => TrimOutcome(ExecBlock(handler, Bind(st1, x, v), fuel, show), |st1.env|)
       case o => o)
    case Throw(e) =>
      (match Eval(e, st, show) case Err(v) => Some(Threw(v, st)) case Ok(v) => Some(Threw(v, st)))
    case Pass => Some(Normal(st))
  }

  function ExecBlock(b: seq<Stmt>, st: State, fuel: nat, show: Show): Option<Outcome>
    decreases fuel, b, 0
  {
    if b == [] then Some(Normal(st)) else
    match Exec(b[0], st, fuel, show)
    case Some(Normal(st1)) => ExecBlock(b[1..], st1, fuel, show)
    case o => o
  }

  /** `while` when the body runs on a true condition, `until` when on a false one. */
  function ExecLoop(c: Expr, runOn: bool, body: seq<Stmt>, st: State, fuel: nat, show: Show): Option<Outcome>
    decreases fuel, body, 1
  {
    if fuel == 0 then None else
    match Eval(c, st, show)
    case Err(v) => Some(Threw(v, st))
    case Ok(v) =>
      if Truthy(v) != runOn then Some(Normal(st)) else
      match ExecBlock(body, st, fuel, show)
      case Some(Normal(st1)) => ExecLoop(c, runOn, body, st1, fuel - 1, show)
      case Some(Skipped(st1)) => ExecLoop(c, runOn, body, st1, fuel - 1, show)
      case Some(Stopped(st1)) => Some(Normal(st1))
      case o => o
  }

  function ExecForever(body: seq<Stmt>, st: State, fuel: nat, show: Show): Option<Outcome>
    decreases fuel, body, 1
  {
    if fuel == 0 then None else
    match ExecBlock(body, st, fuel, show)
    case Some(Normal(st1)) => ExecForever(body, st1, fuel - 1, show)
    case Some(Skipped(st1)) => ExecForever(body, st1, fuel - 1, show)
    case Some(Stopped(st1)) => Some(Normal(st1))
    case o => o
  }

  function ExecTimes(n: nat, body: seq<Stmt>, st: State, fuel: nat, show: Show): Option<Outcome>
    decreases fuel, body, 1
  {
    if n == 0 then Some(Normal(st))
    else if fuel == 0 then None else
    match ExecBlock(body, st, fuel, show)
    case Some(Normal(st1)) => ExecTimes(n - 1, body, st1, fuel - 1, show)
    case Some(Skipped(st1)) => ExecTimes(n - 1, body, st1, fuel - 1, show)
    case Some(Stopped(st1)) => Some(Normal(st1))
    case o => o
  }

  function ExecItems(x: string, items: seq<Value>, body: seq<Stmt>, st: State, fuel: nat, show: Show): Option<Outcome>
    decreases fuel, body, 1
  {
    if items == [] then Some(Normal(st))
    else if fuel == 0 then None else
    match TrimOutcome(ExecBlock(body, Bind(st, x, items[0]), fuel, show), |st.env|)
    case Some(Normal(st1)) => ExecItems(x, items[1..], body, st1, fuel - 1, show)
    case Some(Skipped(st1)) => ExecItems(x, items[1..], body, st1, fuel - 1, show)
    case Some(Stopped(st1)) => Some(Normal(st1))
    case o => o
  }
}
