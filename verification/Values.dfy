/** Run-time values of the scripting language and the operators on them.
    The virtual machine and the source semantics share these operators, so the
    compiler theorem is about control flow, slots and jumps, not about arithmetic. */
module Values {

  /** A number is an exact real: rounding, NaN and infinities are not modelled.
      Lists are values because nothing in the modelled fragment updates one in place.
      An iterator is the hidden value a for-in loop keeps on the stack. */
  datatype Value =
    | VNull
    | VBool(b: bool)
    | VNum(r: real)
    | VStr(s: string)
    | VList(elems: seq<Value>)
    | VIter(over: Value, index: nat)
    | VScript

  /** The text form of a value; number formatting is a parameter of the model. */
  type Show = Value -> string

  datatype Option<T> = None | Some(value: T)

  datatype Result = Ok(v: Value) | Err(e: Value)

  datatype BinOp =
    | Add | Sub | Mul | Div | FloorDiv | Mod
    | Equal | NotEqual | Greater | Less | GreaterEq | LessEq
    | In | NotIn

  datatype UnOp = Negate | Not

  predicate Truthy(v: Value) {
    match v
    case VBool(b) => b
    case VNum(r) => r != 0.0
    case VStr(s) => s != ""
    case VNull => false
    case _ => true
  }

  predicate StrLess(a: string, b: string) {
    b != "" && (a == "" || a[0] < b[0] || (a[0] == b[0] && StrLess(a[1..], b[1..])))
  }

  predicate LessThan(a: Value, b: Value) {
    match (a, b)
    case (VNum(x), VNum(y)) => x < y
    case (VStr(x), VStr(y)) => StrLess(x, y)
    case _ => false
  }

  function RepeatText(s: string, n: int): string {
    if n <= 0 then "" else RepeatText(s, n - 1) + s
  }

  predicate Contains(s: string, sub: string) {
    exists i :: 0 <= i <= |s| && sub <= s[i..]
  }

  function Fault(message: string): Result { Err(VStr(message)) }

  function AddValues(a: Value, b: Value, show: Show): Result {
    if a.VStr? || b.VStr? then Ok(VStr(show(a) + show(b)))
    else if a.VNum? && b.VNum? then Ok(VNum(a.r + b.r))
    else if a.VList? && b.VList? then Ok(VList(a.elems + b.elems))
    else if a.VNull? || b.VNull? then Ok(VNull)
    else Fault("Operands must be numbers, strings, or lists for +")
  }

  function MulValues(a: Value, b: Value): Result {
    if a.VNum? && b.VNum? then Ok(VNum(a.r * b.r))
    else if a.VStr? && b.VNum? then Ok(VStr(RepeatText(a.s, b.r.Floor)))
    else Fault("Operands must be numbers, or string and number for *")
  }

  function DivideValues(op: BinOp, a: Value, b: Value): Result {
    if !a.VNum? || !b.VNum? then
      Fault(if op == Div then "Operands must be numbers for /"
            else if op == FloorDiv then "Operands must be numbers for //"
            else "Operands must be numbers for %")
    else if b.r == 0.0 then Fault(if op == Mod then "Modulo by zero" else "Division by zero")
    else
      var q := a.r / b.r;
      if op == Div then Ok(VNum(q))
      else if op == FloorDiv then Ok(VNum(q.Floor as real))
      else Ok(VNum(a.r - b.r * (q.Floor as real)))
  }

  function InValues(item: Value, container: Value, show: Show): Result {
    match container
    case VList(elems) => Ok(VBool(item in elems))
    case VStr(s) => Ok(VBool(Contains(s, show(item))))
    case _ => Fault("Type error: 'in' operator requires a list, dict, or string container.")
  }

  function Binary(op: BinOp, a: Value, b: Value, show: Show): Result {
    match op
    case Add => AddValues(a, b, show)
    case Sub => if a.VNum? && b.VNum? then Ok(VNum(a.r - b.r)) else Fault("Operands must be numbers for -")
    case Mul => MulValues(a, b)
    case Div => DivideValues(op, a, b)
    case FloorDiv => DivideValues(op, a, b)
    case Mod => DivideValues(op, a, b)
    case Equal => Ok(VBool(a == b))
    case NotEqual => Ok(VBool(a != b))
    case Less => Ok(VBool(LessThan(a, b)))
    case LessEq => Ok(VBool(LessThan(a, b) || a == b))
    case Greater => Ok(VBool(!(LessThan(a, b) || a == b)))
    case GreaterEq => Ok(VBool(!LessThan(a, b)))
    case In => InValues(a, b, show)
    case NotIn =>
      var r := InValues(a, b, show);
      if r.Ok? && r.v.VBool? then Ok(VBool(!r.v.b)) else r
  }

  function Unary(op: UnOp, a: Value): Result {
    match op
    case Not => Ok(VBool(!Truthy(a)))
    case Negate => if a.VNum? then Ok(VNum(-a.r)) else Fault("Operand must be a number for -")
  }

  /** The elements a for-in loop visits; other values give an empty loop, not an error. */
  function Items(v: Value): seq<Value> {
    match v
    case VList(elems) => elems
    case VStr(s) => seq(|s|, i requires 0 <= i < |s| => VStr([s[i]]))
    case _ => []
  }

  /** The smallest natural number that is at least r. */
  function Ceiling(r: real): nat {
    if r <= 0.0 then 0 else -((-r).Floor)
  }

  /** How often `repeat v times` runs its body. */
  function Times(v: Value): nat {
    if v.VNum? then Ceiling(v.r) else 0
  }

  /** The counting test of a repeat loop, at index i, says whether rounds are left. */
  lemma TimesLeft(i: nat, v: Value)
    ensures Truthy(VBool(LessThan(VNum(i as real), v))) <==> i < Times(v)
  {
    if v.VNum? && v.r > 0.0 {
      var n := (-v.r).Floor;
      assert n as real <= -v.r < n as real + 1.0;
    }
  }
}
