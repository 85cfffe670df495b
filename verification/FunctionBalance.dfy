/**
 * Balance of compiled functions: on every path, through stop, skip, returns and caught errors, the
 * value stack and the try stack have the heights the compiler counts on at each statement boundary.
 */
module FunctionBalance {
  import opened FunctionCode

  // ---- The machine, by heights ----

  datatype Frame = Frame(catch: nat, height: nat)

  datatype Config = Config(pc: nat, height: nat, tries: seq<Frame>)

  /** Where a raised error leads: the innermost handler, with the error on top. */
  function Caught(c: Config): set<Config> {
    if c.tries == [] then {}
    else
      var f := c.tries[|c.tries| - 1];
      {Config(f.catch, f.height + 1, c.tries[..|c.tries| - 1])}
  }

  function Nexts(code: seq<Op>, c: Config): set<Config>
    requires c.pc < |code|
  {
    match code[c.pc]
    case Mark(_, _) => {c.(pc := c.pc + 1)}
    case Use(p, q) => Caught(c) + (if c.height >= p then {c.(pc := c.pc + 1, height := c.height - p + q)} else {})
    case Move(p, q) => if c.height >= p then {c.(pc := c.pc + 1, height := c.height - p + q)} else {}
    case Pop => if c.height >= 1 then {c.(pc := c.pc + 1, height := c.height - 1)} else {}
    case Jump(t) => {c.(pc := t)}
    case JumpIfFalse(t) => {c.(pc := c.pc + 1), c.(pc := t)}
    case ForIter(t) => Caught(c) + {c.(pc := c.pc + 1, height := c.height + 1), c.(pc := t)}
    case Try(t) => {c.(pc := c.pc + 1, tries := c.tries + [Frame(t, c.height)])}
    case EndTry => if c.tries == [] then {} else {c.(pc := c.pc + 1, tries := c.tries[..|c.tries| - 1])}
    case Throw => Caught(c)
    case Return => {}
  }

  /** The handler's height has not been undercut. */
  predicate Unwinds(c: Config) { c.tries == [] || c.tries[|c.tries| - 1].height <= c.height }

  /** The instruction can run, and a mark is met at the heights it records. */
  predicate Fine(code: seq<Op>, c: Config) {
    && c.pc < |code|
    && match code[c.pc]
       case Mark(n, t) => c.height == n && |c.tries| == t
       case Use(p, _) => c.height >= p && Unwinds(c)
       case Move(p, _) => c.height >= p
       case Pop => c.height >= 1
       case Jump(_) => true
       case JumpIfFalse(_) => c.height >= 1
       case ForIter(_) => c.height >= 1 && Unwinds(c)
       case Try(_) => true
       case EndTry => c.tries != []
       case Throw => c.height >= 1 && Unwinds(c)
       case Return => c.height >= 1
  }

  /** Everything within k steps is fine. */
  predicate Safe(code: seq<Op>, c: Config, k: nat)
    decreases k
  {
    k == 0 || (Fine(code, c) && forall d | d in Nexts(code, c) :: Safe(code, d, k - 1))
  }

  lemma {:induction false} SafeLess(code: seq<Op>, c: Config, k: nat, j: nat)
    requires Safe(code, c, k) && j <= k
    ensures Safe(code, c, j)
    decreases k
  {
    if j > 0 {
      forall d | d in Nexts(code, c) ensures Safe(code, d, j - 1) { SafeLess(code, d, k - 1, j - 1); }
    }
  }

  // ---- Which functions are balanced ----

  /** The block makes no locals that stay. */
  predicate Settled(b: seq<Stmt>, locals: seq<string>, outer: set<string>) { AfterAll(b, locals, outer) == locals }

  /** No value is left, no try body and no `unless` body makes a new local, and stop and skip stand in loops. */
  predicate Balanced(s: Stmt, cx: Context)
    decreases s
  {
    match s
    case Leave(_) => false
    case If(_, thn, els) =>
      var inner := cx.(locals := cx.locals + Hoisted(thn, els, cx.locals, cx.outer));
      BalancedB(thn, inner) && BalancedB(els, inner)
    case Unless(_, body) => Settled(body, cx.locals, cx.outer) && BalancedB(body, cx)
    case While(_, body) => BalancedB(body, InLoop(cx, [], [], 0, 0))
    case Until(_, body) => BalancedB(body, InLoop(cx, [], [], 0, 0))
    case Forever(body) => BalancedB(body, InLoop(cx, [], [], 0, 0))
    case Repeat(_, body) => BalancedB(body, InLoop(cx, ["", ""], [], 0, 0))
    case ForIn(x, _, body) => BalancedB(body, InLoop(cx, ["_iter"], [x], 0, 0))
    case TryCatch(body, x, handler) =>
      && Settled(body, cx.locals, cx.outer) && BalancedB(body, cx.(tries := cx.tries + 1))
      && BalancedB(handler, cx.(locals := cx.locals + [x]))
    case Stop => cx.loop.Some?
    case Skip => cx.loop.Some?
    case _ => true
  }

  predicate BalancedB(b: seq<Stmt>, cx: Context)
    decreases b
  {
    b == [] || (Balanced(b[0], cx) && BalancedB(b[1..], cx.(locals := After(b[0], cx.locals, cx.outer))))
  }

  lemma {:induction false} BalancedSame(s: Stmt, a: Context, b: Context)
    requires SameShape(a, b) && Balanced(s, a)
    ensures Balanced(s, b)
    decreases s, 0
  {
    match s
    case If(_, thn, els) =>
      var inner := a.locals + Hoisted(thn, els, a.locals, a.outer);
      BalancedSameB(thn, a.(locals := inner), b.(locals := inner));
      BalancedSameB(els, a.(locals := inner), b.(locals := inner));
    case Unless(_, body) => BalancedSameB(body, a, b);
    case TryCatch(body, x, handler) =>
      BalancedSameB(body, a.(tries := a.tries + 1), b.(tries := b.tries + 1));
      BalancedSameB(handler, a.(locals := a.locals + [x]), b.(locals := b.locals + [x]));
    case _ =>
  }

  lemma {:induction false} BalancedSameB(b: seq<Stmt>, a: Context, c: Context)
    requires SameShape(a, c) && BalancedB(b, a)
    ensures BalancedB(b, c)
    decreases b, 0
  {
    hide Balanced, After;
    if b != [] {
      BalancedSame(b[0], a, c);
      var after := After(b[0], a.locals, a.outer);
      BalancedSameB(b[1..], a.(locals := after), c.(locals := after));
    }
  }

  // ---- Hoisting ----

  /** Every name that the block assigns without a scope of its own is known. */
  predicate AllKnown(b: seq<Stmt>, locals: seq<string>, outer: set<string>)
    decreases b
  {
    b == []
    || (&& (match b[0]
            case Assign(x, _) => Known(x, locals, outer)
            case If(_, thn, els) => AllKnown(thn, locals, outer) && AllKnown(els, locals, outer)
            case TryCatch(body, _, _) => AllKnown(body, locals, outer)
            case _ => true)
        && AllKnown(b[1..], locals, outer))
  }

  lemma {:induction false} KnownMore(b: seq<Stmt>, locals: seq<string>, more: seq<string>, outer: set<string>)
    requires AllKnown(b, locals, outer)
    ensures AllKnown(b, locals + more, outer)
    decreases b
  {
    if b != [] {
      match b[0] {
        case If(_, thn, els) =>
          KnownMore(thn, locals, more, outer);
          KnownMore(els, locals, more, outer);
        case TryCatch(body, _, _) => KnownMore(body, locals, more, outer);
        case _ =>
      }
      KnownMore(b[1..], locals, more, outer);
    }
  }

  /** Collecting only ever adds names. */
  lemma {:induction false} ShallowGrows(b: seq<Stmt>, locals: seq<string>, outer: set<string>, names: seq<string>)
    ensures names <= Shallow(b, locals, outer, names)
    decreases b
  {
    if b != [] {
      match b[0] {
        case Assign(x, _) => ShallowGrows(b[1..], locals, outer, if Known(x, locals, outer) || x in names then names else names + [x]);
        case If(_, thn, els) =>
          var n1 := Shallow(thn, locals, outer, names);
          var n2 := Shallow(els, locals, outer, n1);
          ShallowGrows(thn, locals, outer, names);
          ShallowGrows(els, locals, outer, n1);
          ShallowGrows(b[1..], locals, outer, n2);
        case TryCatch(body, _, _) =>
          ShallowGrows(body, locals, outer, names);
          ShallowGrows(b[1..], locals, outer, Shallow(body, locals, outer, names));
        case _ => ShallowGrows(b[1..], locals, outer, names);
      }
    }
  }

  lemma KnownPrefix(b: seq<Stmt>, locals: seq<string>, names: seq<string>, more: seq<string>, outer: set<string>)
    requires AllKnown(b, locals + names, outer) && names <= more
    ensures AllKnown(b, locals + more, outer)
  {
    KnownMore(b, locals + names, more[|names|..], outer);
    assert locals + names + more[|names|..] == locals + more;
  }

  /** Collecting finds every name. */
  lemma {:induction false} ShallowFinds(b: seq<Stmt>, locals: seq<string>, outer: set<string>, names: seq<string>)
    ensures AllKnown(b, locals + Shallow(b, locals, outer, names), outer)
    decreases b
  {
    if b != [] {
      match b[0] {
        case Assign(x, _) => FindsAssign(b, x, locals, outer, names);
        case If(_, thn, els) => FindsIf(b, thn, els, locals, outer, names);
        case TryCatch(body, _, _) =>
          var n1 := Shallow(body, locals, outer, names);
          ShallowFinds(body, locals, outer, names);
          ShallowFinds(b[1..], locals, outer, n1);
          ShallowGrows(b[1..], locals, outer, n1);
          KnownPrefix(body, locals, n1, Shallow(b[1..], locals, outer, n1), outer);
        case _ => ShallowFinds(b[1..], locals, outer, names);
      }
    }
  }

  lemma {:induction false} FindsAssign(b: seq<Stmt>, x: string, locals: seq<string>, outer: set<string>, names: seq<string>)
    requires b != [] && b[0].Assign? && b[0].x == x
    ensures AllKnown(b, locals + Shallow(b, locals, outer, names), outer)
    decreases b, 0
  {
    var n1 := if Known(x, locals, outer) || x in names then names else names + [x];
    var all := Shallow(b[1..], locals, outer, n1);
    ShallowFinds(b[1..], locals, outer, n1);
    ShallowGrows(b[1..], locals, outer, n1);
    if x in n1 {
      var i :| 0 <= i < |n1| && n1[i] == x;
      assert all[i] == x;
    }
  }

  lemma {:induction false} FindsIf(b: seq<Stmt>, thn: seq<Stmt>, els: seq<Stmt>, locals: seq<string>, outer: set<string>, names: seq<string>)
    requires b != [] && b[0].If? && b[0].thn == thn && b[0].els == els
    ensures AllKnown(b, locals + Shallow(b, locals, outer, names), outer)
    decreases b, 0
  {
    var n1 := Shallow(thn, locals, outer, names);
    var n2 := Shallow(els, locals, outer, n1);
    var all := Shallow(b[1..], locals, outer, n2);
    ShallowFinds(thn, locals, outer, names);
    ShallowFinds(els, locals, outer, n1);
    ShallowFinds(b[1..], locals, outer, n2);
    ShallowGrows(els, locals, outer, n1);
    ShallowGrows(b[1..], locals, outer, n2);
    KnownPrefix(thn, locals, n1, all, outer);
    KnownPrefix(els, locals, n2, all, outer);
  }

  /** With nothing new to find, nothing is collected. */
  lemma {:induction false} NothingShallow(b: seq<Stmt>, locals: seq<string>, outer: set<string>, names: seq<string>)
    requires AllKnown(b, locals, outer)
    ensures Shallow(b, locals, outer, names) == names
    decreases b
  {
    if b != [] {
      match b[0] {
        case If(_, thn, els) =>
          NothingShallow(thn, locals, outer, names);
          NothingShallow(els, locals, outer, names);
        case TryCatch(body, _, _) => NothingShallow(body, locals, outer, names);
        case _ =>
      }
      NothingShallow(b[1..], locals, outer, names);
    }
  }

  /** A balanced block whose names are all known makes no locals. */
  lemma {:induction false} KnownSettles(b: seq<Stmt>, cx: Context)
    requires AllKnown(b, cx.locals, cx.outer) && BalancedB(b, cx)
    ensures Settled(b, cx.locals, cx.outer)
    decreases b
  {
    if b != [] {
      match b[0] {
        case If(_, thn, els) =>
          NothingShallow(thn, cx.locals, cx.outer, []);
          NothingShallow(els, cx.locals, cx.outer, []);
          assert cx.locals + [] == cx.locals;
          KnownSettles(thn, cx);
          KnownSettles(els, cx);
        case _ =>
      }
      KnownSettles(b[1..], cx);
    }
  }

  /** The names made beforehand are all the names either branch can meet. */
  lemma HoistedKnown(thn: seq<Stmt>, els: seq<Stmt>, locals: seq<string>, outer: set<string>)
    ensures var inner := locals + Hoisted(thn, els, locals, outer); AllKnown(thn, inner, outer) && AllKnown(els, inner, outer)
  {
    hide AllKnown, Shallow;
    var n1 := Shallow(thn, locals, outer, []);
    var h := Shallow(els, locals, outer, n1);
    ShallowFinds(thn, locals, outer, []);
    ShallowFinds(els, locals, outer, n1);
    ShallowGrows(els, locals, outer, n1);
    KnownPrefix(thn, locals, n1, h, outer);
  }

  /** Both branches of a balanced `if` end with exactly the locals made beforehand. */
  lemma HoistingSettles(c: Expr, thn: seq<Stmt>, els: seq<Stmt>, cx: Context)
    requires Balanced(If(c, thn, els), cx)
    ensures var inner := cx.locals + Hoisted(thn, els, cx.locals, cx.outer);
            && Settled(thn, inner, cx.outer) && Settled(els, inner, cx.outer) && After(If(c, thn, els), cx.locals, cx.outer) == inner
  {
    hide BalancedB, AllKnown, Shallow, AfterAll, Hoisted;
    var inner := cx.(locals := cx.locals + Hoisted(thn, els, cx.locals, cx.outer));
    HoistedKnown(thn, els, cx.locals, cx.outer);
    KnownSettles(thn, inner);
    KnownSettles(els, inner);
  }

  // ---- When the branches of an `if` meet ----

  /** Locals are only ever added. */
  lemma {:induction false} AfterExtends(s: Stmt, locals: seq<string>, outer: set<string>)
    ensures locals <= After(s, locals, outer)
    decreases s
  {
    match s
    case If(_, thn, els) =>
      var inner := locals + Hoisted(thn, els, locals, outer);
      AfterAllExtends(thn, inner, outer);
      AfterAllExtends(els, AfterAll(thn, inner, outer), outer);
    case Unless(_, body) => AfterAllExtends(body, locals, outer);
    case TryCatch(body, _, _) => AfterAllExtends(body, locals, outer);
    case _ =>
  }

  lemma {:induction false} AfterAllExtends(b: seq<Stmt>, locals: seq<string>, outer: set<string>)
    ensures locals <= AfterAll(b, locals, outer)
    decreases b
  {
    hide After;
    if b != [] {
      AfterExtends(b[0], locals, outer);
      AfterAllExtends(b[1..], After(b[0], locals, outer), outer);
    }
  }

  /** No `unless` and no `try` that stands in the block, or in an `if` of it, makes a local. */
  predicate Steady(b: seq<Stmt>, locals: seq<string>, outer: set<string>)
    decreases b
  {
    b == []
    || (&& (match b[0]
            case If(_, thn, els) => Steady(thn, locals, outer) && Steady(els, locals, outer)
            case Unless(_, body) => Settled(body, locals, outer)
            case TryCatch(body, _, _) => Settled(body, locals, outer)
            case _ => true)
        && Steady(b[1..], locals, outer))
  }

  lemma {:induction false} SteadySettles(b: seq<Stmt>, locals: seq<string>, outer: set<string>)
    requires AllKnown(b, locals, outer)
    ensures Settled(b, locals, outer) <==> Steady(b, locals, outer)
    decreases b
  {
    if b != [] {
      var after := After(b[0], locals, outer);
      AfterExtends(b[0], locals, outer);
      AfterAllExtends(b[1..], after, outer);
      assert |after| == |locals| ==> after == locals;
      SteadySettles(b[1..], locals, outer);
      match b[0] {
        case If(_, thn, els) =>
          NothingShallow(thn, locals, outer, []);
          NothingShallow(els, locals, outer, []);
          assert locals + [] == locals;
          SteadySettles(thn, locals, outer);
          SteadySettles(els, locals, outer);
          AfterAllExtends(thn, locals, outer);
          AfterAllExtends(els, AfterAll(thn, locals, outer), outer);
        case _ =>
      }
    }
  }

  /**
   * The branches of an `if` come together with the locals made beforehand and no more, exactly
   * when nothing in them makes a local that was not collected: a local first made in an `unless`.
   */
  lemma BranchesMeet(thn: seq<Stmt>, els: seq<Stmt>, locals: seq<string>, outer: set<string>)
    ensures var inner := locals + Hoisted(thn, els, locals, outer);
            AfterAll(els, AfterAll(thn, inner, outer), outer) == inner <==> Steady(thn, inner, outer) && Steady(els, inner, outer)
  {
    hide AllKnown, AfterAll, Hoisted, Steady;
    var inner := locals + Hoisted(thn, els, locals, outer);
    HoistedKnown(thn, els, locals, outer);
    SteadySettles(thn, inner, outer);
    SteadySettles(els, inner, outer);
    AfterAllExtends(thn, inner, outer);
    AfterAllExtends(els, AfterAll(thn, inner, outer), outer);
  }
}
