/** The programs the compiler theorem covers. */
module Programs {
  import opened Language
  import opened CodeGen

  /** The name does not stand for one of the compiler's own slots. */
  predicate Usable(x: string, locals: seq<string>) { Hidden(x) ==> x !in locals }

  /** No variable is taken for one of the compiler's own slots. */
  predicate CleanE(e: Expr, locals: seq<string>)
    decreases e
  {
    match e
    case Var(x) => Usable(x, locals)
    case Un(_, a) => CleanE(a, locals)
    case Bin(_, l, r) => CleanE(l, locals) && CleanE(r, locals)
    case And(l, r) => CleanE(l, locals) && CleanE(r, locals)
    case Or(l, r) => CleanE(l, locals) && CleanE(r, locals)
    case ListLit(es) => forall a | a in es :: CleanE(a, locals)
    case _ => true
  }

  /** Clean names, at least one target per assignment, no bare true, false or list
      literal as a statement, stop and skip only inside loops. */
  predicate CleanS(s: Stmt, cx: Context)
    decreases s
  {
    match s
    case ExprStmt(e) => CleanE(e, cx.locals) && Popped(e)
    case Assign(xs, e) => CleanE(e, cx.locals) && xs != [] && (forall x | x in xs :: Usable(x, cx.locals))
    case Print(e) => CleanE(e, cx.locals)
    case If(c, thn, els) => CleanE(c, cx.locals) && CleanB(thn, cx) && CleanB(els, cx)
    case Unless(c, body) => CleanE(c, cx.locals) && CleanB(body, cx)
    case While(c, body) => CleanE(c, cx.locals) && CleanB(body, EnterLoop(cx, [], []))
    case Until(c, body) => CleanE(c, cx.locals) && CleanB(body, EnterLoop(cx, [], []))
    case Forever(body) => CleanB(body, EnterLoop(cx, [], []))
    case Repeat(count, body) => CleanE(count, cx.locals) && CleanB(body, EnterLoop(cx, ["", ""], []))
    case ForIn(x, over, body) => CleanE(over, cx.locals) && CleanB(body, EnterLoop(cx, ["_iter"], [x]))
    case Stop => cx.inLoop
    case Skip => cx.inLoop
    case Try(body, x, handler) => CleanB(body, EnterTry(cx)) && CleanB(handler, AddLocals(cx, [x]))
    case Throw(e) => CleanE(e, cx.locals)
    case Pass => true
  }

  predicate CleanB(b: seq<Stmt>, cx: Context)
    decreases b
  {
    b == [] || (CleanS(b[0], cx) && CleanB(b[1..], cx))
  }

  /** A statement that makes no slots of its own; bare literals may stand anywhere in it. */
  predicate LooseS(s: Stmt, cx: Context)
    decreases s
  {
    match s
    case ExprStmt(e) => CleanE(e, cx.locals)
    case If(c, thn, els) => CleanE(c, cx.locals) && LooseB(thn, cx) && LooseB(els, cx)
    case Unless(c, body) => CleanE(c, cx.locals) && LooseB(body, cx)
    case While(c, body) => CleanE(c, cx.locals) && LooseB(body, EnterLoop(cx, [], []))
    case Until(c, body) => CleanE(c, cx.locals) && LooseB(body, EnterLoop(cx, [], []))
    case Forever(body) => LooseB(body, EnterLoop(cx, [], []))
    case Repeat(_, _) => false
    case ForIn(_, _, _) => false
    case Try(_, _, _) => false
    case _ => CleanS(s, cx)
  }

  predicate LooseB(b: seq<Stmt>, cx: Context)
    decreases b
  {
    b == [] || (LooseS(b[0], cx) && LooseB(b[1..], cx))
  }

  /** Clean statements and then, where nothing makes slots any more, also bare literals. */
  predicate CleanTop(b: seq<Stmt>, cx: Context)
    decreases b
  {
    LooseB(b, cx) || (CleanS(b[0], cx) && CleanTop(b[1..], cx))
  }
}
