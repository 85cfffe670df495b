/** How the stack slots of compiled code correspond to the bindings of the source
    semantics: the slots with user names, in order, are the environment. */
module Slots {
  import opened Values
  import opened Language
  import opened CodeGen

  /** The bindings the source semantics sees in the stack slots. */
  function Visible(locals: seq<string>, stack: seq<Value>): seq<Binding>
    requires |locals| == |stack|
  {
    if locals == [] then [] else
    var n := |locals| - 1;
    Visible(locals[..n], stack[..n]) + (if Hidden(locals[n]) then [] else [Binding(locals[n], stack[n])])
  }

  lemma ResolveSnoc(locals: seq<string>, y: string, x: string)
    ensures Resolve(locals + [y], x) == if y == x then |locals| else Resolve(locals, x)
  {
    assert (locals + [y])[..|locals|] == locals;
  }

  lemma FindSnoc(env: seq<Binding>, b: Binding, x: string)
    ensures EnvFind(env + [b], x) == if b.name == x then |env| else EnvFind(env, x)
  {
    assert (env + [b])[..|env|] == env;
  }

  lemma {:induction false} VisibleFind(locals: seq<string>, stack: seq<Value>, x: string)
    requires |locals| == |stack| && (Hidden(x) ==> x !in locals)
    ensures var env := Visible(locals, stack);
            var i, j := Resolve(locals, x), EnvFind(env, x);
            (i == -1 <==> j == -1) && (i != -1 ==> env[j].val == stack[i])
  {
    if locals != [] {
      hide Resolve, EnvFind;
      var n := |locals| - 1;
      VisibleFind(locals[..n], stack[..n], x);
      assert locals == locals[..n] + [locals[n]];
      ResolveSnoc(locals[..n], locals[n], x);
      if !Hidden(locals[n]) {
        FindSnoc(Visible(locals[..n], stack[..n]), Binding(locals[n], stack[n]), x);
      } else {
        assert Visible(locals, stack) == Visible(locals[..n], stack[..n]);
      }
    }
  }

  lemma UpdateBelow<T>(s: seq<T>, t: T, i: nat, u: T)
    requires i < |s|
    ensures (s + [t])[i := u] == s[i := u] + [t]
  {}

  lemma {:induction false} VisibleStore(locals: seq<string>, stack: seq<Value>, x: string, v: Value)
    requires |locals| == |stack| && (Hidden(x) ==> x !in locals) && Resolve(locals, x) != -1
    ensures EnvFind(Visible(locals, stack), x) != -1
    ensures Visible(locals, stack[Resolve(locals, x) := v])
            == Visible(locals, stack)[EnvFind(Visible(locals, stack), x) := Binding(x, v)]
    decreases |locals|
  {
    var n := |locals| - 1;
    var y, w := locals[n], stack[n];
    var lower, below := locals[..n], stack[..n];
    assert locals == lower + [y] && stack == below + [w];
    ResolveSnoc(lower, y, x);
    hide Resolve, EnvFind, Visible;
    VisibleAppend(lower, below, y, w);
    if y == x {
      VisibleAppend(lower, below, y, v);
      FindSnoc(Visible(lower, below), Binding(y, w), x);
      assert stack[n := v] == below + [v];
    } else {
      VisibleStore(lower, below, x, v);
      VisibleStoreBelow(lower, below, x, v, y, w);
    }
  }

  lemma VisibleStoreBelow(lower: seq<string>, below: seq<Value>, x: string, v: Value, y: string, w: Value)
    requires |lower| == |below| && Resolve(lower, x) != -1 && y != x
    requires var env := Visible(lower, below);
             EnvFind(env, x) != -1 && Visible(lower, below[Resolve(lower, x) := v]) == env[EnvFind(env, x) := Binding(x, v)]
    ensures var env := Visible(lower + [y], below + [w]);
            && Resolve(lower + [y], x) != -1 && EnvFind(env, x) != -1
            && Visible(lower + [y], (below + [w])[Resolve(lower + [y], x) := v]) == env[EnvFind(env, x) := Binding(x, v)]
  {
    ResolveSnoc(lower, y, x);
    var env := Visible(lower, below);
    FindSnoc(env, Binding(y, w), x);
    hide Resolve, EnvFind, Visible;
    var i, j := Resolve(lower, x), EnvFind(env, x);
    UpdateBelow(below, w, i, v);
    VisibleAppend(lower, below, y, w);
    VisibleAppend(lower, below[i := v], y, w);
    if Hidden(y) {
      assert env + [] == env && env[j := Binding(x, v)] + [] == env[j := Binding(x, v)];
    } else {
      UpdateBelow(env, Binding(y, w), j, Binding(x, v));
    }
  }

  /** More slots on top add bindings on top. */
  lemma {:induction false} VisibleAppend(locals: seq<string>, stack: seq<Value>, x: string, v: Value)
    requires |locals| == |stack|
    ensures Visible(locals + [x], stack + [v])
            == Visible(locals, stack) + (if Hidden(x) then [] else [Binding(x, v)])
  {
    var n := |locals|;
    assert (locals + [x])[..n] == locals && (stack + [v])[..n] == stack;
  }

  lemma {:induction false} VisibleLength(locals: seq<string>, a: seq<Value>, b: seq<Value>)
    requires |locals| == |a| == |b|
    ensures |Visible(locals, a)| == |Visible(locals, b)|
  {
    if locals != [] {
      var n := |locals| - 1;
      VisibleLength(locals[..n], a[..n], b[..n]);
    }
  }

  /** How many of the slots have user names. */
  function Shown(locals: seq<string>): nat {
    if locals == [] then 0
    else Shown(locals[..|locals| - 1]) + (if Hidden(locals[|locals| - 1]) then 0 else 1)
  }

  lemma {:induction false} VisibleCount(locals: seq<string>, stack: seq<Value>)
    requires |locals| == |stack|
    ensures |Visible(locals, stack)| == Shown(locals)
  {
    if locals != [] {
      var n := |locals| - 1;
      VisibleCount(locals[..n], stack[..n]);
    }
  }

  lemma ShownSnoc(locals: seq<string>, x: string)
    ensures Shown(locals + [x]) == Shown(locals) + (if Hidden(x) then 0 else 1)
  {
    assert (locals + [x])[..|locals|] == locals;
  }

  /** Lower slots are the lower bindings. */
  lemma {:induction false} VisiblePrefix(locals: seq<string>, stack: seq<Value>, n: nat)
    requires |locals| == |stack| && n <= |locals|
    ensures Shown(locals[..n]) <= Shown(locals) == |Visible(locals, stack)|
    ensures Visible(locals, stack)[..Shown(locals[..n])] == Visible(locals[..n], stack[..n])
    decreases |locals|
  {
    VisibleCount(locals, stack);
    VisibleCount(locals[..n], stack[..n]);
    if n == |locals| {
      assert locals[..n] == locals && stack[..n] == stack;
    } else {
      var m := |locals| - 1;
      VisiblePrefix(locals[..m], stack[..m], n);
      assert locals[..m][..n] == locals[..n] && stack[..m][..n] == stack[..n];
    }
  }
}
