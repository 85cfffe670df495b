/** Linking logical lines by indentation: one pass with a stack of open lines. */
module Linking {
  /** A line to link: its indentation, its parent or -1, and its children. */
  datatype Line = Line(indent: nat, parent: int, children: seq<nat>)

  function Indents(lines: seq<Line>): seq<nat> { seq(|lines|, i requires 0 <= i < |lines| => lines[i].indent) }

  /** p is the nearest earlier line that is indented less than line i, or -1. */
  predicate IsParent(indents: seq<nat>, i: nat, p: int)
    requires i < |indents|
  {
    || (p == -1 && forall j | 0 <= j < i :: indents[j] >= indents[i])
    || (0 <= p < i && indents[p] < indents[i] && forall j | p < j < i :: indents[j] >= indents[i])
  }

  lemma ParentIsUnique(indents: seq<nat>, i: nat, p: int, q: int)
    requires i < |indents| && IsParent(indents, i, p) && IsParent(indents, i, q)
    ensures p == q
  {}

  /** The lines below n whose parent is p, in order. */
  function ChildrenOf(parents: seq<int>, p: int, n: nat): seq<nat>
    requires n <= |parents|
  {
    if n == 0 then [] else ChildrenOf(parents, p, n - 1) + (if parents[n - 1] == p then [n - 1] else [])
  }

  /** cs lists, in order, exactly the lines below n with parent p. */
  ghost predicate Inverts(cs: seq<nat>, parents: seq<int>, p: int, n: nat)
    requires n <= |parents|
  {
    && (forall i, j | 0 <= i < j < |cs| :: cs[i] < cs[j])
    && (forall k | 0 <= k < |cs| :: cs[k] < n && parents[cs[k]] == p) && (forall i | 0 <= i < n && parents[i] == p :: i in cs)
  }

  /** Child lists are increasing and invert the parent map. */
  lemma {:induction false} ChildrenInvertParents(parents: seq<int>, p: int, n: nat)
    requires n <= |parents|
    ensures Inverts(ChildrenOf(parents, p, n), parents, p, n)
    decreases n
  {
    hide Inverts;
    if n > 0 {
      ChildrenInvertParents(parents, p, n - 1);
      InvertsNext(ChildrenOf(parents, p, n - 1), parents, p, n);
    } else {
      InvertsNone(parents, p);
    }
  }

  lemma InvertsNone(parents: seq<int>, p: int)
    ensures Inverts([], parents, p, 0)
  {}

  lemma InvertsNext(cs: seq<nat>, parents: seq<int>, p: int, n: nat)
    requires 0 < n <= |parents| && Inverts(cs, parents, p, n - 1)
    ensures Inverts(cs + (if parents[n - 1] == p then [n - 1] else []), parents, p, n)
  {
    var ds := cs + (if parents[n - 1] == p then [n - 1] else []);
    forall i | 0 <= i < n && parents[i] == p ensures i in ds {
      if i == n - 1 { assert ds[|cs|] == i; } else { assert i in cs; }
    }
  }

  lemma {:induction false} ChildrenSame(parents: seq<int>, others: seq<int>, p: int, n: nat)
    requires n <= |parents| && n <= |others| && parents[..n] == others[..n]
    ensures ChildrenOf(parents, p, n) == ChildrenOf(others, p, n)
    decreases n
  {
    if n > 0 {
      assert parents[n - 1] == parents[..n][n - 1] == others[..n][n - 1] == others[n - 1];
      assert parents[..n - 1] == parents[..n][..n - 1] == others[..n - 1];
      ChildrenSame(parents, others, p, n - 1);
    }
  }

  function Parents(lines: seq<Line>): seq<int> { seq(|lines|, i requires 0 <= i < |lines| => lines[i].parent) }

  /** Line j may still become a parent: every line after it, up to n, is indented more. */
  predicate IsOpen(indents: seq<nat>, n: nat, j: nat)
    requires n <= |indents|
  {
    j < n && forall k | j < k < n :: indents[k] > indents[j]
  }

  /** The stack holds exactly the open lines, in order. */
  ghost predicate StackOk(indents: seq<nat>, n: nat, stack: seq<nat>)
    requires n <= |indents|
  {
    && (forall i, j | 0 <= i < j < |stack| :: stack[i] < stack[j]) && (forall i | 0 <= i < |stack| :: stack[i] < n)
    && (forall j: nat :: j in stack <==> j < n && IsOpen(indents, n, j))
  }

  /** The first n lines are linked; the others have no links yet. */
  predicate LinkedTo(indents: seq<nat>, lines: seq<Line>, n: nat)
    requires |indents| == |lines| && n <= |lines|
  {
    && Indents(lines) == indents
    && (forall i | 0 <= i < n :: IsParent(indents, i, lines[i].parent))
    && (forall i | n <= i < |lines| :: lines[i].parent == -1)
    && (forall j | 0 <= j < |lines| :: lines[j].children == ChildrenOf(Parents(lines), j, n))
  }

  /** A partly popped stack: what is gone is indented at least as much as line n. */
  ghost predicate Popping(indents: seq<nat>, n: nat, all: seq<nat>, stack: seq<nat>)
    requires n < |indents| && StackOk(indents, n, all)
  {
    && stack <= all && (forall i | 0 <= i < |stack| :: stack[i] == all[i])
    && forall k | |stack| <= k < |all| :: indents[all[k]] >= indents[n]
  }

  /** If all open lines are indented at least as much as line n, all earlier lines are. */
  lemma {:induction false} OpenBelow(indents: seq<nat>, n: nat, stack: seq<nat>, p: int, j: nat)
    requires n < |indents| && StackOk(indents, n, stack) && -1 <= p < j < n
    requires forall k | k in stack && k > p :: indents[k] >= indents[n]
    ensures indents[j] >= indents[n]
    decreases n - j
  {
    if j !in stack {
      assert !IsOpen(indents, n, j);
      var k :| j < k < n && indents[k] <= indents[j];
      OpenBelow(indents, n, stack, p, k);
    }
  }

  lemma TopIsParent(indents: seq<nat>, n: nat, all: seq<nat>, stack: seq<nat>)
    requires n < |indents| && StackOk(indents, n, all) && Popping(indents, n, all, stack)
    requires stack != [] ==> indents[stack[|stack| - 1]] < indents[n]
    ensures IsParent(indents, n, if stack == [] then -1 else stack[|stack| - 1])
  {
    var p: int := if stack == [] then -1 else stack[|stack| - 1];
    if stack != [] { assert all[|stack| - 1] == p && p in all; }
    forall k | k in all && k > p ensures indents[k] >= indents[n] {
      var x :| 0 <= x < |all| && all[x] == k;
      assert x >= |stack|;
    }
    forall j | p < j < n ensures indents[j] >= indents[n] { OpenBelow(indents, n, all, p, j); }
  }

  /** Pushing line n after popping leaves the open lines. */
  lemma PushKeepsStack(indents: seq<nat>, n: nat, all: seq<nat>, stack: seq<nat>)
    requires n < |indents| && StackOk(indents, n, all) && Popping(indents, n, all, stack)
    requires stack != [] ==> indents[stack[|stack| - 1]] < indents[n]
    ensures StackOk(indents, n + 1, stack + [n])
  {
    var new_ := stack + [n];
    forall i, j | 0 <= i < j < |new_| ensures new_[i] < new_[j] {
      assert new_[i] == all[i] && all[i] in all;
      if j < |stack| { assert new_[j] == all[j]; }
    }
    forall j: nat ensures j in new_ <==> j < n + 1 && IsOpen(indents, n + 1, j) {
      if j in stack { StaysOpen(indents, n, all, stack, j); } else if j < n { Closes(indents, n, all, stack, j); }
    }
  }

  lemma StaysOpen(indents: seq<nat>, n: nat, all: seq<nat>, stack: seq<nat>, j: nat)
    requires n < |indents| && StackOk(indents, n, all) && Popping(indents, n, all, stack) && j in stack
    requires indents[stack[|stack| - 1]] < indents[n]
    ensures IsOpen(indents, n + 1, j)
  {
    var x :| 0 <= x < |stack| && stack[x] == j;
    assert all[x] == j && j in all;
    StackIndents(indents, n, all, x, |stack| - 1);
  }

  lemma Closes(indents: seq<nat>, n: nat, all: seq<nat>, stack: seq<nat>, j: nat)
    requires n < |indents| && StackOk(indents, n, all) && Popping(indents, n, all, stack) && j !in stack && j < n
    ensures !IsOpen(indents, n + 1, j)
  {
    if j in all {
      var x :| 0 <= x < |all| && all[x] == j;
      assert x >= |stack|;
    } else {
      assert !IsOpen(indents, n, j);
    }
  }

  lemma StackIndents(indents: seq<nat>, n: nat, stack: seq<nat>, x: nat, y: nat)
    requires n <= |indents| && StackOk(indents, n, stack) && x <= y < |stack|
    ensures stack[x] < n && stack[y] < n && indents[stack[x]] <= indents[stack[y]]
  {
    assert stack[x] in stack && stack[y] in stack;
    if x < y { assert IsOpen(indents, n, stack[x]); }
  }

  class GPDAStackManager {
    const nodes: array<Line>
    var stack: seq<nat>

    constructor (nodes: array<Line>)
      ensures this.nodes == nodes && stack == []
    {
      this.nodes := nodes;
      stack := [];
    }

    /** Links the next line. */
    method ProcessNode(index: int, ghost indents: seq<nat>)
      requires 0 <= index < nodes.Length && |indents| == nodes.Length
      requires StackOk(indents, index, stack) && LinkedTo(indents, nodes[..], index)
      modifies this, nodes
      ensures StackOk(indents, index + 1, stack) && LinkedTo(indents, nodes[..], index + 1)
    {
      hide StackOk, LinkedTo, Popping, IsParent;
      ghost var all, was := stack, nodes[..];
      NothingPopped(indents, index, all);
      while stack != []
        invariant Popping(indents, index, all, stack) && nodes[..] == was
        decreases |stack|
      {
        var top := stack[|stack| - 1];
        TopFacts(indents, was, index, all, stack);
        if nodes[top].indent < nodes[index].indent {
          nodes[index] := nodes[index].(parent := top);
          nodes[top] := nodes[top].(children := nodes[top].children + [index]);
          break;
        } else {
          stack := stack[..|stack| - 1];
        }
      }
      TopIsParent(indents, index, all, stack);
      PushKeepsStack(indents, index, all, stack);
      LinkedNext(indents, was, nodes[..], index, if stack == [] then -1 else stack[|stack| - 1]);
      stack := stack + [index];
    }
  }

  lemma NothingPopped(indents: seq<nat>, n: nat, all: seq<nat>)
    requires n < |indents| && StackOk(indents, n, all)
    ensures Popping(indents, n, all, all)
  {}

  /** The top of a partly popped stack, which may be popped if it is indented enough. */
  lemma TopFacts(indents: seq<nat>, lines: seq<Line>, n: nat, all: seq<nat>, stack: seq<nat>)
    requires n < |indents| == |lines| && StackOk(indents, n, all) && LinkedTo(indents, lines, n)
    requires Popping(indents, n, all, stack) && stack != []
    ensures var top := stack[|stack| - 1];
            && top < n && lines[top].indent == indents[top] && lines[n].indent == indents[n]
            && (indents[top] >= indents[n] ==> Popping(indents, n, all, stack[..|stack| - 1]))
  {
    var top := stack[|stack| - 1];
    assert all[|stack| - 1] == top && top in all;
    assert lines[top].indent == Indents(lines)[top] && lines[n].indent == Indents(lines)[n];
  }

  /** One more line linked. */
  lemma LinkedNext(indents: seq<nat>, was: seq<Line>, now: seq<Line>, n: nat, p: int)
    requires |indents| == |was| == |now| && n < |was| && LinkedTo(indents, was, n) && IsParent(indents, n, p)
    requires if p == -1 then now == was
             else now == was[n := was[n].(parent := p)][p := was[p].(children := was[p].children + [n])]
    ensures LinkedTo(indents, now, n + 1)
  {
    forall i | 0 <= i < |now| ensures now[i].indent == indents[i] { assert was[i].indent == Indents(was)[i]; }
    assert Indents(now) == indents;
    assert Parents(now)[..n] == Parents(was)[..n];
    forall j | 0 <= j < |now| ensures now[j].children == ChildrenOf(Parents(now), j, n + 1) {
      ChildrenSame(Parents(was), Parents(now), j, n);
    }
    assert forall i | 0 <= i < n :: now[i].parent == was[i].parent;
  }

  lemma NothingLinked(lines: seq<Line>)
    requires forall i | 0 <= i < |lines| :: lines[i].parent == -1 && lines[i].children == []
    ensures LinkedTo(Indents(lines), lines, 0) && StackOk(Indents(lines), 0, [])
  {}

  /** Links all lines, which come without links. */
  method TopologyLinking(nodes: array<Line>)
    requires forall i | 0 <= i < nodes.Length :: nodes[i].parent == -1 && nodes[i].children == []
    modifies nodes
    ensures LinkedTo(Indents(old(nodes[..])), nodes[..], nodes.Length)
  {
    hide LinkedTo, StackOk;
    ghost var indents := Indents(nodes[..]);
    NothingLinked(nodes[..]);
    var manager := new GPDAStackManager(nodes);
    var i := 0;
    while i < nodes.Length
      invariant 0 <= i <= nodes.Length == |indents| && fresh(manager) && manager.nodes == nodes
      invariant StackOk(indents, i, manager.stack) && LinkedTo(indents, nodes[..], i)
    {
      manager.ProcessNode(i, indents);
      i := i + 1;
    }
  }

  // ---- The links are a forest ----

  /** The path from line i up to its root. */
  function RootPath(lines: seq<Line>, i: nat): (path: seq<nat>)
    requires LinkedTo(Indents(lines), lines, |lines|) && i < |lines|
    ensures path != [] && path[|path| - 1] == i && (forall k | 0 <= k < |path| :: path[k] < |lines|)
    decreases i
  {
    if lines[i].parent == -1 then [i] else RootPath(lines, lines[i].parent) + [i]
  }

  /** Every line hangs under exactly one root, through ever smaller indentation upwards. */
  lemma {:induction false} LinesFormForest(lines: seq<Line>, i: nat)
    requires LinkedTo(Indents(lines), lines, |lines|) && i < |lines|
    ensures Rising(lines, RootPath(lines, i))
    decreases i
  {
    hide LinkedTo;
    ParentFacts(lines, i);
    var p := lines[i].parent;
    if p != -1 { LinesFormForest(lines, p); }
  }

  /** From a root down to a line, child by child, indentation grows. */
  predicate Rising(lines: seq<Line>, path: seq<nat>) {
    && path != [] && (forall k | 0 <= k < |path| :: path[k] < |lines|) && lines[path[0]].parent == -1
    && (forall k, l | 0 <= k < |path| && 0 <= l < |path| && l == k + 1 :: Child(lines, path[k], path[l]))
  }

  predicate Child(lines: seq<Line>, p: nat, i: nat)
    requires p < |lines| && i < |lines|
  {
    p < i && lines[p].indent < lines[i].indent && lines[i].parent == p && i in lines[p].children
  }

  lemma ParentFacts(lines: seq<Line>, i: nat)
    requires LinkedTo(Indents(lines), lines, |lines|) && i < |lines|
    ensures var p := lines[i].parent; -1 <= p < i && (p != -1 ==> Child(lines, p, i))
  {
    var p := lines[i].parent;
    assert IsParent(Indents(lines), i, p);
    if p != -1 {
      ChildrenInvertParents(Parents(lines), p, |lines|);
      assert Parents(lines)[i] == p;
    }
  }
}
