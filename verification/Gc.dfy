/** The mark-sweep collector: a gray worklist mixed with direct recursion, a sweep of the
    intrusive object list, and a weak table of interned strings. */
module Gc {
  datatype Kind = Plain | Task | Channel

  /** A heap object. `direct` are the references that marking follows by recursion (a
      closure's function and upvalues, a class's parent and methods, an instance's class);
      `values` are those held in values, which marking puts on the worklist. */
  class GCObject {
    const kind: Kind
    var marked: bool
    var nextGc: GCObject?
    var direct: seq<GCObject>
    var values: seq<GCObject>
    var completed: bool

    constructor (kind: Kind)
      ensures this.kind == kind && !marked && nextGc == null && direct == [] && values == [] && !completed
    {
      this.kind := kind;
      marked, nextGc, direct, values, completed := false, null, [], [], false;
    }
  }

  /** What marking an object leads to. A task leads to its result, once it has one. */
  ghost function Children(o: GCObject): seq<GCObject>
    reads o`direct, o`values, o`completed
  {
    match o.kind
    case Task => if o.completed then o.values else []
    case Channel => []
    case Plain => o.direct + o.values
  }

  /** s is closed under following references. */
  ghost predicate ClosedUnder(s: set<GCObject>)
    reads s`direct, s`values, s`completed
  {
    forall o, c | o in s && c in Children(o) :: c in s
  }

  /** References stay inside the heap; only plain objects are referenced directly. */
  ghost predicate WellFormed(objs: set<GCObject>)
    reads objs`direct, objs`values, objs`completed
  {
    ClosedUnder(objs) && forall o, d | o in objs && o.kind == Plain && d in o.direct :: d.kind == Plain
  }

  /** The objects reachable from the roots: those in every closed set with the roots. */
  ghost function Reachable(objs: set<GCObject>, roots: set<GCObject>): set<GCObject>
    reads objs`direct, objs`values, objs`completed
  {
    set o | o in objs && forall s: set<GCObject> | s <= objs && roots <= s && ClosedUnder(s) :: o in s
  }

  lemma ReachableIsClosed(objs: set<GCObject>, roots: set<GCObject>)
    requires roots <= objs && WellFormed(objs)
    ensures var r := Reachable(objs, roots); roots <= r <= objs && ClosedUnder(r)
  {
    var r := Reachable(objs, roots);
    forall o, c | o in r && c in Children(o) ensures c in r {
      forall s: set<GCObject> | s <= objs && roots <= s && ClosedUnder(s) ensures c in s { assert o in s; }
    }
  }

  lemma ReachableIsLeast(objs: set<GCObject>, roots: set<GCObject>, s: set<GCObject>)
    requires s <= objs && roots <= s && ClosedUnder(s)
    ensures Reachable(objs, roots) <= s
  {}

  /** A collection must keep c if it keeps o: plain objects hold what they refer to, a task its result once it has one. */
  ghost predicate Holds(o: GCObject, c: GCObject)
    reads o`direct, o`values, o`completed
  {
    || (o.kind == Plain && ((exists i :: 0 <= i < |o.direct| && o.direct[i] == c) || exists i :: 0 <= i < |o.values| && o.values[i] == c))
    || (o.kind == Task && o.completed && exists i :: 0 <= i < |o.values| && o.values[i] == c)
  }

  /** A way from a root, each object holding the next. */
  ghost predicate Trail(path: seq<GCObject>, roots: set<GCObject>)
    reads path`direct, path`values, path`completed
  {
    path != [] && path[0] in roots && forall i | 0 <= i < |path| - 1 :: HoldsNext(path, i)
  }

  ghost predicate HoldsNext(path: seq<GCObject>, i: nat)
    requires i + 1 < |path|
    reads path`direct, path`values, path`completed
  {
    Holds(path[i], path[i + 1])
  }

  ghost predicate LeadsTo(path: seq<GCObject>, roots: set<GCObject>, o: GCObject)
    reads path`direct, path`values, path`completed
  {
    Trail(path, roots) && path[|path| - 1] == o
  }

  lemma HoldsIsChild(o: GCObject, c: GCObject)
    ensures Holds(o, c) <==> c in Children(o)
  {}

  /** An object is reachable exactly if some way from a root leads to it. */
  lemma ReachableByTrails(objs: set<GCObject>, roots: set<GCObject>, o: GCObject)
    requires roots <= objs && WellFormed(objs)
    ensures o in Reachable(objs, roots) <==> exists path :: LeadsTo(path, roots, o)
  {
    hide Children, Holds, Reachable;
    ReachableIsClosed(objs, roots);
    if path :| LeadsTo(path, roots, o) { TrailStays(objs, roots, path, |path| - 1); }
    var s := set x | x in objs && exists path :: LeadsTo(path, roots, x);
    forall r | r in roots ensures r in s {
      assert LeadsTo([r], roots, r);
    }
    forall x, c | x in s && c in Children(x) ensures c in s {
      var path :| LeadsTo(path, roots, x);
      HoldsIsChild(x, c);
      TrailOn(path, roots, c);
      assert LeadsTo(path + [c], roots, c);
      assert c in objs;
    }
    ReachableIsLeast(objs, roots, s);
  }

  lemma LiveIsHeld(objs: set<GCObject>, roots: set<GCObject>)
    requires roots <= objs && WellFormed(objs)
    ensures forall o, c | o in Reachable(objs, roots) && Holds(o, c) :: c in Reachable(objs, roots)
    ensures forall o | o in objs :: o in Reachable(objs, roots) <==> exists path :: LeadsTo(path, roots, o)
  {
    hide Children, Holds, Reachable, LeadsTo, WellFormed;
    ReachableIsClosed(objs, roots);
    forall o, c | o in Reachable(objs, roots) && Holds(o, c) ensures c in Reachable(objs, roots) { HoldsIsChild(o, c); }
    forall o | o in objs ensures o in Reachable(objs, roots) <==> exists path :: LeadsTo(path, roots, o) {
      ReachableByTrails(objs, roots, o);
    }
  }

  lemma TrailOn(path: seq<GCObject>, roots: set<GCObject>, c: GCObject)
    requires Trail(path, roots) && Holds(path[|path| - 1], c)
    ensures Trail(path + [c], roots)
  {
    hide Holds;
    var more := path + [c];
    forall i | 0 <= i < |more| - 1 ensures HoldsNext(more, i) {
      if i < |path| - 1 { assert HoldsNext(path, i); }
    }
  }

  lemma {:induction false} TrailStays(objs: set<GCObject>, roots: set<GCObject>, path: seq<GCObject>, i: nat)
    requires roots <= objs && WellFormed(objs) && Trail(path, roots) && i < |path|
    ensures path[i] in Reachable(objs, roots)
    decreases i
  {
    hide Children, Holds, Reachable;
    ReachableIsClosed(objs, roots);
    if i > 0 {
      TrailStays(objs, roots, path, i - 1);
      assert HoldsNext(path, i - 1);
      HoldsIsChild(path[i - 1], path[i]);
    }
  }

  /** The marked objects. */
  ghost function Marked(objs: set<GCObject>): set<GCObject>
    reads objs`marked
  {
    set o | o in objs && o.marked
  }

  ghost function Elements(list: seq<GCObject>): set<GCObject> { set o | o in list }

  /** Everything below a marked object is marked, except below those still waiting. */
  ghost predicate Settled(m: set<GCObject>, waiting: set<GCObject>)
    reads m`direct, m`values, m`completed
  {
    forall o, c | o in m && o !in waiting && c in Children(o) :: c in m
  }

  /** The marking is under way: m is marked, g is on the worklist, busy are being recursed into. */
  ghost predicate Marking(objs: set<GCObject>, limit: set<GCObject>, m: set<GCObject>, g: set<GCObject>, busy: set<GCObject>)
    reads objs`direct, objs`values, objs`completed
  {
    g <= m <= limit <= objs && WellFormed(objs) && ClosedUnder(limit) && Settled(m, busy + g)
  }

  /** One more object marked, and waiting. */
  lemma MarkedMore(objs: set<GCObject>, limit: set<GCObject>, m: set<GCObject>, g: set<GCObject>, busy: set<GCObject>, o: GCObject)
    requires Marking(objs, limit, m, g, busy) && o in limit
    ensures Marking(objs, limit, m + {o}, g + {o}, busy) && Marking(objs, limit, m + {o}, g, busy + {o})
  {}

  /** An object is done once all its children are marked. */
  lemma MarkingDone(objs: set<GCObject>, limit: set<GCObject>, m: set<GCObject>, g: set<GCObject>, busy: set<GCObject>, o: GCObject)
    requires Marking(objs, limit, m, g, busy + {o}) && forall c | c in Children(o) :: c in m
    ensures Marking(objs, limit, m, g, busy)
  {}

  lemma ChildInside(objs: set<GCObject>, limit: set<GCObject>, m: set<GCObject>, g: set<GCObject>, busy: set<GCObject>, o: GCObject, c: GCObject)
    requires Marking(objs, limit, m, g, busy) && o in m && c in Children(o)
    ensures c in limit && c in objs
  {}

  lemma DirectPlain(objs: set<GCObject>, o: GCObject, d: GCObject)
    requires WellFormed(objs) && o in objs && o.kind == Plain && d in o.direct
    ensures d.kind == Plain && d in Children(o)
  {}

  /** What is left to do: unmarked objects, and objects on the worklist. */
  ghost function Left(objs: set<GCObject>, m: set<GCObject>, gray: seq<GCObject>): nat { |objs - m| + |gray| }

  lemma LeftLess(objs: set<GCObject>, m: set<GCObject>, o: GCObject)
    requires o in objs && o !in m
    ensures |objs - (m + {o})| == |objs - m| - 1
  {
    assert objs - m == objs - (m + {o}) + {o};
  }

  lemma LeftMark(objs: set<GCObject>, m: set<GCObject>, gray: seq<GCObject>, o: GCObject)
    requires o in objs && o !in m
    ensures Left(objs, m + {o}, gray + [o]) == Left(objs, m, gray) && Left(objs, m + {o}, gray) < Left(objs, m, gray)
  {
    LeftLess(objs, m, o);
  }

  lemma LeftSmaller(objs: set<GCObject>, m: set<GCObject>, n: set<GCObject>)
    requires m <= n
    ensures |objs - n| <= |objs - m|
  {
    Subset(objs - n, objs - m);
  }

  lemma Subset(a: set<GCObject>, b: set<GCObject>)
    requires a <= b
    ensures |a| <= |b|
  {
    assert b == a + (b - a);
  }

  lemma ElementsSnoc(list: seq<GCObject>, o: GCObject)
    ensures Elements(list + [o]) == Elements(list) + {o}
  {}

  class GCArena {
    var first: GCObject?
    var strings: map<string, GCObject>
    var tempRoots: seq<GCObject>
    var gray: seq<GCObject>

    constructor ()
      ensures first == null && strings == map[] && tempRoots == [] && gray == []
    {
      first, strings, tempRoots, gray := null, map[], [], [];
    }

    // ---- Marking ----

    method SetMark(o: GCObject, ghost objs: set<GCObject>)
      requires o in objs
      modifies objs`marked
      ensures Marked(objs) == old(Marked(objs)) + {o}
    {
      o.marked := true;
    }

    /** Marks the object of a value: it waits on the worklist. */
    method MarkValue(o: GCObject, ghost objs: set<GCObject>, ghost limit: set<GCObject>, ghost busy: set<GCObject>)
      requires Marking(objs, limit, Marked(objs), Elements(gray), busy) && o in limit && o in objs
      modifies objs`marked, this`gray
      ensures Marking(objs, limit, Marked(objs), Elements(gray), busy)
      ensures Marked(objs) == old(Marked(objs)) + {o} && Left(objs, Marked(objs), gray) <= old(Left(objs, Marked(objs), gray))
    {
      if o.marked { return; }
      hide Marking, Elements, Left;
      ghost var m := Marked(objs);
      MarkedMore(objs, limit, m, Elements(gray), busy, o);
      LeftMark(objs, m, gray, o);
      ElementsSnoc(gray, o);
      SetMark(o, objs);
      gray := gray + [o];
    }

    /** Marks everything below o: direct references by recursion, values on the worklist. */
    method MarkChildren(o: GCObject, ghost objs: set<GCObject>, ghost limit: set<GCObject>, ghost busy: set<GCObject>)
      requires Marking(objs, limit, Marked(objs), Elements(gray), busy + {o})
      requires o in Marked(objs) && o in objs && o.kind == Plain && WellFormed(objs)
      modifies objs`marked, this`gray
      ensures Marking(objs, limit, Marked(objs), Elements(gray), busy)
      ensures old(Marked(objs)) <= Marked(objs) && Left(objs, Marked(objs), gray) <= old(Left(objs, Marked(objs), gray))
      decreases |objs - Marked(objs)|, 1
    {
      hide Marking, Elements, Marked, WellFormed, Left, Children;
      MarkDirect(o, objs, limit, busy);
      ghost var m := Marked(objs);
      var i := 0;
      while i < |o.values|
        invariant 0 <= i <= |o.values| && m <= Marked(objs)
        invariant Marking(objs, limit, Marked(objs), Elements(gray), busy + {o})
        invariant forall k | 0 <= k < i :: o.values[k] in Marked(objs)
        invariant Left(objs, Marked(objs), gray) <= old(Left(objs, Marked(objs), gray))
      {
        ValueChild(o, i);
        ChildInside(objs, limit, Marked(objs), Elements(gray), busy + {o}, o, o.values[i]);
        MarkValue(o.values[i], objs, limit, busy + {o});
        i := i + 1;
      }
      PlainChildren(o, Marked(objs));
      MarkingDone(objs, limit, Marked(objs), Elements(gray), busy, o);
    }

    method MarkDirect(o: GCObject, ghost objs: set<GCObject>, ghost limit: set<GCObject>, ghost busy: set<GCObject>)
      requires Marking(objs, limit, Marked(objs), Elements(gray), busy + {o})
      requires o in Marked(objs) && o in objs && o.kind == Plain && WellFormed(objs)
      modifies objs`marked, this`gray
      ensures Marking(objs, limit, Marked(objs), Elements(gray), busy + {o})
      ensures old(Marked(objs)) <= Marked(objs) && Left(objs, Marked(objs), gray) <= old(Left(objs, Marked(objs), gray))
      ensures forall k | 0 <= k < |o.direct| :: o.direct[k] in Marked(objs)
      decreases |objs - Marked(objs)|, 0
    {
      hide Marking, Elements, WellFormed, Children, Left;
      ghost var m0 := Marked(objs);
      var i := 0;
      while i < |o.direct|
        invariant 0 <= i <= |o.direct| && m0 <= Marked(objs)
        invariant Marking(objs, limit, Marked(objs), Elements(gray), busy + {o})
        invariant forall k | 0 <= k < i :: o.direct[k] in Marked(objs)
        invariant Left(objs, Marked(objs), gray) <= old(Left(objs, Marked(objs), gray))
      {
        var d := o.direct[i];
        DirectPlain(objs, o, d);
        ghost var m := Marked(objs);
        ChildInside(objs, limit, m, Elements(gray), busy + {o}, o, d);
        if !d.marked {
          MarkedMore(objs, limit, m, Elements(gray), busy + {o}, d);
          LeftMark(objs, m, gray, d);
          LeftLess(objs, m, d);
          LeftSmaller(objs, m0, m);
          SetMark(d, objs);
          MarkChildren(d, objs, limit, busy + {o});
        }
        i := i + 1;
      }
    }

    // ---- Collecting ----

    method ClearMarks(ghost objs: set<GCObject>, ghost list: seq<GCObject>)
      requires Linked(first, list) && Elements(list) == objs
      modifies objs`marked
      ensures Marked(objs) == {}
    {
      hide Linked, Elements;
      var curr, i := first, 0;
      Entry(first, list);
      while curr != null
        invariant 0 <= i <= |list| && curr == (if i < |list| then list[i] else null)
        invariant forall k | 0 <= k < i :: !list[k].marked
        decreases |list| - i
      {
        InList(list, objs, i);
        Follow(first, list, i);
        curr.marked := false;
        curr := curr.nextGc;
        i := i + 1;
      }
      NoneMarked(list, objs);
    }

    method MarkRoots(roots: seq<GCObject>, ghost objs: set<GCObject>, ghost limit: set<GCObject>)
      requires Marking(objs, limit, Marked(objs), Elements(gray), {}) && Elements(roots) <= limit
      modifies objs`marked, this`gray
      ensures Marking(objs, limit, Marked(objs), Elements(gray), {}) && old(Marked(objs)) + Elements(roots) <= Marked(objs)
    {
      hide Marking, Left;
      var i := 0;
      while i < |roots|
        invariant 0 <= i <= |roots| && Marking(objs, limit, Marked(objs), Elements(gray), {})
        invariant old(Marked(objs)) <= Marked(objs) && forall k | 0 <= k < i :: roots[k] in Marked(objs)
      {
        assert roots[i] in Elements(roots);
        LimitInside(objs, limit, Marked(objs), Elements(gray), {});
        MarkValue(roots[i], objs, limit, {});
        i := i + 1;
      }
    }

    /** Empties the worklist. */
    method DrainGray(ghost objs: set<GCObject>, ghost limit: set<GCObject>)
      requires Marking(objs, limit, Marked(objs), Elements(gray), {})
      modifies objs`marked, this`gray
      ensures Marking(objs, limit, Marked(objs), {}, {}) && old(Marked(objs)) <= Marked(objs)
    {
      hide Marking, Left, Elements, Children, Marked, WellFormed;
      while |gray| > 0
        invariant Marking(objs, limit, Marked(objs), Elements(gray), {}) && old(Marked(objs)) <= Marked(objs)
        decreases Left(objs, Marked(objs), gray)
      {
        var o := gray[|gray| - 1];
        PopFacts(objs, limit, Marked(objs), gray);
        gray := gray[..|gray| - 1];
        if o.kind == Task {
          if o.completed && |o.values| > 0 { MarkResult(o, objs, limit); }
          else { TaskDone(objs, limit, Marked(objs), Elements(gray), o); }
        } else if o.kind == Channel {
          TaskDone(objs, limit, Marked(objs), Elements(gray), o);
        } else {
          MarkChildren(o, objs, limit, {});
        }
      }
      NoElements(gray);
    }

    /** A completed task leads to its result. */
    method MarkResult(o: GCObject, ghost objs: set<GCObject>, ghost limit: set<GCObject>)
      requires o.kind == Task && o.completed && o in Marked(objs) && Marking(objs, limit, Marked(objs), Elements(gray), {} + {o})
      modifies objs`marked, this`gray
      ensures Marking(objs, limit, Marked(objs), Elements(gray), {}) && old(Marked(objs)) <= Marked(objs)
      ensures Left(objs, Marked(objs), gray) <= old(Left(objs, Marked(objs), gray))
    {
      hide Marking, Elements, Left, WellFormed;
      var i := 0;
      while i < |o.values|
        invariant 0 <= i <= |o.values| && Marking(objs, limit, Marked(objs), Elements(gray), {} + {o})
        invariant old(Marked(objs)) <= Marked(objs) && forall k | 0 <= k < i :: o.values[k] in Marked(objs)
        invariant Left(objs, Marked(objs), gray) <= old(Left(objs, Marked(objs), gray))
      {
        assert o.values[i] in Children(o);
        ChildInside(objs, limit, Marked(objs), Elements(gray), {} + {o}, o, o.values[i]);
        MarkValue(o.values[i], objs, limit, {} + {o});
        i := i + 1;
      }
      MarkingDone(objs, limit, Marked(objs), Elements(gray), {}, o);
    }

    /** Drops the unmarked objects from the list. */
    method Sweep(ghost objs: set<GCObject>, ghost list: seq<GCObject>)
      requires Linked(first, list) && Elements(list) == objs
      modifies this`first, objs`nextGc
      ensures Linked(first, Kept(list, Marked(objs)))
    {
      hide Chain, Distinct, Kept, Elements, Marked;
      ghost var m, rest := Marked(objs), list;
      ghost var kept: seq<GCObject> := [];
      var prev: GCObject?, curr := null, first;
      SweepStart(first, list, m, objs);
      while curr != null
        invariant Sweeping(first, kept, curr, rest, prev, objs) && kept + Kept(rest, m) == Kept(list, m)
        decreases |rest|
      {
        SweepCurr(first, kept, curr, rest, prev, objs);
        KeptStep(kept, rest, m);
        MarkedIs(curr, objs);
        if curr.marked {
          kept := kept + [curr];
          prev := curr;
          curr := curr.nextGc;
        } else {
          var unreached := curr;
          curr := curr.nextGc;
          if prev != null {
            Relink(prev, curr, kept, rest[1..], objs);
          } else {
            NoneKept(first, kept, unreached, prev);
            first := curr;
          }
        }
        rest := rest[1..];
      }
      SweepEnd(first, kept, rest, m);
    }

    /** Makes the last object kept lead past an object that is dropped. */
    method Relink(prev: GCObject, next: GCObject?, ghost kept: seq<GCObject>, ghost rest: seq<GCObject>, ghost objs: set<GCObject>)
      requires kept != [] && prev == kept[|kept| - 1] && prev in objs && Distinct(kept + rest)
      requires Chain(first, kept, prev.nextGc) && Chain(next, rest, null)
      modifies objs`nextGc
      ensures Chain(first, kept, next) && Chain(next, rest, null)
    {
      forall k | 0 <= k < |kept| - 1 ensures kept[k] != prev { assert (kept + rest)[k] == kept[k] && (kept + rest)[|kept| - 1] == prev; }
      forall k | 0 <= k < |rest| ensures rest[k] != prev { assert (kept + rest)[|kept| + k] == rest[k] && (kept + rest)[|kept| - 1] == prev; }
      prev.nextGc := next;
    }

    /** Forgets the interned strings that did not survive. */
    method SweepStrings(ghost objs: set<GCObject>)
      requires strings.Values <= objs
      modifies this`strings
      ensures strings == map k | k in old(strings) && old(strings)[k] in Marked(objs) :: old(strings)[k]
    {
      ghost var was := strings;
      var left := strings.Keys;
      while left != {}
        invariant left <= was.Keys && strings.Keys <= was.Keys && forall k | k in strings :: strings[k] == was[k]
        invariant forall k | k in was :: k in strings <==> (k in left || was[k] in Marked(objs))
        decreases |left|
      {
        var k :| k in left;
        assert was[k] in was.Values && strings[k] == was[k];
        if !strings[k].marked { strings := strings - {k}; }
        left := left - {k};
      }
    }

    /** Marks exactly what the roots reach. */
    method MarkAll(vmRoots: seq<GCObject>, cloneRoots: seq<GCObject>, ghost objs: set<GCObject>, ghost list: seq<GCObject>)
      requires Linked(first, list) && Elements(list) == objs && WellFormed(objs)
      requires Elements(vmRoots) <= objs && Elements(tempRoots) <= objs && Elements(cloneRoots) <= objs
      modifies this`gray, objs`marked
      ensures Marked(objs) == Reachable(objs, Elements(vmRoots) + Elements(tempRoots) + Elements(cloneRoots))
    {
      hide Linked, Elements, Marked, Marking, Reachable, WellFormed, ClosedUnder;
      gray := [];
      ghost var roots := Elements(vmRoots) + Elements(tempRoots) + Elements(cloneRoots);
      ghost var live := Reachable(objs, roots);
      ReachableIsClosed(objs, roots);
      ClearMarks(objs, list);
      MarkingStarts(objs, live, gray);
      MarkRoots(vmRoots, objs, live);
      MarkRoots(tempRoots, objs, live);
      MarkRoots(cloneRoots, objs, live);
      DrainGray(objs, live);
      MarkingEnds(objs, roots, Marked(objs));
    }

    /** Marks from the roots, then forgets and frees what is not marked. */
    method CollectInternal(vmRoots: seq<GCObject>, cloneRoots: seq<GCObject>, ghost objs: set<GCObject>, ghost list: seq<GCObject>)
      requires Linked(first, list) && Elements(list) == objs && WellFormed(objs) && strings.Values <= objs
      requires Elements(vmRoots) <= objs && Elements(tempRoots) <= objs && Elements(cloneRoots) <= objs
      modifies this`first, this`strings, this`gray, objs`marked, objs`nextGc
      ensures var live := Reachable(objs, Elements(vmRoots) + Elements(tempRoots) + Elements(cloneRoots));
              && Marked(objs) == live && Linked(first, Kept(list, live))
              && strings == (map k | k in old(strings) && old(strings)[k] in live :: old(strings)[k])
              && (forall o, c | o in live && Holds(o, c) :: c in live)
              && forall o | o in objs :: o in live <==> exists path :: LeadsTo(path, Elements(vmRoots) + Elements(tempRoots) + Elements(cloneRoots), o)
    {
      hide Linked, Elements, Marked, Kept, Reachable, WellFormed, Holds, LeadsTo;
      MarkAll(vmRoots, cloneRoots, objs, list);
      SweepStrings(objs);
      Sweep(objs, list);
      LiveIsHeld(objs, Elements(vmRoots) + Elements(tempRoots) + Elements(cloneRoots));
    }

    // ---- Temporary roots ----

    method PushTempRoot(o: GCObject)
      modifies this`tempRoots
      ensures tempRoots == old(tempRoots) + [o]
    {
      tempRoots := tempRoots + [o];
    }

    /** Removes the last occurrence of o. */
    method RemoveTempRoot(o: GCObject)
      modifies this`tempRoots
      ensures o !in old(tempRoots) ==> tempRoots == old(tempRoots)
      ensures o in old(tempRoots) ==>
                exists i: nat :: i < |old(tempRoots)| && old(tempRoots)[i] == o && o !in old(tempRoots)[i + 1..]
                                 && tempRoots == old(tempRoots)[..i] + old(tempRoots)[i + 1..]
    {
      ghost var was := tempRoots;
      var i := |tempRoots|;
      while i > 0
        invariant 0 <= i <= |tempRoots| && tempRoots == was && o !in was[i..]
      {
        i := i - 1;
        if tempRoots[i] == o {
          tempRoots := tempRoots[..i] + tempRoots[i + 1..];
          return;
        }
        assert was[i..] == [was[i]] + was[i + 1..];
      }
    }

    // ---- Allocation ----

    /** Puts a fresh object in front of the list. */
    method Adopt(o: GCObject, ghost list: seq<GCObject>)
      requires Linked(first, list) && o !in list
      modifies this`first, o`nextGc
      ensures Linked(first, [o] + list)
    {
      o.nextGc := first;
      first := o;
      ChainCons(o, list, null);
      DistinctJoin([o], list);
    }

    method LastObject(ghost mine: seq<GCObject>) returns (last: GCObject)
      requires Linked(first, mine) && first != null
      ensures mine != [] && last == mine[|mine| - 1]
    {
      var curr, i := first, 0;
      while curr.nextGc != null
        invariant 0 <= i < |mine| && curr == mine[i]
        decreases |mine| - i
      {
        Follow(first, mine, i);
        curr := curr.nextGc;
        i := i + 1;
      }
      last := curr;
      Follow(first, mine, i);
    }

    /** Makes the last object of this arena's list lead on to another list. */
    method Append(last: GCObject, next: GCObject?, ghost mine: seq<GCObject>, ghost theirs: seq<GCObject>)
      requires mine != [] && last == mine[|mine| - 1] && Linked(first, mine) && Linked(next, theirs) && forall o | o in mine :: o !in theirs
      modifies last`nextGc
      ensures Linked(first, mine + theirs)
    {
      assert last in mine;
      last.nextGc := next;
      ChainJoin(first, mine, next, theirs, null);
      DistinctJoin(mine, theirs);
    }

    method HandOver(target: GCArena, ghost mine: seq<GCObject>, ghost theirs: seq<GCObject>)
      requires Linked(first, mine) && Linked(target.first, theirs) && forall o | o in mine :: o !in theirs
      requires target != this
      modifies this, target, Elements(mine)`nextGc
      ensures first == null && strings == map[] && Linked(target.first, mine + theirs)
      ensures target.strings == old(strings) + old(target.strings)
    {
      hide Linked;
      Entry(first, mine);
      Entry(target.first, theirs);
      if first != null {
        var last := LastObject(mine);
        Append(last, target.first, mine, theirs);
        target.first := first;
        first := null;
      } else {
        assert mine == [] && mine + theirs == theirs;
      }
      target.strings := strings + target.strings;
      strings := map[];
    }

    /** Hands all objects, and the interned strings it does not know, to another arena; to itself, nothing. */
    method TransferTo(target: GCArena, ghost mine: seq<GCObject>, ghost theirs: seq<GCObject>)
      requires Linked(first, mine) && Linked(target.first, theirs) && (target != this ==> forall o | o in mine :: o !in theirs)
      modifies this, target, Elements(mine)`nextGc
      ensures target == this ==> first == old(first) && strings == old(strings) && Linked(first, mine)
      ensures target != this ==> first == null && strings == map[] && Linked(target.first, mine + theirs)
      ensures target != this ==> target.strings == old(strings) + old(target.strings)
    {
      hide Linked;
      if target != this { HandOver(target, mine, theirs); }
    }
  }

  // ---- The sweep ----

  /** The objects of a list that are in m, in order. */
  ghost function Kept(list: seq<GCObject>, m: set<GCObject>): seq<GCObject> {
    if list == [] then [] else (if list[0] in m then [list[0]] else []) + Kept(list[1..], m)
  }

  /** What is kept is what is in m, in the old order. */
  lemma {:induction false} KeptFacts(list: seq<GCObject>, m: set<GCObject>)
    ensures forall o :: o in Kept(list, m) <==> o in list && o in m
    ensures Distinct(list) ==> Distinct(Kept(list, m))
    decreases |list|
  {
    if list != [] {
      KeptFacts(list[1..], m);
      var rest := Kept(list[1..], m);
      assert list == [list[0]] + list[1..];
      if Distinct(list) {
        assert forall k | 0 <= k < |list[1..]| :: list[1..][k] == list[k + 1];
        if list[0] in m { DistinctJoin([list[0]], rest); } else { assert [] + rest == rest; }
      }
    }
  }

  /** kept is strung together, leads to curr, and curr to the rest; prev is the last kept. */
  ghost predicate Sweeping(first: GCObject?, kept: seq<GCObject>, curr: GCObject?, rest: seq<GCObject>, prev: GCObject?, objs: set<GCObject>)
    reads kept`nextGc, rest`nextGc
  {
    && Chain(first, kept, curr) && Chain(curr, rest, null) && Distinct(kept + rest)
    && prev == (if kept == [] then null else kept[|kept| - 1]) && (forall o | o in kept + rest :: o in objs)
  }

  lemma SweepStart(first: GCObject?, list: seq<GCObject>, m: set<GCObject>, objs: set<GCObject>)
    requires Linked(first, list) && Elements(list) == objs
    ensures Sweeping(first, [], first, list, null, objs) && [] + Kept(list, m) == Kept(list, m)
  {
    assert [] + list == list;
  }

  /** The next object of the sweep, kept or dropped. */
  lemma SweepCurr(first: GCObject?, kept: seq<GCObject>, curr: GCObject, rest: seq<GCObject>, prev: GCObject?, objs: set<GCObject>)
    requires Sweeping(first, kept, curr, rest, prev, objs)
    ensures rest != [] && rest[0] == curr && curr in objs
    ensures prev != null ==> prev in objs && kept != [] && prev == kept[|kept| - 1] && prev.nextGc == curr
    ensures Sweeping(first, kept + [curr], curr.nextGc, rest[1..], curr, objs)
    ensures Dropping(first, kept, curr, curr.nextGc, rest[1..], prev, objs)
  {
    hide Distinct;
    ChainTail(curr, rest, null);
    if kept != [] { ChainLast(first, kept, curr); }
    ChainSnoc(first, kept, curr, curr.nextGc);
    DistinctMove(kept, rest);
    assert forall o | o in kept + rest[1..] :: o in kept + rest;
    assert curr in kept + rest && (prev != null ==> prev in kept + rest);
  }

  /** As Sweeping, but kept still leads to an object that is dropped, not to what follows it. */
  ghost predicate Dropping(first: GCObject?, kept: seq<GCObject>, curr: GCObject, next: GCObject?, rest: seq<GCObject>, prev: GCObject?, objs: set<GCObject>)
    reads kept`nextGc, rest`nextGc
  {
    && Chain(first, kept, curr) && Chain(next, rest, null) && Distinct(kept + rest)
    && prev == (if kept == [] then null else kept[|kept| - 1]) && (forall o | o in kept + rest :: o in objs)
  }

  lemma NoneKept(first: GCObject?, kept: seq<GCObject>, end: GCObject?, prev: GCObject?)
    requires Chain(first, kept, end) && prev == null && prev == (if kept == [] then null else kept[|kept| - 1])
    ensures kept == [] && forall next :: Chain(next, kept, next)
  {}

  lemma ChainTail(start: GCObject, list: seq<GCObject>, end: GCObject?)
    requires Chain(start, list, end) && end == null
    ensures list != [] && list[0] == start && Chain(start.nextGc, list[1..], end) && list == [start] + list[1..]
  {
    var rest := list[1..];
    assert list[0].nextGc == NextIn(list, 0, end);
    forall i | 0 <= i < |rest| ensures rest[i].nextGc == NextIn(rest, i, end) {
      assert rest[i] == list[i + 1] && list[i + 1].nextGc == NextIn(list, i + 1, end);
    }
  }

  lemma ChainOne(o: GCObject)
    ensures Chain(o, [o], o.nextGc)
  {}

  lemma ChainSnoc(start: GCObject?, list: seq<GCObject>, o: GCObject, end: GCObject?)
    requires Chain(start, list, o) && o.nextGc == end
    ensures Chain(start, list + [o], end)
  {
    ChainOne(o);
    ChainJoin(start, list, o, [o], end);
  }

  lemma ChainCons(o: GCObject, list: seq<GCObject>, end: GCObject?)
    requires Chain(o.nextGc, list, end)
    ensures Chain(o, [o] + list, end)
  {
    ChainOne(o);
    ChainJoin(o, [o], o.nextGc, list, end);
  }

  lemma ChainJoin(start: GCObject?, a: seq<GCObject>, mid: GCObject?, b: seq<GCObject>, end: GCObject?)
    requires Chain(start, a, mid) && Chain(mid, b, end)
    ensures Chain(start, a + b, end)
  {
    var all := a + b;
    forall i | 0 <= i < |all| ensures all[i].nextGc == NextIn(all, i, end) {
      if i < |a| {
        assert all[i] == a[i] && a[i].nextGc == NextIn(a, i, mid);
      } else {
        assert all[i] == b[i - |a|] && b[i - |a|].nextGc == NextIn(b, i - |a|, end);
      }
    }
  }

  /** What the last object of a chain leads to. */
  lemma ChainLast(start: GCObject?, list: seq<GCObject>, end: GCObject?)
    requires Chain(start, list, end) && list != []
    ensures list[|list| - 1].nextGc == end
  {
    assert list[|list| - 1].nextGc == NextIn(list, |list| - 1, end);
  }

  lemma DistinctMove(kept: seq<GCObject>, rest: seq<GCObject>)
    requires Distinct(kept + rest) && rest != []
    ensures (kept + [rest[0]]) + rest[1..] == kept + rest && Distinct(kept + rest[1..])
  {
    var all, less := kept + rest, kept + rest[1..];
    assert forall k | 0 <= k < |less| :: less[k] == all[if k < |kept| then k else k + 1];
  }

  lemma DistinctJoin(a: seq<GCObject>, b: seq<GCObject>)
    requires Distinct(a) && Distinct(b) && forall o | o in a :: o !in b
    ensures Distinct(a + b)
  {
    var all := a + b;
    forall i, j | 0 <= i < j < |all| ensures all[i] != all[j] {
      if i < |a| <= j { assert all[i] in a && all[j] == b[j - |a|]; }
      else if |a| <= i { assert all[i] == b[i - |a|] && all[j] == b[j - |a|]; }
    }
  }

  lemma KeptStep(kept: seq<GCObject>, rest: seq<GCObject>, m: set<GCObject>)
    requires rest != []
    ensures rest[0] in m ==> kept + Kept(rest, m) == (kept + [rest[0]]) + Kept(rest[1..], m)
    ensures rest[0] !in m ==> kept + Kept(rest, m) == kept + Kept(rest[1..], m)
  {
    if rest[0] !in m { assert [] + Kept(rest[1..], m) == Kept(rest[1..], m); }
    assert rest[0] in m ==> kept + ([rest[0]] + Kept(rest[1..], m)) == (kept + [rest[0]]) + Kept(rest[1..], m);
  }

  lemma MarkedIs(o: GCObject, objs: set<GCObject>)
    requires o in objs
    ensures o.marked <==> o in Marked(objs)
  {}

  lemma SweepEnd(first: GCObject?, kept: seq<GCObject>, rest: seq<GCObject>, m: set<GCObject>)
    requires Chain(first, kept, null) && Chain(null, rest, null) && Distinct(kept + rest)
    ensures rest == [] && Linked(first, kept) && kept + Kept(rest, m) == kept
  {
    assert rest == [];
    assert kept + rest == kept;
  }

  /** A marking that has not begun. */
  lemma MarkingStarts(objs: set<GCObject>, limit: set<GCObject>, gray: seq<GCObject>)
    requires gray == [] && WellFormed(objs) && limit <= objs && ClosedUnder(limit)
    ensures Marking(objs, limit, {}, Elements(gray), {})
  {}

  /** A finished marking has marked exactly what is reachable. */
  lemma MarkingEnds(objs: set<GCObject>, roots: set<GCObject>, m: set<GCObject>)
    requires Marking(objs, Reachable(objs, roots), m, {}, {}) && roots <= m
    ensures m == Reachable(objs, roots)
  {
    assert ClosedUnder(m);
    ReachableIsLeast(objs, roots, m);
    hide Reachable;
  }

  // ---- The intrusive list ----

  /** start and the nextGc references lead through the objects of the list to end. */
  ghost predicate Chain(start: GCObject?, list: seq<GCObject>, end: GCObject?)
    reads list`nextGc
  {
    && start == (if list == [] then end else list[0])
    && (forall i | 0 <= i < |list| :: list[i].nextGc == NextIn(list, i, end))
  }

  ghost function NextIn(list: seq<GCObject>, i: nat, end: GCObject?): GCObject?
    requires i < |list|
  {
    if i + 1 < |list| then list[i + 1] else end
  }

  ghost predicate Distinct(list: seq<GCObject>) { forall i, j | 0 <= i < j < |list| :: list[i] != list[j] }

  /** The list of all objects, from the first one on. */
  ghost predicate Linked(first: GCObject?, list: seq<GCObject>)
    reads list`nextGc
  {
    Chain(first, list, null) && Distinct(list)
  }

  lemma Entry(first: GCObject?, list: seq<GCObject>)
    requires Linked(first, list)
    ensures first == if |list| > 0 then list[0] else null
  {}

  lemma Follow(first: GCObject?, list: seq<GCObject>, i: nat)
    requires Linked(first, list) && i < |list|
    ensures list[i].nextGc == if i + 1 < |list| then list[i + 1] else null
    ensures forall k | 0 <= k < |list| && k != i :: list[k] != list[i]
  {
    assert list[i].nextGc == NextIn(list, i, null);
  }

  lemma InList(list: seq<GCObject>, objs: set<GCObject>, i: nat)
    requires i < |list| && Elements(list) == objs
    ensures list[i] in objs
  {}

  lemma NoneMarked(list: seq<GCObject>, objs: set<GCObject>)
    requires Elements(list) == objs && forall k | 0 <= k < |list| :: !list[k].marked
    ensures Marked(objs) == {}
  {}

  lemma LimitInside(objs: set<GCObject>, limit: set<GCObject>, m: set<GCObject>, g: set<GCObject>, busy: set<GCObject>)
    requires Marking(objs, limit, m, g, busy)
    ensures limit <= objs
  {}

  /** Taking an object off the worklist makes it busy. */
  lemma PopFacts(objs: set<GCObject>, limit: set<GCObject>, m: set<GCObject>, gray: seq<GCObject>)
    requires gray != [] && Marking(objs, limit, m, Elements(gray), {})
    ensures var o, rest := gray[|gray| - 1], gray[..|gray| - 1];
            && o in m && o in objs && WellFormed(objs) && Marking(objs, limit, m, Elements(rest), {} + {o})
            && Left(objs, m, rest) < Left(objs, m, gray)
  {
    var o, rest := gray[|gray| - 1], gray[..|gray| - 1];
    assert gray == rest + [o];
    ElementsSnoc(rest, o);
    assert {} + {o} + Elements(rest) == {} + Elements(gray);
  }

  lemma TaskDone(objs: set<GCObject>, limit: set<GCObject>, m: set<GCObject>, g: set<GCObject>, o: GCObject)
    requires Marking(objs, limit, m, g, {} + {o})
    requires o.kind == Channel || (o.kind == Task && (!o.completed || |o.values| == 0))
    ensures Marking(objs, limit, m, g, {})
  {}

  lemma NoElements(list: seq<GCObject>)
    requires |list| == 0
    ensures Elements(list) == {}
  {}

  lemma ValueChild(o: GCObject, i: nat)
    requires i < |o.values| && o.kind == Plain
    ensures o.values[i] in Children(o)
  {}

  lemma PlainChildren(o: GCObject, m: set<GCObject>)
    requires o.kind == Plain && (forall k | 0 <= k < |o.direct| :: o.direct[k] in m) && (forall k | 0 <= k < |o.values| :: o.values[k] in m)
    ensures forall c | c in Children(o) :: c in m
  {}
}
