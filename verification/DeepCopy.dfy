/** Copying a graph of lists, dictionaries and strings: a recursive clone with a table of
    what was cloned already. Frozen objects are shared. */
module DeepCopy {
  datatype Kind = Text | List | Dict

  datatype Val = Atom(code: int) | Ref(obj: Obj)

  /** A heap object: its text, or its elements, with their keys in a dictionary. */
  class Obj {
    const kind: Kind
    const frozen: bool
    const data: string
    var keys: seq<string>
    var elements: seq<Val>

    constructor (kind: Kind, data: string)
      ensures this.kind == kind && !frozen && this.data == data && keys == [] && elements == []
    {
      this.kind, this.frozen, this.data := kind, false, data;
      keys, elements := [], [];
    }
  }

  /** References of objects in the heap stay in the heap; dictionaries have a key per element. */
  ghost predicate WellFormed(heap: set<Obj>)
    reads heap
  {
    forall o | o in heap ::
      && (o.kind == Text ==> o.elements == []) && |o.keys| == (if o.kind == Dict then |o.elements| else 0)
      && forall i | 0 <= i < |o.elements| && o.elements[i].Ref? :: o.elements[i].obj in heap
  }

  /** What a value becomes in the copy. */
  function Image(v: Val, clones: map<Obj, Obj>): Val {
    if v.Ref? && !v.obj.frozen && v.obj in clones then Ref(clones[v.obj]) else v
  }

  /** v needs no more cloning. */
  predicate Covered(v: Val, clones: map<Obj, Obj>) { v.Ref? ==> v.obj.frozen || v.obj in clones }

  /** d is a faithful copy of o. */
  ghost predicate CopyOf(o: Obj, d: Obj, clones: map<Obj, Obj>)
    reads o, d
  {
    && d.kind == o.kind && d.data == o.data && d.keys == o.keys && |d.elements| == |o.elements|
    && forall i | 0 <= i < |o.elements| :: Covered(o.elements[i], clones) && d.elements[i] == Image(o.elements[i], clones)
  }

  /** The copies are new objects, one for each original; all but the busy ones are finished. */
  ghost predicate Cloning(heap: set<Obj>, clones: map<Obj, Obj>, busy: set<Obj>)
    reads heap, clones.Values
  {
    && clones.Keys <= heap && (forall o | o in clones :: !o.frozen && clones[o] !in heap)
    && (forall o, p | o in clones && p in clones && clones[o] == clones[p] :: o == p)
    && forall o | o in clones && o !in busy :: CopyOf(o, clones[o], clones)
  }

  ghost predicate Extends(a: map<Obj, Obj>, b: map<Obj, Obj>) { forall o | o in a :: o in b && b[o] == a[o] }

  lemma ImageExtends(v: Val, a: map<Obj, Obj>, b: map<Obj, Obj>)
    requires Covered(v, a) && Extends(a, b)
    ensures Covered(v, b) && Image(v, b) == Image(v, a)
  {}

  lemma CopyExtends(o: Obj, d: Obj, a: map<Obj, Obj>, b: map<Obj, Obj>)
    requires CopyOf(o, d, a) && Extends(a, b)
    ensures CopyOf(o, d, b)
  {
    forall i | 0 <= i < |o.elements| ensures Covered(o.elements[i], b) && d.elements[i] == Image(o.elements[i], b) {
      ImageExtends(o.elements[i], a, b);
    }
  }

  /** One more copy begun. */
  lemma CloneBegun(heap: set<Obj>, clones: map<Obj, Obj>, busy: set<Obj>, o: Obj, d: Obj)
    requires Cloning(heap, clones, busy) && o in heap && !o.frozen && o !in clones && d !in heap && d !in clones.Values
    ensures Cloning(heap, clones[o := d], busy + {o}) && Extends(clones, clones[o := d])
  {
    var more := clones[o := d];
    forall p | p in more && p !in busy + {o} ensures CopyOf(p, more[p], more) { CopyExtends(p, clones[p], clones, more); }
    forall p, q | p in more && q in more && more[p] == more[q] ensures p == q {
      if p != o { assert clones[p] in clones.Values; }
      if q != o { assert clones[q] in clones.Values; }
    }
  }

  lemma CloneEnded(heap: set<Obj>, clones: map<Obj, Obj>, busy: set<Obj>, o: Obj)
    requires Cloning(heap, clones, busy + {o}) && o in clones && CopyOf(o, clones[o], clones)
    ensures Cloning(heap, clones, busy)
  {}

  lemma FewerLeft(heap: set<Obj>, a: map<Obj, Obj>, o: Obj, d: Obj)
    requires o in heap && o !in a
    ensures |heap - a[o := d].Keys| < |heap - a.Keys|
  {
    assert heap - a.Keys == heap - a[o := d].Keys + {o};
  }

  lemma NoMoreLeft(heap: set<Obj>, a: map<Obj, Obj>, b: map<Obj, Obj>)
    requires Extends(a, b)
    ensures |heap - b.Keys| <= |heap - a.Keys|
  {
    assert heap - a.Keys == (heap - b.Keys) + ((heap - a.Keys) - (heap - b.Keys));
  }

  lemma ExtendsSame(a: map<Obj, Obj>)
    ensures Extends(a, a)
  {}

  lemma ExtendsTwice(a: map<Obj, Obj>, b: map<Obj, Obj>, c: map<Obj, Obj>)
    requires Extends(a, b) && Extends(b, c)
    ensures Extends(a, c)
  {}

  lemma ExtendsAt(a: map<Obj, Obj>, b: map<Obj, Obj>, o: Obj)
    requires Extends(a, b) && o in a
    ensures o in b && b[o] == a[o]
  {}

  lemma CloneOutside(heap: set<Obj>, clones: map<Obj, Obj>, busy: set<Obj>, o: Obj)
    requires Cloning(heap, clones, busy) && o in clones
    ensures clones[o] !in heap
  {}

  lemma ElementFacts(heap: set<Obj>, o: Obj, i: nat)
    requires WellFormed(heap) && o in heap && i < |o.elements|
    ensures o.elements[i].Ref? ==> o.elements[i].obj in heap
    ensures o.kind == Dict ==> i < |o.keys|
  {}

  /** The first n elements of o are copied to r. */
  ghost predicate CopiedSome(o: Obj, r: Obj, clones: map<Obj, Obj>, n: nat)
    reads o, r
  {
    && n <= |o.elements| && |r.elements| == n && r.kind == o.kind && r.data == o.data
    && (o.kind == Dict ==> n <= |o.keys|) && r.keys == (if o.kind == Dict then o.keys[..n] else [])
    && forall k | 0 <= k < n :: Covered(o.elements[k], clones) && r.elements[k] == Image(o.elements[k], clones)
  }

  lemma CopiedExtends(o: Obj, r: Obj, a: map<Obj, Obj>, b: map<Obj, Obj>, n: nat)
    requires CopiedSome(o, r, a, n) && Extends(a, b)
    ensures CopiedSome(o, r, b, n)
  {
    forall k | 0 <= k < n ensures Covered(o.elements[k], b) && r.elements[k] == Image(o.elements[k], b) {
      ImageExtends(o.elements[k], a, b);
    }
  }

  lemma StartCopied(heap: set<Obj>, o: Obj, r: Obj, clones: map<Obj, Obj>)
    requires WellFormed(heap) && o in heap && r.kind == o.kind && r.data == o.data && r.keys == [] && r.elements == []
    ensures CopiedSome(o, r, clones, 0)
  {}

  lemma CopiedAll(heap: set<Obj>, o: Obj, r: Obj, clones: map<Obj, Obj>)
    requires WellFormed(heap) && o in heap && CopiedSome(o, r, clones, |o.elements|)
    ensures CopyOf(o, r, clones)
  {}

  /** The table of clones of one copy. */
  class Cloner {
    var clones: map<Obj, Obj>

    constructor ()
      ensures clones == map[]
    {
      clones := map[];
    }

    /** The copy of a value: frozen objects are shared. */
    method CloneVal(v: Val, ghost heap: set<Obj>, ghost busy: set<Obj>) returns (r: Val)
      requires WellFormed(heap) && Cloning(heap, clones, busy) && (v.Ref? ==> v.obj in heap)
      modifies this
      ensures Cloning(heap, clones, busy) && Extends(old(clones), clones) && Covered(v, clones) && r == Image(v, clones)
      decreases |heap - clones.Keys|, 2
    {
      if !v.Ref? { return v; }
      if v.obj.frozen { return v; }
      var copy := Clone(v.obj, heap, busy);
      return Ref(copy);
    }

    /** The copy of an object: cloned already, or cloned now. */
    method Clone(o: Obj, ghost heap: set<Obj>, ghost busy: set<Obj>) returns (r: Obj)
      requires WellFormed(heap) && Cloning(heap, clones, busy) && o in heap && !o.frozen
      modifies this
      ensures Cloning(heap, clones, busy) && Extends(old(clones), clones) && o in clones && r == clones[o]
      decreases |heap - clones.Keys|, 1
    {
      if o in clones { return clones[o]; }
      r := CloneNew(o, heap, busy);
    }

    method CloneNew(o: Obj, ghost heap: set<Obj>, ghost busy: set<Obj>) returns (r: Obj)
      requires WellFormed(heap) && Cloning(heap, clones, busy) && o in heap && !o.frozen && o !in clones
      modifies this
      ensures Cloning(heap, clones, busy) && Extends(old(clones), clones) && o in clones && r == clones[o]
      decreases |heap - clones.Keys|, 0
    {
      hide WellFormed, Cloning, CopyOf, Extends;
      ghost var before := clones;
      r := Begin(o, heap, busy);
      ghost var begun := clones;
      CloneElements(o, r, heap, busy);
      CloneEnded(heap, clones, busy, o);
      ExtendsTwice(before, begun, clones);
    }

    method Allocate(kind: Kind, data: string) returns (r: Obj)
      ensures fresh(r) && r.kind == kind && r.data == data && r.keys == [] && r.elements == []
    {
      r := new Obj(kind, data);
    }

    /** A new, empty copy, entered in the table at once: cycles come back to it. */
    method Begin(o: Obj, ghost heap: set<Obj>, ghost busy: set<Obj>) returns (r: Obj)
      requires Cloning(heap, clones, busy) && o in heap && !o.frozen && o !in clones
      modifies this
      ensures fresh(r) && clones == old(clones)[o := r] && Cloning(heap, clones, busy + {o}) && Extends(old(clones), clones)
      ensures r.kind == o.kind && r.data == o.data && r.keys == [] && r.elements == []
      ensures |heap - clones.Keys| < |heap - old(clones).Keys|
    {
      hide *;
      r := Allocate(o.kind, o.data);
      assert r !in heap && r !in clones.Values;
      Enter(o, r, heap, busy);
    }

    method Enter(o: Obj, r: Obj, ghost heap: set<Obj>, ghost busy: set<Obj>)
      requires Cloning(heap, clones, busy) && o in heap && !o.frozen && o !in clones && r !in heap && r !in clones.Values
      modifies this
      ensures clones == old(clones)[o := r] && Cloning(heap, clones, busy + {o}) && Extends(old(clones), clones)
      ensures |heap - clones.Keys| < |heap - old(clones).Keys|
    {
      hide *;
      CloneBegun(heap, clones, busy, o, r);
      FewerLeft(heap, clones, o, r);
      clones := clones[o := r];
    }

    /** Appends the next element to an unfinished copy. */
    method Append(o: Obj, r: Obj, v: Val, ghost n: nat, key: string, ghost heap: set<Obj>, ghost busy: set<Obj>)
      requires Cloning(heap, clones, busy) && o in busy && o in clones && clones[o] == r && o in heap
      requires CopiedSome(o, r, clones, n) && n < |o.elements| && Covered(o.elements[n], clones) && v == Image(o.elements[n], clones)
      requires o.kind == Dict ==> n < |o.keys| && key == o.keys[n]
      modifies r
      ensures Cloning(heap, clones, busy) && CopiedSome(o, r, clones, n + 1)
    {
      hide Image, Covered;
      r.elements := r.elements + [v];
      if r.kind == Dict { r.keys := r.keys + [key]; }
    }

    /** Fills in the elements of a copy that was begun. */
    method CloneElements(o: Obj, r: Obj, ghost heap: set<Obj>, ghost busy: set<Obj>)
      requires WellFormed(heap) && Cloning(heap, clones, busy + {o}) && o in heap && o in clones && clones[o] == r
      requires r.kind == o.kind && r.data == o.data && r.keys == [] && r.elements == []
      modifies this, r
      ensures Cloning(heap, clones, busy + {o}) && Extends(old(clones), clones) && CopyOf(o, r, clones) && o in clones && clones[o] == r
      decreases |heap - clones.Keys|, 4
    {
      hide WellFormed, Cloning, CopyOf, Extends, CopiedSome;
      StartCopied(heap, o, r, clones);
      ExtendsSame(clones);
      CloneOutside(heap, clones, busy + {o}, o);
      ghost var before := clones;
      var i := 0;
      while i < |o.elements|
        invariant 0 <= i <= |o.elements| && Cloning(heap, clones, busy + {o}) && Extends(before, clones) && WellFormed(heap)
        invariant o in clones && clones[o] == r && CopiedSome(o, r, clones, i)
      {
        NoMoreLeft(heap, before, clones);
        ghost var c := clones;
        CloneElement(o, r, i, heap, busy);
        ExtendsTwice(before, c, clones);
        i := i + 1;
      }
      CopiedAll(heap, o, r, clones);
    }

    method CloneElement(o: Obj, r: Obj, i: nat, ghost heap: set<Obj>, ghost busy: set<Obj>)
      requires WellFormed(heap) && Cloning(heap, clones, busy + {o}) && o in heap && o in clones && clones[o] == r && r !in heap
      requires i < |o.elements| && CopiedSome(o, r, clones, i)
      modifies this, r
      ensures Cloning(heap, clones, busy + {o}) && Extends(old(clones), clones) && WellFormed(heap)
      ensures o in clones && clones[o] == r && CopiedSome(o, r, clones, i + 1)
      decreases |heap - clones.Keys|, 3
    {
      hide WellFormed, Cloning, CopyOf, Extends, Image, Covered, CopiedSome;
      ElementFacts(heap, o, i);
      ghost var c := clones;
      var v := CloneVal(o.elements[i], heap, busy + {o});
      CopiedExtends(o, r, c, clones, i);
      ExtendsAt(c, clones, o);
      Append(o, r, v, i, if o.kind == Dict then o.keys[i] else "", heap, busy + {o});
    }
  }

  // ---- What a copy is ----

  /** The copy of a value and of everything it reaches, frozen objects excepted. */
  method DeepCopy(v: Val, ghost heap: set<Obj>) returns (r: Val, ghost clones: map<Obj, Obj>)
    requires WellFormed(heap) && (v.Ref? ==> v.obj in heap)
    ensures Cloning(heap, clones, {}) && Covered(v, clones) && r == Image(v, clones) && WellFormed(heap)
  {
    hide WellFormed, Covered;
    var cloner := new Cloner();
    r := cloner.CloneVal(v, heap, {});
    clones := cloner.clones;
  }

  /** The graph below a value, step by step, frozen objects not entered. */
  ghost predicate Reaches(v: Val, path: seq<nat>, w: Val, heap: set<Obj>)
    reads heap
    decreases |path|
  {
    if path == [] then v == w
    else v.Ref? && !v.obj.frozen && v.obj in heap && path[0] < |v.obj.elements| && Reaches(v.obj.elements[path[0]], path[1..], w, heap)
  }

  /** The copy has the shape of the original: every path from the value leads, in the copy,
      to the image of what it leads to in the original. */
  lemma {:induction false} CopyHasSamePaths(heap: set<Obj>, clones: map<Obj, Obj>, v: Val, path: seq<nat>, w: Val)
    requires Cloning(heap, clones, {}) && Covered(v, clones) && Reaches(v, path, w, heap)
    ensures Covered(w, clones) && FollowedTo(Image(v, clones), path, Image(w, clones), clones.Values)
    decreases |path|
  {
    if path != [] {
      var o, u := v.obj, v.obj.elements[path[0]];
      assert o in clones && CopyOf(o, clones[o], clones);
      CopyHasSamePaths(heap, clones, u, path[1..], w);
      assert clones[o].elements[path[0]] == Image(u, clones);
    }
  }

  /** And every path in the copy is one of the original. */
  lemma {:induction false} CopyHasOnlySamePaths(heap: set<Obj>, clones: map<Obj, Obj>, v: Val, path: seq<nat>, x: Val) returns (w: Val)
    requires Cloning(heap, clones, {}) && WellFormed(heap) && Covered(v, clones) && (v.Ref? ==> v.obj in heap)
    requires FollowedTo(Image(v, clones), path, x, clones.Values)
    ensures Reaches(v, path, w, heap) && x == Image(w, clones)
    decreases |path|
  {
    if path == [] {
      w := v;
    } else {
      var o := v.obj;
      assert o in clones && CopyOf(o, clones[o], clones);
      w := CopyHasOnlySamePaths(heap, clones, o.elements[path[0]], path[1..], x);
    }
  }

  /** Following a path inside the copies. */
  ghost predicate FollowedTo(v: Val, path: seq<nat>, w: Val, copies: set<Obj>)
    reads copies
    decreases |path|
  {
    if path == [] then v == w
    else v.Ref? && v.obj in copies && path[0] < |v.obj.elements| && FollowedTo(v.obj.elements[path[0]], path[1..], w, copies)
  }

  /** Different originals have different copies, so sharing and cycles are the same. */
  lemma ImagesDiffer(heap: set<Obj>, clones: map<Obj, Obj>, v: Val, w: Val)
    requires Cloning(heap, clones, {}) && Covered(v, clones) && Covered(w, clones)
    requires (v.Ref? ==> v.obj in heap) && (w.Ref? ==> w.obj in heap) && Image(v, clones) == Image(w, clones)
    ensures v == w
  {}

  /** Only frozen objects are shared: any other reference of the copy leads to a copy. */
  lemma OnlyFrozenShared(heap: set<Obj>, clones: map<Obj, Obj>, o: Obj, i: nat)
    requires Cloning(heap, clones, {}) && o in clones && i < |clones[o].elements|
    ensures var e := clones[o].elements[i]; e.Ref? ==> e.obj.frozen || (e.obj in clones.Values && e.obj !in heap)
  {
    assert CopyOf(o, clones[o], clones);
  }
}
