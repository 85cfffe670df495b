/**
 * Captured variables in the virtual machine. While its slot is live, a captured variable is reached
 * through a pointer into the stack, and the captures of live slots form a linked list that falls by
 * slot. When the slot dies, its value moves into the capture. When the stack grows, the whole
 * buffer moves. All of this together behaves like shared cells.
 */
module Upvalues {
  import opened Values
  import opened SharedCells

  /** Where a capture finds its variable: in a stack buffer, or in itself. */
  datatype Location = Slot(buffer: array<Value>, index: nat) | Own

  class ObjUpvalue {
    var location: Location
    var closed: Value
    var next: ObjUpvalue?

    constructor (slot: Location)
      ensures location == slot && next == null
    {
      location, closed, next := slot, VNull, null;
    }
  }

  // ---- The state as a value ----

  /** The stack buffer, and for each capture the slot it points to (or -1) and its own value. */
  datatype View = View(vals: seq<Value>, at: map<ObjUpvalue, int>, own: map<ObjUpvalue, Value>)

  ghost predicate WellFormed(v: View) {
    && v.at.Keys == v.own.Keys && (forall u | u in v.at :: -1 <= v.at[u] < |v.vals|)
  }

  /** What a closure reads through a capture. */
  ghost function ReadOf(v: View, u: ObjUpvalue): Value
    requires WellFormed(v) && u in v.at
  {
    if v.at[u] >= 0 then v.vals[v.at[u]] else v.own[u]
  }

  /** The list falls by slot and holds exactly the captures that point into the stack. */
  ghost predicate Falls(open: seq<ObjUpvalue>, at: map<ObjUpvalue, int>) {
    && (forall i | 0 <= i < |open| :: open[i] in at && at[open[i]] >= 0)
    && (forall i, j | 0 <= i < j < |open| :: at[open[i]] > at[open[j]])
    && HoldsAll(open, at)
  }

  ghost predicate HoldsAll(open: seq<ObjUpvalue>, at: map<ObjUpvalue, int>) { forall u | u in at && at[u] >= 0 :: u in open }

  /** After every capture at or above a slot has taken its value along. */
  ghost function ClosedFrom(v: View, last: nat): View
    requires WellFormed(v)
  {
    View(v.vals, map u | u in v.at :: if v.at[u] >= last then -1 else v.at[u],
         map u | u in v.at :: if v.at[u] >= last then v.vals[v.at[u]] else v.own[u])
  }

  // ---- Agreement with the cells ----

  ghost predicate Slots(vals: seq<Value>, cells: seq<Value>, slots: seq<nat>) {
    |slots| <= |vals| && forall i | 0 <= i < |slots| :: slots[i] < |cells| && vals[i] == cells[slots[i]]
  }

  ghost predicate Captures(v: View, cellOf: map<ObjUpvalue, nat>, cells: seq<Value>) {
    WellFormed(v) && cellOf.Keys == v.at.Keys && forall u | u in v.at :: cellOf[u] < |cells| && ReadOf(v, u) == cells[cellOf[u]]
  }

  ghost predicate Links(at: map<ObjUpvalue, int>, cellOf: map<ObjUpvalue, nat>, slots: seq<nat>) {
    && cellOf.Keys == at.Keys && (forall u | u in at :: at[u] < |slots|)
    && (forall u, i | u in at && 0 <= i < |slots| :: cellOf[u] == slots[i] <==> at[u] == i)
  }

  ghost predicate Apart(cellOf: map<ObjUpvalue, nat>) {
    forall u, w | u in cellOf && w in cellOf && u != w :: cellOf[u] != cellOf[w]
  }

  ghost predicate Coupled(v: View, top: nat, cellOf: map<ObjUpvalue, nat>, sh: Shared) {
    && Good(sh) && |sh.slots| == top && Slots(v.vals, sh.cells, sh.slots) && Captures(v, cellOf, sh.cells)
    && Links(v.at, cellOf, sh.slots) && Apart(cellOf)
  }

  ghost predicate SameHandles(upvalues: seq<ObjUpvalue>, cellOf: map<ObjUpvalue, nat>, handles: seq<nat>) {
    && |upvalues| == |handles| && (forall k | 0 <= k < |upvalues| :: upvalues[k] in cellOf && cellOf[upvalues[k]] == handles[k])
    && (forall u | u in cellOf :: u in upvalues)
  }

  // A new slot.

  lemma PushSlots(vals: seq<Value>, now: seq<Value>, cells: seq<Value>, slots: seq<nat>, x: Value)
    requires Slots(vals, cells, slots) && |slots| < |now| && now[..|slots|] == vals[..|slots|] && now[|slots|] == x
    ensures Slots(now, cells + [x], slots + [|cells|])
  {
    assert forall i | 0 <= i < |slots| :: now[i] == now[..|slots|][i] == vals[..|slots|][i] == vals[i];
  }

  lemma PushCaptures(v: View, w: View, cellOf: map<ObjUpvalue, nat>, cells: seq<Value>, slots: seq<nat>, x: Value)
    requires Captures(v, cellOf, cells) && Links(v.at, cellOf, slots) && WellFormed(w) && w.at == v.at && w.own == v.own
    requires |slots| <= |v.vals| && |slots| <= |w.vals| && w.vals[..|slots|] == v.vals[..|slots|]
    ensures Captures(w, cellOf, cells + [x])
  {
    forall u | u in w.at ensures cellOf[u] < |cells| && ReadOf(w, u) == cells[cellOf[u]] {
      if w.at[u] >= 0 { assert w.vals[..|slots|][w.at[u]] == v.vals[..|slots|][w.at[u]]; }
      assert ReadOf(v, u) == cells[cellOf[u]];
    }
  }

  lemma PushLinks(at: map<ObjUpvalue, int>, cellOf: map<ObjUpvalue, nat>, slots: seq<nat>, cell: nat)
    requires Links(at, cellOf, slots) && forall u | u in cellOf :: cellOf[u] < cell
    ensures Links(at, cellOf, slots + [cell])
  {}

  lemma PushCoupled(v: View, w: View, top: nat, cellOf: map<ObjUpvalue, nat>, sh: Shared, x: Value)
    requires Coupled(v, top, cellOf, sh) && WellFormed(w) && w.at == v.at && w.own == v.own
    requires top <= |v.vals| && top < |w.vals| && w.vals[..top] == v.vals[..top] && w.vals[top] == x
    ensures Coupled(w, top + 1, cellOf, NewSlot(sh, x))
  {
    hide Good, Slots, Links, Apart;
    NewSlotIsGood(sh, x);
    PushSlots(v.vals, w.vals, sh.cells, sh.slots, x);
    PushCaptures(v, w, cellOf, sh.cells, sh.slots, x);
    PushLinks(v.at, cellOf, sh.slots, |sh.cells|);
  }

  // A value stored in a live slot.

  lemma StoreCaptures(v: View, cellOf: map<ObjUpvalue, nat>, cells: seq<Value>, slots: seq<nat>, i: nat, x: Value)
    requires Captures(v, cellOf, cells) && Links(v.at, cellOf, slots) && i < |slots| && i < |v.vals| && slots[i] < |cells|
    ensures Captures(v.(vals := v.vals[i := x]), cellOf, cells[slots[i] := x])
  {
    var w := v.(vals := v.vals[i := x]);
    forall u | u in w.at ensures ReadOf(w, u) == cells[slots[i] := x][cellOf[u]] {
      assert ReadOf(v, u) == cells[cellOf[u]];
      assert cellOf[u] == slots[i] <==> w.at[u] == i;
    }
  }

  lemma SlotCoupled(v: View, top: nat, cellOf: map<ObjUpvalue, nat>, sh: Shared, i: nat, x: Value)
    requires Coupled(v, top, cellOf, sh) && i < top <= |v.vals|
    ensures Coupled(v.(vals := v.vals[i := x]), top, cellOf, Store(sh, sh.slots[i], x))
  {
    hide Captures, Links, Apart;
    StoreCaptures(v, cellOf, sh.cells, sh.slots, i, x);
  }

  // A value stored in a capture whose slot is gone.

  lemma OwnCaptures(v: View, cellOf: map<ObjUpvalue, nat>, cells: seq<Value>, u: ObjUpvalue, x: Value)
    requires Captures(v, cellOf, cells) && Apart(cellOf) && u in v.at && v.at[u] == -1
    ensures Captures(v.(own := v.own[u := x]), cellOf, cells[cellOf[u] := x])
  {
    var w := v.(own := v.own[u := x]);
    forall t | t in w.at ensures ReadOf(w, t) == cells[cellOf[u] := x][cellOf[t]] {
      assert ReadOf(v, t) == cells[cellOf[t]];
    }
  }

  lemma OwnSlots(v: View, cellOf: map<ObjUpvalue, nat>, cells: seq<Value>, slots: seq<nat>, u: ObjUpvalue, x: Value)
    requires Slots(v.vals, cells, slots) && Links(v.at, cellOf, slots) && u in v.at && v.at[u] == -1 && cellOf[u] < |cells|
    ensures Slots(v.vals, cells[cellOf[u] := x], slots)
  {
    forall i | 0 <= i < |slots| ensures slots[i] != cellOf[u] { assert v.at[u] != i; }
  }

  lemma OwnCoupled(v: View, top: nat, cellOf: map<ObjUpvalue, nat>, sh: Shared, u: ObjUpvalue, x: Value)
    requires Coupled(v, top, cellOf, sh) && u in v.at && v.at[u] == -1 && u in cellOf && cellOf[u] < |sh.cells|
    ensures u in v.own && Coupled(v.(own := v.own[u := x]), top, cellOf, Store(sh, cellOf[u], x))
  {
    hide Slots, Links, Apart, ReadOf;
    OwnCaptures(v, cellOf, sh.cells, u, x);
    OwnSlots(v, cellOf, sh.cells, sh.slots, u, x);
  }

  // A new capture of a live slot.

  lemma CaptureCaptures(v: View, w: View, cellOf: map<ObjUpvalue, nat>, cells: seq<Value>, u: ObjUpvalue, i: nat, cell: nat)
    requires Captures(v, cellOf, cells) && u !in v.at && WellFormed(w) && w.vals == v.vals && w.at == v.at[u := i]
    requires (forall t | t in v.own :: t in w.own && w.own[t] == v.own[t]) && i < |v.vals| && cell < |cells| && v.vals[i] == cells[cell]
    ensures Captures(w, cellOf[u := cell], cells)
  {
    forall t | t in v.at ensures ReadOf(w, t) == cells[cellOf[t]] { assert ReadOf(v, t) == cells[cellOf[t]]; }
  }

  lemma CaptureLinks(at: map<ObjUpvalue, int>, cellOf: map<ObjUpvalue, nat>, slots: seq<nat>, u: ObjUpvalue, i: nat)
    requires Links(at, cellOf, slots) && Apart(cellOf) && u !in at && i < |slots| && (forall t | t in at :: at[t] != i)
    requires forall j, k | 0 <= j < k < |slots| :: slots[j] != slots[k]
    ensures Links(at[u := i], cellOf[u := slots[i]], slots) && Apart(cellOf[u := slots[i]])
  {
    forall t | t in at ensures cellOf[t] != slots[i] { assert at[t] != i; }
  }

  lemma CaptureCoupled(v: View, w: View, top: nat, cellOf: map<ObjUpvalue, nat>, sh: Shared, u: ObjUpvalue, i: nat)
    requires Coupled(v, top, cellOf, sh) && i < top && u !in v.at && (forall t | t in v.at :: v.at[t] != i)
    requires WellFormed(w) && w.vals == v.vals && w.at == v.at[u := i] && (forall t | t in v.own :: t in w.own && w.own[t] == v.own[t])
    ensures Coupled(w, top, cellOf[u := sh.slots[i]], sh)
  {
    hide Captures, Links, Apart, WellFormed;
    CaptureCaptures(v, w, cellOf, sh.cells, u, i, sh.slots[i]);
    CaptureLinks(v.at, cellOf, sh.slots, u, i);
  }

  // Dropped slots.

  lemma DropCaptures(v: View, cellOf: map<ObjUpvalue, nat>, cells: seq<Value>, n: nat)
    requires Captures(v, cellOf, cells)
    ensures Captures(ClosedFrom(v, n), cellOf, cells)
  {
    var w := ClosedFrom(v, n);
    forall u | u in w.at ensures ReadOf(w, u) == cells[cellOf[u]] { assert ReadOf(v, u) == cells[cellOf[u]]; }
  }

  lemma DropLinks(v: View, cellOf: map<ObjUpvalue, nat>, slots: seq<nat>, n: nat)
    requires WellFormed(v) && Links(v.at, cellOf, slots) && n <= |slots|
    ensures Links(ClosedFrom(v, n).at, cellOf, slots[..n])
  {
    var w := ClosedFrom(v, n);
    forall u, i | u in w.at && 0 <= i < n ensures cellOf[u] == slots[..n][i] <==> w.at[u] == i {
      assert cellOf[u] == slots[i] <==> v.at[u] == i;
    }
  }

  lemma DropCoupled(v: View, top: nat, cellOf: map<ObjUpvalue, nat>, sh: Shared, n: nat, frames: nat)
    requires Coupled(v, top, cellOf, sh) && n <= top && 0 < frames <= |sh.bases|
    ensures WellFormed(v) && Coupled(ClosedFrom(v, n), n, cellOf, Drop(sh, n, frames))
  {
    hide Links, Apart, ReadOf, Good;
    DropIsGood(sh, n, frames);
    DropCaptures(v, cellOf, sh.cells, n);
    DropLinks(v, cellOf, sh.slots, n);
  }

  /** Without captures at or above n, closing changes nothing. */
  lemma NothingToClose(v: View, n: nat)
    requires WellFormed(v) && forall u | u in v.at :: v.at[u] < n
    ensures ClosedFrom(v, n) == v
  {
    assert ClosedFrom(v, n).at == v.at && ClosedFrom(v, n).own == v.own;
  }

  /** One capture of slot i more; the others as before. */
  ghost predicate Captured(v: View, w: View, u: ObjUpvalue, i: nat) {
    && v.at.Keys == v.own.Keys && u !in v.at && w.at == v.at[u := i] && w.own.Keys == w.at.Keys && w.vals == v.vals
    && (forall t | t in v.at :: t in w.own && w.own[t] == v.own[t] && v.at[t] != i)
  }

  lemma IsCaptured(v: View, w: View, u: ObjUpvalue, i: nat)
    requires v.at.Keys == v.own.Keys && u !in v.at && w.at == v.at[u := i] && w.own.Keys == w.at.Keys && w.vals == v.vals
    requires forall t | t in v.at :: t in w.own && w.own[t] == v.own[t] && v.at[t] != i
    ensures Captured(v, w, u, i)
  {}

  lemma CapturedAt(v: View, w: View, u: ObjUpvalue, i: nat)
    requires Captured(v, w, u, i)
    ensures u in w.at && w.at[u] == i
  {}

  lemma FallFacts(open: seq<ObjUpvalue>, at: map<ObjUpvalue, int>)
    requires Falls(open, at)
    ensures forall i, j | 0 <= i < j < |open| :: open[i] != open[j]
    ensures forall i | 0 <= i < |open| :: open[i] in at && at[open[i]] >= 0
  {}

  lemma Distinct(open: seq<ObjUpvalue>, at: map<ObjUpvalue, int>)
    requires Falls(open, at)
    ensures forall i, j | 0 <= i < j < |open| :: open[i] != open[j]
  {}

  lemma InsertFalls(open: seq<ObjUpvalue>, at: map<ObjUpvalue, int>, k: nat, u: ObjUpvalue, local: nat)
    requires Falls(open, at) && k <= |open| && u !in at && (forall i | 0 <= i < k :: at[open[i]] > local)
    requires k < |open| ==> at[open[k]] < local
    ensures Falls(open[..k] + [u] + open[k..], at[u := local]) && forall t | t in at :: at[t] != local
  {
    forall t | t in at && at[t] >= 0 ensures t in open[..k] + [u] + open[k..] && at[t] != local {
      InsertKeeps(open, at, k, u, local, t);
    }
    hide HoldsAll;
    InsertHolds(open, at, k, u, local);
  }

  lemma InsertHolds(open: seq<ObjUpvalue>, at: map<ObjUpvalue, int>, k: nat, u: ObjUpvalue, local: nat)
    requires k <= |open| && forall t | t in at && at[t] >= 0 :: t in open[..k] + [u] + open[k..]
    ensures HoldsAll(open[..k] + [u] + open[k..], at[u := local])
  {
    assert (open[..k] + [u] + open[k..])[k] == u;
  }

  lemma InsertKeeps(open: seq<ObjUpvalue>, at: map<ObjUpvalue, int>, k: nat, u: ObjUpvalue, local: nat, t: ObjUpvalue)
    requires Falls(open, at) && k <= |open| && (forall i | 0 <= i < k :: at[open[i]] > local) && (k < |open| ==> at[open[k]] < local)
    requires t in at && at[t] >= 0
    ensures t in open[..k] + [u] + open[k..] && at[t] != local
  {
    var now := open[..k] + [u] + open[k..];
    var i :| 0 <= i < |open| && open[i] == t;
    assert now[if i < k then i else i + 1] == t;
  }

  lemma RestFalls(open: seq<ObjUpvalue>, at: map<ObjUpvalue, int>)
    requires Falls(open, at) && open != []
    ensures Falls(open[1..], at[open[0] := -1])
  {
    forall u | u in at && at[u] >= 0 && u != open[0] ensures u in open[1..] {
      var i :| 0 <= i < |open| && open[i] == u;
      assert open[1..][i - 1] == u;
    }
  }

  lemma CloseOne(v: View, u: ObjUpvalue, last: nat)
    requires WellFormed(v) && u in v.at && v.at[u] >= last
    ensures var w := View(v.vals, v.at[u := -1], v.own[u := v.vals[v.at[u]]]);
            WellFormed(w) && ClosedFrom(w, last) == ClosedFrom(v, last)
  {
    var w := View(v.vals, v.at[u := -1], v.own[u := v.vals[v.at[u]]]);
    assert ClosedFrom(w, last).at == ClosedFrom(v, last).at;
    assert ClosedFrom(w, last).own == ClosedFrom(v, last).own;
  }

  lemma AllBelow(open: seq<ObjUpvalue>, v: View, last: nat)
    requires Falls(open, v.at) && (open != [] ==> v.at[open[0]] < last)
    ensures forall u | u in v.at :: v.at[u] < last
  {
    forall u | u in v.at ensures v.at[u] < last {
      if v.at[u] >= 0 {
        var i :| 0 <= i < |open| && open[i] == u;
        assert i > 0 ==> v.at[open[0]] > v.at[open[i]];
      }
    }
  }

  // ---- The machine ----

  function Node(open: seq<ObjUpvalue>, i: nat): ObjUpvalue? { if i < |open| then open[i] else null }

  class VM {
    var stack: array<Value>
    var stackTop: nat
    var frames: seq<Location>
    var openUpvalues: ObjUpvalue?
    /** The captures the closures hold, in the order they were asked for. */
    var upvalues: seq<ObjUpvalue>
    /** The linked list as a sequence, all captures, and the cells they stand for. */
    ghost var open: seq<ObjUpvalue>
    ghost var known: set<ObjUpvalue>
    ghost var cellOf: map<ObjUpvalue, nat>
    ghost var shared: Shared

    ghost predicate Linked()
      reads this`open, this`openUpvalues, this`known, known
    {
      && (forall i | 0 <= i < |open| :: open[i] in known) && openUpvalues == Node(open, 0)
      && (forall i | 0 <= i < |open| :: open[i].next == Node(open, i + 1))
    }

    ghost function Where(): map<ObjUpvalue, int>
      reads this`known, known
    {
      map u | u in known :: if u.location.Slot? then u.location.index as int else -1
    }

    ghost function Now(): View
      reads this`known, this`stack, known, stack
    {
      View(stack[..], Where(), map u | u in known :: u.closed)
    }

    /** Every pointer goes into the present buffer. */
    ghost predicate Pointed()
      reads this`stack, this`known, known
    {
      forall u | u in known && u.location.Slot? :: u.location.buffer == stack && u.location.index < stack.Length
    }

    ghost predicate FramesPointed()
      reads this`stack, this`frames
    {
      forall k | 0 <= k < |frames| :: frames[k].Slot? && frames[k].buffer == stack
    }

    ghost predicate Shape()
      reads this`stack, this`open, this`openUpvalues, this`known, known
    {
      stack.Length > 0 && Linked() && Pointed() && Falls(open, Where())
    }

    /** The first place in the list that is not above a slot. */
    method FindOpen(local: nat) returns (prev: ObjUpvalue?, curr: ObjUpvalue?, ghost k: nat)
      requires Shape()
      ensures k <= |open| && curr == Node(open, k) && prev == (if k == 0 then null else open[k - 1])
      ensures forall i | 0 <= i < k :: Where()[open[i]] > local
      ensures curr != null ==> curr in known && curr.location.Slot? && Where()[curr] <= local
    {
      k := 0;
      prev := null;
      curr := openUpvalues;
      while curr != null && curr.location.index > local
        invariant 0 <= k <= |open| && curr == Node(open, k) && prev == (if k == 0 then null else open[k - 1])
        invariant forall i | 0 <= i < k :: Where()[open[i]] > local
        decreases |open| - k
      {
        prev := curr;
        curr := curr.next;
        k := k + 1;
      }
    }

    /** Links a new capture in after prev. */
    method LinkIn(prev: ObjUpvalue?, uv: ObjUpvalue, ghost k: nat)
      requires Linked() && k <= |open| && prev == (if k == 0 then null else open[k - 1])
      requires uv !in known && uv.next == Node(open, k)
      requires forall i, j | 0 <= i < j < |open| :: open[i] != open[j]
      modifies this`openUpvalues, this`open, this`known, known
      ensures Linked() && open == old(open[..k] + [uv] + open[k..]) && known == old(known) + {uv}
      ensures forall u | u in known :: u.location == old(u.location) && u.closed == old(u.closed)
    {
      if prev == null {
        openUpvalues := uv;
      } else {
        prev.next := uv;
      }
      ghost var was := open;
      open := open[..k] + [uv] + open[k..];
      known := known + {uv};
      forall i | 0 <= i < |open| ensures open[i] in known && open[i].next == Node(open, i + 1) {
        assert open[i] == if i < k then was[i] else if i == k then uv else was[i - 1];
        assert Node(open, i + 1) == if i + 1 < k then was[i + 1] else if i + 1 == k then uv else Node(was, i);
      }
    }

    method Allocate(local: nat, next: ObjUpvalue?) returns (uv: ObjUpvalue)
      ensures fresh(uv) && uv.location == Slot(stack, local) && uv.next == next
    {
      uv := new ObjUpvalue(Slot(stack, local));
      uv.next := next;
    }

    /** The captures of a view are as the view says. */
    ghost predicate Shows(v: View)
      reads this`stack, this`known, known
    {
      && v.at.Keys == v.own.Keys <= known
      && forall u | u in v.at :: u.closed == v.own[u] && u.location == if v.at[u] >= 0 then Slot(stack, v.at[u]) else Own
    }

    lemma ShowsNow()
      requires Pointed()
      ensures Shows(Now())
    {}

    lemma OneMore(was: View, uv: ObjUpvalue, local: nat)
      requires Shows(was) && known == was.at.Keys + {uv} && uv !in was.at && uv.location == Slot(stack, local) && local < stack.Length
      requires was.vals == stack[..] && (forall u | u in was.at :: -1 <= was.at[u] < |was.vals|)
      ensures Pointed() && Where() == was.at[uv := local] && Now().own.Keys == Where().Keys && Now().vals == was.vals
      ensures forall t | t in was.at :: Now().own[t] == was.own[t]
    {
      assert Where() == was.at[uv := local];
    }

    /** Sizes only. */
    lemma PointFacts()
      requires Pointed()
      ensures forall u | u in known :: -1 <= Where()[u] < |stack[..]|
    {}

    /** Takes a capture into its place in the list. */
    method Insert(local: nat, prev: ObjUpvalue?, uv: ObjUpvalue, ghost k: nat)
      requires Shape() && local < stack.Length && uv !in known && uv.location == Slot(stack, local) && uv.next == Node(open, k)
      requires k <= |open| && prev == (if k == 0 then null else open[k - 1])
      requires (forall i | 0 <= i < k :: Where()[open[i]] > local) && (k < |open| ==> Where()[open[k]] < local)
      modifies this`openUpvalues, this`open, this`known, known
      ensures Shape() && known == old(known) + {uv} && Captured(old(Now()), Now(), uv, local)
    {
      hide Falls, Captured, Pointed;
      ghost var was, list := Now(), open;
      Distinct(open, was.at);
      ShowsNow();
      PointFacts();
      LinkIn(prev, uv, k);
      OneMore(was, uv, local);
      InsertFalls(list, was.at, k, uv, local);
      IsCaptured(was, Now(), uv, local);
    }

    /** A new capture of a slot. */
    method NewCapture(local: nat, prev: ObjUpvalue?, curr: ObjUpvalue?, ghost k: nat) returns (uv: ObjUpvalue)
      requires Shape() && local < stack.Length
      requires k <= |open| && curr == Node(open, k) && prev == (if k == 0 then null else open[k - 1])
      requires (forall i | 0 <= i < k :: Where()[open[i]] > local) && (k < |open| ==> Where()[open[k]] < local)
      modifies this`openUpvalues, this`open, this`known, known
      ensures Shape() && fresh(uv) && known == old(known) + {uv} && Captured(old(Now()), Now(), uv, local)
    {
      hide Falls, Captured;
      uv := Allocate(local, curr);
      Insert(local, prev, uv, k);
    }

    /** The capture of a slot: the one there is, or a new one. */
    method CaptureUpvalue(local: nat) returns (uv: ObjUpvalue)
      requires Shape() && local < stack.Length
      modifies this`openUpvalues, this`open, this`known, known
      ensures Shape() && uv in known && Where()[uv] == local
      ensures if uv in old(known) then Now() == old(Now()) && known == old(known)
              else fresh(uv) && known == old(known) + {uv} && Captured(old(Now()), Now(), uv, local)
    {
      hide Falls, Captured, Pointed, Linked;
      var prev, curr, k := FindOpen(local);
      if curr != null && curr.location.index == local { return curr; }
      uv := NewCapture(local, prev, curr, k);
      CapturedAt(old(Now()), Now(), uv, local);
    }

    /** The first capture of the list takes its value along. */
    method CloseFirst()
      requires Shape() && openUpvalues != null
      modifies this`openUpvalues, this`open, known
      ensures Shape() && open == old(open[1..])
      ensures var v, uv := old(Now()), old(open[0]);
              uv in v.at && 0 <= v.at[uv] < |v.vals| && Now() == View(v.vals, v.at[uv := -1], v.own[uv := v.vals[v.at[uv]]])
    {
      hide Falls;
      ghost var was, list := Now(), open;
      FallFacts(open, was.at);
      ShowsNow();
      PointFacts();
      var uv := openUpvalues;
      Seal(uv, was);
      openUpvalues := uv.next;
      open := open[1..];
      OneClosed(was, uv);
      RestFalls(list, was.at);
    }

    /** A capture takes the value of its slot along. */
    method Seal(uv: ObjUpvalue, ghost was: View)
      requires uv in known && Shows(was) && known == was.at.Keys && was.vals == stack[..]
      requires (forall u | u in known :: -1 <= was.at[u] < |was.vals|) && was.at[uv] >= 0
      modifies uv
      ensures uv.next == old(uv.next) && ClosedIn(was, uv)
    {
      uv.closed := uv.location.buffer[uv.location.index];
      uv.location := Own;
    }

    /** A view, and the state after one of its captures was closed. */
    ghost predicate ClosedIn(was: View, uv: ObjUpvalue)
      reads this`stack, this`known, known
    {
      && known == was.at.Keys == was.own.Keys && uv in known && 0 <= was.at[uv] < |was.vals|
      && uv.location == Own && uv.closed == was.vals[was.at[uv]]
      && (forall u | u in known && u != uv :: -1 <= was.at[u] < |was.vals| && u.closed == was.own[u])
      && (forall u | u in known && u != uv :: u.location == if was.at[u] >= 0 then Slot(stack, was.at[u]) else Own)
    }

    lemma ClosedWhere(was: View, uv: ObjUpvalue)
      requires ClosedIn(was, uv)
      ensures Where() == was.at[uv := -1]
    {}

    lemma ClosedPointed(was: View, uv: ObjUpvalue)
      requires ClosedIn(was, uv) && |was.vals| == stack.Length
      ensures Pointed()
    {}

    lemma OneClosed(was: View, uv: ObjUpvalue)
      requires ClosedIn(was, uv) && was.vals == stack[..]
      ensures Pointed() && Now() == View(was.vals, was.at[uv := -1], was.own[uv := was.vals[was.at[uv]]])
    {
      hide Pointed, Where;
      ClosedWhere(was, uv);
      ClosedPointed(was, uv);
      assert Now().own == was.own[uv := was.vals[was.at[uv]]];
    }

    /** Captures at or above a slot take their values along. */
    method CloseUpvalues(last: nat)
      requires Shape()
      modifies this`openUpvalues, this`open, known
      ensures Shape() && WellFormed(old(Now())) && Now() == ClosedFrom(old(Now()), last)
    {
      hide Now, Where, WellFormed, ClosedFrom;
      ShapeFacts();
      ghost var was := Now();
      while openUpvalues != null && openUpvalues.location.index >= last
        invariant Shape() && (openUpvalues != null ==> openUpvalues.location.Slot?)
        invariant WellFormed(was) && WellFormed(Now()) && ClosedFrom(Now(), last) == ClosedFrom(was, last)
        decreases |open|
      {
        ghost var v := Now();
        ShapeFacts();
        CloseOne(v, open[0], last);
        CloseFirst();
        ShapeFacts();
      }
      ShapeFacts();
      AllBelow(open, Now(), last);
      NothingToClose(Now(), last);
    }

    lemma ShapeFacts()
      requires Shape()
      ensures WellFormed(Now()) && Falls(open, Now().at)
      ensures openUpvalues != null ==> open != [] && open[0] == openUpvalues && openUpvalues in known
      ensures openUpvalues != null ==> openUpvalues.location.Slot? && Now().at[openUpvalues] == openUpvalues.location.index
      ensures openUpvalues == null ==> open == []
    {}

    method CopyOf(oldStack: array<Value>) returns (newStack: array<Value>)
      ensures fresh(newStack) && newStack.Length == 2 * oldStack.Length && newStack[..oldStack.Length] == oldStack[..]
    {
      newStack := new Value[2 * oldStack.Length](_ => VNull);
      for i := 0 to oldStack.Length
        invariant newStack[..i] == oldStack[..i]
      {
        newStack[i] := oldStack[i];
      }
      assert oldStack[..oldStack.Length] == oldStack[..];
    }

    method MoveFrames(oldStack: array<Value>)
      requires forall k | 0 <= k < |frames| :: frames[k].Slot? && frames[k].buffer == oldStack
      modifies this`frames
      ensures |frames| == |old(frames)| && forall k | 0 <= k < |frames| :: frames[k] == Slot(stack, old(frames[k].index))
    {
      for k := 0 to |frames|
        invariant |frames| == |old(frames)|
        invariant forall j | 0 <= j < |frames| :: frames[j] == if j < k then Slot(stack, old(frames[j].index)) else old(frames[j])
      {
        frames := frames[k := Slot(stack, frames[k].index)];
      }
    }

    /** Every capture in the list that points into the old buffer points into the new one. */
    method MovePointers(oldStack: array<Value>)
      requires Linked() && forall i, j | 0 <= i < j < |open| :: open[i] != open[j]
      requires forall i | 0 <= i < |open| :: open[i].location.Slot? && open[i].location.buffer == oldStack
      modifies known
      ensures Linked() && forall u | u in known :: u.closed == old(u.closed)
      ensures forall u | u in known :: u.location == if u in open then Slot(stack, old(u.location.index)) else old(u.location)
    {
      var uv := openUpvalues;
      ghost var k := 0;
      while uv != null
        invariant 0 <= k <= |open| && uv == Node(open, k) && Linked()
        invariant forall u | u in known :: u.closed == old(u.closed) && (u !in open ==> u.location == old(u.location))
        invariant forall j | 0 <= j < |open| :: open[j].location == if j < k then Slot(stack, old(open[j].location.index)) else old(open[j].location)
        decreases |open| - k
      {
        if uv.location.buffer == oldStack { uv.location := Slot(stack, uv.location.index); }
        uv := uv.next;
        k := k + 1;
      }
    }

    lemma Moved(at: map<ObjUpvalue, int>)
      requires known == at.Keys
      requires forall u | u in known  :: -1 <= at[u] < stack.Length && u.location == if at[u] >= 0 then Slot(stack, at[u]) else Own
      ensures Pointed() && Where() == at
    {}

    /** Every pointer moves from the old buffer to the present one. */
    method Relocate(oldStack: array<Value>)
      requires Linked() && Falls(open, Where())
      requires forall u | u in known && u.location.Slot? :: u.location.buffer == oldStack && u.location.index < stack.Length
      requires forall k | 0 <= k < |frames| :: frames[k].Slot? && frames[k].buffer == oldStack
      modifies this`frames, known
      ensures Linked() && Pointed() && Where() == old(Where()) && forall u | u in known :: u.closed == old(u.closed)
      ensures |frames| == |old(frames)| && forall k | 0 <= k < |frames| :: frames[k] == Slot(stack, old(frames[k].index))
    {
      hide Falls;
      ghost var at := Where();
      Distinct(open, at);
      OpenPoint(open, at);
      MoveFrames(oldStack);
      MovePointers(oldStack);
      Moved(at);
    }

    /** A buffer of twice the size; every pointer moves along. */
    method GrowStack()
      requires Shape() && FramesPointed()
      modifies this`stack, this`frames, known
      ensures Shape() && fresh(stack) && stack.Length == 2 * old(stack.Length)
      ensures Now().vals[..old(stack.Length)] == old(stack[..]) && Where() == old(Where()) && Now().own == old(Now().own)
      ensures |frames| == |old(frames)| && forall k | 0 <= k < |frames| :: frames[k] == Slot(stack, old(frames[k].index))
    {
      hide Falls;
      var oldStack := stack;
      stack := CopyOf(oldStack);
      Relocate(oldStack);
      assert stack[..][..oldStack.Length] == stack[..oldStack.Length];
    }

    // ---- The instructions, against the cells ----

    ghost predicate Bases()
      reads this`stack, this`frames, this`shared
    {
      && |frames| == |shared.bases| > 0
      && forall k | 0 <= k < |frames| :: frames[k] == Slot(stack, shared.bases[k])
    }

    /** The machine is what the cells say. */
    ghost predicate Valid()
      reads this, known, stack
    {
      && Shape() && known == cellOf.Keys && Bases() && SameHandles(upvalues, cellOf, shared.handles)
      && Coupled(Now(), stackTop, cellOf, shared)
    }

    constructor (capacity: nat)
      requires capacity > 0
      ensures Valid() && shared == START && fresh(stack) && known == {}
    {
      stack := new Value[capacity](_ => VNull);
      stackTop, openUpvalues, upvalues := 0, null, [];
      open, known, cellOf, shared := [], {}, map[], START;
      new;
      frames := [Slot(stack, 0)];
    }

    /** Grows the stack when it is full. */
    method MakeRoom()
      requires Shape() && FramesPointed() && stackTop <= stack.Length
      modifies this`stack, this`frames, known
      ensures Shape() && stackTop < stack.Length && (stack == old(stack) || fresh(stack))
      ensures Now().at == old(Now().at) && Now().own == old(Now().own) && stack[..stackTop] == old(stack[..stackTop])
      ensures |frames| == |old(frames)| && forall k | 0 <= k < |frames| :: frames[k] == Slot(stack, old(frames[k].index))
    {
      hide Falls, Linked;
      if stackTop >= stack.Length {
        GrowStack();
        assert stack[..stackTop] == Now().vals[..stackTop];
      }
    }

    /** Stores a value in a slot of the buffer. */
    method Put(i: nat, x: Value)
      requires Shape() && i < stack.Length
      modifies stack
      ensures Shape() && Now() == old(Now()).(vals := old(stack[..])[i := x])
    {
      hide Falls;
      ghost var was := Where();
      stack[i] := x;
      assert Where() == was;
    }

    method Push(x: Value)
      requires Valid()
      modifies this`stack, this`stackTop, this`frames, this`shared, stack, known
      ensures Valid() && shared == NewSlot(old(shared), x) && (stack == old(stack) || fresh(stack))
    {
      hide Falls, Coupled, SameHandles, Linked;
      ghost var was := Now();
      CoupledFacts(was, stackTop, cellOf, shared);
      MakeRoom();
      ghost var grown := Now();
      Put(stackTop, x);
      Grown(was, grown, stackTop, x, cellOf, shared);
      stackTop := stackTop + 1;
      shared := NewSlot(shared, x);
    }

    /** Where the current frame finds its slot i. */
    method FrameSlot(i: nat) returns (at: nat)
      requires Valid() && Base(shared) + i < stackTop
      ensures at == Base(shared) + i && at < stack.Length && stack == frames[|frames| - 1].buffer && stack[at] == shared.cells[shared.slots[at]]
    {
      hide Falls, Coupled, SameHandles, Linked;
      CoupledFacts(Now(), stackTop, cellOf, shared);
      at := frames[|frames| - 1].index + i;
      assert Now().vals[at] == stack[at];
    }

    method GetLocal(i: nat)
      requires Valid() && Legal(shared, OpGetLocal(i))
      modifies this`stack, this`stackTop, this`frames, this`shared, stack, known
      ensures Valid() && shared == Step(old(shared), OpGetLocal(i)) && (stack == old(stack) || fresh(stack))
    {
      hide Valid;
      OpensGood();
      var at := FrameSlot(i);
      Push(stack[at]);
    }

    /** What is needed of a valid state without looking into it. */
    lemma OpensGood()
      requires Valid()
      ensures Good(shared) && stackTop == |shared.slots| && |frames| == |shared.bases|
    {}

    method PutSlot(at: nat, x: Value)
      requires Valid() && at < stackTop
      modifies this`shared, stack
      ensures Valid() && Good(old(shared)) && shared == Store(old(shared), old(shared).slots[at], x)
    {
      hide Falls, Coupled, SameHandles, Linked;
      ghost var was := Now();
      CoupledFacts(was, stackTop, cellOf, shared);
      Put(at, x);
      SlotCoupled(was, stackTop, cellOf, shared, at, x);
      shared := Store(shared, shared.slots[at], x);
    }

    method SetLocal(i: nat)
      requires Valid() && Legal(shared, OpSetLocal(i))
      modifies this`shared, stack
      ensures Valid() && shared == Step(old(shared), OpSetLocal(i))
    {
      hide Valid;
      OpensGood();
      var at := FrameSlot(i);
      var top := Peek();
      PutSlot(at, top);
    }

    method Peek() returns (x: Value)
      requires Valid() && stackTop > 0
      ensures Good(shared) && shared.slots != [] && x == Top(shared)
    {
      hide Falls, SameHandles, Linked, Pointed;
      CoupledFacts(Now(), stackTop, cellOf, shared);
      x := stack[stackTop - 1];
      assert Now().vals[stackTop - 1] == x;
    }

    // Captures.

    method Capture(i: nat)
      requires Valid() && Legal(shared, OpCapture(i))
      modifies this`openUpvalues, this`open, this`known, this`upvalues, this`cellOf, this`shared, known
      ensures Valid() && shared == Step(old(shared), OpCapture(i)) && fresh(known - old(known))
    {
      hide Valid;
      OpensGood();
      var at := FrameSlot(i);
      CaptureSlot(at);
    }

    /** A closure takes hold of a capture of slot at. */
    method Hold(uv: ObjUpvalue, ghost at: nat, ghost was: View)
      requires Shape() && Bases() && SameHandles(upvalues, cellOf, shared.handles) && Coupled(was, stackTop, cellOf, shared)
      requires at < stackTop == |shared.slots| && cellOf.Keys == was.at.Keys
      requires if uv in was.at then Now() == was && known == was.at.Keys && was.at[uv] == at
               else Captured(was, Now(), uv, at) && known == was.at.Keys + {uv}
      modifies this`upvalues, this`cellOf, this`shared
      ensures Valid() && shared == old(shared).(handles := old(shared).handles + [old(shared).slots[at]])
    {
      hide Shape, Coupled, SameHandles, Captured, Now;
      if uv in was.at {
        Again(was, stackTop, cellOf, shared, upvalues, uv, at);
      } else {
        First(was, Now(), stackTop, cellOf, shared, upvalues, uv, at);
        cellOf := cellOf[uv := shared.slots[at]];
      }
      upvalues := upvalues + [uv];
      shared := shared.(handles := shared.handles + [shared.slots[at]]);
    }

    method CaptureSlot(at: nat)
      requires Valid() && at < stackTop
      modifies this`openUpvalues, this`open, this`known, this`upvalues, this`cellOf, this`shared, known
      ensures Valid() && Good(old(shared)) && fresh(known - old(known))
      ensures shared == old(shared).(handles := old(shared).handles + [old(shared).slots[at]])
    {
      hide Shape, Coupled, SameHandles, Captured;
      ghost var was := Now();
      CoupledFacts(was, stackTop, cellOf, shared);
      var uv := CaptureUpvalue(at);
      Hold(uv, at, was);
    }

    /** The capture behind a handle. */
    method Lookup(k: nat) returns (uv: ObjUpvalue, v: Value)
      requires Valid() && Good(shared) && k < |shared.handles|
      ensures uv in known && uv in cellOf && cellOf[uv] == shared.handles[k] && v == shared.cells[shared.handles[k]]
      ensures uv.location.Slot? ==> uv.location.index < stackTop && shared.slots[uv.location.index] == shared.handles[k]
    {
      hide Falls, Coupled, SameHandles, Linked;
      HandleFacts(upvalues, cellOf, shared, Now(), stackTop, k);
      uv := upvalues[k];
      assert Now().at[uv] == if uv.location.Slot? then uv.location.index else -1;
      if uv.location.Slot? {
        v := uv.location.buffer[uv.location.index];
        assert v == Now().vals[uv.location.index];
      } else {
        v := uv.closed;
      }
    }

    method GetUpvalue(k: nat)
      requires Valid() && Legal(shared, OpGetUpvalue(k))
      modifies this`stack, this`stackTop, this`frames, this`shared, stack, known
      ensures Valid() && shared == Step(old(shared), OpGetUpvalue(k)) && (stack == old(stack) || fresh(stack))
    {
      hide Valid;
      OpensGood();
      var _, v := Lookup(k);
      Push(v);
    }

    method SetUpvalue(k: nat)
      requires Valid() && Legal(shared, OpSetUpvalue(k))
      modifies this`shared, stack, known
      ensures Valid() && shared == Step(old(shared), OpSetUpvalue(k))
    {
      hide Valid;
      OpensGood();
      var top := Peek();
      var uv, _ := Lookup(k);
      if uv.location.Slot? {
        PutSlot(uv.location.index, top);
      } else {
        PutOwn(uv, top);
      }
    }

    /** Stores a value in a capture whose slot is gone. */
    method PutOwn(uv: ObjUpvalue, x: Value)
      requires Valid() && uv in known && uv.location == Own
      modifies this`shared, known
      ensures Valid() && uv in cellOf && cellOf[uv] < |old(shared).cells| && shared == Store(old(shared), cellOf[uv], x)
    {
      hide Falls, Coupled, SameHandles, Linked;
      ghost var was := Now();
      CaptureFacts(was, stackTop, cellOf, shared, uv);
      SetClosed(uv, x);
      OwnCoupled(was, stackTop, cellOf, shared, uv, x);
      shared := Store(shared, cellOf[uv], x);
    }

    method SetClosed(uv: ObjUpvalue, x: Value)
      requires Shape() && uv in known
      modifies known
      ensures Shape() && uv in old(Now()).own && Now() == old(Now()).(own := old(Now()).own[uv := x])
    {
      hide Falls;
      ghost var was := Now();
      uv.closed := x;
      assert Where() == was.at;
      assert Now().own == was.own[uv := x];
    }

    // Dropped slots.

    method Pop()
      requires Valid() && Legal(shared, OpPop)
      modifies this`stackTop, this`shared
      ensures Valid() && shared == Step(old(shared), OpPop)
    {
      hide Falls, Coupled, SameHandles, Linked;
      ghost var v, n := Now(), |shared.bases|;
      CoupledFacts(v, stackTop, cellOf, shared);
      NotCaptured(v, stackTop, cellOf, shared, upvalues);
      DropCoupled(v, stackTop, cellOf, shared, stackTop - 1, n);
      assert shared.bases[..n] == shared.bases;
      stackTop := stackTop - 1;
      shared := Drop(shared, stackTop, n);
    }

    /** Closes the captures from slot h on and gives up the slots and the frames above. */
    method Truncate(h: nat, n: nat)
      requires Valid() && h <= stackTop && 1 <= n <= |frames|
      modifies this`openUpvalues, this`open, this`frames, this`stackTop, this`shared, known
      ensures Valid() && Good(old(shared)) && shared == Drop(old(shared), h, n)
    {
      hide Shape, Now, Coupled, SameHandles;
      ghost var v := Now();
      CoupledFacts(v, stackTop, cellOf, shared);
      CloseUpvalues(h);
      DropCoupled(v, stackTop, cellOf, shared, h, n);
      stackTop, frames := h, frames[..n];
      shared := Drop(shared, h, n);
    }

    method CloseUpvalue()
      requires Valid() && Legal(shared, OpCloseUpvalue)
      modifies this`openUpvalues, this`open, this`frames, this`stackTop, this`shared, known
      ensures Valid() && shared == Step(old(shared), OpCloseUpvalue)
    {
      hide Falls, Coupled, SameHandles, Linked;
      OpensGood();
      assert shared.bases[..|shared.bases|] == shared.bases;
      Truncate(stackTop - 1, |frames|);
    }

    method Call(args: nat)
      requires Valid() && Legal(shared, OpCall(args))
      modifies this`frames, this`shared
      ensures Valid() && shared == Step(old(shared), OpCall(args))
    {
      hide Falls, Coupled, SameHandles, Linked;
      CoupledFacts(Now(), stackTop, cellOf, shared);
      CallCoupled(Now(), stackTop, cellOf, shared, stackTop - args);
      frames := frames + [Slot(stack, stackTop - args)];
      shared := shared.(bases := shared.bases + [stackTop - args]);
    }

    method Return()
      requires Valid() && Legal(shared, OpReturn)
      modifies this`openUpvalues, this`open, this`stack, this`frames, this`stackTop, this`shared, stack, known
      ensures Valid() && shared == Step(old(shared), OpReturn) && (stack == old(stack) || fresh(stack))
    {
      OpensGood();
      var res := Peek();
      var slots := frames[|frames| - 1].index;
      assert slots == Base(shared);
      hide Valid;
      Truncate(slots, |frames| - 1);
      Push(res);
    }

    /** Gives up the frames above n, closing the captures of each. */
    method UnwindFrames(n: nat, ghost h: nat)
      requires Shape() && n <= |frames| && forall k | n <= k < |frames| :: frames[k].Slot? && frames[k].index >= h
      modifies this`openUpvalues, this`open, this`frames, known
      ensures Shape() && frames == old(frames[..n]) && WellFormed(old(Now())) && WellFormed(Now())
      ensures ClosedFrom(Now(), h) == ClosedFrom(old(Now()), h)
    {
      hide Shape, Now, ClosedFrom, WellFormed;
      ghost var was := Now();
      ShapeFacts();
      while |frames| > n
        invariant Shape() && n <= |frames| <= |old(frames)| && frames == old(frames)[..|frames|]
        invariant WellFormed(was) && WellFormed(Now()) && ClosedFrom(Now(), h) == ClosedFrom(was, h)
      {
        ghost var v := Now();
        CloseTwice(v, frames[|frames| - 1].index, h);
        CloseUpvalues(frames[|frames| - 1].index);
        frames := frames[..|frames| - 1];
      }
    }

    method DropFrames(n: nat, h: nat)
      requires Valid() && h <= stackTop && 1 <= n <= |frames| && forall k | n <= k < |frames| :: shared.bases[k] >= h
      modifies this`openUpvalues, this`open, this`frames, this`stackTop, this`shared, known
      ensures Valid() && Good(old(shared)) && shared == Drop(old(shared), h, n)
    {
      hide Shape, Now, Coupled, SameHandles;
      ghost var v := Now();
      CoupledFacts(v, stackTop, cellOf, shared);
      UnwindFrames(n, h);
      CloseUpvalues(h);
      DropCoupled(v, stackTop, cellOf, shared, h, n);
      stackTop := h;
      shared := Drop(shared, h, n);
    }

    /** A caught error: back to the frame and the height of the try block. */
    method Unwind(n: nat, h: nat, error: Value)
      requires Valid() && Legal(shared, OpUnwind(n, h, error))
      modifies this`openUpvalues, this`open, this`stack, this`frames, this`stackTop, this`shared, stack, known
      ensures Valid() && shared == Step(old(shared), OpUnwind(n, h, error)) && (stack == old(stack) || fresh(stack))
    {
      hide Valid;
      OpensGood();
      DropFrames(n, h);
      Push(error);
    }

    // ---- Whole runs ----

    method Execute(op: Op)
      requires Valid() && Legal(shared, op)
      modifies this, stack, known
      ensures Valid() && Good(old(shared)) && shared == Step(old(shared), op)
      ensures (stack == old(stack) || fresh(stack)) && fresh(known - old(known))
    {
      hide Valid, Legal, Step, Good;
      ValidFacts();
      match op
      case OpPush(v) => Push(v); StepOfPush(old(shared), v);
      case OpPop => Pop();
      case OpGetLocal(i) => GetLocal(i);
      case OpSetLocal(i) => SetLocal(i);
      case OpCapture(i) => Capture(i);
      case OpGetUpvalue(k) => GetUpvalue(k);
      case OpSetUpvalue(k) => SetUpvalue(k);
      case OpCloseUpvalue => CloseUpvalue();
      case OpCall(args) => Call(args);
      case OpReturn => Return();
      case OpUnwind(n, h, error) => Unwind(n, h, error);
    }

    lemma ValidFacts()
      requires Valid()
      ensures Good(shared)
    {}

    /** What any legal run leaves in the slots and behind the captures is what the cells hold. */
    method RunAll(ops: seq<Op>)
      requires Valid() && AllLegal(shared, ops)
      modifies this, stack, known
      ensures Valid() && Good(old(shared)) && AllLegal(old(shared), ops) && shared == Run(old(shared), ops)
    {
      hide Valid, Legal, Step, Good;
      ValidFacts();
      var i := 0;
      while i < |ops|
        invariant 0 <= i <= |ops| && Valid() && Good(shared) && AllLegal(shared, ops[i..])
        invariant Run(shared, ops[i..]) == Run(old(shared), ops)
        invariant (stack == old(stack) || fresh(stack)) && fresh(known - old(known))
      {
        assert ops[i..][0] == ops[i] && ops[i..][1..] == ops[i + 1..];
        Execute(ops[i]);
        ValidFacts();
        i := i + 1;
      }
    }
  }

  lemma StepOfPush(sh: Shared, v: Value)
    requires Good(sh) && Legal(sh, OpPush(v))
    ensures Step(sh, OpPush(v)) == NewSlot(sh, v)
  {}

  lemma CloseTwice(v: View, b: nat, h: nat)
    requires WellFormed(v) && h <= b
    ensures WellFormed(ClosedFrom(v, b)) && ClosedFrom(ClosedFrom(v, b), h) == ClosedFrom(v, h)
  {
    var w := ClosedFrom(v, b);
    assert ClosedFrom(w, h).at == ClosedFrom(v, h).at;
    assert ClosedFrom(w, h).own == ClosedFrom(v, h).own;
  }

  /** Agreement with the cells, slot by slot and capture by capture. */
  lemma Observed(vm: VM, i: nat, k: nat)
    requires vm.Valid()
    ensures i < vm.stackTop ==> vm.stack[i] == vm.shared.cells[vm.shared.slots[i]]
    ensures k < |vm.upvalues| ==> ReadOf(vm.Now(), vm.upvalues[k]) == vm.shared.cells[vm.shared.handles[k]]
  {
    hide Falls;
    CoupledFacts(vm.Now(), vm.stackTop, vm.cellOf, vm.shared);
    if i < vm.stackTop { assert vm.Now().vals[i] == vm.stack[i]; }
    if k < |vm.upvalues| { HandleFacts(vm.upvalues, vm.cellOf, vm.shared, vm.Now(), vm.stackTop, k); }
  }

  lemma CallCoupled(v: View, top: nat, cellOf: map<ObjUpvalue, nat>, sh: Shared, base: nat)
    requires Coupled(v, top, cellOf, sh)
    ensures Coupled(v, top, cellOf, sh.(bases := sh.bases + [base]))
  {
    hide Slots, Captures, Links, Apart;
  }

  lemma CaptureFacts(v: View, top: nat, cellOf: map<ObjUpvalue, nat>, sh: Shared, u: ObjUpvalue)
    requires Coupled(v, top, cellOf, sh) && u in v.at
    ensures u in cellOf && cellOf[u] < |sh.cells| && ReadOf(v, u) == sh.cells[cellOf[u]] && v.at[u] < top
    ensures v.at[u] >= 0 ==> sh.slots[v.at[u]] == cellOf[u]
  {}

  lemma HandleFacts(upvalues: seq<ObjUpvalue>, cellOf: map<ObjUpvalue, nat>, sh: Shared, v: View, top: nat, k: nat)
    requires Coupled(v, top, cellOf, sh) && SameHandles(upvalues, cellOf, sh.handles) && k < |sh.handles|
    ensures k < |upvalues| && upvalues[k] in v.at && upvalues[k] in cellOf && cellOf[upvalues[k]] == sh.handles[k]
    ensures WellFormed(v) && ReadOf(v, upvalues[k]) == sh.cells[sh.handles[k]] && v.at[upvalues[k]] < top
    ensures v.at[upvalues[k]] >= 0 ==> sh.slots[v.at[upvalues[k]]] == sh.handles[k]
  {
    CaptureFacts(v, top, cellOf, sh, upvalues[k]);
  }

  lemma NotCaptured(v: View, top: nat, cellOf: map<ObjUpvalue, nat>, sh: Shared, upvalues: seq<ObjUpvalue>)
    requires Coupled(v, top, cellOf, sh) && SameHandles(upvalues, cellOf, sh.handles) && top > 0 && Good(sh) && |sh.slots| == top
    requires sh.slots[top - 1] !in sh.handles
    ensures WellFormed(v) && ClosedFrom(v, top - 1) == v
  {
    hide Coupled, ClosedFrom, Good;
    CoupledFacts(v, top, cellOf, sh);
    forall u | u in v.at ensures v.at[u] < top - 1 {
      CaptureFacts(v, top, cellOf, sh, u);
      var k :| 0 <= k < |upvalues| && upvalues[k] == u;
      assert sh.handles[k] == cellOf[u];
    }
    NothingToClose(v, top - 1);
  }

  /** The slot was captured before. */
  lemma Again(v: View, top: nat, cellOf: map<ObjUpvalue, nat>, sh: Shared, upvalues: seq<ObjUpvalue>, u: ObjUpvalue, i: nat)
    requires Coupled(v, top, cellOf, sh) && SameHandles(upvalues, cellOf, sh.handles) && u in v.at && v.at[u] == i < top
    ensures var now := sh.(handles := sh.handles + [sh.slots[i]]);
            Coupled(v, top, cellOf, now) && SameHandles(upvalues + [u], cellOf, now.handles)
  {
    hide Slots, Captures, Apart;
    CaptureFacts(v, top, cellOf, sh, u);
  }

  /** The slot is captured for the first time. */
  lemma First(v: View, w: View, top: nat, cellOf: map<ObjUpvalue, nat>, sh: Shared, upvalues: seq<ObjUpvalue>, u: ObjUpvalue, i: nat)
    requires Coupled(v, top, cellOf, sh) && SameHandles(upvalues, cellOf, sh.handles) && Captured(v, w, u, i) && i < top
    ensures var now := sh.(handles := sh.handles + [sh.slots[i]]);
            var cells := cellOf[u := sh.slots[i]];
            Coupled(w, top, cells, now) && SameHandles(upvalues + [u], cells, now.handles)
  {
    hide Slots, Captures, Apart, Links, SameHandles, WellFormed;
    CapturedWellFormed(v, w, top, cellOf, sh, u, i);
    CaptureCoupled(v, w, top, cellOf, sh, u, i);
    OneHandleMore(upvalues, cellOf, sh.handles, u, sh.slots[i]);
  }

  lemma OneHandleMore(upvalues: seq<ObjUpvalue>, cellOf: map<ObjUpvalue, nat>, handles: seq<nat>, u: ObjUpvalue, cell: nat)
    requires SameHandles(upvalues, cellOf, handles) && u !in cellOf
    ensures SameHandles(upvalues + [u], cellOf[u := cell], handles + [cell])
  {
    assert forall t | t in upvalues :: t in upvalues + [u];
    assert (upvalues + [u])[|upvalues|] == u;
  }

  lemma CapturedWellFormed(v: View, w: View, top: nat, cellOf: map<ObjUpvalue, nat>, sh: Shared, u: ObjUpvalue, i: nat)
    requires Coupled(v, top, cellOf, sh) && Captured(v, w, u, i) && i < top
    ensures WellFormed(w) && u !in cellOf
  {}

  lemma Grown(was: View, grown: View, top: nat, x: Value, cellOf: map<ObjUpvalue, nat>, sh: Shared)
    requires Coupled(was, top, cellOf, sh) && grown.at == was.at && grown.own == was.own && top <= |was.vals| && top < |grown.vals|
    requires grown.vals[..top] == was.vals[..top]
    ensures Coupled(grown.(vals := grown.vals[top := x]), top + 1, cellOf, NewSlot(sh, x))
  {
    hide Good, Slots, Captures, Links, Apart;
    var now := grown.(vals := grown.vals[top := x]);
    GrownWellFormed(was, now, top, cellOf, sh);
    PushCoupled(was, now, top, cellOf, sh, x);
  }

  lemma GrownWellFormed(was: View, now: View, top: nat, cellOf: map<ObjUpvalue, nat>, sh: Shared)
    requires Coupled(was, top, cellOf, sh) && now.at == was.at && now.own == was.own && top < |now.vals|
    ensures WellFormed(now)
  {}

  lemma CoupledFacts(v: View, top: nat, cellOf: map<ObjUpvalue, nat>, sh: Shared)
    requires Coupled(v, top, cellOf, sh)
    ensures WellFormed(v) && Good(sh) && |sh.slots| == top <= |v.vals|
    ensures forall i | 0 <= i < top :: v.vals[i] == sh.cells[sh.slots[i]]
  {}

  lemma OpenPoint(open: seq<ObjUpvalue>, at: map<ObjUpvalue, int>)
    requires Falls(open, at)
    ensures (forall i | 0 <= i < |open| :: open[i] in at && at[open[i]] >= 0) && forall u | u in at && at[u] >= 0 :: u in open
  {}
}
