/**
 * Edit scripts between two files: what they say about the files, how many lines they can keep, and
 * what it means to apply hunks as a patch.
 */
module EditScript {
  type Line = string

  datatype Kind = Keep | Delete | Insert

  datatype Edit = Edit(kind: Kind, line: Line)

  // ---- The two files of a script ----

  function OldSide(ops: seq<Edit>): seq<Line> {
    if ops == [] then [] else (if ops[0].kind == Insert then [] else [ops[0].line]) + OldSide(ops[1..])
  }

  function NewSide(ops: seq<Edit>): seq<Line> {
    if ops == [] then [] else (if ops[0].kind == Delete then [] else [ops[0].line]) + NewSide(ops[1..])
  }

  function KeptCount(ops: seq<Edit>): nat {
    if ops == [] then 0 else (if ops[0].kind == Keep then 1 else 0) + KeptCount(ops[1..])
  }

  lemma {:induction false} JoinOld(s: seq<Edit>, t: seq<Edit>)
    ensures OldSide(s + t) == OldSide(s) + OldSide(t)
    decreases |s|
  {
    if s == [] {
      assert s + t == t;
    } else {
      assert (s + t)[1..] == s[1..] + t;
      JoinOld(s[1..], t);
    }
  }

  lemma {:induction false} JoinNew(s: seq<Edit>, t: seq<Edit>)
    ensures NewSide(s + t) == NewSide(s) + NewSide(t)
    decreases |s|
  {
    if s == [] {
      assert s + t == t;
    } else {
      assert (s + t)[1..] == s[1..] + t;
      JoinNew(s[1..], t);
    }
  }

  lemma {:induction false} JoinKept(s: seq<Edit>, t: seq<Edit>)
    ensures KeptCount(s + t) == KeptCount(s) + KeptCount(t)
    decreases |s|
  {
    if s == [] {
      assert s + t == t;
    } else {
      assert (s + t)[1..] == s[1..] + t;
      JoinKept(s[1..], t);
    }
  }

  lemma JoinSides(s: seq<Edit>, t: seq<Edit>)
    ensures OldSide(s + t) == OldSide(s) + OldSide(t) && NewSide(s + t) == NewSide(s) + NewSide(t)
  {
    JoinOld(s, t);
    JoinNew(s, t);
  }

  // ---- The longest common subsequence ----

  /** The largest number of common lines of a[i..] and b[j..]. */
  function Lcs(a: seq<Line>, b: seq<Line>, i: nat, j: nat): (k: nat)
    requires i <= |a| && j <= |b|
    decreases |a| - i + |b| - j
  {
    if i == |a| || j == |b| then 0
    else if a[i] == b[j] then Lcs(a, b, i + 1, j + 1) + 1
    else Larger(Lcs(a, b, i + 1, j), Lcs(a, b, i, j + 1))
  }

  function Larger(x: nat, y: nat): nat { if x < y then y else x }

  /** One line less on either side costs at most one common line. */
  lemma {:induction false} LcsSteps(a: seq<Line>, b: seq<Line>, i: nat, j: nat)
    requires i <= |a| && j <= |b|
    ensures i < |a| ==> Lcs(a, b, i + 1, j) <= Lcs(a, b, i, j) <= Lcs(a, b, i + 1, j) + 1
    ensures j < |b| ==> Lcs(a, b, i, j + 1) <= Lcs(a, b, i, j) <= Lcs(a, b, i, j + 1) + 1
    decreases |a| - i + |b| - j
  {
    if i < |a| { LcsSteps(a, b, i + 1, j); }
    if j < |b| { LcsSteps(a, b, i, j + 1); }
    if i < |a| && j < |b| { LcsSteps(a, b, i + 1, j + 1); }
  }

  /** No script from a[i..] to b[j..] keeps more lines. */
  lemma {:induction false} NoScriptKeepsMore(a: seq<Line>, b: seq<Line>, i: nat, j: nat, ops: seq<Edit>)
    requires i <= |a| && j <= |b| && OldSide(ops) == a[i..] && NewSide(ops) == b[j..]
    ensures KeptCount(ops) <= Lcs(a, b, i, j)
    decreases |ops|
  {
    if ops != [] {
      var rest := ops[1..];
      match ops[0].kind
      case Keep =>
        SideTail(a, i, ops[0].line, OldSide(rest));
        SideTail(b, j, ops[0].line, NewSide(rest));
        NoScriptKeepsMore(a, b, i + 1, j + 1, rest);
      case Delete =>
        SideTail(a, i, ops[0].line, OldSide(rest));
        NoScriptKeepsMore(a, b, i + 1, j, rest);
        LcsSteps(a, b, i, j);
      case Insert =>
        SideTail(b, j, ops[0].line, NewSide(rest));
        NoScriptKeepsMore(a, b, i, j + 1, rest);
        LcsSteps(a, b, i, j);
    }
  }

  lemma SideTail(a: seq<Line>, i: nat, line: Line, rest: seq<Line>)
    requires i <= |a| && a[i..] == [line] + rest
    ensures i < |a| && a[i] == line && rest == a[i + 1..]
  {
    assert |a[i..]| == |a| - i;
    assert a[i..][0] == a[i];
    assert a[i..][1..] == a[i + 1..];
  }

  // ---- Hunks ----

  /** Where the hunk starts in each file, how many lines of each it covers, and its edits. */
  datatype Hunk = Hunk(startA: nat, countA: nat, startB: nat, countB: nat, ops: seq<Edit>)

  predicate AllKept(ops: seq<Edit>, from: nat, to: nat)
    requires from <= to <= |ops|
  {
    forall i | from <= i < to :: ops[i].kind == Keep
  }

  /** The hunk is ops[lo..hi], and its header gives its place in both files. */
  predicate HunkOf(h: Hunk, ops: seq<Edit>, lo: nat, hi: nat) {
    && lo <= hi <= |ops| && h.ops == ops[lo..hi]
    && h.startA == |OldSide(ops[..lo])| && h.startB == |NewSide(ops[..lo])|
    && h.countA == |OldSide(h.ops)| && h.countB == |NewSide(h.ops)|
  }

  datatype Cut = Cut(lo: nat, hi: nat)

  /** Where the gap before hunk k begins. */
  function GapStart(cuts: seq<Cut>, k: nat): nat
    requires k <= |cuts|
  {
    if k == 0 then 0 else cuts[k - 1].hi
  }

  predicate CutAt(hunks: seq<Hunk>, cuts: seq<Cut>, ops: seq<Edit>, k: nat)
    requires k < |hunks| == |cuts|
  {
    && HunkOf(hunks[k], ops, cuts[k].lo, cuts[k].hi) && GapStart(cuts, k) <= cuts[k].lo
    && AllKept(ops, GapStart(cuts, k), cuts[k].lo)
  }

  /** The hunks are disjoint slices, in order, and every line between them is kept. */
  ghost predicate CutInto(hunks: seq<Hunk>, cuts: seq<Cut>, ops: seq<Edit>) {
    && |hunks| == |cuts| && (forall k | 0 <= k < |hunks| :: CutAt(hunks, cuts, ops, k)) && GapStart(cuts, |cuts|) <= |ops|
  }

  // ---- Patches ----

  datatype Option<T> = None | Some(value: T)

  /** Applies hunks to the lines of a file from pos on, checking the old lines of each. */
  function Patch(file: seq<Line>, pos: nat, hunks: seq<Hunk>): Option<seq<Line>>
    requires pos <= |file|
    decreases |hunks|
  {
    if hunks == [] then Some(file[pos..])
    else
      var h := hunks[0];
      if h.startA < pos || h.startA + h.countA > |file| || file[h.startA..h.startA + h.countA] != OldSide(h.ops) then None
      else
        var rest := Patch(file, h.startA + h.countA, hunks[1..]);
        if rest.None? then None else Some(file[pos..h.startA] + NewSide(h.ops) + rest.value)
  }

  lemma {:induction false} KeptSides(ops: seq<Edit>)
    requires AllKept(ops, 0, |ops|)
    ensures OldSide(ops) == NewSide(ops)
    decreases |ops|
  {
    if ops != [] { KeptSides(ops[1..]); }
  }

  /** The lines of a slice stand where the edits before it end. */
  lemma SliceSides(ops: seq<Edit>, lo: nat, hi: nat)
    requires lo <= hi <= |ops|
    ensures OldSide(ops[..hi]) == OldSide(ops[..lo]) + OldSide(ops[lo..hi]) && NewSide(ops[..hi]) == NewSide(ops[..lo]) + NewSide(ops[lo..hi])
    ensures OldSide(ops) == OldSide(ops[..hi]) + OldSide(ops[hi..]) && NewSide(ops) == NewSide(ops[..hi]) + NewSide(ops[hi..])
  {
    assert ops[..hi] == ops[..lo] + ops[lo..hi];
    JoinSides(ops[..lo], ops[lo..hi]);
    assert ops == ops[..hi] + ops[hi..];
    JoinSides(ops[..hi], ops[hi..]);
  }

  lemma SeqSlice(all: seq<Line>, x: seq<Line>, y: seq<Line>, z: seq<Line>)
    requires all == x + y + z
    ensures |x| + |y| <= |all| && all[|x|..|x| + |y|] == y
  {}

  /** The old lines of a slice, in the old file. */
  lemma OldSlice(ops: seq<Edit>, lo: nat, hi: nat)
    requires lo <= hi <= |ops|
    ensures |OldSide(ops[..lo])| + |OldSide(ops[lo..hi])| == |OldSide(ops[..hi])| <= |OldSide(ops)|
    ensures OldSide(ops)[|OldSide(ops[..lo])|..|OldSide(ops[..hi])|] == OldSide(ops[lo..hi])
  {
    SliceSides(ops, lo, hi);
    SeqSlice(OldSide(ops), OldSide(ops[..lo]), OldSide(ops[lo..hi]), OldSide(ops[hi..]));
  }

  /** Applying the hunks from number k on gives what the script says from there on. */
  lemma {:induction false} PatchFrom(hunks: seq<Hunk>, cuts: seq<Cut>, ops: seq<Edit>, k: nat)
    requires CutInto(hunks, cuts, ops) && k <= |hunks| && AllKept(ops, GapStart(cuts, |cuts|), |ops|)
    requires GapStart(cuts, k) <= |ops|
    ensures |OldSide(ops[..GapStart(cuts, k)])| <= |OldSide(ops)|
    ensures Patch(OldSide(ops), |OldSide(ops[..GapStart(cuts, k)])|, hunks[k..]) == Some(NewSide(ops[GapStart(cuts, k)..]))
    decreases |hunks| - k
  {
    hide OldSide, NewSide, Patch;
    var g := GapStart(cuts, k);
    OldSlice(ops, g, |ops|);
    assert ops[g..|ops|] == ops[g..] && ops[..|ops|] == ops;
    if k == |hunks| {
      KeptSides(ops[g..]);
      PatchEnds(OldSide(ops), |OldSide(ops[..g])|);
      assert hunks[k..] == [];
      assert OldSide(ops)[|OldSide(ops[..g])|..] == OldSide(ops[g..]);
    } else {
      assert CutAt(hunks, cuts, ops, k);
      var lo, hi := cuts[k].lo, cuts[k].hi;
      assert hunks[k..][0] == hunks[k] && hunks[k..][1..] == hunks[k + 1..];
      PatchFrom(hunks, cuts, ops, k + 1);
      OldSlice(ops, g, lo);
      OldSlice(ops, lo, hi);
      KeptSides(ops[g..lo]);
      TailParts(ops, g, lo, hi);
      PatchStep(OldSide(ops), |OldSide(ops[..g])|, hunks[k..], NewSide(ops[hi..]));
      assert OldSide(ops[g..lo]) == NewSide(ops[g..lo]);
      assert OldSide(ops)[|OldSide(ops[..g])|..hunks[k].startA] == NewSide(ops[g..lo]);
    }
  }

  lemma PatchEnds(file: seq<Line>, pos: nat)
    requires pos <= |file|
    ensures Patch(file, pos, []) == Some(file[pos..])
  {}

  lemma PatchStep(file: seq<Line>, pos: nat, hunks: seq<Hunk>, rest: seq<Line>)
    requires hunks != [] && pos <= hunks[0].startA && hunks[0].startA + hunks[0].countA <= |file|
    requires file[hunks[0].startA..hunks[0].startA + hunks[0].countA] == OldSide(hunks[0].ops)
    requires Patch(file, hunks[0].startA + hunks[0].countA, hunks[1..]) == Some(rest)
    ensures Patch(file, pos, hunks) == Some(file[pos..hunks[0].startA] + NewSide(hunks[0].ops) + rest)
  {}

  lemma TailParts(ops: seq<Edit>, g: nat, lo: nat, hi: nat)
    requires g <= lo <= hi <= |ops|
    ensures NewSide(ops[g..]) == NewSide(ops[g..lo]) + NewSide(ops[lo..hi]) + NewSide(ops[hi..])
  {
    assert ops[g..] == ops[g..lo] + ops[lo..hi] + ops[hi..];
    JoinSides(ops[g..lo] + ops[lo..hi], ops[hi..]);
    JoinSides(ops[g..lo], ops[lo..hi]);
  }

  /** The hunks of a script, applied to the old file, give the new file. */
  lemma PatchMakesNew(hunks: seq<Hunk>, cuts: seq<Cut>, ops: seq<Edit>)
    requires CutInto(hunks, cuts, ops) && AllKept(ops, GapStart(cuts, |cuts|), |ops|)
    ensures Patch(OldSide(ops), 0, hunks) == Some(NewSide(ops))
  {
    hide CutInto, Patch;
    PatchFrom(hunks, cuts, ops, 0);
    assert hunks[0..] == hunks && ops[0..] == ops && ops[..0] == [];
  }

  // ---- Backwards ----

  function FlipEdit(e: Edit): Edit {
    match e.kind
    case Keep => e
    case Delete => Edit(Insert, e.line)
    case Insert => Edit(Delete, e.line)
  }

  function FlipAll(ops: seq<Edit>): seq<Edit> { seq(|ops|, i requires 0 <= i < |ops| => FlipEdit(ops[i])) }

  function FlipHunk(h: Hunk): Hunk { Hunk(h.startB, h.countB, h.startA, h.countA, FlipAll(h.ops)) }

  function FlipHunks(hunks: seq<Hunk>): seq<Hunk> { seq(|hunks|, k requires 0 <= k < |hunks| => FlipHunk(hunks[k])) }

  lemma {:induction false} FlipSides(ops: seq<Edit>)
    ensures OldSide(FlipAll(ops)) == NewSide(ops) && NewSide(FlipAll(ops)) == OldSide(ops)
    decreases |ops|
  {
    if ops != [] {
      assert FlipAll(ops)[1..] == FlipAll(ops[1..]);
      FlipSides(ops[1..]);
    }
  }

  lemma FlipSlice(ops: seq<Edit>, lo: nat, hi: nat)
    requires lo <= hi <= |ops|
    ensures FlipAll(ops)[lo..hi] == FlipAll(ops[lo..hi]) && FlipAll(ops)[..lo] == FlipAll(ops[..lo])
  {}

  lemma FlipCut(hunks: seq<Hunk>, cuts: seq<Cut>, ops: seq<Edit>)
    requires CutInto(hunks, cuts, ops)
    ensures CutInto(FlipHunks(hunks), cuts, FlipAll(ops))
  {
    hide OldSide, NewSide;
    forall k | 0 <= k < |hunks| ensures CutAt(FlipHunks(hunks), cuts, FlipAll(ops), k) {
      assert CutAt(hunks, cuts, ops, k);
      FlipSlice(ops, cuts[k].lo, cuts[k].hi);
      FlipSides(hunks[k].ops);
      FlipSides(ops[..cuts[k].lo]);
    }
  }

  /** The same hunks with the sides swapped, applied to the new file, give the old file. */
  lemma PatchMakesOld(hunks: seq<Hunk>, cuts: seq<Cut>, ops: seq<Edit>)
    requires CutInto(hunks, cuts, ops) && AllKept(ops, GapStart(cuts, |cuts|), |ops|)
    ensures Patch(NewSide(ops), 0, FlipHunks(hunks)) == Some(OldSide(ops))
  {
    hide Patch, OldSide, NewSide, CutAt;
    FlipCut(hunks, cuts, ops);
    FlipSides(ops);
    PatchMakesNew(FlipHunks(hunks), cuts, FlipAll(ops));
  }
}
