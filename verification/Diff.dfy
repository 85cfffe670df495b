/**
 * The unified diff of two texts: a table of common-subsequence lengths in one flat array, a greedy
 * walk over it, and hunks with up to three lines of context cut out of the walk.
 */
module Diff {
  import opened EditScript

  // ---- Lines ----

  /** The position of the next newline, or the end. */
  function LineEnd(s: string, pos: nat): (end: nat)
    requires pos <= |s|
    ensures pos <= end <= |s| && (end < |s| ==> s[end] == '\n')
    decreases |s| - pos
  {
    if pos == |s| || s[pos] == '\n' then pos else LineEnd(s, pos + 1)
  }

  function Lines(s: string, pos: nat): seq<Line>
    requires pos <= |s|
    decreases |s| - pos
  {
    if pos == |s| then []
    else
      var nl := LineEnd(s, pos);
      if nl == |s| then [s[pos..]] else [s[pos..nl]] + Lines(s, nl + 1)
  }

  method SplitLinesSimple(s: string) returns (lines: seq<Line>)
    ensures lines == Lines(s, 0)
  {
    lines := [];
    var pos := 0;
    while pos < |s|
      invariant pos <= |s| && lines + Lines(s, pos) == Lines(s, 0)
      decreases |s| - pos
    {
      var nl := pos;
      while nl < |s| && s[nl] != '\n'
        invariant pos <= nl <= |s| && LineEnd(s, nl) == LineEnd(s, pos)
      {
        nl := nl + 1;
      }
      if nl == |s| {
        lines := lines + [s[pos..]];
        break;
      }
      assert lines + ([s[pos..nl]] + Lines(s, nl + 1)) == (lines + [s[pos..nl]]) + Lines(s, nl + 1);
      lines := lines + [s[pos..nl]];
      pos := nl + 1;
    }
  }

  function Unlines(lines: seq<Line>): string {
    if lines == [] then "" else lines[0] + "\n" + Unlines(lines[1..])
  }

  /** The lines hold the text, except whether it ends in a newline. */
  lemma {:induction false} LinesHoldText(s: string, pos: nat)
    requires pos <= |s|
    ensures Unlines(Lines(s, pos)) == s[pos..] + (if pos == |s| || s[|s| - 1] == '\n' then "" else "\n")
    decreases |s| - pos
  {
    hide LineEnd, Unlines;
    NoLines();
    if pos < |s| {
      var nl := LineEnd(s, pos);
      NoNewline(s, pos);
      if nl < |s| {
        LinesHoldText(s, nl + 1);
        OneLine(s[pos..nl], Lines(s, nl + 1));
        assert s[pos..] == s[pos..nl] + "\n" + s[nl + 1..];
      } else {
        OneLine(s[pos..], []);
      }
    }
  }

  lemma NoLines()
    ensures Unlines([]) == ""
  {}

  lemma OneLine(line: Line, rest: seq<Line>)
    ensures Unlines([line] + rest) == line + "\n" + Unlines(rest) && [line] + [] == [line]
  {
    assert ([line] + rest)[1..] == rest;
  }

  lemma {:induction false} NoNewline(s: string, pos: nat)
    requires pos <= |s|
    ensures forall i | pos <= i < LineEnd(s, pos) :: s[i] != '\n'
    decreases |s| - pos
  {
    if pos < |s| && s[pos] != '\n' { NoNewline(s, pos + 1); }
  }

  // ---- The table ----

  function Cell(i: nat, j: nat, m: nat): nat { i * (m + 1) + j }

  lemma CellInside(i: nat, j: nat, n: nat, m: nat)
    requires i <= n && j <= m
    ensures Cell(i, j, m) < (n + 1) * (m + 1)
  {
    assert i * (m + 1) <= n * (m + 1);
  }

  lemma RowBefore(i: nat, j: nat, k: nat, l: nat, m: nat)
    requires i < k && j <= m
    ensures Cell(i, j, m) < Cell(k, l, m)
  {
    assert (i + 1) * (m + 1) <= k * (m + 1);
  }

  lemma CellsApart(i: nat, j: nat, k: nat, l: nat, m: nat)
    requires j <= m && l <= m && (i != k || j != l)
    ensures Cell(i, j, m) != Cell(k, l, m)
  {
    if i < k {
      RowBefore(i, j, k, l, m);
    } else if k < i {
      RowBefore(k, l, i, j, m);
    }
  }

  /** The table is right below row i and, in row i, from column j on. */
  ghost predicate Filled(dp: seq<nat>, a: seq<Line>, b: seq<Line>, i: nat, j: nat) {
    && |dp| == (|a| + 1) * (|b| + 1)
    && forall k: nat, l: nat | k <= |a| && l <= |b| && (k > i || (k == i && l >= j) || k == |a| || l == |b|) ::
         Cell(k, l, |b|) < |dp| && dp[Cell(k, l, |b|)] == Lcs(a, b, k, l)
  }

  lemma FilledAt(dp: seq<nat>, a: seq<Line>, b: seq<Line>, i: nat, j: nat, k: nat, l: nat)
    requires Filled(dp, a, b, i, j) && k <= |a| && l <= |b| && (k > i || (k == i && l >= j) || k == |a| || l == |b|)
    ensures Cell(k, l, |b|) < |dp| && dp[Cell(k, l, |b|)] == Lcs(a, b, k, l)
  {}

  lemma FillOne(dp: seq<nat>, a: seq<Line>, b: seq<Line>, i: nat, j: nat, v: nat)
    requires Filled(dp, a, b, i, j + 1) && i < |a| && j < |b| && v == Lcs(a, b, i, j)
    ensures Cell(i, j, |b|) < |dp| && Filled(dp[Cell(i, j, |b|) := v], a, b, i, j)
  {
    hide Lcs, Cell;
    var m := |b|;
    CellInside(i, j, |a|, m);
    var now := dp[Cell(i, j, m) := v];
    forall k: nat, l: nat | k <= |a| && l <= m && (k > i || (k == i && l >= j) || k == |a| || l == m)
      ensures Cell(k, l, m) < |now| && now[Cell(k, l, m)] == Lcs(a, b, k, l)
    {
      CellInside(k, l, |a|, m);
      if k != i || l != j {
        CellsApart(k, l, i, j, m);
        FilledAt(dp, a, b, i, j + 1, k, l);
      }
    }
  }

  lemma NextRow(dp: seq<nat>, a: seq<Line>, b: seq<Line>, i: nat)
    requires 0 < i && Filled(dp, a, b, i, 0)
    ensures Filled(dp, a, b, i - 1, |b|)
  {
    hide Lcs, Cell;
  }

  lemma EmptyTable(dp: seq<nat>, a: seq<Line>, b: seq<Line>)
    requires |dp| == (|a| + 1) * (|b| + 1) && forall c | 0 <= c < |dp| :: dp[c] == 0
    ensures Filled(dp, a, b, |a|, 0)
  {
    hide Cell;
    forall k: nat, l: nat | k <= |a| && l <= |b| ensures Cell(k, l, |b|) < |dp| { CellInside(k, l, |a|, |b|); }
  }

  method FillTable(a: seq<Line>, b: seq<Line>) returns (dp: array<nat>)
    ensures fresh(dp) && Filled(dp[..], a, b, 0, 0)
  {
    hide Filled, Cell;
    var n, m := |a|, |b|;
    dp := new nat[(n + 1) * (m + 1)](_ => 0);
    EmptyTable(dp[..], a, b);
    for i := n downto 0
      invariant Filled(dp[..], a, b, i, 0)
    {
      NextRow(dp[..], a, b, i + 1);
      for j := m downto 0
        invariant Filled(dp[..], a, b, i, j)
      {
        ghost var was := dp[..];
        FilledAt(was, a, b, i, j + 1, i + 1, j + 1);
        FilledAt(was, a, b, i, j + 1, i + 1, j);
        FilledAt(was, a, b, i, j + 1, i, j + 1);
        FillOne(was, a, b, i, j, Lcs(a, b, i, j));
        dp[Cell(i, j, m)] := if a[i] == b[j] then dp[Cell(i + 1, j + 1, m)] + 1
                             else Larger(dp[Cell(i + 1, j, m)], dp[Cell(i, j + 1, m)]);
        assert dp[..] == was[Cell(i, j, m) := Lcs(a, b, i, j)];
      }
    }
  }

  // ---- The walk ----

  function Deletes(lines: seq<Line>): seq<Edit> { seq(|lines|, i requires 0 <= i < |lines| => Edit(Delete, lines[i])) }

  function Inserts(lines: seq<Line>): seq<Edit> { seq(|lines|, i requires 0 <= i < |lines| => Edit(Insert, lines[i])) }

  /** The script of the walk: keep equal lines, and otherwise delete unless inserting keeps more. */
  function Script(a: seq<Line>, b: seq<Line>, i: nat, j: nat): seq<Edit>
    requires i <= |a| && j <= |b|
    decreases |a| - i + |b| - j
  {
    if i == |a| || j == |b| then Deletes(a[i..]) + Inserts(b[j..])
    else if a[i] == b[j] then [Edit(Keep, a[i])] + Script(a, b, i + 1, j + 1)
    else if Lcs(a, b, i + 1, j) >= Lcs(a, b, i, j + 1) then [Edit(Delete, a[i])] + Script(a, b, i + 1, j)
    else [Edit(Insert, b[j])] + Script(a, b, i, j + 1)
  }

  lemma {:induction false} DeleteSides(lines: seq<Line>)
    ensures OldSide(Deletes(lines)) == lines && NewSide(Deletes(lines)) == [] && KeptCount(Deletes(lines)) == 0
    decreases |lines|
  {
    if lines != [] {
      assert Deletes(lines)[1..] == Deletes(lines[1..]);
      DeleteSides(lines[1..]);
    }
  }

  lemma {:induction false} InsertSides(lines: seq<Line>)
    ensures OldSide(Inserts(lines)) == [] && NewSide(Inserts(lines)) == lines && KeptCount(Inserts(lines)) == 0
    decreases |lines|
  {
    if lines != [] {
      assert Inserts(lines)[1..] == Inserts(lines[1..]);
      InsertSides(lines[1..]);
    }
  }

  lemma WholeSides(a: seq<Line>, b: seq<Line>)
    ensures var ops := Deletes(a) + Inserts(b); OldSide(ops) == a && NewSide(ops) == b && KeptCount(ops) == 0
  {
    DeleteSides(a);
    InsertSides(b);
    JoinSides(Deletes(a), Inserts(b));
    JoinKept(Deletes(a), Inserts(b));
  }

  /** The script turns a into b and keeps as many lines as any script can. */
  lemma {:induction false} ScriptIsFaithful(a: seq<Line>, b: seq<Line>, i: nat, j: nat)
    requires i <= |a| && j <= |b|
    ensures var ops := Script(a, b, i, j); OldSide(ops) == a[i..] && NewSide(ops) == b[j..] && KeptCount(ops) == Lcs(a, b, i, j)
    decreases |a| - i + |b| - j
  {
    hide Deletes, Inserts, Lcs, OldSide, NewSide, KeptCount, Script;
    if i == |a| || j == |b| {
      NoneLeft(a, b, i, j);
      ScriptEnd(a, b, i, j);
      WholeSides(a[i..], b[j..]);
    } else {
      var e, k, l := FirstEdit(a, b, i, j);
      ScriptIsFaithful(a, b, k, l);
      SplitFirst(a, i);
      SplitFirst(b, j);
      OneMoreEdit(e, Script(a, b, k, l), a[i..], b[j..]);
    }
  }

  lemma NoneLeft(a: seq<Line>, b: seq<Line>, i: nat, j: nat)
    requires i <= |a| && j <= |b| && (i == |a| || j == |b|)
    ensures Lcs(a, b, i, j) == 0
  {}

  /** The first edit of the script, and where it goes on. */
  lemma FirstEdit(a: seq<Line>, b: seq<Line>, i: nat, j: nat) returns (e: Edit, k: nat, l: nat)
    requires i < |a| && j < |b|
    ensures k == (if e.kind == Insert then i else i + 1) && l == (if e.kind == Delete then j else j + 1)
    ensures (e.kind != Insert ==> e.line == a[i]) && (e.kind != Delete ==> e.line == b[j])
    ensures Script(a, b, i, j) == [e] + Script(a, b, k, l) && Lcs(a, b, i, j) == (if e.kind == Keep then 1 else 0) + Lcs(a, b, k, l)
  {
    hide Deletes, Inserts;
    if a[i] == b[j] {
      e, k, l := Edit(Keep, a[i]), i + 1, j + 1;
    } else if Lcs(a, b, i + 1, j) >= Lcs(a, b, i, j + 1) {
      e, k, l := Edit(Delete, a[i]), i + 1, j;
    } else {
      e, k, l := Edit(Insert, b[j]), i, j + 1;
    }
  }

  lemma SplitFirst(lines: seq<Line>, i: nat)
    requires i < |lines|
    ensures lines[i..] == [lines[i]] + lines[i + 1..] && [] + lines[i..] == lines[i..]
  {}

  lemma OneMoreEdit(e: Edit, rest: seq<Edit>, a: seq<Line>, b: seq<Line>)
    requires a == (if e.kind == Insert then [] else [e.line]) + OldSide(rest)
    requires b == (if e.kind == Delete then [] else [e.line]) + NewSide(rest)
    ensures OldSide([e] + rest) == a && NewSide([e] + rest) == b
    ensures KeptCount([e] + rest) == (if e.kind == Keep then 1 else 0) + KeptCount(rest)
  {
    assert ([e] + rest)[1..] == rest;
  }

  /** Faithful and optimal, against every other script. */
  lemma ScriptIsBest(a: seq<Line>, b: seq<Line>, other: seq<Edit>)
    requires OldSide(other) == a && NewSide(other) == b
    ensures OldSide(Script(a, b, 0, 0)) == a && NewSide(Script(a, b, 0, 0)) == b
    ensures KeptCount(other) <= KeptCount(Script(a, b, 0, 0))
  {
    ScriptIsFaithful(a, b, 0, 0);
    assert a[0..] == a && b[0..] == b;
    NoScriptKeepsMore(a, b, 0, 0, other);
  }

  lemma ScriptStep(a: seq<Line>, b: seq<Line>, i: nat, j: nat, e: Edit, k: nat, l: nat, was: seq<Edit>)
    requires i < |a| && j < |b|
    requires if a[i] == b[j] then e == Edit(Keep, a[i]) && k == i + 1 && l == j + 1
             else if Lcs(a, b, i + 1, j) >= Lcs(a, b, i, j + 1) then e == Edit(Delete, a[i]) && k == i + 1 && l == j
             else e == Edit(Insert, b[j]) && k == i && l == j + 1
    ensures was + Script(a, b, i, j) == (was + [e]) + Script(a, b, k, l)
  {
    hide Lcs;
    assert Script(a, b, i, j) == [e] + Script(a, b, k, l);
  }

  lemma ScriptEnd(a: seq<Line>, b: seq<Line>, i: nat, j: nat)
    requires i <= |a| && j <= |b| && (i == |a| || j == |b|)
    ensures Script(a, b, i, j) == Deletes(a[i..]) + Inserts(b[j..])
  {}

  method Walk(a: seq<Line>, b: seq<Line>, dp: array<nat>) returns (ops: seq<Edit>)
    requires Filled(dp[..], a, b, 0, 0)
    ensures ops == Script(a, b, 0, 0)
  {
    hide Filled, Cell, Lcs, Script;
    ops := [];
    var n, m, i, j := |a|, |b|, 0, 0;
    while i < n && j < m
      invariant i <= n && j <= m && ops + Script(a, b, i, j) == Script(a, b, 0, 0)
      decreases n - i + m - j
    {
      FilledAt(dp[..], a, b, 0, 0, i + 1, j);
      FilledAt(dp[..], a, b, 0, 0, i, j + 1);
      ghost var was, i0, j0 := ops, i, j;
      if a[i] == b[j] {
        ops := ops + [Edit(Keep, a[i])];
        i, j := i + 1, j + 1;
      } else if dp[Cell(i + 1, j, m)] >= dp[Cell(i, j + 1, m)] {
        ops := ops + [Edit(Delete, a[i])];
        i := i + 1;
      } else {
        ops := ops + [Edit(Insert, b[j])];
        j := j + 1;
      }
      ScriptStep(a, b, i0, j0, ops[|was|], i, j, was);
    }
    ScriptEnd(a, b, i, j);
    ops := Rest(a, b, i, j, ops);
  }

  /** What is left of the old file is deleted, what is left of the new file is inserted. */
  method Rest(a: seq<Line>, b: seq<Line>, from: nat, to: nat, before: seq<Edit>) returns (ops: seq<Edit>)
    requires from <= |a| && to <= |b|
    ensures ops == before + (Deletes(a[from..]) + Inserts(b[to..]))
  {
    ops := before;
    var i, j := from, to;
    while i < |a|
      invariant from <= i <= |a| && ops == before + Deletes(a[from..i])
    {
      assert Deletes(a[from..i]) + [Edit(Delete, a[i])] == Deletes(a[from..i + 1]);
      ops := ops + [Edit(Delete, a[i])];
      i := i + 1;
    }
    assert a[from..i] == a[from..];
    ghost var deleted := Deletes(a[from..]);
    while j < |b|
      invariant to <= j <= |b| && ops == before + deleted + Inserts(b[to..j])
    {
      assert Inserts(b[to..j]) + [Edit(Insert, b[j])] == Inserts(b[to..j + 1]);
      ops := ops + [Edit(Insert, b[j])];
      j := j + 1;
    }
    assert b[to..j] == b[to..];
  }

  // ---- Cutting hunks ----

  const CONTEXT: nat := 3

  predicate Changes(ops: seq<Edit>) { exists i | 0 <= i < |ops| :: ops[i].kind != Keep }

  /** Nothing changes, or nothing changes in the last seven lines. */
  predicate IdleTail(ops: seq<Edit>) {
    AllKept(ops, 0, |ops|) || (|ops| > 2 * CONTEXT && AllKept(ops, |ops| - 2 * CONTEXT - 1, |ops|))
  }

  /** A hunk that starts inside the file starts with the last context of a run of more than six kept lines. */
  predicate StartsAfterRun(ops: seq<Edit>, lo: nat) {
    lo == 0 || (lo > CONTEXT && lo + CONTEXT <= |ops| && AllKept(ops, lo - CONTEXT - 1, lo + CONTEXT))
  }

  /** After seven kept lines, the open hunk starts with the last three. */
  predicate Recent(ops: seq<Edit>, lo: nat, p: nat)
    requires p <= |ops|
  {
    p > 2 * CONTEXT && AllKept(ops, p - 2 * CONTEXT - 1, p) ==> lo + CONTEXT >= p
  }

  lemma ShortRunIsRecent(ops: seq<Edit>, lo: nat, p: nat, q: nat)
    requires p <= q <= |ops| && q - p <= 2 * CONTEXT && (p > 0 ==> ops[p - 1].kind != Keep)
    ensures Recent(ops, lo, q)
  {}

  method CountSides(ops: seq<Edit>) returns (ca: nat, cb: nat)
    ensures ca == |OldSide(ops)| && cb == |NewSide(ops)|
  {
    ca, cb := 0, 0;
    var t := 0;
    assert ops[..0] == [];
    while t < |ops|
      invariant t <= |ops| && ca == |OldSide(ops[..t])| && cb == |NewSide(ops[..t])|
    {
      assert ops[..t + 1] == ops[..t] + [ops[t]];
      JoinSides(ops[..t], [ops[t]]);
      OneSides(ops[t]);
      if ops[t].kind != Insert { ca := ca + 1; }
      if ops[t].kind != Delete { cb := cb + 1; }
      t := t + 1;
    }
    assert ops[..t] == ops;
  }

  lemma OneSides(e: Edit)
    ensures |OldSide([e])| == (if e.kind != Insert then 1 else 0) && |NewSide([e])| == (if e.kind != Delete then 1 else 0)
  {
    assert OldSide([e][1..]) == [] && NewSide([e][1..]) == [];
  }

  class HunkWriter {
    const ops: seq<Edit>
    var hunks: seq<Hunk>
    var hunk: seq<Edit>
    var hunkA: nat
    var hunkB: nat
    var inHunk: bool
    ghost var cuts: seq<Cut>
    ghost var lo: nat

    constructor (ops: seq<Edit>)
      ensures this.ops == ops && Valid(0)
    {
      this.ops, hunks, hunk, hunkA, hunkB, inHunk := ops, [], [], 0, 0, false;
      cuts, lo := [], 0;
    }

    /** The hunks written so far are cut out of the script, and each changes something. */
    ghost predicate Done()
      reads this`hunks, this`cuts
    {
      CutInto(hunks, cuts, ops) && forall k | 0 <= k < |hunks| :: Changes(hunks[k].ops)
    }

    /** The open hunk holds the script from lo to p. */
    ghost predicate Open(p: nat)
      reads this`hunk, this`hunkA, this`hunkB, this`cuts, this`lo
    {
      && lo < p <= |ops| && hunk == ops[lo..p] && hunkA == |OldSide(ops[..lo])| && hunkB == |NewSide(ops[..lo])|
      && GapStart(cuts, |cuts|) <= lo && AllKept(ops, GapStart(cuts, |cuts|), lo) && StartsAfterRun(ops, lo)
    }

    ghost predicate Valid(p: nat)
      reads this
    {
      Done() && if inHunk then Open(p) else p == 0 && hunks == [] && cuts == [] && hunk == []
    }

    /** Writes the open hunk, which ends at p. */
    method FlushHunk(ghost p: nat)
      requires Done() && inHunk && Open(p)
      modifies this
      ensures CutInto(hunks, cuts, ops) && !inHunk && hunk == [] && GapStart(cuts, |cuts|) == p
      ensures |hunks| == |old(hunks)| + 1 && hunks[..|old(hunks)|] == old(hunks) && hunks[|old(hunks)|].ops == ops[old(lo)..p]
    {
      hide OldSide, NewSide, Changes;
      var ca, cb := CountSides(hunk);
      var h := Hunk(hunkA, ca, hunkB, cb, hunk);
      ghost var was := hunks;
      AddCut(hunks, cuts, ops, h, lo, p);
      hunks, cuts := hunks + [h], cuts + [Cut(lo, p)];
      hunk, inHunk := [], false;
      assert hunks[..|was|] == was;
    }

    /** Starts a hunk at start with the lines up to p. */
    method OpenHunk(start: nat, p: nat)
      requires start <= p <= |ops| && hunk == [] && !inHunk
      modifies this`hunkA, this`hunkB, this`hunk, this`inHunk, this`lo
      ensures inHunk && lo == start && hunk == ops[start..p]
      ensures hunkA == |OldSide(ops[..start])| && hunkB == |NewSide(ops[..start])|
    {
      hunkA, hunkB := CountSides(ops[..start]);
      for u := start to p
        modifies this`hunk
        invariant hunk == ops[start..u]
      {
        hunk := hunk + [ops[u]];
      }
      inHunk, lo := true, start;
    }

    /** One line of a change or of a short run of kept lines. */
    method AddLine(p: nat)
      requires Valid(p) && p < |ops|
      modifies this
      ensures Valid(p + 1) && inHunk
    {
      hide CutInto, Changes, OldSide, NewSide, AllKept;
      if !inHunk { OpenHunk(if p >= CONTEXT then p - CONTEXT else 0, p); }
      NoGap(ops, 0);
      hunk := hunk + [ops[p]];
    }

    /** A run of more than six kept lines ends the open hunk and starts the next. */
    method LongRun(p: nat, q: nat)
      requires Valid(p) && p + 2 * CONTEXT < q <= |ops| && AllKept(ops, p, q) && (p > 0 ==> ops[p - 1].kind != Keep)
      modifies this
      ensures Valid(q) && inHunk && lo == q - CONTEXT
    {
      hide CutInto, OldSide, NewSide;
      if inHunk {
        ghost var start, was := lo, hunks;
        for t := 0 to CONTEXT
          invariant Done() && inHunk && Open(p + t) && lo == start && hunks == was
        {
          hunk := hunk + [ops[p + t]];
        }
        assert ops[start..p + CONTEXT][p - 1 - start] == ops[p - 1];
        FlushHunk(p + CONTEXT);
      }
      OpenHunk(q - CONTEXT, q);
    }

    /** The whole loop over the script. */
    method Write()
      requires Valid(0)
      modifies this
      ensures CutInto(hunks, cuts, ops) && AllKept(ops, GapStart(cuts, |cuts|), |ops|) && (hunks == [] <==> ops == [])
      ensures forall k | 0 <= k < |hunks| :: k + 1 < |hunks| ==> Changes(hunks[k].ops)
      ensures hunks != [] ==> (Changes(hunks[|hunks| - 1].ops) <==> !IdleTail(ops))
    {
      hide Done, Open, CutInto, Changes, IdleTail;
      var p := 0;
      while p < |ops|
        invariant p <= |ops| && Valid(p) && (p > 0 ==> inHunk) && Recent(ops, lo, p)
        invariant 0 < p < |ops| && ops[p].kind == Keep ==> ops[p - 1].kind != Keep
        decreases |ops| - p
      {
        if ops[p].kind == Keep {
          var q := p;
          while q < |ops| && ops[q].kind == Keep
            invariant p <= q <= |ops| && AllKept(ops, p, q)
          {
            q := q + 1;
          }
          if q - p > 2 * CONTEXT {
            LongRun(p, q);
            p := q;
            continue;
          }
          for t := p to q
            invariant Valid(t) && (t > 0 ==> inHunk)
          {
            AddLine(t);
          }
          ShortRunIsRecent(ops, lo, p, q);
          p := q;
        } else {
          AddLine(p);
          p := p + 1;
        }
      }
      Finish(p);
    }

    method Finish(ghost p: nat)
      requires Valid(p) && p == |ops| && (p > 0 ==> inHunk) && Recent(ops, lo, p)
      modifies this
      ensures CutInto(hunks, cuts, ops) && AllKept(ops, GapStart(cuts, |cuts|), |ops|) && (hunks == [] <==> ops == [])
      ensures forall k | 0 <= k < |hunks| :: k + 1 < |hunks| ==> Changes(hunks[k].ops)
      ensures hunks != [] ==> (Changes(hunks[|hunks| - 1].ops) <==> !IdleTail(ops))
    {
      hide CutInto, Changes, IdleTail, OldSide, NewSide;
      if inHunk {
        ghost var was, start := hunks, lo;
        LastHunk(ops, start);
        FlushHunk(p);
        assert forall k | 0 <= k < |was| :: hunks[k] == hunks[..|was|][k] == was[k];
        assert ops[start..p] == ops[start..];
      } else {
        GapZero(cuts);
      }
    }
  }

  lemma GapZero(cuts: seq<Cut>)
    ensures cuts == [] ==> GapStart(cuts, |cuts|) == 0
  {}

  lemma NoGap(ops: seq<Edit>, p: nat)
    requires p <= |ops|
    ensures AllKept(ops, p, p)
  {}

  lemma AddCut(hunks: seq<Hunk>, cuts: seq<Cut>, ops: seq<Edit>, h: Hunk, lo: nat, p: nat)
    requires CutInto(hunks, cuts, ops) && HunkOf(h, ops, lo, p) && lo <= p <= |ops|
    requires GapStart(cuts, |cuts|) <= lo && AllKept(ops, GapStart(cuts, |cuts|), lo)
    ensures CutInto(hunks + [h], cuts + [Cut(lo, p)], ops)
  {
    hide HunkOf, AllKept;
    var hs, cs := hunks + [h], cuts + [Cut(lo, p)];
    forall k | 0 <= k < |hs| ensures CutAt(hs, cs, ops, k) {
      assert GapStart(cs, k) == GapStart(cuts, k);
      if k < |hunks| {
        assert CutAt(hunks, cuts, ops, k);
        assert hs[k] == hunks[k] && cs[k] == cuts[k];
      }
    }
  }

  /** The last hunk changes something unless the script ends idle. */
  lemma LastHunk(ops: seq<Edit>, lo: nat)
    requires lo < |ops| && StartsAfterRun(ops, lo) && Recent(ops, lo, |ops|)
    ensures Changes(ops[lo..]) <==> !IdleTail(ops)
  {
    var tail := ops[lo..];
    if Changes(tail) {
      var i :| 0 <= i < |tail| && tail[i].kind != Keep;
      assert ops[lo + i].kind != Keep;
    } else {
      assert forall i | lo <= i < |ops| :: ops[i] == tail[i - lo];
    }
  }

  // ---- The diff ----

  const MAX_CELLS: nat := 4000000

  /** Whole bodies when the table would be too large, hunks otherwise. */
  datatype Output = Bodies(edits: seq<Edit>) | Hunks(hunks: seq<Hunk>)

  method UnifiedDiff(oldText: string, newText: string) returns (out: Output)
    ensures var a, b := Lines(oldText, 0), Lines(newText, 0);
            if (|a| + 1) * (|b| + 1) > MAX_CELLS then out == Bodies(Deletes(a) + Inserts(b))
            else
              && out.Hunks? && Patch(a, 0, out.hunks) == Some(b) && Patch(b, 0, FlipHunks(out.hunks)) == Some(a)
              && exists cuts :: CutInto(out.hunks, cuts, Script(a, b, 0, 0))
                                && AllKept(Script(a, b, 0, 0), GapStart(cuts, |cuts|), |Script(a, b, 0, 0)|)
  {
    hide Lines, Script, CutInto, Patch, Filled;
    var a := SplitLinesSimple(oldText);
    var b := SplitLinesSimple(newText);
    if (|a| + 1) * (|b| + 1) > MAX_CELLS {
      var edits := Rest(a, b, 0, 0, []);
      assert a[0..] == a && b[0..] == b;
      assert [] + (Deletes(a) + Inserts(b)) == Deletes(a) + Inserts(b);
      return Bodies(edits);
    }
    var dp := FillTable(a, b);
    var ops := Walk(a, b, dp);
    var writer := new HunkWriter(ops);
    writer.Write();
    ScriptIsFaithful(a, b, 0, 0);
    assert a[0..] == a && b[0..] == b;
    PatchMakesNew(writer.hunks, writer.cuts, ops);
    PatchMakesOld(writer.hunks, writer.cuts, ops);
    out := Hunks(writer.hunks);
  }

  /** Giving up on the table is optimal exactly when the files have no line in common. */
  lemma BodiesAreBest(a: seq<Line>, b: seq<Line>)
    ensures KeptCount(Deletes(a) + Inserts(b)) == KeptCount(Script(a, b, 0, 0)) <==> Lcs(a, b, 0, 0) == 0
  {
    WholeSides(a, b);
    ScriptIsFaithful(a, b, 0, 0);
  }
}
