/** What the language server lists and warns about, line by line. */
module Definitions {
  import opened SymbolIndex

  // ---- Definitions ----

  /** How many of the first i lines define something. */
  function Defining(rules: Rules, lines: seq<Line>, i: nat): nat
    requires i <= |lines|
  {
    if i == 0 then 0 else Defining(rules, lines, i - 1) + if rules.find(lines[i - 1]).Some? then 1 else 0
  }

  lemma {:induction false} SameDefining(rules: Rules, lines: seq<Line>, n: nat, i: nat)
    requires i <= n <= |lines|
    ensures Defining(rules, lines[..n], i) == Defining(rules, lines, i)
    decreases i
  {
    if i > 0 { SameDefining(rules, lines, n, i - 1); }
  }

  lemma {:induction false} DefiningRises(rules: Rules, lines: seq<Line>, i: nat, j: nat)
    requires i < j <= |lines| && rules.find(lines[i]).Some?
    ensures Defining(rules, lines, i) < Defining(rules, lines, j)
    decreases j
  {
    if i + 1 < j { DefiningRises(rules, lines, i, j - 1); }
  }

  /** There is a node for each line that defines something, in order, with the number of the line and the columns of the name. */
  lemma {:induction false} NodesAre(rules: Rules, lines: seq<Line>, start: int)
    ensures |NodesOf(rules, lines, start)| == Defining(rules, lines, |lines|)
    ensures forall i | 0 <= i < |lines| && rules.find(lines[i]).Some? ::
              var f := rules.find(lines[i]).value;
              && Defining(rules, lines, i) < |NodesOf(rules, lines, start)|
              && NodesOf(rules, lines, start)[Defining(rules, lines, i)] == Node(f.kind, f.name, start + i, f.col, start + i, f.col + |f.name|)
    decreases |lines|
  {
    hide Defining, NodesOf;
    if lines == [] {
      NoLines(rules, start);
    } else {
      var n := |lines| - 1;
      var front, last := lines[..n], [lines[n]];
      NodesAre(rules, front, start);
      assert front + last == lines;
      NodesJoin(rules, front, last, start);
      OneLine(rules, lines[n], start + n);
      LastDefining(rules, lines);
      SameDefining(rules, lines, n, n);
      forall i | 0 <= i < |lines| && rules.find(lines[i]).Some?
        ensures var f := rules.find(lines[i]).value;
                && Defining(rules, lines, i) < |NodesOf(rules, lines, start)|
                && NodesOf(rules, lines, start)[Defining(rules, lines, i)] == Node(f.kind, f.name, start + i, f.col, start + i, f.col + |f.name|)
      {
        SameDefining(rules, lines, n, i);
        if i < n { assert front[i] == lines[i]; }
      }
    }
  }

  lemma NoLines(rules: Rules, start: int)
    ensures NodesOf(rules, [], start) == [] && Defining(rules, [], 0) == 0
  {}

  lemma OneLine(rules: Rules, line: Line, start: int)
    ensures var f := rules.find(line);
            NodesOf(rules, [line], start) ==
            if f.Some? then [Node(f.value.kind, f.value.name, start, f.value.col, start, f.value.col + |f.value.name|)] else []
  {
    assert [line][1..] == [];
  }

  lemma LastDefining(rules: Rules, lines: seq<Line>)
    requires lines != []
    ensures var n := |lines| - 1;
            Defining(rules, lines, |lines|) == Defining(rules, lines, n) + if rules.find(lines[n]).Some? then 1 else 0
  {}

  // ---- Redefinitions ----

  /** Line i defines a function of the name. */
  predicate Names(rules: Rules, lines: seq<Line>, i: nat, name: string)
    requires i < |lines|
  {
    var f := rules.find(lines[i]);
    f.Some? && f.value.kind == Function && f.value.name == name
  }

  /** Line j is the latest before i that defines a function of the name. */
  predicate Latest(rules: Rules, lines: seq<Line>, j: nat, i: nat, name: string)
    requires i <= |lines|
  {
    j < i && Names(rules, lines, j, name) && forall k | j < k < i :: !Names(rules, lines, k, name)
  }

  ghost predicate Repeats(rules: Rules, lines: seq<Line>, i: nat)
    requires i < |lines|
  {
    exists name :: Names(rules, lines, i, name) && exists j | 0 <= j < i :: Names(rules, lines, j, name)
  }

  /** The latest function of the name before line i is on the line of this number. */
  ghost predicate Recalled(rules: Rules, lines: seq<Line>, start: int, i: nat, name: string, line: int)
    requires i <= |lines|
  {
    exists j: nat :: Latest(rules, lines, j, i, name) && line == start + j
  }

  /** The warning at line i: where its name stands, and the line of the definition before. */
  ghost predicate Warns(rules: Rules, lines: seq<Line>, start: int, i: nat, d: Diagnostic)
    requires i < |lines|
  {
    && Names(rules, lines, i, d.name)
    && Recalled(rules, lines, start, i, d.name, d.firstLine)
    && var col := rules.find(lines[i]).value.col;
       d.range == Range(NotBelowZero(start + i - 1), NotBelowZero(col - 1), NotBelowZero(start + i - 1), NotBelowZero(col + |d.name| - 1))
  }

  /** What is remembered in front of line i. */
  ghost predicate Remembers(rules: Rules, lines: seq<Line>, start: int, i: nat, defined: map<string, int>)
    requires i <= |lines|
  {
    && (forall name, j: nat | j < i && Names(rules, lines, j, name) :: name in defined)
    && forall name | name in defined :: Recalled(rules, lines, start, i, name, defined[name])
  }

  lemma RemembersNext(rules: Rules, lines: seq<Line>, start: int, i: nat, defined: map<string, int>)
    requires i < |lines| && Remembers(rules, lines, start, i, defined)
    ensures var f := rules.find(lines[i]);
            Remembers(rules, lines, start, i + 1, if f.Some? && f.value.kind == Function then defined[f.value.name := start + i] else defined)
  {
    var f := rules.find(lines[i]);
    var more := if f.Some? && f.value.kind == Function then defined[f.value.name := start + i] else defined;
    forall name | name in more ensures Recalled(rules, lines, start, i + 1, name, more[name]) {
      if Names(rules, lines, i, name) {
        assert Latest(rules, lines, i, i + 1, name);
      } else {
        assert Recalled(rules, lines, start, i, name, defined[name]);
        var j: nat :| Latest(rules, lines, j, i, name) && defined[name] == start + j;
        assert Latest(rules, lines, j, i + 1, name);
      }
    }
  }

  predicate Rising(at: seq<nat>) { forall k, l | 0 <= k < l < |at| :: at[k] < at[l] }

  /** The warnings from line i on, with their lines. */
  ghost predicate Covers(rules: Rules, lines: seq<Line>, start: int, i: nat, at: seq<nat>, ds: seq<Diagnostic>) {
    && |at| == |ds| && Rising(at)
    && (forall k | 0 <= k < |at| :: i <= at[k] < |lines| && Warns(rules, lines, start, at[k], ds[k]))
    && forall j | i <= j < |lines| && Repeats(rules, lines, j) :: j in at
  }

  lemma CoversMore(rules: Rules, lines: seq<Line>, start: int, i: nat, at: seq<nat>, ds: seq<Diagnostic>, d: Diagnostic)
    requires i < |lines| && Covers(rules, lines, start, i + 1, at, ds) && Warns(rules, lines, start, i, d)
    ensures Covers(rules, lines, start, i, [i] + at, [d] + ds)
  {
    hide Warns, Repeats;
    var more := [i] + at;
    forall j | i <= j < |lines| && Repeats(rules, lines, j) ensures j in more { assert more[0] == i; }
  }

  lemma CoversSkip(rules: Rules, lines: seq<Line>, start: int, i: nat, at: seq<nat>, ds: seq<Diagnostic>)
    requires i < |lines| && Covers(rules, lines, start, i + 1, at, ds) && !Repeats(rules, lines, i)
    ensures Covers(rules, lines, start, i, at, ds)
  {
    hide Warns, Repeats;
  }

  lemma DiagnosticsStep(rules: Rules, lines: seq<Line>, start: int, i: nat, defined: map<string, int>)
    requires i < |lines|
    ensures var f := rules.find(lines[i]);
            var more := if f.Some? && f.value.kind == Function then defined[f.value.name := start + i] else defined;
            var rest := DiagnosticsOf(rules, lines[i + 1..], start + i + 1, more);
            DiagnosticsOf(rules, lines[i..], start + i, defined) ==
            if f.Some? && f.value.kind == Function && f.value.name in defined
            then [Diagnostic(NodeToRange(NodeOf(f.value, start + i)), f.value.name, defined[f.value.name])] + rest else rest
  {
    assert lines[i..][1..] == lines[i + 1..];
  }

  lemma {:induction false} WarningsFrom(rules: Rules, lines: seq<Line>, start: int, i: nat, defined: map<string, int>) returns (at: seq<nat>)
    requires i <= |lines| && Remembers(rules, lines, start, i, defined)
    ensures Covers(rules, lines, start, i, at, DiagnosticsOf(rules, lines[i..], start + i, defined))
    decreases |lines| - i
  {
    hide Remembers, Warns, Repeats, Covers, NodeOf, NodeToRange, DiagnosticsOf;
    if i == |lines| {
      at := [];
      NothingWarns(rules, lines, start, defined);
    } else {
      RemembersNext(rules, lines, start, i, defined);
      DiagnosticsStep(rules, lines, start, i, defined);
      var f := rules.find(lines[i]);
      var more := if f.Some? && f.value.kind == Function then defined[f.value.name := start + i] else defined;
      var rest := DiagnosticsOf(rules, lines[i + 1..], start + i + 1, more);
      at := WarningsFrom(rules, lines, start, i + 1, more);
      if f.Some? && f.value.kind == Function && f.value.name in defined {
        WarnsHere(rules, lines, start, i, defined);
        CoversMore(rules, lines, start, i, at, rest, Diagnostic(NodeToRange(NodeOf(f.value, start + i)), f.value.name, defined[f.value.name]));
        at := [i] + at;
      } else {
        RepeatsKnown(rules, lines, start, i, defined);
        CoversSkip(rules, lines, start, i, at, rest);
      }
    }
  }

  lemma NothingWarns(rules: Rules, lines: seq<Line>, start: int, defined: map<string, int>)
    ensures Covers(rules, lines, start, |lines|, [], DiagnosticsOf(rules, lines[|lines|..], start + |lines|, defined))
  {}

  lemma RepeatsKnown(rules: Rules, lines: seq<Line>, start: int, i: nat, defined: map<string, int>)
    requires i < |lines| && Remembers(rules, lines, start, i, defined)
    ensures Repeats(rules, lines, i) ==> var f := rules.find(lines[i]); f.Some? && f.value.kind == Function && f.value.name in defined
  {}

  lemma WarnsHere(rules: Rules, lines: seq<Line>, start: int, i: nat, defined: map<string, int>)
    requires i < |lines| && Remembers(rules, lines, start, i, defined)
    requires var f := rules.find(lines[i]); f.Some? && f.value.kind == Function && f.value.name in defined
    ensures var f := rules.find(lines[i]).value;
            Warns(rules, lines, start, i, Diagnostic(NodeToRange(NodeOf(f, start + i)), f.name, defined[f.name]))
  {}

  /**
   * The warnings of a document: one for each line, in order, that defines a function again, at its name,
   * with the number of the line of the definition before.
   */
  lemma WarningsAre(rules: Rules, lines: seq<Line>, start: int) returns (at: seq<nat>)
    ensures var ds := DiagnosticsOf(rules, lines, start, map[]);
            |at| == |ds| && Rising(at) && forall k | 0 <= k < |at| :: at[k] < |lines| && Warns(rules, lines, start, at[k], ds[k])
    ensures forall j | 0 <= j < |lines| && Repeats(rules, lines, j) :: j in at
  {
    hide Warns, Repeats, DiagnosticsOf;
    assert lines[0..] == lines;
    at := WarningsFrom(rules, lines, start, 0, map[]);
  }

  // ---- Which definition a warning names ----

  /** Line j is the first of all that defines a function of the name. */
  predicate First(rules: Rules, lines: seq<Line>, j: nat, name: string) {
    j < |lines| && Names(rules, lines, j, name) && forall k | 0 <= k < j :: !Names(rules, lines, k, name)
  }

  /** No two lines before i define a function of the name. */
  predicate DefinedOnce(rules: Rules, lines: seq<Line>, i: nat, name: string)
    requires i <= |lines|
  {
    forall j, k | 0 <= j < k < i && Names(rules, lines, j, name) :: !Names(rules, lines, k, name)
  }

  /** A warning names the line of the first definition, as its text says, exactly if there is only one before it. */
  lemma FirstIsNamed(rules: Rules, lines: seq<Line>, start: int, i: nat, d: Diagnostic, first: nat)
    requires i < |lines| && Warns(rules, lines, start, i, d) && First(rules, lines, first, d.name)
    ensures d.firstLine == start + first <==> DefinedOnce(rules, lines, i, d.name)
  {
    hide Names;
    var j: nat :| Latest(rules, lines, j, i, d.name) && d.firstLine == start + j;
    if j != first { assert first < j; }
    if j == first {
      forall m, n | 0 <= m < n < i && Names(rules, lines, m, d.name) ensures !Names(rules, lines, n, d.name) {}
    }
  }

  /** Three definitions of one function: the last warning names the second. */
  lemma ThirdNamesSecond()
    ensures var rules := Rules(_ => Some(Found(Function, "f", 4)), _ => false, (_, _) => false);
            var ds := DiagnosticsOf(rules, ["to f", "to f", "to f"], 1, map[]);
            |ds| == 2 && ds[1].firstLine == 2 && First(rules, ["to f", "to f", "to f"], 0, "f")
  {
    var rules := Rules(_ => Some(Found(Function, "f", 4)), _ => false, (_, _) => false);
    var l := "to f";
    assert [l, l, l][1..] == [l, l] && [l, l][1..] == [l] && [l][1..] == [];
    var one, two: map<string, int> := map["f" := 1], map["f" := 2];
    assert map["f" := 1]["f" := 2] == two;
    assert DiagnosticsOf(rules, [l], 3, two) == [Diagnostic(NodeToRange(NodeOf(Found(Function, "f", 4), 3)), "f", 2)];
  }
}
