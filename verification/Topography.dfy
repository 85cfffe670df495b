/** Cutting source text into logical lines: the character automaton, the scan it drives,
    and the declarative side of both. */
module Topography {
  import opened Values

  /** A logical line: where it starts, how far it is indented, and its text. */
  datatype Node = Node(line: int, indent: nat, text: string)

  const NO_QUOTE := '\0'

  /** What the automaton remembers: open brackets, the open quote and comment flags. */
  datatype Lex = Lex(paren: nat, bracket: nat, brace: nat, quote: char, triple: bool, escaped: bool, comment: bool, block: bool)

  const Clean := Lex(0, 0, 0, NO_QUOTE, false, false, false, false)

  predicate Brackets(a: Lex) { a.paren > 0 || a.bracket > 0 || a.brace > 0 }

  /** A newline here does not end the logical line. */
  predicate Open(a: Lex) { Brackets(a) || a.quote != NO_QUOTE || a.block }

  function Less1(n: nat): nat { if n == 0 then 0 else n - 1 }

  predicate At(src: string, p: nat, c: char) { p < |src| && src[p] == c }

  // ---- Anchor lines ----

  predicate WordChar(c: char) { 'a' <= c <= 'z' || 'A' <= c <= 'Z' || '0' <= c <= '9' || c == '_' }

  predicate SpaceChar(c: char) { c == ' ' || '\t' <= c <= '\r' }

  const ANCHORS := {"to", "can", "def", "function", "define", "structure", "thing", "class", "namespace", "import", "use", "from"}

  /** The end of the word that starts at p. */
  function WordEnd(src: string, p: nat): (e: nat)
    requires p <= |src|
    ensures p <= e <= |src|
    decreases |src| - p
  {
    if p < |src| && WordChar(src[p]) then WordEnd(src, p + 1) else p
  }

  /** The line at p starts with a definition keyword in the first column. */
  predicate AnchorAt(src: string, p: nat) {
    && p < |src|
    && var e := WordEnd(src, p);
       && src[p..e] in ANCHORS
       && (e < |src| ==> SpaceChar(src[e]) || src[e] == '(' || src[e] == ':' || src[e] == '\0')
  }

  // ---- One character ----

  /** What follows a character: carry on behind it, resume elsewhere, or resume on the
      next physical line of the same logical line. */
  datatype Kind = Onward | Again | Joined

  datatype Move = Move(pos: nat, lex: Lex, kind: Kind)

  function FeedQuoted(src: string, pos: nat, c: char, a: Lex): Move {
    if a.escaped then Move(pos, a.(escaped := false), Onward)
    else if c == '\\' then Move(pos, a.(escaped := true), Onward)
    else if a.triple && c == a.quote && At(src, pos + 1, a.quote) && At(src, pos + 2, a.quote) then
      Move(pos + 2, a.(quote := NO_QUOTE, triple := false), Onward)
    else if !a.triple && c == a.quote then Move(pos, a.(quote := NO_QUOTE), Onward)
    else Move(pos, a, Onward)
  }

  function FeedCode(src: string, pos: nat, c: char, a: Lex): Move {
    if c == '/' && At(src, pos + 1, '*') then Move(pos + 2, a.(block := true), Again)
    else if c == '#' then Move(pos, a.(comment := true), Onward)
    else if c == '\\' && At(src, pos + 1, '\n') then Move(pos + 2, a, Joined)
    else if c == '\\' && At(src, pos + 1, '\r') && At(src, pos + 2, '\n') then Move(pos + 3, a, Joined)
    else if c == '"' || c == '\'' then
      if At(src, pos + 1, c) && At(src, pos + 2, c) then Move(pos + 2, a.(quote := c, triple := true), Onward)
      else Move(pos, a.(quote := c), Onward)
    else Move(pos, FeedBracket(c, a), Onward)
  }

  function FeedBracket(c: char, a: Lex): Lex {
    if c == '(' then a.(paren := a.paren + 1)
    else if c == ')' then a.(paren := Less1(a.paren))
    else if c == '[' then a.(bracket := a.bracket + 1)
    else if c == ']' then a.(bracket := Less1(a.bracket))
    else if c == '{' then a.(brace := a.brace + 1)
    else if c == '}' then a.(brace := Less1(a.brace))
    else a
  }

  /** The automaton reads c, which is at pos, or a newline imagined there. */
  function Feed(src: string, pos: nat, c: char, a: Lex): (m: Move)
    ensures m.pos >= pos && (m.kind != Onward ==> m.pos > pos) && (c == '\n' ==> m.pos == pos && m.kind == Onward)
  {
    if a.block then
      if c == '*' && At(src, pos + 1, '/') then Move(pos + 2, a.(block := false), Again) else Move(pos, a, Onward)
    else if a.comment then Move(pos, if c == '\n' then a.(comment := false) else a, Onward)
    else if a.quote != NO_QUOTE then
      var m := FeedQuoted(src, pos, c, a);
      if c == '\n' then Move(pos, a.(escaped := false), Onward) else m
    else FeedCode(src, pos, c, a)
  }

  // ---- Logical lines ----

  predicate Blank(c: char) { c == ' ' || c == '\t' || c == '\r' || c == '\n' }

  /** Some character of the text from i on is neither blank nor in a comment. */
  predicate HasCode(text: string, i: nat, block: bool, line: bool)
    decreases |text| - i
  {
    if i >= |text| then false
    else if block then
      if text[i] == '*' && At(text, i + 1, '/') then HasCode(text, i + 2, false, line) else HasCode(text, i + 1, true, line)
    else if line then HasCode(text, i + 1, false, text[i] != '\n')
    else if text[i] == '/' && At(text, i + 1, '*') then HasCode(text, i + 2, true, false)
    else if text[i] == '#' then HasCode(text, i + 1, false, true)
    else !Blank(text[i]) || HasCode(text, i + 1, false, false)
  }

  /** The first character that is not blank, or the end. */
  function FirstCode(text: string, i: nat): (k: nat)
    requires i <= |text|
    ensures i <= k <= |text|
    decreases |text| - i
  {
    if i < |text| && Blank(text[i]) then FirstCode(text, i + 1) else i
  }

  /** The width of the blanks before position n, up to a line break; tabs count four. */
  function Indent(text: string, i: nat, n: nat): nat
    requires i <= n <= |text|
    decreases n - i
  {
    if i == n || text[i] == '\n' || text[i] == '\r' then 0
    else (if text[i] == '\t' then 4 else if text[i] == ' ' then 1 else 0) + Indent(text, i + 1, n)
  }

  predicate Counts(text: string) { FirstCode(text, 0) < |text| && HasCode(text, 0, false, false) }

  function NodesOf(line: int, text: string): seq<Node> {
    if Counts(text) then [Node(line, Indent(text, 0, FirstCode(text, 0)), text)] else []
  }

  // ---- The scan ----

  /** Where to resume if a block comment is never closed. */
  datatype Mark = Mark(pos: nat, line: int)

  datatype Scan = Scan(pos: nat, lex: Lex, nodeStart: nat, line: int, startLine: int, rec: Option<Mark>, nodes: seq<Node>)

  function Init(start: nat, line: int): Scan { Scan(start, Clean, start, line, line, None, []) }

  predicate Usable(src: string, end: nat, s: Scan) { s.pos <= end <= |src| && s.nodeStart <= s.pos }

  /** The end of a physical line. */
  function Newline(src: string, end: nat, s: Scan): (t: Scan)
    requires Usable(src, end, s)
    ensures t.pos == s.pos + 1 && t.nodeStart <= t.pos
  {
    var next := if s.pos < end then s.pos + 1 else s.pos;
    if !Open(s.lex) then
      s.(pos := s.pos + 1, nodeStart := s.pos + 1, line := s.line + 1, startLine := s.line + 1,
         nodes := s.nodes + NodesOf(s.startLine, src[s.nodeStart..s.pos]))
    else if s.lex.block then
      s.(pos := s.pos + 1, line := s.line + 1,
         rec := if s.rec.None? && AnchorAt(src, next) then Some(Mark(next, s.line + 1)) else s.rec)
    else if !s.lex.triple && AnchorAt(src, next) then
      s.(pos := s.pos + 1, lex := Clean, nodeStart := s.pos + 1, line := s.line + 1, startLine := s.line + 1)
    else s.(pos := s.pos + 1, line := s.line + 1)
  }

  /** One turn of the scan of src up to `end`, where a newline is imagined. */
  function Step(src: string, end: nat, s: Scan): (t: Scan)
    requires Usable(src, end, s)
    ensures t.pos > s.pos && t.nodeStart <= t.pos
  {
    var c := if s.pos < end then src[s.pos] else '\n';
    var m := Feed(src, s.pos, c, s.lex);
    match m.kind
    case Again => s.(pos := m.pos, lex := m.lex, rec := if s.lex.block then None else s.rec)
    case Joined => s.(pos := m.pos, line := s.line + 1)
    case Onward => if c == '\n' then Newline(src, end, s.(lex := m.lex)) else s.(pos := m.pos + 1, lex := m.lex)
  }

  function Loop(src: string, end: nat, s: Scan): (t: Scan)
    requires end <= |src| && s.nodeStart <= s.pos
    ensures t.pos > end && t.nodeStart <= t.pos
    decreases if s.pos <= end then end + 1 - s.pos else 0
  {
    if s.pos > end then s else Loop(src, end, Step(src, end, s))
  }

  /** No block comment ends at p or later. */
  predicate NoClose(src: string, p: nat) {
    forall i | p <= i < |src| - 1 :: !(src[i] == '*' && src[i + 1] == '/')
  }

  /** The logical lines of src from `start` to `end`. After a block comment that is never
      closed, scanning resumes at the first anchor line inside it. */
  function Lines(src: string, end: nat, start: nat, line: int): seq<Node>
    requires start <= end <= |src|
    decreases end - start
  {
    var t := Loop(src, end, Init(start, line));
    t.nodes + (if t.lex.block && t.rec.Some? && NoClose(src, t.rec.value.pos) && start < t.rec.value.pos <= end
               then Lines(src, end, t.rec.value.pos, t.rec.value.line) else [])
  }

  /** The recovery mark lies inside the open block comment. */
  predicate Marked(src: string, end: nat, start: nat, s: Scan) {
    s.rec.Some? ==>
      && s.lex.block && start < s.rec.value.pos <= end && s.rec.value.pos <= s.pos
      && forall i | s.rec.value.pos <= i < s.pos && i < end && i < |src| - 1 :: !(src[i] == '*' && src[i + 1] == '/')
  }

  lemma MarkedStep(src: string, end: nat, start: nat, s: Scan)
    requires Usable(src, end, s) && Marked(src, end, start, s) && start <= s.pos && (s.lex.block ==> start < s.pos)
    ensures var t := Step(src, end, s); Marked(src, end, start, t) && (t.lex.block ==> start < t.pos)
  {
    hide AnchorAt, FeedQuoted, FeedCode, NodesOf;
    FeedKeeps(src, s.pos, if s.pos < end then src[s.pos] else '\n', s.lex);
  }

  lemma FeedKeeps(src: string, pos: nat, c: char, a: Lex)
    ensures var m := Feed(src, pos, c, a);
            && (a.block && m.lex.block ==> m == Move(pos, a, Onward) && !(c == '*' && At(src, pos + 1, '/')))
            && (!a.block && m.lex.block ==> m.kind == Again)
            && (a.block && !m.lex.block ==> m.kind == Again)
  {}
}
