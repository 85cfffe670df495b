/** The JSON printer and parser of the standard library, as they run. */
module JsonText {
  import opened Bytes
  import opened Json

  // ---- Printing ----

  method JsonEscape(s: seq<byte>) returns (res: seq<byte>)
    ensures res == Quoted(s)
  {
    res := [QUOTE];
    var i := 0;
    while i < |s|
      invariant i <= |s| && res + Escaped(s[i..]) == [QUOTE] + Escaped(s)
    {
      assert s[i..][1..] == s[i + 1..];
      assert res + (EscapeOf(s[i]) + Escaped(s[i + 1..])) == (res + EscapeOf(s[i])) + Escaped(s[i + 1..]);
      res := res + EscapeOf(s[i]);
      i := i + 1;
    }
    assert res == [QUOTE] + Escaped(s);
    res := res + [QUOTE];
  }

  /** The text of a value at a depth, unless it nests too deeply, which throws. */
  method StringifyAt(v: Value, depth: nat, indent: int) returns (r: Option<seq<byte>>)
    ensures r == if depth + Height(v) > MAX_DEPTH then None else Some(Text(v, depth, indent))
    decreases v, 1
  {
    hide HeightAll, HeightItems, ElemsText, ItemsText, Quoted, NumText;
    if depth > MAX_DEPTH { return None; }
    match v
    case Null => r := Some(NULL_TEXT);
    case Bool(b) => r := Some(if b then TRUE_TEXT else FALSE_TEXT);
    case Integer(n) => r := Some(NumText(n));
    case Fraction(lexeme) => r := Some(lexeme);
    case Str(s) =>
      var text := JsonEscape(s);
      r := Some(text);
    case List(elems) =>
      if elems == [] {
        NoHeight();
        return Some([LIST_OPEN, LIST_CLOSE]);
      }
      r := StringifyElems(elems, depth, indent);
    case Dict(items) =>
      if items == [] {
        NoHeight();
        return Some([DICT_OPEN, DICT_CLOSE]);
      }
      r := StringifyItems(items, depth, indent);
  }

  lemma NoHeight()
    ensures HeightAll([]) == 0 && HeightItems([]) == 0
  {}

  /** What is still to be printed before and after element i. */
  function ElemsFrom(elems: seq<Value>, i: nat, depth: nat, indent: int): seq<byte>
    requires i <= |elems|
  {
    if i == |elems| then Indent(depth, indent, []) + [LIST_CLOSE]
    else (if i == 0 then Indent(depth + 1, indent, []) else [COMMA] + Indent(depth + 1, indent, [SPACE])) + ElemsText(elems[i..], depth, indent)
  }

  method StringifyElems(elems: seq<Value>, depth: nat, indent: int) returns (r: Option<seq<byte>>)
    requires elems != [] && depth <= MAX_DEPTH
    ensures r == if depth + HeightAll(elems) > MAX_DEPTH then None else Some(Text(List(elems), depth, indent))
    decreases elems, 0
  {
    hide Text, Height, Indent, ElemsFrom, HeightAll;
    var res := [LIST_OPEN];
    ElemsWhole(elems, depth, indent);
    ghost var text := Text(List(elems), depth, indent);
    var i := 0;
    assert elems[0..] == elems;
    while i < |elems|
      invariant i <= |elems| && res + ElemsFrom(elems, i, depth, indent) == text
      invariant depth + HeightAll(elems) > MAX_DEPTH <==> depth + HeightAll(elems[i..]) > MAX_DEPTH
    {
      HeightsFrom(elems, i);
      ElemsNext(elems, i, depth, indent, res);
      if i > 0 { res := res + [COMMA]; }
      res := res + Indent(depth + 1, indent, if i > 0 then [SPACE] else []);
      var elem := StringifyAt(elems[i], depth + 1, indent);
      if elem.None? { return None; }
      res := res + elem.value;
      i := i + 1;
    }
    assert elems[i..] == [];
    NoHeight();
    ElemsEnd(elems, depth, indent);
    r := Some(res + (Indent(depth, indent, []) + [LIST_CLOSE]));
  }

  lemma ElemsWhole(elems: seq<Value>, depth: nat, indent: int)
    requires elems != []
    ensures [LIST_OPEN] + ElemsFrom(elems, 0, depth, indent) == Text(List(elems), depth, indent)
  {
    hide ElemsText, Indent;
    assert elems[0..] == elems;
  }

  lemma ElemsEnd(elems: seq<Value>, depth: nat, indent: int)
    ensures ElemsFrom(elems, |elems|, depth, indent) == Indent(depth, indent, []) + [LIST_CLOSE]
  {}

  lemma ElemsNext(elems: seq<Value>, i: nat, depth: nat, indent: int, res: seq<byte>)
    requires i < |elems|
    ensures res + ElemsFrom(elems, i, depth, indent) ==
            (if i > 0 then res + [COMMA] else res) + Indent(depth + 1, indent, if i > 0 then [SPACE] else [])
            + Text(elems[i], depth + 1, indent) + ElemsFrom(elems, i + 1, depth, indent)
  {
    hide Text, Indent;
    assert elems[i..][1..] == elems[i + 1..];
    assert ElemsText(elems[i..], depth, indent) == Text(elems[i], depth + 1, indent) + ElemsFrom(elems, i + 1, depth, indent);
  }

  lemma HeightsFrom(elems: seq<Value>, i: nat)
    requires i < |elems|
    ensures HeightAll(elems[i..]) == Max(Height(elems[i]) + 1, HeightAll(elems[i + 1..]))
  {
    hide Height;
    assert elems[i..][1..] == elems[i + 1..];
  }

  function ItemsFrom(items: seq<Member>, i: nat, depth: nat, indent: int): seq<byte>
    requires i <= |items|
  {
    if i == |items| then Indent(depth, indent, []) + [DICT_CLOSE]
    else (if i == 0 then Indent(depth + 1, indent, []) else [COMMA] + Indent(depth + 1, indent, [SPACE])) + ItemsText(items[i..], depth, indent)
  }

  method StringifyItems(items: seq<Member>, depth: nat, indent: int) returns (r: Option<seq<byte>>)
    requires items != [] && depth <= MAX_DEPTH
    ensures r == if depth + HeightItems(items) > MAX_DEPTH then None else Some(Text(Dict(items), depth, indent))
    decreases items, 0
  {
    hide Text, Height, Indent, ItemsFrom, HeightItems, Quoted;
    var res := [DICT_OPEN];
    ItemsWhole(items, depth, indent);
    ghost var text := Text(Dict(items), depth, indent);
    var i := 0;
    assert items[0..] == items;
    while i < |items|
      invariant i <= |items| && res + ItemsFrom(items, i, depth, indent) == text
      invariant depth + HeightItems(items) > MAX_DEPTH <==> depth + HeightItems(items[i..]) > MAX_DEPTH
    {
      ItemHeightsFrom(items, i);
      ItemsNext(items, i, depth, indent, res);
      if i > 0 { res := res + [COMMA]; }
      var key := JsonEscape(items[i].key);
      res := res + Indent(depth + 1, indent, if i > 0 then [SPACE] else []) + key + [COLON, SPACE];
      var value := StringifyAt(items[i].value, depth + 1, indent);
      if value.None? { return None; }
      res := res + value.value;
      i := i + 1;
    }
    assert items[i..] == [];
    NoHeight();
    ItemsEnd(items, depth, indent);
    r := Some(res + (Indent(depth, indent, []) + [DICT_CLOSE]));
  }

  lemma ItemsWhole(items: seq<Member>, depth: nat, indent: int)
    requires items != []
    ensures [DICT_OPEN] + ItemsFrom(items, 0, depth, indent) == Text(Dict(items), depth, indent)
  {
    hide ItemsText, Indent;
    assert items[0..] == items;
  }

  lemma ItemsEnd(items: seq<Member>, depth: nat, indent: int)
    ensures ItemsFrom(items, |items|, depth, indent) == Indent(depth, indent, []) + [DICT_CLOSE]
  {}

  lemma ItemsNext(items: seq<Member>, i: nat, depth: nat, indent: int, res: seq<byte>)
    requires i < |items|
    ensures res + ItemsFrom(items, i, depth, indent) ==
            (if i > 0 then res + [COMMA] else res) + Indent(depth + 1, indent, if i > 0 then [SPACE] else [])
            + Quoted(items[i].key) + [COLON, SPACE] + Text(items[i].value, depth + 1, indent) + ItemsFrom(items, i + 1, depth, indent)
  {
    hide Text, Indent, Quoted, ItemsText, ItemsFrom;
    var w := Indent(depth + 1, indent, if i > 0 then [SPACE] else []);
    ItemUnfolds(items, i, depth, indent);
    ItemsLead(items, i, depth, indent, res);
    Regroup(if i > 0 then res + [COMMA] else res, w, Quoted(items[i].key), Text(items[i].value, depth + 1, indent),
            ItemsFrom(items, i + 1, depth, indent));
  }

  lemma ItemsLead(items: seq<Member>, i: nat, depth: nat, indent: int, res: seq<byte>)
    requires i < |items|
    ensures res + ItemsFrom(items, i, depth, indent) ==
            (if i > 0 then res + [COMMA] else res)
            + (Indent(depth + 1, indent, if i > 0 then [SPACE] else []) + ItemsText(items[i..], depth, indent))
  {
    hide Indent, ItemsText;
    var w, text := Indent(depth + 1, indent, if i > 0 then [SPACE] else []), ItemsText(items[i..], depth, indent);
    if i > 0 { assert res + ([COMMA] + w + text) == res + [COMMA] + (w + text); }
  }

  lemma ItemUnfolds(items: seq<Member>, i: nat, depth: nat, indent: int)
    requires i < |items|
    ensures ItemsText(items[i..], depth, indent) ==
            Quoted(items[i].key) + [COLON, SPACE] + Text(items[i].value, depth + 1, indent) + ItemsFrom(items, i + 1, depth, indent)
  {
    hide Text, Indent, Quoted;
    assert items[i..][1..] == items[i + 1..];
  }

  lemma Regroup(res: seq<byte>, w: seq<byte>, key: seq<byte>, text: seq<byte>, rest: seq<byte>)
    ensures res + (w + (key + [COLON, SPACE] + text + rest)) == res + w + key + [COLON, SPACE] + text + rest
  {}

  lemma ItemHeightsFrom(items: seq<Member>, i: nat)
    requires i < |items|
    ensures HeightItems(items[i..]) == Max(Height(items[i].value) + 1, HeightItems(items[i + 1..]))
  {
    hide Height;
    assert items[i..][1..] == items[i + 1..];
  }

  method JsonStringify(v: Value, indent: int) returns (r: Option<seq<byte>>)
    ensures r == Stringify(v, indent)
  {
    r := StringifyAt(v, 0, indent);
  }

  // ---- Parsing ----

  class JsonParser {
    const s: seq<byte>
    var pos: nat
    var errorOut: bool

    constructor (s: seq<byte>)
      ensures this.s == s && pos == 0 && !errorOut
    {
      this.s, pos, errorOut := s, 0, false;
    }

    predicate Valid() reads this { pos <= |s| }

    method SkipSpace()
      requires Valid()
      modifies this`pos
      ensures Valid() && pos == SkipWs(s, old(pos))
    {
      ghost var start := pos;
      while pos < |s| && IsSpace(s[pos])
        invariant Valid() && SkipWs(s, pos) == SkipWs(s, start)
      {
        pos := pos + 1;
      }
    }

    method MatchByte(expected: byte) returns (ok: bool)
      requires Valid()
      modifies this`pos
      ensures Valid() && ok == Is(s, SkipWs(s, old(pos)), expected) && pos == SkipWs(s, old(pos)) + (if ok then 1 else 0)
    {
      SkipSpace();
      ok := Is(s, pos, expected);
      if ok { pos := pos + 1; }
    }

    method ParseString() returns (out: seq<byte>)
      requires Valid() && !errorOut
      modifies this
      ensures Valid() && pos >= old(pos) && errorOut == Json.ParseStr(s, old(pos)).None?
      ensures !errorOut ==> Json.ParseStr(s, old(pos)) == Some((out, pos))
    {
      out := [];
      if pos >= |s| || s[pos] != QUOTE {
        errorOut := true;
        return;
      }
      pos := pos + 1;
      ghost var spec := Json.ParseChars(s, pos);
      NoCharsBefore(spec);
      while pos < |s|
        invariant Valid() && pos > old(pos) && !errorOut && AfterChars(out, Json.ParseChars(s, pos)) == spec
        decreases |s| - pos
      {
        CharsStep(s, pos, out);
        var c := s[pos];
        pos := pos + 1;
        if c == QUOTE { return; }
        if c == BACKSLASH {
          if pos >= |s| {
            errorOut := true;
            return;
          }
          out := out + [Unescape(s[pos])];
          pos := pos + 1;
        } else {
          out := out + [c];
        }
      }
      errorOut := true;
    }

    method ParseValue(depth: nat) returns (v: Value)
      requires Valid() && !errorOut
      modifies this
      ensures Valid() && pos >= old(pos) && errorOut == ParseVal(s, old(pos), depth).None?
      ensures !errorOut ==> ParseVal(s, old(pos), depth) == Some((v, pos))
      decreases |s| - pos, 2
    {
      hide ParseStr, ParseElems, ParseItems, ParseNumber, Reads;
      v := Null;
      ValSkips(s, pos, depth);
      SkipTwice(s, pos);
      SkipSpace();
      if pos >= |s| || depth > MAX_DEPTH {
        errorOut := true;
        return;
      }
      var c := s[pos];
      if Reads(s, pos, NULL_TEXT) {
        WordInside(s, pos, NULL_TEXT);
        pos := pos + 4;
      } else if Reads(s, pos, TRUE_TEXT) {
        WordInside(s, pos, TRUE_TEXT);
        v, pos := Bool(true), pos + 4;
      } else if Reads(s, pos, FALSE_TEXT) {
        WordInside(s, pos, FALSE_TEXT);
        v, pos := Bool(false), pos + 5;
      } else if c == QUOTE {
        var text := ParseString();
        v := Str(text);
      } else if c == LIST_OPEN {
        v := ParseList(depth);
      } else if c == DICT_OPEN {
        v := ParseDict(depth);
      } else if c == MINUS || IsDigit(c) {
        v := ParseNum();
      } else {
        errorOut := true;
      }
    }

    /** The digits after a point. */
    method TakePoint() returns (places: seq<byte>)
      requires Valid()
      modifies this`pos
      ensures Valid() && pos == SkipPoint(s, old(pos)) && places == PointDigits(s, old(pos))
    {
      hide SkipDigits;
      places := [];
      if Is(s, pos, DOT) {
        pos := pos + 1;
        var start := pos;
        TakeDigits();
        places := s[start..pos];
      }
    }

    method TakeExponent() returns (exponent: int)
      requires Valid()
      modifies this`pos
      ensures Valid() && (exponent, pos) == Json.ParseExponent(s, old(pos))
    {
      hide SkipDigits, DigitsValue;
      exponent := 0;
      if Is(s, pos, LOWER_E) || Is(s, pos, 0x45) {
        pos := pos + 1;
        var negative := Is(s, pos, MINUS);
        if Is(s, pos, PLUS) || negative { pos := pos + 1; }
        var start := pos;
        TakeDigits();
        exponent := Signed(negative, DigitsValue(s[start..pos]));
      }
    }

    method ParseNum() returns (v: Value)
      requires pos < |s| && (s[pos] == MINUS || IsDigit(s[pos]))
      modifies this`pos
      ensures Valid() && (v, pos) == Json.ParseNumber(s, old(pos))
    {
      hide SkipPoint, PointDigits, ParseExponent, SkipDigits, Number;
      var start := pos;
      if s[pos] == MINUS { pos := pos + 1; }
      var first := pos;
      TakeDigits();
      var whole := pos;
      var places := TakePoint();
      var exponent := TakeExponent();
      v := Number(s[start] == MINUS, s[first..whole] + places, exponent - |places|, s[start..pos]);
    }

    method TakeDigits()
      requires Valid()
      modifies this`pos
      ensures Valid() && pos == SkipDigits(s, old(pos))
    {
      ghost var start := pos;
      while pos < |s| && IsDigit(s[pos])
        invariant Valid() && SkipDigits(s, pos) == SkipDigits(s, start)
      {
        pos := pos + 1;
      }
    }

    method ParseList(depth: nat) returns (v: Value)
      requires pos < |s| && !errorOut && s[pos] == LIST_OPEN && depth <= MAX_DEPTH && SkipWs(s, pos) == pos && !IsWord(s, pos)
      modifies this
      ensures Valid() && pos > old(pos) && errorOut == ParseVal(s, old(pos), depth).None?
      ensures !errorOut ==> ParseVal(s, old(pos), depth) == Some((v, pos))
      decreases |s| - pos, 1
    {
      hide ParseElems, ParseItems, ParseStr, ParseNumber, Reads;
      ghost var start := pos;
      pos := pos + 1;
      v := List([]);
      SkipSpace();
      SkipTwice(s, start + 1);
      var closed := MatchByte(LIST_CLOSE);
      if closed { return; }
      var elems := ParseElements(depth);
      v := List(elems);
    }

    method ParseElements(depth: nat) returns (elems: seq<Value>)
      requires Valid() && !errorOut
      modifies this
      ensures Valid() && pos >= old(pos) && errorOut == ParseElems(s, old(pos), depth).None?
      ensures !errorOut ==> ParseElems(s, old(pos), depth) == Some((elems, pos))
      decreases |s| - pos, 3
    {
      hide ParseVal, ParseElems, SkipWs;
      elems := [];
      ghost var spec := ParseElems(s, pos, depth);
      NoElemsBefore(spec);
      while true
        invariant Valid() && !errorOut && pos >= old(pos) && AfterElems(elems, ParseElems(s, pos, depth)) == spec
        decreases |s| - pos
      {
        ElemsStep(s, pos, depth, elems);
        var elem := ParseValue(depth + 1);
        if errorOut { return; }
        elems := elems + [elem];
        SkipTwice(s, pos);
        SkipSpace();
        var closed := MatchByte(LIST_CLOSE);
        if closed { return; }
        var comma := MatchByte(COMMA);
        if !comma {
          errorOut := true;
          return;
        }
      }
    }

    method ParseDict(depth: nat) returns (v: Value)
      requires pos < |s| && !errorOut && s[pos] == DICT_OPEN && depth <= MAX_DEPTH && SkipWs(s, pos) == pos && !IsWord(s, pos)
      modifies this
      ensures Valid() && pos > old(pos) && errorOut == ParseVal(s, old(pos), depth).None?
      ensures !errorOut ==> ParseVal(s, old(pos), depth) == Some((v, pos))
      decreases |s| - pos, 1
    {
      hide ParseElems, ParseItems, ParseStr, ParseNumber, Reads;
      ghost var start := pos;
      pos := pos + 1;
      v := Dict([]);
      SkipSpace();
      SkipTwice(s, start + 1);
      var closed := MatchByte(DICT_CLOSE);
      if closed { return; }
      var items := ParseMembers(depth);
      v := Dict(items);
    }

    method ParseMembers(depth: nat) returns (items: seq<Member>)
      requires Valid() && !errorOut
      modifies this
      ensures Valid() && pos >= old(pos) && errorOut == ParseItems(s, old(pos), depth, []).None?
      ensures !errorOut ==> ParseItems(s, old(pos), depth, []) == Some((items, pos))
      decreases |s| - pos, 3
    {
      hide ParseVal, SkipWs, ParseStr, Put, ParseItems;
      items := [];
      ghost var spec := ParseItems(s, pos, depth, []);
      while true
        invariant Valid() && !errorOut && pos >= old(pos) && ParseItems(s, pos, depth, items) == spec
        decreases |s| - pos
      {
        ItemsStep(s, pos, depth, items);
        SkipSpace();
        var key := ParseString();
        if errorOut { return; }
        var colon := MatchByte(COLON);
        if !colon {
          errorOut := true;
          return;
        }
        var v := ParseValue(depth + 1);
        if errorOut { return; }
        items := Put(items, key, v);
        SkipTwice(s, pos);
        SkipSpace();
        var closed := MatchByte(DICT_CLOSE);
        if closed { return; }
        var comma := MatchByte(COMMA);
        if !comma {
          errorOut := true;
          return;
        }
      }
    }

    /** The whole text. */
    method ParseAll() returns (v: Value)
      requires pos == 0 && !errorOut
      modifies this
      ensures errorOut == Parse(s).None? && (!errorOut ==> Parse(s) == Some(v))
    {
      hide ParseVal;
      v := ParseValue(0);
      if errorOut { return; }
      SkipSpace();
      if pos < |s| { errorOut := true; }
    }
  }

  predicate IsWord(s: seq<byte>, pos: nat) { Reads(s, pos, NULL_TEXT) || Reads(s, pos, TRUE_TEXT) || Reads(s, pos, FALSE_TEXT) }

  lemma WordInside(s: seq<byte>, pos: nat, word: seq<byte>)
    requires Reads(s, pos, word)
    ensures pos + |word| <= |s|
  {}

  lemma SkipTwice(s: seq<byte>, pos: nat)
    requires pos <= |s|
    ensures SkipWs(s, SkipWs(s, pos)) == SkipWs(s, pos)
  {}

  lemma ValSkips(s: seq<byte>, pos: nat, depth: nat)
    requires pos <= |s|
    ensures ParseVal(s, pos, depth) == ParseVal(s, SkipWs(s, pos), depth)
  {
    hide ParseStr, ParseElems, ParseItems, ParseNumber, Reads, SkipWs;
    SkipTwice(s, pos);
  }

  /** A result with characters in front that were read before. */
  function AfterChars(out: seq<byte>, r: Option<(seq<byte>, nat)>): Option<(seq<byte>, nat)> {
    if r.None? then None else Some((out + r.value.0, r.value.1))
  }

  lemma NoCharsBefore(r: Option<(seq<byte>, nat)>)
    ensures AfterChars([], r) == r
  {
    if r.Some? { assert [] + r.value.0 == r.value.0; }
  }

  lemma CharsStep(s: seq<byte>, pos: nat, out: seq<byte>)
    requires pos < |s|
    ensures AfterChars(out, ParseChars(s, pos)) ==
            if s[pos] == QUOTE then Some((out, pos + 1))
            else if s[pos] != BACKSLASH then AfterChars(out + [s[pos]], ParseChars(s, pos + 1))
            else if pos + 1 == |s| then None
            else AfterChars(out + [Unescape(s[pos + 1])], ParseChars(s, pos + 2))
  {
    var r := ParseChars(s, pos);
    if r.Some? {
      if s[pos] == QUOTE {
        assert out + [] == out;
      } else if s[pos] == BACKSLASH {
        var more := ParseChars(s, pos + 2).value.0;
        assert out + ([Unescape(s[pos + 1])] + more) == out + [Unescape(s[pos + 1])] + more;
      } else {
        var more := ParseChars(s, pos + 1).value.0;
        assert out + ([s[pos]] + more) == out + [s[pos]] + more;
      }
    }
  }

  function AfterElems(elems: seq<Value>, r: Option<(seq<Value>, nat)>): Option<(seq<Value>, nat)> {
    if r.None? then None else Some((elems + r.value.0, r.value.1))
  }

  lemma NoElemsBefore(r: Option<(seq<Value>, nat)>)
    ensures AfterElems([], r) == r
  {
    if r.Some? { assert [] + r.value.0 == r.value.0; }
  }

  lemma ElemsStep(s: seq<byte>, pos: nat, depth: nat, elems: seq<Value>)
    requires pos <= |s|
    ensures var elem := ParseVal(s, pos, depth + 1);
            AfterElems(elems, ParseElems(s, pos, depth)) ==
            if elem.None? then None
            else
              var q := SkipWs(s, elem.value.1);
              if Is(s, q, LIST_CLOSE) then Some((elems + [elem.value.0], q + 1))
              else if !Is(s, q, COMMA) then None
              else AfterElems(elems + [elem.value.0], ParseElems(s, q + 1, depth))
  {
    hide ParseVal, SkipWs;
    var r := ParseElems(s, pos, depth);
    if r.Some? {
      var elem := ParseVal(s, pos, depth + 1);
      var q := SkipWs(s, elem.value.1);
      if !Is(s, q, LIST_CLOSE) {
        var more := ParseElems(s, q + 1, depth).value.0;
        assert elems + ([elem.value.0] + more) == elems + [elem.value.0] + more;
      }
    }
  }

  lemma ItemsStep(s: seq<byte>, pos: nat, depth: nat, done: seq<Member>)
    requires pos <= |s|
    ensures var key := ParseStr(s, SkipWs(s, pos));
            ParseItems(s, pos, depth, done) ==
            if key.None? then None
            else
              var q := SkipWs(s, key.value.1);
              if !Is(s, q, COLON) then None
              else
                var v := ParseVal(s, q + 1, depth + 1);
                if v.None? then None
                else
                  var e := SkipWs(s, v.value.1);
                  var items := Put(done, key.value.0, v.value.0);
                  if Is(s, e, DICT_CLOSE) then Some((items, e + 1))
                  else if !Is(s, e, COMMA) then None
                  else ParseItems(s, e + 1, depth, items)
  {
    hide ParseVal, SkipWs, ParseStr, Put;
  }
}
