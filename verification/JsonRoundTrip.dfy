/** When parsing printed JSON gives the value back, for every indentation; and when printed strings keep to RFC 8259. */
module JsonRoundTrip {
  import opened Bytes
  import opened Json

  // ---- White space ----

  predicate AllSpace(w: seq<byte>) { forall i | 0 <= i < |w| :: IsSpace(w[i]) }

  lemma {:induction false} SkipOver(s: seq<byte>, pos: nat, w: seq<byte>)
    requires StandsAt(s, pos, w) && AllSpace(w)
    ensures SkipWs(s, pos) == SkipWs(s, pos + |w|)
    decreases |w|
  {
    if w != [] {
      StandsByte(s, pos, w, 0);
      assert w == [w[0]] + w[1..];
      StandsSplit(s, pos, [w[0]], w[1..]);
      SkipOver(s, pos + 1, w[1..]);
    }
  }

  lemma IndentIsSpace(level: nat, indent: int, flat: seq<byte>)
    requires flat == [] || flat == [SPACE]
    ensures AllSpace(Indent(level, indent, flat))
  {}

  /** White space and then a byte that is none. */
  lemma SkipTo(s: seq<byte>, pos: nat, w: seq<byte>, c: byte)
    requires StandsAt(s, pos, w + [c]) && AllSpace(w) && !IsSpace(c)
    ensures SkipWs(s, pos) == pos + |w| && Is(s, pos + |w|, c)
  {
    StandsSplit(s, pos, w, [c]);
    StandsByte(s, pos + |w|, [c], 0);
    SkipOver(s, pos, w);
  }

  lemma ValFromSpace(s: seq<byte>, pos: nat, w: seq<byte>, depth: nat)
    requires StandsAt(s, pos, w) && AllSpace(w)
    ensures ParseVal(s, pos, depth) == ParseVal(s, pos + |w|, depth)
  {
    hide SkipWs, ParseStr, ParseElems, ParseItems, ParseNumber, Reads;
    SkipOver(s, pos, w);
  }

  lemma ElemsFromSpace(s: seq<byte>, pos: nat, w: seq<byte>, depth: nat)
    requires StandsAt(s, pos, w) && AllSpace(w)
    ensures ParseElems(s, pos, depth) == ParseElems(s, pos + |w|, depth)
  {
    hide SkipWs, ParseVal;
    ValFromSpace(s, pos, w, depth + 1);
  }

  lemma ItemsFromSpace(s: seq<byte>, pos: nat, w: seq<byte>, depth: nat, done: seq<Member>)
    requires StandsAt(s, pos, w) && AllSpace(w)
    ensures ParseItems(s, pos, depth, done) == ParseItems(s, pos + |w|, depth, done)
  {
    hide SkipWs, ParseVal, ParseStr;
    SkipOver(s, pos, w);
  }

  // ---- Numbers ----

  predicate AllDigits(ds: seq<byte>) { forall i | 0 <= i < |ds| :: IsDigit(ds[i]) }

  lemma {:induction false} DigitsBack(n: nat)
    ensures AllDigits(Digits(n)) && Digits(n) != [] && DigitsValue(Digits(n)) == n
  {
    if n >= 10 {
      DigitsBack(n / 10);
      assert Digits(n)[..|Digits(n)| - 1] == Digits(n / 10);
    } else {
      assert DigitsValue([]) == 0 && [0x30 + n][..0] == [];
    }
  }

  lemma {:induction false} SkipDigitsOver(s: seq<byte>, pos: nat, ds: seq<byte>)
    requires StandsAt(s, pos, ds) && AllDigits(ds) && (pos + |ds| < |s| ==> !IsDigit(s[pos + |ds|]))
    ensures SkipDigits(s, pos) == pos + |ds|
    decreases |ds|
  {
    if ds != [] {
      StandsByte(s, pos, ds, 0);
      assert ds == [ds[0]] + ds[1..];
      StandsSplit(s, pos, [ds[0]], ds[1..]);
      SkipDigitsOver(s, pos + 1, ds[1..]);
    }
  }

  /** Nothing follows that would belong to a number. */
  predicate Stops(s: seq<byte>, pos: nat) {
    pos < |s| ==> !IsDigit(s[pos]) && s[pos] != DOT && s[pos] != 0x65 && s[pos] != 0x45
  }

  /** What parsing makes of the text of an integer. */
  function RoundedInt(n: int): int {
    if Abs(n) < EXACT_LIMIT then n
    else
      var (m, e) := Significant(Abs(n));
      Signed(n < 0, Nearest(m * Pow(10, if e >= 5 then e - 5 else 0)))
  }

  lemma {:induction false} PowAdd(base: nat, i: nat, j: nat)
    ensures Pow(base, i + j) == Pow(base, i) * Pow(base, j)
    decreases i
  {
    if i > 0 {
      PowAdd(base, i - 1, j);
      assert Pow(base, i + j) == base * (Pow(base, i - 1) * Pow(base, j)) == base * Pow(base, i - 1) * Pow(base, j);
    }
  }

  lemma {:induction false} BitsBelow(a: nat, k: nat)
    requires a < Pow(2, k)
    ensures BitLength(a) <= k
    decreases k
  {
    if a > 0 { BitsBelow(a / 2, k - 1); }
  }

  /** In double precision small integers are exact. */
  lemma NearestExact(a: nat)
    requires a < Pow(2, 53)
    ensures Nearest(a) == a
  {
    BitsBelow(a, 53);
    PowAdd(2, 53, 971);
    hide Pow, BitLength;
    assert Pow(2, 53) <= Pow(2, 53) * Pow(2, 971);
  }

  lemma LimitInRange()
    ensures EXACT_LIMIT < 9_000_000_000_000_000 < Pow(2, 53)
  {
    PowAdd(2, 10, 43);
    PowAdd(2, 10, 33);
    PowAdd(2, 10, 23);
    PowAdd(2, 10, 13);
    PowAdd(2, 10, 3);
    assert Pow(2, 10) == 1024 && Pow(2, 3) == 8;
  }

  lemma IntBack(n: int, s: seq<byte>, pos: nat)
    requires StandsAt(s, pos, IntText(n)) && Stops(s, pos + |IntText(n)|) && Abs(n) < EXACT_LIMIT
    ensures pos < |s| && (s[pos] == MINUS || IsDigit(s[pos])) && ParseNumber(s, pos) == (Integer(n), pos + |IntText(n)|)
  {
    hide Digits, DigitsValue, SkipDigits, Nearest, Pow;
    var ds := Digits(Abs(n));
    DigitsBack(Abs(n));
    StandsByte(s, pos, IntText(n), 0);
    var first := if n < 0 then pos + 1 else pos;
    if n < 0 { StandsSplit(s, pos, [MINUS], ds); }
    SkipDigitsOver(s, first, ds);
    assert s[first..first + |ds|] == ds && ds + [] == ds;
    LimitInRange();
    NearestExact(Abs(n));
    PowZero();
    assert Number(s[pos] == MINUS, ds, 0, IntText(n)) == Integer(n);
    assert s[pos..pos + |IntText(n)|] == IntText(n);
  }

  lemma PowZero()
    ensures Pow(10, 0) == 1
  {}

  // ---- Scientific notation ----

  lemma {:induction false} DigitsSize(n: nat)
    requires n >= 1
    ensures Pow(10, |Digits(n)| - 1) <= n < Pow(10, |Digits(n)|)
  {
    if n >= 10 { DigitsSize(n / 10); }
  }

  lemma {:induction false} PowRises(base: nat, i: nat, j: nat)
    requires base >= 1 && i <= j
    ensures Pow(base, i) <= Pow(base, j)
  {
    PowAdd(base, i, j - i);
    hide Pow;
    assert Pow(base, i) * 1 <= Pow(base, i) * Pow(base, j - i);
  }

  lemma SizeAtLeast(n: nat, k: nat)
    requires n >= Pow(10, k)
    ensures |Digits(n)| >= k + 1
  {
    hide Digits;
    if n >= 1 { DigitsSize(n); }
    if |Digits(n)| <= k { PowRises(10, |Digits(n)|, k); }
  }

  lemma SizeAtMost(n: nat, k: nat)
    requires 1 <= n < Pow(10, k)
    ensures |Digits(n)| <= k
  {
    hide Digits;
    DigitsSize(n);
    if |Digits(n)| > k { PowRises(10, k, |Digits(n)| - 1); }
  }

  lemma LimitIsPower()
    ensures Pow(10, 15) == EXACT_LIMIT && Pow(10, 5) == 100_000 && Pow(10, 6) == 1_000_000 && Pow(10, 10) == 10_000_000_000
    ensures Pow(10, 16) == 10_000_000_000_000_000
  {
    assert Pow(10, 5) == 100_000;
    PowAdd(10, 5, 5);
    PowAdd(10, 5, 10);
    PowAdd(10, 1, 15);
    PowAdd(10, 1, 5);
    assert Pow(10, 1) == 10;
  }

  /** There are six significant digits. */
  lemma SignificantIsSix(a: nat)
    requires a >= EXACT_LIMIT
    ensures var (m, e) := Significant(a); 100_000 <= m < 1_000_000 && e >= 15
    ensures var p := Pow(10, |Digits(a)| - 6); var (m, e) := Significant(a);
            |Digits(a)| >= 16 && m * Pow(10, e - 5) == HalfEven(a, p) * p
  {
    hide Digits;
    LimitIsPower();
    SizeAtLeast(a, 15);
    DigitsSize(a);
    var k := |Digits(a)| - 6;
    PowAdd(10, k, 5);
    PowAdd(10, k, 6);
    PowAdd(10, 1, k);
    hide Pow;
    QuotientIsSix(a, Pow(10, k));
    assert Pow(10, 1) == 10 by { LimitPowOne(); }
    assert 1_000_000 * Pow(10, k) == 100_000 * (10 * Pow(10, k));
  }

  lemma LimitPowOne()
    ensures Pow(10, 1) == 10
  {}

  lemma QuotientIsSix(a: nat, p: nat)
    requires p > 0 && p * 100_000 <= a < p * 1_000_000
    ensures 100_000 <= a / p < 1_000_000 && 100_000 <= HalfEven(a, p) <= 1_000_000
  {
    if a / p < 100_000 { QuotientBelow(a, p, 100_000); }
    QuotientAtMost(a, p, 1_000_000);
  }

  lemma QuotientBelow(a: nat, p: nat, k: nat)
    requires p > 0 && a / p < k
    ensures a < p * k
  {
    assert a == p * (a / p) + a % p;
    assert p * (a / p + 1) <= p * k by { ProductRises(p, a / p + 1, k); }
  }

  lemma QuotientAtMost(a: nat, p: nat, k: nat)
    requires p > 0 && a < p * k
    ensures a / p < k
  {
    assert a == p * (a / p) + a % p;
    if a / p >= k { ProductRises(p, k, a / p); }
  }

  lemma ProductRises(p: nat, i: nat, j: nat)
    requires i <= j
    ensures p * i <= p * j
  {}

  lemma {:induction false} AllDigitsTrim(ds: seq<byte>)
    requires AllDigits(ds)
    ensures AllDigits(Trim(ds)) && |Trim(ds)| <= |ds|
    decreases |ds|
  {
    if ds != [] && ds[|ds| - 1] == 0x30 { AllDigitsTrim(ds[..|ds| - 1]); }
  }

  /** Trailing zeros can be left out and made up for by a power of ten. */
  lemma {:induction false} TrimValue(d: byte, ds: seq<byte>)
    ensures |Trim(ds)| <= |ds| && DigitsValue([d] + ds) == DigitsValue([d] + Trim(ds)) * Pow(10, |ds| - |Trim(ds)|)
    decreases |ds|
  {
    hide DigitsValue, Pow;
    if ds != [] && ds[|ds| - 1] == 0x30 {
      var front := ds[..|ds| - 1];
      TrimValue(d, front);
      assert ([d] + ds)[..|[d] + ds| - 1] == [d] + front;
      ZeroLast([d] + ds);
      var k := |front| - |Trim(front)|;
      PowNext(k);
      ProductMoves(DigitsValue([d] + Trim(front)), Pow(10, k));
    } else {
      PowZero();
    }
  }

  lemma ZeroLast(ds: seq<byte>)
    requires ds != [] && ds[|ds| - 1] == 0x30
    ensures DigitsValue(ds) == DigitsValue(ds[..|ds| - 1]) * 10
  {}

  lemma PowNext(k: nat)
    ensures Pow(10, k + 1) == 10 * Pow(10, k)
  {}

  lemma ProductMoves(v: nat, p: nat)
    ensures v * p * 10 == v * (10 * p)
  {}

  /** The digits of the text of a large integer, and how far they are shifted. */
  lemma SciValue(a: nat)
    requires a >= EXACT_LIMIT
    ensures var (m, e) := Significant(a);
            var ds := Digits(m);
            var rest := Trim(ds[1..]);
            && e >= 15 && |rest| <= 5 && AllDigits(rest) && IsDigit(ds[0])
            && DigitsValue([ds[0]] + rest) * Pow(10, e - |rest|) == m * Pow(10, e - 5)
  {
    var (m, e) := Significant(a);
    SignificantIsSix(a);
    LimitIsPower();
    SizeAtLeast(m, 5);
    SizeAtMost(m, 6);
    hide Significant, Digits, Pow, Trim, DigitsValue;
    var ds := Digits(m);
    DigitsBack(m);
    AllDigitsTrim(ds[1..]);
    TrimValue(ds[0], ds[1..]);
    assert [ds[0]] + ds[1..] == ds;
    var rest := Trim(ds[1..]);
    PowAdd(10, 5 - |rest|, e - 5);
    ProductShifts(DigitsValue([ds[0]] + rest), Pow(10, 5 - |rest|), Pow(10, e - 5));
  }

  lemma ProductShifts(v: nat, p: nat, q: nat)
    ensures v * p * q == v * (p * q)
  {}

  /** A sign, a digit, a point with more digits, and an exponent, one after the other. */
  lemma SciParts(s: seq<byte>, pos: nat, sign: seq<byte>, d: byte, rest: seq<byte>, e: nat)
    requires sign == [] || sign == [MINUS]
    requires IsDigit(d) && AllDigits(rest)
    requires var point := if rest == [] then [] else [DOT] + rest;
             var tail := [LOWER_E, PLUS] + Digits(e);
             StandsAt(s, pos, sign + ([d] + (point + tail))) && Stops(s, pos + |sign| + 1 + |point| + |tail|)
    ensures var first := pos + |sign|;
            var end := first + 1 + (if rest == [] then 0 else 1 + |rest|) + 2 + |Digits(e)|;
            && first + 1 <= end <= |s| && (s[pos] == MINUS || IsDigit(s[pos])) && (s[pos] == MINUS <==> sign == [MINUS])
            && SkipDigits(s, first) == first + 1 && s[first..first + 1] == [d] && PointDigits(s, first + 1) == rest
            && ParseExponent(s, SkipPoint(s, first + 1)) == (e, end)
  {
    hide Digits, SkipDigits, StandsAt, Stops, ParseExponent, SkipPoint, PointDigits, AllDigits;
    var first := pos + |sign|;
    var point := if rest == [] then [] else [DOT] + rest;
    var tail := [LOWER_E, PLUS] + Digits(e);
    SciStands(s, pos, sign, [d], point, tail);
    if sign != [] { StandsByte(s, pos, sign, 0); }
    FirstDigit(s, first, d, point + tail);
    PointBack(s, first + 1, rest, tail);
    ExponentBack(s, first + 1 + |point|, e);
    SliceIs(s, first, [d]);
  }

  lemma SciStands(s: seq<byte>, pos: nat, sign: seq<byte>, one: seq<byte>, point: seq<byte>, tail: seq<byte>)
    requires StandsAt(s, pos, sign + (one + (point + tail)))
    ensures var first := pos + |sign|;
            && StandsAt(s, pos, sign) && StandsAt(s, first, one) && StandsAt(s, first + |one|, point + tail)
            && StandsAt(s, first + |one|, point) && StandsAt(s, first + |one| + |point|, tail)
  {
    hide StandsAt;
    StandsSplit(s, pos, sign, one + (point + tail));
    StandsSplit(s, pos + |sign|, one, point + tail);
    StandsSplit(s, pos + |sign| + |one|, point, tail);
  }

  lemma SciBack(n: int, s: seq<byte>, pos: nat)
    requires Abs(n) >= EXACT_LIMIT && StandsAt(s, pos, NumText(n)) && Stops(s, pos + |NumText(n)|)
    ensures pos < |s| && (s[pos] == MINUS || IsDigit(s[pos])) && ParseNumber(s, pos) == (Integer(RoundedInt(n)), pos + |NumText(n)|)
  {
    hide Significant, Digits, Pow, Trim, DigitsValue, SkipDigits, Nearest, StandsAt, Stops, ParseExponent, SkipPoint, PointDigits, AllDigits;
    var (m, e) := Significant(Abs(n));
    var ds := Digits(m);
    var rest := Trim(ds[1..]);
    SciValue(Abs(n));
    var sign: seq<byte> := if n < 0 then [MINUS] else [];
    var point := if rest == [] then [] else [DOT] + rest;
    assert NumText(n) == sign + ([ds[0]] + (point + ([LOWER_E, PLUS] + Digits(e))));
    SciParts(s, pos, sign, ds[0], rest, e);
    var lexeme := s[pos..pos + |NumText(n)|];
    SciNumber(n, [ds[0]] + rest, e - |rest|, m, e, lexeme);
  }

  lemma SciNumber(n: int, ds: seq<byte>, scale: nat, m: nat, e: nat, lexeme: seq<byte>)
    requires Abs(n) >= EXACT_LIMIT && (m, e) == Significant(Abs(n)) && e >= 5 && DigitsValue(ds) * Pow(10, scale) == m * Pow(10, e - 5)
    ensures Number(n < 0, ds, scale, lexeme) == Integer(RoundedInt(n))
  {
    hide Significant, Pow, DigitsValue, Nearest;
  }

  lemma SliceIs(s: seq<byte>, pos: nat, t: seq<byte>)
    requires StandsAt(s, pos, t)
    ensures pos + |t| <= |s| && s[pos..pos + |t|] == t
  {}

  /** One digit before the point or the exponent. */
  lemma FirstDigit(s: seq<byte>, pos: nat, d: byte, rest: seq<byte>)
    requires StandsAt(s, pos, [d]) && StandsAt(s, pos + 1, rest) && IsDigit(d) && rest != [] && (rest[0] == DOT || rest[0] == LOWER_E)
    ensures pos < |s| && s[pos] == d && SkipDigits(s, pos) == pos + 1
  {
    hide StandsAt;
    StandsByte(s, pos, [d], 0);
    StandsByte(s, pos + 1, rest, 0);
    SkipDigitsOver(s, pos, [d]);
  }

  lemma PointBack(s: seq<byte>, pos: nat, rest: seq<byte>, tail: seq<byte>)
    requires StandsAt(s, pos, if rest == [] then [] else [DOT] + rest) && AllDigits(rest)
    requires tail != [] && tail[0] == LOWER_E && StandsAt(s, pos + (if rest == [] then 0 else 1 + |rest|), tail)
    ensures pos <= |s| && SkipPoint(s, pos) == pos + (if rest == [] then 0 else 1 + |rest|) && PointDigits(s, pos) == rest
  {
    hide StandsAt, SkipDigits, AllDigits;
    StandsByte(s, pos + (if rest == [] then 0 else 1 + |rest|), tail, 0);
    if rest != [] {
      StandsByte(s, pos, [DOT] + rest, 0);
      StandsSplit(s, pos, [DOT], rest);
      SkipDigitsOver(s, pos + 1, rest);
      SliceIs(s, pos + 1, rest);
    }
  }

  lemma ExponentBack(s: seq<byte>, pos: nat, e: nat)
    requires StandsAt(s, pos, [LOWER_E, PLUS] + Digits(e)) && Stops(s, pos + 2 + |Digits(e)|)
    ensures pos <= |s| && ParseExponent(s, pos) == (e, pos + 2 + |Digits(e)|)
  {
    hide StandsAt, SkipDigits, AllDigits, Digits, DigitsValue;
    StandsByte(s, pos, [LOWER_E, PLUS] + Digits(e), 0);
    StandsByte(s, pos, [LOWER_E, PLUS] + Digits(e), 1);
    StandsSplit(s, pos, [LOWER_E, PLUS], Digits(e));
    DigitsBack(e);
    SkipDigitsOver(s, pos + 2, Digits(e));
    SliceIs(s, pos + 2, Digits(e));
  }

  lemma NumBack(n: int, s: seq<byte>, pos: nat)
    requires StandsAt(s, pos, NumText(n)) && Stops(s, pos + |NumText(n)|)
    ensures pos < |s| && (s[pos] == MINUS || IsDigit(s[pos])) && ParseNumber(s, pos) == (Integer(RoundedInt(n)), pos + |NumText(n)|)
  {
    hide ParseNumber, IntText, SciText, StandsAt, Stops;
    if Abs(n) < EXACT_LIMIT { IntBack(n, s, pos); } else { SciBack(n, s, pos); }
  }

  // ---- Strings ----

  lemma CharBack(c: byte, s: seq<byte>, pos: nat)
    requires StandsAt(s, pos, EscapeOf(c))
    ensures if |EscapeOf(c)| == 1 then Is(s, pos, c) && c != QUOTE && c != BACKSLASH
            else |EscapeOf(c)| == 2 && Is(s, pos, BACKSLASH) && pos + 1 < |s| && Unescape(s[pos + 1]) == c
  {
    hide StandsAt;
    StandsByte(s, pos, EscapeOf(c), 0);
    if |EscapeOf(c)| > 1 { StandsByte(s, pos, EscapeOf(c), 1); }
  }

  lemma {:induction false} CharsBack(t: seq<byte>, s: seq<byte>, pos: nat)
    requires StandsAt(s, pos, Escaped(t) + [QUOTE])
    ensures ParseChars(s, pos) == Some((t, pos + |Escaped(t)| + 1))
    decreases |t|
  {
    hide StandsAt, EscapeOf;
    if t == [] {
      assert Escaped(t) + [QUOTE] == [QUOTE];
      StandsByte(s, pos, [QUOTE], 0);
    } else {
      assert Escaped(t) + [QUOTE] == EscapeOf(t[0]) + (Escaped(t[1..]) + [QUOTE]);
      StandsSplit(s, pos, EscapeOf(t[0]), Escaped(t[1..]) + [QUOTE]);
      CharsBack(t[1..], s, pos + |EscapeOf(t[0])|);
      CharBack(t[0], s, pos);
      assert [t[0]] + t[1..] == t;
    }
  }

  lemma StrBack(t: seq<byte>, s: seq<byte>, pos: nat)
    requires StandsAt(s, pos, Quoted(t))
    ensures Is(s, pos, QUOTE) && ParseStr(s, pos) == Some((t, pos + |Quoted(t)|))
  {
    hide Escaped, ParseChars;
    StandsSplit(s, pos, [QUOTE], Escaped(t) + [QUOTE]);
    StandsByte(s, pos, [QUOTE], 0);
    CharsBack(t, s, pos + 1);
  }

  // ---- Values ----

  predicate DistinctKeys(items: seq<Member>) { forall i, j | 0 <= i < j < |items| :: items[i].key != items[j].key }

  /** Values made of integers, strings and tables with one entry a key. */
  predicate Plain(v: Value) {
    match v
    case Fraction(_) => false
    case List(elems) => PlainAll(elems)
    case Dict(items) => DistinctKeys(items) && PlainItems(items)
    case _ => true
  }

  predicate PlainAll(vs: seq<Value>) { vs == [] || (Plain(vs[0]) && PlainAll(vs[1..])) }

  predicate PlainItems(items: seq<Member>) { items == [] || (Plain(items[0].value) && PlainItems(items[1..])) }

  /** The value with every integer in it as its text has it. */
  function Rounded(v: Value): Value
    decreases v, 0
  {
    match v
    case Integer(n) => Integer(RoundedInt(n))
    case List(elems) => List(RoundedAll(elems))
    case Dict(items) => Dict(RoundedItems(items))
    case _ => v
  }

  function RoundedAll(vs: seq<Value>): (r: seq<Value>)
    ensures |r| == |vs|
    decreases vs, 1
  {
    if vs == [] then [] else [Rounded(vs[0])] + RoundedAll(vs[1..])
  }

  function RoundedMember(m: Member): Member
    decreases m, 1
  {
    Member(m.key, Rounded(m.value))
  }

  function RoundedItems(items: seq<Member>): (r: seq<Member>)
    ensures |r| == |items|
    decreases items, 2
  {
    if items == [] then [] else [RoundedMember(items[0])] + RoundedItems(items[1..])
  }

  /** The text of the integer has all there is to it. */
  predicate IsExact(n: int) { Abs(n) < EXACT_LIMIT || RoundedInt(n) == n }

  /** Every integer in the value is exact. */
  predicate Exact(v: Value) {
    match v
    case Integer(n) => IsExact(n)
    case List(elems) => ExactAll(elems)
    case Dict(items) => ExactItems(items)
    case _ => true
  }

  predicate ExactAll(vs: seq<Value>) { vs == [] || (Exact(vs[0]) && ExactAll(vs[1..])) }

  predicate ExactItems(items: seq<Member>) { items == [] || (Exact(items[0].value) && ExactItems(items[1..])) }

  lemma ReadsFirst(s: seq<byte>, pos: nat, word: seq<byte>)
    requires word != []
    ensures Reads(s, pos, word) ==> Is(s, pos, word[0])
  {
    if Reads(s, pos, word) { assert s[pos..pos + |word|][0] == s[pos]; }
  }

  /** No word starts with this byte. */
  lemma NoWord(s: seq<byte>, pos: nat)
    requires pos < |s| && s[pos] != 0x6e && s[pos] != 0x74 && s[pos] != 0x66
    ensures !Reads(s, pos, NULL_TEXT) && !Reads(s, pos, TRUE_TEXT) && !Reads(s, pos, FALSE_TEXT)
  {
    ReadsFirst(s, pos, NULL_TEXT);
    ReadsFirst(s, pos, TRUE_TEXT);
    ReadsFirst(s, pos, FALSE_TEXT);
  }

  lemma WordBack(s: seq<byte>, pos: nat, depth: nat, v: Value)
    requires v == Null || v.Bool?
    requires StandsAt(s, pos, Text(v, depth, 0)) && depth <= MAX_DEPTH
    ensures ParseVal(s, pos, depth) == Some((v, pos + |Text(v, depth, 0)|))
  {
    hide ParseStr, ParseElems, ParseItems, ParseNumber;
    var word := Text(v, depth, 0);
    StandsByte(s, pos, word, 0);
    assert Reads(s, pos, word);
    ReadsFirst(s, pos, NULL_TEXT);
    ReadsFirst(s, pos, TRUE_TEXT);
  }

  lemma {:induction false} ValBack(v: Value, s: seq<byte>, pos: nat, depth: nat, indent: int)
    requires Plain(v) && depth + Height(v) <= MAX_DEPTH && StandsAt(s, pos, Text(v, depth, indent)) && Stops(s, pos + |Text(v, depth, indent)|)
    ensures ParseVal(s, pos, depth) == Some((Rounded(v), pos + |Text(v, depth, indent)|))
    decreases v, 1
  {
    hide StandsAt, Stops, ParseStr, ParseElems, ParseItems, ParseNumber, Reads, NumText, RoundedInt, Quoted, PlainAll, PlainItems, DistinctKeys;
    match v
    case Null => WordBack(s, pos, depth, v);
    case Bool(b) => WordBack(s, pos, depth, v);
    case Integer(n) =>
      NumBack(n, s, pos);
      NoWord(s, pos);
    case Str(t) =>
      StrBack(t, s, pos);
      NoWord(s, pos);
    case List(elems) => ListBack(elems, s, pos, depth, indent);
    case Dict(items) => DictBack(items, s, pos, depth, indent);
    case Fraction(_) =>
  }

  lemma {:induction false} ListBack(elems: seq<Value>, s: seq<byte>, pos: nat, depth: nat, indent: int)
    requires PlainAll(elems) && depth + HeightAll(elems) <= MAX_DEPTH && StandsAt(s, pos, Text(List(elems), depth, indent))
    ensures ParseVal(s, pos, depth) == Some((List(RoundedAll(elems)), pos + |Text(List(elems), depth, indent)|))
    decreases elems, 1
  {
    hide StandsAt, ParseStr, ParseElems, ParseItems, ParseNumber, Reads, PlainAll, HeightAll, ElemsText, Indent;
    if elems == [] {
      assert [LIST_OPEN, LIST_CLOSE] == [LIST_OPEN] + ([] + [LIST_CLOSE]);
      StandsSplit(s, pos, [LIST_OPEN], [] + [LIST_CLOSE]);
      SkipTo(s, pos + 1, [], LIST_CLOSE);
    } else {
      var w := Indent(depth + 1, indent, []);
      IndentIsSpace(depth + 1, indent, []);
      assert Text(List(elems), depth, indent) == [LIST_OPEN] + (w + ElemsText(elems, depth, indent));
      StandsSplit(s, pos, [LIST_OPEN], w + ElemsText(elems, depth, indent));
      StandsSplit(s, pos + 1, w, ElemsText(elems, depth, indent));
      ElemsBack(elems, s, pos + 1 + |w|, depth, indent);
      ElemsStart(elems, s, pos + 1 + |w|, depth, indent);
      SkipOver(s, pos + 1, w);
    }
    assert [LIST_OPEN][0] == LIST_OPEN;
    StandsByte(s, pos, [LIST_OPEN], 0);
    NoWord(s, pos);
  }

  /** Where the elements start there is neither white space nor a closing bracket. */
  lemma ElemsStart(elems: seq<Value>, s: seq<byte>, pos: nat, depth: nat, indent: int)
    requires elems != [] && PlainAll(elems) && StandsAt(s, pos, ElemsText(elems, depth, indent))
    ensures SkipWs(s, pos) == pos && pos < |s| && s[pos] != LIST_CLOSE
  {
    hide StandsAt, NumText, Quoted, ElemsText;
    var first := Text(elems[0], depth + 1, indent);
    StartOfElems(elems, depth, indent);
    StartOf(elems[0], depth + 1, indent);
    StandsByte(s, pos, ElemsText(elems, depth, indent), 0);
  }

  lemma StartOfElems(elems: seq<Value>, depth: nat, indent: int)
    requires elems != []
    ensures |ElemsText(elems, depth, indent)| >= |Text(elems[0], depth + 1, indent)|
    ensures Text(elems[0], depth + 1, indent) <= ElemsText(elems, depth, indent)
  {
    hide Text;
  }

  /** The first byte of the text of a value. */
  lemma StartOf(v: Value, depth: nat, indent: int)
    requires Plain(v)
    ensures Text(v, depth, indent) != []
    ensures var c := Text(v, depth, indent)[0]; !IsSpace(c) && c != LIST_CLOSE && c != DICT_CLOSE
  {
    hide ElemsText, ItemsText, Digits, NumText;
    if v.Integer? { NumStart(v.n); }
  }

  lemma NumStart(n: int)
    ensures NumText(n) != [] && (NumText(n)[0] == MINUS || IsDigit(NumText(n)[0]))
  {
    hide Digits, Trim;
    DigitsBack(Abs(n));
    DigitsBack(Significant(Abs(n)).0);
  }

  /** The last element, and the closing bracket. */
  lemma LastElem(s: seq<byte>, pos: nat, depth: nat, v: Value, end: nat, w: seq<byte>)
    requires pos <= |s| && end <= |s| && ParseVal(s, pos, depth + 1) == Some((v, end)) && StandsAt(s, end, w + [LIST_CLOSE]) && AllSpace(w)
    ensures ParseElems(s, pos, depth) == Some(([v], end + |w| + 1))
  {
    hide ParseVal, StandsAt, AllSpace;
    SkipTo(s, end, w, LIST_CLOSE);
  }

  /** An element with more to come after the comma. */
  lemma MoreElems(s: seq<byte>, pos: nat, depth: nat, v: Value, end: nat, w: seq<byte>, rest: seq<Value>, next: nat)
    requires pos <= |s| && end < |s| && ParseVal(s, pos, depth + 1) == Some((v, end))
    requires StandsAt(s, end, [COMMA]) && StandsAt(s, end + 1, w) && AllSpace(w)
    requires ParseElems(s, end + 1 + |w|, depth) == Some((rest, next))
    ensures ParseElems(s, pos, depth) == Some(([v] + rest, next))
  {
    hide ParseVal, StandsAt, AllSpace;
    assert [] + [COMMA] == [COMMA];
    SkipTo(s, end, [], COMMA);
    ElemsFromSpace(s, end + 1, w, depth);
  }

  lemma {:induction false} ElemsBack(elems: seq<Value>, s: seq<byte>, pos: nat, depth: nat, indent: int)
    requires elems != [] && PlainAll(elems) && depth + HeightAll(elems) <= MAX_DEPTH
    requires StandsAt(s, pos, ElemsText(elems, depth, indent))
    ensures ParseElems(s, pos, depth) == Some((RoundedAll(elems), pos + |ElemsText(elems, depth, indent)|))
    decreases elems, 0
  {
    hide StandsAt, Text, Plain, Height, Indent, ParseVal, ParseElems, Stops, AllSpace;
    var first := Text(elems[0], depth + 1, indent);
    var end := pos + |first|;
    if |elems| == 1 {
      var w := Indent(depth, indent, []);
      NoSpace();
      IndentIsSpace(depth, indent, []);
      StandsSplit(s, pos, first, w + [LIST_CLOSE]);
      AfterSpace(s, end, w, LIST_CLOSE);
      ValBack(elems[0], s, pos, depth + 1, indent);
      LastElem(s, pos, depth, Rounded(elems[0]), end, w);
      assert elems[1..] == [] && RoundedAll(elems) == [Rounded(elems[0])];
    } else {
      var w, more := Indent(depth + 1, indent, [SPACE]), ElemsText(elems[1..], depth, indent);
      IndentIsSpace(depth + 1, indent, [SPACE]);
      assert ElemsText(elems, depth, indent) == first + ([COMMA] + (w + more));
      StandsSplit(s, pos, first, [COMMA] + (w + more));
      CommaThen(s, end, w, more);
      ValBack(elems[0], s, pos, depth + 1, indent);
      ElemsBack(elems[1..], s, end + 1 + |w|, depth, indent);
      MoreElems(s, pos, depth, Rounded(elems[0]), end, w, RoundedAll(elems[1..]), end + 1 + |w| + |more|);
    }
  }

  lemma NoSpace()
    ensures AllSpace([])
  {}

  /** After an element: a comma, white space, and the rest. */
  lemma CommaThen(s: seq<byte>, end: nat, w: seq<byte>, more: seq<byte>)
    requires StandsAt(s, end, [COMMA] + (w + more))
    ensures end < |s| && StandsAt(s, end, [COMMA]) && StandsAt(s, end + 1, w) && StandsAt(s, end + 1 + |w|, more) && Stops(s, end)
  {
    hide StandsAt, Stops;
    StandsSplit(s, end, [COMMA], w + more);
    StandsSplit(s, end + 1, w, more);
    assert [] + [COMMA] == [COMMA];
    NoSpace();
    AfterSpace(s, end, [], COMMA);
    StandsByte(s, end, [COMMA], 0);
  }

  lemma AfterSpace(s: seq<byte>, pos: nat, w: seq<byte>, c: byte)
    requires StandsAt(s, pos, w + [c]) && AllSpace(w) && !IsDigit(c) && c != DOT && c != 0x65 && c != 0x45
    ensures Stops(s, pos)
  {
    StandsByte(s, pos, w + [c], 0);
  }

  lemma {:induction false} DictBack(items: seq<Member>, s: seq<byte>, pos: nat, depth: nat, indent: int)
    requires DistinctKeys(items) && PlainItems(items) && depth + HeightItems(items) <= MAX_DEPTH
    requires StandsAt(s, pos, Text(Dict(items), depth, indent))
    ensures ParseVal(s, pos, depth) == Some((Dict(RoundedItems(items)), pos + |Text(Dict(items), depth, indent)|))
    decreases items, 1
  {
    hide StandsAt, ParseStr, ParseElems, ParseItems, ParseNumber, Reads, PlainItems, HeightItems, ItemsText, Indent, DistinctKeys;
    if items == [] {
      assert [DICT_OPEN, DICT_CLOSE] == [DICT_OPEN] + ([] + [DICT_CLOSE]);
      StandsSplit(s, pos, [DICT_OPEN], [] + [DICT_CLOSE]);
      SkipTo(s, pos + 1, [], DICT_CLOSE);
    } else {
      var w := Indent(depth + 1, indent, []);
      IndentIsSpace(depth + 1, indent, []);
      assert Text(Dict(items), depth, indent) == [DICT_OPEN] + (w + ItemsText(items, depth, indent));
      StandsSplit(s, pos, [DICT_OPEN], w + ItemsText(items, depth, indent));
      StandsSplit(s, pos + 1, w, ItemsText(items, depth, indent));
      assert [] + RoundedItems(items) == RoundedItems(items);
      RoundedKeys(items);
      ItemsBack([], items, s, pos + 1 + |w|, depth, indent);
      ItemsStart(items, s, pos + 1 + |w|, depth, indent);
      SkipOver(s, pos + 1, w);
    }
    StandsByte(s, pos, [DICT_OPEN], 0);
    NoWord(s, pos);
  }

  lemma {:induction false} RoundedAt(items: seq<Member>, i: nat)
    requires i < |items|
    ensures RoundedItems(items)[i] == RoundedMember(items[i])
    decreases i
  {
    if i > 0 { RoundedAt(items[1..], i - 1); }
  }

  lemma RoundedKeys(items: seq<Member>)
    requires DistinctKeys(items)
    ensures DistinctKeys(RoundedItems(items))
  {
    hide RoundedItems;
    forall i, j | 0 <= i < j < |items| ensures RoundedItems(items)[i].key != RoundedItems(items)[j].key {
      RoundedAt(items, i);
      RoundedAt(items, j);
    }
  }

  lemma ItemsStart(items: seq<Member>, s: seq<byte>, pos: nat, depth: nat, indent: int)
    requires items != [] && StandsAt(s, pos, ItemsText(items, depth, indent))
    ensures SkipWs(s, pos) == pos && pos < |s| && s[pos] != DICT_CLOSE
  {
    hide StandsAt, Text;
    StandsByte(s, pos, ItemsText(items, depth, indent), 0);
  }

  /** The key, the colon and the value of an entry have been read. */
  ghost predicate EntryRead(s: seq<byte>, pos: nat, depth: nat, m: Member, end: nat) {
    && pos <= |s| && SkipWs(s, pos) == pos && ParseStr(s, pos) == Some((m.key, pos + |Quoted(m.key)|))
    && var q := pos + |Quoted(m.key)|;
       q < |s| && SkipWs(s, q) == q && Is(s, q, COLON) && ParseVal(s, q + 1, depth + 1) == Some((m.value, end)) && end <= |s|
  }

  lemma LastItem(s: seq<byte>, pos: nat, depth: nat, done: seq<Member>, m: Member, end: nat, w: seq<byte>)
    requires EntryRead(s, pos, depth, m, end) && StandsAt(s, end, w + [DICT_CLOSE]) && AllSpace(w)
    ensures ParseItems(s, pos, depth, done) == Some((Put(done, m.key, m.value), end + |w| + 1))
  {
    hide ParseVal, ParseStr, StandsAt, AllSpace, Put, Quoted;
    SkipTo(s, end, w, DICT_CLOSE);
  }

  lemma MoreItems(s: seq<byte>, pos: nat, depth: nat, done: seq<Member>, m: Member, end: nat, w: seq<byte>)
    requires EntryRead(s, pos, depth, m, end) && end < |s| && StandsAt(s, end, [COMMA]) && StandsAt(s, end + 1, w) && AllSpace(w)
    ensures end + 1 + |w| <= |s|
    ensures ParseItems(s, pos, depth, done) == ParseItems(s, end + 1 + |w|, depth, Put(done, m.key, m.value))
  {
    hide ParseVal, ParseStr, AllSpace, Put, Quoted, StandsAt, ParseItems;
    assert [] + [COMMA] == [COMMA];
    NoSpace();
    SkipTo(s, end, [], COMMA);
    EndsInside(s, end + 1, w);
    ItemsFromSpace(s, end + 1, w, depth, Put(done, m.key, m.value));
    ItemsStep(s, pos, depth, done, m, end);
  }

  lemma EndsInside(s: seq<byte>, pos: nat, w: seq<byte>)
    requires StandsAt(s, pos, w)
    ensures pos + |w| <= |s|
  {}

  lemma ItemsStep(s: seq<byte>, pos: nat, depth: nat, done: seq<Member>, m: Member, end: nat)
    requires EntryRead(s, pos, depth, m, end) && SkipWs(s, end) == end && Is(s, end, COMMA)
    ensures ParseItems(s, pos, depth, done) == ParseItems(s, end + 1, depth, Put(done, m.key, m.value))
  {
    hide ParseVal, ParseStr, Put, Quoted, SkipWs;
  }

  lemma {:induction false} ItemsBack(done: seq<Member>, items: seq<Member>, s: seq<byte>, pos: nat, depth: nat, indent: int)
    requires items != [] && DistinctKeys(done + RoundedItems(items)) && PlainItems(items) && depth + HeightItems(items) <= MAX_DEPTH
    requires StandsAt(s, pos, ItemsText(items, depth, indent))
    ensures ParseItems(s, pos, depth, done) == Some((done + RoundedItems(items), pos + |ItemsText(items, depth, indent)|))
    decreases items, 0
  {
    hide StandsAt, Text, Plain, Height, Indent, ParseVal, ParseItems, Stops, Quoted, ParseStr, Put, DistinctKeys, EntryRead, AllSpace, SkipWs;
    var m, got, end := items[0], RoundedMember(items[0]), pos + |Quoted(items[0].key)| + 2 + |Text(items[0].value, depth + 1, indent)|;
    NextIsNew(done, RoundedItems(items));
    PutNew(done, got.key, got.value);
    assert [got] == [Member(got.key, got.value)];
    if |items| == 1 {
      var w := Indent(depth, indent, []);
      IndentIsSpace(depth, indent, []);
      OneItem(items, depth, indent);
      ItemBack(m, w + [DICT_CLOSE], s, pos, depth, indent);
      AfterSpace(s, end, w, DICT_CLOSE);
      ValBack(m.value, s, pos + |Quoted(m.key)| + 2, depth + 1, indent);
      EntryBack(s, pos, depth, got, end);
      LastItem(s, pos, depth, done, got, end, w);
      assert items[1..] == [] && RoundedItems(items) == [got];
    } else {
      var w, more := Indent(depth + 1, indent, [SPACE]), ItemsText(items[1..], depth, indent);
      IndentIsSpace(depth + 1, indent, [SPACE]);
      FirstItem(items, depth, indent);
      ItemBack(m, [COMMA] + (w + more), s, pos, depth, indent);
      CommaThen(s, end, w, more);
      ValBack(m.value, s, pos + |Quoted(m.key)| + 2, depth + 1, indent);
      EntryBack(s, pos, depth, got, end);
      MoreItems(s, pos, depth, done, got, end, w);
      assert done + [got] + RoundedItems(items[1..]) == done + RoundedItems(items);
      ItemsBack(done + [got], items[1..], s, end + 1 + |w|, depth, indent);
    }
  }

  function ItemText(m: Member, depth: nat, indent: int, rest: seq<byte>): seq<byte> {
    Quoted(m.key) + ([COLON] + ([SPACE] + (Text(m.value, depth + 1, indent) + rest)))
  }

  lemma OneItem(items: seq<Member>, depth: nat, indent: int)
    requires |items| == 1
    ensures ItemsText(items, depth, indent) == ItemText(items[0], depth, indent, Indent(depth, indent, []) + [DICT_CLOSE])
  {
    hide Text, Quoted, Indent;
  }

  lemma FirstItem(items: seq<Member>, depth: nat, indent: int)
    requires |items| > 1
    ensures ItemsText(items, depth, indent) ==
            ItemText(items[0], depth, indent, [COMMA] + (Indent(depth + 1, indent, [SPACE]) + ItemsText(items[1..], depth, indent)))
  {
    hide Text, Quoted, Indent;
  }

  /** One entry of a dictionary, and what follows it. */
  lemma ItemBack(m: Member, rest: seq<byte>, s: seq<byte>, pos: nat, depth: nat, indent: int)
    requires StandsAt(s, pos, ItemText(m, depth, indent, rest))
    ensures SkipWs(s, pos) == pos && ParseStr(s, pos) == Some((m.key, pos + |Quoted(m.key)|))
    ensures var q := pos + |Quoted(m.key)|;
            && SkipWs(s, q) == q && Is(s, q, COLON) && StandsAt(s, q + 1, [SPACE]) && StandsAt(s, q + 2, Text(m.value, depth + 1, indent))
            && StandsAt(s, q + 2 + |Text(m.value, depth + 1, indent)|, rest)
  {
    hide StandsAt, Quoted, ParseStr, Text;
    KeyBack(m.key, s, pos, Text(m.value, depth + 1, indent) + rest);
    StandsSplit(s, pos + |Quoted(m.key)| + 2, Text(m.value, depth + 1, indent), rest);
  }

  lemma EntryBack(s: seq<byte>, pos: nat, depth: nat, m: Member, end: nat)
    requires pos <= |s| && SkipWs(s, pos) == pos && ParseStr(s, pos) == Some((m.key, pos + |Quoted(m.key)|))
    requires var q := pos + |Quoted(m.key)|;
             && q + 2 <= |s| && SkipWs(s, q) == q && Is(s, q, COLON) && StandsAt(s, q + 1, [SPACE])
             && ParseVal(s, q + 2, depth + 1) == Some((m.value, end)) && end <= |s|
    ensures EntryRead(s, pos, depth, m, end)
  {
    hide ParseVal, ParseStr, Quoted, SkipWs;
    OneSpace();
    ValFromSpace(s, pos + |Quoted(m.key)| + 1, [SPACE], depth + 1);
  }

  lemma OneSpace()
    ensures AllSpace([SPACE])
  {}

  /** A key, its colon and the space after it. */
  lemma KeyBack(key: seq<byte>, s: seq<byte>, pos: nat, rest: seq<byte>)
    requires StandsAt(s, pos, Quoted(key) + ([COLON] + ([SPACE] + rest)))
    ensures SkipWs(s, pos) == pos && ParseStr(s, pos) == Some((key, pos + |Quoted(key)|))
    ensures var q := pos + |Quoted(key)|; SkipWs(s, q) == q && Is(s, q, COLON) && StandsAt(s, q + 1, [SPACE]) && StandsAt(s, q + 2, rest)
  {
    hide StandsAt, Quoted, ParseStr;
    var q := pos + |Quoted(key)|;
    StandsSplit(s, pos, Quoted(key), [COLON] + ([SPACE] + rest));
    StandsSplit(s, q, [COLON], [SPACE] + rest);
    StandsSplit(s, q + 1, [SPACE], rest);
    StrBack(key, s, pos);
    StandsByte(s, q, [COLON], 0);
  }

  lemma NextIsNew(done: seq<Member>, items: seq<Member>)
    requires items != [] && DistinctKeys(done + items)
    ensures forall i | 0 <= i < |done| :: done[i].key != items[0].key
  {
    var all := done + items;
    forall i | 0 <= i < |done| ensures done[i].key != items[0].key { assert all[i] == done[i] && all[|done|] == items[0]; }
  }

  lemma {:induction false} PutNew(items: seq<Member>, key: seq<byte>, v: Value)
    requires forall i | 0 <= i < |items| :: items[i].key != key
    ensures Put(items, key, v) == items + [Member(key, v)]
    decreases |items|
  {
    if items != [] { PutNew(items[1..], key, v); }
  }

  // ---- Main results ----

  lemma {:induction false} RoundedExactly(v: Value)
    ensures Rounded(v) == v <==> Exact(v)
    decreases v, 0
  {
    hide RoundedInt;
    match v
    case Integer(n) => IntExactly(n);
    case List(elems) => RoundedAllExactly(elems);
    case Dict(items) => RoundedItemsExactly(items);
    case _ =>
  }

  lemma IntExactly(n: int)
    ensures RoundedInt(n) == n <==> IsExact(n)
  {
    hide Significant, Nearest;
  }

  lemma {:induction false} RoundedAllExactly(vs: seq<Value>)
    ensures RoundedAll(vs) == vs <==> ExactAll(vs)
    decreases vs, 1
  {
    hide Rounded, Exact;
    if vs != [] {
      RoundedExactly(vs[0]);
      RoundedAllExactly(vs[1..]);
      assert vs == [vs[0]] + vs[1..] && RoundedAll(vs)[0] == Rounded(vs[0]) && RoundedAll(vs)[1..] == RoundedAll(vs[1..]);
    }
  }

  lemma {:induction false} RoundedItemsExactly(items: seq<Member>)
    ensures RoundedItems(items) == items <==> ExactItems(items)
    decreases items, 1
  {
    hide Rounded, Exact;
    if items != [] {
      RoundedExactly(items[0].value);
      RoundedItemsExactly(items[1..]);
      assert items == [items[0]] + items[1..];
      assert RoundedItems(items)[0] == RoundedMember(items[0]) && RoundedItems(items)[1..] == RoundedItems(items[1..]);
    }
  }

  /**
   * Printing succeeds exactly up to a thousand levels. Parsing then gives the value back exactly when
   * every integer in it is below 10^15 or is the number nearest to its first six digits.
   */
  lemma PrintThenParse(v: Value, indent: int)
    requires Plain(v)
    ensures Stringify(v, indent).Some? <==> Height(v) <= MAX_DEPTH
    ensures Stringify(v, indent).Some? ==> Parse(Stringify(v, indent).value) == Some(Rounded(v))
    ensures Stringify(v, indent).Some? ==> (Parse(Stringify(v, indent).value) == Some(v) <==> Exact(v))
  {
    hide Plain, Height, Text, ParseVal, Exact, Rounded;
    if Height(v) <= MAX_DEPTH {
      var s := Text(v, 0, indent);
      assert StandsAt(s, 0, s);
      ValBack(v, s, 0, 0, indent);
      RoundedExactly(v);
    }
  }

  /** Up to nine times 10^15, where doubles are exact, what is kept are the multiples of 10^10. */
  lemma LargeIsExact(n: int)
    requires EXACT_LIMIT <= Abs(n) < 9_000_000_000_000_000
    ensures IsExact(n) <==> Abs(n) % 10_000_000_000 == 0
  {
    hide Digits, Pow, Significant, Nearest;
    var a := Abs(n);
    LimitIsPower();
    SizeAtLeast(a, 15);
    SizeAtMost(a, 16);
    SignificantIsSix(a);
    LimitInRange();
    var p := 10_000_000_000;
    HalfBelow(a, p);
    NearestExact(HalfEven(a, p) * p);
  }

  lemma HalfBelow(a: nat, p: nat)
    requires p == 10_000_000_000 && a < 9_000_000_000_000_000
    ensures HalfEven(a, p) * p <= 9_000_000_000_000_000 && (HalfEven(a, p) * p == a <==> a % p == 0)
  {}

  /** Printed as 1.23457e+15. */
  lemma LargeIsRounded()
    ensures var v := Integer(1_234_567_890_123_456); Stringify(v, 0).Some? && Parse(Stringify(v, 0).value) != Some(v)
  {
    hide Stringify, Parse, IsExact;
    var v := Integer(1_234_567_890_123_456);
    LargeIsExact(v.n);
    PrintThenParse(v, 0);
  }

  // ---- Control bytes ----

  /** No byte that RFC 8259, section 7, bars from strings. */
  predicate NoControls(t: seq<byte>) { forall i | 0 <= i < |t| :: t[i] >= 0x20 }

  /** The control bytes of the string are those with a short escape. */
  predicate OnlyShort(s: seq<byte>) { forall i | 0 <= i < |s| && s[i] < 0x20 :: s[i] in {8, 9, 10, 12, 13} }

  lemma {:induction false} EscapedControls(s: seq<byte>)
    ensures NoControls(Escaped(s)) <==> OnlyShort(s)
    decreases |s|
  {
    hide EscapeOf;
    if s != [] {
      EscapedControls(s[1..]);
      EscapeControls(s[0]);
      ControlsJoin(EscapeOf(s[0]), Escaped(s[1..]));
      ShortFirst(s);
    }
  }

  lemma EscapeControls(c: byte)
    ensures NoControls(EscapeOf(c)) <==> (c < 0x20 ==> c in {8, 9, 10, 12, 13})
  {
    if c < 0x20 && c !in {8, 9, 10, 12, 13} { assert EscapeOf(c)[0] < 0x20; }
  }

  lemma ControlsJoin(a: seq<byte>, b: seq<byte>)
    ensures NoControls(a + b) <==> NoControls(a) && NoControls(b)
  {
    if NoControls(a + b) {
      forall i | 0 <= i < |a| ensures a[i] >= 0x20 { assert (a + b)[i] == a[i]; }
      forall i | 0 <= i < |b| ensures b[i] >= 0x20 { assert (a + b)[|a| + i] == b[i]; }
    }
  }

  lemma ShortFirst(s: seq<byte>)
    requires s != []
    ensures OnlyShort(s) <==> (s[0] < 0x20 ==> s[0] in {8, 9, 10, 12, 13}) && OnlyShort(s[1..])
  {
    if OnlyShort(s[1..]) && (s[0] < 0x20 ==> s[0] in {8, 9, 10, 12, 13}) {
      forall i | 0 <= i < |s| && s[i] < 0x20 ensures s[i] in {8, 9, 10, 12, 13} {
        if i > 0 { assert s[1..][i - 1] == s[i]; }
      }
    }
  }

  /** A printed string keeps to RFC 8259, section 7, exactly when its control bytes all have a short escape. */
  lemma QuotedControls(s: seq<byte>)
    ensures NoControls(Quoted(s)) <==> OnlyShort(s)
  {
    hide NoControls, OnlyShort, Escaped;
    EscapedControls(s);
    ControlsJoin([QUOTE], Escaped(s) + [QUOTE]);
    ControlsJoin(Escaped(s), [QUOTE]);
    QuoteIsNone();
  }

  lemma QuoteIsNone()
    ensures NoControls([QUOTE])
  {}

  /** Every string and key in the value has only control bytes with a short escape. */
  predicate Clean(v: Value) {
    match v
    case Str(s) => OnlyShort(s)
    case List(elems) => CleanAll(elems)
    case Dict(items) => CleanItems(items)
    case _ => true
  }

  predicate CleanAll(vs: seq<Value>) { vs == [] || (Clean(vs[0]) && CleanAll(vs[1..])) }

  predicate CleanItems(items: seq<Member>) {
    items == [] || (OnlyShort(items[0].key) && Clean(items[0].value) && CleanItems(items[1..]))
  }

  /** The only control bytes of the text are the newlines of the indentation. */
  predicate NoRaw(t: seq<byte>) { forall i | 0 <= i < |t| :: t[i] >= 0x20 || t[i] == NEWLINE }

  lemma RawJoin(a: seq<byte>, b: seq<byte>)
    ensures NoRaw(a + b) <==> NoRaw(a) && NoRaw(b)
  {
    if NoRaw(a + b) {
      forall i | 0 <= i < |a| ensures a[i] >= 0x20 || a[i] == NEWLINE { assert (a + b)[i] == a[i]; }
      forall i | 0 <= i < |b| ensures b[i] >= 0x20 || b[i] == NEWLINE { assert (a + b)[|a| + i] == b[i]; }
    }
  }

  /** In a printed string even a newline is escaped, so nothing is lost by not counting newlines. */
  lemma {:induction false} EscapedRaw(s: seq<byte>)
    ensures NoRaw(Escaped(s)) <==> NoControls(Escaped(s))
    decreases |s|
  {
    hide EscapeOf;
    if s != [] {
      EscapedRaw(s[1..]);
      EscapeRaw(s[0]);
      ControlsJoin(EscapeOf(s[0]), Escaped(s[1..]));
      RawJoin(EscapeOf(s[0]), Escaped(s[1..]));
    }
  }

  lemma EscapeRaw(c: byte)
    ensures NoRaw(EscapeOf(c)) <==> NoControls(EscapeOf(c))
  {
    if c < 0x20 && c !in {8, 9, 10, 12, 13} { assert EscapeOf(c)[0] < 0x20 && EscapeOf(c)[0] != NEWLINE; }
  }

  lemma QuotedRaw(s: seq<byte>)
    ensures NoRaw(Quoted(s)) <==> OnlyShort(s)
  {
    hide OnlyShort, Escaped, NoControls;
    EscapedControls(s);
    EscapedRaw(s);
    RawJoin([QUOTE], Escaped(s) + [QUOTE]);
    RawJoin(Escaped(s), [QUOTE]);
    assert NoRaw([QUOTE]);
  }

  lemma {:induction false} DigitsRaw(n: nat)
    ensures NoRaw(Digits(n))
  {
    if n >= 10 {
      DigitsRaw(n / 10);
      RawJoin(Digits(n / 10), [0x30 + n % 10]);
    }
  }

  lemma {:induction false} TrimRaw(ds: seq<byte>)
    requires NoRaw(ds)
    ensures NoRaw(Trim(ds))
    decreases |ds|
  {
    if ds != [] && ds[|ds| - 1] == 0x30 { TrimRaw(ds[..|ds| - 1]); }
  }

  lemma NumRaw(n: int)
    ensures NoRaw(NumText(n))
  {
    hide Digits, Trim, Significant;
    DigitsRaw(Abs(n));
    if Abs(n) >= EXACT_LIMIT {
      var (m, e) := Significant(Abs(n));
      DigitsRaw(m);
      DigitsRaw(e);
      TrimRaw(Digits(m)[1..]);
    }
  }

  lemma IndentRaw(level: nat, indent: int, flat: seq<byte>)
    requires NoRaw(flat)
    ensures NoRaw(Indent(level, indent, flat))
  {}

  /** The texts of fractions hold no control bytes either. */
  predicate PlainText(v: Value) {
    match v
    case Fraction(lexeme) => NoRaw(lexeme)
    case List(elems) => forall e | e in elems :: PlainText(e)
    case Dict(items) => forall m | m in items :: PlainText(m.value)
    case _ => true
  }

  /**
   * A printed value has no control byte other than the newlines of its indentation, as RFC 8259,
   * section 7, demands, exactly when every string and every key in it has only control bytes with a
   * short escape.
   */
  lemma {:induction false} TextControls(v: Value, depth: nat, indent: int)
    requires PlainText(v)
    ensures NoRaw(Text(v, depth, indent)) <==> Clean(v)
    decreases v, 1
  {
    hide Quoted, OnlyShort, NumText, ElemsText, ItemsText, Indent, CleanAll, CleanItems;
    match v
    case Integer(n) => NumRaw(n);
    case Str(s) => QuotedRaw(s);
    case List(elems) =>
      if elems == [] {
        CleanNone();
      } else {
        ElemsControls(elems, depth, indent);
        IndentRaw(depth + 1, indent, []);
        RawJoin([LIST_OPEN] + Indent(depth + 1, indent, []), ElemsText(elems, depth, indent));
        RawJoin([LIST_OPEN], Indent(depth + 1, indent, []));
      }
    case Dict(items) =>
      if items == [] {
        CleanNone();
      } else {
        ItemsControls(items, depth, indent);
        IndentRaw(depth + 1, indent, []);
        RawJoin([DICT_OPEN] + Indent(depth + 1, indent, []), ItemsText(items, depth, indent));
        RawJoin([DICT_OPEN], Indent(depth + 1, indent, []));
      }
    case _ =>
  }

  lemma CleanNone()
    ensures CleanAll([]) && CleanItems([])
  {}

  lemma {:induction false} ElemsControls(elems: seq<Value>, depth: nat, indent: int)
    requires elems != [] && forall e | e in elems :: PlainText(e)
    ensures NoRaw(ElemsText(elems, depth, indent)) <==> CleanAll(elems)
    decreases elems, 0
  {
    hide Text, Indent, PlainText, Clean, NoRaw;
    var first := Text(elems[0], depth + 1, indent);
    TextControls(elems[0], depth + 1, indent);
    NoRawShort();
    if |elems| == 1 {
      assert elems[1..] == [];
      var w := Indent(depth, indent, []);
      IndentRaw(depth, indent, []);
      RawJoin(first, w + [LIST_CLOSE]);
      RawJoin(w, [LIST_CLOSE]);
    } else {
      var w, more := Indent(depth + 1, indent, [SPACE]), ElemsText(elems[1..], depth, indent);
      IndentRaw(depth + 1, indent, [SPACE]);
      ElemsControls(elems[1..], depth, indent);
      RawJoin(first, [COMMA] + w + more);
      RawJoin([COMMA] + w, more);
      RawJoin([COMMA], w);
    }
  }

  lemma NoRawShort()
    ensures NoRaw([]) && NoRaw([COMMA]) && NoRaw([SPACE]) && NoRaw([LIST_CLOSE]) && NoRaw([DICT_CLOSE]) && NoRaw([COLON, SPACE])
  {}

  lemma {:induction false} ItemsControls(items: seq<Member>, depth: nat, indent: int)
    requires items != [] && forall m | m in items :: PlainText(m.value)
    ensures NoRaw(ItemsText(items, depth, indent)) <==> CleanItems(items)
    decreases items, 0
  {
    hide Text, Indent, PlainText, Clean, NoRaw, Quoted, OnlyShort;
    var key, value := Quoted(items[0].key), Text(items[0].value, depth + 1, indent);
    TextControls(items[0].value, depth + 1, indent);
    QuotedRaw(items[0].key);
    NoRawShort();
    RawJoin(key + [COLON, SPACE], value);
    RawJoin(key, [COLON, SPACE]);
    var head := key + [COLON, SPACE] + value;
    if |items| == 1 {
      assert items[1..] == [];
      var w := Indent(depth, indent, []);
      IndentRaw(depth, indent, []);
      RawJoin(head, w + [DICT_CLOSE]);
      RawJoin(w, [DICT_CLOSE]);
    } else {
      var w, more := Indent(depth + 1, indent, [SPACE]), ItemsText(items[1..], depth, indent);
      IndentRaw(depth + 1, indent, [SPACE]);
      ItemsControls(items[1..], depth, indent);
      RawJoin(head, [COMMA] + w + more);
      RawJoin([COMMA] + w, more);
      RawJoin([COMMA], w);
    }
  }

  /** The shortest text that breaks the rule: the string of one byte 1. */
  lemma ControlIsPrintedRaw()
    ensures Stringify(Str([1]), 0) == Some([QUOTE, 1, QUOTE])
  {
    assert [1][1..] == [] && Escaped([]) == [];
    assert Escaped([1]) == [1];
    assert Quoted([1]) == [QUOTE, 1, QUOTE];
  }
}
