/**
 * The binary form in which values travel through channels and in which default arguments are kept:
 * a tag, then the contents, with lengths in four bytes.
 */
module ValueCodec {
  import opened Bytes
  import opened Wire

  /** Data values; a number is known by its eight bytes, an instance by its class name and fields.
      Everything else, such as a function, is opaque and is written as null. */
  datatype Plain =
    | Null
    | Boolean(b: bool)
    | Number(bits: seq<byte>)
    | Text(s: seq<byte>)
    | List(elems: seq<Plain>)
    | Dict(items: seq<Item>)
    | Instance(cls: seq<byte>, fields: seq<Item>)
    | Opaque

  datatype Item = Item(key: seq<byte>, value: Plain)

  // ---- Writing ----

  function Sized(s: seq<byte>): seq<byte> { ToLe(|s|, 4) + s }

  function Serialized(v: Plain): seq<byte> {
    match v
    case Null => [0]
    case Boolean(b) => [1, if b then 1 else 0]
    case Number(bits) => [2] + bits
    case Text(s) => [3] + Sized(s)
    case List(elems) => [4] + ToLe(|elems|, 4) + SerializedAll(elems)
    case Dict(items) => [5] + ToLe(|items|, 4) + SerializedItems(items)
    case Instance(cls, fields) => [6] + Sized(cls) + ToLe(|fields|, 4) + SerializedItems(fields)
    case Opaque => [0]
  }

  function SerializedAll(vs: seq<Plain>): seq<byte> {
    if vs == [] then [] else Serialized(vs[0]) + SerializedAll(vs[1..])
  }

  function SerializedItems(items: seq<Item>): seq<byte> {
    if items == [] then [] else Sized(items[0].key) + Serialized(items[0].value) + SerializedItems(items[1..])
  }

  // ---- Reading ----

  /** Assigns a key of a table: an old entry is replaced. */
  function Put(items: seq<Item>, key: seq<byte>, v: Plain): seq<Item> {
    if items == [] then [Item(key, v)]
    else if items[0].key == key then [Item(key, v)] + items[1..]
    else [items[0]] + Put(items[1..], key, v)
  }

  function Value(st: Stream): (r: (Plain, Stream))
    ensures |r.1.rest| <= |st.rest|
    decreases |st.rest|, 0, 0
  {
    var (tag, s1) := TakeInt(st, 1);
    if s1.bad then (Null, s1)
    else if tag == 1 then
      var (b, s2) := TakeInt(s1, 1);
      (Boolean(b != 0), s2)
    else if tag == 2 then
      var (bits, s2) := Take(s1, 8);
      (Number(bits), s2)
    else if tag == 3 then
      var (s, s2) := SizedText(s1);
      (Text(s), s2)
    else if tag == 4 then
      var (count, s2) := TakeInt(s1, 4);
      var (elems, s3) := Elements(s2, count);
      (List(elems), s3)
    else if tag == 5 then
      var (count, s2) := TakeInt(s1, 4);
      var (items, s3) := Entries(s2, count, []);
      (Dict(items), s3)
    else if tag == 6 then
      var (cls, s2) := SizedText(s1);
      var (count, s3) := TakeInt(s2, 4);
      var (items, s4) := Entries(s3, count, []);
      (Instance(cls, items), s4)
    else (Null, s1)
  }

  function SizedText(st: Stream): (r: (seq<byte>, Stream))
    ensures |r.1.rest| <= |st.rest| && |r.0| < Limit(4)
  {
    var (len, s1) := TakeInt(st, 4);
    Take(s1, len)
  }

  function Elements(st: Stream, count: nat): (r: (seq<Plain>, Stream))
    ensures |r.1.rest| <= |st.rest|
    decreases |st.rest|, 1, count
  {
    if count == 0 then ([], st)
    else
      var (v, s1) := Value(st);
      var (vs, s2) := Elements(s1, count - 1);
      ([v] + vs, s2)
  }

  /** Reads count more entries into a table. */
  function Entries(st: Stream, count: nat, items: seq<Item>): (r: (seq<Item>, Stream))
    ensures |r.1.rest| <= |st.rest|
    decreases |st.rest|, 1, count
  {
    if count == 0 then (items, st)
    else
      var (key, s1) := SizedText(st);
      var (v, s2) := Value(s1);
      Entries(s2, count - 1, Put(items, key, v))
  }

  // ---- Round trip ----

  predicate DistinctKeys(items: seq<Item>) { forall i, j | 0 <= i < j < |items| :: items[i].key != items[j].key }

  /** Data that survives: nothing opaque, eight bytes a number, sizes of four bytes, tables with one entry a key. */
  predicate Fits(v: Plain) {
    match v
    case Null => true
    case Boolean(_) => true
    case Number(bits) => |bits| == 8
    case Text(s) => |s| < Limit(4)
    case List(elems) => |elems| < Limit(4) && FitsAll(elems)
    case Dict(items) => |items| < Limit(4) && DistinctKeys(items) && FitsItems(items)
    case Instance(cls, fields) => |cls| < Limit(4) && |fields| < Limit(4) && DistinctKeys(fields) && FitsItems(fields)
    case Opaque => false
  }

  predicate FitsAll(vs: seq<Plain>) { vs == [] || (Fits(vs[0]) && FitsAll(vs[1..])) }

  predicate FitsItems(items: seq<Item>) {
    items == [] || (|items[0].key| < Limit(4) && Fits(items[0].value) && FitsItems(items[1..]))
  }

  lemma SizedBack(s: seq<byte>, rest: seq<byte>)
    requires |s| < Limit(4)
    ensures SizedText(Good(Sized(s) + rest)) == (s, Good(rest))
  {
    assert Sized(s) + rest == ToLe(|s|, 4) + (s + rest);
    TakeIntFront(|s|, 4, s + rest);
    TakeFront(s, rest);
  }

  lemma TagBack(tag: byte, rest: seq<byte>)
    ensures TakeInt(Good([tag] + rest), 1) == (tag, Good(rest))
  {
    assert ToLe(tag, 1) == [tag] by { assert ToLe(tag / 256, 0) == []; }
    assert Limit(1) == 256 * Limit(0);
    TakeIntFront(tag, 1, rest);
  }

  /** Adding a new key appends. */
  lemma {:induction false} PutNew(items: seq<Item>, key: seq<byte>, v: Plain)
    requires forall i | 0 <= i < |items| :: items[i].key != key
    ensures Put(items, key, v) == items + [Item(key, v)]
    decreases |items|
  {
    if items != [] { PutNew(items[1..], key, v); }
  }

  lemma {:induction false} ReadsBack(v: Plain, rest: seq<byte>)
    requires Fits(v)
    ensures Value(Good(Serialized(v) + rest)) == (v, Good(rest))
    decreases v, 3
  {
    hide Sized, SizedText, ToLe, Entries, Elements, TakeInt, Take, SerializedAll, SerializedItems, FitsAll, FitsItems, Limit;
    match v
    case Null => TagBack(0, rest);
    case Boolean(b) =>
      assert Serialized(v) + rest == [1] + ([if b then 1 else 0] + rest);
      TagBack(1, [if b then 1 else 0] + rest);
      TagBack(if b then 1 else 0, rest);
    case Number(bits) =>
      assert Serialized(v) + rest == [2] + (bits + rest);
      TagBack(2, bits + rest);
      TakeFront(bits, rest);
    case Text(s) =>
      assert Serialized(v) + rest == [3] + (Sized(s) + rest);
      TagBack(3, Sized(s) + rest);
      SizedBack(s, rest);
    case List(elems) => ListBack(elems, rest);
    case Dict(items) => DictBack(items, rest);
    case Instance(cls, fields) => InstanceBack(cls, fields, rest);
  }

  lemma {:induction false} ListBack(elems: seq<Plain>, rest: seq<byte>)
    requires Fits(List(elems))
    ensures Value(Good(Serialized(List(elems)) + rest)) == (List(elems), Good(rest))
    decreases elems, 2
  {
    hide ToLe, Elements, TakeInt, SerializedAll, FitsAll, Limit;
    var tail := SerializedAll(elems) + rest;
    assert Serialized(List(elems)) + rest == [4] + (ToLe(|elems|, 4) + tail);
    TagBack(4, ToLe(|elems|, 4) + tail);
    TakeIntFront(|elems|, 4, tail);
    ElementsBack(elems, rest);
  }

  lemma {:induction false} DictBack(items: seq<Item>, rest: seq<byte>)
    requires Fits(Dict(items))
    ensures Value(Good(Serialized(Dict(items)) + rest)) == (Dict(items), Good(rest))
    decreases items, 2
  {
    hide ToLe, Entries, TakeInt, SerializedItems, FitsItems, Limit, DistinctKeys;
    var tail := SerializedItems(items) + rest;
    assert Serialized(Dict(items)) + rest == [5] + (ToLe(|items|, 4) + tail);
    TagBack(5, ToLe(|items|, 4) + tail);
    TakeIntFront(|items|, 4, tail);
    assert [] + items == items;
    EntriesBack([], items, rest);
  }

  lemma {:induction false} InstanceBack(cls: seq<byte>, fields: seq<Item>, rest: seq<byte>)
    requires Fits(Instance(cls, fields))
    ensures Value(Good(Serialized(Instance(cls, fields)) + rest)) == (Instance(cls, fields), Good(rest))
    decreases fields, 2
  {
    hide ToLe, Entries, TakeInt, SizedText, Sized, SerializedItems, FitsItems, Limit, DistinctKeys;
    var tail := SerializedItems(fields) + rest;
    assert Serialized(Instance(cls, fields)) + rest == [6] + (Sized(cls) + (ToLe(|fields|, 4) + tail));
    TagBack(6, Sized(cls) + (ToLe(|fields|, 4) + tail));
    SizedBack(cls, ToLe(|fields|, 4) + tail);
    TakeIntFront(|fields|, 4, tail);
    assert [] + fields == fields;
    EntriesBack([], fields, rest);
  }

  lemma {:induction false} ElementsBack(vs: seq<Plain>, rest: seq<byte>)
    requires FitsAll(vs)
    ensures Elements(Good(SerializedAll(vs) + rest), |vs|) == (vs, Good(rest))
    decreases vs, 1
  {
    hide Serialized, Fits, Value;
    if vs != [] {
      assert SerializedAll(vs) + rest == Serialized(vs[0]) + (SerializedAll(vs[1..]) + rest);
      ReadsBack(vs[0], SerializedAll(vs[1..]) + rest);
      ElementsBack(vs[1..], rest);
      assert [vs[0]] + vs[1..] == vs;
    } else {
      assert SerializedAll(vs) + rest == rest;
    }
  }

  lemma {:induction false} EntriesBack(done: seq<Item>, items: seq<Item>, rest: seq<byte>)
    requires FitsItems(items) && DistinctKeys(done + items)
    ensures Entries(Good(SerializedItems(items) + rest), |items|, done) == (done + items, Good(rest))
    decreases items, 1
  {
    hide Serialized, Fits, Value, Sized, SizedText, Put, DistinctKeys;
    if items != [] {
      var key, v := items[0].key, items[0].value;
      var tail := SerializedItems(items[1..]) + rest;
      assert SerializedItems(items) + rest == Sized(key) + (Serialized(v) + tail);
      SizedBack(key, Serialized(v) + tail);
      ReadsBack(v, tail);
      NextIsNew(done, items);
      PutNew(done, key, v);
      assert done + [items[0]] + items[1..] == done + items;
      EntriesBack(done + [items[0]], items[1..], rest);
    } else {
      assert SerializedItems(items) + rest == rest && done + items == done;
    }
  }

  lemma NextIsNew(done: seq<Item>, items: seq<Item>)
    requires items != [] && DistinctKeys(done + items)
    ensures forall i | 0 <= i < |done| :: done[i].key != items[0].key
  {
    var all := done + items;
    forall i | 0 <= i < |done| ensures done[i].key != items[0].key { assert all[i] == done[i] && all[|done|] == items[0]; }
  }

  // ---- The reader makes nothing else ----

  lemma {:induction false} PutKeeps(items: seq<Item>, key: seq<byte>, v: Plain)
    requires DistinctKeys(items) && FitsItems(items) && |key| < Limit(4) && Fits(v)
    ensures var now := Put(items, key, v);
            DistinctKeys(now) && FitsItems(now) && |now| <= |items| + 1 && forall i | 0 <= i < |now| :: now[i].key == key || HasKey(items, now[i].key)
    decreases |items|
  {
    hide Limit, Fits;
    if items != [] && items[0].key != key {
      PutKeeps(items[1..], key, v);
      var now := Put(items[1..], key, v);
      forall i | 0 <= i < |now| ensures now[i].key != items[0].key {
        if now[i].key != key {
          var j :| 0 <= j < |items[1..]| && items[1..][j].key == now[i].key;
          assert items[j + 1].key == now[i].key;
        }
      }
      forall i | 0 <= i < |[items[0]] + now| ensures ([items[0]] + now)[i].key == key || HasKey(items, ([items[0]] + now)[i].key) {
        if i > 0 && now[i - 1].key != key {
          var j :| 0 <= j < |items[1..]| && items[1..][j].key == now[i - 1].key;
          assert items[j + 1].key == now[i - 1].key;
        }
      }
    } else if items != [] {
      forall i | 0 <= i < |items| ensures HasKey(items, items[i].key) { assert items[i].key == items[i].key; }
    }
  }

  predicate HasKey(items: seq<Item>, key: seq<byte>) { exists j | 0 <= j < |items| :: items[j].key == key }

  lemma {:induction false} ReaderFits(st: Stream)
    ensures Fits(Value(st).0)
    decreases |st.rest|, 0, 0
  {
    hide Take, Limit, Elements, Entries, SizedText;
    var (tag, s1) := TakeInt(st, 1);
    if !s1.bad {
      if tag == 4 {
        var (count, s2) := TakeInt(s1, 4);
        ElementsFit(s2, count);
      } else if tag == 5 {
        var (count, s2) := TakeInt(s1, 4);
        NoItems();
        EntriesFit(s2, count, []);
      } else if tag == 6 {
        var (cls, s2) := SizedText(s1);
        var (count, s3) := TakeInt(s2, 4);
        NoItems();
        EntriesFit(s3, count, []);
      }
    }
  }

  lemma NoItems()
    ensures DistinctKeys([]) && FitsItems([])
  {}

  lemma {:induction false} ElementsFit(st: Stream, count: nat)
    ensures FitsAll(Elements(st, count).0) && |Elements(st, count).0| == count
    decreases |st.rest|, 1, count
  {
    hide Value, Fits;
    if count > 0 {
      ReaderFits(st);
      ElementsFit(Value(st).1, count - 1);
    }
  }

  lemma {:induction false} EntriesFit(st: Stream, count: nat, items: seq<Item>)
    requires DistinctKeys(items) && FitsItems(items)
    ensures var r := Entries(st, count, items).0; DistinctKeys(r) && FitsItems(r) && |r| <= |items| + count
    decreases |st.rest|, 1, count
  {
    hide Value, Fits, SizedText, DistinctKeys, FitsItems, Put, Limit;
    if count > 0 {
      var (key, s1) := SizedText(st);
      ReaderFits(s1);
      PutKeeps(items, key, Value(s1).0);
      EntriesFit(Value(s1).1, count - 1, Put(items, key, Value(s1).0));
    }
  }

  /** A value comes back from its bytes, which are used up exactly, if and only if it fits. */
  lemma ValueRoundTrip(v: Plain, rest: seq<byte>)
    ensures Value(Good(Serialized(v) + rest)) == (v, Good(rest)) <==> Fits(v)
  {
    hide Value, Serialized, Fits;
    ReaderFits(Good(Serialized(v) + rest));
    if Fits(v) { ReadsBack(v, rest); }
  }

  // ---- The stream writers and readers ----

  method SerializeValue(out: OutStream, v: Plain)
    modifies out
    ensures out.bytes == old(out.bytes) + Serialized(v)
    decreases v, 3
  {
    hide SerializedAll, SerializedItems, ToLe, Sized;
    match v
    case Null => out.Write([0]);
    case Boolean(b) => out.Write([1, if b then 1 else 0]);
    case Number(bits) => out.Write([2] + bits);
    case Text(s) =>
      out.Write([3]);
      WriteSized(out, s);
    case List(elems) =>
      out.Write([4]);
      WriteAll(out, elems);
    case Dict(items) =>
      out.Write([5]);
      WriteItems(out, items);
    case Instance(cls, fields) => WriteInstance(out, cls, fields);
    case Opaque => out.Write([0]);
  }

  method WriteInstance(out: OutStream, cls: seq<byte>, fields: seq<Item>)
    modifies out
    ensures out.bytes == old(out.bytes) + Serialized(Instance(cls, fields))
    decreases fields, 2
  {
    hide SerializedItems, ToLe, Sized;
    ghost var before := out.bytes;
    out.Write([6]);
    WriteSized(out, cls);
    WriteItems(out, fields);
    var tail := ToLe(|fields|, 4) + SerializedItems(fields);
    assert out.bytes == before + ([6] + Sized(cls) + tail);
    assert [6] + Sized(cls) + tail == Serialized(Instance(cls, fields));
  }

  method WriteSized(out: OutStream, s: seq<byte>)
    modifies out
    ensures out.bytes == old(out.bytes) + Sized(s)
  {
    out.WriteInt(|s|, 4);
    out.Write(s);
  }

  method WriteAll(out: OutStream, elems: seq<Plain>)
    modifies out
    ensures out.bytes == old(out.bytes) + (ToLe(|elems|, 4) + SerializedAll(elems))
    decreases elems, 0
  {
    hide Serialized, SerializedAll, ToLe;
    out.WriteInt(|elems|, 4);
    ghost var before := out.bytes;
    var i := 0;
    assert before + SerializedAll(elems[0..]) == before + SerializedAll(elems) by { assert elems[0..] == elems; }
    while i < |elems|
      invariant i <= |elems| && out.bytes + SerializedAll(elems[i..]) == before + SerializedAll(elems)
    {
      NextOfAll(out.bytes, elems, i);
      SerializeValue(out, elems[i]);
      i := i + 1;
    }
    NoMore(out.bytes, elems);
  }

  lemma NextOfAll(bs: seq<byte>, elems: seq<Plain>, i: nat)
    requires i < |elems|
    ensures bs + SerializedAll(elems[i..]) == (bs + Serialized(elems[i])) + SerializedAll(elems[i + 1..])
  {
    assert elems[i..][1..] == elems[i + 1..];
  }

  lemma NoMore(bs: seq<byte>, elems: seq<Plain>)
    ensures bs + SerializedAll(elems[|elems|..]) == bs
  {
    assert elems[|elems|..] == [];
  }

  method WriteItems(out: OutStream, items: seq<Item>)
    modifies out
    ensures out.bytes == old(out.bytes) + (ToLe(|items|, 4) + SerializedItems(items))
    decreases items, 0
  {
    hide Serialized, SerializedItems, Sized, ToLe;
    out.WriteInt(|items|, 4);
    ghost var before := out.bytes;
    var i := 0;
    assert before + SerializedItems(items[0..]) == before + SerializedItems(items) by { assert items[0..] == items; }
    while i < |items|
      invariant i <= |items| && out.bytes + SerializedItems(items[i..]) == before + SerializedItems(items)
    {
      NextOfItems(out.bytes, items, i);
      WriteSized(out, items[i].key);
      SerializeValue(out, items[i].value);
      i := i + 1;
    }
    NoMoreItems(out.bytes, items);
  }

  lemma NextOfItems(bs: seq<byte>, items: seq<Item>, i: nat)
    requires i < |items|
    ensures bs + SerializedItems(items[i..]) == (bs + Sized(items[i].key) + Serialized(items[i].value)) + SerializedItems(items[i + 1..])
  {
    assert items[i..][1..] == items[i + 1..];
  }

  lemma NoMoreItems(bs: seq<byte>, items: seq<Item>)
    ensures bs + SerializedItems(items[|items|..]) == bs
  {
    assert items[|items|..] == [];
  }

  method DeserializeValue(input: InStream) returns (v: Plain)
    modifies input
    ensures (v, input.st) == Value(old(input.st))
    decreases |input.st.rest|, 2, 0
  {
    hide Elements, Entries, Limit;
    var tag := input.ReadInt(1);
    if input.st.bad { return Null; }
    if tag == 1 {
      var b := input.ReadInt(1);
      v := Boolean(b != 0);
    } else if tag == 2 {
      var bits := input.Read(8);
      v := Number(bits);
    } else if tag == 3 {
      var s := ReadSized(input);
      v := Text(s);
    } else if tag == 4 {
      var count := input.ReadInt(4);
      var elems := ReadElements(input, count);
      v := List(elems);
    } else if tag == 5 {
      var count := input.ReadInt(4);
      var items := ReadEntries(input, count);
      v := Dict(items);
    } else if tag == 6 {
      var cls := ReadSized(input);
      var count := input.ReadInt(4);
      var fields := ReadEntries(input, count);
      v := Instance(cls, fields);
    } else {
      v := Null;
    }
  }

  method ReadSized(input: InStream) returns (s: seq<byte>)
    modifies input
    ensures (s, input.st) == SizedText(old(input.st))
  {
    var len := input.ReadInt(4);
    s := input.Read(len);
  }

  method ReadElements(input: InStream, count: nat) returns (elems: seq<Plain>)
    modifies input
    ensures (elems, input.st) == Elements(old(input.st), count)
    decreases |input.st.rest|, 3, 0
  {
    hide Value;
    elems := [];
    var i := 0;
    ghost var all := Elements(input.st, count);
    assert [] + all.0 == all.0;
    while i < count
      invariant i <= count && |input.st.rest| <= |old(input.st).rest|
      invariant var (more, after) := Elements(input.st, count - i); (elems + more, after) == all
    {
      ghost var before, was := input.st, elems;
      var v := DeserializeValue(input);
      elems := elems + [v];
      i := i + 1;
      assert was + ([v] + Elements(input.st, count - i).0) == elems + Elements(input.st, count - i).0;
    }
    assert elems + [] == elems;
  }

  method ReadEntries(input: InStream, count: nat) returns (items: seq<Item>)
    modifies input
    ensures (items, input.st) == Entries(old(input.st), count, [])
    decreases |input.st.rest|, 3, 0
  {
    hide Value, SizedText, Put;
    items := [];
    var i := 0;
    while i < count
      invariant i <= count && |input.st.rest| <= |old(input.st).rest|
      invariant Entries(input.st, count - i, items) == Entries(old(input.st), count, [])
    {
      var key := ReadSized(input);
      var v := DeserializeValue(input);
      items := Put(items, key, v);
      i := i + 1;
    }
  }
}
