/**
 * The compiled-bytecode file format: functions and chunks, which contain each other through the
 * constants. The reader rejects what is too large, nested too deeply, or not accepted by the
 * verifier, which is a parameter here.
 */
module ShbcCodec {
  import opened Bytes
  import opened Wire
  import opened ValueCodec

  datatype Constant =
    | ConstNull
    | ConstBool(b: bool)
    | ConstNumber(bits: seq<byte>)
    | ConstText(s: seq<byte>)
    | ConstFunction(f: Function)

  datatype Location = Location(line: nat, col: nat, count: nat)

  datatype Chunk = Chunk(constants: seq<Constant>, code: seq<byte>, locations: seq<Location>)

  datatype Function = Function(
    arity: nat, upvalueCount: nat, name: seq<byte>, sourceFile: seq<byte>, defaults: seq<Plain>, chunk: Chunk)

  datatype Result<T> = Ok(value: T, after: Stream) | Thrown

  const MAGIC: nat := 0x4342_4853
  const CHUNK_VERSION: nat := 0x0001_0000
  const VERSION_MAJOR: nat := 1
  const VERSION_MINOR: nat := 2
  const MAX_DEPTH: nat := 1000
  const MAX_CONSTANTS: nat := 1000000
  const MAX_TEXT: nat := 10000000
  const MAX_CODE: nat := 10000000
  const MAX_LOCATIONS: nat := 1000000
  const MAX_NAME: nat := 65536
  const MAX_DEFAULTS: nat := 1024

  // ---- Writing ----

  function ChunkHead(c: Chunk): seq<byte> { ToLe(MAGIC, 4) + ToLe(CHUNK_VERSION, 4) + ToLe(|c.constants|, 4) }

  function ChunkTail(c: Chunk): seq<byte> {
    Sized(c.code) + ToLe(|c.locations|, 4) + LocationBytes(c.locations)
  }

  function LocationBytes(locs: seq<Location>): seq<byte> {
    if locs == [] then [] else ToLe(locs[0].line, 4) + ToLe(locs[0].col, 4) + ToLe(locs[0].count, 4) + LocationBytes(locs[1..])
  }

  function ChunkBytes(c: Chunk): seq<byte> { ChunkHead(c) + ConstantsBytes(c.constants) + ChunkTail(c) }

  function ConstantsBytes(cs: seq<Constant>): seq<byte> {
    if cs == [] then [] else ConstantBytes(cs[0]) + ConstantsBytes(cs[1..])
  }

  function ConstantBytes(c: Constant): seq<byte> {
    match c
    case ConstNull => [0]
    case ConstBool(b) => [1, if b then 1 else 0]
    case ConstNumber(bits) => [2] + bits
    case ConstText(s) => [3] + Sized(s)
    case ConstFunction(f) => [4] + FunctionBytes(f)
  }

  function FunctionHead(f: Function): seq<byte> {
    ToLe(MAGIC, 4) + ToLe(VERSION_MAJOR, 2) + ToLe(VERSION_MINOR, 2) + ToLe(f.arity, 2) + ToLe(f.upvalueCount, 2)
  }

  function FunctionBytes(f: Function): seq<byte> {
    FunctionHead(f) + Sized(f.name) + Sized(f.sourceFile) + ToLe(|f.defaults|, 4) + SerializedAll(f.defaults) + ChunkBytes(f.chunk)
  }

  // ---- Reading ----

  /** A four-byte integer that has to be there and to be at most max. */
  function Bounded(st: Stream, max: nat): Result<nat> {
    var (n, after) := TakeInt(st, 4);
    if after.bad || n > max then Thrown else Ok(n, after)
  }

  /** A text with its length; all of it has to be there. */
  function BoundedText(st: Stream, max: nat): (r: Result<seq<byte>>)
    ensures r.Ok? ==> |r.value| <= max && |r.after.rest| <= |st.rest| && !r.after.bad
  {
    var len := Bounded(st, max);
    if len.Thrown? then Thrown
    else
      var (s, after) := Take(len.after, len.value);
      if after.bad then Thrown else Ok(s, after)
  }

  function ReadChunk(st: Stream, depth: nat, verify: Chunk -> bool): (r: Result<Chunk>)
    decreases if depth <= MAX_DEPTH then MAX_DEPTH + 1 - depth else 0, 3, 0
  {
    if depth > MAX_DEPTH then Thrown else
    var magic := Bounded(st, MAGIC);
    if magic.Thrown? || magic.value != MAGIC then Thrown else
    var version := Bounded(magic.after, CHUNK_VERSION);
    if version.Thrown? then Thrown else
    var count := Bounded(version.after, MAX_CONSTANTS);
    if count.Thrown? then Thrown else
    var constants := ReadConstants(count.after, count.value, depth, verify);
    if constants.Thrown? then Thrown else
    var code := BoundedText(constants.after, MAX_CODE);
    if code.Thrown? then Thrown else
    var size := Bounded(code.after, MAX_LOCATIONS);
    if size.Thrown? then Thrown else
    var (locations, after) := ReadLocations(size.after, size.value);
    var c := Chunk(constants.value, code.value, locations);
    if verify(c) then Ok(c, after) else Thrown
  }

  /** The entries of the location table; a read past the end is not noticed here. */
  function ReadLocations(st: Stream, count: nat): (r: (seq<Location>, Stream))
    ensures |r.0| == count
    decreases count
  {
    if count == 0 then ([], st)
    else
      var (line, s1) := TakeInt(st, 4);
      var (col, s2) := TakeInt(s1, 4);
      var (n, s3) := TakeInt(s2, 4);
      var (locs, s4) := ReadLocations(s3, count - 1);
      ([Location(line, col, n)] + locs, s4)
  }

  function ReadConstants(st: Stream, count: nat, depth: nat, verify: Chunk -> bool): (r: Result<seq<Constant>>)
    requires depth <= MAX_DEPTH
    ensures r.Ok? ==> |r.value| == count
    decreases MAX_DEPTH + 1 - depth, 2, count
  {
    if count == 0 then Ok([], st)
    else
      var c := ReadConstant(st, depth, verify);
      if c.Thrown? then Thrown else
      var cs := ReadConstants(c.after, count - 1, depth, verify);
      if cs.Thrown? then Thrown else Ok([c.value] + cs.value, cs.after)
  }

  function ReadConstant(st: Stream, depth: nat, verify: Chunk -> bool): Result<Constant>
    requires depth <= MAX_DEPTH
    decreases MAX_DEPTH + 1 - depth, 1, 0
  {
    var (tag, s1) := TakeInt(st, 1);
    if s1.bad then Thrown
    else if tag == 0 then Ok(ConstNull, s1)
    else if tag == 1 then
      var (b, s2) := TakeInt(s1, 1);
      Ok(ConstBool(b != 0), s2)
    else if tag == 2 then
      var (bits, s2) := Take(s1, 8);
      Ok(ConstNumber(bits), s2)
    else if tag == 3 then
      var s := BoundedText(s1, MAX_TEXT);
      if s.Thrown? then Thrown else Ok(ConstText(s.value), s.after)
    else if tag == 4 then
      var f := ReadFunction(s1, depth + 1, verify);
      if f.Thrown? then Thrown else Ok(ConstFunction(f.value), f.after)
    else Thrown
  }

  function ReadFunction(st: Stream, depth: nat, verify: Chunk -> bool): Result<Function>
    decreases if depth <= MAX_DEPTH then MAX_DEPTH + 1 - depth else 0, 0, 0
  {
    if depth > MAX_DEPTH then Thrown else
    var head := ReadHead(st);
    if head.Thrown? then Thrown else
    var name := BoundedText(head.after, MAX_NAME);
    if name.Thrown? then Thrown else
    var source := BoundedText(name.after, MAX_NAME);
    if source.Thrown? then Thrown else
    var defaults := ReadDefaults(source.after, head.value.minor);
    if defaults.Thrown? then Thrown else
    var chunk := ReadChunk(defaults.after, depth + 1, verify);
    if chunk.Thrown? then Thrown
    else Ok(Function(head.value.arity, head.value.upvalueCount, name.value, source.value, defaults.value, chunk.value), chunk.after)
  }

  datatype Head = Head(minor: nat, arity: nat, upvalueCount: nat)

  function ReadHead(st: Stream): Result<Head> {
    var magic := Bounded(st, MAGIC);
    if magic.Thrown? || magic.value != MAGIC then Thrown else
    var (major, s2) := TakeInt(magic.after, 2);
    var (minor, s3) := TakeInt(s2, 2);
    if s3.bad || major != VERSION_MAJOR then Thrown else
    var (arity, s4) := TakeInt(s3, 2);
    if s4.bad then Thrown else
    var (upvalueCount, s5) := TakeInt(s4, 2);
    if s5.bad then Thrown else Ok(Head(minor, arity, upvalueCount), s5)
  }

  /** Default arguments came with minor version 1. */
  function ReadDefaults(st: Stream, minor: nat): Result<seq<Plain>> {
    if minor < 1 then Ok([], st)
    else
      var count := Bounded(st, MAX_DEFAULTS);
      if count.Thrown? then Thrown
      else
        var (defaults, after) := Elements(count.after, count.value);
        Ok(defaults, after)
  }

  // ---- What the reader accepts ----

  predicate GoodLocations(locs: seq<Location>) {
    forall i | 0 <= i < |locs| :: locs[i].line < Limit(4) && locs[i].col < Limit(4) && locs[i].count < Limit(4)
  }

  predicate GoodChunk(c: Chunk, depth: nat, verify: Chunk -> bool)
    decreases c
  {
    && depth <= MAX_DEPTH && |c.constants| <= MAX_CONSTANTS && |c.code| <= MAX_CODE && |c.locations| <= MAX_LOCATIONS
    && GoodLocations(c.locations) && verify(c) && GoodConstants(c.constants, depth, verify)
  }

  predicate GoodConstants(cs: seq<Constant>, depth: nat, verify: Chunk -> bool)
    decreases cs
  {
    cs == [] || (GoodConstant(cs[0], depth, verify) && GoodConstants(cs[1..], depth, verify))
  }

  predicate GoodConstant(c: Constant, depth: nat, verify: Chunk -> bool)
    decreases c
  {
    match c
    case ConstNumber(bits) => |bits| == 8
    case ConstText(s) => |s| <= MAX_TEXT
    case ConstFunction(f) => GoodFunction(f, depth + 1, verify)
    case _ => true
  }

  predicate GoodFunction(f: Function, depth: nat, verify: Chunk -> bool)
    decreases f
  {
    && depth <= MAX_DEPTH && f.arity < Limit(2) && f.upvalueCount < Limit(2)
    && |f.name| <= MAX_NAME && |f.sourceFile| <= MAX_NAME && |f.defaults| <= MAX_DEFAULTS && FitsAll(f.defaults)
    && GoodChunk(f.chunk, depth + 1, verify)
  }

  // ---- Round trip ----

  lemma Widths()
    ensures Limit(2) == 0x1_0000 && Limit(4) == 0x1_0000_0000
    ensures MAGIC < Limit(4) && CHUNK_VERSION < Limit(4) && VERSION_MAJOR < Limit(2) && VERSION_MINOR < Limit(2)
    ensures MAX_CONSTANTS < Limit(4) && MAX_TEXT < Limit(4) && MAX_CODE < Limit(4) && MAX_LOCATIONS < Limit(4)
    ensures MAX_NAME < Limit(4) && MAX_DEFAULTS < Limit(4)
  {
    Limits();
  }

  lemma BoundedBack(n: nat, max: nat, rest: seq<byte>)
    requires n <= max < Limit(4)
    ensures Bounded(Good(ToLe(n, 4) + rest), max) == Ok(n, Good(rest))
  {
    hide Limit;
    TakeIntFront(n, 4, rest);
  }

  lemma TextBack(s: seq<byte>, max: nat, rest: seq<byte>)
    requires |s| <= max < Limit(4)
    ensures BoundedText(Good(Sized(s) + rest), max) == Ok(s, Good(rest))
  {
    hide Limit, Bounded;
    assert Sized(s) + rest == ToLe(|s|, 4) + (s + rest);
    BoundedBack(|s|, max, s + rest);
    TakeFront(s, rest);
  }

  lemma {:induction false} LocationsBack(locs: seq<Location>, rest: seq<byte>)
    requires GoodLocations(locs)
    ensures ReadLocations(Good(LocationBytes(locs) + rest), |locs|) == (locs, Good(rest))
    decreases |locs|
  {
    hide Limit, ToLe, TakeInt;
    if locs != [] {
      var l, tail := locs[0], LocationBytes(locs[1..]) + rest;
      assert LocationBytes(locs) + rest == ToLe(l.line, 4) + (ToLe(l.col, 4) + (ToLe(l.count, 4) + tail));
      TakeIntFront(l.line, 4, ToLe(l.col, 4) + (ToLe(l.count, 4) + tail));
      TakeIntFront(l.col, 4, ToLe(l.count, 4) + tail);
      TakeIntFront(l.count, 4, tail);
      LocationsBack(locs[1..], rest);
      assert [Location(l.line, l.col, l.count)] + locs[1..] == locs;
    } else {
      assert LocationBytes(locs) + rest == rest;
    }
  }

  lemma {:induction false} ChunkBack(c: Chunk, depth: nat, verify: Chunk -> bool, rest: seq<byte>)
    requires GoodChunk(c, depth, verify)
    ensures ReadChunk(Good(ChunkBytes(c) + rest), depth, verify) == Ok(c, Good(rest))
    decreases c, 1
  {
    hide Limit, ToLe, Bounded, BoundedText, Sized, ReadConstants, ConstantsBytes, ReadLocations, LocationBytes, GoodConstants, GoodLocations;
    Widths();
    var s4 := LocationBytes(c.locations) + rest;
    var s3 := ToLe(|c.locations|, 4) + s4;
    var s2 := ConstantsBytes(c.constants) + (Sized(c.code) + s3);
    var s1 := ToLe(|c.constants|, 4) + s2;
    assert ChunkBytes(c) + rest == ToLe(MAGIC, 4) + (ToLe(CHUNK_VERSION, 4) + s1);
    BoundedBack(MAGIC, MAGIC, ToLe(CHUNK_VERSION, 4) + s1);
    BoundedBack(CHUNK_VERSION, CHUNK_VERSION, s1);
    BoundedBack(|c.constants|, MAX_CONSTANTS, s2);
    ConstantsBack(c.constants, depth, verify, Sized(c.code) + s3);
    TextBack(c.code, MAX_CODE, s3);
    BoundedBack(|c.locations|, MAX_LOCATIONS, s4);
    LocationsBack(c.locations, rest);
  }

  lemma {:induction false} ConstantsBack(cs: seq<Constant>, depth: nat, verify: Chunk -> bool, rest: seq<byte>)
    requires GoodConstants(cs, depth, verify) && depth <= MAX_DEPTH
    ensures ReadConstants(Good(ConstantsBytes(cs) + rest), |cs|, depth, verify) == Ok(cs, Good(rest))
    decreases cs, 1
  {
    hide ReadConstant, ConstantBytes, GoodConstant;
    if cs != [] {
      assert ConstantsBytes(cs) + rest == ConstantBytes(cs[0]) + (ConstantsBytes(cs[1..]) + rest);
      ConstantBack(cs[0], depth, verify, ConstantsBytes(cs[1..]) + rest);
      ConstantsBack(cs[1..], depth, verify, rest);
      assert [cs[0]] + cs[1..] == cs;
    } else {
      assert ConstantsBytes(cs) + rest == rest;
    }
  }

  lemma {:induction false} ConstantBack(c: Constant, depth: nat, verify: Chunk -> bool, rest: seq<byte>)
    requires GoodConstant(c, depth, verify) && depth <= MAX_DEPTH
    ensures ReadConstant(Good(ConstantBytes(c) + rest), depth, verify) == Ok(c, Good(rest))
    decreases c, 1
  {
    hide Limit, TakeInt, Take, BoundedText, Sized, ReadFunction, FunctionBytes, GoodFunction;
    Widths();
    match c
    case ConstNull => TagBack(0, rest);
    case ConstBool(b) =>
      assert ConstantBytes(c) + rest == [1] + ([if b then 1 else 0] + rest);
      TagBack(1, [if b then 1 else 0] + rest);
      TagBack(if b then 1 else 0, rest);
    case ConstNumber(bits) =>
      assert ConstantBytes(c) + rest == [2] + (bits + rest);
      TagBack(2, bits + rest);
      TakeFront(bits, rest);
    case ConstText(s) =>
      assert ConstantBytes(c) + rest == [3] + (Sized(s) + rest);
      TagBack(3, Sized(s) + rest);
      TextBack(s, MAX_TEXT, rest);
    case ConstFunction(f) =>
      assert ConstantBytes(c) + rest == [4] + (FunctionBytes(f) + rest);
      TagBack(4, FunctionBytes(f) + rest);
      FunctionBack(f, depth + 1, verify, rest);
  }

  lemma HeadBack(f: Function, rest: seq<byte>)
    requires f.arity < Limit(2) && f.upvalueCount < Limit(2)
    ensures ReadHead(Good(FunctionHead(f) + rest)) == Ok(Head(VERSION_MINOR, f.arity, f.upvalueCount), Good(rest))
  {
    hide Limit, ToLe, TakeInt, Bounded;
    Widths();
    var s4 := ToLe(f.upvalueCount, 2) + rest;
    var s3 := ToLe(f.arity, 2) + s4;
    var s2 := ToLe(VERSION_MINOR, 2) + s3;
    var s1 := ToLe(VERSION_MAJOR, 2) + s2;
    assert FunctionHead(f) + rest == ToLe(MAGIC, 4) + s1;
    BoundedBack(MAGIC, MAGIC, s1);
    TakeIntFront(VERSION_MAJOR, 2, s2);
    TakeIntFront(VERSION_MINOR, 2, s3);
    TakeIntFront(f.arity, 2, s4);
    TakeIntFront(f.upvalueCount, 2, rest);
  }

  lemma {:induction false} FunctionBack(f: Function, depth: nat, verify: Chunk -> bool, rest: seq<byte>)
    requires GoodFunction(f, depth, verify)
    ensures ReadFunction(Good(FunctionBytes(f) + rest), depth, verify) == Ok(f, Good(rest))
    decreases f, 1
  {
    hide Limit, ToLe, TakeInt, Bounded, BoundedText, Sized, ReadHead, FunctionHead, Elements, SerializedAll, FitsAll, ReadChunk, ChunkBytes, GoodChunk;
    Widths();
    var s4 := ChunkBytes(f.chunk) + rest;
    var s3 := ToLe(|f.defaults|, 4) + (SerializedAll(f.defaults) + s4);
    var s2 := Sized(f.sourceFile) + s3;
    var s1 := Sized(f.name) + s2;
    assert FunctionBytes(f) + rest == FunctionHead(f) + s1;
    HeadBack(f, s1);
    TextBack(f.name, MAX_NAME, s2);
    TextBack(f.sourceFile, MAX_NAME, s3);
    BoundedBack(|f.defaults|, MAX_DEFAULTS, SerializedAll(f.defaults) + s4);
    ElementsBack(f.defaults, s4);
    ChunkBack(f.chunk, depth + 1, verify, rest);
  }

  // ---- The reader makes nothing else ----

  lemma {:induction false} LocationsGood(st: Stream, count: nat)
    ensures GoodLocations(ReadLocations(st, count).0)
    decreases count
  {
    hide Limit, Take;
    if count > 0 {
      var (line, s1) := TakeInt(st, 4);
      var (col, s2) := TakeInt(s1, 4);
      LocationsGood(TakeInt(s2, 4).1, count - 1);
    }
  }

  lemma {:induction false} ChunkGood(st: Stream, depth: nat, verify: Chunk -> bool)
    ensures var r := ReadChunk(st, depth, verify); r.Ok? ==> GoodChunk(r.value, depth, verify)
    decreases if depth <= MAX_DEPTH then MAX_DEPTH + 1 - depth else 0, 3, 0
  {
    hide Limit, TakeInt, BoundedText, ReadConstants, ReadLocations, GoodConstants, GoodLocations;
    var r := ReadChunk(st, depth, verify);
    if r.Ok? {
      var count := Bounded(Bounded(Bounded(st, MAGIC).after, CHUNK_VERSION).after, MAX_CONSTANTS);
      ConstantsGood(count.after, count.value, depth, verify);
      var constants := ReadConstants(count.after, count.value, depth, verify);
      var size := Bounded(BoundedText(constants.after, MAX_CODE).after, MAX_LOCATIONS);
      LocationsGood(size.after, size.value);
    }
  }

  lemma {:induction false} ConstantsGood(st: Stream, count: nat, depth: nat, verify: Chunk -> bool)
    requires depth <= MAX_DEPTH
    ensures var r := ReadConstants(st, count, depth, verify); r.Ok? ==> GoodConstants(r.value, depth, verify)
    decreases MAX_DEPTH + 1 - depth, 2, count
  {
    hide ReadConstant, GoodConstant;
    if count > 0 {
      ConstantGood(st, depth, verify);
      var c := ReadConstant(st, depth, verify);
      if c.Ok? { ConstantsGood(c.after, count - 1, depth, verify); }
    }
  }

  lemma {:induction false} ConstantGood(st: Stream, depth: nat, verify: Chunk -> bool)
    requires depth <= MAX_DEPTH
    ensures var r := ReadConstant(st, depth, verify); r.Ok? ==> GoodConstant(r.value, depth, verify)
    decreases MAX_DEPTH + 1 - depth, 1, 0
  {
    hide Limit, BoundedText, ReadFunction, GoodFunction;
    FunctionGood(TakeInt(st, 1).1, depth + 1, verify);
  }

  lemma {:induction false} FunctionGood(st: Stream, depth: nat, verify: Chunk -> bool)
    ensures var r := ReadFunction(st, depth, verify); r.Ok? ==> GoodFunction(r.value, depth, verify)
    decreases if depth <= MAX_DEPTH then MAX_DEPTH + 1 - depth else 0, 0, 0
  {
    hide Limit, BoundedText, ReadHead, ReadDefaults, ReadChunk, GoodChunk, FitsAll;
    var r := ReadFunction(st, depth, verify);
    if r.Ok? {
      HeadGood(st);
      var head := ReadHead(st);
      var source := BoundedText(BoundedText(head.after, MAX_NAME).after, MAX_NAME);
      DefaultsGood(source.after, head.value.minor);
      ChunkGood(ReadDefaults(source.after, head.value.minor).after, depth + 1, verify);
    }
  }

  lemma HeadGood(st: Stream)
    ensures var r := ReadHead(st); r.Ok? ==> r.value.arity < Limit(2) && r.value.upvalueCount < Limit(2)
  {
    hide Limit, Take;
  }

  lemma DefaultsGood(st: Stream, minor: nat)
    ensures var r := ReadDefaults(st, minor); r.Ok? ==> |r.value| <= MAX_DEFAULTS && FitsAll(r.value)
  {
    hide Limit, Elements, Fits;
    if minor >= 1 && Bounded(st, MAX_DEFAULTS).Ok? {
      ElementsFit(Bounded(st, MAX_DEFAULTS).after, Bounded(st, MAX_DEFAULTS).value);
    }
  }

  /** A function comes back from its bytes, which are used up exactly, if and only if it is within the limits. */
  lemma FunctionRoundTrip(f: Function, depth: nat, verify: Chunk -> bool, rest: seq<byte>)
    ensures ReadFunction(Good(FunctionBytes(f) + rest), depth, verify) == Ok(f, Good(rest)) <==> GoodFunction(f, depth, verify)
  {
    hide ReadFunction, FunctionBytes, GoodFunction;
    FunctionGood(Good(FunctionBytes(f) + rest), depth, verify);
    if GoodFunction(f, depth, verify) { FunctionBack(f, depth, verify, rest); }
  }

  /** The same for a chunk on its own. */
  lemma ChunkRoundTrip(c: Chunk, depth: nat, verify: Chunk -> bool, rest: seq<byte>)
    ensures ReadChunk(Good(ChunkBytes(c) + rest), depth, verify) == Ok(c, Good(rest)) <==> GoodChunk(c, depth, verify)
  {
    hide ReadChunk, ChunkBytes, GoodChunk;
    ChunkGood(Good(ChunkBytes(c) + rest), depth, verify);
    if GoodChunk(c, depth, verify) { ChunkBack(c, depth, verify, rest); }
  }
}
