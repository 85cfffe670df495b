/** Writing functions and chunks to a stream and reading them back; the reader throws on bad input. */
module ShbcFile {
  import opened Bytes
  import opened Wire
  import opened ValueCodec
  import opened ShbcCodec

  // ---- Writing ----

  method SerializeChunk(out: OutStream, c: Chunk)
    modifies out
    ensures out.bytes == old(out.bytes) + ChunkBytes(c)
    decreases c, 3
  {
    hide ToLe, ConstantsBytes, LocationBytes, Sized;
    ghost var before := out.bytes;
    out.WriteInt(MAGIC, 4);
    out.WriteInt(CHUNK_VERSION, 4);
    out.WriteInt(|c.constants|, 4);
    assert out.bytes == before + ChunkHead(c);
    WriteConstants(out, c.constants);
    assert out.bytes == before + (ChunkHead(c) + ConstantsBytes(c.constants));
    WriteTail(out, c);
    assert before + (ChunkHead(c) + ConstantsBytes(c.constants)) + ChunkTail(c) == before + ChunkBytes(c);
  }

  method WriteTail(out: OutStream, c: Chunk)
    modifies out
    ensures out.bytes == old(out.bytes) + ChunkTail(c)
  {
    hide ToLe, LocationBytes, Sized;
    WriteSized(out, c.code);
    out.WriteInt(|c.locations|, 4);
    WriteLocations(out, c.locations);
  }

  method WriteLocations(out: OutStream, locs: seq<Location>)
    modifies out
    ensures out.bytes == old(out.bytes) + LocationBytes(locs)
  {
    hide ToLe, LocationBytes;
    ghost var before := out.bytes;
    var i := 0;
    assert locs[0..] == locs;
    while i < |locs|
      invariant i <= |locs| && out.bytes + LocationBytes(locs[i..]) == before + LocationBytes(locs)
    {
      NextLocation(out.bytes, locs, i);
      out.WriteInt(locs[i].line, 4);
      out.WriteInt(locs[i].col, 4);
      out.WriteInt(locs[i].count, 4);
      i := i + 1;
    }
    NoLocations(out.bytes, locs);
  }

  lemma NextLocation(bs: seq<byte>, locs: seq<Location>, i: nat)
    requires i < |locs|
    ensures bs + LocationBytes(locs[i..])
            == (bs + ToLe(locs[i].line, 4) + ToLe(locs[i].col, 4) + ToLe(locs[i].count, 4)) + LocationBytes(locs[i + 1..])
  {
    hide ToLe;
    assert locs[i..][1..] == locs[i + 1..];
  }

  lemma NoLocations(bs: seq<byte>, locs: seq<Location>)
    ensures bs + LocationBytes(locs[|locs|..]) == bs
  {
    assert locs[|locs|..] == [];
  }

  method WriteConstants(out: OutStream, cs: seq<Constant>)
    modifies out
    ensures out.bytes == old(out.bytes) + ConstantsBytes(cs)
    decreases cs, 2
  {
    hide ConstantBytes, ConstantsBytes;
    ghost var before := out.bytes;
    var i := 0;
    assert cs[0..] == cs;
    while i < |cs|
      invariant i <= |cs| && out.bytes + ConstantsBytes(cs[i..]) == before + ConstantsBytes(cs)
    {
      NextConstant(out.bytes, cs, i);
      WriteConstant(out, cs[i]);
      i := i + 1;
    }
    NoConstants(out.bytes, cs);
  }

  lemma NextConstant(bs: seq<byte>, cs: seq<Constant>, i: nat)
    requires i < |cs|
    ensures bs + ConstantsBytes(cs[i..]) == (bs + ConstantBytes(cs[i])) + ConstantsBytes(cs[i + 1..])
  {
    hide ConstantBytes;
    assert cs[i..][1..] == cs[i + 1..];
  }

  lemma NoConstants(bs: seq<byte>, cs: seq<Constant>)
    ensures bs + ConstantsBytes(cs[|cs|..]) == bs
  {
    assert cs[|cs|..] == [];
  }

  method WriteConstant(out: OutStream, c: Constant)
    modifies out
    ensures out.bytes == old(out.bytes) + ConstantBytes(c)
    decreases c, 1
  {
    hide FunctionBytes, Sized;
    match c
    case ConstNull => out.Write([0]);
    case ConstBool(b) => out.Write([1, if b then 1 else 0]);
    case ConstNumber(bits) => out.Write([2] + bits);
    case ConstText(s) =>
      out.Write([3]);
      WriteSized(out, s);
    case ConstFunction(f) =>
      out.Write([4]);
      SerializeFunction(out, f);
  }

  method SerializeFunction(out: OutStream, f: Function)
    modifies out
    ensures out.bytes == old(out.bytes) + FunctionBytes(f)
    decreases f, 2
  {
    hide ToLe, Sized, SerializedAll, ChunkBytes, FunctionHead;
    ghost var before := out.bytes;
    WriteHead(out, f);
    WriteSized(out, f.name);
    WriteSized(out, f.sourceFile);
    WriteAll(out, f.defaults);
    SerializeChunk(out, f.chunk);
    assert out.bytes == before + FunctionBytes(f);
  }

  method WriteHead(out: OutStream, f: Function)
    modifies out
    ensures out.bytes == old(out.bytes) + FunctionHead(f)
  {
    hide ToLe;
    out.WriteInt(MAGIC, 4);
    out.WriteInt(VERSION_MAJOR, 2);
    out.WriteInt(VERSION_MINOR, 2);
    out.WriteInt(f.arity, 2);
    out.WriteInt(f.upvalueCount, 2);
  }

  // ---- Reading ----

  /** What a call returns, unless it throws. */
  datatype Caught<T> = Returned(value: T) | Exception

  /** The call did what the reader function says. */
  ghost predicate Agrees<T>(r: Caught<T>, st: Stream, spec: Result<T>) {
    spec == if r.Returned? then Ok(r.value, st) else Thrown
  }

  method ReadBounded(input: InStream, max: nat) returns (r: Caught<nat>)
    modifies input
    ensures Agrees(r, input.st, Bounded(old(input.st), max))
  {
    var n := input.ReadInt(4);
    r := if input.st.bad || n > max then Exception else Returned(n);
  }

  method ReadText(input: InStream, max: nat) returns (r: Caught<seq<byte>>)
    modifies input
    ensures Agrees(r, input.st, BoundedText(old(input.st), max))
  {
    hide Bounded;
    var len := ReadBounded(input, max);
    if len.Exception? { return Exception; }
    var s := input.Read(len.value);
    r := if input.st.bad then Exception else Returned(s);
  }

  method DeserializeChunk(input: InStream, depth: nat, verify: Chunk -> bool) returns (r: Caught<Chunk>)
    modifies input
    ensures Agrees(r, input.st, ReadChunk(old(input.st), depth, verify))
    decreases if depth <= MAX_DEPTH then MAX_DEPTH + 1 - depth else 0, 3, 0
  {
    hide Bounded, BoundedText, ReadConstants, ReadLocations;
    if depth > MAX_DEPTH { return Exception; }
    var magic := ReadBounded(input, MAGIC);
    if magic.Exception? || magic.value != MAGIC { return Exception; }
    var version := ReadBounded(input, CHUNK_VERSION);
    if version.Exception? { return Exception; }
    var count := ReadBounded(input, MAX_CONSTANTS);
    if count.Exception? { return Exception; }
    var constants := DeserializeConstants(input, count.value, depth, verify);
    if constants.Exception? { return Exception; }
    var code := ReadText(input, MAX_CODE);
    if code.Exception? { return Exception; }
    var size := ReadBounded(input, MAX_LOCATIONS);
    if size.Exception? { return Exception; }
    var locations := DeserializeLocations(input, size.value);
    var c := Chunk(constants.value, code.value, locations);
    r := if verify(c) then Returned(c) else Exception;
  }

  method DeserializeLocations(input: InStream, count: nat) returns (locs: seq<Location>)
    modifies input
    ensures (locs, input.st) == ReadLocations(old(input.st), count)
  {
    hide TakeInt;
    locs := [];
    ghost var all := ReadLocations(input.st, count);
    assert [] + all.0 == all.0;
    for i := 0 to count
      invariant var (more, after) := ReadLocations(input.st, count - i); (locs + more, after) == all
    {
      ghost var was := locs;
      var line := input.ReadInt(4);
      var col := input.ReadInt(4);
      var n := input.ReadInt(4);
      locs := locs + [Location(line, col, n)];
      ghost var more := ReadLocations(input.st, count - i - 1).0;
      assert was + ([Location(line, col, n)] + more) == locs + more;
    }
    assert locs + [] == locs;
  }

  method DeserializeConstants(input: InStream, count: nat, depth: nat, verify: Chunk -> bool) returns (r: Caught<seq<Constant>>)
    requires depth <= MAX_DEPTH
    modifies input
    ensures Agrees(r, input.st, ReadConstants(old(input.st), count, depth, verify))
    decreases MAX_DEPTH + 1 - depth, 2, 0
  {
    hide ReadConstant, ReadConstants;
    ghost var spec := ReadConstants(input.st, count, depth, verify);
    var cs: seq<Constant> := [];
    NothingRead(input.st, count, depth, verify);
    var i := 0;
    while i < count
      invariant i <= count && spec == After(cs, ReadConstants(input.st, count - i, depth, verify))
    {
      ghost var st := input.st;
      var c := DeserializeConstant(input, depth, verify);
      OneRead(cs, st, count - i, depth, verify);
      if c.Exception? { return Exception; }
      cs := cs + [c.value];
      i := i + 1;
    }
    AllRead(cs, input.st, depth, verify);
    r := Returned(cs);
  }

  /** A result with constants in front that were read before. */
  function After(cs: seq<Constant>, r: Result<seq<Constant>>): Result<seq<Constant>> {
    if r.Thrown? then Thrown else Ok(cs + r.value, r.after)
  }

  lemma NothingRead(st: Stream, count: nat, depth: nat, verify: Chunk -> bool)
    requires depth <= MAX_DEPTH
    ensures var r := ReadConstants(st, count, depth, verify); r == After([], r)
  {
    hide ReadConstant;
    var r := ReadConstants(st, count, depth, verify);
    if r.Ok? { assert [] + r.value == r.value; }
  }

  lemma OneRead(cs: seq<Constant>, st: Stream, count: nat, depth: nat, verify: Chunk -> bool)
    requires depth <= MAX_DEPTH && count > 0
    ensures var c := ReadConstant(st, depth, verify);
            After(cs, ReadConstants(st, count, depth, verify)) ==
            if c.Thrown? then Thrown else After(cs + [c.value], ReadConstants(c.after, count - 1, depth, verify))
  {
    hide ReadConstant;
    var c := ReadConstant(st, depth, verify);
    if c.Ok? {
      var more := ReadConstants(c.after, count - 1, depth, verify);
      if more.Ok? { assert cs + ([c.value] + more.value) == cs + [c.value] + more.value; }
    }
  }

  lemma AllRead(cs: seq<Constant>, st: Stream, depth: nat, verify: Chunk -> bool)
    requires depth <= MAX_DEPTH
    ensures After(cs, ReadConstants(st, 0, depth, verify)) == Ok(cs, st)
  {
    assert cs + [] == cs;
  }

  method DeserializeConstant(input: InStream, depth: nat, verify: Chunk -> bool) returns (r: Caught<Constant>)
    requires depth <= MAX_DEPTH
    modifies input
    ensures Agrees(r, input.st, ReadConstant(old(input.st), depth, verify))
    decreases MAX_DEPTH + 1 - depth, 1, 0
  {
    hide BoundedText, ReadFunction, Take;
    var tag := input.ReadInt(1);
    if input.st.bad { return Exception; }
    if tag == 0 {
      r := Returned(ConstNull);
    } else if tag == 1 {
      var b := input.ReadInt(1);
      r := Returned(ConstBool(b != 0));
    } else if tag == 2 {
      var bits := input.Read(8);
      r := Returned(ConstNumber(bits));
    } else if tag == 3 {
      var s := ReadText(input, MAX_TEXT);
      r := if s.Exception? then Exception else Returned(ConstText(s.value));
    } else if tag == 4 {
      var f := DeserializeFunction(input, depth + 1, verify);
      r := if f.Exception? then Exception else Returned(ConstFunction(f.value));
    } else {
      r := Exception;
    }
  }

  method DeserializeFunction(input: InStream, depth: nat, verify: Chunk -> bool) returns (r: Caught<Function>)
    modifies input
    ensures Agrees(r, input.st, ReadFunction(old(input.st), depth, verify))
    decreases if depth <= MAX_DEPTH then MAX_DEPTH + 1 - depth else 0, 0, 0
  {
    hide BoundedText, ReadHead, ReadDefaults, ReadChunk;
    if depth > MAX_DEPTH { return Exception; }
    var head := DeserializeHead(input);
    if head.Exception? { return Exception; }
    var name := ReadText(input, MAX_NAME);
    if name.Exception? { return Exception; }
    var source := ReadText(input, MAX_NAME);
    if source.Exception? { return Exception; }
    var defaults := DeserializeDefaults(input, head.value.minor);
    if defaults.Exception? { return Exception; }
    var chunk := DeserializeChunk(input, depth + 1, verify);
    if chunk.Exception? { return Exception; }
    r := Returned(Function(head.value.arity, head.value.upvalueCount, name.value, source.value, defaults.value, chunk.value));
  }

  method DeserializeHead(input: InStream) returns (r: Caught<Head>)
    modifies input
    ensures Agrees(r, input.st, ReadHead(old(input.st)))
  {
    hide Bounded, TakeInt;
    var magic := ReadBounded(input, MAGIC);
    if magic.Exception? || magic.value != MAGIC { return Exception; }
    var major := input.ReadInt(2);
    var minor := input.ReadInt(2);
    if input.st.bad || major != VERSION_MAJOR { return Exception; }
    var arity := input.ReadInt(2);
    if input.st.bad { return Exception; }
    var upvalueCount := input.ReadInt(2);
    r := if input.st.bad then Exception else Returned(Head(minor, arity, upvalueCount));
  }

  method DeserializeDefaults(input: InStream, minor: nat) returns (r: Caught<seq<Plain>>)
    modifies input
    ensures Agrees(r, input.st, ReadDefaults(old(input.st), minor))
  {
    hide Bounded, Elements;
    if minor < 1 { return Returned([]); }
    var count := ReadBounded(input, MAX_DEFAULTS);
    if count.Exception? { return Exception; }
    var defaults := ReadElements(input, count.value);
    r := Returned(defaults);
  }
}
