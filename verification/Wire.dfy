/**
 * Binary streams: little-endian integers, and an input stream that fails for good when a read
 * asks for more than is left. A failed read delivers what there was, padded with zeros.
 */
module Wire {
  import opened Bytes

  // ---- Little-endian integers ----

  function ToLe(n: nat, width: nat): seq<byte> {
    if width == 0 then [] else [n % 256] + ToLe(n / 256, width - 1)
  }

  function FromLe(bs: seq<byte>): nat { if bs == [] then 0 else bs[0] + 256 * FromLe(bs[1..]) }

  function Limit(width: nat): nat { if width == 0 then 1 else 256 * Limit(width - 1) }

  lemma {:induction false} LeRoundTrip(n: nat, width: nat)
    requires n < Limit(width)
    ensures |ToLe(n, width)| == width && FromLe(ToLe(n, width)) == n
    decreases width
  {
    if width > 0 {
      LeRoundTrip(n / 256, width - 1);
      assert ToLe(n, width)[1..] == ToLe(n / 256, width - 1);
    }
  }

  lemma {:induction false} LeWidth(n: nat, width: nat)
    ensures |ToLe(n, width)| == width
    decreases width
  {
    if width > 0 { LeWidth(n / 256, width - 1); }
  }

  lemma {:induction false} LeBound(bs: seq<byte>)
    ensures FromLe(bs) < Limit(|bs|)
    decreases |bs|
  {
    if bs != [] { LeBound(bs[1..]); }
  }

  lemma Limits()
    ensures Limit(2) == 0x1_0000 && Limit(4) == 0x1_0000_0000
  {
    assert Limit(1) == 256 && Limit(3) == 0x100_0000;
  }

  // ---- Input ----

  datatype Stream = Stream(rest: seq<byte>, bad: bool)

  function Zeros(n: nat): seq<byte> { seq(n, _ => 0) }

  /** What a read of n bytes delivers, and the stream after it. */
  function Take(st: Stream, n: nat): (r: (seq<byte>, Stream))
    ensures |r.0| == n && |r.1.rest| <= |st.rest| && (st.bad ==> r.1.bad)
    ensures !r.1.bad ==> |r.1.rest| == |st.rest| - n
  {
    if st.bad then (Zeros(n), st)
    else if n <= |st.rest| then (st.rest[..n], Stream(st.rest[n..], false))
    else (st.rest + Zeros(n - |st.rest|), Stream([], true))
  }

  function TakeInt(st: Stream, width: nat): (r: (nat, Stream))
    ensures |r.1.rest| <= |st.rest| && (st.bad ==> r.1.bad) && (!r.1.bad ==> |r.1.rest| == |st.rest| - width)
    ensures r.0 < Limit(width)
  {
    var (bs, after) := Take(st, width);
    LeBound(bs);
    (FromLe(bs), after)
  }

  function Good(bs: seq<byte>): Stream { Stream(bs, false) }

  lemma TakeFront(bs: seq<byte>, rest: seq<byte>)
    ensures Take(Good(bs + rest), |bs|) == (bs, Good(rest))
  {}

  lemma TakeIntFront(n: nat, width: nat, rest: seq<byte>)
    requires n < Limit(width)
    ensures TakeInt(Good(ToLe(n, width) + rest), width) == (n, Good(rest))
  {
    LeRoundTrip(n, width);
    TakeFront(ToLe(n, width), rest);
  }

  class InStream {
    var st: Stream

    constructor (bytes: seq<byte>)
      ensures st == Good(bytes)
    {
      st := Good(bytes);
    }

    method Read(n: nat) returns (bs: seq<byte>)
      modifies this
      ensures (bs, st) == Take(old(st), n)
    {
      if st.bad {
        bs := Zeros(n);
      } else if n <= |st.rest| {
        bs, st := st.rest[..n], Stream(st.rest[n..], false);
      } else {
        bs, st := st.rest + Zeros(n - |st.rest|), Stream([], true);
      }
    }

    method ReadInt(width: nat) returns (n: nat)
      modifies this
      ensures (n, st) == TakeInt(old(st), width)
    {
      var bs := Read(width);
      n := FromLe(bs);
    }
  }

  class OutStream {
    var bytes: seq<byte>

    constructor ()
      ensures bytes == []
    {
      bytes := [];
    }

    method Write(bs: seq<byte>)
      modifies this
      ensures bytes == old(bytes) + bs
    {
      bytes := bytes + bs;
    }

    method WriteInt(n: nat, width: nat)
      modifies this
      ensures bytes == old(bytes) + ToLe(n, width)
    {
      Write(ToLe(n, width));
    }
  }
}
