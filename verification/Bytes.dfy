/** Bytes, and where a stretch of bytes stands in a longer one. */
module Bytes {
  type byte = x: int | 0 <= x < 256

  predicate StandsAt(src: seq<byte>, pos: nat, t: seq<byte>) { pos + |t| <= |src| && src[pos..pos + |t|] == t }

  lemma StandsSplit(src: seq<byte>, pos: nat, t: seq<byte>, u: seq<byte>)
    requires StandsAt(src, pos, t + u)
    ensures StandsAt(src, pos, t) && StandsAt(src, pos + |t|, u)
  {
    assert (t + u)[..|t|] == t && (t + u)[|t|..] == u;
  }

  lemma StandsByte(src: seq<byte>, pos: nat, t: seq<byte>, k: nat)
    requires StandsAt(src, pos, t) && k < |t|
    ensures pos + k < |src| && src[pos + k] == t[k]
  {
    assert src[pos..pos + |t|][k] == src[pos + k];
  }
}
