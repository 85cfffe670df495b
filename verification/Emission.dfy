/** What the compiler's output looks like while it is being written: every
    instruction it has decided on, and which jumps still wait for their operand. */
module Emission {
  import opened Bytes
  import opened Values
  import opened Language
  import opened CodeGen
  import opened Machine
  import opened Bytecode

  /** size: bytes written; asm: the instructions decided on, by address;
      pending: the addresses of jumps not patched yet; consts: constants used. */
  datatype View = View(size: nat, asm: Listing, pending: set<nat>, consts: nat)

  function Put(v: View, i: Instr): View {
    v.(size := v.size + Len(i), asm := v.asm[v.size := i])
  }

  function PutOpen(v: View, i: Instr): View {
    Put(v, i).(pending := v.pending + {v.size})
  }

  function Close(v: View, q: nat): View { v.(pending := v.pending - {q}) }

  /** A test: a conditional jump to t, still open, and a pop. */
  function Test(v: View, t: nat): View { Put(PutOpen(v, JumpIfFalse(t)), Instr.Pop) }

  /** A jump to t, still open; the jump at q lands behind it, on a pop. */
  function Else(v: View, q: nat, t: nat): View { Put(Close(PutOpen(v, Jump(t)), q), Instr.Pop) }

  predicate Within(a: Listing, b: Listing) { forall q | q in a :: q in b && b[q] == a[q] }

  predicate Tidy(v: View) { (forall q | q in v.asm :: q < v.size) && (forall q | q in v.pending :: q in v.asm) }

  lemma PutFacts(v: View, i: Instr)
    requires Tidy(v)
    ensures var w := Put(v, i); Tidy(w) && Within(v.asm, w.asm) && Has(w.asm, v.size, i)
    ensures var w := PutOpen(v, i); Tidy(w) && Within(v.asm, w.asm) && Has(w.asm, v.size, i)
  {}

  lemma TestFacts(v: View, t: nat)
    requires Tidy(v)
    ensures var w := Test(v, t);
            && Tidy(w) && Within(v.asm, w.asm) && w.size == v.size + 4 && w.consts == v.consts
            && w.pending == v.pending + {v.size}
            && Has(w.asm, v.size, JumpIfFalse(t)) && Has(w.asm, v.size + 3, Instr.Pop)
  {
    PutFacts(v, JumpIfFalse(t));
    PutFacts(PutOpen(v, JumpIfFalse(t)), Instr.Pop);
  }

  lemma ElseFacts(v: View, q: nat, t: nat)
    requires Tidy(v) && q < v.size
    ensures var w := Else(v, q, t);
            && Tidy(w) && Within(v.asm, w.asm) && w.size == v.size + 4 && w.consts == v.consts
            && w.pending == v.pending - {q} + {v.size}
            && Has(w.asm, v.size, Jump(t)) && Has(w.asm, v.size + 3, Instr.Pop)
  {
    PutFacts(v, Jump(t));
    PutFacts(Close(PutOpen(v, Jump(t)), q), Instr.Pop);
  }

  lemma WithinTrans(a: Listing, b: Listing, c: Listing)
    requires Within(a, b) && Within(b, c)
    ensures Within(a, c)
  {}

  lemma WithinSame(a: Listing)
    ensures Within(a, a)
  {}

  lemma HasMono(a: Listing, b: Listing, p: nat, i: Instr)
    requires Within(a, b) && Has(a, p, i)
    ensures Has(b, p, i)
  {}

  // ---- Code that is laid out, whatever is written after it ----

  ghost predicate LaidE(asm: Listing, e: Expr, p: nat, locals: seq<string>) {
    forall fin | Within(asm, fin) :: LayoutE(fin, e, p, locals)
  }

  ghost predicate LaidEs(asm: Listing, es: seq<Expr>, p: nat, locals: seq<string>) {
    forall fin | Within(asm, fin) :: LayoutEs(fin, es, p, locals)
  }

  ghost predicate LaidLeave(asm: Listing, p: nat, cx: Context) {
    forall fin | Within(asm, fin) :: LayoutLeave(fin, p, cx)
  }

  ghost predicate LaidS(asm: Listing, s: Stmt, p: nat, cx: Context, stop: Target, skip: Target) {
    forall fin | Within(asm, fin) :: LayoutS(fin, s, p, cx, stop, skip)
  }

  ghost predicate LaidB(asm: Listing, b: seq<Stmt>, p: nat, cx: Context, stop: Target, skip: Target) {
    forall fin | Within(asm, fin) :: LayoutB(fin, b, p, cx, stop, skip)
  }

  // ---- The bytes behind a view ----

  predicate IsForward(i: Instr) { i.Jump? || i.JumpIfFalse? || i.BeginTry? || i.ForIter? }

  function Destination(i: Instr): nat
    requires IsForward(i)
  {
    i.target
  }

  /** Instruction i is in place at q, except for the operand of an open jump. */
  predicate Coded(code: seq<byte>, constants: seq<Value>, q: nat, i: Instr, open: bool) {
    && q + Len(i) <= |code|
    && if open then IsForward(i) && code[q] == Opcode(i) else Decode(code, constants, q) == Some(i)
  }

  ghost predicate Sound(code: seq<byte>, constants: seq<Value>, asm: Listing, pending: set<nat>) {
    && pending <= asm.Keys
    && (forall q | q in asm :: Coded(code, constants, q, asm[q], q in pending))
    && (forall q, r | q in asm && r in asm && q < r :: q + Len(asm[q]) <= r)
  }

  lemma CodedFrame(a: seq<byte>, b: seq<byte>, ca: seq<Value>, cb: seq<Value>, q: nat, i: Instr, open: bool)
    requires Coded(a, ca, q, i, open) && q + Len(i) <= |b| && ca <= cb
    requires a[q..q + Len(i)] == b[q..q + Len(i)]
    ensures Coded(b, cb, q, i, open)
  {
    if open {
      assert b[q] == b[q..q + Len(i)][0] == a[q..q + Len(i)][0] == a[q];
    } else {
      DecodeFrame(a, b, ca, cb, q, i);
    }
  }

  /** Appending the bytes of one more instruction. */
  lemma AppendSound(code: seq<byte>, constants: seq<Value>, asm: Listing, pending: set<nat>,
                    bytes: seq<byte>, i: Instr, open: bool)
    requires Sound(code, constants, asm, pending) && |bytes| == Len(i)
    requires Coded(code + bytes, constants, |code|, i, open)
    ensures |code| !in asm
    ensures Sound(code + bytes, constants, asm[|code| := i], if open then pending + {|code|} else pending)
  {
    hide Coded, Decode, Opcode;
    CodedBounds(code, constants, asm, pending);
    forall q | q in asm ensures Coded(code + bytes, constants, q, asm[q], q in pending) {
      CodedEnd(code, constants, q, asm[q], q in pending);
      assert code[q..q + Len(asm[q])] == (code + bytes)[q..q + Len(asm[q])];
      CodedFrame(code, code + bytes, constants, constants, q, asm[q], q in pending);
    }
  }

  lemma CodedEnd(code: seq<byte>, constants: seq<Value>, q: nat, i: Instr, open: bool)
    requires Coded(code, constants, q, i, open)
    ensures q + Len(i) <= |code|
  {}

  lemma CodedBounds(code: seq<byte>, constants: seq<Value>, asm: Listing, pending: set<nat>)
    requires Sound(code, constants, asm, pending)
    ensures forall q | q in asm :: q + Len(asm[q]) <= |code|
    ensures |code| !in asm
  {
    forall q | q in asm ensures q + Len(asm[q]) <= |code| { CodedEnd(code, constants, q, asm[q], q in pending); }
  }

  lemma ConstantSound(code: seq<byte>, constants: seq<Value>, asm: Listing, pending: set<nat>, v: Value)
    requires Sound(code, constants, asm, pending)
    ensures Sound(code, constants + [v], asm, pending)
  {
    hide Coded;
    forall q | q in asm ensures Coded(code, constants + [v], q, asm[q], q in pending) {
      CodedEnd(code, constants, q, asm[q], q in pending);
      CodedFrame(code, code, constants, constants + [v], q, asm[q], q in pending);
    }
  }

  function Big(n: nat): seq<byte> { [n / 256 % 256, n % 256] }

  lemma BigShort(code: seq<byte>, p: nat, n: nat)
    requires p + 2 <= |code| && code[p..p + 2] == Big(n)
    ensures Short(code, p) == n % 65536
  {
    assert code[p] == code[p..p + 2][0] && code[p + 1] == code[p..p + 2][1];
  }

  lemma OneDecodes(code: seq<byte>, constants: seq<Value>, op: byte, i: Instr)
    requires One(op) == Some(i)
    ensures Len(i) == 1 && Decode(code + [op], constants, |code|) == Some(i)
  {}

  lemma WideDecodes(code: seq<byte>, constants: seq<Value>, op: byte, n: nat, i: Instr)
    requires Wide(op, n % 65536, |code| + 3, constants) == Some(i)
    ensures Len(i) == 3 && Decode(code + [op] + Big(n), constants, |code|) == Some(i)
  {
    var p := |code|;
    var b := code + [op] + Big(n);
    assert b[p] == op && b[p + 1..p + 3] == Big(n);
    BigShort(b, p + 1, n);
    hide Short;
  }

  /** Writing the operand of an open jump. */
  lemma PatchSound(code: seq<byte>, constants: seq<Value>, asm: Listing, pending: set<nat>, q: nat, jump: nat)
    requires Sound(code, constants, asm, pending) && q in pending && IsForward(asm[q])
    requires jump <= 65535 && Destination(asm[q]) == q + 3 + jump && q + 3 <= |code|
    ensures var b := code[q + 1 := jump / 256][q + 2 := jump % 256];
            Sound(b, constants, asm, pending - {q})
  {
    var b := code[q + 1 := jump / 256][q + 2 := jump % 256];
    PatchDecodes(code, constants, asm[q], q, jump);
    hide Coded, Decode, Opcode;
    forall r | r in asm ensures Coded(b, constants, r, asm[r], r in pending - {q}) {
      CodedEnd(code, constants, r, asm[r], r in pending);
      if r != q {
        var n := Len(asm[r]);
        assert r + n <= q || q + 3 <= r;
        assert forall k :: r <= k < r + n ==> b[k] == code[k];
        assert code[r..r + n] == b[r..r + n];
        CodedFrame(code, b, constants, constants, r, asm[r], r in pending);
      }
    }
  }

  lemma PatchDecodes(code: seq<byte>, constants: seq<Value>, i: Instr, q: nat, jump: nat)
    requires IsForward(i) && jump <= 65535 && Destination(i) == q + 3 + jump && q + 3 <= |code| && code[q] == Opcode(i)
    ensures Coded(code[q + 1 := jump / 256][q + 2 := jump % 256], constants, q, i, false) && Len(i) == 3
  {
    var b := code[q + 1 := jump / 256][q + 2 := jump % 256];
    assert b[q] == code[q] && Short(b, q + 1) == jump;
    hide Short;
  }

  lemma SoundTidy(code: seq<byte>, constants: seq<Value>, asm: Listing, pending: set<nat>)
    requires Sound(code, constants, asm, pending)
    ensures Tidy(View(|code|, asm, pending, |constants|))
  {
    CodedBounds(code, constants, asm, pending);
  }

  lemma OneOpOf(op: BinOp)
    ensures One(OpOf(op)) == Some(Operate(op))
  {}
}
