/** Glob patterns: an iterative matcher that only ever goes back to the last star. */
module Glob {

  // ---- What a pattern means ----

  predicate Matches(pat: string, s: string)
    decreases |pat|
  {
    if pat == "" then s == ""
    else if pat[0] == '*' then exists k | 0 <= k <= |s| :: Matches(pat[1..], s[k..])
    else s != "" && (pat[0] == '?' || pat[0] == s[0]) && Matches(pat[1..], s[1..])
  }

  predicate Fits(pat: string, p: nat, s: string, i: nat)
    requires p < |pat| && i < |s|
  {
    pat[p] == '?' || pat[p] == s[i]
  }

  // ---- The matcher ----

  predicate OnlyStars(pat: string) { forall k | 0 <= k < |pat| :: pat[k] == '*' }

  /** The loop from a state on; star is the last star passed, or -1, and mark the place it was last tried at. */
  predicate Loop(pat: string, s: string, p: nat, i: nat, star: int, mark: nat)
    requires -1 <= star < p <= |pat| && mark <= i <= |s|
    decreases |pat| - star, |s| - mark, |s| - i
  {
    if i == |s| then OnlyStars(pat[p..])
    else if p < |pat| && Fits(pat, p, s, i) then Loop(pat, s, p + 1, i + 1, star, mark)
    else if p < |pat| && pat[p] == '*' then Loop(pat, s, p + 1, i, p, i)
    else star >= 0 && Loop(pat, s, star + 1, mark + 1, star, mark + 1)
  }

  method GlobMatch(pat: string, s: string) returns (ok: bool)
    ensures ok == Loop(pat, s, 0, 0, -1, 0)
  {
    var p, i, mark := 0, 0, 0;
    var star := -1;
    while i < |s|
      invariant -1 <= star < p <= |pat| && mark <= i <= |s| && Loop(pat, s, p, i, star, mark) == Loop(pat, s, 0, 0, -1, 0)
      decreases |pat| - star, |s| - mark, |s| - i
    {
      if p < |pat| && (pat[p] == '?' || pat[p] == s[i]) {
        p, i := p + 1, i + 1;
      } else if p < |pat| && pat[p] == '*' {
        star := p;
        p, mark := p + 1, i;
      } else if star != -1 {
        p, mark := star + 1, mark + 1;
        i := mark;
      } else {
        return false;
      }
    }
    ghost var from := p;
    while p < |pat| && pat[p] == '*'
      invariant from <= p <= |pat| && forall k | from <= k < p :: pat[k] == '*'
    {
      p := p + 1;
    }
    ok := p == |pat|;
    RestIsStars(pat, from, p);
  }

  lemma RestIsStars(pat: string, from: nat, p: nat)
    requires from <= p <= |pat| && (forall k | from <= k < p :: pat[k] == '*') && (p < |pat| ==> pat[p] != '*')
    ensures OnlyStars(pat[from..]) <==> p == |pat|
  {
    if p < |pat| { assert pat[from..][p - from] == pat[p]; }
  }

  // ---- Facts about patterns ----

  lemma StarSplits(pat: string, s: string, k: nat)
    requires pat != "" && pat[0] == '*' && k <= |s| && Matches(pat[1..], s[k..])
    ensures Matches(pat, s)
  {}

  /** A pattern that starts with a star matches longer texts too. */
  lemma StarAbsorbs(pat: string, s: string, i: nat, j: nat)
    requires pat != "" && pat[0] == '*' && i <= j <= |s| && Matches(pat, s[j..])
    ensures Matches(pat, s[i..])
  {
    var k :| 0 <= k <= |s[j..]| && Matches(pat[1..], s[j..][k..]);
    assert s[j..][k..] == s[i..][j - i + k..];
    StarSplits(pat, s[i..], j - i + k);
  }

  lemma {:induction false} StarsMatchNothing(pat: string)
    ensures Matches(pat, "") <==> OnlyStars(pat)
    decreases |pat|
  {
    if pat != "" {
      StarsMatchNothing(pat[1..]);
      assert forall k | 0 < k < |pat| :: pat[k] == pat[1..][k - 1];
      if pat[0] == '*' && Matches(pat[1..], "") { assert ""[0..] == ""; }
    }
  }

  /** Without stars, a pattern takes exactly as many characters as it has. */
  lemma {:induction false} SegmentTakes(pat: string, q: nat, s: string)
    requires q <= |pat| && (forall k | 0 <= k < q :: pat[k] != '*') && Matches(pat, s)
    ensures q <= |s| && Matches(pat[q..], s[q..])
    decreases q
  {
    if q == 0 {
      assert pat[0..] == pat && s[0..] == s;
    } else {
      SegmentTakes(pat[1..], q - 1, s[1..]);
      assert pat[1..][q - 1..] == pat[q..] && s[1..][q - 1..] == s[q..];
    }
  }

  /** The part of a pattern after its first character, at a place in the text. */
  lemma StepOver(pat: string, p: nat, s: string, i: nat)
    requires p < |pat| && i <= |s| && pat[p] != '*'
    ensures Matches(pat[p..], s[i..]) <==> i < |s| && Fits(pat, p, s, i) && Matches(pat[p + 1..], s[i + 1..])
  {
    assert pat[p..][1..] == pat[p + 1..];
    if i < |s| { assert s[i..][1..] == s[i + 1..]; }
  }

  lemma StepStar(pat: string, p: nat, s: string, i: nat)
    requires p < |pat| && i <= |s| && pat[p] == '*'
    ensures Matches(pat[p..], s[i..]) <==> Matches(pat[p + 1..], s[i..]) || Later(pat, p, s, i)
  {
    var here, after := pat[p..], pat[p + 1..];
    assert here[1..] == after;
    if Matches(here, s[i..]) {
      var k :| 0 <= k <= |s[i..]| && Matches(here[1..], s[i..][k..]);
      assert s[i..][k..] == s[i + k..];
      if k == 0 { assert s[i + 0..] == s[i..]; }
    }
    if Matches(after, s[i..]) {
      assert s[i..][0..] == s[i..];
      StarSplits(here, s[i..], 0);
    }
    if Later(pat, p, s, i) {
      var k: nat :| i < k <= |s| && Matches(after, s[k..]);
      assert s[i..][k - i..] == s[k..];
      StarSplits(here, s[i..], k - i);
    }
  }

  // ---- Going back to the last star is enough ----

  /** The star could take more than up to mark. */
  predicate Later(pat: string, star: int, s: string, mark: nat)
    requires -1 <= star < |pat|
  {
    star >= 0 && exists k | mark < k <= |s| :: Matches(pat[star + 1..], s[k..])
  }

  /** Since the last star, a segment without stars has been matched character by character. */
  predicate Segment(pat: string, p: nat, i: nat, star: int, mark: nat)
    requires -1 <= star < p <= |pat| && mark <= i
  {
    star >= 0 ==> pat[star] == '*' && p - star - 1 == i - mark && forall k | star < k < p :: pat[k] != '*'
  }

  /** What is left to decide: the present try, or a later place for the last star. */
  predicate Pending(pat: string, s: string, p: nat, i: nat, star: int, mark: nat)
    requires -1 <= star < p <= |pat| && mark <= i <= |s|
  {
    Matches(pat[p..], s[i..]) || Later(pat, star, s, mark)
  }

  /** A later place for the last star, met again after the segment. */
  lemma LaterTakes(pat: string, s: string, p: nat, i: nat, star: int, mark: nat, k: nat)
    requires -1 <= star < p <= |pat| && mark <= i <= |s| && Segment(pat, p, i, star, mark) && star >= 0
    requires mark < k <= |s| && Matches(pat[star + 1..], s[k..])
    ensures i < k + (i - mark) <= |s| && Matches(pat[p..], s[k + (i - mark)..])
  {
    var q := i - mark;
    var rest := pat[star + 1..];
    assert forall n | 0 <= n < q :: rest[n] == pat[star + 1 + n];
    SegmentTakes(rest, q, s[k..]);
    assert rest[q..] == pat[p..] && s[k..][q..] == s[k + q..];
  }

  /** At a new star, the places of the old one no longer matter. */
  lemma NewStar(pat: string, s: string, p: nat, i: nat, star: int, mark: nat)
    requires -1 <= star < p < |pat| && mark <= i <= |s| && Segment(pat, p, i, star, mark) && pat[p] == '*'
    ensures Pending(pat, s, p, i, star, mark) <==> Pending(pat, s, p + 1, i, p, i)
  {
    hide Matches;
    StepStar(pat, p, s, i);
    if Later(pat, star, s, mark) {
      var k: nat :| mark < k <= |s| && Matches(pat[star + 1..], s[k..]);
      LaterTakes(pat, s, p, i, star, mark, k);
      StarAbsorbs(pat[p..], s, i, k + (i - mark));
    }
  }

  /** At the end of the text, no later place can help. */
  lemma AtEnd(pat: string, s: string, p: nat, star: int, mark: nat)
    requires -1 <= star < p <= |pat| && mark <= |s| && Segment(pat, p, |s|, star, mark)
    ensures Pending(pat, s, p, |s|, star, mark) <==> OnlyStars(pat[p..])
  {
    hide Matches;
    StarsMatchNothing(pat[p..]);
    assert s[|s|..] == "";
    if Later(pat, star, s, mark) {
      var k: nat :| mark < k <= |s| && Matches(pat[star + 1..], s[k..]);
      LaterTakes(pat, s, p, |s|, star, mark, k);
    }
  }

  /** After a mismatch, the star takes one character more. */
  lemma GoBack(pat: string, s: string, star: int, mark: nat)
    requires 0 <= star < |pat| && mark < |s|
    ensures Later(pat, star, s, mark) <==> Pending(pat, s, star + 1, mark + 1, star, mark + 1)
  {
    hide Matches;
    if Later(pat, star, s, mark) {
      var k: nat :| mark < k <= |s| && Matches(pat[star + 1..], s[k..]);
    }
  }

  /** From every state the loop can be in, it decides what is pending. */
  lemma {:induction false} LoopDecides(pat: string, s: string, p: nat, i: nat, star: int, mark: nat)
    requires -1 <= star < p <= |pat| && mark <= i <= |s| && Segment(pat, p, i, star, mark) && '*' !in s
    ensures Loop(pat, s, p, i, star, mark) <==> Pending(pat, s, p, i, star, mark)
    decreases |pat| - star, |s| - mark, |s| - i
  {
    hide Matches, Later, OnlyStars;
    if i == |s| {
      AtEnd(pat, s, p, star, mark);
    } else if p < |pat| && Fits(pat, p, s, i) {
      assert s[i] in s;
      StepOver(pat, p, s, i);
      LoopDecides(pat, s, p + 1, i + 1, star, mark);
    } else if p < |pat| && pat[p] == '*' {
      NewStar(pat, s, p, i, star, mark);
      LoopDecides(pat, s, p + 1, i, p, i);
    } else {
      Mismatch(pat, s, p, i);
      if star >= 0 {
        GoBack(pat, s, star, mark);
        LoopDecides(pat, s, star + 1, mark + 1, star, mark + 1);
      } else {
        NoStar(pat, s, star, mark);
      }
    }
  }

  lemma NoStar(pat: string, s: string, star: int, mark: nat)
    requires -1 == star < |pat|
    ensures !Later(pat, star, s, mark)
  {}

  lemma Mismatch(pat: string, s: string, p: nat, i: nat)
    requires p <= |pat| && i < |s| && (p < |pat| ==> pat[p] != '*' && !Fits(pat, p, s, i))
    ensures !Matches(pat[p..], s[i..])
  {
    if p < |pat| { StepOver(pat, p, s, i); }
  }

  // ---- Main result ----

  predicate Decides(pat: string, s: string) { Loop(pat, s, 0, 0, -1, 0) <==> Matches(pat, s) }

  lemma RightWithoutStars(pat: string, s: string)
    requires '*' !in s
    ensures Decides(pat, s)
  {
    hide Matches, Loop;
    LoopDecides(pat, s, 0, 0, -1, 0);
    assert pat[0..] == pat && s[0..] == s;
    if pat != "" { NoStar(pat, s, -1, 0); }
  }

  function Questions(n: nat): string { seq(n, _ => '?') }

  /** k question marks, a star, and one question mark for each of n more characters. */
  function Trap(k: nat, n: nat): string { Questions(k) + "*" + Questions(n) }

  lemma {:induction false} QuestionsMatch(s: string)
    ensures Matches(Questions(|s|), s)
    decreases |s|
  {
    if s != "" {
      QuestionsMatch(s[1..]);
      assert Questions(|s|)[1..] == Questions(|s| - 1);
    }
  }

  lemma {:induction false} TrapMatches(s: string, k: nat)
    requires k <= |s|
    ensures Matches(Trap(k, |s| - k), s)
    decreases k
  {
    var pat := Trap(k, |s| - k);
    if k == 0 {
      QuestionsMatch(s);
      assert pat[1..] == Questions(|s|) && s[0..] == s;
      StarSplits(pat, s, 0);
    } else {
      TrapMatches(s[1..], k - 1);
      assert pat[1..] == Trap(k - 1, |s| - k);
    }
  }

  /** With a star in the text at k, the loop takes the star of the pattern for it. */
  lemma {:induction false} TrapShuts(s: string, k: nat, p: nat)
    requires k < |s| && s[k] == '*' && p <= |s|
    ensures !Loop(Trap(k, |s| - k), s, p, p, -1, 0)
    decreases |s| - p
  {
    var pat := Trap(k, |s| - k);
    assert |pat| == |s| + 1 && pat[k] == '*' && forall n | 0 <= n < |pat| && n != k :: pat[n] == '?';
    if p == |s| {
      assert pat[p..][0] == '?';
    } else {
      TrapShuts(s, k, p + 1);
    }
  }

  /** The matcher is right for every pattern exactly on the texts that contain no star. */
  lemma RightExactlyWithoutStars(s: string)
    ensures (forall pat :: Decides(pat, s)) <==> '*' !in s
  {
    hide Matches, Loop;
    if '*' in s {
      var k :| 0 <= k < |s| && s[k] == '*';
      TrapMatches(s, k);
      TrapShuts(s, k, 0);
      assert !Decides(Trap(k, |s| - k), s);
    } else {
      forall pat ensures Decides(pat, s) { RightWithoutStars(pat, s); }
    }
  }
}
