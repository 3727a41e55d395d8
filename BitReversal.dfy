/**
 * The bit-reversal permutation used by the radix-2 FFT, and the Gold-Rader
 * loop of Transform::fft that applies it (src/Transform.cpp:80-95).
 *
 * The loop keeps a (1-based) counter `a` whose predecessor a-1 is the
 * log2(N)-bit reversal of b-1, and advances it by a "reversed increment".
 * It writes a pair of entries only when b < a, so the fixed points of the
 * permutation (among them 0 and N-1) are never written and keep whatever the
 * spectrum buffer held before the call.
 */
module BitReversal {
  import opened Maths

  /** The k-bit reversal of x: bit i of x becomes bit k-1-i of the result. */
  function Rev(x: nat, k: nat): nat
  {
    if k == 0 then 0 else (if x % 2 == 1 then Pow2(k - 1) else 0) + Rev(x / 2, k - 1)
  }

  lemma {:induction false} RevBound(x: nat, k: nat)
    ensures Rev(x, k) < Pow2(k)
  {
    if k > 0 {
      RevBound(x / 2, k - 1);
    }
  }

  /**
   * Putting a bit b on top of a (k-1)-bit number lo puts b at the bottom of
   * the reversal.
   */
  lemma {:induction false} RevTop(lo: nat, b: nat, k: nat)
    requires 1 <= k && b <= 1 && lo < Pow2(k - 1)
    ensures Rev(lo + (if b == 1 then Pow2(k - 1) else 0), k) == 2 * Rev(lo, k - 1) + b
  {
    var y := lo + (if b == 1 then Pow2(k - 1) else 0);
    if k == 1 {
      assert lo == 0 && y == b;
    } else {
      var P := Pow2(k - 2);
      assert Pow2(k - 1) == 2 * P;
      assert y % 2 == lo % 2;
      assert y / 2 == lo / 2 + (if b == 1 then P else 0);
      RevTop(lo / 2, b, k - 1);
    }
  }

  /** Reversing twice gives the number back: the permutation is an involution. */
  lemma {:induction false} RevInvolution(x: nat, k: nat)
    requires x < Pow2(k)
    ensures Rev(Rev(x, k), k) == x
  {
    if k > 0 {
      var h := x / 2;
      RevBound(h, k - 1);
      RevTop(Rev(h, k - 1), x % 2, k);
      RevInvolution(h, k - 1);
    }
  }

  /** The k-bit reversal permutes [0, 2^k). */
  lemma RevPermutes(x: nat, k: nat)
    requires x < Pow2(k)
    ensures Rev(x, k) < Pow2(k)
    ensures forall y :: 0 <= y < Pow2(k) && Rev(y, k) == Rev(x, k) ==> y == x
  {
    RevBound(x, k);
    forall y | 0 <= y < Pow2(k) && Rev(y, k) == Rev(x, k)
      ensures y == x
    {
      RevInvolution(x, k);
      RevInvolution(y, k);
    }
  }

  /** 0 and 2^k - 1 are fixed points of the reversal. */
  lemma {:induction false} RevEnds(k: nat)
    ensures Rev(0, k) == 0
    ensures Rev(Pow2(k) - 1, k) == Pow2(k) - 1
  {
    if k > 0 {
      RevEnds(k - 1);
      assert (Pow2(k) - 1) / 2 == Pow2(k - 1) - 1;
    }
  }

  /**
   * One step of the reversed increment. Adding 1 to w either sets its clear
   * low bit (the top bit of the reversal) or carries into w / 2.
   */
  lemma RevIncrement(w: nat, m: nat)
    requires m >= 1 && w + 1 < Pow2(m)
    ensures Rev(w, m) >= Pow2(m - 1) <==> w % 2 == 1
    ensures w % 2 == 0 ==> Rev(w + 1, m) == Rev(w, m) + Pow2(m - 1)
    ensures w % 2 == 1 ==>
      && m >= 2
      && Rev(w, m) - Pow2(m - 1) == Rev(w / 2, m - 1)
      && Rev(w + 1, m) == Rev(w / 2 + 1, m - 1)
      && w / 2 + 1 < Pow2(m - 1)
  {
    RevBound(w / 2, m - 1);
    assert (w + 1) / 2 == (if w % 2 == 1 then w / 2 + 1 else w / 2);
  }

  /**
   * What the loop leaves in the spectrum buffer: entry i receives data[Rev(i)]
   * unless i is a fixed point, which keeps its previous contents `prev[i]`.
   */
  function BitReversed(data: seq<real>, prev: seq<Complex>, n: nat): (s: seq<Complex>)
    requires |data| == Pow2(n) && |prev| == |data|
    ensures |s| == |data|
  {
    seq(|data|, i requires 0 <= i < |data| =>
      var r := Rev(i, n);
      RevBound(i, n);
      if r == i then prev[i] else FromReal(data[r]))
  }

  /**
   * The buffer after the loop has handled the indices below w: an entry i that
   * is not a fixed point holds data[Rev(i)] once i or its partner is below w.
   */
  function Staged(data: seq<real>, prev: seq<Complex>, n: nat, w: nat): (s: seq<Complex>)
    requires |data| == Pow2(n) && |prev| == |data|
    ensures |s| == |data|
  {
    seq(|data|, i requires 0 <= i < |data| =>
      var r := Rev(i, n);
      RevBound(i, n);
      if r != i && (i < w || r < w) then FromReal(data[r]) else prev[i])
  }

  /** One pass of the outer loop for b - 1 == y: swap y with its partner when y < Rev(y). */
  function SwapStep(data: seq<real>, s: seq<Complex>, n: nat, y: nat): (s': seq<Complex>)
    requires |data| == Pow2(n) && |s| == |data| && y < |data|
    ensures |s'| == |s|
  {
    var r := Rev(y, n);
    RevBound(y, n);
    if y < r then s[r := FromReal(data[y])][y := FromReal(data[r])] else s
  }

  lemma StagedStep(data: seq<real>, prev: seq<Complex>, n: nat, y: nat)
    requires |data| == Pow2(n) && |prev| == |data| && y < |data|
    ensures SwapStep(data, Staged(data, prev, n, y), n, y) == Staged(data, prev, n, y + 1)
  {
    var s := Staged(data, prev, n, y);
    var s' := SwapStep(data, s, n, y);
    var t := Staged(data, prev, n, y + 1);
    RevPermutes(y, n);
    RevInvolution(y, n);
    forall i | 0 <= i < |data|
      ensures s'[i] == t[i]
    {
      RevPermutes(i, n);
      RevInvolution(i, n);
    }
  }

  /**
   * The inner loop `c = N/2; while (c < a) { a -= c; c /= 2; } a += c;`:
   * it turns the reversal of y into the reversal of y + 1.
   */
  method ReversedIncrement(a: nat, N: nat, ghost y: nat, ghost n: nat) returns (a': nat)
    requires N == Pow2(n) && y + 1 < N
    requires 1 <= a && a - 1 == Rev(y, n)
    ensures 1 <= a' && a' - 1 == Rev(y + 1, n)
  {
    a' := a;
    var c := N / 2;
    ghost var w: nat, m: nat := y, n;
    while c < a'
      invariant 1 <= m <= n && c == Pow2(m - 1) && w + 1 < Pow2(m)
      invariant a' - 1 == Rev(w, m)
      invariant Rev(y + 1, n) == Rev(w + 1, m)
      decreases c
    {
      RevIncrement(w, m);
      a' := a' - c;
      c := c / 2;
      w, m := w / 2, m - 1;
    }
    RevIncrement(w, m);
    a' := a' + c;
  }

  /**
   * The bit-reversal loop of Transform::fft: `a`, `b`, `c` as in the source.
   * The result is BitReversed(data, old spectrum): every non-fixed index i
   * gets data[Rev(i)], every fixed point keeps its old value.
   */
  method BitReverse(data: seq<real>, spectrum: array<Complex>, ghost n: nat)
    requires |data| == Pow2(n) && spectrum.Length == |data|
    modifies spectrum
    ensures spectrum[..] == BitReversed(data, old(spectrum[..]), n)
  {
    var N := |data|;
    ghost var prev := spectrum[..];
    RevEnds(n);
    var a, b := 1, 0;
    b := 1;
    assert spectrum[..] == Staged(data, prev, n, 0);
    while b < N
      invariant 1 <= b <= N
      invariant 1 <= a && a - 1 == Rev(b - 1, n)
      invariant spectrum[..] == Staged(data, prev, n, b - 1)
    {
      ghost var y := b - 1;
      StagedStep(data, prev, n, y);
      RevBound(y, n);
      if b < a {
        spectrum[a - 1] := FromReal(data[b - 1]);
        spectrum[b - 1] := FromReal(data[a - 1]);
      }
      assert spectrum[..] == SwapStep(data, Staged(data, prev, n, y), n, y);
      assert spectrum[..] == Staged(data, prev, n, b);
      a := ReversedIncrement(a, N, y, n);
      b := b + 1;
    }
    forall i | 0 <= i < N
      ensures spectrum[i] == BitReversed(data, prev, n)[i]
    {
      RevPermutes(i, n);
    }
  }
}
