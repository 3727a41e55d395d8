/**
 * One stage of the radix-2 butterflies of Transform::fft
 * (src/Transform.cpp:117-136).
 *
 * Stage k works on blocks of L = 2^k entries; butterfly p (1 <= p <= M,
 * M = 2^(k-1)) combines entry q-1 with entry r-1 = q+M-1 of every block,
 * q = p, p+L, p+2L, ... <= N, using the twiddle factor Wi[k][p-1].
 * StageResult states the outcome per index: the lower half of each block gets
 * s[i] + s[i+M]*W, the upper half s[i-M] - s[i]*W.
 */
module Butterflies {
  import opened Maths

  /** The offset of index i inside its butterfly: i mod L, folded onto [0, M). */
  function Offset(i: nat, L: nat, M: nat): nat
    requires L == 2 * M && M >= 1
  {
    if i % L < M then i % L else i % L - M
  }

  lemma OffsetBelow(i: nat, L: nat, M: nat)
    requires L == 2 * M && M >= 1
    ensures Offset(i, L, M) < M
  {
  }

  /** Index i of an N-entry buffer with N = c * L: its partner lies inside the buffer. */
  lemma PartnerInside(i: nat, c: nat, L: nat, M: nat)
    requires L == 2 * M && M >= 1 && i < c * L
    ensures i % L < M ==> i + M < c * L
    ensures i % L >= M ==> i >= M
  {
    var t, x := i / L, i % L;
    DivMod(i, L);
    QuotientBelow(i, c, L);
    if x < M {
      BlockInside(t, c, L, x + M);
    } else {
      MulMonotone(0, t, L);
    }
  }

  /** An index below c * L lies in one of the first c blocks. */
  lemma QuotientBelow(i: nat, c: nat, L: nat)
    requires L > 0 && i < c * L
    ensures 0 <= i / L < c
  {
    var t, x := i / L, i % L;
    DivMod(i, L);
    BlockOrder(t, x, c, L);
  }

  lemma BlockOrder(t: nat, x: nat, c: nat, L: nat)
    requires t * L + x < c * L
    ensures t < c
  {
    if t >= c {
      MulMonotone(c, t, L);
    }
  }

  /** The value stage k leaves at index i of the buffer s. */
  function StageEntry(s: seq<Complex>, c: nat, L: nat, M: nat, row: seq<Complex>, i: nat): Complex
    requires L == 2 * M && M >= 1 && |s| == c * L && |row| > M && i < |s|
  {
    PartnerInside(i, c, L, M);
    var j := i % L;
    if j < M then Add(s[i], Mul(s[i + M], row[j]))
    else Sub(s[i - M], Mul(s[i], row[j - M]))
  }

  /** The buffer after a whole stage. */
  function StageResult(s: seq<Complex>, c: nat, L: nat, M: nat, row: seq<Complex>): (s': seq<Complex>)
    requires L == 2 * M && M >= 1 && |s| == c * L && |row| > M
    ensures |s'| == |s|
  {
    seq(|s|, i requires 0 <= i < |s| => StageEntry(s, c, L, M, row, i))
  }

  /** Butterfly o of block b is finished once done butterflies and t blocks of the next are. */
  predicate Finished(o: int, b: int, done: int, t: int)
  {
    o < done || (o == done && b < t)
  }

  /**
   * The buffer part-way through a stage: butterflies with offset below `done`
   * are finished in every block, butterfly `done` in the first t blocks.
   */
  function PartialStage(s: seq<Complex>, c: nat, L: nat, M: nat, row: seq<Complex>,
                        done: nat, t: nat): (s': seq<Complex>)
    requires L == 2 * M && M >= 1 && |s| == c * L && |row| > M
    ensures |s'| == |s|
  {
    seq(|s|, i requires 0 <= i < |s| =>
      if Finished(Offset(i, L, M), i / L, done, t) then StageEntry(s, c, L, M, row, i) else s[i])
  }

  /** Where butterfly p of block t reads and writes: both indices lie in the buffer. */
  lemma ButterflyIndices(p: nat, t: nat, c: nat, L: nat, M: nat)
    requires L == 2 * M && 1 <= p <= M && t < c
    ensures p + t * L + M <= c * L
    ensures (t * L + (p - 1)) / L == t && (t * L + (p - 1)) % L == p - 1
    ensures (t * L + (p - 1 + M)) / L == t && (t * L + (p - 1 + M)) % L == p - 1 + M
  {
    BlockInside(t, c, L, p - 1 + M);
    DivModUnique(t, p - 1, L);
    DivModUnique(t, p - 1 + M, L);
  }

  /** The only indices of block t at offset p - 1 are butterfly p's two entries. */
  lemma ButterflyAt(i: nat, p: nat, t: nat, L: nat, M: nat)
    requires L == 2 * M && 1 <= p <= M && Offset(i, L, M) == p - 1 && i / L == t
    ensures i == p - 1 + t * L || i == p - 1 + M + t * L
  {
    DivMod(i, L);
  }

  /** One butterfly turns PartialStage(done, t) into PartialStage(done, t + 1). */
  lemma ButterflyStep(s: seq<Complex>, cur: seq<Complex>, c: nat, L: nat, M: nat,
                      row: seq<Complex>, p: nat, t: nat)
    requires L == 2 * M && 1 <= p <= M && t < c && |s| == c * L && |row| > M
    requires cur == PartialStage(s, c, L, M, row, p - 1, t)
    ensures p + t * L + M <= c * L
    ensures
      var q0, r0 := p - 1 + t * L, p - 1 + M + t * L;
      var temp := Mul(cur[r0], row[p - 1]);
      cur[r0 := Sub(cur[q0], temp)][q0 := Add(cur[q0], temp)]
        == PartialStage(s, c, L, M, row, p - 1, t + 1)
  {
    ButterflyIndices(p, t, c, L, M);
    var q0, r0 := p - 1 + t * L, p - 1 + M + t * L;
    assert q0 == t * L + (p - 1) && r0 == t * L + (p - 1 + M);
    var temp := Mul(cur[r0], row[p - 1]);
    var next := cur[r0 := Sub(cur[q0], temp)][q0 := Add(cur[q0], temp)];
    var goal := PartialStage(s, c, L, M, row, p - 1, t + 1);
    assert cur[q0] == s[q0] && cur[r0] == s[r0];
    forall i | 0 <= i < |s|
      ensures next[i] == goal[i]
    {
      if Offset(i, L, M) == p - 1 && i / L == t {
        ButterflyAt(i, p, t, L, M);
      }
    }
  }

  lemma FinishedNext(o: int, b: int, done: int, c: int)
    requires 0 <= b < c
    ensures Finished(o, b, done, c) == Finished(o, b, done + 1, 0)
  {
  }

  /** After the last block of butterfly `done`, the next butterfly starts. */
  lemma ButterflyDone(s: seq<Complex>, c: nat, L: nat, M: nat, row: seq<Complex>, done: nat)
    requires L == 2 * M && M >= 1 && |s| == c * L && |row| > M
    ensures PartialStage(s, c, L, M, row, done, c) == PartialStage(s, c, L, M, row, done + 1, 0)
  {
    var a := PartialStage(s, c, L, M, row, done, c);
    var b := PartialStage(s, c, L, M, row, done + 1, 0);
    forall i | 0 <= i < |s|
      ensures a[i] == b[i]
    {
      QuotientBelow(i, c, L);
      FinishedNext(Offset(i, L, M), i / L, done, c);
    }
  }

  lemma StageEnds(s: seq<Complex>, c: nat, L: nat, M: nat, row: seq<Complex>)
    requires L == 2 * M && M >= 1 && |s| == c * L && |row| > M
    ensures PartialStage(s, c, L, M, row, 0, 0) == s
    ensures PartialStage(s, c, L, M, row, M, 0) == StageResult(s, c, L, M, row)
  {
    forall i | 0 <= i < |s|
      ensures 0 <= Offset(i, L, M) < M
    {
      OffsetBelow(i, L, M);
    }
  }

  /**
   * The p and q loops of one FFT stage, with the twiddle factor Wi advanced
   * along the row after each butterfly as in the source. Every index the loops
   * touch lies in [0, N), and the row is read at p <= M.
   */
  method Stage(spectrum: array<Complex>, L: nat, M: nat, row: seq<Complex>, ghost c: nat)
    requires L == 2 * M && M >= 1 && spectrum.Length == c * L && |row| == M + 1
    modifies spectrum
    ensures spectrum[..] == StageResult(old(spectrum[..]), c, L, M, row)
  {
    var N := spectrum.Length;
    ghost var s := spectrum[..];
    StageEnds(s, c, L, M, row);
    var Wi := row[0];
    var p := 1;
    while p <= M
      invariant 1 <= p <= M + 1
      invariant Wi == row[p - 1]
      invariant spectrum[..] == PartialStage(s, c, L, M, row, p - 1, 0)
    {
      var q := p;
      ghost var t := 0;
      while q <= N
        invariant t <= c && q == p + t * L
        invariant spectrum[..] == PartialStage(s, c, L, M, row, p - 1, t)
      {
        if t >= c {
          MulMonotone(c, t, L);
        }
        ButterflyStep(s, spectrum[..], c, L, M, row, p, t);
        var r := q + M;
        var temp := Mul(spectrum[r - 1], Wi);
        spectrum[r - 1] := Sub(spectrum[q - 1], temp);
        spectrum[q - 1] := Add(spectrum[q - 1], temp);
        q := q + L;
        t := t + 1;
      }
      if t < c {
        BlockInside(t, c, L, p - 1);
      }
      ButterflyDone(s, c, L, M, row, p - 1);
      Wi := row[p];
      p := p + 1;
    }
  }
}
