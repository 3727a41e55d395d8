/**
 * Aquila::Transform of src/Transform.cpp: frame energy and power, the
 * radix-2 FFT of a data vector and of a pre-emphasised, windowed frame, and
 * the DCT with its cosine table cache.
 *
 * Doubles are reals; cos, log, log10, sqrt, complex exp and magnitude come
 * from the `maths` value the transform is built with. The stage count, which
 * the source computes as log(N)/ln 2 in floating point, is the exact binary
 * logarithm of the power of two N.
 */
module Transform {
  import opened Maths
  import opened BitReversal
  import opened Butterflies
  import opened WindowFunctions
  import Window
  import opened Frames

  // ---------------------------------------------------------------- energy

  /** SquareAndSum: x + y * y. */
  function SquareAndSum(x: real, y: int): real
  {
    x + (y * y) as real
  }

  /**
   * std::accumulate(begin, end, 0.0, SquareAndSum()): the sum of squares of
   * the samples, folded from the left.
   */
  function Energy(samples: seq<int>): (e: real)
    ensures e >= 0.0
    ensures e == 0.0 <==> forall i :: 0 <= i < |samples| ==> samples[i] == 0
  {
    if |samples| == 0 then 0.0
    else
      var e0 := Energy(samples[..|samples| - 1]);
      var x := samples[|samples| - 1];
      assert x != 0 ==> x * x > 0;
      assert forall i :: 0 <= i < |samples| - 1 ==> samples[..|samples| - 1][i] == samples[i];
      SquareAndSum(e0, x)
  }

  /**
   * Transform::frameLogEnergy: log10 of the energy when it is positive, and
   * exactly 0.0 otherwise, which is the case precisely for an all-zero frame.
   */
  function FrameLogEnergy(m: Maths, frame: Frame): (r: real)
    requires frame.Valid()
    ensures Energy(frame.Samples()) > 0.0 ==> r == m.log10(Energy(frame.Samples()))
    ensures (forall i :: 0 <= i < frame.Length() ==> frame.Samples()[i] == 0) ==> r == 0.0
    ensures Energy(frame.Samples()) == 0.0 ==> r == 0.0
  {
    var energy := Energy(frame.Samples());
    if energy > 0.0 then m.log10(energy) else 0.0
  }

  /** Transform::framePower: the energy divided by the frame length; never negative. */
  function FramePower(frame: Frame): (r: real)
    requires frame.Valid() && frame.Length() > 0
    ensures r >= 0.0
    ensures r * frame.Length() as real == Energy(frame.Samples())
  {
    Energy(frame.Samples()) / frame.Length() as real
  }

  // ------------------------------------------------------- twiddle table

  /** W = exp(-j 2 pi / L) for stage k, L = 2^k. */
  function TwiddleBase(m: Maths, k: nat): Complex
  {
    m.cexp(Complex(0.0, -2.0 * m.pi / Pow2(k) as real))
  }

  /** W^p by repeated multiplication, starting at cplx(1.0). */
  function TwiddlePower(w: Complex, p: nat): Complex
  {
    if p == 0 then FromReal(1.0) else Mul(TwiddlePower(w, p - 1), w)
  }

  /** Row k of the twiddle table: M + 1 = 2^(k-1) + 1 entries, a geometric sequence from 1. */
  function WiRow(m: Maths, k: nat): (row: seq<Complex>)
    requires k >= 1
    ensures |row| == Pow2(k - 1) + 1
    ensures row[0] == FromReal(1.0)
  {
    seq(Pow2(k - 1) + 1, p requires 0 <= p => TwiddlePower(TwiddleBase(m, k), p))
  }

  /** Each entry of a twiddle row after the first is the previous one times W = exp(-2*pi*i / 2^k). */
  lemma WiRowGeometric(m: Maths, k: nat, p: nat)
    requires k >= 1 && 1 <= p < |WiRow(m, k)|
    ensures WiRow(m, k)[p] == Mul(WiRow(m, k)[p - 1], TwiddleBase(m, k))
  { }

  /** The table getCachedFftWi builds: rows 1..numStages; row 0 is never filled in. */
  function WiTable(m: Maths, numStages: nat): (t: seq<seq<Complex>>)
    ensures |t| == numStages + 1 && t[0] == []
    ensures forall k :: 1 <= k <= numStages ==> t[k] == WiRow(m, k)
  {
    seq(numStages + 1, k requires 0 <= k => if k == 0 then [] else WiRow(m, k))
  }

  // ------------------------------------------------------------ cosines

  /** cos(pi (2k+1) n / (2 L)), the DCT basis value for output n and input k of L. */
  function DctCos(m: Maths, n: nat, k: nat, L: nat): real
    requires L > 0
  {
    m.cos((m.pi * (2 * k + 1) as real * n as real) / (2 * L) as real)
  }

  /** The cosine table getCachedCosines builds: outputLength rows of inputLength values. */
  function CosineTable(m: Maths, inputLength: nat, outputLength: nat): (t: seq<seq<real>>)
    ensures |t| == outputLength
    ensures forall n :: 0 <= n < outputLength ==> |t[n]| == inputLength
    ensures forall n, k :: 0 <= n < outputLength && 0 <= k < inputLength ==>
      t[n][k] == DctCos(m, n, k, inputLength)
  {
    seq(outputLength, n requires 0 <= n =>
      seq(inputLength, k requires 0 <= k < inputLength => DctCos(m, n, k, inputLength)))
  }

  // --------------------------------------------------------------- DCT

  /** The sum over k < K of log(|data[k]| + 1e-10) * cos[n][k], in the loop's order. */
  function DctSum(m: Maths, data: seq<real>, n: nat, K: nat): real
    requires K <= |data| && |data| > 0
  {
    if K == 0 then 0.0
    else DctSum(m, data, n, K - 1) + m.log(Abs(data[K - 1]) + 0.0000000001) * DctCos(m, n, K - 1, |data|)
  }

  /** The DCT scaling: sqrt(1/L) for the first coefficient and sqrt(2/L) for the others. */
  function DctScale(m: Maths, n: nat, L: nat): real
    requires L > 0
  {
    if n == 0 then m.sqrt(1.0 / L as real) else m.sqrt(2.0 / L as real)
  }

  /** What dct leaves in an output vector of the given length. */
  function DctSpec(m: Maths, data: seq<real>, outputLength: nat): (out: seq<real>)
    requires |data| > 0
    ensures |out| == outputLength
    ensures forall n :: 0 <= n < outputLength ==>
      out[n] == DctSum(m, data, n, |data|) * DctScale(m, n, |data|)
  {
    seq(outputLength, n requires 0 <= n => DctSum(m, data, n, |data|) * DctScale(m, n, |data|))
  }

  // --------------------------------------------------------------- FFT

  /** The buffer after butterfly stages 1..k. */
  function Stages(s: seq<Complex>, n: nat, k: nat, table: seq<seq<Complex>>): (r: seq<Complex>)
    requires |s| == Pow2(n) && k <= n && |table| > k
    requires forall j :: 1 <= j <= k ==> |table[j]| == Pow2(j - 1) + 1
    ensures |r| == |s|
  {
    if k == 0 then s
    else
      var prev := Stages(s, n, k - 1, table);
      Pow2Add(n - k, k);
      StageResult(prev, Pow2(n - k), Pow2(k), Pow2(k - 1), table[k])
  }

  /** Division of every entry by N/2; nothing is divided when N/2 is 0. */
  function Scaled(s: seq<Complex>, N2: nat): (r: seq<Complex>)
    ensures |r| == |s|
  {
    if N2 == 0 then s else seq(|s|, i requires 0 <= i < |s| => DivReal(s[i], N2 as real))
  }

  /**
   * The spectrum fft leaves behind: bit reversal of the data (fixed points
   * keeping the old contents `prev`), all butterfly stages, then scaling.
   */
  function FftSpectrum(m: Maths, data: seq<real>, prev: seq<Complex>): (s: seq<Complex>)
    requires IsPowerOfTwo(|data|) && |prev| == |data|
    ensures |s| == |data|
  {
    var n := Log2(|data|);
    Scaled(Stages(BitReversed(data, prev, n), n, n, WiTable(m, n)), |data| / 2)
  }

  /** v is the largest magnitude among the first h entries, or 0.0 if that is larger. */
  ghost predicate IsMaxAbs(m: Maths, s: seq<Complex>, h: nat, v: real)
    requires h <= |s|
  {
    && v >= 0.0
    && (forall k :: 0 <= k < h ==> m.cabs(s[k]) <= v)
    && (v == 0.0 || exists k :: 0 <= k < h && m.cabs(s[k]) == v)
  }

  // ----------------------------------------------- pre-emphasis and padding

  /** A pre-emphasised, windowed sample: (current - factor * previous) * w. */
  function Emphasis(current: real, previous: real, factor: real, w: real): real
  {
    (current - factor * previous) * w
  }

  /**
   * The data vector fft(Frame) builds: the first sample as it is, then
   * (x[n] - factor * x[n-1]) * window[n] for 1 <= n < length, then zeros up to
   * the zero-padded length.
   */
  function Preemphasised(x: seq<int>, factor: real, window: seq<real>, size: nat): (d: seq<real>)
    requires 1 <= |x| <= size && (|x| == 1 || |window| == |x|)
    ensures |d| == size && d[0] == x[0] as real
    ensures forall n {:trigger d[n]} :: 1 <= n < |x| ==> d[n] == Emphasis(x[n] as real, x[n - 1] as real, factor, window[n])
    ensures forall n :: |x| <= n < size ==> d[n] == 0.0
  {
    seq(size, n requires 0 <= n < size =>
      if n == 0 then x[0] as real
      else if n < |x| then Emphasis(x[n] as real, x[n - 1] as real, factor, window[n])
      else 0.0)
  }

  /** A vector with the entries Preemphasised describes is that vector. */
  lemma PreemphasisedIs(d: seq<real>, x: seq<int>, factor: real, window: seq<real>)
    requires 1 <= |x| <= |d| && (|x| == 1 || |window| == |x|)
    requires d[0] == x[0] as real
    requires forall j {:trigger d[j]} :: 1 <= j < |x| ==> d[j] == Emphasis(x[j] as real, x[j - 1] as real, factor, window[j])
    requires forall j :: |x| <= j < |d| ==> d[j] == 0.0
    ensures d == Preemphasised(x, factor, window, |d|)
  {
  }

  /** The window-state effect of fft(Frame): windows are requested only when length >= 2. */
  function WindowAfter(m: Maths, st: WinState, t: WindowType, length: nat): (r: WinState)
    requires IsU32(length)
    ensures length >= 2 ==> (t, length) in r.windows
  {
    if length >= 2 then Window.Ensured(m, st, (t, length)) else st
  }

  /** The window table data[n] is multiplied by (unused for a one-sample frame). */
  function WindowUsed(st: WinState, t: WindowType, length: nat): seq<real>
  {
    if (t, length) in st.windows then st.windows[(t, length)] else []
  }

  /**
   * One row of the twiddle table, as the inner loop of getCachedFftWi fills
   * it: wi[k][0] = 1 and wi[k][p] = wi[k][p-1] * W.
   */
  method TwiddleRow(m: Maths, k: nat) returns (r: seq<Complex>)
    requires k >= 1
    ensures r == WiRow(m, k)
  {
    var M := Pow2(k - 1);
    var W := TwiddleBase(m, k);
    ghost var w := WiRow(m, k);
    var row := new Complex[M + 1];
    row[0] := FromReal(1.0);
    var p := 1;
    while p <= M
      invariant 1 <= p <= M + 1
      invariant forall i :: 0 <= i < p ==> row[i] == w[i]
    {
      WiRowGeometric(m, k, p);
      row[p] := Mul(row[p - 1], W);
      p := p + 1;
    }
    r := row[..];
    assert r == w;
  }

  /** One row of the cosine table, as the inner loop of getCachedCosines fills it. */
  method CosineRow(m: Maths, n: nat, inputLength: nat) returns (r: seq<real>)
    ensures |r| == inputLength
    ensures forall k :: 0 <= k < inputLength ==> r[k] == DctCos(m, n, k, inputLength)
  {
    var row := new real[inputLength];
    var k := 0;
    while k < inputLength
      invariant 0 <= k <= inputLength
      invariant forall j :: 0 <= j < k ==> row[j] == DctCos(m, n, j, inputLength)
    {
      row[k] := DctCos(m, n, k, inputLength);
      k := k + 1;
    }
    r := row[..];
  }

  /**
   * The inner loop of dct: output[n] is cleared, then output[n] += log(|data[k]| + 1e-10) * cosines[n][k]
   * for every k, in order, leaving the other entries alone.
   */
  method AccumulateDct(m: Maths, data: seq<real>, row: seq<real>, output: array<real>, n: nat)
    requires |data| > 0 && |row| == |data| && n < output.Length
    requires forall k :: 0 <= k < |data| ==> row[k] == DctCos(m, n, k, |data|)
    modifies output
    ensures output[..] == old(output[..])[n := DctSum(m, data, n, |data|)]
  {
    output[n] := 0.0;
    var k := 0;
    while k < |data|
      invariant 0 <= k <= |data|
      invariant output[..] == old(output[..])[n := DctSum(m, data, n, k)]
    {
      assert DctSum(m, data, n, k + 1) == output[n] + m.log(Abs(data[k]) + 0.0000000001) * row[k];
      output[n] := output[n] + m.log(Abs(data[k]) + 0.0000000001) * row[k];
      k := k + 1;
    }
  }

  /** The DCT entry for n is its sum scaled by c0 (n = 0) or cn (n > 0). */
  lemma DctEntry(m: Maths, data: seq<real>, outputLength: nat, n: nat, sum: real, f: real, v: real)
    requires |data| > 0 && n < outputLength && sum == DctSum(m, data, n, |data|)
    requires f == DctScale(m, n, |data|) && v == sum * f
    ensures v == DctSpec(m, data, outputLength)[n]
  {
  }

  /**
   * One iteration of dct's outer loop: output[n] is cleared, accumulated
   * over the cosine row n and scaled; the other entries are left alone.
   */
  method DctCoefficient(m: Maths, data: seq<real>, row: seq<real>, output: array<real>, n: nat, c0: real, cn: real)
    requires |data| > 0 && |row| == |data| && n < output.Length
    requires forall k :: 0 <= k < |data| ==> row[k] == DctCos(m, n, k, |data|)
    requires c0 == m.sqrt(1.0 / |data| as real) && cn == m.sqrt(2.0 / |data| as real)
    modifies output
    ensures output[..] == old(output[..])[n := DctSpec(m, data, output.Length)[n]]
  {
    AccumulateDct(m, data, row, output, n);
    ghost var sum := output[n];
    var f := if 0 == n then c0 else cn;
    output[n] := output[n] * f;
    DctEntry(m, data, output.Length, n, sum, f, output[n]);
  }

  /** The buffer after k iterations of fft's scaling loop: entries below k and from N/2 to N/2 + k divided by N/2. */
  function PartlyScaled(s: seq<Complex>, N2: nat, k: nat): (r: seq<Complex>)
    requires N2 > 0
    ensures |r| == |s|
  {
    seq(|s|, i requires 0 <= i < |s| => if i < k || N2 <= i < N2 + k then DivReal(s[i], N2 as real) else s[i])
  }

  /** One more iteration of the scaling loop divides entries k and N/2 + k. */
  lemma PartlyScaledStep(s: seq<Complex>, N2: nat, k: nat)
    requires |s| == 2 * N2 && k < N2
    ensures PartlyScaled(s, N2, k)[k := DivReal(s[k], N2 as real)][N2 + k := DivReal(s[N2 + k], N2 as real)]
      == PartlyScaled(s, N2, k + 1)
  {
  }

  /** After N/2 iterations every entry is divided. */
  lemma PartlyScaledAll(s: seq<Complex>, N2: nat)
    requires |s| == 2 * N2 && N2 > 0
    ensures PartlyScaled(s, N2, N2) == Scaled(s, N2)
  {
  }

  /**
   * One iteration of fft's scaling loop: entries k and N/2 + k divided by
   * N/2, and the running maximum raised to |spectrum[k]| if that is larger.
   */
  method ScalePair(m: Maths, spectrum: array<Complex>, N2: nat, k: nat, maxAbs: real) returns (newMax: real)
    requires spectrum.Length == 2 * N2 && k < N2
    modifies spectrum
    ensures spectrum[..] == old(spectrum[..])[k := DivReal(old(spectrum[k]), N2 as real)]
                                             [N2 + k := DivReal(old(spectrum[N2 + k]), N2 as real)]
    ensures newMax == if m.cabs(spectrum[k]) > maxAbs then m.cabs(spectrum[k]) else maxAbs
  {
    spectrum[k] := DivReal(spectrum[k], N2 as real);
    spectrum[N2 + k] := DivReal(spectrum[N2 + k], N2 as real);
    var currAbs := m.cabs(spectrum[k]);
    newMax := maxAbs;
    if currAbs > maxAbs {
      newMax := currAbs;
    }
  }

  /** Stage k applied to the buffer after stages 1..k-1 gives the buffer after stages 1..k. */
  lemma StagesStep(s: seq<Complex>, n: nat, k: nat, table: seq<seq<Complex>>)
    requires |s| == Pow2(n) && 1 <= k <= n && |table| > n
    requires forall j :: 1 <= j <= n ==> |table[j]| == Pow2(j - 1) + 1
    ensures Pow2(k) == 2 * Pow2(k - 1) && |s| == Pow2(n - k) * Pow2(k)
    ensures |Stages(s, n, k - 1, table)| == Pow2(n - k) * Pow2(k)
    ensures Stages(s, n, k, table) ==
      StageResult(Stages(s, n, k - 1, table), Pow2(n - k), Pow2(k), Pow2(k - 1), table[k])
  {
    Pow2Add(n - k, k);
  }

  /**
   * The stage loop of fft: for k = 1 .. numStages, one butterfly stage with
   * block length L = 2^k, width M = 2^(k-1) and twiddle row Wi[k].
   */
  method ButterflyStages(spectrum: array<Complex>, numStages: nat, Wi: seq<seq<Complex>>)
    requires spectrum.Length == Pow2(numStages) && |Wi| > numStages
    requires forall j :: 1 <= j <= numStages ==> |Wi[j]| == Pow2(j - 1) + 1
    modifies spectrum
    ensures spectrum[..] == Stages(old(spectrum[..]), numStages, numStages, Wi)
  {
    ghost var s := spectrum[..];
    var k := 1;
    while k <= numStages
      invariant 1 <= k <= numStages + 1
      invariant spectrum[..] == Stages(s, numStages, k - 1, Wi)
    {
      StageK(spectrum, numStages, k, Wi, s);
      k := k + 1;
    }
  }

  /** Stage k of fft: block length L = 2^k, width M = 2^(k-1), twiddle row Wi[k]. */
  method StageK(spectrum: array<Complex>, numStages: nat, k: nat, Wi: seq<seq<Complex>>, ghost s: seq<Complex>)
    requires |s| == Pow2(numStages) && spectrum.Length == |s| && |Wi| > numStages && 1 <= k <= numStages
    requires forall j :: 1 <= j <= numStages ==> |Wi[j]| == Pow2(j - 1) + 1
    requires spectrum[..] == Stages(s, numStages, k - 1, Wi)
    modifies spectrum
    ensures spectrum[..] == Stages(s, numStages, k, Wi)
  {
    var L := Pow2(k);
    var M := Pow2(k - 1);
    ghost var c := Pow2(numStages - k);
    StagesStep(s, numStages, k, Wi);
    Stage(spectrum, L, M, Wi[k], c);
  }

  class Transform {
    const maths: Maths
    const zeroPaddedLength: nat
    const winType: WindowType
    const preemphasisFactor: real
    var cosineCache: map<(nat, nat), seq<seq<real>>>
    var fftWiCache: map<nat, seq<seq<Complex>>>

    /** Every cached table is the one its key determines. */
    ghost predicate Valid()
      reads this
    {
      && (forall key :: key in cosineCache ==> cosineCache[key] == CosineTable(maths, key.0, key.1))
      && (forall key :: key in fftWiCache ==> fftWiCache[key] == WiTable(maths, key))
    }

    /** Transform(length, window, factor); the header's defaults are WIN_HAMMING and 0.95. */
    constructor(m: Maths, length: nat, window: WindowType, factor: real)
      ensures maths == m && zeroPaddedLength == length && winType == window
      ensures preemphasisFactor == factor
      ensures cosineCache == map[] && fftWiCache == map[]
      ensures Valid()
    {
      maths := m;
      zeroPaddedLength := length;
      winType := window;
      preemphasisFactor := factor;
      cosineCache := map[];
      fftWiCache := map[];
    }

    /**
     * Transform::getCachedFftWi: the table for numStages, computed only when
     * it is not cached yet; a cached table is returned as stored.
     */
    method GetCachedFftWi(numStages: nat) returns (Wi: seq<seq<Complex>>)
      requires Valid()
      modifies this`fftWiCache
      ensures Valid()
      ensures Wi == WiTable(maths, numStages)
      ensures numStages in old(fftWiCache) ==> fftWiCache == old(fftWiCache)
      ensures fftWiCache == old(fftWiCache)[numStages := Wi]
    {
      if numStages in fftWiCache {
        Wi := fftWiCache[numStages];
        assert fftWiCache == old(fftWiCache)[numStages := Wi];
        return;
      }
      var table: seq<seq<Complex>> := [[]];
      var k := 1;
      while k <= numStages
        invariant 1 <= k <= numStages + 1 && |table| == k && table[0] == []
        invariant forall j :: 1 <= j < k ==> table[j] == WiRow(maths, j)
        invariant fftWiCache == old(fftWiCache)
      {
        var row := TwiddleRow(maths, k);
        table := table + [row];
        k := k + 1;
      }
      assert table == WiTable(maths, numStages);
      fftWiCache := fftWiCache[numStages := table];
      Wi := table;
    }

    /**
     * Transform::getCachedCosines: the outputLength x inputLength table of
     * DCT cosines, computed only on a cache miss.
     */
    method GetCachedCosines(inputLength: nat, outputLength: nat) returns (cosines: seq<seq<real>>)
      requires Valid()
      modifies this`cosineCache
      ensures Valid()
      ensures cosines == CosineTable(maths, inputLength, outputLength)
      ensures (inputLength, outputLength) in old(cosineCache) ==> cosineCache == old(cosineCache)
      ensures cosineCache == old(cosineCache)[(inputLength, outputLength) := cosines]
    {
      var key := (inputLength, outputLength);
      if key in cosineCache {
        cosines := cosineCache[key];
        assert cosineCache == old(cosineCache)[key := cosines];
        return;
      }
      var table: seq<seq<real>> := [];
      var n := 0;
      while n < outputLength
        invariant 0 <= n <= outputLength && |table| == n
        invariant cosineCache == old(cosineCache)
        invariant forall i :: 0 <= i < n ==> table[i] == CosineTable(maths, inputLength, outputLength)[i]
      {
        var row := CosineRow(maths, n, inputLength);
        assert row == CosineTable(maths, inputLength, outputLength)[n];
        table := table + [row];
        n := n + 1;
      }
      assert table == CosineTable(maths, inputLength, outputLength);
      cosineCache := cosineCache[key := table];
      cosines := table;
    }

    /**
     * Transform::dct: every output entry is overwritten with the scaled sum of
     * log-magnitudes times cosines; the output length is kept.
     */
    method Dct(data: seq<real>, output: array<real>)
      requires Valid() && |data| > 0
      modifies this`cosineCache, output
      ensures Valid()
      ensures output[..] == DctSpec(maths, data, output.Length)
      ensures cosineCache == old(cosineCache)[(|data|, output.Length) := CosineTable(maths, |data|, output.Length)]
    {
      var outputLength := output.Length;
      var inputLength := |data|;
      var c0 := maths.sqrt(1.0 / inputLength as real);
      var cn := maths.sqrt(2.0 / inputLength as real);
      var cosines := GetCachedCosines(inputLength, outputLength);
      var n := 0;
      while n < outputLength
        invariant 0 <= n <= outputLength
        invariant forall i :: 0 <= i < n ==> output[i] == DctSpec(maths, data, outputLength)[i]
        invariant Valid() && cosineCache == old(cosineCache)[(inputLength, outputLength) := cosines]
      {
        DctCoefficient(maths, data, cosines[n], output, n, c0, cn);
        n := n + 1;
      }
      assert output[..] == DctSpec(maths, data, outputLength);
    }

    /**
     * Transform::fft on a data vector of power-of-two length N: bit reversal,
     * log2(N) butterfly stages with the cached twiddle factors, and division
     * of all N entries by N/2. The result is the largest magnitude among the
     * first N/2 scaled entries (0.0 if none is larger).
     */
    method Fft(data: seq<real>, spectrum: array<Complex>) returns (maxAbs: real)
      requires Valid() && IsPowerOfTwo(|data|) && spectrum.Length == |data|
      modifies this`fftWiCache, spectrum
      ensures Valid()
      ensures fftWiCache == old(fftWiCache)[Log2(|data|) := WiTable(maths, Log2(|data|))]
      ensures spectrum[..] == FftSpectrum(maths, data, old(spectrum[..]))
      ensures IsMaxAbs(maths, spectrum[..], |data| / 2, maxAbs)
    {
      var N := |data|;
      var numStages := Log2(N);
      BitReverse(data, spectrum, numStages);
      var wiCache := GetCachedFftWi(numStages);
      ButterflyStages(spectrum, numStages, wiCache);
      maxAbs := ScaleAndFindMax(spectrum, N / 2);
    }

    /**
     * The last loop of fft: entries k and N2 + k are divided by N2 for every
     * k < N2, and the largest magnitude among the first N2 is tracked.
     */
    method ScaleAndFindMax(spectrum: array<Complex>, N2: nat) returns (maxAbs: real)
      requires spectrum.Length == 2 * N2 || (N2 == 0 && spectrum.Length == 1)
      modifies spectrum
      ensures spectrum[..] == Scaled(old(spectrum[..]), N2)
      ensures IsMaxAbs(maths, spectrum[..], N2, maxAbs)
    {
      ghost var s := spectrum[..];
      maxAbs := 0.0;
      var k := 0;
      while k < N2
        invariant 0 <= k <= N2
        invariant spectrum[..] == if N2 == 0 then s else PartlyScaled(s, N2, k)
        invariant IsMaxAbs(maths, spectrum[..], k, maxAbs)
      {
        ghost var before := spectrum[..];
        maxAbs := ScalePair(maths, spectrum, N2, k, maxAbs);
        PartlyScaledStep(s, N2, k);
        assert forall i :: 0 <= i < k ==> spectrum[i] == before[i];
        k := k + 1;
      }
      if N2 > 0 {
        PartlyScaledAll(s, N2);
      }
    }

    /**
     * Transform::fft on a frame: the pre-emphasised, windowed and zero-padded
     * data vector of the frame is transformed.
     */
    method FftFrame(frame: Frame, spectrum: array<Complex>, win: Window.Window) returns (maxAbs: real)
      requires Valid() && win.Valid() && frame.Valid() && IsU32(frame.Length())
      requires 1 <= frame.Length() <= zeroPaddedLength && IsPowerOfTwo(zeroPaddedLength)
      requires spectrum.Length == zeroPaddedLength
      modifies this`fftWiCache, spectrum, win
      ensures Valid() && win.Valid()
      ensures win.State() == WindowAfter(win.maths, old(win.State()), winType, frame.Length())
      ensures spectrum[..] == FftSpectrum(maths,
        Preemphasised(frame.Samples(), preemphasisFactor,
                      WindowUsed(win.State(), winType, frame.Length()), zeroPaddedLength),
        old(spectrum[..]))
      ensures IsMaxAbs(maths, spectrum[..], zeroPaddedLength / 2, maxAbs)
    {
      var data := PreemphasiseFrame(frame, win);
      maxAbs := Fft(data[..], spectrum);
    }

    /**
     * The first part of fft(Frame): the first sample is copied, every later
     * one is pre-emphasised and multiplied by the window value for its
     * position (Window::apply, shared statics), and the rest of the
     * zero-padded vector stays 0.0.
     */
    method PreemphasiseFrame(frame: Frame, win: Window.Window) returns (data: array<real>)
      requires win.Valid() && frame.Valid() && IsU32(frame.Length())
      requires 1 <= frame.Length() <= zeroPaddedLength
      modifies win
      ensures fresh(data) && win.Valid()
      ensures win.State() == WindowAfter(win.maths, old(win.State()), winType, frame.Length())
      ensures data[..] == Preemphasised(frame.Samples(), preemphasisFactor,
                                        WindowUsed(win.State(), winType, frame.Length()), zeroPaddedLength)
    {
      data := new real[zeroPaddedLength](_ => 0.0);
      var it := frame.Begin();
      var end := frame.End();
      data[0] := it.Deref() as real;
      var _ := it.PreIncrement();
      EmphasiseSamples(frame, win, it, end, data);
      PreemphasisedIs(data[..], frame.Samples(), preemphasisFactor,
                      WindowUsed(win.State(), winType, frame.Length()));
    }

    /**
     * The for loop of fft(Frame): for n = 1, 2, ... until the iterator meets
     * end(), data[n] = (current - preemphasisFactor * previous) * Window::apply(winType, n, length).
     */
    method EmphasiseSamples(frame: Frame, win: Window.Window, it: FrameIterator, end: FrameIterator, data: array<real>)
      requires win.Valid() && frame.Valid() && IsU32(frame.Length())
      requires 1 <= frame.Length() <= data.Length
      requires it != end && it.frame == frame && it.idx == frame.begin + 1
      requires end.frame == frame && end.idx == frame.end
      requires data[0] == frame.Samples()[0] as real
      requires forall j :: 1 <= j < data.Length ==> data[j] == 0.0
      modifies win, it, data
      ensures win.Valid()
      ensures win.State() == WindowAfter(win.maths, old(win.State()), winType, frame.Length())
      ensures data[0] == frame.Samples()[0] as real
      ensures forall j {:trigger data[j]} :: 1 <= j < frame.Length() ==>
        var x := frame.Samples();
        data[j] == Emphasis(x[j] as real, x[j - 1] as real, preemphasisFactor,
                            WindowUsed(win.State(), winType, frame.Length())[j])
      ensures forall j :: frame.Length() <= j < data.Length ==> data[j] == 0.0
    {
      var length := frame.Length();
      ghost var x := frame.Samples();
      ghost var st0 := win.State();
      ghost var table := WindowUsed(WindowAfter(win.maths, st0, winType, length), winType, length);
      var current, previous := 0.0, data[0];
      var n := 1;
      while it.NotEquals(end)
        invariant 1 <= n <= length && it.frame == frame && it.idx == frame.begin + n
        invariant previous == x[n - 1] as real && data[0] == x[0] as real
        invariant win.Valid()
        invariant win.State() == (if n >= 2 then WindowAfter(win.maths, st0, winType, length) else st0)
        invariant forall j {:trigger data[j]} :: 1 <= j < n ==>
          data[j] == Emphasis(x[j] as real, x[j - 1] as real, preemphasisFactor, table[j])
        invariant forall j :: n <= j < data.Length ==> data[j] == 0.0
        decreases length - n
      {
        current := EmphasiseStep(frame, win, it, data, n, previous, st0);
        previous := current;
        n := n + 1;
      }
    }

    /** One pass of the for loop of fft(Frame): data[n] from the sample under the iterator. */
    method EmphasiseStep(frame: Frame, win: Window.Window, it: FrameIterator, data: array<real>, n: nat,
                         previous: real, ghost st0: WinState) returns (current: real)
      requires win.Valid() && frame.Valid() && IsU32(frame.Length())
      requires 1 <= n < frame.Length() <= data.Length
      requires it.frame == frame && it.idx == frame.begin + n
      requires win.State() == (if n >= 2 then WindowAfter(win.maths, st0, winType, frame.Length()) else st0)
      modifies win, data, it
      ensures win.Valid() && win.State() == WindowAfter(win.maths, st0, winType, frame.Length())
      ensures it.frame == frame && it.idx == frame.begin + n + 1
      ensures current == frame.Samples()[n] as real
      ensures data[..] == old(data[..])[n := Emphasis(current, previous, preemphasisFactor,
                                                       WindowUsed(win.State(), winType, frame.Length())[n])]
    {
      current := it.Deref() as real;
      var w := win.Apply(winType, n, frame.Length());
      data[n] := Emphasis(current, previous, preemphasisFactor, w);
      var _ := it.PreIncrement();
    }
  }
}
