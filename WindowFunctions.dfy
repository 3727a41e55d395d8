/**
 * The window functions of Aquila::Window (src/Window.cpp:63-130; the
 * formulas of tags/AQUILA_2_5_2/src/Window.cpp:70-132 are the same text,
 * without a rectangular function) and the WindowType enumeration.
 *
 * The arguments are `unsigned int`, so `N - 1` wraps to 2^32 - 1 when N is 0;
 * for N == 1 every formula except the rectangular one divides by zero (an
 * IEEE infinity or NaN), which the model excludes by a precondition.
 */
module WindowFunctions {
  import opened Maths

  /** The enum WindowType; any other int value can also be cast to it. */
  newtype WindowType = int

  const WinRect: WindowType := 0
  const WinHamming: WindowType := 1
  const WinHann: WindowType := 2
  const WinBarlett: WindowType := 3
  const WinBlackman: WindowType := 4
  const WinFlattop: WindowType := 5

  /** The six members of the enumeration. */
  predicate IsEnumerated(t: WindowType)
  {
    WinRect <= t <= WinFlattop
  }

  /** The pointer-to-static-method a generator holds. */
  datatype WindowMethod = Rectangular | Hamming | Hann | Barlett | Blackman | Flattop

  /** The enumerator naming each window method. */
  function TypeOf(wm: WindowMethod): (t: WindowType)
    ensures IsEnumerated(t)
  {
    match wm
    case Rectangular => WinRect
    case Hamming => WinHamming
    case Hann => WinHann
    case Barlett => WinBarlett
    case Blackman => WinBlackman
    case Flattop => WinFlattop
  }

  /** double(N - 1) with unsigned subtraction. */
  function Span(N: nat): (r: real)
    requires IsU32(N)
    ensures r >= 0.0
    ensures N >= 1 ==> r == (N - 1) as real
  {
    DecU32(N) as real
  }

  /** k * pi * n / double(N - 1), the cosine argument of the cosine-sum windows. */
  function Phase(m: Maths, k: real, n: nat, N: nat): real
    requires IsU32(N) && N != 1
  {
    k * m.pi * n as real / Span(N)
  }

  function HammingValue(m: Maths, n: nat, N: nat): real
    requires IsU32(N) && N != 1
  {
    0.53836 - 0.46164 * m.cos(Phase(m, 2.0, n, N))
  }

  function HannValue(m: Maths, n: nat, N: nat): real
    requires IsU32(N) && N != 1
  {
    0.5 * (1.0 - m.cos(Phase(m, 2.0, n, N)))
  }

  /** The triangular window 1 - 2|n - (N-1)/2| / (N-1); exact, no transcendental. */
  function BarlettValue(n: nat, N: nat): real
    requires IsU32(N) && N != 1
  {
    1.0 - (2.0 * Abs(n as real - Span(N) / 2.0)) / Span(N)
  }

  function BlackmanValue(m: Maths, n: nat, N: nat): real
    requires IsU32(N) && N != 1
  {
    0.42 - 0.5 * m.cos(Phase(m, 2.0, n, N)) + 0.08 * m.cos(Phase(m, 4.0, n, N))
  }

  function FlattopValue(m: Maths, n: nat, N: nat): real
    requires IsU32(N) && N != 1
  {
    1.0 - 1.93 * m.cos(Phase(m, 2.0, n, N)) + 1.29 * m.cos(Phase(m, 4.0, n, N))
      - 0.388 * m.cos(Phase(m, 6.0, n, N)) + 0.0322 * m.cos(Phase(m, 8.0, n, N))
  }

  /** Whether a window method can be evaluated for size N without dividing by zero. */
  predicate Defined(wm: WindowMethod, N: nat)
  {
    IsU32(N) && (wm == Rectangular || N != 1)
  }

  /** windowMethod(n, N): the value of the chosen window at position n. */
  function Formula(m: Maths, wm: WindowMethod, n: nat, N: nat): real
    requires Defined(wm, N)
  {
    match wm
    case Rectangular => 1.0
    case Hamming => HammingValue(m, n, N)
    case Hann => HannValue(m, n, N)
    case Barlett => BarlettValue(n, N)
    case Blackman => BlackmanValue(m, n, N)
    case Flattop => FlattopValue(m, n, N)
  }

  /** For N >= 2 the triangle starts and ends at 0. */
  lemma BarlettEnds(N: nat)
    requires 2 <= N < U32
    ensures BarlettValue(0, N) == 0.0
    ensures BarlettValue(N - 1, N) == 0.0
  {
    var s := Span(N);
    assert s == (N - 1) as real && s > 0.0;
    assert Abs(0.0 - s / 2.0) == s / 2.0;
    assert Abs((N - 1) as real - s / 2.0) == s / 2.0;
    assert (2.0 * (s / 2.0)) / s == 1.0;
  }

  /** The triangle is symmetric under n -> N-1-n. */
  lemma BarlettSymmetric(n: nat, N: nat)
    requires 2 <= N < U32 && n <= N - 1
    ensures BarlettValue(n, N) == BarlettValue(N - 1 - n, N)
  {
    var s := Span(N);
    assert ((N - 1 - n) as real) - s / 2.0 == -(n as real - s / 2.0);
    assert Abs(((N - 1 - n) as real) - s / 2.0) == Abs(n as real - s / 2.0);
  }

  /** On 0 <= n <= N-1 the triangle stays in [0, 1]. */
  lemma BarlettBounded(n: nat, N: nat)
    requires 2 <= N < U32 && n <= N - 1
    ensures 0.0 <= BarlettValue(n, N) <= 1.0
  {
    var s := Span(N);
    var d := Abs(n as real - s / 2.0);
    assert s > 0.0;
    assert 0.0 <= d <= s / 2.0;
    QuotientBounds(2.0 * d, s);
  }

  lemma QuotientBounds(x: real, s: real)
    requires s > 0.0 && 0.0 <= x <= s
    ensures 0.0 <= x / s <= 1.0
  {
  }

  /** std::pair<WindowType, unsigned int>. */
  type Key = (WindowType, nat)

  /** A table of N generator outputs taken at positions start, start+1, ... (mod 2^32). */
  function WindowTable(m: Maths, wm: WindowMethod, start: nat, N: nat): (w: seq<real>)
    requires Defined(wm, N)
    ensures |w| == N
  {
    seq(N, i requires 0 <= i < N => Formula(m, wm, (start + i) % U32, N))
  }

  /** A rectangular table is all ones, wherever the shared position stands. */
  lemma RectangularTable(m: Maths, start: nat, start': nat, N: nat)
    requires IsU32(N)
    ensures WindowTable(m, Rectangular, start, N) == WindowTable(m, Rectangular, start', N)
    ensures forall i :: 0 <= i < N ==> WindowTable(m, Rectangular, start, N)[i] == 1.0
  {
    var a, b := WindowTable(m, Rectangular, start, N), WindowTable(m, Rectangular, start', N);
    forall i | 0 <= i < N
      ensures a[i] == 1.0 && b[i] == 1.0
    {
      assert a[i] == Formula(m, Rectangular, (start + i) % U32, N);
      assert b[i] == Formula(m, Rectangular, (start' + i) % U32, N);
    }
  }

  /** The static state of Window.cpp (either version): cached tables and the shared generator position. */
  datatype WinState = WinState(windows: map<Key, seq<real>>, position: nat)

  /**
   * Every table the cache holds: a full table for its size.
   */
  ghost predicate WellFormed(st: WinState)
  {
    && IsU32(st.position)
    && forall k :: k in st.windows ==> IsU32(k.1) && |st.windows[k]| == k.1
  }

  /** The position after i + 1 generated samples is one unsigned increment after the position after i. */
  lemma IncAfter(start: nat, i: nat)
    ensures IsU32((start + i) % U32) && IncU32((start + i) % U32) == (start + i + 1) % U32
  {
    ModAddAssoc(start, i, 1);
  }

  lemma ModAddAssoc(a: nat, b: nat, c: nat)
    ensures ((a + b) % U32 + c) % U32 == (a + b + c) % U32
  {
    var q := (a + b) / U32;
    assert a + b == q * U32 + (a + b) % U32;
    assert a + b + c == q * U32 + ((a + b) % U32 + c);
    ModMultipleAdd(q, (a + b) % U32 + c);
  }

  lemma ModMultipleAdd(q: nat, x: nat)
    ensures (q * U32 + x) % U32 == x % U32
  {
    if q > 0 {
      ModMultipleAdd(q - 1, x);
      assert q * U32 + x == (q - 1) * U32 + x + U32;
    }
  }

}
