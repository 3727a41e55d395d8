/**
 * Aquila::Window of src/Window.cpp: window tables memoised per (type, size)
 * in one static cache, generated by WinGenerator.
 *
 * The source keeps two pieces of static state: the cache `windowsCache`
 * (src/Window.cpp:20) and the sample position `n` local to
 * WinGenerator::operator() (src/Window.cpp:176), shared by all generators.
 * Both live in one `Window` object here. Because the position is never reset,
 * entry i of a freshly created table is windowMethod(c + i, N), where c counts
 * (modulo 2^32) every sample generated before.
 *
 * Window.cpp instantiates the generic Cache of Cache.h with createWindow as its
 * generator. That generator advances the shared position, so it is not the
 * deterministic function the Caches.Cache model takes; Window.Apply therefore
 * performs Cache::get's hit/miss steps itself around CreateWindow.
 */
module Window {
  import opened Maths
  import opened WindowFunctions

  /** WinGenerator's constructor switch (src/Window.cpp:141-164). */
  function Dispatch(t: WindowType): (wm: WindowMethod)
  {
    if t == WinRect then Rectangular
    else if t == WinHamming then Hamming
    else if t == WinHann then Hann
    else if t == WinBarlett then Barlett
    else if t == WinBlackman then Blackman
    else if t == WinFlattop then Flattop
    else Hamming
  }

  /**
   * The six enumerators select six distinct methods, and every value outside
   * the enumeration falls back to Hamming.
   */
  lemma DispatchCases(t: WindowType)
    ensures IsEnumerated(t) ==> TypeOf(Dispatch(t)) == t
    ensures !IsEnumerated(t) ==> Dispatch(t) == Hamming
    ensures forall wm :: Dispatch(TypeOf(wm)) == wm
  {
    forall wm: WindowMethod ensures Dispatch(TypeOf(wm)) == wm {
    }
  }

  /** A key can be asked for: its size is an unsigned int and its formula is defined. */
  predicate Admissible(st: WinState, key: Key)
  {
    IsU32(key.1) && (key in st.windows || Defined(Dispatch(key.0), key.1))
  }

  /**
   * The state after Cache::get(key): unchanged on a hit, otherwise the new
   * table, generated from the current position, is stored and the position
   * has advanced by N.
   */
  function Ensured(m: Maths, st: WinState, key: Key): (r: WinState)
    requires Admissible(st, key)
    ensures key in r.windows
    ensures key in st.windows ==> r == st
    ensures key !in st.windows ==>
      && r.windows[key] == WindowTable(m, Dispatch(key.0), st.position, key.1)
      && r.position == (st.position + key.1) % U32
    ensures forall k :: k in st.windows ==> k in r.windows && r.windows[k] == st.windows[k]
    ensures r.windows.Keys == st.windows.Keys + {key}
  {
    if key in st.windows then st
    else
      WinState(st.windows[key := WindowTable(m, Dispatch(key.0), st.position, key.1)],
               (st.position + key.1) % U32)
  }

  /** Asking for a key twice changes nothing the second time. */
  lemma EnsuredIdempotent(m: Maths, st: WinState, key: Key)
    requires Admissible(st, key)
    ensures Admissible(Ensured(m, st, key), key)
    ensures Ensured(m, Ensured(m, st, key), key) == Ensured(m, st, key)
  {
  }

  /**
   * The shared-position quirk: a table created right after another one
   * starts where the first stopped, so the second table's entry i is taken
   * at position c + N1 + i rather than at i.
   */
  lemma {:induction false} ConsecutiveWindows(m: Maths, st: WinState, k1: Key, k2: Key)
    requires IsU32(st.position) && k1 != k2 && k1 !in st.windows && k2 !in st.windows
    requires Defined(Dispatch(k1.0), k1.1) && Defined(Dispatch(k2.0), k2.1)
    ensures Admissible(Ensured(m, st, k1), k2)
    ensures
      var st2 := Ensured(m, Ensured(m, st, k1), k2);
      && st2.windows[k1] == WindowTable(m, Dispatch(k1.0), st.position, k1.1)
      && st2.windows[k2] == WindowTable(m, Dispatch(k2.0), (st.position + k1.1) % U32, k2.1)
      && st2.position == (st.position + k1.1 + k2.1) % U32
  {
    var st1 := Ensured(m, st, k1);
    assert st1.position == (st.position + k1.1) % U32;
    ModAddAssoc(st.position, k1.1, k2.1);
  }

  lemma EnsuredWellFormed(m: Maths, st: WinState, key: Key)
    requires WellFormed(st) && Admissible(st, key)
    ensures WellFormed(Ensured(m, st, key))
  {
  }

  /** The shared static members of Aquila::Window. */
  class Window {
    const maths: Maths
    var windowsCache: map<Key, seq<real>>
    var position: nat

    function State(): WinState
      reads this
    {
      WinState(windowsCache, position)
    }

    ghost predicate Valid()
      reads this
    {
      WellFormed(State())
    }

    /** Program start: an empty cache and position 0. */
    constructor(m: Maths)
      ensures maths == m && windowsCache == map[] && position == 0
      ensures Valid()
    {
      maths := m;
      windowsCache := map[];
      position := 0;
    }

    /**
     * Window::createWindow: a new double[N] filled by std::generate_n with a
     * WinGenerator, one generator call per entry.
     */
    method CreateWindow(key: Key) returns (window: seq<real>)
      requires Valid() && Defined(Dispatch(key.0), key.1)
      modifies this`position
      ensures Valid()
      ensures window == WindowTable(maths, Dispatch(key.0), old(position), key.1)
      ensures position == (old(position) + key.1) % U32
    {
      var N := key.1;
      var generator := new WinGenerator(key.0, N);
      var buffer := new real[N];
      ghost var start := position;
      ghost var table := WindowTable(maths, generator.windowMethod, start, N);
      var i := 0;
      while i < N
        invariant 0 <= i <= N && IsU32(position)
        invariant position == (start + i) % U32
        invariant forall j :: 0 <= j < i ==> buffer[j] == table[j]
      {
        Generate(generator, buffer, i, start, table);
        i := i + 1;
      }
      window := buffer[..];
    }

    /** One step of std::generate_n: entry i of the buffer from the generator. */
    method Generate(generator: WinGenerator, buffer: array<real>, i: nat, ghost start: nat, ghost table: seq<real>)
      requires Valid() && Defined(generator.windowMethod, generator.size) && generator.size == buffer.Length
      requires table == WindowTable(maths, generator.windowMethod, start, buffer.Length)
      requires i < buffer.Length && position == (start + i) % U32
      requires forall j :: 0 <= j < i ==> buffer[j] == table[j]
      modifies this`position, buffer
      ensures Valid() && position == (start + i + 1) % U32
      ensures forall j :: 0 <= j <= i ==> buffer[j] == table[j]
    {
      var v := generator.Next(this);
      buffer[i] := v;
      IncAfter(start, i);
    }

    /**
     * Window::apply: look the table for (type, N) up in the cache, creating
     * it on a miss, and return its n-th entry.
     */
    method Apply(t: WindowType, n: nat, N: nat) returns (v: real)
      requires Valid() && n < N && Admissible(State(), (t, N))
      modifies this
      ensures Valid()
      ensures State() == Ensured(maths, old(State()), (t, N))
      ensures v == windowsCache[(t, N)][n]
    {
      var key := (t, N);
      EnsuredWellFormed(maths, State(), key);
      if key !in windowsCache {
        var window := CreateWindow(key);
        windowsCache := windowsCache[key := window];
      }
      v := windowsCache[key][n];
    }
  }

  /** Window::WinGenerator: a window method and a size. */
  class WinGenerator {
    const windowMethod: WindowMethod
    const size: nat

    constructor(t: WindowType, N: nat)
      ensures windowMethod == Dispatch(t) && size == N
    {
      windowMethod := Dispatch(t);
      size := N;
    }

    /** operator(): windowMethod(n++, _N) with the static n shared by all generators. */
    method Next(w: Window) returns (v: real)
      requires w.Valid() && Defined(windowMethod, size)
      modifies w`position
      ensures w.Valid()
      ensures v == Formula(w.maths, windowMethod, old(w.position), size)
      ensures w.position == IncU32(old(w.position))
    {
      v := Formula(w.maths, windowMethod, w.position, size);
      w.position := IncU32(w.position);
    }
  }
}
