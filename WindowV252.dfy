/**
 * Aquila::Window as of tags/AQUILA_2_5_2/src/Window.cpp: a static std::map of
 * window vectors filled on demand. Rectangular windows are built directly as
 * N copies of 1.0; every other type goes through a WinGenerator whose static
 * position (shared by all generators) advances by one per generated sample.
 * The generator's switch in this version has no WIN_RECT case.
 */
module WindowV252 {
  import opened Maths
  import opened WindowFunctions

  /** WinGenerator's switch (tags/AQUILA_2_5_2/src/Window.cpp:143-163). */
  function Dispatch(t: WindowType): (wm: WindowMethod)
  {
    if t == WinHamming then Hamming
    else if t == WinHann then Hann
    else if t == WinBarlett then Barlett
    else if t == WinBlackman then Blackman
    else if t == WinFlattop then Flattop
    else Hamming
  }

  /**
   * The five non-rectangular enumerators select their own method; WIN_RECT
   * and every value outside the enumeration select Hamming, so this
   * generator never produces a rectangular window.
   */
  lemma DispatchCases(t: WindowType)
    ensures WinHamming <= t <= WinFlattop ==> TypeOf(Dispatch(t)) == t
    ensures !(WinHamming <= t <= WinFlattop) ==> Dispatch(t) == Hamming
    ensures Dispatch(t) != Rectangular
  {
  }

  /** winType(N, 1.0). */
  function Ones(N: nat): (w: seq<real>)
    ensures |w| == N && forall i :: 0 <= i < N ==> w[i] == 1.0
  {
    seq(N, _ => 1.0)
  }

  predicate Admissible(st: WinState, key: Key)
  {
    IsU32(key.1) && (key in st.windows || key.0 == WinRect || Defined(Dispatch(key.0), key.1))
  }

  /**
   * The state after apply's lookup: unchanged when the key is present; a
   * rectangular miss stores N ones and leaves the position alone; any other
   * miss stores N generator outputs from the current position and advances it
   * by N.
   */
  function Ensured(m: Maths, st: WinState, key: Key): (r: WinState)
    requires Admissible(st, key)
    ensures key in r.windows
    ensures key in st.windows ==> r == st
    ensures key !in st.windows && key.0 == WinRect ==>
      && r.windows[key] == Ones(key.1) && r.position == st.position
    ensures key !in st.windows && key.0 != WinRect ==>
      && r.windows[key] == WindowTable(m, Dispatch(key.0), st.position, key.1)
      && r.position == (st.position + key.1) % U32
    ensures forall k :: k in st.windows ==> k in r.windows && r.windows[k] == st.windows[k]
    ensures r.windows.Keys == st.windows.Keys + {key}
  {
    if key in st.windows then st
    else if key.0 == WinRect then WinState(st.windows[key := Ones(key.1)], st.position)
    else
      WinState(st.windows[key := WindowTable(m, Dispatch(key.0), st.position, key.1)],
               (st.position + key.1) % U32)
  }

  /** The shared position moves only when a non-rectangular table is generated. */
  lemma PositionAdvances(m: Maths, st: WinState, key: Key)
    requires Admissible(st, key)
    ensures Ensured(m, st, key).position != st.position ==> key !in st.windows && key.0 != WinRect
    ensures key !in st.windows && key.0 != WinRect ==>
      Ensured(m, st, key).position == (st.position + key.1) % U32
  {
  }

  /** An existing table is never overwritten, however often it is asked for. */
  lemma EnsuredIdempotent(m: Maths, st: WinState, key: Key)
    requires Admissible(st, key)
    ensures Admissible(Ensured(m, st, key), key)
    ensures Ensured(m, Ensured(m, st, key), key) == Ensured(m, st, key)
  {
  }

  lemma EnsuredWellFormed(m: Maths, st: WinState, key: Key)
    requires WellFormed(st) && Admissible(st, key)
    ensures WellFormed(Ensured(m, st, key))
  {
  }

  /** The static members of this version of Aquila::Window. */
  class Window {
    const maths: Maths
    var windowsCache: map<Key, seq<real>>
    var position: nat

    function State(): WinState
      reads this
    {
      WinState(windowsCache, position)
    }

    ghost predicate Valid()
      reads this
    {
      WellFormed(State())
    }

    constructor(m: Maths)
      ensures maths == m && windowsCache == map[] && position == 0
      ensures Valid()
    {
      maths := m;
      windowsCache := map[];
      position := 0;
    }

    /**
     * Window::createWindow: N ones for WIN_RECT, otherwise N generator
     * outputs appended through a back_inserter; the result is stored under
     * the key.
     */
    method CreateWindow(key: Key)
      requires Valid() && key !in windowsCache && Admissible(State(), key)
      modifies this
      ensures Valid()
      ensures State() == Ensured(maths, old(State()), key)
    {
      var N := key.1;
      if key.0 != WinRect {
        var generator := new WinGenerator(key.0, N);
        var window := GenerateAll(generator);
        windowsCache := windowsCache[key := window];
      } else {
        windowsCache := windowsCache[key := Ones(N)];
      }
    }

    /** std::generate_n over a back_inserter: size generator outputs, in order. */
    method GenerateAll(generator: WinGenerator) returns (window: seq<real>)
      requires Valid() && Defined(generator.windowMethod, generator.size)
      modifies this`position
      ensures Valid() && position == (old(position) + generator.size) % U32
      ensures window == WindowTable(maths, generator.windowMethod, old(position), generator.size)
    {
      var N := generator.size;
      window := [];
      ghost var start := position;
      ghost var table := WindowTable(maths, generator.windowMethod, start, N);
      var i := 0;
      while i < N
        invariant 0 <= i <= N && Valid()
        invariant position == (start + i) % U32
        invariant |window| == i
        invariant forall j :: 0 <= j < i ==> window[j] == table[j]
      {
        var v := generator.Next(this);
        window := window + [v];
        IncAfter(start, i);
        i := i + 1;
      }
    }

    /**
     * Window::apply: generate the table for (type, N) only when it is absent,
     * then return its n-th entry.
     */
    method Apply(t: WindowType, n: nat, N: nat) returns (v: real)
      requires Valid() && n < N && Admissible(State(), (t, N))
      modifies this
      ensures Valid()
      ensures State() == Ensured(maths, old(State()), (t, N))
      ensures v == windowsCache[(t, N)][n]
    {
      var key := (t, N);
      if key !in windowsCache {
        CreateWindow(key);
      }
      v := windowsCache[key][n];
    }
  }

  /** Window::WinGenerator of this version. */
  class WinGenerator {
    const windowMethod: WindowMethod
    const size: nat

    constructor(t: WindowType, N: nat)
      ensures windowMethod == Dispatch(t) && size == N
    {
      windowMethod := Dispatch(t);
      size := N;
    }

    /** operator(): windowMethod(n++, _N) on the static position. */
    method Next(w: Window) returns (v: real)
      requires w.Valid() && Defined(windowMethod, size)
      modifies w`position
      ensures w.Valid()
      ensures v == Formula(w.maths, windowMethod, old(w.position), size)
      ensures w.position == IncU32(old(w.position))
    {
      v := Formula(w.maths, windowMethod, w.position, size);
      w.position := IncU32(w.position);
    }
  }
}
