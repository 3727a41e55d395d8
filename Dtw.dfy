/**
 * Aquila::Dtw (src/dtw/Dtw.cpp, trunk/src/dtw/Dtw.h): dynamic time warping
 * of a signal's feature vectors against a pattern's.
 *
 * The S x P grid of DtwPoints is a field of type seq<seq<DtwPoint>> that
 * the methods reassign; predecessor pointers are the indices of the cell
 * pointed to. The extractors the class holds and is given are represented
 * by their feature arrays (getFramesCount is the array's length, getVector(i)
 * its i-th vector); the distance function pointer by the DistanceFunction
 * it points to.
 *
 * The dynamic-programming pass is specified by Acc, the accumulated
 * distance defined recursively over the grid with the source's candidate
 * sets and tie-breaking. The lemmas show that Acc is the cost of the chain of
 * predecessors and the lowest cost of any chain the candidate sets allow, and
 * that getPath walks that chain.
 */
module Dtw {
  import opened Maths
  import opened DtwFunctions
  import opened DtwPoints

  /** Dtw::NormalizationType. */
  datatype NormalizationType = NoNormalization | Diagonal | SumOfSides

  /** Dtw::PassType. */
  datatype PassType = Neighbors | Diagonals

  /** A grid cell (i, j): frame i of the signal against frame j of the pattern. */
  type Cell = (nat, nat)

  /** A grid of S rows of P entries each. */
  predicate IsRect<T>(g: seq<seq<T>>, S: nat, P: nat)
  {
    |g| == S && forall i :: 0 <= i < S ==> |g[i]| == P
  }

  // ---------------------------------------------------- local distances

  /** The distance functions index the pattern's vector at every position of the signal's. */
  predicate Comparable(from: seq<seq<real>>, pattern: seq<seq<real>>)
  {
    forall i, j :: 0 <= i < |from| && 0 <= j < |pattern| ==> |from[i]| <= |pattern[j]|
  }

  /** The local distance of every cell: distanceFn(from[i], pattern[j]). */
  function LocalDistances(m: Maths, f: DistanceFunction, from: seq<seq<real>>, pattern: seq<seq<real>>): (L: seq<seq<real>>)
    requires Comparable(from, pattern)
    ensures IsRect(L, |from|, |pattern|)
  {
    seq(|from|, i requires 0 <= i < |from| =>
      seq(|pattern|, j requires 0 <= j < |pattern| => Distance(m, f, from[i], pattern[j])))
  }

  // ------------------------------------------------ candidates and choice

  /** The three cells getDistance compares for a cell. */
  datatype Candidates = Candidates(top: Cell, center: Cell, bottom: Cell)

  /** A cell strictly earlier than (i, j) in both the row and column order. */
  predicate Before(c: Cell, i: nat, j: nat)
  {
    c.0 <= i && c.1 <= j && c.0 + c.1 < i + j
  }

  /**
   * The candidates for an interior cell (i, j): center (i-1, j-1) always;
   * top (i-1, j) and bottom (i, j-1) for Neighbors; top (i-2, j-1) and
   * bottom (i-1, j-2) for Diagonals when i > 1 and j > 1, and the Neighbors
   * cells otherwise. All three are distinct and earlier than (i, j).
   */
  function CandidatesOf(pass: PassType, i: nat, j: nat): (c: Candidates)
    requires i >= 1 && j >= 1
    ensures c.center == (i - 1, j - 1)
    ensures pass == Neighbors || i == 1 || j == 1 ==> c.top == (i - 1, j) && c.bottom == (i, j - 1)
    ensures pass == Diagonals && i > 1 && j > 1 ==> c.top == (i - 2, j - 1) && c.bottom == (i - 1, j - 2)
    ensures Before(c.top, i, j) && Before(c.center, i, j) && Before(c.bottom, i, j)
    ensures c.top != c.center && c.top != c.bottom && c.center != c.bottom
  {
    if pass == Diagonals && i > 1 && j > 1 then Candidates((i - 2, j - 1), (i - 1, j - 1), (i - 1, j - 2))
    else Candidates((i - 1, j), (i - 1, j - 1), (i, j - 1))
  }

  /** Which candidate getDistance takes. */
  datatype Pick = Top | Center | Bottom

  /**
   * getDistance's comparison of the accumulated distances at, ac, ab of
   * top, center and bottom: the pick has the least of the three; center
   * wins a tie with top, top is taken only when strictly below center, and
   * bottom only when strictly below both others.
   */
  function PickOf(at: real, ac: real, ab: real): (p: Pick)
    ensures p == Bottom <==> ab < at && ab < ac
    ensures p == Top <==> at < ac && at <= ab
    ensures p == Center <==> ac <= at && ac <= ab
  {
    var previous := if at < ac then Top else Center;
    var ap := if at < ac then at else ac;
    if ab < ap then Bottom else previous
  }

  function ValueOf(p: Pick, at: real, ac: real, ab: real): real
  {
    match p
    case Top => at
    case Center => ac
    case Bottom => ab
  }

  function CellOf(c: Candidates, p: Pick): Cell
  {
    match p
    case Top => c.top
    case Center => c.center
    case Bottom => c.bottom
  }

  // -------------------------------------------------- accumulated distance

  /**
   * The accumulated distance of cell (i, j): the local distance on the
   * first row and column; elsewhere the local distance plus the accumulated
   * distance of the candidate getDistance picks.
   */
  function Acc(L: seq<seq<real>>, S: nat, P: nat, pass: PassType, i: nat, j: nat): real
    requires IsRect(L, S, P) && i < S && j < P
    decreases i + j
  {
    if i == 0 || j == 0 then L[i][j]
    else
      var c := CandidatesOf(pass, i, j);
      var at := Acc(L, S, P, pass, c.top.0, c.top.1);
      var ac := Acc(L, S, P, pass, c.center.0, c.center.1);
      var ab := Acc(L, S, P, pass, c.bottom.0, c.bottom.1);
      L[i][j] + ValueOf(PickOf(at, ac, ab), at, ac, ab)
  }

  /** The predecessor getDistance records for an interior cell. */
  function Pred(L: seq<seq<real>>, S: nat, P: nat, pass: PassType, i: nat, j: nat): (r: Cell)
    requires IsRect(L, S, P) && 1 <= i < S && 1 <= j < P
    ensures Before(r, i, j)
  {
    var c := CandidatesOf(pass, i, j);
    CellOf(c, PickOf(Acc(L, S, P, pass, c.top.0, c.top.1), Acc(L, S, P, pass, c.center.0, c.center.1),
                     Acc(L, S, P, pass, c.bottom.0, c.bottom.1)))
  }

  /**
   * The recorded predecessor is a candidate of least accumulated distance,
   * and the cell's accumulated distance is its local distance plus the
   * predecessor's.
   */
  lemma PredIsLowest(L: seq<seq<real>>, S: nat, P: nat, pass: PassType, i: nat, j: nat)
    requires IsRect(L, S, P) && 1 <= i < S && 1 <= j < P
    ensures var c := CandidatesOf(pass, i, j);
      var r := Pred(L, S, P, pass, i, j);
      && (r == c.top || r == c.center || r == c.bottom)
      && Acc(L, S, P, pass, r.0, r.1) <= Acc(L, S, P, pass, c.top.0, c.top.1)
      && Acc(L, S, P, pass, r.0, r.1) <= Acc(L, S, P, pass, c.center.0, c.center.1)
      && Acc(L, S, P, pass, r.0, r.1) <= Acc(L, S, P, pass, c.bottom.0, c.bottom.1)
      && Acc(L, S, P, pass, i, j) == L[i][j] + Acc(L, S, P, pass, r.0, r.1)
  {
  }

  // ------------------------------------------------------------- chains

  predicate Interior(c: Cell) { c.0 >= 1 && c.1 >= 1 }

  /** b is one of the candidates getDistance compares for the interior cell a. */
  predicate Allowed(pass: PassType, a: Cell, b: Cell)
    requires Interior(a)
  {
    var c := CandidatesOf(pass, a.0, a.1);
    b == c.top || b == c.center || b == c.bottom
  }

  /**
   * A chain the candidate sets allow: inside the grid, every step from an
   * interior cell to one of its candidates, ending at the first cell of
   * the first row or column it reaches.
   */
  predicate IsChain(pass: PassType, S: nat, P: nat, c: seq<Cell>)
  {
    && |c| >= 1
    && (forall k :: 0 <= k < |c| ==> c[k].0 < S && c[k].1 < P)
    && !Interior(c[|c| - 1])
    && forall k :: 0 <= k < |c| - 1 ==> Interior(c[k]) && Allowed(pass, c[k], c[k + 1])
  }

  /** The sum of the local distances along a sequence of cells. */
  function Cost(L: seq<seq<real>>, S: nat, P: nat, c: seq<Cell>): real
    requires IsRect(L, S, P) && forall k :: 0 <= k < |c| ==> c[k].0 < S && c[k].1 < P
  {
    if |c| == 0 then 0.0 else L[c[0].0][c[0].1] + Cost(L, S, P, c[1..])
  }

  /** The chain of recorded predecessors from (i, j) down to the first row or column, both ends included. */
  function Chain(L: seq<seq<real>>, S: nat, P: nat, pass: PassType, i: nat, j: nat): (c: seq<Cell>)
    requires IsRect(L, S, P) && i < S && j < P
    ensures |c| >= 1 && c[0] == (i, j)
    decreases i + j
  {
    if i == 0 || j == 0 then [(i, j)]
    else
      var r := Pred(L, S, P, pass, i, j);
      [(i, j)] + Chain(L, S, P, pass, r.0, r.1)
  }

  /**
   * The predecessor chain from (i, j) is a chain the candidate sets allow,
   * and the accumulated distance of (i, j) is the sum of the local
   * distances along it.
   */
  lemma AccIsChainCost(L: seq<seq<real>>, S: nat, P: nat, pass: PassType, i: nat, j: nat)
    requires IsRect(L, S, P) && i < S && j < P
    ensures IsChain(pass, S, P, Chain(L, S, P, pass, i, j))
    ensures Acc(L, S, P, pass, i, j) == Cost(L, S, P, Chain(L, S, P, pass, i, j))
  {
    ChainAllowed(L, S, P, pass, i, j);
    ChainCost(L, S, P, pass, i, j);
  }

  /** The predecessor chain is a chain the candidate sets allow. */
  lemma {:induction false} ChainAllowed(L: seq<seq<real>>, S: nat, P: nat, pass: PassType, i: nat, j: nat)
    requires IsRect(L, S, P) && i < S && j < P
    ensures IsChain(pass, S, P, Chain(L, S, P, pass, i, j))
    decreases i + j
  {
    if i > 0 && j > 0 {
      var r := Pred(L, S, P, pass, i, j);
      ChainAllowed(L, S, P, pass, r.0, r.1);
      PredIsLowest(L, S, P, pass, i, j);
      ChainCons(pass, S, P, (i, j), Chain(L, S, P, pass, r.0, r.1));
    }
  }

  /** The accumulated distance is the sum of the local distances along the predecessor chain. */
  lemma {:induction false} ChainCost(L: seq<seq<real>>, S: nat, P: nat, pass: PassType, i: nat, j: nat)
    requires IsRect(L, S, P) && i < S && j < P
    ensures IsChain(pass, S, P, Chain(L, S, P, pass, i, j))
    ensures Acc(L, S, P, pass, i, j) == Cost(L, S, P, Chain(L, S, P, pass, i, j))
    decreases i + j
  {
    ChainAllowed(L, S, P, pass, i, j);
    if i > 0 && j > 0 {
      var r := Pred(L, S, P, pass, i, j);
      ChainCost(L, S, P, pass, r.0, r.1);
      PredIsLowest(L, S, P, pass, i, j);
      assert Chain(L, S, P, pass, i, j)[1..] == Chain(L, S, P, pass, r.0, r.1);
    }
  }

  /** An interior cell followed by a chain starting at one of its candidates is a chain. */
  lemma ChainCons(pass: PassType, S: nat, P: nat, a: Cell, c: seq<Cell>)
    requires IsChain(pass, S, P, c) && a.0 < S && a.1 < P && Interior(a) && Allowed(pass, a, c[0])
    ensures IsChain(pass, S, P, [a] + c)
  {
    var c' := [a] + c;
    forall k | 0 <= k < |c'| - 1
      ensures Interior(c'[k]) && Allowed(pass, c'[k], c'[k + 1])
    {
      if k > 0 {
        assert c'[k] == c[k - 1] && c'[k + 1] == c[k];
      }
    }
  }

  /** No chain from (i, j) that the candidate sets allow costs less than Acc(i, j). */
  lemma {:induction false} AccIsLowest(L: seq<seq<real>>, S: nat, P: nat, pass: PassType, c: seq<Cell>)
    requires IsRect(L, S, P) && IsChain(pass, S, P, c)
    ensures Acc(L, S, P, pass, c[0].0, c[0].1) <= Cost(L, S, P, c)
    decreases |c|
  {
    if |c| > 1 {
      var rest := c[1..];
      assert IsChain(pass, S, P, rest) by {
        forall k | 0 <= k < |rest| - 1
          ensures Interior(rest[k]) && Allowed(pass, rest[k], rest[k + 1])
        {
          assert rest[k] == c[k + 1] && rest[k + 1] == c[k + 2];
        }
      }
      AccIsLowest(L, S, P, pass, rest);
      assert Allowed(pass, c[0], c[1]);
      PredIsLowest(L, S, P, pass, c[0].0, c[0].1);
    }
  }

  /**
   * The doc comment's "lowest-cost path": under either pass type the
   * predecessor chain from (i, j) costs Acc(i, j), and no allowed chain
   * from (i, j) costs less.
   */
  lemma LowestCostChain(L: seq<seq<real>>, S: nat, P: nat, pass: PassType, i: nat, j: nat, c: seq<Cell>)
    requires IsRect(L, S, P) && i < S && j < P
    requires IsChain(pass, S, P, c) && c[0] == (i, j)
    ensures IsChain(pass, S, P, Chain(L, S, P, pass, i, j))
    ensures Cost(L, S, P, Chain(L, S, P, pass, i, j)) == Acc(L, S, P, pass, i, j) <= Cost(L, S, P, c)
  {
    AccIsChainCost(L, S, P, pass, i, j);
    AccIsLowest(L, S, P, pass, c);
  }

  // ------------------------------------------------------ the point grid

  /** The point of cell (a, b) once the pass is done. */
  function AlignedPoint(L: seq<seq<real>>, S: nat, P: nat, pass: PassType, a: nat, b: nat): DtwPoint
    requires IsRect(L, S, P) && a < S && b < P
  {
    var link := if a == 0 || b == 0 then NoPrevious
                else Previous(Pred(L, S, P, pass, a, b).0, Pred(L, S, P, pass, a, b).1);
    DtwPoint(a, b, L[a][b], Acc(L, S, P, pass, a, b), link)
  }

  /** The grid calculateLocalDistances leaves: DtwPoint(i, j, local distance) in every cell. */
  function LocalPoints(L: seq<seq<real>>, S: nat, P: nat): (g: seq<seq<DtwPoint>>)
    requires IsRect(L, S, P)
    ensures IsRect(g, S, P)
  {
    seq(S, a requires 0 <= a < S => seq(P, b requires 0 <= b < P => NewPoint(a, b, L[a][b])))
  }

  /** Cells the pass has finished when it is about to fill (i, j). */
  predicate Done(i: int, j: int, a: int, b: int)
  {
    a == 0 || b == 0 || a < i || (a == i && b < j)
  }

  /** The grid when the pass is about to fill (i, j). */
  function PartialGrid(L: seq<seq<real>>, S: nat, P: nat, pass: PassType, i: nat, j: nat): (g: seq<seq<DtwPoint>>)
    requires IsRect(L, S, P)
    ensures IsRect(g, S, P)
  {
    seq(S, a requires 0 <= a < S => seq(P, b requires 0 <= b < P =>
      if Done(i, j, a, b) then AlignedPoint(L, S, P, pass, a, b) else NewPoint(a, b, L[a][b])))
  }

  /** The grid after getDistance's pass. */
  function AlignedGrid(L: seq<seq<real>>, S: nat, P: nat, pass: PassType): (g: seq<seq<DtwPoint>>)
    requires IsRect(L, S, P)
    ensures IsRect(g, S, P)
    ensures forall a, b :: 0 <= a < S && 0 <= b < P ==> g[a][b] == AlignedPoint(L, S, P, pass, a, b)
  {
    seq(S, a requires 0 <= a < S => seq(P, b requires 0 <= b < P => AlignedPoint(L, S, P, pass, a, b)))
  }

  /** The last cell of the aligned grid holds the accumulated distance getDistance returns. */
  lemma LastCell(L: seq<seq<real>>, S: nat, P: nat, pass: PassType)
    requires IsRect(L, S, P) && S >= 1 && P >= 1
    ensures AlignedGrid(L, S, P, pass)[S - 1][P - 1].dAccumulated == Acc(L, S, P, pass, S - 1, P - 1)
  {
  }

  /**
   * Before the pass, the first row and column already hold their final
   * points: accumulated = local and no predecessor.
   */
  lemma PassStart(L: seq<seq<real>>, S: nat, P: nat, pass: PassType)
    requires IsRect(L, S, P)
    ensures PartialGrid(L, S, P, pass, 1, 1) == LocalPoints(L, S, P)
  {
    var g, h := PartialGrid(L, S, P, pass, 1, 1), LocalPoints(L, S, P);
    forall a | 0 <= a < S
      ensures g[a] == h[a]
    {
      assert forall b :: 0 <= b < P ==> g[a][b] == h[a][b];
    }
  }

  /** A cell the pass has finished holds its accumulated distance. */
  lemma DoneAcc(L: seq<seq<real>>, S: nat, P: nat, pass: PassType, i: nat, j: nat, c: Cell)
    requires IsRect(L, S, P) && c.0 < S && c.1 < P && Done(i, j, c.0, c.1)
    ensures PartialGrid(L, S, P, pass, i, j)[c.0][c.1].dAccumulated == Acc(L, S, P, pass, c.0, c.1)
  {
  }

  /**
   * Giving the open cell (i, j) the accumulated distance acc and the
   * predecessor r that getDistance picks moves the pass on to (i, j + 1).
   */
  lemma CellFilled(L: seq<seq<real>>, S: nat, P: nat, pass: PassType, i: nat, j: nat,
                    at: real, ac: real, ab: real, r: Cell, q: DtwPoint)
    requires IsRect(L, S, P) && 1 <= i < S && 1 <= j < P
    requires var c := CandidatesOf(pass, i, j);
      var g := PartialGrid(L, S, P, pass, i, j);
      && at == g[c.top.0][c.top.1].dAccumulated
      && ac == g[c.center.0][c.center.1].dAccumulated
      && ab == g[c.bottom.0][c.bottom.1].dAccumulated
      && r == CellOf(c, PickOf(at, ac, ab))
      && q == g[i][j].(dAccumulated := g[i][j].dLocal + ValueOf(PickOf(at, ac, ab), at, ac, ab), previous := Previous(r.0, r.1))
    ensures var g := PartialGrid(L, S, P, pass, i, j);
      g[i := g[i][j := q]] == PartialGrid(L, S, P, pass, i, j + 1)
  {
    var c := CandidatesOf(pass, i, j);
    DoneAcc(L, S, P, pass, i, j, c.top);
    DoneAcc(L, S, P, pass, i, j, c.center);
    DoneAcc(L, S, P, pass, i, j, c.bottom);
    PredIsLowest(L, S, P, pass, i, j);
    var g := PartialGrid(L, S, P, pass, i, j);
    assert g[i][j] == NewPoint(i, j, L[i][j]);
    assert q == AlignedPoint(L, S, P, pass, i, j);
    PassCell(L, S, P, pass, i, j);
  }

  /** Filling (i, j) with its final point moves the pass on to (i, j + 1). */
  lemma PassCell(L: seq<seq<real>>, S: nat, P: nat, pass: PassType, i: nat, j: nat)
    requires IsRect(L, S, P) && 1 <= i < S && 1 <= j < P
    ensures var g := PartialGrid(L, S, P, pass, i, j);
      g[i := g[i][j := AlignedPoint(L, S, P, pass, i, j)]] == PartialGrid(L, S, P, pass, i, j + 1)
  {
    var g := PartialGrid(L, S, P, pass, i, j);
    var g' := g[i := g[i][j := AlignedPoint(L, S, P, pass, i, j)]];
    var h := PartialGrid(L, S, P, pass, i, j + 1);
    forall a | 0 <= a < S
      ensures g'[a] == h[a]
    {
      assert forall b :: 0 <= b < P ==> g'[a][b] == h[a][b];
    }
  }

  /** At the end of a row the pass moves on to the next row. */
  lemma PassRow(L: seq<seq<real>>, S: nat, P: nat, pass: PassType, i: nat, j: nat)
    requires IsRect(L, S, P) && j >= P
    ensures PartialGrid(L, S, P, pass, i, j) == PartialGrid(L, S, P, pass, i + 1, 1)
  {
    var g, h := PartialGrid(L, S, P, pass, i, j), PartialGrid(L, S, P, pass, i + 1, 1);
    forall a | 0 <= a < S
      ensures g[a] == h[a]
    {
      assert forall b :: 0 <= b < P ==> g[a][b] == h[a][b];
    }
  }

  /** After the last row every cell holds its final point. */
  lemma PassEnd(L: seq<seq<real>>, S: nat, P: nat, pass: PassType, i: nat)
    requires IsRect(L, S, P) && i >= S
    ensures PartialGrid(L, S, P, pass, i, 1) == AlignedGrid(L, S, P, pass)
  {
    var g, h := PartialGrid(L, S, P, pass, i, 1), AlignedGrid(L, S, P, pass);
    forall a | 0 <= a < S
      ensures g[a] == h[a]
    {
      assert forall b :: 0 <= b < P ==> g[a][b] == h[a][b];
    }
  }

  // ---------------------------------------------------------------- paths

  /** Every point holds its own coordinates, and every predecessor is an earlier cell of the grid. */
  ghost predicate Linked(g: seq<seq<DtwPoint>>)
  {
    forall a, b :: 0 <= a < |g| && 0 <= b < |g[a]| ==>
      && g[a][b].x == a && g[a][b].y == b
      && (g[a][b].previous.Previous? ==>
            g[a][b].previous.i < |g| && g[a][b].previous.j < |g[g[a][b].previous.i]| &&
            g[a][b].previous.i + g[a][b].previous.j < a + b)
  }

  /**
   * getPath's walk from (a, b): the coordinates of every point that has a
   * predecessor, following the links, up to the first point without one
   * (which is not included).
   */
  function Path(g: seq<seq<DtwPoint>>, a: nat, b: nat): seq<Cell>
    requires Linked(g) && a < |g| && b < |g[a]|
    decreases a + b
  {
    match g[a][b].previous
    case NoPrevious => []
    case Previous(c, d) => [(g[a][b].x, g[a][b].y)] + Path(g, c, d)
  }

  lemma LocalPointsLinked(L: seq<seq<real>>, S: nat, P: nat)
    requires IsRect(L, S, P)
    ensures Linked(LocalPoints(L, S, P))
  {
  }

  lemma AlignedLinked(L: seq<seq<real>>, S: nat, P: nat, pass: PassType)
    requires IsRect(L, S, P)
    ensures Linked(AlignedGrid(L, S, P, pass))
  {
    var g: seq<seq<DtwPoint>> := AlignedGrid(L, S, P, pass);
    forall a, b | 0 <= a < S && 0 <= b < P && a >= 1 && b >= 1
      ensures g[a][b].previous.Previous? && Before((g[a][b].previous.i, g[a][b].previous.j), a, b)
    {
      var r := Pred(L, S, P, pass, a, b);
      assert g[a][b].previous == Previous(r.0, r.1);
    }
  }

  /**
   * On the grid getDistance leaves, getPath's walk from (i, j) is the
   * predecessor chain from (i, j) without its last cell, the one on the
   * first row or column.
   */
  lemma PathIsChain(L: seq<seq<real>>, S: nat, P: nat, pass: PassType, i: nat, j: nat)
    requires IsRect(L, S, P) && i < S && j < P
    ensures Linked(AlignedGrid(L, S, P, pass))
    ensures var c := Chain(L, S, P, pass, i, j);
      Path(AlignedGrid(L, S, P, pass), i, j) == c[..|c| - 1]
  {
    AlignedLinked(L, S, P, pass);
    AlignedLinks(L, S, P, pass);
    PathFollowsPred(AlignedGrid(L, S, P, pass), L, S, P, pass, i, j);
  }

  /**
   * Every point of g holds its own coordinates and links to the
   * predecessor getDistance records, or to nothing on the first row and
   * column.
   */
  ghost predicate LinksPred(g: seq<seq<DtwPoint>>, L: seq<seq<real>>, S: nat, P: nat, pass: PassType)
    requires IsRect(L, S, P)
  {
    && IsRect(g, S, P)
    && forall a, b :: 0 <= a < S && 0 <= b < P ==>
         && g[a][b].x == a && g[a][b].y == b
         && g[a][b].previous == (if a == 0 || b == 0 then NoPrevious
                                 else Previous(Pred(L, S, P, pass, a, b).0, Pred(L, S, P, pass, a, b).1))
  }

  lemma AlignedLinks(L: seq<seq<real>>, S: nat, P: nat, pass: PassType)
    requires IsRect(L, S, P)
    ensures LinksPred(AlignedGrid(L, S, P, pass), L, S, P, pass)
  {
  }

  /** On a grid whose links are the recorded predecessors, getPath's walk from (i, j) is the chain without its last cell. */
  lemma {:induction false} PathFollowsPred(g: seq<seq<DtwPoint>>, L: seq<seq<real>>, S: nat, P: nat, pass: PassType, i: nat, j: nat)
    requires IsRect(L, S, P) && i < S && j < P
    requires Linked(g) && LinksPred(g, L, S, P, pass)
    ensures var c := Chain(L, S, P, pass, i, j);
      Path(g, i, j) == c[..|c| - 1]
    decreases i + j
  {
    if i > 0 && j > 0 {
      var r := Pred(L, S, P, pass, i, j);
      PathFollowsPred(g, L, S, P, pass, r.0, r.1);
      var c := Chain(L, S, P, pass, i, j);
      var c' := Chain(L, S, P, pass, r.0, r.1);
      assert g[i][j].previous == Previous(r.0, r.1);
      assert c[..|c| - 1] == [(i, j)] + c'[..|c'| - 1];
    }
  }

  /**
   * A walk from (i, j): it starts at (i, j) unless that cell is on the
   * first row or column (then it is empty), holds only interior cells,
   * and i + j strictly decreases along it.
   */
  predicate WalkShape(path: seq<Cell>, i: nat, j: nat)
  {
    && (path == [] <==> i == 0 || j == 0)
    && (path != [] ==> path[0] == (i, j))
    && (forall k :: 0 <= k < |path| ==> Interior(path[k]))
    && (forall k :: 0 <= k < |path| - 1 ==> path[k + 1].0 + path[k + 1].1 < path[k].0 + path[k].1)
  }

  /** An interior cell in front of a walk from an earlier cell is a walk. */
  lemma WalkCons(path: seq<Cell>, i: nat, j: nat, a: nat, b: nat)
    requires WalkShape(path, a, b) && i >= 1 && j >= 1 && a + b < i + j
    ensures WalkShape([(i, j)] + path, i, j)
  {
    var w := [(i, j)] + path;
    forall k | 0 <= k < |w| - 1
      ensures w[k + 1].0 + w[k + 1].1 < w[k].0 + w[k].1
    {
      if k > 0 {
        assert w[k] == path[k - 1] && w[k + 1] == path[k];
      }
    }
  }

  /**
   * The shape of getPath's result after getDistance (which is the chain
   * from the last cell without its own last cell, by PathIsChain): it
   * starts at (i, j) unless that cell is on the first row or column (then
   * it is empty), holds only interior cells, and i + j strictly decreases
   * along it.
   */
  lemma {:induction false} PathShape(L: seq<seq<real>>, S: nat, P: nat, pass: PassType, i: nat, j: nat)
    requires IsRect(L, S, P) && i < S && j < P
    ensures var c := Chain(L, S, P, pass, i, j);
      WalkShape(c[..|c| - 1], i, j)
    decreases i + j
  {
    if i > 0 && j > 0 {
      var r := Pred(L, S, P, pass, i, j);
      PathShape(L, S, P, pass, r.0, r.1);
      var c := Chain(L, S, P, pass, i, j);
      var c' := Chain(L, S, P, pass, r.0, r.1);
      assert c[..|c| - 1] == [(i, j)] + c'[..|c'| - 1];
      WalkCons(c'[..|c'| - 1], i, j, r.0, r.1);
    }
  }

  // -------------------------------------------------------- normalisation

  /**
   * The divisor getDistance applies: sqrt of the unsigned S*S + P*P for
   * Diagonal, the unsigned S + P for SumOfSides, none otherwise.
   */
  function Divisor(m: Maths, n: NormalizationType, S: nat, P: nat): real
  {
    match n
    case Diagonal => m.sqrt(((S * S + P * P) % U32) as real)
    case SumOfSides => ((S + P) % U32) as real
    case NoNormalization => 1.0
  }

  /** The result of getDistance for the accumulated distance d of the last cell. */
  function Normalised(m: Maths, d: real, n: NormalizationType, S: nat, P: nat): real
    requires Divisor(m, n, S, P) != 0.0
  {
    if n == NoNormalization then d else d / Divisor(m, n, S, P)
  }

  /**
   * NoNormalization leaves the distance as it is; the other two divide it:
   * the result times the divisor gives the distance back.
   */
  lemma NormalisedScales(m: Maths, d: real, n: NormalizationType, S: nat, P: nat)
    requires Divisor(m, n, S, P) != 0.0
    ensures n == NoNormalization ==> Normalised(m, d, n, S, P) == d
    ensures n != NoNormalization ==> Normalised(m, d, n, S, P) * Divisor(m, n, S, P) == d
  {
  }

  /** Without wrap-around the divisors are sqrt(S^2 + P^2) and S + P, and S + P is never 0. */
  lemma DivisorExact(m: Maths, S: nat, P: nat)
    requires S >= 1 && P >= 1
    ensures S * S + P * P < U32 ==> Divisor(m, Diagonal, S, P) == m.sqrt((S * S + P * P) as real)
    ensures S + P < U32 ==> Divisor(m, SumOfSides, S, P) == (S + P) as real && Divisor(m, SumOfSides, S, P) != 0.0
  {
  }

  // ------------------------------------------------------------ the class

  /** distanceFunctions[index] for the four entries of the table. */
  function FunctionAt(index: int): DistanceFunction
    requires 0 <= index < 4
  {
    if index == 0 then Euclidean else if index == 1 then Manhattan else if index == 2 then Chebyshev else Minkowski
  }

  class Dtw {
    const maths: Maths
    /** The signal's feature vectors. */
    const from: seq<seq<real>>
    var points: seq<seq<DtwPoint>>
    var distanceFn: DistanceFunction
    var passType: PassType

    /** One row per signal frame, all rows of one length, links well formed. */
    ghost predicate Valid()
      reads this
    {
      && |points| == |from|
      && (forall a :: 0 <= a < |points| ==> |points[a]| == |points[0]|)
      && Linked(points)
    }

    /** Dtw(signal): one empty row per signal frame, Euclidean distance, Neighbors passes. */
    constructor(m: Maths, signal: seq<seq<real>>)
      ensures maths == m && from == signal
      ensures points == seq(|signal|, _ => []) && distanceFn == Euclidean && passType == Neighbors
      ensures Valid()
    {
      maths := m;
      from := signal;
      points := seq(|signal|, _ => []);
      distanceFn := Euclidean;
      passType := Neighbors;
    }

    /** setPassType. */
    method SetPassType(t: PassType)
      modifies this`passType
      ensures passType == t
    {
      passType := t;
    }

    /**
     * setDistanceFunction: entries 1, 2 and 3 of the four-entry table are
     * selected by their index; index 0 (Euclidean) and every index outside
     * the table leave the function as it was.
     */
    method SetDistanceFunction(index: int)
      modifies this`distanceFn
      ensures 0 < index < 4 ==> distanceFn == FunctionAt(index)
      ensures !(0 < index < 4) ==> distanceFn == old(distanceFn)
    {
      var functionsCount := 4;
      if index > 0 && index < functionsCount {
        distanceFn := FunctionAt(index);
      }
    }

    /**
     * calculateLocalDistances: every row resized to the pattern's length and
     * every cell (i, j) set to DtwPoint(i, j, distanceFn(from[i], pattern[j])).
     */
    method CalculateLocalDistances(pattern: seq<seq<real>>)
      requires Comparable(from, pattern)
      modifies this`points
      ensures points == LocalPoints(LocalDistances(maths, distanceFn, from, pattern), |from|, |pattern|)
      ensures Valid()
    {
      ghost var L := LocalDistances(maths, distanceFn, from, pattern);
      var i := 0;
      var rows := points;
      points := seq(|from|, a requires 0 <= a < |from| => if a < |rows| then rows[a] else []);
      while i < |from|
        invariant 0 <= i <= |from| && |points| == |from|
        invariant forall a :: 0 <= a < i ==> points[a] == LocalPoints(L, |from|, |pattern|)[a]
      {
        var row := LocalRow(pattern, i);
        points := points[i := row];
        i := i + 1;
      }
      assert points == LocalPoints(L, |from|, |pattern|);
      LocalPointsLinked(L, |from|, |pattern|);
    }

    /** Row i of calculateLocalDistances: resize, then one DtwPoint per pattern frame. */
    method LocalRow(pattern: seq<seq<real>>, i: nat) returns (row: seq<DtwPoint>)
      requires Comparable(from, pattern) && i < |from|
      ensures row == LocalPoints(LocalDistances(maths, distanceFn, from, pattern), |from|, |pattern|)[i]
    {
      ghost var L := LocalDistances(maths, distanceFn, from, pattern);
      row := ResizePoints(if i < |points| then points[i] else [], |pattern|);
      var j := 0;
      while j < |pattern|
        invariant 0 <= j <= |pattern| && |row| == |pattern|
        invariant forall b :: 0 <= b < j ==> row[b] == NewPoint(i, b, L[i][b])
      {
        var d := Apply(maths, distanceFn, from[i], pattern[j]);
        row := row[j := NewPoint(i, j, d)];
        j := j + 1;
      }
    }

    /**
     * getDistance: local distances, then the pass over rows 1 .. S-1 and
     * columns 1 .. P-1, then the accumulated distance of (S-1, P-1),
     * normalised. The grid is left as AlignedGrid for getPath.
     */
    method GetDistance(pattern: seq<seq<real>>, normalization: NormalizationType) returns (distance: real)
      requires Comparable(from, pattern) && |from| >= 1 && |pattern| >= 1
      requires Divisor(maths, normalization, |from|, |pattern|) != 0.0
      modifies this`points
      ensures Valid()
      ensures points == AlignedGrid(LocalDistances(maths, distanceFn, from, pattern), |from|, |pattern|, passType)
      ensures distance == Normalised(maths,
        Acc(LocalDistances(maths, distanceFn, from, pattern), |from|, |pattern|, passType, |from| - 1, |pattern| - 1),
        normalization, |from|, |pattern|)
    {
      CalculateLocalDistances(pattern);
      ghost var L := LocalDistances(maths, distanceFn, from, pattern);
      var signalSize := |from|;
      var patternSize := |pattern|;
      Pass(L, patternSize);
      LastCell(L, signalSize, patternSize, passType);
      distance := points[signalSize - 1][patternSize - 1].dAccumulated;
      distance := Normalize(maths, distance, normalization, signalSize, patternSize);
    }

    /** getDistance's pass over rows 1 .. S-1, starting from the local-distance grid. */
    method Pass(ghost L: seq<seq<real>>, patternSize: nat)
      requires IsRect(L, |from|, patternSize) && |from| >= 1 && patternSize >= 1
      requires points == LocalPoints(L, |from|, patternSize)
      modifies this`points
      ensures points == AlignedGrid(L, |from|, patternSize, passType)
      ensures Valid()
    {
      var signalSize := |from|;
      PassStart(L, signalSize, patternSize, passType);
      var i := 1;
      while i < signalSize
        invariant 1 <= i <= signalSize
        invariant points == PartialGrid(L, signalSize, patternSize, passType, i, 1)
      {
        FillRow(L, i, patternSize);
        i := i + 1;
      }
      PassEnd(L, signalSize, patternSize, passType, i);
      AlignedLinked(L, signalSize, patternSize, passType);
    }

    /** getDistance's normalisation of the accumulated distance of the last cell. */
    static method Normalize(m: Maths, d: real, normalization: NormalizationType, signalSize: nat, patternSize: nat)
      returns (distance: real)
      requires Divisor(m, normalization, signalSize, patternSize) != 0.0
      ensures distance == Normalised(m, d, normalization, signalSize, patternSize)
    {
      distance := d;
      match normalization
      case Diagonal =>
        distance := distance / m.sqrt(((signalSize * signalSize + patternSize * patternSize) % U32) as real);
      case SumOfSides =>
        distance := distance / (((signalSize + patternSize) % U32) as real);
      case NoNormalization =>
    }

    /** Row i of getDistance's pass: columns 1 .. P-1 in order. */
    method FillRow(ghost L: seq<seq<real>>, i: nat, patternSize: nat)
      requires IsRect(L, |from|, patternSize) && 1 <= i < |from| && patternSize >= 1
      requires points == PartialGrid(L, |from|, patternSize, passType, i, 1)
      modifies this`points
      ensures points == PartialGrid(L, |from|, patternSize, passType, i + 1, 1)
    {
      var j := 1;
      while j < patternSize
        invariant 1 <= j <= patternSize
        invariant points == PartialGrid(L, |from|, patternSize, passType, i, j)
      {
        FillCell(L, i, j, patternSize);
        j := j + 1;
      }
      PassRow(L, |from|, patternSize, passType, i, j);
    }

    /**
     * Cell (i, j) of the pass: top, center and bottom by the pass type,
     * previous = top if strictly below center, else center, then bottom if
     * strictly below that; accumulated = local + previous's accumulated.
     */
    method FillCell(ghost L: seq<seq<real>>, i: nat, j: nat, patternSize: nat)
      requires IsRect(L, |from|, patternSize) && 1 <= i < |from| && 1 <= j < patternSize
      requires points == PartialGrid(L, |from|, patternSize, passType, i, j)
      modifies this`points
      ensures points == PartialGrid(L, |from|, patternSize, passType, i, j + 1)
    {
      ghost var S := |from|;
      var grid: seq<seq<DtwPoint>> := points;
      var center := (i - 1, j - 1);
      var top, bottom;
      if Neighbors == passType {
        top, bottom := (i - 1, j), (i, j - 1);
      } else if i > 1 && j > 1 {
        top, bottom := (i - 2, j - 1), (i - 1, j - 2);
      } else {
        top, bottom := (i - 1, j), (i, j - 1);
      }
      assert CandidatesOf(passType, i, j) == Candidates(top, center, bottom);
      var dTop, dCenter, dBottom := grid[top.0][top.1].dAccumulated, grid[center.0][center.1].dAccumulated,
                                    grid[bottom.0][bottom.1].dAccumulated;
      var previous, dPrevious := ChoosePrevious(top, center, bottom, dTop, dCenter, dBottom);
      var p := grid[i][j];
      p := p.(dAccumulated := p.dLocal + dPrevious, previous := Previous(previous.0, previous.1));
      CellFilled(L, S, patternSize, passType, i, j, dTop, dCenter, dBottom, previous, p);
      points := grid[i := grid[i][j := p]];
    }

    /**
     * getDistance's comparison for one cell, given the accumulated distances
     * of its candidates: previous = top if strictly below center, else
     * center, then bottom if strictly below that one.
     */
    static method ChoosePrevious(top: Cell, center: Cell, bottom: Cell, dTop: real, dCenter: real, dBottom: real)
      returns (previous: Cell, dPrevious: real)
      ensures previous == CellOf(Candidates(top, center, bottom), PickOf(dTop, dCenter, dBottom))
      ensures dPrevious == ValueOf(PickOf(dTop, dCenter, dBottom), dTop, dCenter, dBottom)
    {
      if dTop < dCenter {
        previous, dPrevious := top, dTop;
      } else {
        previous, dPrevious := center, dCenter;
      }
      if dBottom < dPrevious {
        previous, dPrevious := bottom, dBottom;
      }
    }

    /**
     * getPath: from (S-1, P-1), where P is the length of the first row, the
     * coordinates of each point that has a predecessor, following the links.
     */
    method GetPath() returns (path: seq<Cell>)
      requires Valid() && |points| > 0 && |points[0]| > 0
      ensures path == Path(points, |points| - 1, |points[0]| - 1)
    {
      path := [];
      var width, height := |points|, |points[0]|;
      var a: nat, b: nat := width - 1, height - 1;
      while points[a][b].previous.Previous?
        invariant a < |points| && b < |points[a]|
        invariant path + Path(points, a, b) == Path(points, width - 1, height - 1)
        decreases a + b
      {
        path := path + [(points[a][b].x, points[a][b].y)];
        a, b := points[a][b].previous.i, points[a][b].previous.j;
      }
    }
  }

  /** std::vector::resize on a row of points: the first n kept, missing ones default-constructed. */
  function ResizePoints(r: seq<DtwPoint>, n: nat): (s: seq<DtwPoint>)
    ensures |s| == n
    ensures forall k :: 0 <= k < n && k < |r| ==> s[k] == r[k]
    ensures forall k :: |r| <= k < n ==> s[k] == DefaultPoint()
  {
    if n <= |r| then r[..n] else r + seq(n - |r|, _ => DefaultPoint())
  }
}
