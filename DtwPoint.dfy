/**
 * Aquila::DtwPoint (branches/cache/src/dtw/DtwPoint.cpp, src/dtw/DtwPoint.h):
 * one cell of the DTW grid, with its coordinates, local and accumulated
 * distances and a link to its predecessor. The predecessor pointer is
 * modelled as the grid indices of the cell it points to.
 */
module DtwPoints {

  /** DtwPoint::previous: a null pointer, or the cell (i, j) of the grid. */
  datatype Link = NoPrevious | Previous(i: nat, j: nat)

  datatype DtwPoint = DtwPoint(x: nat, y: nat, dLocal: real, dAccumulated: real, previous: Link)

  /** DtwPoint(): the origin, with both distances 0 and no predecessor. */
  function DefaultPoint(): (p: DtwPoint)
    ensures p.x == 0 && p.y == 0 && p.dLocal == 0.0 && p.dAccumulated == 0.0 && p.previous == NoPrevious
  {
    DtwPoint(0, 0, 0.0, 0.0, NoPrevious)
  }

  /**
   * DtwPoint(x, y, distanceLocal): the coordinates and local distance as
   * given and no predecessor; a cell of the first row or column starts
   * accumulated at its local distance, every other cell at 0.
   */
  function NewPoint(x: nat, y: nat, distanceLocal: real): (p: DtwPoint)
    ensures p.x == x && p.y == y && p.dLocal == distanceLocal && p.previous == NoPrevious
    ensures x == 0 || y == 0 ==> p.dAccumulated == distanceLocal
    ensures x > 0 && y > 0 ==> p.dAccumulated == 0.0
  {
    var p := DtwPoint(x, y, distanceLocal, 0.0, NoPrevious);
    if 0 == x || 0 == y then p.(dAccumulated := p.dLocal) else p
  }
}
