/**
 * Board coordinates and the eight compass directions a piece steps in.
 * Coordinates are unbounded integers: moving a position never clips,
 * clamps or wraps at the board edge (see the BoardEdge module for the
 * optional on-board filter).
 */
module Geometry {

  /** A square, as (file, rank). */
  datatype Position = Position(file: int, rank: int)

  /** A difference of two squares: change of file, change of rank. */
  datatype Offset = Offset(df: int, dr: int)

  /** The eight compass points. */
  datatype Direction =
    | North | NorthEast | East | SouthEast
    | South | SouthWest | West | NorthWest

  function Abs(x: int): nat {
    if x < 0 then -x else x
  }

  /** The offset that carries p to q. */
  function OffsetBetween(p: Position, q: Position): Offset {
    Offset(q.file - p.file, q.rank - p.rank)
  }

  /** A unit step: at most one square along each axis, and not standing still. */
  predicate IsUnitStep(v: Offset) {
    -1 <= v.df <= 1 && -1 <= v.dr <= 1 && (v.df != 0 || v.dr != 0)
  }

  /** q adjoins p: a different square, at most one away on each axis. */
  predicate Adjacent(p: Position, q: Position) {
    IsUnitStep(OffsetBetween(p, q))
  }

  /** The fixed direction-to-delta table (files grow eastwards, ranks northwards). */
  function Delta(d: Direction): (v: Offset)
    ensures IsUnitStep(v)
  {
    match d
    case North     => Offset(0, 1)
    case NorthEast => Offset(1, 1)
    case East      => Offset(1, 0)
    case SouthEast => Offset(1, -1)
    case South     => Offset(0, -1)
    case SouthWest => Offset(-1, -1)
    case West      => Offset(-1, 0)
    case NorthWest => Offset(-1, 1)
  }

  /** The direction whose delta is v: the inverse of the delta table. */
  function DirectionOf(v: Offset): (d: Direction)
    requires IsUnitStep(v)
    ensures Delta(d) == v
  {
    if v.df == 0 then
      (if v.dr == 1 then North else South)
    else if v.df == 1 then
      (if v.dr == 1 then NorthEast else if v.dr == 0 then East else SouthEast)
    else
      (if v.dr == 1 then NorthWest else if v.dr == 0 then West else SouthWest)
  }

  /** Distinct directions have distinct deltas, so the table is a bijection onto the unit steps. */
  lemma DeltaInjective(d1: Direction, d2: Direction)
    ensures Delta(d1) == Delta(d2) <==> d1 == d2
  {
  }

  /**
   * The position shifted one step towards d. The result always adjoins p,
   * and the direction can be read back from the step taken.
   */
  function Move(p: Position, d: Direction): (q: Position)
    ensures Adjacent(p, q)
    ensures DirectionOf(OffsetBetween(p, q)) == d
  {
    Position(p.file + Delta(d).df, p.rank + Delta(d).dr)
  }

  /** From a fixed square, different directions reach different squares. */
  lemma MoveInjective(p: Position, d1: Direction, d2: Direction)
    ensures Move(p, d1) == Move(p, d2) <==> d1 == d2
  {
  }

  /** The squares adjoining p are exactly the squares one move away from p. */
  lemma AdjacentIffMove(p: Position, q: Position)
    ensures Adjacent(p, q) <==> exists d :: Move(p, d) == q
  {
    if Adjacent(p, q) {
      var d := DirectionOf(OffsetBetween(p, q));
      assert Move(p, d) == q;
    }
  }
}
