// The occupancy grid that `create_grid` returns, as the planner reads it:
// a dense rectangular matrix indexed [north cell, east cell] whose entries are
// 1 on an obstacle, and numpy's rules for indexing it with a pair of ints.
module Occupancy {
  import opened Wrappers

  /** A grid cell (row, column) = (north index, east index). */
  datatype Cell = Cell(north: int, east: int)

  ghost predicate Rectangular(g: seq<seq<int>>) {
    forall i, j :: 0 <= i < j < |g| ==> |g[i]| == |g[j]|
  }

  /** A numpy 2-D array: every row has the same length. */
  type Grid = g: seq<seq<int>> | Rectangular(g) witness []

  function Rows(g: Grid): nat {
    |g|
  }

  function Cols(g: Grid): nat {
    if |g| == 0 then 0 else |g[0]|
  }

  /** numpy's rule for one integer index into an axis of length n: -n <= i < n is
      accepted and a negative index counts from the end; anything else raises
      IndexError (None). */
  function AxisIndex(i: int, n: nat): (r: Option<nat>)
    ensures r.Some? <==> -(n as int) <= i < n
    ensures r.Some? ==> r.value < n && (r.value == i || r.value == i + n)
    ensures r.Some? && 0 <= i ==> r.value == i
  {
    if -(n as int) <= i < n then Some(if i < 0 then i + n else i) else None
  }

  /** `grid[c.north, c.east]`, or None where numpy raises IndexError. */
  function CellAt(g: Grid, c: Cell): (r: Option<int>)
    ensures r.Some? <==> -(Rows(g) as int) <= c.north < Rows(g) && -(Cols(g) as int) <= c.east < Cols(g)
    ensures r.Some? ==> r.value == g[AxisIndex(c.north, Rows(g)).value][AxisIndex(c.east, Cols(g)).value]
    ensures 0 <= c.north < Rows(g) && 0 <= c.east < Cols(g) ==> r == Some(g[c.north][c.east])
  {
    match AxisIndex(c.north, Rows(g))
    case None => None
    case Some(row) =>
      match AxisIndex(c.east, Cols(g))
      case None => None
      case Some(col) => Some(g[row][col])
  }

  /** The planner's test for an obstacle: the entry compares equal to 1. */
  predicate Obstructed(v: int) {
    v == 1
  }
}
