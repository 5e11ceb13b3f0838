/** Positions, the static grid, and the two grid helpers the transitions use
    (`translate` and `positions_equal`), whose code is not part of this model. */
module Grids {

  /** A cell coordinate, `[row, col]` as the engine stores it. */
  datatype Position = Position(row: int, col: int)

  /** A non-empty rectangular field of integers: 0 is walkable, anything else
      is an obstacle. */
  predicate IsRectangular(g: seq<seq<int>>) {
    && |g| > 0
    && |g[0]| > 0
    && forall i :: 0 <= i < |g| ==> |g[i]| == |g[0]|
  }

  type Grid = g: seq<seq<int>> | IsRectangular(g) witness [[0]]

  predicate InBounds(g: Grid, p: Position) {
    0 <= p.row < |g| && 0 <= p.col < |g[0]|
  }

  /** How a traced integer index into an axis of length `n` is resolved by
      JAX: a negative index counts from the end, and the result is then
      clamped into the axis. */
  function AxisIndex(i: int, n: nat): (j: nat)
    requires n > 0
    ensures j < n
    ensures 0 <= i < n ==> j == i
    ensures i < 0 && 0 <= i + n ==> j == i + n
  {
    var w := if i < 0 then i + n else i;
    if w < 0 then 0 else if w >= n then n - 1 else w
  }

  /** `grid[tuple(position)]`. Inside the grid this is the cell itself. */
  function CellAt(g: Grid, p: Position): (v: int)
    ensures InBounds(g, p) ==> v == g[p.row][p.col]
  {
    g[AxisIndex(p.row, |g|)][AxisIndex(p.col, |g[0]|)]
  }

  /** The grid helpers the transitions call.
      - `translate(position, heading)` is the cell one step away in a heading;
      - `obstructs(batch, position)` is `positions_equal(batch, position)[0]`,
        the boolean vector the occupancy check negates and reduces with `any`.
        Its shape for batches of several entities is not known here. */
  datatype GridOps = GridOps(
    translate: (Position, int) -> Position,
    obstructs: (seq<Position>, Position) -> seq<bool>)
  {
    /** For a batch holding exactly one entity, `any(not v)` holds exactly
        when that entity is elsewhere than the probed cell. */
    ghost predicate Valid() {
      forall batch, p :: |batch| == 1 ==> (AnyFalse(obstructs(batch, p)) <==> batch[0] != p)
    }
  }

  /** One admissible reading of `positions_equal(batch, p)[0]`: one boolean
      per entity, of which `[0]` keeps the first. */
  function FirstEntityOnly(batch: seq<Position>, p: Position): seq<bool> {
    if |batch| == 0 then [] else [batch[0] == p]
  }

  /** `any(not v)`: some entry of the vector is false. */
  predicate AnyFalse(v: seq<bool>) {
    exists i :: 0 <= i < |v| && !v[i]
  }
}
