/**
 * The path calculator of the circulation page (`src/helpers`): the same
 * walk grid, a route from the finder, and that route mapped point by point
 * onto design cells.
 */
module CirculationPath {
  import opened Common
  import opened Grids
  import opened TopoViews
  import opened WalkGrid

  /** `stepsPer`: interpolation steps per unit of distance. */
  const StepsPer: int := 10

  /**
   * `getPathWithWallOpenings`: the walk grid handed to the finder, and one
   * design cell per point of the finder's route, from the start cell to
   * the end cell.
   */
  method GetPathWithWallOpenings(h: Heights, at: (int, int, int) -> Occupant, start: Point, end: Point, found: seq<Point>)
    returns (grid: array2<bool>, adjPath: seq<Point>)
    requires Shaped(h) && FinderRoute(found, start, end)
    ensures fresh(grid) && grid.Length0 == 3 * YMax && grid.Length1 == 3 * XMax
    ensures forall cy, cx, dy, dx :: InBlock(cy, cx, dy, dx) ==>
      grid[Sub(cy, dy), Sub(cx, dx)] == !Unwalkable(RuleAt(h, at, cx, cy), dx, dy)
    ensures adjPath == Cells(found)
    ensures |adjPath| == |found|
    ensures |found| > 0 ==> adjPath[0] == start && adjPath[|adjPath| - 1] == end
  {
    grid := BuildGrid(h, at);
    adjPath := Cells(found);
    RouteCells(found, start, end);
  }
}
