/**
 * The walk grid both path calculators build before asking the path
 * finder for a route: every design cell becomes a 3x3 block of sub-cells
 * so that a route can pass through the wall openings of a cube. The
 * centre sub-cell of a block is never blocked.
 */
module WalkGrid {
  import opened Common
  import opened Grids
  import opened TopoViews

  /** What `design.getAt` finds at a position, as far as walking goes; a cube says where it has access. */
  datatype Occupant = Vacant | Cube(w: bool, e: bool, n: bool, s: bool) | OtherObject

  /** Which sub-cells of a block become unwalkable: the four corners, and each wall midpoint. */
  datatype Blocking = Blocking(corners: bool, w: bool, e: bool, n: bool, s: bool)

  const NoBlocking := Blocking(false, false, false, false, false)
  const FullBlocking := Blocking(true, true, true, true, true)

  /**
   * Whether sub-cell (dx, dy) of a block is unwalkable: the corners have
   * dx and dy in {0, 2}; the west, east, north and south wall midpoints
   * are (0, 1), (2, 1), (1, 2) and (1, 0).
   */
  predicate Unwalkable(b: Blocking, dx: int, dy: int)
  {
    (dx != 1 && dy != 1 && b.corners)
    || (dx == 0 && dy == 1 && b.w) || (dx == 2 && dy == 1 && b.e)
    || (dx == 1 && dy == 2 && b.n) || (dx == 1 && dy == 0 && b.s)
  }

  /** On flat ground: an object blocks the corners, then the walls a cube has no access through, or all walls. */
  function FlatBlocking(ground: Occupant): Blocking
  {
    match ground
    case Vacant => NoBlocking
    case Cube(w, e, n, s) => Blocking(true, !w, !e, !n, !s)
    case OtherObject => FullBlocking
  }

  /** Something stands at a height between z and top, both included. */
  ghost predicate ObjectInWay(at: (int, int, int) -> Occupant, x: int, y: int, z: int, top: int)
  {
    exists k :: z <= k <= top && at(x, y, k) != Vacant
  }

  /**
   * The blocking of cell (x, y) at height z whose highest corner is at
   * `top`: on a slope (z differs from top) anything on the slope blocks
   * the whole block; on flat ground only the object at z counts.
   */
  ghost function CellBlocking(at: (int, int, int) -> Occupant, x: int, y: int, z: int, top: int): Blocking
  {
    if z != top then (if ObjectInWay(at, x, y, z, top) then FullBlocking else NoBlocking)
    else FlatBlocking(at(x, y, z))
  }

  /** The highest of a cell's four corners. */
  function TopCorner(corners: Heights, x: int, y: int): int
    requires 0 <= y < |corners| - 1 && Rectangular(corners, |corners|) && 0 <= x < |corners| - 1
  {
    Max(Max(corners[y][x], corners[y][x + 1]), Max(corners[y + 1][x], corners[y + 1][x + 1]))
  }

  /** The blocking of cell (x, y) of a design over the height map h. */
  ghost function RuleAt(h: Heights, at: (int, int, int) -> Occupant, x: int, y: int): Blocking
    requires Shaped(h) && 0 <= x < XMax && 0 <= y < YMax
  {
    CellBlocking(at, x, y, h[y][x], TopCorner(CornersOf(h), x, y))
  }

  /** Sub-cell d of cell c along one axis. */
  function Sub(c: int, d: int): int
  {
    3 * c + d
  }

  predicate InBlock(cy: int, cx: int, dy: int, dx: int)
  {
    0 <= cy < YMax && 0 <= cx < XMax && 0 <= dy < 3 && 0 <= dx < 3
  }

  /** The centre of a block stays walkable, whatever the blocking. */
  lemma CentreWalkable(b: Blocking)
    ensures !Unwalkable(b, 1, 1)
    ensures b == FullBlocking ==> forall dx, dy :: 0 <= dx < 3 && 0 <= dy < 3 && !(dx == 1 && dy == 1) ==> Unwalkable(b, dx, dy)
  {
  }

  /**
   * The rules of one cell: a blocked slope blocks all eight border
   * sub-cells; on flat ground a cube blocks its corners and exactly the
   * wall midpoints it has no access through, and any other object blocks
   * the whole border.
   */
  lemma CellRules(at: (int, int, int) -> Occupant, x: int, y: int, z: int, top: int)
    ensures z != top && ObjectInWay(at, x, y, z, top) ==> CellBlocking(at, x, y, z, top) == FullBlocking
    ensures z != top && !ObjectInWay(at, x, y, z, top) ==> CellBlocking(at, x, y, z, top) == NoBlocking
    ensures z == top && at(x, y, z).Cube? ==> (var b := CellBlocking(at, x, y, z, top);
      b.corners && (Unwalkable(b, 0, 1) <==> !at(x, y, z).w) && (Unwalkable(b, 2, 1) <==> !at(x, y, z).e)
      && (Unwalkable(b, 1, 2) <==> !at(x, y, z).n) && (Unwalkable(b, 1, 0) <==> !at(x, y, z).s))
    ensures z == top && at(x, y, z).OtherObject? ==> CellBlocking(at, x, y, z, top) == FullBlocking
    ensures z == top && at(x, y, z).Vacant? ==> CellBlocking(at, x, y, z, top) == NoBlocking
  {
  }

  /** The `setWalkableAt(..., false)` calls for one cell. */
  method BlockCell(grid: array2<bool>, x: int, y: int, b: Blocking)
    requires grid.Length0 == 3 * YMax && grid.Length1 == 3 * XMax
    requires 0 <= x < XMax && 0 <= y < YMax
    modifies grid
    ensures forall cy, cx, dy, dx :: InBlock(cy, cx, dy, dx) ==>
      grid[Sub(cy, dy), Sub(cx, dx)] == (old(grid[Sub(cy, dy), Sub(cx, dx)]) && !(cy == y && cx == x && Unwalkable(b, dx, dy)))
  {
    if b.corners {
      grid[Sub(y, 0), Sub(x, 0)] := false;
      grid[Sub(y, 0), Sub(x, 2)] := false;
      grid[Sub(y, 2), Sub(x, 2)] := false;
      grid[Sub(y, 2), Sub(x, 0)] := false;
    }
    if b.w {
      grid[Sub(y, 1), Sub(x, 0)] := false;
    }
    if b.e {
      grid[Sub(y, 1), Sub(x, 2)] := false;
    }
    if b.n {
      grid[Sub(y, 2), Sub(x, 1)] := false;
    }
    if b.s {
      grid[Sub(y, 0), Sub(x, 1)] := false;
    }
  }

  /** The slope scan: whether anything stands at a height from z up to top. */
  method ScanSlope(at: (int, int, int) -> Occupant, x: int, y: int, z: int, top: int) returns (inWay: bool)
    ensures inWay <==> ObjectInWay(at, x, y, z, top)
  {
    inWay := false;
    var k := z;
    while k < top + 1
      invariant z <= k && (k <= top + 1 || k == z)
      invariant inWay <==> exists j :: z <= j < k && at(x, y, j) != Vacant
    {
      if at(x, y, k) != Vacant {
        inWay := true;
      }
      k := k + 1;
    }
  }

  /**
   * The grid of `getPathWithWallOpenings`, (3 xMax) wide and (3 yMax)
   * high, indexed by row: sub-cell (dx, dy) of cell (x, y) is walkable
   * exactly when that cell's blocking leaves it free.
   */
  method BuildGrid(h: Heights, at: (int, int, int) -> Occupant) returns (grid: array2<bool>)
    requires Shaped(h)
    ensures fresh(grid) && grid.Length0 == 3 * YMax && grid.Length1 == 3 * XMax
    ensures forall cy, cx, dy, dx :: InBlock(cy, cx, dy, dx) ==>
      grid[Sub(cy, dy), Sub(cx, dx)] == !Unwalkable(RuleAt(h, at, cx, cy), dx, dy)
  {
    grid := new bool[3 * YMax, 3 * XMax]((i, j) => true);
    var corners := Corners(h);
    for y := 0 to YMax
      invariant forall cy, cx, dy, dx :: InBlock(cy, cx, dy, dx) ==>
        grid[Sub(cy, dy), Sub(cx, dx)] == (cy < y ==> !Unwalkable(RuleAt(h, at, cx, cy), dx, dy))
    {
      for x := 0 to XMax
        invariant forall cy, cx, dy, dx :: InBlock(cy, cx, dy, dx) ==>
          grid[Sub(cy, dy), Sub(cx, dx)] == ((cy < y || (cy == y && cx < x)) ==> !Unwalkable(RuleAt(h, at, cx, cy), dx, dy))
      {
        var z := h[y][x];
        var top := Max(Max(corners[y][x], corners[y][x + 1]), Max(corners[y + 1][x], corners[y + 1][x + 1]));
        var b: Blocking;
        if z != top {
          var inWay := ScanSlope(at, x, y, z, top);
          b := if inWay then FullBlocking else NoBlocking;
        } else {
          b := FlatBlocking(at(x, y, z));
        }
        assert b == RuleAt(h, at, x, y);
        BlockCell(grid, x, y, b);
      }
    }
  }

  // ---------------------------------------------------------------------
  // Routes

  /** A point of the walk grid, or a design cell: (x, y). */
  type Point = (int, int)

  /** The design cell of a sub-cell: each coordinate divided by 3 and rounded down (`Math.floor`). */
  function CellOf(p: Point): Point
  {
    (p.0 / 3, p.1 / 3)
  }

  /** The centre sub-cell of a design cell, where the path finder starts and ends. */
  function Centre(c: Point): Point
  {
    (Sub(c.0, 1), Sub(c.1, 1))
  }

  predicate InGrid(p: Point)
  {
    0 <= p.0 < 3 * XMax && 0 <= p.1 < 3 * YMax
  }

  /** What the path finder returns: no route, or a route inside the grid from start's centre to end's centre. */
  predicate FinderRoute(found: seq<Point>, start: Point, end: Point)
  {
    (forall i :: 0 <= i < |found| ==> InGrid(found[i]))
    && (|found| > 0 ==> found[0] == Centre(start) && found[|found| - 1] == Centre(end))
  }

  /** The design cell of every point of a route, in order. */
  function Cells(route: seq<Point>): (r: seq<Point>)
    ensures |r| == |route|
    ensures forall i :: 0 <= i < |r| ==> r[i] == CellOf(route[i])
  {
    seq(|route|, i requires 0 <= i < |route| => CellOf(route[i]))
  }

  /** A route the finder returns visits design cells only, and runs from the start cell to the end cell. */
  lemma RouteCells(found: seq<Point>, start: Point, end: Point)
    requires FinderRoute(found, start, end)
    ensures forall i :: 0 <= i < |found| ==> 0 <= Cells(found)[i].0 < XMax && 0 <= Cells(found)[i].1 < YMax
    ensures |found| > 0 ==> Cells(found)[0] == start && Cells(found)[|found| - 1] == end
  {
    forall i | 0 <= i < |found|
      ensures 0 <= Cells(found)[i].0 < XMax && 0 <= Cells(found)[i].1 < YMax
    {
      CellInDesign(found[i]);
    }
    CellOfCentre(start);
    CellOfCentre(end);
  }

  /** A sub-cell of the walk grid lies in a design cell. */
  lemma CellInDesign(p: Point)
    requires InGrid(p)
    ensures 0 <= CellOf(p).0 < XMax && 0 <= CellOf(p).1 < YMax
  {
  }

  /** The centre sub-cell of a design cell lies in that cell. */
  lemma CellOfCentre(c: Point)
    ensures CellOf(Centre(c)) == c
  {
  }
}
