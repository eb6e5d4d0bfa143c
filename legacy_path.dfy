/**
 * The path calculator of the `src/js` layer: the finder's route over the
 * walk grid is turned into design cells with consecutive repeats merged,
 * lifted onto the height map, and interpolated with a fixed number of
 * steps between neighbouring points.
 */
module LegacyPath {
  import opened Common
  import opened Grids
  import opened TopoViews
  import opened WalkGrid

  /** No two neighbouring cells of the list are equal. */
  predicate NoRepeats(cs: seq<Point>)
  {
    forall i :: 0 <= i < |cs| - 1 ==> cs[i] != cs[i + 1]
  }

  /** The list with every run of equal neighbours merged into one. */
  function Squash(cs: seq<Point>): (r: seq<Point>)
    ensures |r| <= |cs|
    ensures |cs| > 0 ==> |r| > 0 && r[0] == cs[0] && r[|r| - 1] == cs[|cs| - 1]
    ensures NoRepeats(r)
  {
    if |cs| == 0 then []
    else
      var n := |cs| - 1;
      Squash(cs[..n]) + (if n > 0 && cs[n] == cs[n - 1] then [] else [cs[n]])
  }

  /** Squashing keeps exactly the cells of the list. */
  lemma {:induction false} SquashMembers(cs: seq<Point>)
    ensures forall c :: c in Squash(cs) <==> c in cs
  {
    if |cs| > 0 {
      var n := |cs| - 1;
      SquashMembers(cs[..n]);
      assert cs == cs[..n] + [cs[n]];
      if n > 0 && cs[n] == cs[n - 1] {
        assert cs[n - 1] in cs[..n];
      }
    }
  }

  /** A list without repeated neighbours is left as it is; so squashing twice is squashing once. */
  lemma {:induction false} SquashKeepsNoRepeats(cs: seq<Point>)
    requires NoRepeats(cs)
    ensures Squash(cs) == cs
  {
    if |cs| > 0 {
      var n := |cs| - 1;
      assert NoRepeats(cs[..n]);
      SquashKeepsNoRepeats(cs[..n]);
      assert cs == cs[..n] + [cs[n]];
    }
  }

  lemma SquashIdempotent(cs: seq<Point>)
    ensures Squash(Squash(cs)) == Squash(cs)
  {
    SquashKeepsNoRepeats(Squash(cs));
  }

  /** The loop of `getPathWithWallOpenings` that keeps a point when its cell differs from the last one kept. */
  method CollapsePath(route: seq<Point>) returns (adjPath: seq<Point>)
    ensures adjPath == Squash(Cells(route))
  {
    ghost var cells := Cells(route);
    adjPath := [];
    var curr: Option<Point> := None;
    for i := 0 to |route|
      invariant adjPath == Squash(cells[..i])
      invariant i == 0 ==> curr.None?
      invariant i > 0 ==> curr == Some(cells[i - 1])
    {
      assert cells[..i + 1][..i] == cells[..i];
      var adj := CellOf(route[i]);
      if curr != Some(adj) {
        curr := Some(adj);
        adjPath := adjPath + [adj];
      }
    }
    assert cells[..|route|] == cells;
  }

  /**
   * `getPathWithWallOpenings`: the walk grid handed to the finder, and the
   * finder's route as design cells without repeated neighbours, from the
   * start cell to the end cell.
   */
  method GetPathWithWallOpenings(h: Heights, at: (int, int, int) -> Occupant, start: Point, end: Point, found: seq<Point>)
    returns (grid: array2<bool>, adjPath: seq<Point>)
    requires Shaped(h) && FinderRoute(found, start, end)
    ensures fresh(grid) && grid.Length0 == 3 * YMax && grid.Length1 == 3 * XMax
    ensures forall cy, cx, dy, dx :: InBlock(cy, cx, dy, dx) ==>
      grid[Sub(cy, dy), Sub(cx, dx)] == !Unwalkable(RuleAt(h, at, cx, cy), dx, dy)
    ensures adjPath == Squash(Cells(found))
    ensures |found| > 0 ==> |adjPath| > 0 && adjPath[0] == start && adjPath[|adjPath| - 1] == end
  {
    grid := BuildGrid(h, at);
    adjPath := CollapsePath(found);
    RouteCells(found, start, end);
  }

  // ---------------------------------------------------------------------
  // Smoothing

  /** A point of the 3-D path; the interpolation is exact here, where the source rounds. */
  datatype Point3 = Point3(x: real, y: real, z: real)

  /** Step s of the `steps` steps from a towards b. */
  function Lerp(a: Point3, b: Point3, s: int, steps: int): Point3
    requires steps > 0
  {
    var t := s as real;
    var n := steps as real;
    Point3(a.x + t * ((b.x - a.x) / n), a.y + t * ((b.y - a.y) / n), a.z + t * ((b.z - a.z) / n))
  }

  /** The first `count` steps from a towards b. */
  function Steps(a: Point3, b: Point3, steps: int, count: nat): (r: seq<Point3>)
    requires count == 0 || steps > 0
    ensures |r| == count
    ensures count > 0 ==> r[0] == a
  {
    seq(count, s requires 0 <= s < count => Lerp(a, b, s, steps))
  }

  /** The inner loop's points between two neighbours: `steps` of them, none when steps is not positive. */
  function Segment(a: Point3, b: Point3, steps: int): seq<Point3>
  {
    if steps <= 0 then [] else Steps(a, b, steps, steps)
  }

  /** The interpolated points of every pair of neighbours, in order. */
  function Segments(path: seq<Point3>, steps: int): (r: seq<Point3>)
    ensures |path| > 0 ==> |r| == (|path| - 1) * Max(steps, 0)
    ensures |path| >= 2 && steps > 0 ==> r[0] == path[0]
  {
    if |path| < 2 then []
    else
      var n := |path| - 1;
      var r := Segments(path[..n], steps) + Segment(path[n - 1], path[n], steps);
      assert |r| == (n - 1) * Max(steps, 0) + Max(steps, 0);
      r
  }

  /**
   * `smoothPath`'s points: a short path with more than one step comes back
   * as it is; otherwise the points between neighbours followed by the last point.
   */
  function Smoothed(path: seq<Point3>, steps: int): (r: seq<Point3>)
    ensures |path| > 0 ==> |r| == (|path| - 1) * Max(steps, 0) + 1
    ensures |path| > 0 && steps > 0 ==> r[0] == path[0] && r[|r| - 1] == path[|path| - 1]
    ensures |path| == 0 ==> r == []
  {
    if steps > 1 && |path| < 2 then path
    else Segments(path, steps) + (if |path| > 0 then [path[|path| - 1]] else [])
  }

  /** The inner loop of `smoothPath`: the steps from one point towards the next. */
  method SegmentPoints(start: Point3, end: Point3, steps: int) returns (points: seq<Point3>)
    ensures points == Segment(start, end, steps)
  {
    points := [];
    var s := 0;
    while s < steps
      invariant 0 <= s && (steps > 0 ==> s <= steps) && (steps <= 0 ==> s == 0)
      invariant points == Steps(start, end, steps, s)
    {
      assert Steps(start, end, steps, s + 1) == Steps(start, end, steps, s) + [Lerp(start, end, s, steps)];
      points := points + [Lerp(start, end, s, steps)];
      s := s + 1;
    }
  }

  /**
   * `smoothPath`. An empty path with at most one step gets `path[-1]`,
   * which is `undefined`: `undefinedLast` reports that point.
   */
  method SmoothPath(path: seq<Point3>, steps: int) returns (smoothed: seq<Point3>, undefinedLast: bool)
    ensures smoothed == Smoothed(path, steps)
    ensures undefinedLast <==> steps <= 1 && |path| == 0
  {
    if steps > 1 && |path| < 2 {
      return path, false;
    }
    if |path| == 0 {
      return [], true;
    }
    smoothed := [];
    var i := 1;
    while i < |path|
      invariant 1 <= i <= |path|
      invariant smoothed == Segments(path[..i], steps)
    {
      var points := SegmentPoints(path[i - 1], path[i], steps);
      assert path[..i + 1][..i] == path[..i];
      smoothed := smoothed + points;
      i := i + 1;
    }
    assert path[..|path|] == path;
    smoothed := smoothed + [path[|path| - 1]];
    undefinedLast := false;
  }

  /** The cells of a route lifted onto the height map (`topo.getAt`). */
  function Lifted(h: Heights, cells: seq<Point>): (r: seq<Point3>)
    requires Shaped(h)
    requires forall i :: 0 <= i < |cells| ==> 0 <= cells[i].0 < XMax && 0 <= cells[i].1 < YMax
    ensures |r| == |cells|
  {
    seq(|cells|, i requires 0 <= i < |cells| => Point3(cells[i].0 as real, cells[i].1 as real, h[cells[i].1][cells[i].0] as real))
  }

  /** The point of a design cell on the ground. */
  function Ground(h: Heights, c: Point): Point3
    requires Shaped(h) && 0 <= c.0 < XMax && 0 <= c.1 < YMax
  {
    Point3(c.0 as real, c.1 as real, h[c.1][c.0] as real)
  }

  /**
   * `calculatePath`: the route's cells on the ground, three steps per
   * neighbour pair. It starts on the start cell and ends on the end cell.
   */
  method CalculatePath(h: Heights, at: (int, int, int) -> Occupant, start: Point, end: Point, found: seq<Point>)
    returns (smoothed: seq<Point3>)
    requires Shaped(h) && FinderRoute(found, start, end)
    ensures var cells := Squash(Cells(found));
      (forall i :: 0 <= i < |cells| ==> 0 <= cells[i].0 < XMax && 0 <= cells[i].1 < YMax)
      && smoothed == Smoothed(Lifted(h, cells), 3)
    ensures |found| == 0 ==> smoothed == []
    ensures |found| > 0 ==> (|smoothed| == 3 * (|Squash(Cells(found))| - 1) + 1
      && smoothed[0] == Ground(h, start) && smoothed[|smoothed| - 1] == Ground(h, end))
  {
    var grid, path := GetPathWithWallOpenings(h, at, start, end, found);
    SquashedInDesign(found, start, end);
    var path3D := Lifted(h, path);
    if |found| > 0 {
      assert path3D[0] == Ground(h, path[0]);
      assert path3D[|path3D| - 1] == Ground(h, path[|path| - 1]);
    }
    var undefinedLast;
    smoothed, undefinedLast := SmoothPath(path3D, 3);
  }

  /** The merged cells of a finder's route are design cells. */
  lemma SquashedInDesign(found: seq<Point>, start: Point, end: Point)
    requires FinderRoute(found, start, end)
    ensures var cells := Squash(Cells(found));
      forall i :: 0 <= i < |cells| ==> 0 <= cells[i].0 < XMax && 0 <= cells[i].1 < YMax
  {
    RouteCells(found, start, end);
    var cs := Cells(found);
    SquashMembers(cs);
    forall i | 0 <= i < |Squash(cs)|
      ensures 0 <= Squash(cs)[i].0 < XMax && 0 <= Squash(cs)[i].1 < YMax
    {
      assert Squash(cs)[i] in cs;
    }
  }
}
