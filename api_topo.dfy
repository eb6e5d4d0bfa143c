/**
 * The topography of the web design world: a yMax x xMax height map whose
 * cells are raised one step at a time up to zMax - 1 and lowered down to 0.
 */
module ApiTopo {
  import opened Common
  import opened Helpers
  import opened Grids
  import opened TopoViews

  class Topo {
    var heights: Heights

    predicate Valid()
      reads this
    {
      Shaped(heights)
    }

    /** `new Topo(heights)`: the given map, or an empty one when none is given. */
    constructor (given: Option<Heights>)
      ensures given.Some? ==> heights == given.value
      ensures given.None? ==> Flat(heights)
    {
      var h := if given.Some? then given.value else [];
      if given.None? {
        h := Empty2DArray(YMax, XMax, 0);
      }
      heights := h;
    }

    /** `Topo.thaw`: a topography around the stored heights. */
    static method Thaw(stored: Option<Heights>) returns (t: Topo)
      ensures fresh(t)
      ensures stored.Some? ==> t.heights == stored.value
      ensures stored.None? ==> Flat(t.heights)
    {
      t := new Topo(stored);
    }

    method Clear()
      modifies this
      ensures Flat(heights)
    {
      heights := Empty2DArray(YMax, XMax, 0);
    }

    /** `increase`: only while the new height stays below zMax. */
    method Increase(x: int, y: int)
      requires Valid() && 0 <= y < YMax
      modifies this
      ensures heights == Raise(old(heights), x, y, ZMax - 1)
      ensures Valid()
      ensures old(Bounded(heights, ZMax - 1)) ==> Bounded(heights, ZMax - 1)
    {
      if 0 <= x < |heights[y]| && heights[y][x] + 1 < ZMax {
        heights := heights[y := heights[y][x := heights[y][x] + 1]];
      }
      if old(Bounded(heights, ZMax - 1)) {
        RaiseBounded(old(heights), x, y, ZMax - 1);
      }
    }

    /** `decrease`: only while the new height stays at or above 0. */
    method Decrease(x: int, y: int)
      requires Valid() && 0 <= y < YMax
      modifies this
      ensures heights == Lower(old(heights), x, y)
      ensures Valid()
      ensures old(Bounded(heights, ZMax - 1)) ==> Bounded(heights, ZMax - 1)
    {
      if 0 <= x < |heights[y]| && heights[y][x] - 1 >= 0 {
        heights := heights[y := heights[y][x := heights[y][x] - 1]];
      }
      if old(Bounded(heights, ZMax - 1)) {
        LowerBounded(old(heights), x, y, ZMax - 1);
      }
    }

    /** `getAt`: the height at (x, y); `undefined` for an x off the row. */
    function GetAt(x: int, y: int): (r: Option<int>)
      reads this
      requires 0 <= y < |heights|
      ensures r.Some? <==> 0 <= x < |heights[y]|
      ensures r.Some? ==> r.value == heights[y][x]
    {
      if 0 <= x < |heights[y]| then Some(heights[y][x]) else None
    }

    method GetSlice(camera: Camera, s: int) returns (r: Option<Profile>)
      requires Valid() && (camera !in {Top, Bottom} ==> 0 <= s < AxisLength(camera))
      ensures r == TopoSlice(heights, camera, s)
    {
      r := SliceOfMap(heights, camera, s);
    }

    /** `getBackgroundSlices(camera, sliceIndex, max = 17)`. */
    method GetBackgroundSlices(camera: Camera, s: int, max: int) returns (r: seq<Option<Profile>>)
      requires Valid() && BackgroundInRange(camera, s)
      ensures r == TopoBackground(heights, camera, s, max)
    {
      r := BackgroundOfMap(heights, camera, s, max);
    }

    method GetCorners() returns (corners: Heights)
      requires Valid()
      ensures corners == CornersOf(heights)
    {
      corners := Corners(heights);
    }

    method GetHighestNonZeroPoint() returns (loc: Option<Pos>)
      ensures loc.None? <==> forall y, x :: 0 <= y < |heights| && 0 <= x < |heights[y]| ==> heights[y][x] <= 0
      ensures loc.Some? ==> var p := loc.value;
        0 <= p.y < |heights| && 0 <= p.x < |heights[p.y]| && heights[p.y][p.x] == p.z > 0
        && (forall y, x :: 0 <= y < |heights| && 0 <= x < |heights[y]| ==> heights[y][x] <= p.z)
        && (forall y, x :: Before(heights, x, y, p.x, p.y) ==> heights[y][x] < p.z)
    {
      loc := HighestPoint(heights);
    }

    /** `fill`: the sample design, one hill of height 1 at (12, 8). */
    method Fill()
      requires Valid()
      modifies this
      ensures heights == SetHeight(old(heights), 12, 8, 1)
      ensures Valid()
    {
      heights := heights[8 := heights[8][12 := 1]];
    }
  }
}
