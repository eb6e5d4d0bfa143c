/**
 * The design grid shared by both design models: a 3-D grid indexed
 * `[z][y][x]` with the fixed 17 x 17 x 7 dimensions, bounds-checked reads
 * and writes, the 2-D slices seen from each camera (with the horizontal and
 * vertical flips of the Array2D library written out), and the enumeration
 * of the background slice indices behind the current slice.
 */
module Grids {
  import opened Common
  import opened Helpers

  type Grid<T> = seq<seq<seq<T>>>

  predicate InGrid(p: Pos)
  {
    0 <= p.x < XMax && 0 <= p.y < YMax && 0 <= p.z < ZMax
  }

  predicate WellFormed<T>(g: Grid<T>)
  {
    Box(g, XMax, YMax, ZMax)
  }

  /** `_getCell`: the stored value, or null (`nothing`) outside the grid. */
  function CellAt<T>(g: Grid<T>, p: Pos, nothing: T): (c: T)
    requires WellFormed(g)
    ensures !InGrid(p) ==> c == nothing
    ensures InGrid(p) ==> c == g[p.z][p.y][p.x]
  {
    if InGrid(p) then g[p.z][p.y][p.x] else nothing
  }

  /** `_setCell`: the grid with one cell overwritten; a write outside the grid is ignored. */
  function Updated<T>(g: Grid<T>, p: Pos, v: T): (r: Grid<T>)
    requires WellFormed(g)
    ensures WellFormed(r)
  {
    if InGrid(p) then g[p.z := g[p.z][p.y := g[p.z][p.y][p.x := v]]] else g
  }

  /** Read after write: only the written cell changes, and only when it lies in the grid. */
  lemma UpdatedAt<T>(g: Grid<T>, p: Pos, v: T, q: Pos, nothing: T)
    requires WellFormed(g)
    ensures CellAt(Updated(g, p, v), q, nothing) == if q == p && InGrid(p) then v else CellAt(g, q, nothing)
  {
  }

  lemma UpdatedOutside<T>(g: Grid<T>, p: Pos, v: T)
    requires WellFormed(g) && !InGrid(p)
    ensures Updated(g, p, v) == g
  {
  }

  /** The 3-D lookup of the helpers agrees with `_getCell` on a well-formed grid. */
  lemma GetSafe3DIsCellAt<T>(g: Grid<T>, p: Pos, nothing: T)
    requires WellFormed(g)
    ensures GetSafe3D(g, p.x, p.y, p.z).GetOr(nothing) == CellAt(g, p, nothing)
  {
    GetSafe3DInBox(g, XMax, YMax, ZMax, p.x, p.y, p.z);
  }

  // ---------------------------------------------------------------------
  // Flips (Array2D.hflip, Array2D.vflip, Array2D.transpose)

  function Reverse<T>(s: seq<T>): (r: seq<T>)
    ensures |r| == |s|
    ensures forall i :: 0 <= i < |s| ==> r[i] == s[|s| - 1 - i]
  {
    seq(|s|, i requires 0 <= i < |s| => s[|s| - 1 - i])
  }

  /** Mirror left to right: every row reversed. */
  function HFlip<T>(m: seq<seq<T>>): (r: seq<seq<T>>)
    ensures |r| == |m|
    ensures forall i :: 0 <= i < |m| ==> r[i] == Reverse(m[i])
  {
    seq(|m|, i requires 0 <= i < |m| => Reverse(m[i]))
  }

  /** Mirror top to bottom: the rows in reverse order. */
  function VFlip<T>(m: seq<seq<T>>): (r: seq<seq<T>>)
    ensures r == Reverse(m)
  {
    Reverse(m)
  }

  lemma {:induction false} ReverseReverse<T>(s: seq<T>)
    ensures Reverse(Reverse(s)) == s
  {
    assert forall i :: 0 <= i < |s| ==> Reverse(Reverse(s))[i] == s[i];
  }

  /** Flipping twice gives the original back. */
  lemma HFlipInvolution<T>(m: seq<seq<T>>)
    ensures HFlip(HFlip(m)) == m
  {
    forall i | 0 <= i < |m|
      ensures HFlip(HFlip(m))[i] == m[i]
    {
      ReverseReverse(m[i]);
    }
  }

  predicate Rectangular<T>(m: seq<seq<T>>, cols: nat)
  {
    forall i :: 0 <= i < |m| ==> |m[i]| == cols
  }

  /** Rows become columns. */
  function Transpose<T>(m: seq<seq<T>>, cols: nat): (r: seq<seq<T>>)
    requires Rectangular(m, cols)
    ensures |r| == cols && Rectangular(r, |m|)
    ensures forall i, j :: 0 <= i < cols && 0 <= j < |m| ==> r[i][j] == m[j][i]
  {
    seq(cols, i requires 0 <= i < cols => seq(|m|, j requires 0 <= j < |m| => m[j][i]))
  }

  // ---------------------------------------------------------------------
  // Slices

  /** The number of slices a camera can step through: y for north/south, x for east/west, z for top/bottom. */
  function AxisLength(camera: Camera): nat
  {
    match camera
    case North | South => YMax
    case East | West => XMax
    case Top | Bottom => ZMax
  }

  /** `_getYSlice(y)`: `slice[z][x] == objects[z][y][x]`. */
  function YSliceOf<T>(g: Grid<T>, y: int): seq<seq<T>>
    requires WellFormed(g) && 0 <= y < YMax
  {
    seq(ZMax, z requires 0 <= z < ZMax => seq(XMax, x requires 0 <= x < XMax => g[z][y][x]))
  }

  /** `_getXSlice(x)`: `slice[z][y] == objects[z][y][x]`. */
  function XSliceOf<T>(g: Grid<T>, x: int): seq<seq<T>>
    requires WellFormed(g) && 0 <= x < XMax
  {
    seq(ZMax, z requires 0 <= z < ZMax => seq(YMax, y requires 0 <= y < YMax => g[z][y][x]))
  }

  /** `getSlice(camera, i)`: the picture seen by a camera at slice i. */
  function SliceOf<T>(g: Grid<T>, camera: Camera, i: int): seq<seq<T>>
    requires WellFormed(g) && 0 <= i < AxisLength(camera)
  {
    match camera
    case North => YSliceOf(g, i)
    case South => HFlip(YSliceOf(g, i))
    case East => HFlip(XSliceOf(g, i))
    case West => XSliceOf(g, i)
    case Bottom => VFlip(g[i])
    case Top => g[i]
  }

  /** Rows and columns of a camera's picture. */
  function SliceRows(camera: Camera): nat
  {
    if camera in {Top, Bottom} then YMax else ZMax
  }

  function SliceCols(camera: Camera): nat
  {
    if camera in {East, West} then YMax else XMax
  }

  /**
   * Where in the model the cell in row r, column c of a camera's picture at
   * slice i lies. North looks along +y with x to the right; south sees x
   * mirrored; east sees y mirrored; the bottom view is the top view with
   * its rows reversed.
   */
  function SlicePos(camera: Camera, i: int, r: int, c: int): Pos
  {
    match camera
    case North => Pos(c, i, r)
    case South => Pos(XMax - 1 - c, i, r)
    case East => Pos(i, YMax - 1 - c, r)
    case West => Pos(i, c, r)
    case Bottom => Pos(c, YMax - 1 - r, i)
    case Top => Pos(c, r, i)
  }

  /** Every cell of a camera's picture is the model cell at `SlicePos`, which lies in the grid. */
  lemma SliceAt<T>(g: Grid<T>, camera: Camera, i: int, r: int, c: int, nothing: T)
    requires WellFormed(g) && 0 <= i < AxisLength(camera)
    requires 0 <= r < SliceRows(camera) && 0 <= c < SliceCols(camera)
    ensures InGrid(SlicePos(camera, i, r, c))
    ensures |SliceOf(g, camera, i)| == SliceRows(camera)
    ensures |SliceOf(g, camera, i)[r]| == SliceCols(camera)
    ensures SliceOf(g, camera, i)[r][c] == CellAt(g, SlicePos(camera, i, r, c), nothing)
  {
  }

  /** The south picture is the north picture mirrored left to right. */
  lemma SouthMirrorsNorth<T>(g: Grid<T>, i: int)
    requires WellFormed(g) && 0 <= i < YMax
    ensures SliceOf(g, South, i) == HFlip(SliceOf(g, North, i))
  {
  }

  /** `_getYSlice` with its nested loops, filling an empty 2-D array. */
  method YSlice<T>(g: Grid<T>, y: int, nothing: T) returns (slice: seq<seq<T>>)
    requires WellFormed(g) && 0 <= y < YMax
    ensures slice == YSliceOf(g, y)
  {
    slice := Empty2DArray(ZMax, XMax, nothing);
    for z := 0 to ZMax
      invariant |slice| == ZMax && Rectangular(slice, XMax)
      invariant forall z', x :: 0 <= z' < z && 0 <= x < XMax ==> slice[z'][x] == g[z'][y][x]
    {
      for x := 0 to XMax
        invariant |slice| == ZMax && Rectangular(slice, XMax)
        invariant forall z', x' :: 0 <= z' < z && 0 <= x' < XMax ==> slice[z'][x'] == g[z'][y][x']
        invariant forall x' :: 0 <= x' < x ==> slice[z][x'] == g[z][y][x']
      {
        slice := slice[z := slice[z][x := g[z][y][x]]];
      }
    }
    forall z | 0 <= z < ZMax
      ensures slice[z] == YSliceOf(g, y)[z]
    {
      assert forall x :: 0 <= x < XMax ==> slice[z][x] == YSliceOf(g, y)[z][x];
    }
  }

  /** `_getXSlice` with its nested loops, filling an empty 2-D array. */
  method XSlice<T>(g: Grid<T>, x: int, nothing: T) returns (slice: seq<seq<T>>)
    requires WellFormed(g) && 0 <= x < XMax
    ensures slice == XSliceOf(g, x)
  {
    slice := Empty2DArray(ZMax, YMax, nothing);
    for z := 0 to ZMax
      invariant |slice| == ZMax && Rectangular(slice, YMax)
      invariant forall z', y :: 0 <= z' < z && 0 <= y < YMax ==> slice[z'][y] == g[z'][y][x]
    {
      for y := 0 to YMax
        invariant |slice| == ZMax && Rectangular(slice, YMax)
        invariant forall z', y' :: 0 <= z' < z && 0 <= y' < YMax ==> slice[z'][y'] == g[z'][y'][x]
        invariant forall y' :: 0 <= y' < y ==> slice[z][y'] == g[z][y'][x]
      {
        slice := slice[z := slice[z][y := g[z][y][x]]];
      }
    }
    forall z | 0 <= z < ZMax
      ensures slice[z] == XSliceOf(g, x)[z]
    {
      assert forall y :: 0 <= y < YMax ==> slice[z][y] == XSliceOf(g, x)[z][y];
    }
  }

  /** `getSlice`: dispatch on the camera, flipping where the camera looks back along an axis. */
  method Slice<T>(g: Grid<T>, camera: Camera, i: int, nothing: T) returns (slice: seq<seq<T>>)
    requires WellFormed(g) && 0 <= i < AxisLength(camera)
    ensures slice == SliceOf(g, camera, i)
  {
    match camera
    case North =>
      slice := YSlice(g, i, nothing);
    case South =>
      var ySlice := YSlice(g, i, nothing);
      slice := HFlip(ySlice);
    case East =>
      var xSlice := XSlice(g, i, nothing);
      slice := HFlip(xSlice);
    case West =>
      slice := XSlice(g, i, nothing);
    case Bottom =>
      slice := VFlip(g[i]);
    case Top =>
      slice := g[i];
  }

  // ---------------------------------------------------------------------
  // Background slice indices

  /** The indices after `start` up to `bound - 1`, nearest first. */
  function Ascending(start: int, bound: int): (r: seq<int>)
    ensures |r| == if start < bound - 1 then bound - 1 - start else 0
    ensures forall k :: 0 <= k < |r| ==> r[k] == start + 1 + k
  {
    seq(if start < bound - 1 then bound - 1 - start else 0, k => start + 1 + k)
  }

  /** The indices before `start` down to 0, nearest first. */
  function Descending(start: int): (r: seq<int>)
    ensures |r| == if start > 0 then start else 0
    ensures forall k :: 0 <= k < |r| ==> r[k] == start - 1 - k
  {
    seq(if start > 0 then start else 0, k => start - 1 - k)
  }

  /** The slices behind slice i, as seen by each camera, nearest first. */
  function BackgroundIndices(camera: Camera, i: int): seq<int>
  {
    match camera
    case North => Ascending(i, YMax)
    case South => Descending(i)
    case East => Ascending(i, XMax)
    case West => Descending(i)
    case Bottom => Ascending(i, ZMax)
    case Top => Descending(i)
  }

  /** Behind a slice in range lie exactly the later (or earlier) slices of the same axis. */
  lemma BackgroundIndicesInRange(camera: Camera, i: int)
    requires 0 <= i < AxisLength(camera)
    ensures |BackgroundIndices(camera, i)|
         == if camera in {North, East, Bottom} then AxisLength(camera) - 1 - i else i
    ensures forall k :: 0 <= k < |BackgroundIndices(camera, i)| ==>
              0 <= BackgroundIndices(camera, i)[k] < AxisLength(camera) && BackgroundIndices(camera, i)[k] != i
  {
  }

  /** The while loop that counts up to `bound - 1`, pushing each index. */
  method CountUp(start: int, bound: int) returns (indices: seq<int>)
    ensures indices == Ascending(start, bound)
  {
    var index := start;
    indices := [];
    while index < bound - 1
      invariant start <= index
      invariant index > start ==> index <= bound - 1
      invariant indices == Ascending(start, index + 1)
    {
      index := index + 1;
      indices := indices + [index];
    }
  }

  /** The while loop that counts down to 0, pushing each index. */
  method CountDown(start: int) returns (indices: seq<int>)
    ensures indices == Descending(start)
  {
    var index := start;
    indices := [];
    while index > 0
      invariant index <= start
      invariant index < start ==> index >= 0
      invariant |indices| == start - index
      invariant forall k :: 0 <= k < |indices| ==> indices[k] == start - 1 - k
    {
      index := index - 1;
      indices := indices + [index];
    }
  }

  /** The index loops of `getBackgroundSlices`, one per camera. */
  method BackgroundSliceIndices(camera: Camera, i: int) returns (indices: seq<int>)
    ensures indices == BackgroundIndices(camera, i)
  {
    match camera
    case North =>
      indices := CountUp(i, YMax);
    case South =>
      indices := CountDown(i);
    case East =>
      indices := CountUp(i, XMax);
    case West =>
      indices := CountDown(i);
    case Bottom =>
      indices := CountUp(i, ZMax);
    case Top =>
      indices := CountDown(i);
  }

  /** `getBackgroundSlices`: the picture at every background index, nearest first. */
  method BackgroundSlices<T>(g: Grid<T>, camera: Camera, i: int, nothing: T) returns (slices: seq<seq<seq<T>>>)
    requires WellFormed(g) && 0 <= i < AxisLength(camera)
    ensures |slices| == |BackgroundIndices(camera, i)|
    ensures forall k :: 0 <= k < |slices| ==> slices[k] == SliceOf(g, camera, BackgroundIndices(camera, i)[k])
  {
    var indices := BackgroundSliceIndices(camera, i);
    BackgroundIndicesInRange(camera, i);
    slices := [];
    for k := 0 to |indices|
      invariant |slices| == k
      invariant forall m :: 0 <= m < k ==> slices[m] == SliceOf(g, camera, indices[m])
    {
      var slice := Slice(g, camera, indices[k], nothing);
      slices := slices + [slice];
    }
  }
}
