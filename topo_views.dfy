/**
 * What the three topography classes share: the height map as each camera
 * sees it, the height profile of one slice built from 3x3 maxima, the
 * corner heights and the background slice indices. JavaScript's `Math.max`
 * reads a missing (null) neighbour as 0, which `JsMax4` and `JsMax6` model.
 */
module TopoViews {
  import opened Common
  import opened Helpers
  import opened Grids

  type Heights = seq<seq<int>>

  /** yMax rows (y) of xMax heights (x). */
  predicate Shaped(h: Heights)
  {
    |h| == YMax && Rectangular(h, XMax)
  }

  /** Every height lies in 0..hi. */
  predicate Bounded(h: Heights, hi: int)
  {
    forall y, x :: 0 <= y < |h| && 0 <= x < |h[y]| ==> 0 <= h[y][x] <= hi
  }

  predicate NonNegative(h: Heights)
  {
    forall y, x :: 0 <= y < |h| && 0 <= x < |h[y]| ==> 0 <= h[y][x]
  }

  /** The number of heights in every row a camera sees. */
  function ViewWidth(camera: Camera): nat
  {
    if camera in {North, South} then XMax else YMax
  }

  /**
   * The height map (rows of `cols` heights) as a side camera sees it, one
   * row per slice: north as stored, south mirrored, west transposed, east
   * transposed and mirrored. The cameras above and below get null.
   */
  function View(h: Heights, cols: nat, camera: Camera): (v: Option<Heights>)
    requires Rectangular(h, cols)
    ensures v.None? <==> camera in {Top, Bottom}
    ensures v.Some? && camera in {North, South} ==> |v.value| == |h| && Rectangular(v.value, cols)
    ensures v.Some? && camera in {East, West} ==> |v.value| == cols && Rectangular(v.value, |h|)
  {
    match camera
    case North => Some(h)
    case South => Some(HFlip(h))
    case East => Some(HFlip(Transpose(h, cols)))
    case West => Some(Transpose(h, cols))
    case _ => None
  }

  /** The map cell (x, y) shown at column i of slice s. */
  function ViewCell(camera: Camera, s: int, i: int): (int, int)
  {
    match camera
    case North => (i, s)
    case South => (XMax - 1 - i, s)
    case East => (s, YMax - 1 - i)
    case West => (s, i)
    case _ => (i, s)
  }

  /** Column i of slice s of a side view is the map cell `ViewCell` names. */
  lemma ViewAt(h: Heights, camera: Camera, s: int, i: int)
    requires Shaped(h) && camera !in {Top, Bottom}
    requires 0 <= s < AxisLength(camera) && 0 <= i < ViewWidth(camera)
    ensures var (x, y) := ViewCell(camera, s, i);
      0 <= x < XMax && 0 <= y < YMax && View(h, XMax, camera).value[s][i] == h[y][x]
  {
  }

  // ---------------------------------------------------------------------
  // Slice profiles

  /** A pair of heights: at the start and at the end of a column. */
  datatype Pair = Pair(start: int, end: int)

  /** `{ all, front, back }`: one pair per column of the slice. */
  datatype Profile = Profile(all: seq<Pair>, front: seq<Pair>, back: seq<Pair>)

  /** Highest of the six cells on the left and on the right of the column, over both neighbouring slices. */
  function AllPair(c: Context3x3<Option<int>>): Pair
  {
    Pair(JsMax6(c.bottomLeft, c.bottom, c.topLeft, c.top, c.left, c.center),
         JsMax6(c.bottom, c.bottomRight, c.top, c.topRight, c.center, c.right))
  }

  /** The same over the slice and the one behind it (row + 1). */
  function BackPair(c: Context3x3<Option<int>>): Pair
  {
    Pair(JsMax4(c.topLeft, c.top, c.left, c.center), JsMax4(c.top, c.topRight, c.center, c.right))
  }

  /** The same over the slice and the one in front of it (row - 1). */
  function FrontPair(c: Context3x3<Option<int>>): Pair
  {
    Pair(JsMax4(c.bottomLeft, c.bottom, c.left, c.center), JsMax4(c.bottom, c.bottomRight, c.center, c.right))
  }

  /** Column i of slice s of a view: `getCellContext3x3(view, i, s)`. */
  function ColumnContext(v: Heights, s: int, i: int): Context3x3<Option<int>>
  {
    CellContext3x3(v, i, s)
  }

  /** The whole-profile pair is at least the front and the back pair, and at least the centre. */
  lemma AllDominates(c: Context3x3<Option<int>>)
    ensures AllPair(c).start >= BackPair(c).start && AllPair(c).end >= BackPair(c).end
    ensures AllPair(c).start >= FrontPair(c).start && AllPair(c).end >= FrontPair(c).end
    ensures AllPair(c).start >= JsNum(c.center) && AllPair(c).end >= JsNum(c.center)
  {
  }

  /** The profile of slice s: the three pair lists, column by column. */
  function ProfileOf(v: Heights, s: int): (p: Profile)
    requires 0 <= s < |v|
    ensures |p.all| == |p.front| == |p.back| == |v[s]|
  {
    Profile(seq(|v[s]|, i => AllPair(ColumnContext(v, s, i))),
            seq(|v[s]|, i => FrontPair(ColumnContext(v, s, i))),
            seq(|v[s]|, i => BackPair(ColumnContext(v, s, i))))
  }

  /** One iteration of that loop: the three pairs of column `i`. */
  method ColumnPairs(v: Heights, s: int, i: int) returns (a: Pair, f: Pair, b: Pair)
    requires 0 <= s < |v| && 0 <= i < |v[s]|
    ensures a == ProfileOf(v, s).all[i] && f == ProfileOf(v, s).front[i] && b == ProfileOf(v, s).back[i]
  {
    var context := CellContext3x3(v, i, s);
    a, f, b := AllPair(context), FrontPair(context), BackPair(context);
  }

  /** The loop of `getSlice` that pushes one pair per column onto `all`, `back` and `front`. */
  method SliceProfile(v: Heights, s: int) returns (p: Profile)
    requires 0 <= s < |v|
    ensures p == ProfileOf(v, s)
  {
    ghost var want := ProfileOf(v, s);
    ghost var wantAll, wantFront, wantBack := want.all, want.front, want.back;
    var all, back, front := [], [], [];
    for i := 0 to |v[s]|
      invariant all == wantAll[..i] && back == wantBack[..i] && front == wantFront[..i]
    {
      var a, f, b := ColumnPairs(v, s, i);
      assert a == wantAll[i] && f == wantFront[i] && b == wantBack[i];
      PrefixPush(wantAll, i);
      PrefixPush(wantBack, i);
      PrefixPush(wantFront, i);
      all, back, front := all + [a], back + [b], front + [f];
    }
    assert wantAll[..|v[s]|] == wantAll && wantBack[..|v[s]|] == wantBack && wantFront[..|v[s]|] == wantFront;
    p := Profile(all, front, back);
  }

  /** In every column the whole profile lies at or above the front and back profiles. */
  lemma ProfileDominates(v: Heights, s: int, i: int)
    requires 0 <= s < |v| && 0 <= i < |v[s]|
    ensures ProfileOf(v, s).all[i].start >= ProfileOf(v, s).front[i].start
    ensures ProfileOf(v, s).all[i].end >= ProfileOf(v, s).front[i].end
    ensures ProfileOf(v, s).all[i].start >= ProfileOf(v, s).back[i].start
    ensures ProfileOf(v, s).all[i].end >= ProfileOf(v, s).back[i].end
  {
    AllDominates(ColumnContext(v, s, i));
  }

  // ---------------------------------------------------------------------
  // Corners

  /** The corner height: the highest of the up to four cells that meet there. */
  function CornerHeight(h: Heights, x: int, y: int): int
  {
    var c := CornerContext2x2(h, x, y);
    JsMax4(c.topLeft, c.topRight, c.bottomLeft, c.bottomRight)
  }

  /** `getCorners`' result: (length + 1) x (length + 1) corner heights. */
  function CornersOf(h: Heights): (r: Heights)
    ensures |r| == |h| + 1 && Rectangular(r, |h| + 1)
  {
    seq(|h| + 1, y => seq(|h| + 1, x => CornerHeight(h, x, y)))
  }

  /** `getCorners`: nested loops over an empty (length + 1)-square array. */
  method Corners(h: Heights) returns (corners: Heights)
    ensures corners == CornersOf(h)
  {
    var n := |h| + 1;
    corners := Empty2DArray(n, n, 0);
    for y := 0 to n
      invariant |corners| == n && Rectangular(corners, n)
      invariant forall y', x :: 0 <= y' < y && 0 <= x < n ==> corners[y'][x] == CornerHeight(h, x, y')
    {
      for x := 0 to n
        invariant |corners| == n && Rectangular(corners, n)
        invariant forall y', x' :: 0 <= y' < y && 0 <= x' < n ==> corners[y'][x'] == CornerHeight(h, x', y')
        invariant forall x' :: 0 <= x' < x ==> corners[y][x'] == CornerHeight(h, x', y)
      {
        corners := corners[y := corners[y][x := CornerHeight(h, x, y)]];
      }
    }
    forall y | 0 <= y < n
      ensures corners[y] == CornersOf(h)[y]
    {
      assert forall x :: 0 <= x < n ==> corners[y][x] == CornersOf(h)[y][x];
    }
  }

  /** Each of a cell's four corners is at least as high as the cell. */
  lemma CornersCoverCell(h: Heights, x: int, y: int)
    requires 0 <= y < |h| && 0 <= x < |h[0]| && x < |h[y]|
    ensures CornerHeight(h, x, y) >= h[y][x] && CornerHeight(h, x + 1, y) >= h[y][x]
    ensures CornerHeight(h, x, y + 1) >= h[y][x] && CornerHeight(h, x + 1, y + 1) >= h[y][x]
  {
    CellTouchesItsCorners(h, x, y);
  }

  /** With non-negative heights a corner is the height of one of its cells, or 0 when it touches none. */
  lemma CornerIsSomeCell(h: Heights, x: int, y: int)
    requires NonNegative(h)
    ensures var k := CornerHeight(h, x, y);
      k == 0 || GetSafe(h, x - 1, y) == Some(k) || GetSafe(h, x, y) == Some(k)
      || GetSafe(h, x - 1, y - 1) == Some(k) || GetSafe(h, x, y - 1) == Some(k)
  {
  }

  // ---------------------------------------------------------------------
  // Background slices

  /** The slice indices behind slice i for a side camera; none for the cameras above and below. */
  function TopoBackgroundIndices(camera: Camera, i: int): seq<int>
  {
    if camera in {Top, Bottom} then [] else BackgroundIndices(camera, i)
  }

  /** `list.slice(0, max)`: a negative bound counts from the end. */
  function SliceTo<T>(s: seq<T>, max: int): (r: seq<T>)
    ensures |r| == if max >= 0 then Min(max, |s|) else Max(0, |s| + max)
    ensures r <= s
  {
    if max >= 0 then s[..Min(max, |s|)] else s[..Max(0, |s| + max)]
  }

  /** A side camera's background slices stay on the map when the slice itself is at most one step off it. */
  predicate BackgroundInRange(camera: Camera, s: int)
  {
    match camera
    case North | East => s >= -1
    case South | West => s <= AxisLength(camera)
    case _ => true
  }

  // ---------------------------------------------------------------------
  // The height map operations shared by both `Topo` classes

  /** A fresh or cleared map: yMax rows of xMax zeros. */
  predicate Flat(h: Heights)
  {
    Shaped(h) && forall y, x :: 0 <= y < YMax && 0 <= x < XMax ==> h[y][x] == 0
  }

  /** The map with cell (x, y) and nothing else replaced by `v`. */
  function SetHeight(h: Heights, x: int, y: int, v: int): (r: Heights)
    requires 0 <= y < |h| && 0 <= x < |h[y]|
    ensures |r| == |h| && forall j :: 0 <= j < |h| ==> |r[j]| == |h[j]|
    ensures r[y][x] == v
    ensures forall j, i :: 0 <= j < |h| && 0 <= i < |h[j]| && (j, i) != (y, x) ==> r[j][i] == h[j][i]
  {
    h[y := h[y][x := v]]
  }

  /**
   * `increase`: one more at (x, y) when the result is at most `top`. An x
   * off the row reads `undefined`, the sum is NaN, the test fails and
   * nothing changes.
   */
  function Raise(h: Heights, x: int, y: int, top: int): (r: Heights)
    requires 0 <= y < |h|
  {
    if 0 <= x < |h[y]| && h[y][x] + 1 <= top then SetHeight(h, x, y, h[y][x] + 1) else h
  }

  /** `decrease`: one less at (x, y) when the result is not negative. */
  function Lower(h: Heights, x: int, y: int): (r: Heights)
    requires 0 <= y < |h|
  {
    if 0 <= x < |h[y]| && h[y][x] - 1 >= 0 then SetHeight(h, x, y, h[y][x] - 1) else h
  }

  /** Raising keeps every height within 0..top and the map's shape. */
  lemma RaiseBounded(h: Heights, x: int, y: int, top: int)
    requires 0 <= y < |h| && Bounded(h, top)
    ensures Bounded(Raise(h, x, y, top), top)
    ensures |Raise(h, x, y, top)| == |h| && forall j :: 0 <= j < |h| ==> |Raise(h, x, y, top)[j]| == |h[j]|
  {
  }

  /** Lowering keeps every height within 0..top and the map's shape. */
  lemma LowerBounded(h: Heights, x: int, y: int, top: int)
    requires 0 <= y < |h| && Bounded(h, top)
    ensures Bounded(Lower(h, x, y), top)
    ensures |Lower(h, x, y)| == |h| && forall j :: 0 <= j < |h| ==> |Lower(h, x, y)[j]| == |h[j]|
  {
  }

  /** A raise that took effect is undone by lowering the same cell. */
  lemma LowerUndoesRaise(h: Heights, x: int, y: int, top: int)
    requires 0 <= y < |h| && NonNegative(h) && Raise(h, x, y, top) != h
    ensures Lower(Raise(h, x, y, top), x, y) == h
  {
    assert h[y][x] + 1 - 1 >= 0;
    var r := Raise(h, x, y, top);
    assert r[y] == h[y][x := h[y][x] + 1];
    assert r[y][x := h[y][x]] == h[y];
  }

  /** A lowering that took effect is undone by raising the same cell, on a map within 0..top. */
  lemma RaiseUndoesLower(h: Heights, x: int, y: int, top: int)
    requires 0 <= y < |h| && Bounded(h, top) && Lower(h, x, y) != h
    ensures Raise(Lower(h, x, y), x, y, top) == h
  {
    var r := Lower(h, x, y);
    assert r[y] == h[y][x := h[y][x] - 1];
    assert r[y][x := h[y][x]] == h[y];
  }

  /** `getSlice`: null for the cameras above and below, otherwise the profile of slice s of the view. */
  function TopoSlice(h: Heights, camera: Camera, s: int): (r: Option<Profile>)
    requires Shaped(h) && (camera !in {Top, Bottom} ==> 0 <= s < AxisLength(camera))
    ensures r.None? <==> camera in {Top, Bottom}
    ensures r.Some? ==> |r.value.all| == |r.value.front| == |r.value.back| == ViewWidth(camera)
  {
    match View(h, XMax, camera)
    case None => None
    case Some(v) => Some(ProfileOf(v, s))
  }

  /**
   * In every column of a slice the whole profile is at least the front
   * and the back profiles, and both of its ends are at least the height of
   * the map cell shown in that column.
   */
  lemma TopoSliceCovers(h: Heights, camera: Camera, s: int, i: int)
    requires Shaped(h) && camera !in {Top, Bottom}
    requires 0 <= s < AxisLength(camera) && 0 <= i < ViewWidth(camera)
    ensures var p := TopoSlice(h, camera, s).value;
      p.all[i].start >= p.front[i].start && p.all[i].end >= p.front[i].end
      && p.all[i].start >= p.back[i].start && p.all[i].end >= p.back[i].end
    ensures var (x, y) := ViewCell(camera, s, i);
      0 <= x < XMax && 0 <= y < YMax
      && TopoSlice(h, camera, s).value.all[i].start >= h[y][x]
      && TopoSlice(h, camera, s).value.all[i].end >= h[y][x]
  {
    var v := View(h, XMax, camera).value;
    ProfileDominates(v, s, i);
    ViewAt(h, camera, s, i);
    AllDominates(ColumnContext(v, s, i));
    assert ColumnContext(v, s, i).center == Some(v[s][i]);
  }

  /** The shared `getSlice` body on a map of the given shape. */
  method SliceOfMap(h: Heights, camera: Camera, s: int) returns (r: Option<Profile>)
    requires Shaped(h) && (camera !in {Top, Bottom} ==> 0 <= s < AxisLength(camera))
    ensures r == TopoSlice(h, camera, s)
  {
    match View(h, XMax, camera)
    case None =>
      r := None;
    case Some(v) =>
      var p := SliceProfile(v, s);
      r := Some(p);
  }

  /** The slice indices `getBackgroundSlices` keeps: the first `max` behind slice s. */
  function KeptIndices(camera: Camera, s: int, max: int): (r: seq<int>)
    ensures forall k :: 0 <= k < |r| && BackgroundInRange(camera, s) ==> 0 <= r[k] < AxisLength(camera)
  {
    SliceTo(TopoBackgroundIndices(camera, s), max)
  }

  /** `getBackgroundSlices`: the slice of each kept index, in order. */
  function TopoBackground(h: Heights, camera: Camera, s: int, max: int): (r: seq<Option<Profile>>)
    requires Shaped(h) && BackgroundInRange(camera, s)
    ensures |r| == |KeptIndices(camera, s, max)|
  {
    var ks := KeptIndices(camera, s, max);
    seq(|ks|, k requires 0 <= k < |ks| => TopoSlice(h, camera, ks[k]))
  }

  /**
   * For a side camera the background holds min(max, n) slices, where n is
   * the design's background count, each the slice of the design's k-th
   * background index; the cameras above and below have none.
   */
  lemma TopoBackgroundShape(h: Heights, camera: Camera, s: int, max: int)
    requires Shaped(h) && BackgroundInRange(camera, s) && max >= 0
    ensures camera in {Top, Bottom} ==> TopoBackground(h, camera, s, max) == []
    ensures camera !in {Top, Bottom} ==>
      |TopoBackground(h, camera, s, max)| == Min(max, |BackgroundIndices(camera, s)|)
      && forall k :: 0 <= k < |TopoBackground(h, camera, s, max)| ==>
           TopoBackground(h, camera, s, max)[k] == TopoSlice(h, camera, BackgroundIndices(camera, s)[k])
  {
  }

  /** The shared `getBackgroundSlices` body: the index loops, `slice(0, max)`, then one `getSlice` per index. */
  method BackgroundOfMap(h: Heights, camera: Camera, s: int, max: int) returns (r: seq<Option<Profile>>)
    requires Shaped(h) && BackgroundInRange(camera, s)
    ensures r == TopoBackground(h, camera, s, max)
  {
    var indices: seq<int> := [];
    if camera !in {Top, Bottom} {
      indices := BackgroundSliceIndices(camera, s);
    }
    indices := SliceTo(indices, max);
    assert indices == KeptIndices(camera, s, max);
    r := [];
    for k := 0 to |indices|
      invariant |r| == k
      invariant forall m :: 0 <= m < k ==> r[m] == TopoSlice(h, camera, indices[m])
    {
      var slice := SliceOfMap(h, camera, indices[k]);
      r := r + [slice];
    }
  }

  // ---------------------------------------------------------------------
  // The highest point

  /** Cell (x', y') comes before (x, y) in row-major order. */
  ghost predicate Before(h: Heights, x': int, y': int, x: int, y: int)
  {
    0 <= y' < |h| && 0 <= x' < |h[y']| && (y' < y || (y' == y && x' < x))
  }

  /**
   * `max` and `loc` after the cells before (x, y): null and 0 while no cell
   * was positive, otherwise the first cell holding the greatest height.
   */
  ghost predicate Highest(h: Heights, x: int, y: int, max: int, loc: Option<Pos>)
  {
    match loc
    case None => max == 0 && forall y', x' :: Before(h, x', y', x, y) ==> h[y'][x'] <= 0
    case Some(p) =>
      Before(h, p.x, p.y, x, y) && h[p.y][p.x] == p.z == max && max > 0
      && (forall y', x' :: Before(h, x', y', x, y) ==> h[y'][x'] <= max)
      && (forall y', x' :: Before(h, x', y', p.x, p.y) ==> h[y'][x'] < max)
  }

  /**
   * `getHighestNonZeroPoint`: null exactly when no height is positive;
   * otherwise the first cell, in row-major order, holding the greatest height.
   */
  method HighestPoint(h: Heights) returns (loc: Option<Pos>)
    ensures loc.None? <==> forall y, x :: 0 <= y < |h| && 0 <= x < |h[y]| ==> h[y][x] <= 0
    ensures loc.Some? ==> var p := loc.value;
      0 <= p.y < |h| && 0 <= p.x < |h[p.y]| && h[p.y][p.x] == p.z > 0
      && (forall y, x :: 0 <= y < |h| && 0 <= x < |h[y]| ==> h[y][x] <= p.z)
      && (forall y, x :: Before(h, x, y, p.x, p.y) ==> h[y][x] < p.z)
  {
    var max := 0;
    loc := None;
    for y := 0 to |h|
      invariant Highest(h, 0, y, max, loc)
    {
      for x := 0 to |h[y]|
        invariant Highest(h, x, y, max, loc)
      {
        if h[y][x] > max {
          max := h[y][x];
          loc := Some(Pos(x, y, max));
        }
      }
    }
    assert forall y, x :: 0 <= y < |h| && 0 <= x < |h[y]| ==> Before(h, x, y, 0, |h|);
  }
}
