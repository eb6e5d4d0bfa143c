/**
 * The topography of the original design model: a height map of any shape
 * whose cells are set directly, and one list of height pairs per slice.
 */
module LegacyTopo {
  import opened Common
  import opened Helpers
  import opened Grids
  import opened TopoViews

  /** `{ startHeight, endHeight }`: the highest of the six cells on each side of the column. */
  function HeightPair(c: Context3x3<Option<int>>): Pair
  {
    Pair(JsMax6(c.topLeft, c.top, c.left, c.center, c.bottomLeft, c.bottom),
         JsMax6(c.top, c.topRight, c.center, c.right, c.bottom, c.bottomRight))
  }

  /** The pair is the whole-profile pair of the later topographies: the same six cells in another order. */
  lemma HeightPairIsAllPair(c: Context3x3<Option<int>>)
    ensures HeightPair(c) == AllPair(c)
  {
    var p, q := HeightPair(c), AllPair(c);
    assert p.start <= q.start && q.start <= p.start;
    assert p.end <= q.end && q.end <= p.end;
  }

  /** Both heights of a pair are at least the centre cell. */
  lemma HeightPairCoversCentre(c: Context3x3<Option<int>>)
    ensures HeightPair(c).start >= JsNum(c.center) && HeightPair(c).end >= JsNum(c.center)
  {
  }

  /** The pairs of slice s of a view, one per column. */
  function HeightPairsOf(v: Heights, s: int): (r: seq<Pair>)
    requires 0 <= s < |v|
    ensures |r| == |v[s]|
  {
    seq(|v[s]|, i => HeightPair(CellContext3x3(v, i, s)))
  }

  /** The number of slices a camera's view of a map with `cols` columns holds. */
  function SliceCount(h: Heights, cols: nat, camera: Camera): nat
  {
    if camera in {North, South} then |h| else cols
  }

  /**
   * `getTopoSlice`: null for the cameras above and below and for a slice
   * past the last one, otherwise the pairs of that slice.
   */
  function TopoModelSlice(h: Heights, cols: nat, camera: Camera, s: nat): (r: Option<seq<Pair>>)
    requires Rectangular(h, cols)
    ensures r.None? <==> camera in {Top, Bottom} || s >= SliceCount(h, cols, camera)
  {
    match View(h, cols, camera)
    case None => None
    case Some(v) => if s >= |v| then None else Some(HeightPairsOf(v, s))
  }

  /** On a yMax x xMax map the slice is the `all` list of the later topographies' profile. */
  lemma TopoModelSliceIsAllProfile(h: Heights, camera: Camera, s: nat)
    requires Shaped(h) && camera !in {Top, Bottom} && s < AxisLength(camera)
    ensures TopoModelSlice(h, XMax, camera, s) == Some(TopoSlice(h, camera, s).value.all)
  {
    var v := View(h, XMax, camera).value;
    forall i | 0 <= i < |v[s]|
      ensures HeightPairsOf(v, s)[i] == ProfileOf(v, s).all[i]
    {
      HeightPairIsAllPair(CellContext3x3(v, i, s));
    }
    assert HeightPairsOf(v, s) == ProfileOf(v, s).all;
  }

  class TopoModel {
    const xMax: nat
    const yMax: nat
    var heights: Heights

    predicate Valid()
      reads this
    {
      |heights| == yMax && Rectangular(heights, xMax)
    }

    /** A yMax x xMax map of zeros. */
    constructor (xMax: nat, yMax: nat)
      ensures this.xMax == xMax && this.yMax == yMax && Valid()
      ensures forall y, x :: 0 <= y < yMax && 0 <= x < xMax ==> heights[y][x] == 0
    {
      this.xMax, this.yMax := xMax, yMax;
      var h := Empty2DArray(yMax, xMax, 0);
      heights := h;
    }

    /** `setTopoHeight`: overwrites exactly one cell, with any value. */
    method SetTopoHeight(x: int, y: int, height: int)
      requires Valid() && 0 <= y < yMax && 0 <= x < xMax
      modifies this
      ensures heights == SetHeight(old(heights), x, y, height)
      ensures Valid()
    {
      heights := heights[y := heights[y][x := height]];
    }

    method GetTopoSlice(camera: Camera, s: nat) returns (r: Option<seq<Pair>>)
      requires Valid()
      ensures r == TopoModelSlice(heights, xMax, camera, s)
    {
      match View(heights, xMax, camera)
      case None =>
        r := None;
      case Some(v) =>
        if s >= |v| {
          r := None;
        } else {
          ghost var want := HeightPairsOf(v, s);
          var pairs := [];
          for i := 0 to |v[s]|
            invariant pairs == want[..i]
          {
            var context := CellContext3x3(v, i, s);
            var startHeight := JsMax6(context.topLeft, context.top, context.left, context.center, context.bottomLeft, context.bottom);
            var endHeight := JsMax6(context.top, context.topRight, context.center, context.right, context.bottom, context.bottomRight);
            assert Pair(startHeight, endHeight) == want[i];
            PrefixPush(want, i);
            pairs := pairs + [Pair(startHeight, endHeight)];
          }
          assert want[..|v[s]|] == want;
          r := Some(pairs);
        }
    }
  }
}
