/**
 * The view state of the original design renderer: the camera, the slice
 * and the slice count, and the model position under a pixel of the
 * 852-pixel canvas drawn with 50-pixel cells.
 */
module Renderer {
  import opened Common
  import opened Grids

  /** The cell size in pixels. */
  const CellPixels := 50

  /** Each view setter's slice count: zMax for north/south, xMax for east/west, yMax for top/bottom. */
  function ViewSliceMax(view: Camera): int
  {
    match view
    case North | South => ZMax
    case East | West => XMax
    case Top | Bottom => YMax
  }

  /** The picture column or row under the pixel coordinate: `Math.floor((c - 1) / r)`. */
  function CellIndex(c: int): int
  {
    (c - 1) / CellPixels
  }

  /** Pixels 1..850 fall on cells 0..16. */
  lemma CellIndexInPicture(c: int)
    requires 1 <= c <= 850
    ensures 0 <= CellIndex(c) < GridSize
  {
  }

  class DesignRenderer {
    var view: Camera
    var slice: int
    var sliceMax: int

    /** The slice stays within 0..sliceMax; the next-slice step can reach sliceMax itself. */
    predicate Valid()
      reads this
    {
      sliceMax == ViewSliceMax(view) && 0 <= slice <= sliceMax
    }

    /** Looking south at slice 0. */
    constructor ()
      ensures Valid() && view == South && slice == 0
    {
      view, slice, sliceMax := South, 0, ZMax;
      new;
      SetView(South);
    }

    /** `north` ... `bottom`: a new view starts at slice 0 with that view's slice count. */
    method SetView(v: Camera)
      modifies this
      ensures view == v && slice == 0 && sliceMax == ViewSliceMax(v)
      ensures Valid()
    {
      view := v;
      slice := 0;
      sliceMax := ViewSliceMax(v);
    }

    /** `nextSlice`: one more while below sliceMax. */
    method NextSlice()
      modifies this
      ensures slice == if old(slice) < sliceMax then old(slice) + 1 else old(slice)
      ensures view == old(view) && sliceMax == old(sliceMax)
      ensures old(Valid()) ==> Valid()
    {
      if slice < sliceMax {
        slice := slice + 1;
      }
    }

    /** `previousSlice`: one less while above 0. */
    method PreviousSlice()
      modifies this
      ensures slice == if old(slice) > 0 then old(slice) - 1 else old(slice)
      ensures view == old(view) && sliceMax == old(sliceMax)
      ensures old(slice) >= 0 ==> slice >= 0
      ensures old(Valid()) ==> Valid()
    {
      if slice > 0 {
        slice := slice - 1;
      }
    }

    /** `getPosition`: the model position under pixel (clickX, clickY) on the current slice. */
    function GetPosition(clickX: int, clickY: int): Pos
      reads this
    {
      var column, row := CellIndex(clickX), CellIndex(clickY);
      match view
      case South => Pos(column, GridSize - 1 - row, slice)
      case North => Pos(XMax - 1 - column, GridSize - 1 - row, sliceMax - 1 - slice)
      case West => Pos(slice, GridSize - 1 - row, column)
      case East => Pos(sliceMax - 1 - slice, GridSize - 1 - row, XMax - 1 - column)
      case Top => Pos(column, sliceMax - 1 - slice, GridSize - 1 - row)
      case Bottom => Pos(column, slice, row)
    }
  }

  /**
   * Looking south or north, a pixel inside the 1-pixel border on a slice
   * below sliceMax lies in the grid; the north view mirrors the south
   * view's x and counts the slices from the far end.
   */
  lemma SouthNorthPositionInGrid(r: DesignRenderer, clickX: int, clickY: int)
    requires r.Valid() && r.view in {South, North} && r.slice < r.sliceMax
    requires 1 <= clickX <= 850 && 1 <= clickY <= 850
    ensures InGrid(r.GetPosition(clickX, clickY))
    ensures r.view == South ==> r.GetPosition(clickX, clickY).z == r.slice
    ensures r.view == North ==>
      (r.GetPosition(clickX, clickY).z == ZMax - 1 - r.slice
       && r.GetPosition(clickX, clickY).x == XMax - 1 - CellIndex(clickX))
  {
    CellIndexInPicture(clickX);
    CellIndexInPicture(clickY);
  }

  /**
   * `nextSlice` tests `slice < sliceMax` and so steps from the last slice
   * to sliceMax, one past it: the south view then points at z = zMax,
   * outside the grid.
   */
  lemma NextSliceLeavesGrid(r: DesignRenderer, clickX: int, clickY: int)
    requires r.Valid() && r.view == South && r.slice == r.sliceMax
    ensures !InGrid(r.GetPosition(clickX, clickY))
  {
  }
}
