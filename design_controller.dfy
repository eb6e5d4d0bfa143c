/**
 * The controller of the original 2-D design screen: the camera, the
 * current slice and the number of slices, and clicks turned into model
 * positions for adding and removing objects.
 */
module DesignControl {
  import opened Common
  import opened Helpers
  import opened Grids
  import opened LegacyDesign

  /** `_setCamera`'s slice count: zMax for north/south, xMax for west/east, yMax for top/bottom. */
  function SliceMaxOf(camera: Camera): int
  {
    match camera
    case North | South => ZMax
    case West | East => XMax
    case Top | Bottom => YMax
  }

  class DesignController {
    const model: DesignModel
    var camera: Camera
    var slice: int
    var sliceMax: int

    predicate Valid()
      reads this, model, model.topo
    {
      model.Valid() && sliceMax == SliceMaxOf(camera) && 0 <= slice < sliceMax
    }

    /** A fresh design model, looking south. */
    constructor ()
      ensures Valid() && fresh(model) && camera == South && slice == 0
    {
      model := new DesignModel();
      new;
      SetCamera(South);
    }

    /** `_setCamera` (and `north` ... `bottom`): back to slice 0 with the camera's slice count. */
    method SetCamera(c: Camera)
      requires model.Valid()
      modifies this
      ensures camera == c && slice == 0 && sliceMax == SliceMaxOf(c)
      ensures Valid()
    {
      camera := c;
      slice := 0;
      sliceMax := SliceMaxOf(c);
    }

    /** `_setSlice`: only a legal slice is taken. */
    method SetSlice(s: int)
      modifies this
      ensures slice == if 0 <= s < sliceMax then s else old(slice)
      ensures camera == old(camera) && sliceMax == old(sliceMax)
      ensures old(Valid()) ==> Valid()
    {
      if s >= 0 && s < sliceMax {
        slice := s;
      }
    }

    method NextSlice()
      modifies this
      ensures slice == old(slice) + 1 <==> 0 <= old(slice) + 1 < sliceMax
      ensures slice == old(slice) + 1 || slice == old(slice)
      ensures camera == old(camera) && sliceMax == old(sliceMax)
      ensures old(Valid()) ==> Valid()
    {
      SetSlice(slice + 1);
    }

    method PreviousSlice()
      modifies this
      ensures slice == old(slice) - 1 <==> 0 <= old(slice) - 1 < sliceMax
      ensures slice == old(slice) - 1 || slice == old(slice)
      ensures camera == old(camera) && sliceMax == old(sliceMax)
      ensures old(Valid()) ==> Valid()
    {
      SetSlice(slice - 1);
    }

    /** `rotateLeft`: a side camera turns and starts again at slice 0; the cameras above and below do nothing. */
    method RotateLeft()
      requires model.Valid()
      modifies this
      ensures camera == old(camera).RotatedLeft()
      ensures old(camera) !in {Top, Bottom} ==> slice == 0 && sliceMax == SliceMaxOf(camera)
      ensures old(camera) in {Top, Bottom} ==> slice == old(slice) && sliceMax == old(sliceMax)
      ensures old(Valid()) ==> Valid()
    {
      match camera
      case North => SetCamera(East);
      case East => SetCamera(South);
      case South => SetCamera(West);
      case West => SetCamera(North);
      case _ =>
    }

    /**
     * `_getRelativePosition` for the south, north and bottom cameras: the
     * cell under the click, on the current slice; for the side cameras a y
     * past the back of the grid gives null.
     */
    function GetRelativePosition(clickX: real, clickY: real): (r: Option<Pos>)
      reads this
      requires camera in {South, North, Bottom}
      ensures r.None? <==> camera != Bottom && RelativePosition(clickX, clickY).1 >= YMax
    {
      var (x, y) := RelativePosition(clickX, clickY);
      var p := match camera
        case South => Pos(x, y, slice)
        case North => Pos(GridSize - 1 - x, y, sliceMax - 1 - slice)
        case _ => Pos(x, slice, y);
      if camera != Bottom && p.y >= YMax then None else Some(p)
    }

    /** `removeObject` at a click. */
    method RemoveObject(clickX: real, clickY: real)
      requires Valid() && camera in {South, North, Bottom} && GetRelativePosition(clickX, clickY).Some?
      modifies model
      ensures model.objects == Removed(old(model.objects), GetRelativePosition(clickX, clickY).value)
      ensures Valid()
    {
      var p := GetRelativePosition(clickX, clickY).value;
      model.RemoveObject(p);
    }

    /** `addObject` at a click: whatever is there is removed first. */
    method AddObject(clickX: real, clickY: real, obj: int)
      requires Valid() && camera in {South, North, Bottom} && GetRelativePosition(clickX, clickY).Some?
      modifies model
      ensures var p := GetRelativePosition(clickX, clickY).value;
        model.objects == Added(Removed(old(model.objects), p), p, obj).objects
      ensures Valid()
    {
      RemoveObject(clickX, clickY);
      var p := GetRelativePosition(clickX, clickY).value;
      var _ := model.AddObject(p, obj);
    }
  }

  /**
   * A click inside the canvas, looking south, names cell (x, y) of the
   * picture on the current z slice, which lies in the grid.
   */
  lemma SouthClickInGrid(d: DesignController, clickX: real, clickY: real)
    requires d.Valid() && d.camera == South && 0.0 <= clickX < 1.0 && 0.0 <= clickY < 1.0
    ensures var (x, y) := RelativePosition(clickX, clickY);
      d.GetRelativePosition(clickX, clickY) == Some(Pos(x, y, d.slice))
      && InGrid(d.GetRelativePosition(clickX, clickY).value)
  {
    ClickInPicture(clickX, clickY);
  }

  /** Looking north the picture is mirrored and the slices are counted from the far end. */
  lemma NorthClickInGrid(d: DesignController, clickX: real, clickY: real)
    requires d.Valid() && d.camera == North && 0.0 <= clickX < 1.0 && 0.0 <= clickY < 1.0
    ensures var (x, y) := RelativePosition(clickX, clickY);
      d.GetRelativePosition(clickX, clickY) == Some(Pos(GridSize - 1 - x, y, ZMax - 1 - d.slice))
      && InGrid(d.GetRelativePosition(clickX, clickY).value)
  {
    ClickInPicture(clickX, clickY);
  }
}
