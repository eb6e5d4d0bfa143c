/**
 * The camera and slice controller of the 2-D design display: one slice
 * index per axis, each kept inside its axis, a camera that turns through
 * the four sides, and the registered views.
 */
module Display2D {
  import opened Common
  import opened Helpers
  import opened Grids

  /** The three slice indices: x for the west/east cameras, y for north/south, z for top/bottom. */
  datatype Slices = Slices(x: int, y: int, z: int)

  predicate SlicesInRange(s: Slices)
  {
    0 <= s.x < XMax && 0 <= s.y < YMax && 0 <= s.z < ZMax
  }

  /** `_setSlice*Axis`: the new index when it is a legal slice of that axis, otherwise the old one. */
  function Legal(current: int, proposed: int, max: int): int
  {
    if proposed >= 0 && proposed < max then proposed else current
  }

  /**
   * `nextSlice` (forward) and `previousSlice` (backward): the camera's own
   * axis moves one step away from the camera (north +y, south -y, east +x,
   * west -x, top -z, bottom +z) or one step towards it.
   */
  function Moved(camera: Camera, s: Slices, forward: bool): (r: Slices)
    ensures SlicesInRange(s) ==> SlicesInRange(r)
  {
    var step := if forward then 1 else -1;
    match camera
    case North => s.(y := Legal(s.y, s.y + step, YMax))
    case South => s.(y := Legal(s.y, s.y - step, YMax))
    case East => s.(x := Legal(s.x, s.x + step, XMax))
    case West => s.(x := Legal(s.x, s.x - step, XMax))
    case Top => s.(z := Legal(s.z, s.z - step, ZMax))
    case Bottom => s.(z := Legal(s.z, s.z + step, ZMax))
  }

  /** A step that moved the slice is undone by the step the other way, and the other two axes never move. */
  lemma PreviousUndoesNext(camera: Camera, s: Slices, forward: bool)
    requires SlicesInRange(s) && Moved(camera, s, forward) != s
    ensures Moved(camera, Moved(camera, s, forward), !forward) == s
  {
  }

  /** Only the camera's own axis moves. */
  lemma MovedAxis(camera: Camera, s: Slices, forward: bool)
    ensures camera in {North, South} ==> Moved(camera, s, forward).x == s.x && Moved(camera, s, forward).z == s.z
    ensures camera in {East, West} ==> Moved(camera, s, forward).y == s.y && Moved(camera, s, forward).z == s.z
    ensures camera in {Top, Bottom} ==> Moved(camera, s, forward).x == s.x && Moved(camera, s, forward).y == s.y
  {
  }

  /** `views.filter(view => view !== toRemove)`. */
  function Without(views: seq<object>, toRemove: object): (r: seq<object>)
    ensures |r| <= |views|
    ensures forall i :: 0 <= i < |r| ==> r[i] in views && r[i] != toRemove
    ensures forall i :: 0 <= i < |views| && views[i] != toRemove ==> views[i] in r
  {
    if |views| == 0 then []
    else if views[0] == toRemove then Without(views[1..], toRemove)
    else [views[0]] + Without(views[1..], toRemove)
  }

  class Display2DController {
    var camera: Camera
    var sliceXAxis: int
    var sliceYAxis: int
    var sliceZAxis: int
    var views: seq<object>

    function SliceState(): Slices
      reads this
    {
      Slices(sliceXAxis, sliceYAxis, sliceZAxis)
    }

    predicate Valid()
      reads this
    {
      SlicesInRange(SliceState())
    }

    /** Slices x = 0, y = 0, z = 6, no views, looking north. */
    constructor ()
      ensures Valid()
      ensures camera == North && SliceState() == Slices(0, 0, 6) && views == []
    {
      sliceXAxis, sliceYAxis, sliceZAxis := 0, 0, 6;
      views := [];
      camera := North;
    }

    /** `addListener`: `push`, which answers the new length. */
    method AddListener(view: object) returns (length: int)
      modifies this
      ensures views == old(views) + [view] && length == |views|
      ensures camera == old(camera) && SliceState() == old(SliceState())
    {
      views := views + [view];
      length := |views|;
    }

    /** `removeListener`: a filtered copy; the registered views stay as they are. */
    function RemoveListener(toRemove: object): (r: seq<object>)
      reads this
      ensures forall i :: 0 <= i < |r| ==> r[i] in views && r[i] != toRemove
      ensures forall i :: 0 <= i < |views| && views[i] != toRemove ==> views[i] in r
    {
      Without(views, toRemove)
    }

    method SetSliceXAxis(slice: int)
      modifies this
      ensures sliceXAxis == Legal(old(sliceXAxis), slice, XMax)
      ensures sliceYAxis == old(sliceYAxis) && sliceZAxis == old(sliceZAxis)
      ensures camera == old(camera) && views == old(views)
    {
      if slice >= 0 && slice < XMax {
        sliceXAxis := slice;
      }
    }

    method SetSliceYAxis(slice: int)
      modifies this
      ensures sliceYAxis == Legal(old(sliceYAxis), slice, YMax)
      ensures sliceXAxis == old(sliceXAxis) && sliceZAxis == old(sliceZAxis)
      ensures camera == old(camera) && views == old(views)
    {
      if slice >= 0 && slice < YMax {
        sliceYAxis := slice;
      }
    }

    method SetSliceZAxis(slice: int)
      modifies this
      ensures sliceZAxis == Legal(old(sliceZAxis), slice, ZMax)
      ensures sliceXAxis == old(sliceXAxis) && sliceYAxis == old(sliceYAxis)
      ensures camera == old(camera) && views == old(views)
    {
      if slice >= 0 && slice < ZMax {
        sliceZAxis := slice;
      }
    }

    method NextSlice()
      modifies this
      ensures SliceState() == Moved(camera, old(SliceState()), true)
      ensures camera == old(camera) && views == old(views)
      ensures old(Valid()) ==> Valid()
    {
      match camera
      case North => SetSliceYAxis(sliceYAxis + 1);
      case South => SetSliceYAxis(sliceYAxis - 1);
      case East => SetSliceXAxis(sliceXAxis + 1);
      case West => SetSliceXAxis(sliceXAxis - 1);
      case Top => SetSliceZAxis(sliceZAxis - 1);
      case Bottom => SetSliceZAxis(sliceZAxis + 1);
    }

    method PreviousSlice()
      modifies this
      ensures SliceState() == Moved(camera, old(SliceState()), false)
      ensures camera == old(camera) && views == old(views)
      ensures old(Valid()) ==> Valid()
    {
      match camera
      case North => SetSliceYAxis(sliceYAxis - 1);
      case South => SetSliceYAxis(sliceYAxis + 1);
      case East => SetSliceXAxis(sliceXAxis - 1);
      case West => SetSliceXAxis(sliceXAxis + 1);
      case Top => SetSliceZAxis(sliceZAxis + 1);
      case Bottom => SetSliceZAxis(sliceZAxis - 1);
    }

    /** `_setCamera` (and `north` ... `bottom`): the slice indices are kept. */
    method SetCamera(c: Camera)
      modifies this
      ensures camera == c && SliceState() == old(SliceState()) && views == old(views)
    {
      camera := c;
    }

    method RotateLeft()
      modifies this
      ensures camera == old(camera).RotatedLeft()
      ensures SliceState() == old(SliceState()) && views == old(views)
    {
      match camera
      case North => SetCamera(East);
      case East => SetCamera(South);
      case South => SetCamera(West);
      case West => SetCamera(North);
      case _ =>
    }

    method RotateRight()
      modifies this
      ensures camera == old(camera).RotatedRight()
      ensures SliceState() == old(SliceState()) && views == old(views)
    {
      match camera
      case North => SetCamera(West);
      case West => SetCamera(South);
      case South => SetCamera(East);
      case East => SetCamera(North);
      case _ =>
    }

    /**
     * `getRelativePosition`: the cell under a normalised click, placed on
     * the current slice. Side cameras show only zMax rows, so a click higher
     * up gives null. The south camera takes its y from the z slice index.
     */
    function GetRelativePosition(clickX: real, clickY: real): (r: Option<Pos>)
      reads this
      ensures r.None? <==> camera !in {Top, Bottom} && RelativePosition(clickX, clickY).1 >= ZMax
    {
      var (x, y) := RelativePosition(clickX, clickY);
      if camera !in {Top, Bottom} && y >= ZMax then None
      else match camera
        case North => Some(Pos(x, sliceYAxis, y))
        case South => Some(Pos(GridSize - 1 - x, sliceZAxis, y))
        case East => Some(Pos(sliceXAxis, GridSize - 1 - x, y))
        case West => Some(Pos(sliceXAxis, x, y))
        case Bottom => Some(Pos(x, GridSize - 1 - y, sliceZAxis))
        case Top => Some(Pos(x, y, sliceZAxis))
    }
  }

  /**
   * A click inside the canvas (both coordinates in [0, 1)) lands in the
   * design grid whenever it gives a position, and the position lies on the
   * current slice of the camera's axis (for the south camera, on the y
   * equal to the z slice index).
   */
  lemma ClickInGrid(d: Display2DController, clickX: real, clickY: real)
    requires d.Valid() && 0.0 <= clickX < 1.0 && 0.0 <= clickY < 1.0
    ensures var r := d.GetRelativePosition(clickX, clickY);
      r.Some? ==>
        (InGrid(r.value)
         && (d.camera == North ==> r.value.y == d.sliceYAxis)
         && (d.camera == South ==> r.value.y == d.sliceZAxis)
         && (d.camera in {East, West} ==> r.value.x == d.sliceXAxis)
         && (d.camera in {Top, Bottom} ==> r.value.z == d.sliceZAxis))
  {
    ClickInPicture(clickX, clickY);
  }
}
