/**
 * The original design model: the 17 x 17 x 7 world as a grid of object
 * type numbers (null for an empty cell), with trees that take two cells,
 * and the topography model beside it.
 */
module LegacyDesign {
  import opened Common
  import opened Helpers
  import opened Grids
  import opened TopoViews
  import opened LegacyTopo

  type Objects = Grid<Option<int>>

  function Above(p: Pos): Pos { Pos(p.x, p.y, p.z + 1) }
  function Below(p: Pos): Pos { Pos(p.x, p.y, p.z - 1) }

  /** The outcome of `addObject`: whether it reports success, and the new grid. */
  datatype Addition = Addition(ok: bool, objects: Objects)

  /**
   * `addObject`: a tree needs a row in front of the back edge (y < yMax - 1)
   * and both its cell and the cell above empty, and then takes both, with
   * foliage on top; any other object needs only its own cell empty.
   * `_getCell` reads null outside the grid, so an out-of-grid cell counts
   * as empty and the write to it is dropped.
   */
  function Added(g: Objects, p: Pos, obj: int): (r: Addition)
    requires WellFormed(g)
    ensures WellFormed(r.objects)
    ensures !r.ok ==> r.objects == g
  {
    if obj == TREE then
      if p.y < YMax - 1 && CellAt(g, p, None) == None && CellAt(g, Above(p), None) == None then
        Addition(true, Updated(Updated(g, p, Some(TREE)), Above(p), Some(FOLIAGE)))
      else Addition(false, g)
    else if CellAt(g, p, None) == None then Addition(true, Updated(g, p, Some(obj)))
    else Addition(false, g)
  }

  /**
   * `removeObject`: a tree is removed with its foliage unless it stands in
   * the top layer; foliage is removed with its trunk unless it lies in the
   * bottom layer; anything else (an empty cell included) is cleared alone.
   */
  function Removed(g: Objects, p: Pos): (r: Objects)
    requires WellFormed(g)
    ensures WellFormed(r)
  {
    var obj := CellAt(g, p, None);
    if obj == Some(TREE) then
      if p.z < ZMax - 1 then Updated(Updated(g, p, None), Above(p), None) else g
    else if obj == Some(FOLIAGE) then
      if p.z > 0 then Updated(Updated(g, p, None), Below(p), None) else g
    else Updated(g, p, None)
  }

  /** A non-tree object is placed exactly when its cell is empty, and then only that cell changes. */
  lemma AddedOccupancy(g: Objects, p: Pos, obj: int, q: Pos)
    requires WellFormed(g) && obj != TREE
    ensures Added(g, p, obj).ok <==> CellAt(g, p, None) == None
    ensures Added(g, p, obj).ok ==>
      CellAt(Added(g, p, obj).objects, q, None) == if q == p && InGrid(p) then Some(obj) else CellAt(g, q, None)
  {
    UpdatedAt(g, p, Some(obj), q, None);
  }

  /** A tree is placed exactly when it is off the back row and both cells are empty; it writes those two cells only. */
  lemma AddedTree(g: Objects, p: Pos, q: Pos)
    requires WellFormed(g)
    ensures Added(g, p, TREE).ok <==>
      p.y < YMax - 1 && CellAt(g, p, None) == None && CellAt(g, Above(p), None) == None
    ensures Added(g, p, TREE).ok ==>
      CellAt(Added(g, p, TREE).objects, q, None)
      == if q == Above(p) && InGrid(q) then Some(FOLIAGE)
         else if q == p && InGrid(p) then Some(TREE)
         else CellAt(g, q, None)
  {
    if Added(g, p, TREE).ok {
      var g1 := Updated(g, p, Some(TREE));
      UpdatedAt(g, p, Some(TREE), q, None);
      UpdatedAt(g1, Above(p), Some(FOLIAGE), q, None);
    }
  }

  /** Removing what was just added gives back the grid, for a single-cell object and for a tree below the top layer. */
  lemma RemoveUndoesAdd(g: Objects, p: Pos, obj: int)
    requires WellFormed(g) && InGrid(p) && Added(g, p, obj).ok
    requires obj != FOLIAGE && (obj == TREE ==> p.z < ZMax - 1)
    ensures Removed(Added(g, p, obj).objects, p) == g
  {
    var h := Added(g, p, obj).objects;
    forall q: Pos | InGrid(q)
      ensures CellAt(Removed(h, p), q, None) == CellAt(g, q, None)
    {
      if obj == TREE {
        AddedTree(g, p, p);
        AddedTree(g, p, q);
        var h1 := Updated(h, p, None);
        UpdatedAt(h, p, None, q, None);
        UpdatedAt(h1, Above(p), None, q, None);
      } else {
        AddedOccupancy(g, p, obj, p);
        AddedOccupancy(g, p, obj, q);
        UpdatedAt(h, p, None, q, None);
      }
    }
    GridExtensional(Removed(h, p), g);
  }

  /** Two well-formed grids that agree on every cell are equal. */
  lemma GridExtensional(a: Objects, b: Objects)
    requires WellFormed(a) && WellFormed(b)
    requires forall q: Pos :: InGrid(q) ==> CellAt(a, q, None) == CellAt(b, q, None)
    ensures a == b
  {
    forall z | 0 <= z < ZMax
      ensures a[z] == b[z]
    {
      forall y | 0 <= y < YMax
        ensures a[z][y] == b[z][y]
      {
        forall x | 0 <= x < XMax
          ensures a[z][y][x] == b[z][y][x]
        {
          assert CellAt(a, Pos(x, y, z), None) == CellAt(b, Pos(x, y, z), None);
        }
      }
    }
  }

  /**
   * A tree planted in the top layer takes its cell (its foliage falls
   * outside the grid and is dropped), and `removeObject` then leaves it
   * where it is: it cannot be removed.
   */
  lemma TopLayerTreeStays(g: Objects, p: Pos)
    requires WellFormed(g) && InGrid(p) && p.z == ZMax - 1 && p.y < YMax - 1 && CellAt(g, p, None) == None
    ensures Added(g, p, TREE).ok
    ensures CellAt(Added(g, p, TREE).objects, p, None) == Some(TREE)
    ensures Removed(Added(g, p, TREE).objects, p) == Added(g, p, TREE).objects
  {
    AddedTree(g, p, p);
  }

  /** Outside the grid `addObject` reports success and changes nothing. */
  lemma AddOutsideSucceeds(g: Objects, p: Pos, obj: int)
    requires WellFormed(g) && !InGrid(p) && obj != TREE
    ensures Added(g, p, obj) == Addition(true, g)
  {
    UpdatedOutside(g, p, Some(obj));
  }

  /**
   * Clearing a cell and then adding a single-cell object there always
   * places it, unless the cell holds a tree in the top layer or foliage in
   * the bottom layer, which `removeObject` leaves in place.
   */
  lemma ReplacePlaces(g: Objects, p: Pos, obj: int)
    requires WellFormed(g) && InGrid(p) && obj != TREE
    requires !(CellAt(g, p, None) == Some(TREE) && p.z == ZMax - 1)
    requires !(CellAt(g, p, None) == Some(FOLIAGE) && p.z == 0)
    ensures Added(Removed(g, p), p, obj).ok
    ensures CellAt(Added(Removed(g, p), p, obj).objects, p, None) == Some(obj)
  {
    var h := Removed(g, p);
    if CellAt(g, p, None) == Some(TREE) {
      UpdatedAt(g, p, None, p, None);
      UpdatedAt(Updated(g, p, None), Above(p), None, p, None);
    } else if CellAt(g, p, None) == Some(FOLIAGE) {
      UpdatedAt(g, p, None, p, None);
      UpdatedAt(Updated(g, p, None), Below(p), None, p, None);
    } else {
      UpdatedAt(g, p, None, p, None);
    }
    AddedOccupancy(h, p, obj, p);
  }

  /** `_populate`'s objects, in call order: rows y = 10, 11 and 12 of the world. */
  const SampleObjects: seq<(Pos, int)> := [
    (Pos(2, 10, 2), CUBE),
    (Pos(2, 10, 3), CUBE),
    (Pos(3, 10, 3), CUBE),
    (Pos(4, 10, 3), CUBE),
    (Pos(13, 10, 0), CUBE),
    (Pos(12, 10, 0), CUBE),
    (Pos(12, 10, 1), CUBE),
    (Pos(11, 10, 1), CUBE),
    (Pos(10, 10, 1), CUBE),
    (Pos(11, 10, 2), TREE),
    (Pos(14, 10, 0), FOLIAGE),
    (Pos(15, 10, 0), FOLIAGE),
    (Pos(8, 10, 0), FOLIAGE),
    (Pos(4, 11, 1), CUBE),
    (Pos(4, 11, 2), CUBE),
    (Pos(3, 11, 2), CUBE),
    (Pos(5, 11, 2), CUBE),
    (Pos(6, 11, 2), CUBE),
    (Pos(6, 11, 3), CUBE),
    (Pos(7, 11, 3), CUBE),
    (Pos(8, 11, 0), CUBE),
    (Pos(9, 11, 0), CUBE),
    (Pos(9, 11, 1), CUBE),
    (Pos(11, 11, 0), CUBE),
    (Pos(9, 12, 2), CUBE),
    (Pos(9, 12, 3), ROOF)
  ]

  /** The grid after adding the given objects in order. */
  function Replay(g: Objects, items: seq<(Pos, int)>): (r: Objects)
    requires WellFormed(g)
    ensures WellFormed(r)
  {
    if |items| == 0 then g
    else Added(Replay(g, items[..|items| - 1]), items[|items| - 1].0, items[|items| - 1].1).objects
  }

  /** The sample topography: height 2 in columns x = 0..2, 1 in x = 3..5, 0 elsewhere. */
  function SampleHeight(x: int): int
  {
    if 0 <= x < 3 then 2 else if 3 <= x < 6 then 1 else 0
  }

  ghost predicate EmptyObjects(g: Objects)
  {
    WellFormed(g) && forall q: Pos :: InGrid(q) ==> CellAt(g, q, None) == None
  }

  /** `_initObjects`: zMax layers of yMax x xMax nulls. */
  method InitObjects() returns (objects: Objects)
    ensures EmptyObjects(objects)
  {
    objects := [];
    for i := 0 to ZMax
      invariant |objects| == i
      invariant forall z :: 0 <= z < i ==> |objects[z]| == YMax
      invariant forall z, y :: 0 <= z < i && 0 <= y < YMax ==> |objects[z][y]| == XMax
      invariant forall z, y, x :: 0 <= z < i && 0 <= y < YMax && 0 <= x < XMax ==> objects[z][y][x] == None
    {
      var layer := Empty2DArray(YMax, XMax, None);
      objects := objects + [layer];
    }
  }

  class DesignModel {
    var objects: Objects
    const topo: TopoModel

    predicate Valid()
      reads this, topo
    {
      WellFormed(objects) && topo.Valid() && topo.xMax == XMax && topo.yMax == YMax
    }

    /** An empty world and a flat topography, then the sample design and the sample hills. */
    constructor ()
      ensures Valid() && fresh(topo)
      ensures exists g :: EmptyObjects(g) && objects == Replay(g, SampleObjects)
      ensures forall y, x :: 0 <= y < YMax && 0 <= x < XMax ==> topo.heights[y][x] == SampleHeight(x)
    {
      var empty := InitObjects();
      objects := empty;
      topo := new TopoModel(XMax, YMax);
      new;
      Populate(empty);
    }

    /** `_populate`: the sample objects in order, then the hills on every row, each row written twice. */
    method Populate(ghost start: Objects)
      requires Valid() && objects == start
      requires forall y, x :: 0 <= y < YMax && 0 <= x < XMax ==> topo.heights[y][x] == 0
      modifies this, topo
      ensures Valid() && objects == Replay(start, SampleObjects)
      ensures forall y, x :: 0 <= y < YMax && 0 <= x < XMax ==> topo.heights[y][x] == SampleHeight(x)
    {
      for k := 0 to |SampleObjects|
        invariant Valid() && unchanged(topo)
        invariant objects == Replay(start, SampleObjects[..k])
      {
        var (p, obj) := SampleObjects[k];
        var _ := AddObject(p, obj);
        assert SampleObjects[..k + 1][..k] == SampleObjects[..k];
      }
      assert SampleObjects[..|SampleObjects|] == SampleObjects;
      for y := 0 to 17
        invariant Valid() && objects == Replay(start, SampleObjects)
        invariant forall y', x :: 0 <= y' < y && 0 <= x < XMax ==> topo.heights[y'][x] == SampleHeight(x)
        invariant forall y', x :: y <= y' < YMax && 0 <= x < XMax ==> topo.heights[y'][x] == 0
      {
        HillRow(y);
        HillRow(y);
      }
    }

    /** Six `setTopoHeight` calls on row y: 2, 2, 2, 1, 1, 1 for x = 0..5. */
    method HillRow(y: int)
      requires Valid() && 0 <= y < YMax
      modifies topo
      ensures Valid()
      ensures forall x :: 0 <= x < XMax ==> topo.heights[y][x] == if x < 6 then SampleHeight(x) else old(topo.heights[y][x])
      ensures forall y', x :: 0 <= y' < YMax && y' != y && 0 <= x < XMax ==> topo.heights[y'][x] == old(topo.heights[y'][x])
    {
      topo.SetTopoHeight(0, y, 2);
      topo.SetTopoHeight(1, y, 2);
      topo.SetTopoHeight(2, y, 2);
      topo.SetTopoHeight(3, y, 1);
      topo.SetTopoHeight(4, y, 1);
      topo.SetTopoHeight(5, y, 1);
    }

    /** `_getCell`: null outside the grid. */
    function GetCell(p: Pos): (c: Option<int>)
      reads this
      requires WellFormed(objects)
      ensures !InGrid(p) ==> c == None
      ensures InGrid(p) ==> c == objects[p.z][p.y][p.x]
    {
      CellAt(objects, p, None)
    }

    /** `_setCell`: writes outside the grid are ignored. */
    method SetCell(p: Pos, v: Option<int>)
      requires WellFormed(objects)
      modifies this
      ensures objects == Updated(old(objects), p, v)
    {
      if InGrid(p) {
        objects := objects[p.z := objects[p.z][p.y := objects[p.z][p.y][p.x := v]]];
      }
    }

    method AddObject(p: Pos, obj: int) returns (ok: bool)
      requires WellFormed(objects)
      modifies this
      ensures Addition(ok, objects) == Added(old(objects), p, obj)
    {
      if obj == TREE {
        if p.y < YMax - 1 {
          var foliage := Above(p);
          if GetCell(p) == None && GetCell(foliage) == None {
            SetCell(p, Some(TREE));
            SetCell(foliage, Some(FOLIAGE));
            return true;
          }
        }
        return false;
      }
      if GetCell(p) == None {
        SetCell(p, Some(obj));
        return true;
      }
      return false;
    }

    method RemoveObject(p: Pos)
      requires WellFormed(objects)
      modifies this
      ensures objects == Removed(old(objects), p)
    {
      var obj := GetCell(p);
      if obj == Some(TREE) {
        if p.z < ZMax - 1 {
          SetCell(p, None);
          SetCell(Above(p), None);
        }
      } else if obj == Some(FOLIAGE) {
        if p.z > 0 {
          SetCell(p, None);
          SetCell(Below(p), None);
        }
      } else {
        SetCell(p, None);
      }
    }

    method GetTopoSlice(camera: Camera, s: nat) returns (r: Option<seq<Pair>>)
      requires Valid()
      ensures r == TopoModelSlice(topo.heights, XMax, camera, s)
    {
      r := topo.GetTopoSlice(camera, s);
    }

    method GetSlice(camera: Camera, i: int) returns (slice: seq<seq<Option<int>>>)
      requires WellFormed(objects) && 0 <= i < AxisLength(camera)
      ensures slice == SliceOf(objects, camera, i)
    {
      slice := Slice(objects, camera, i, None);
    }

    /** `getBackgroundSlices`: yMax - 1 - i slices looking north, i looking south, and so on. */
    method GetBackgroundSlices(camera: Camera, i: int) returns (slices: seq<seq<seq<Option<int>>>>)
      requires WellFormed(objects) && 0 <= i < AxisLength(camera)
      ensures |slices| == if camera in {North, East, Bottom} then AxisLength(camera) - 1 - i else i
      ensures forall k :: 0 <= k < |slices| ==> slices[k] == SliceOf(objects, camera, BackgroundIndices(camera, i)[k])
    {
      slices := BackgroundSlices(objects, camera, i, None);
      BackgroundIndicesInRange(camera, i);
    }
  }
}
