/**
 * The design objects of src/js/sessionAPI: `Cube` and `Roof` are classes
 * whose hooks update their own fields and the fields of the neighbouring
 * objects handed to them in a six-neighbour context. Each hook is proved to
 * change every neighbour exactly as the rules of module Joins say.
 *
 * A grid cell is `null` (Empty), a reference to a Cube or a Roof, or a tree
 * part; the tree classes have neither hooks nor `setSurface`, so only their
 * presence matters.
 */
module SessionObjects {
  import opened Common
  import opened Helpers
  import opened Joins

  datatype Cell = Empty | CubeCell(cube: Cube) | RoofCell(roof: Roof) | TrunkCell | FoliageCell

  /** The object a cell refers to, if it has state of its own. */
  function Objects(c: Cell): set<object>
  {
    match c
    case CubeCell(k) => {k}
    case RoofCell(r) => {r}
    case _ => {}
  }

  /** The current state of a cell, as the join rules see it. */
  function Occ(c: Cell): Occupant
    reads Objects(c)
  {
    match c
    case Empty => Vacant
    case CubeCell(k) => CubeOf(k.surfaces)
    case RoofCell(r) => RoofOf(r.direction, r.hasSideSurface)
    case _ => OtherObject
  }

  function ContextObjects(ctx: Context3D<Cell>): set<object>
  {
    Objects(ctx.w) + Objects(ctx.n) + Objects(ctx.e) + Objects(ctx.s) + Objects(ctx.t) + Objects(ctx.b)
  }

  /** The current state of all six neighbours. */
  function Snapshot(ctx: Context3D<Cell>): Neighbours
    reads ContextObjects(ctx)
  {
    Context3D(Occ(ctx.w), Occ(ctx.n), Occ(ctx.e), Occ(ctx.s), Occ(ctx.t), Occ(ctx.b))
  }

  lemma SnapshotAt(ctx: Context3D<Cell>, d: Dir)
    ensures Snapshot(ctx).At(d) == Occ(ctx.At(d))
  {
  }

  /** No object sits in two slots of the context (each grid cell holds its own object). */
  predicate NeighboursDistinct(ctx: Context3D<Cell>)
  {
    var w, n, e, s, t, b := Objects(ctx.w), Objects(ctx.n), Objects(ctx.e), Objects(ctx.s), Objects(ctx.t), Objects(ctx.b);
    w !! n && w !! e && w !! s && w !! t && w !! b
    && n !! e && n !! s && n !! t && n !! b
    && e !! s && e !! t && e !! b
    && s !! t && s !! b
    && t !! b
  }

  /** The hooked object is not one of its own neighbours, and the neighbours are distinct. */
  predicate Separate(self: object, ctx: Context3D<Cell>)
  {
    self !in ContextObjects(ctx) && NeighboursDistinct(ctx)
  }

  /** A missing cell reads as `null`. */
  function OrEmpty(c: Option<Cell>): Cell
  {
    if c.Some? then c.value else Empty
  }

  class Cube {
    var surfaces: Surfaces

    /** `new Cube()`: every surface SOLID. */
    constructor ()
      ensures surfaces == AllSolid
    {
      surfaces := AllSolid;
    }

    /** `new Cube(cubeData)`: the surfaces are taken over. */
    constructor FromData(data: Surfaces)
      ensures surfaces == data
    {
      surfaces := data;
    }

    /**
     * Joins the freshly inserted cube to adjacent cubes, a roof above and
     * facing roofs. The updates of different slots touch different objects,
     * so they are grouped here slot by slot.
     */
    method HookAfterInsert(ctx: Context3D<Cell>)
      requires Separate(this, ctx)
      modifies this, ContextObjects(ctx)
      ensures surfaces == CubeSelfAfterInsert(old(surfaces), old(Snapshot(ctx)))
      ensures Snapshot(ctx) == CubeNeighboursAfterInsert(old(Snapshot(ctx)))
    {
      JoinSlot(N, ctx);
      JoinSlot(E, ctx);
      JoinSlot(S, ctx);
      JoinSlot(W, ctx);
      JoinSlot(T, ctx);
    }

    /** The part of `hookAfterInsert` that concerns the neighbour in direction d. */
    method JoinSlot(d: Dir, ctx: Context3D<Cell>)
      requires d != B && Separate(this, ctx)
      modifies this, Objects(ctx.At(d))
      ensures surfaces == old(surfaces).Set(d, CubeSideAfterInsert(d, old(surfaces).Get(d), old(Snapshot(ctx)).At(d)))
      ensures Snapshot(ctx) == old(Snapshot(ctx)).With(d, CubeNeighbourAfterInsert(d, old(Snapshot(ctx)).At(d)))
    {
      var c := ctx.At(d);
      if d.Horizontal() && c.CubeCell? {
        surfaces := surfaces.Set(d, NoSurface);
        c.cube.surfaces := c.cube.surfaces.Set(d.Opposite(), NoSurface);
      }
      if d == T && c.RoofCell? {
        surfaces := surfaces.Set(T, NoSurface);
      }
      if d.Horizontal() && c.RoofCell? && c.roof.direction == d {
        surfaces := surfaces.Set(d, NoSurface);
        c.roof.hasSideSurface := false;
      }
      SetGetSame(old(surfaces), d, old(surfaces).Get(d));
    }

    /** Seals the neighbours of a cube that is about to be removed; the cube itself is untouched. */
    method HookBeforeRemove(ctx: Context3D<Cell>)
      requires Separate(this, ctx)
      modifies ContextObjects(ctx)
      ensures Snapshot(ctx) == CubeNeighboursBeforeRemove(old(Snapshot(ctx)))
    {
      SealSlot(N, ctx);
      SealSlot(E, ctx);
      SealSlot(S, ctx);
      SealSlot(W, ctx);
      SealSlot(T, ctx);
    }

    /** The part of `hookBeforeRemove` that concerns the neighbour in direction d. */
    method SealSlot(d: Dir, ctx: Context3D<Cell>)
      requires d != B && NeighboursDistinct(ctx)
      modifies Objects(ctx.At(d))
      ensures Snapshot(ctx) == old(Snapshot(ctx)).With(d, CubeNeighbourBeforeRemove(d, old(Snapshot(ctx)).At(d)))
    {
      var c := ctx.At(d);
      if c.CubeCell? {
        c.cube.surfaces := c.cube.surfaces.Set(d.Opposite(), Solid);
      }
      if d.Horizontal() && c.RoofCell? && c.roof.direction == d {
        c.roof.hasSideSurface := true;
      }
    }

    method SetSurface(side: Dir, v: Surface)
      modifies this
      ensures surfaces == old(surfaces).Set(side, v)
    {
      surfaces := surfaces.Set(side, v);
    }

    /** Some wall of the cube is open onto an empty neighbour in the plane. */
    function HasAccessToOutside(ctx: Context3D<Cell>): (r: bool)
      reads this
      ensures r <==> exists d: Dir :: d.Horizontal() && surfaces.Get(d) == NoSurface && ctx.At(d) == Empty
    {
      if surfaces.e == NoSurface && ctx.e == Empty then
        assert surfaces.Get(E) == NoSurface && ctx.At(E) == Empty;
        true
      else if surfaces.w == NoSurface && ctx.w == Empty then
        assert surfaces.Get(W) == NoSurface && ctx.At(W) == Empty;
        true
      else if surfaces.n == NoSurface && ctx.n == Empty then
        assert surfaces.Get(N) == NoSurface && ctx.At(N) == Empty;
        true
      else if surfaces.s == NoSurface && ctx.s == Empty then
        assert surfaces.Get(S) == NoSurface && ctx.At(S) == Empty;
        true
      else
        false
    }

    function HasAccessInDirection(d: Dir): (r: bool)
      reads this
      ensures r <==> surfaces.Get(d) == NoSurface
    {
      surfaces.Get(d) == NoSurface
    }
  }

  class Roof {
    var direction: Dir
    var hasSideSurface: bool

    /** `new Roof()`: facing north, without a side surface. */
    constructor ()
      ensures direction == N && !hasSideSurface
    {
      direction := N;
      hasSideSurface := false;
    }

    /** `new Roof(roofData)`: both fields are taken over. */
    constructor FromData(d: Dir, flag: bool)
      ensures direction == d && hasSideSurface == flag
    {
      direction := d;
      hasSideSurface := flag;
    }

    /**
     * Takes the modifier as direction and joins the cube below, a closing
     * cube and a paired roof, slot by slot.
     */
    method HookAfterInsert(modifier: Dir, ctx: Context3D<Cell>)
      requires Separate(this, ctx)
      modifies this, ContextObjects(ctx)
      ensures direction == modifier
      ensures hasSideSurface == RoofFlagAfterInsert(old(hasSideSurface), modifier, old(Snapshot(ctx)))
      ensures Snapshot(ctx) == RoofNeighboursAfterInsert(modifier, old(Snapshot(ctx)))
    {
      direction := modifier;
      JoinSlot(B, ctx);
      JoinSlot(N, ctx);
      JoinSlot(E, ctx);
      JoinSlot(S, ctx);
      JoinSlot(W, ctx);
    }

    /** The part of `hookAfterInsert` that concerns the neighbour in direction d. */
    method JoinSlot(d: Dir, ctx: Context3D<Cell>)
      requires d != T && Separate(this, ctx)
      modifies this, Objects(ctx.At(d))
      ensures direction == old(direction)
      ensures hasSideSurface == (old(hasSideSurface) && !(CubeClosesRoof(direction, d, old(Snapshot(ctx)).At(d))
        || RoofPairs(direction, d, old(Snapshot(ctx)).At(d))))
      ensures Snapshot(ctx) == old(Snapshot(ctx)).With(d, RoofNeighbourAfterInsert(direction, d, old(Snapshot(ctx)).At(d)))
    {
      var c := ctx.At(d);
      if d == B && c.CubeCell? {
        c.cube.surfaces := c.cube.surfaces.Set(T, NoSurface);
      }
      if d.Horizontal() && c.CubeCell? && direction == d.Opposite() {
        c.cube.surfaces := c.cube.surfaces.Set(d.Opposite(), NoSurface);
        hasSideSurface := false;
      }
      if d.Horizontal() && c.RoofCell? && c.roof.direction == d && direction == d.Opposite() {
        c.roof.hasSideSurface := false;
        hasSideSurface := false;
      }
    }

    /** Unjoins the neighbours of a roof that is about to be removed; the roof itself is untouched. */
    method HookBeforeRemove(ctx: Context3D<Cell>)
      requires Separate(this, ctx)
      modifies ContextObjects(ctx)
      ensures Snapshot(ctx) == RoofNeighboursBeforeRemove(direction, old(Snapshot(ctx)))
    {
      UnjoinSlot(B, ctx);
      UnjoinSlot(N, ctx);
      UnjoinSlot(E, ctx);
      UnjoinSlot(S, ctx);
      UnjoinSlot(W, ctx);
    }

    /** The part of `hookBeforeRemove` that concerns the neighbour in direction d. */
    method UnjoinSlot(d: Dir, ctx: Context3D<Cell>)
      requires d != T && Separate(this, ctx)
      modifies Objects(ctx.At(d))
      ensures Snapshot(ctx) == old(Snapshot(ctx)).With(d, RoofNeighbourBeforeRemove(direction, d, old(Snapshot(ctx)).At(d)))
    {
      var c := ctx.At(d);
      if d == B && c.CubeCell? {
        c.cube.surfaces := c.cube.surfaces.Set(T, Solid);
      }
      if d.Horizontal() && c.CubeCell? && direction == d.Opposite() {
        c.cube.surfaces := c.cube.surfaces.Set(d.Opposite(), Solid);
      }
      if d.Horizontal() && c.RoofCell? && c.roof.direction == d && direction == d.Opposite() {
        c.roof.hasSideSurface := true;
      }
    }

    /** Opening the side opposite the slope removes the side surface; nothing else has an effect. */
    method SetSurface(side: Dir, v: Surface)
      modifies this
      ensures direction == old(direction)
      ensures hasSideSurface == RoofFlagAfterSetSurface(direction, old(hasSideSurface), side, v)
    {
      if v == NoSurface {
        match side
        case N =>
          if direction == S {
            hasSideSurface := false;
          }
        case S =>
          if direction == N {
            hasSideSurface := false;
          }
        case E =>
          if direction == W {
            hasSideSurface := false;
          }
        case W =>
          if direction == E {
            hasSideSurface := false;
          }
        case _ =>
      }
    }
  }

  /** `obj.setSurface(side, surface)` when the object has one; empty cells and tree parts ignore it. */
  method SetSurfaceOnCell(c: Cell, side: Dir, v: Surface)
    modifies Objects(c)
    ensures Occ(c) == SetSurfaceOn(old(Occ(c)), side, v)
  {
    match c
    case CubeCell(k) => k.SetSurface(side, v);
    case RoofCell(r) => r.SetSurface(side, v);
    case _ =>
  }

  /** `obj.hookBeforeRemove(context)` when the object has one; empty cells and tree parts have none. */
  method HookBeforeRemoveOf(c: Cell, ctx: Context3D<Cell>)
    requires Objects(c) !! ContextObjects(ctx) && NeighboursDistinct(ctx)
    modifies ContextObjects(ctx)
    ensures Snapshot(ctx) == NeighboursBeforeRemove(old(Occ(c)), old(Snapshot(ctx)))
  {
    match c
    case CubeCell(k) => k.HookBeforeRemove(ctx);
    case RoofCell(r) => r.HookBeforeRemove(ctx);
    case _ =>
  }
}
