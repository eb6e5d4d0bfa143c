/**
 * The older design objects of src/js: a `Cube` works out its own surfaces
 * while it is constructed, joining the neighbours handed to it, and a
 * `Roof` joins its neighbours from its constructor. The neighbour type is
 * decided by class name. Both follow the joining rules of module Joins; the
 * roof starts with its side surface present.
 */
module LegacyObjects {
  import opened Common
  import opened Helpers
  import opened Joins

  datatype Cell = Empty | CubeCell(cube: Cube) | RoofCell(roof: Roof) | OtherCell

  function Objects(c: Cell): set<object>
  {
    match c
    case CubeCell(k) => {k}
    case RoofCell(r) => {r}
    case _ => {}
  }

  function Occ(c: Cell): Occupant
    reads Objects(c)
  {
    match c
    case Empty => Vacant
    case CubeCell(k) => CubeOf(k.surfaces)
    case RoofCell(r) => RoofOf(r.direction, r.hasSideSurface)
    case OtherCell => OtherObject
  }

  function ContextObjects(ctx: Context3D<Cell>): set<object>
  {
    Objects(ctx.w) + Objects(ctx.n) + Objects(ctx.e) + Objects(ctx.s) + Objects(ctx.t) + Objects(ctx.b)
  }

  function Snapshot(ctx: Context3D<Cell>): Neighbours
    reads ContextObjects(ctx)
  {
    Context3D(Occ(ctx.w), Occ(ctx.n), Occ(ctx.e), Occ(ctx.s), Occ(ctx.t), Occ(ctx.b))
  }

  predicate NeighboursDistinct(ctx: Context3D<Cell>)
  {
    var w, n, e, s, t, b := Objects(ctx.w), Objects(ctx.n), Objects(ctx.e), Objects(ctx.s), Objects(ctx.t), Objects(ctx.b);
    w !! n && w !! e && w !! s && w !! t && w !! b
    && n !! e && n !! s && n !! t && n !! b
    && e !! s && e !! t && e !! b
    && s !! t && s !! b
    && t !! b
  }

  predicate Separate(self: object, ctx: Context3D<Cell>)
  {
    self !in ContextObjects(ctx) && NeighboursDistinct(ctx)
  }

  /** The part of `_getSurfaces` that concerns the neighbour in direction d. */
  method JoinCubeSlot(d: Dir, s: Surfaces, ctx: Context3D<Cell>) returns (r: Surfaces)
    requires d != B && NeighboursDistinct(ctx)
    modifies Objects(ctx.At(d))
    ensures r == s.Set(d, CubeSideAfterInsert(d, s.Get(d), old(Snapshot(ctx)).At(d)))
    ensures Snapshot(ctx) == old(Snapshot(ctx)).With(d, CubeNeighbourAfterInsert(d, old(Snapshot(ctx)).At(d)))
  {
    r := s;
    var c := ctx.At(d);
    if d.Horizontal() && c.CubeCell? {
      r := r.Set(d, NoSurface);
      c.cube.surfaces := c.cube.surfaces.Set(d.Opposite(), NoSurface);
    }
    if d == T && c.RoofCell? {
      r := r.Set(T, NoSurface);
    }
    if d.Horizontal() && c.RoofCell? && c.roof.direction == d {
      r := r.Set(d, NoSurface);
      c.roof.hasSideSurface := false;
    }
    SetGetSame(s, d, s.Get(d));
  }

  /** `_getSurfaces`: all SOLID, then opened towards joined neighbours, which are joined back. */
  method GetSurfaces(ctx: Context3D<Cell>) returns (r: Surfaces)
    requires NeighboursDistinct(ctx)
    modifies ContextObjects(ctx)
    ensures r == CubeSelfAfterInsert(AllSolid, old(Snapshot(ctx)))
    ensures Snapshot(ctx) == CubeNeighboursAfterInsert(old(Snapshot(ctx)))
  {
    r := JoinCubeSlot(N, AllSolid, ctx);
    r := JoinCubeSlot(E, r, ctx);
    r := JoinCubeSlot(S, r, ctx);
    r := JoinCubeSlot(W, r, ctx);
    r := JoinCubeSlot(T, r, ctx);
  }

  class Cube {
    var surfaces: Surfaces
    var position: Pos

    /** `new Cube(position, context)`: the surfaces come from `_getSurfaces`, which also updates the neighbours. */
    constructor (position: Pos, ctx: Context3D<Cell>)
      requires NeighboursDistinct(ctx)
      modifies ContextObjects(ctx)
      ensures this.position == position
      ensures surfaces == CubeSelfAfterInsert(AllSolid, old(Snapshot(ctx)))
      ensures Snapshot(ctx) == CubeNeighboursAfterInsert(old(Snapshot(ctx)))
    {
      var s := GetSurfaces(ctx);
      surfaces := s;
      this.position := position;
    }

    /** `remove`: seals the neighbours; the cube itself is untouched. */
    method Remove(ctx: Context3D<Cell>)
      requires NeighboursDistinct(ctx)
      modifies ContextObjects(ctx)
      ensures Snapshot(ctx) == CubeNeighboursBeforeRemove(old(Snapshot(ctx)))
    {
      SealSlot(N, ctx);
      SealSlot(E, ctx);
      SealSlot(S, ctx);
      SealSlot(W, ctx);
      SealSlot(T, ctx);
    }

    /** The part of `remove` that concerns the neighbour in direction d. */
    method SealSlot(d: Dir, ctx: Context3D<Cell>)
      requires d != B && NeighboursDistinct(ctx)
      modifies Objects(ctx.At(d))
      ensures Snapshot(ctx) == old(Snapshot(ctx)).With(d, CubeNeighbourBeforeRemove(d, old(Snapshot(ctx)).At(d)))
    {
      var c := ctx.At(d);
      if c.CubeCell? {
        c.cube.surfaces := c.cube.surfaces.Set(d.Opposite(), Solid);
      }
      if d.Horizontal() && c.RoofCell? && c.roof.direction == d {
        c.roof.hasSideSurface := true;
      }
    }

    method SetSurface(side: Dir, v: Surface)
      modifies this
      ensures surfaces == old(surfaces).Set(side, v) && position == old(position)
    {
      surfaces := surfaces.Set(side, v);
    }
  }

  class Roof {
    var direction: Dir
    var position: Pos
    var hasSideSurface: bool

    /** `new Roof(position, direction, context)`: a side surface at first, then `_checkJoins`. */
    constructor (position: Pos, direction: Dir, ctx: Context3D<Cell>)
      requires NeighboursDistinct(ctx)
      modifies ContextObjects(ctx)
      ensures this.direction == direction && this.position == position
      ensures hasSideSurface == RoofFlagAfterInsert(true, direction, old(Snapshot(ctx)))
      ensures Snapshot(ctx) == RoofNeighboursAfterInsert(direction, old(Snapshot(ctx)))
    {
      this.direction := direction;
      this.position := position;
      hasSideSurface := true;
      new;
      CheckJoins(ctx);
    }

    /** `_checkJoins`: joins the cube below, a closing cube and a paired roof, slot by slot. */
    method CheckJoins(ctx: Context3D<Cell>)
      requires Separate(this, ctx)
      modifies this, ContextObjects(ctx)
      ensures direction == old(direction) && position == old(position)
      ensures hasSideSurface == RoofFlagAfterInsert(old(hasSideSurface), direction, old(Snapshot(ctx)))
      ensures Snapshot(ctx) == RoofNeighboursAfterInsert(direction, old(Snapshot(ctx)))
    {
      JoinSlot(B, ctx);
      JoinSlot(N, ctx);
      JoinSlot(E, ctx);
      JoinSlot(S, ctx);
      JoinSlot(W, ctx);
    }

    /** The part of `_checkJoins` that concerns the neighbour in direction d. */
    method JoinSlot(d: Dir, ctx: Context3D<Cell>)
      requires d != T && Separate(this, ctx)
      modifies this, Objects(ctx.At(d))
      ensures direction == old(direction) && position == old(position)
      ensures hasSideSurface == (old(hasSideSurface) && !(CubeClosesRoof(direction, d, old(Snapshot(ctx)).At(d))
        || RoofPairs(direction, d, old(Snapshot(ctx)).At(d))))
      ensures Snapshot(ctx) == old(Snapshot(ctx)).With(d, RoofNeighbourAfterInsert(direction, d, old(Snapshot(ctx)).At(d)))
    {
      var c := ctx.At(d);
      if d == B && c.CubeCell? {
        c.cube.surfaces := c.cube.surfaces.Set(T, NoSurface);
      }
      if d.Horizontal() && c.CubeCell? && direction == d.Opposite() {
        c.cube.surfaces := c.cube.surfaces.Set(d.Opposite(), NoSurface);
        hasSideSurface := false;
      }
      if d.Horizontal() && c.RoofCell? && c.roof.direction == d && direction == d.Opposite() {
        c.roof.hasSideSurface := false;
        hasSideSurface := false;
      }
    }

    /** `remove`: unjoins the neighbours; the roof itself is untouched. */
    method Remove(ctx: Context3D<Cell>)
      requires Separate(this, ctx)
      modifies ContextObjects(ctx)
      ensures Snapshot(ctx) == RoofNeighboursBeforeRemove(direction, old(Snapshot(ctx)))
    {
      UnjoinSlot(B, ctx);
      UnjoinSlot(N, ctx);
      UnjoinSlot(E, ctx);
      UnjoinSlot(S, ctx);
      UnjoinSlot(W, ctx);
    }

    /** The part of `remove` that concerns the neighbour in direction d. */
    method UnjoinSlot(d: Dir, ctx: Context3D<Cell>)
      requires d != T && Separate(this, ctx)
      modifies Objects(ctx.At(d))
      ensures Snapshot(ctx) == old(Snapshot(ctx)).With(d, RoofNeighbourBeforeRemove(direction, d, old(Snapshot(ctx)).At(d)))
    {
      var c := ctx.At(d);
      if d == B && c.CubeCell? {
        c.cube.surfaces := c.cube.surfaces.Set(T, Solid);
      }
      if d.Horizontal() && c.CubeCell? && direction == d.Opposite() {
        c.cube.surfaces := c.cube.surfaces.Set(d.Opposite(), Solid);
      }
      if d.Horizontal() && c.RoofCell? && c.roof.direction == d && direction == d.Opposite() {
        c.roof.hasSideSurface := true;
      }
    }

    /** Opening the side opposite the slope removes the side surface; nothing else has an effect. */
    method SetSurface(side: Dir, v: Surface)
      modifies this
      ensures direction == old(direction) && position == old(position)
      ensures hasSideSurface == RoofFlagAfterSetSurface(direction, old(hasSideSurface), side, v)
    {
      if v == NoSurface {
        match side {
          case N =>
            if direction == S {
              hasSideSurface := false;
            }
          case S =>
            if direction == N {
              hasSideSurface := false;
            }
          case E =>
            if direction == W {
              hasSideSurface := false;
            }
          case W =>
            if direction == E {
              hasSideSurface := false;
            }
          case _ =>
        }
      }
    }
  }
}
