/**
 * The roof of src/api: the same joining rules as the session roof, with the
 * neighbour type decided by class identity (`constructor === Cube`). The
 * one behavioural difference is the default side surface, which is present
 * here. The cube of this API (src/api/Cube.js) is not part of this model; it
 * appears only as the holder of the surfaces a roof updates.
 */
module ApiObjects {
  import opened Common
  import opened Helpers
  import opened Joins

  datatype Cell = Empty | CubeCell(cube: Cube) | RoofCell(roof: Roof) | OtherCell

  function Objects(c: Cell): set<object>
  {
    match c
    case CubeCell(k) => {k}
    case RoofCell(r) => {r}
    case _ => {}
  }

  function Occ(c: Cell): Occupant
    reads Objects(c)
  {
    match c
    case Empty => Vacant
    case CubeCell(k) => CubeOf(k.surfaces)
    case RoofCell(r) => RoofOf(r.direction, r.hasSideSurface)
    case OtherCell => OtherObject
  }

  function ContextObjects(ctx: Context3D<Cell>): set<object>
  {
    Objects(ctx.w) + Objects(ctx.n) + Objects(ctx.e) + Objects(ctx.s) + Objects(ctx.t) + Objects(ctx.b)
  }

  function Snapshot(ctx: Context3D<Cell>): Neighbours
    reads ContextObjects(ctx)
  {
    Context3D(Occ(ctx.w), Occ(ctx.n), Occ(ctx.e), Occ(ctx.s), Occ(ctx.t), Occ(ctx.b))
  }

  predicate NeighboursDistinct(ctx: Context3D<Cell>)
  {
    var w, n, e, s, t, b := Objects(ctx.w), Objects(ctx.n), Objects(ctx.e), Objects(ctx.s), Objects(ctx.t), Objects(ctx.b);
    w !! n && w !! e && w !! s && w !! t && w !! b
    && n !! e && n !! s && n !! t && n !! b
    && e !! s && e !! t && e !! b
    && s !! t && s !! b
    && t !! b
  }

  predicate Separate(self: object, ctx: Context3D<Cell>)
  {
    self !in ContextObjects(ctx) && NeighboursDistinct(ctx)
  }

  /** Only the surfaces of the API cube matter to a roof. */
  class Cube {
    var surfaces: Surfaces

    constructor (data: Surfaces)
      ensures surfaces == data
    {
      surfaces := data;
    }
  }

  class Roof {
    var direction: Dir
    var hasSideSurface: bool

    /** `new Roof()`: facing north, with a side surface (unlike the session roof). */
    constructor ()
      ensures direction == N && hasSideSurface
    {
      direction := N;
      hasSideSurface := true;
    }

    /** `new Roof(roofData)`: both fields are taken over. */
    constructor FromData(d: Dir, flag: bool)
      ensures direction == d && hasSideSurface == flag
    {
      direction := d;
      hasSideSurface := flag;
    }

    /** Takes the modifier as direction, then joins the cube below, a closing cube and a paired roof. */
    method HookAfterInsert(modifier: Dir, ctx: Context3D<Cell>)
      requires Separate(this, ctx)
      modifies this, ContextObjects(ctx)
      ensures direction == modifier
      ensures hasSideSurface == RoofFlagAfterInsert(old(hasSideSurface), modifier, old(Snapshot(ctx)))
      ensures Snapshot(ctx) == RoofNeighboursAfterInsert(modifier, old(Snapshot(ctx)))
    {
      direction := modifier;
      JoinSlot(B, ctx);
      JoinSlot(N, ctx);
      JoinSlot(E, ctx);
      JoinSlot(S, ctx);
      JoinSlot(W, ctx);
    }

    /** The part of `hookAfterInsert` that concerns the neighbour in direction d. */
    method JoinSlot(d: Dir, ctx: Context3D<Cell>)
      requires d != T && Separate(this, ctx)
      modifies this, Objects(ctx.At(d))
      ensures direction == old(direction)
      ensures hasSideSurface == (old(hasSideSurface) && !(CubeClosesRoof(direction, d, old(Snapshot(ctx)).At(d))
        || RoofPairs(direction, d, old(Snapshot(ctx)).At(d))))
      ensures Snapshot(ctx) == old(Snapshot(ctx)).With(d, RoofNeighbourAfterInsert(direction, d, old(Snapshot(ctx)).At(d)))
    {
      var c := ctx.At(d);
      if d == B && c.CubeCell? {
        c.cube.surfaces := c.cube.surfaces.Set(T, NoSurface);
      }
      if d.Horizontal() && c.CubeCell? && direction == d.Opposite() {
        c.cube.surfaces := c.cube.surfaces.Set(d.Opposite(), NoSurface);
        hasSideSurface := false;
      }
      if d.Horizontal() && c.RoofCell? && c.roof.direction == d && direction == d.Opposite() {
        c.roof.hasSideSurface := false;
        hasSideSurface := false;
      }
    }

    /** Unjoins the neighbours of a roof about to be removed; the roof itself is untouched. */
    method HookBeforeRemove(ctx: Context3D<Cell>)
      requires Separate(this, ctx)
      modifies ContextObjects(ctx)
      ensures Snapshot(ctx) == RoofNeighboursBeforeRemove(direction, old(Snapshot(ctx)))
    {
      UnjoinSlot(B, ctx);
      UnjoinSlot(N, ctx);
      UnjoinSlot(E, ctx);
      UnjoinSlot(S, ctx);
      UnjoinSlot(W, ctx);
    }

    /** The part of `hookBeforeRemove` that concerns the neighbour in direction d. */
    method UnjoinSlot(d: Dir, ctx: Context3D<Cell>)
      requires d != T && Separate(this, ctx)
      modifies Objects(ctx.At(d))
      ensures Snapshot(ctx) == old(Snapshot(ctx)).With(d, RoofNeighbourBeforeRemove(direction, d, old(Snapshot(ctx)).At(d)))
    {
      var c := ctx.At(d);
      if d == B && c.CubeCell? {
        c.cube.surfaces := c.cube.surfaces.Set(T, Solid);
      }
      if d.Horizontal() && c.CubeCell? && direction == d.Opposite() {
        c.cube.surfaces := c.cube.surfaces.Set(d.Opposite(), Solid);
      }
      if d.Horizontal() && c.RoofCell? && c.roof.direction == d && direction == d.Opposite() {
        c.roof.hasSideSurface := true;
      }
    }

    /** Opening the side opposite the slope removes the side surface; nothing else has an effect. */
    method SetSurface(side: Dir, v: Surface)
      modifies this
      ensures direction == old(direction)
      ensures hasSideSurface == RoofFlagAfterSetSurface(direction, old(hasSideSurface), side, v)
    {
      if v == NoSurface {
        match side {
          case N =>
            if direction == S {
              hasSideSurface := false;
            }
          case S =>
            if direction == N {
              hasSideSurface := false;
            }
          case E =>
            if direction == W {
              hasSideSurface := false;
            }
          case W =>
            if direction == E {
              hasSideSurface := false;
            }
          case _ =>
        }
      }
    }
  }
}
