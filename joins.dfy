/**
 * The surface-joining rules between cubes and roofs, stated once over
 * snapshots of the objects' fields. The class models of each source file
 * prove that their hooks change every neighbour exactly as these functions
 * say.
 *
 * A cube's side d meets a roof "facing" it when the roof sits on side d and
 * slopes in direction d. A roof with direction D is closed by a cube on its
 * side D.Opposite(), and it pairs with a roof on that side sloping in
 * direction D.Opposite().
 */
module Joins {
  import opened Common
  import opened Helpers

  /** What a neighbour slot holds, as far as the join rules can see. */
  datatype Occupant = Vacant | CubeOf(surfaces: Surfaces) | RoofOf(direction: Dir, hasSideSurface: bool) | OtherObject

  type Neighbours = Context3D<Occupant>

  /** A roof on a cube's side d whose slope points along d (the cube rule `n.direction === 'n'`). */
  predicate RoofFacesCube(d: Dir, o: Occupant)
  {
    d.Horizontal() && o.RoofOf? && o.direction == d
  }

  /** A cube on side d of a roof with direction D that closes the roof's open side (`n` cube with direction `'s'`). */
  predicate CubeClosesRoof(D: Dir, d: Dir, o: Occupant)
  {
    d.Horizontal() && o.CubeOf? && D == d.Opposite()
  }

  /** A roof on side d of a roof with direction D, the two sloping away from each other. */
  predicate RoofPairs(D: Dir, d: Dir, o: Occupant)
  {
    d.Horizontal() && o.RoofOf? && o.direction == d && D == d.Opposite()
  }

  // ---------------------------------------------------------------------
  // Cube inserted

  /** The new state of the inserted cube's side d. */
  function CubeSideAfterInsert(d: Dir, current: Surface, o: Occupant): Surface
  {
    if d.Horizontal() && (o.CubeOf? || RoofFacesCube(d, o)) then NoSurface
    else if d == T && o.RoofOf? then NoSurface
    else current
  }

  /** The inserted cube's surfaces. */
  function CubeSelfAfterInsert(s: Surfaces, nb: Neighbours): (r: Surfaces)
    ensures forall d: Dir :: r.Get(d) == CubeSideAfterInsert(d, s.Get(d), nb.At(d))
  {
    Surfaces(
      CubeSideAfterInsert(N, s.n, nb.n), CubeSideAfterInsert(E, s.e, nb.e),
      CubeSideAfterInsert(S, s.s, nb.s), CubeSideAfterInsert(W, s.w, nb.w),
      CubeSideAfterInsert(T, s.t, nb.t), s.b)
  }

  /** What happens to the neighbour on side d when a cube is inserted. */
  function CubeNeighbourAfterInsert(d: Dir, o: Occupant): Occupant
  {
    if d.Horizontal() && o.CubeOf? then CubeOf(o.surfaces.Set(d.Opposite(), NoSurface))
    else if RoofFacesCube(d, o) then o.(hasSideSurface := false)
    else o
  }

  /** What happens to the neighbour on side d when a cube is about to be removed. */
  function CubeNeighbourBeforeRemove(d: Dir, o: Occupant): Occupant
  {
    if d != B && o.CubeOf? then CubeOf(o.surfaces.Set(d.Opposite(), Solid))
    else if RoofFacesCube(d, o) then o.(hasSideSurface := true)
    else o
  }

  /** The neighbours above and below are never changed by an inserted cube. */
  lemma CubeInsertLeavesVertical(o: Occupant)
    ensures CubeNeighbourAfterInsert(T, o) == o && CubeNeighbourAfterInsert(B, o) == o
  {
  }

  /** Horizontal cube neighbours are joined both ways: both facing sides become open. */
  lemma CubeJoinIsMutual(s: Surfaces, nb: Neighbours, d: Dir)
    requires d.Horizontal() && nb.At(d).CubeOf?
    ensures CubeSelfAfterInsert(s, nb).Get(d) == NoSurface
    ensures CubeNeighbourAfterInsert(d, nb.At(d)).CubeOf?
    ensures CubeNeighbourAfterInsert(d, nb.At(d)).surfaces.Get(d.Opposite()) == NoSurface
  {
  }

  /** A neighbour that is not joined to the cube on side d. */
  predicate UnjoinedFromCube(d: Dir, o: Occupant)
  {
    (d != B && o.CubeOf? ==> o.surfaces.Get(d.Opposite()) == Solid)
    && (RoofFacesCube(d, o) ==> o.hasSideSurface)
  }

  lemma SetGetSame(s: Surfaces, d: Dir, v: Surface)
    requires s.Get(d) == v
    ensures s.Set(d, v) == s
  {
  }

  lemma SetTwice(s: Surfaces, d: Dir, u: Surface, v: Surface)
    ensures s.Set(d, u).Set(d, v) == s.Set(d, v)
  {
  }

  /**
   * Removing a cube undoes inserting it: a neighbour that was not joined to
   * the cube before the insertion is exactly restored by the removal.
   */
  lemma CubeRemoveUndoesInsert(d: Dir, o: Occupant)
    requires UnjoinedFromCube(d, o)
    ensures CubeNeighbourBeforeRemove(d, CubeNeighbourAfterInsert(d, o)) == o
  {
    if o.CubeOf? && d != B {
      var f := d.Opposite();
      if d.Horizontal() {
        SetTwice(o.surfaces, f, NoSurface, Solid);
      }
      SetGetSame(o.surfaces, f, Solid);
    }
  }

  // ---------------------------------------------------------------------
  // Roof inserted

  /** What happens to the neighbour on side d when a roof with direction D is inserted. */
  function RoofNeighbourAfterInsert(D: Dir, d: Dir, o: Occupant): Occupant
  {
    if d == B && o.CubeOf? then CubeOf(o.surfaces.Set(T, NoSurface))
    else if CubeClosesRoof(D, d, o) then CubeOf(o.surfaces.Set(d.Opposite(), NoSurface))
    else if RoofPairs(D, d, o) then o.(hasSideSurface := false)
    else o
  }

  /** What happens to the neighbour on side d when a roof with direction D is about to be removed. */
  function RoofNeighbourBeforeRemove(D: Dir, d: Dir, o: Occupant): Occupant
  {
    if d == B && o.CubeOf? then CubeOf(o.surfaces.Set(T, Solid))
    else if CubeClosesRoof(D, d, o) then CubeOf(o.surfaces.Set(d.Opposite(), Solid))
    else if RoofPairs(D, d, o) then o.(hasSideSurface := true)
    else o
  }

  /** Some neighbour closes or pairs with a roof of direction D. */
  predicate RoofIsJoined(D: Dir, nb: Neighbours)
  {
    exists d: Dir :: CubeClosesRoof(D, d, nb.At(d)) || RoofPairs(D, d, nb.At(d))
  }

  /** The inserted roof's `hasSideSurface`: cleared by any closing cube or paired roof. */
  function RoofFlagAfterInsert(flag: bool, D: Dir, nb: Neighbours): (r: bool)
    ensures r == (flag && !RoofIsJoined(D, nb))
  {
    var joined := (CubeClosesRoof(D, N, nb.n) || RoofPairs(D, N, nb.n))
      || (CubeClosesRoof(D, E, nb.e) || RoofPairs(D, E, nb.e))
      || (CubeClosesRoof(D, S, nb.s) || RoofPairs(D, S, nb.s))
      || (CubeClosesRoof(D, W, nb.w) || RoofPairs(D, W, nb.w));
    assert joined == RoofIsJoined(D, nb) by {
      if RoofIsJoined(D, nb) {
        var d: Dir :| CubeClosesRoof(D, d, nb.At(d)) || RoofPairs(D, d, nb.At(d));
        assert d.Horizontal();
      }
      if joined {
        var w := if CubeClosesRoof(D, N, nb.n) || RoofPairs(D, N, nb.n) then N
          else if CubeClosesRoof(D, E, nb.e) || RoofPairs(D, E, nb.e) then E
          else if CubeClosesRoof(D, S, nb.s) || RoofPairs(D, S, nb.s) then S
          else W;
        assert CubeClosesRoof(D, w, nb.At(w)) || RoofPairs(D, w, nb.At(w));
      }
    }
    if joined then false else flag
  }

  /** A roof is closed by at most one cube side: the one opposite its direction. */
  lemma RoofJoinsOneSide(D: Dir, d: Dir, nb: Neighbours)
    requires CubeClosesRoof(D, d, nb.At(d)) || RoofPairs(D, d, nb.At(d))
    ensures d == D.Opposite() && D.Horizontal()
  {
  }

  /** A neighbour that is not joined to a roof with direction D on side d. */
  predicate UnjoinedFromRoof(D: Dir, d: Dir, o: Occupant)
  {
    (d == B && o.CubeOf? ==> o.surfaces.t == Solid)
    && (CubeClosesRoof(D, d, o) ==> o.surfaces.Get(d.Opposite()) == Solid)
    && (RoofPairs(D, d, o) ==> o.hasSideSurface)
  }

  /** Removing a roof restores every neighbour that was not joined to it before insertion. */
  lemma RoofRemoveUndoesInsert(D: Dir, d: Dir, o: Occupant)
    requires UnjoinedFromRoof(D, d, o)
    ensures RoofNeighbourBeforeRemove(D, d, RoofNeighbourAfterInsert(D, d, o)) == o
  {
    if o.CubeOf? {
      if d == B {
        SetTwice(o.surfaces, T, NoSurface, Solid);
        SetGetSame(o.surfaces, T, Solid);
      } else if CubeClosesRoof(D, d, o) {
        SetTwice(o.surfaces, d.Opposite(), NoSurface, Solid);
        SetGetSame(o.surfaces, d.Opposite(), Solid);
      }
    }
  }

  /** The joins seen from both sides agree: a cube facing a roof is the cube that closes that roof. */
  lemma CubeAndRoofAgree(cubeSide: Dir, roofDirection: Dir, s: Surfaces)
    requires RoofFacesCube(cubeSide, RoofOf(roofDirection, true))
    ensures CubeClosesRoof(roofDirection, cubeSide.Opposite(), CubeOf(s))
  {
  }

  // ---------------------------------------------------------------------
  // All six neighbours at once

  function CubeNeighboursAfterInsert(nb: Neighbours): (r: Neighbours)
    ensures forall d: Dir :: r.At(d) == CubeNeighbourAfterInsert(d, nb.At(d))
  {
    Context3D(CubeNeighbourAfterInsert(W, nb.w), CubeNeighbourAfterInsert(N, nb.n),
      CubeNeighbourAfterInsert(E, nb.e), CubeNeighbourAfterInsert(S, nb.s),
      CubeNeighbourAfterInsert(T, nb.t), CubeNeighbourAfterInsert(B, nb.b))
  }

  function CubeNeighboursBeforeRemove(nb: Neighbours): (r: Neighbours)
    ensures forall d: Dir :: r.At(d) == CubeNeighbourBeforeRemove(d, nb.At(d))
  {
    Context3D(CubeNeighbourBeforeRemove(W, nb.w), CubeNeighbourBeforeRemove(N, nb.n),
      CubeNeighbourBeforeRemove(E, nb.e), CubeNeighbourBeforeRemove(S, nb.s),
      CubeNeighbourBeforeRemove(T, nb.t), CubeNeighbourBeforeRemove(B, nb.b))
  }

  function RoofNeighboursAfterInsert(D: Dir, nb: Neighbours): (r: Neighbours)
    ensures forall d: Dir :: r.At(d) == RoofNeighbourAfterInsert(D, d, nb.At(d))
  {
    Context3D(RoofNeighbourAfterInsert(D, W, nb.w), RoofNeighbourAfterInsert(D, N, nb.n),
      RoofNeighbourAfterInsert(D, E, nb.e), RoofNeighbourAfterInsert(D, S, nb.s),
      RoofNeighbourAfterInsert(D, T, nb.t), RoofNeighbourAfterInsert(D, B, nb.b))
  }

  function RoofNeighboursBeforeRemove(D: Dir, nb: Neighbours): (r: Neighbours)
    ensures forall d: Dir :: r.At(d) == RoofNeighbourBeforeRemove(D, d, nb.At(d))
  {
    Context3D(RoofNeighbourBeforeRemove(D, W, nb.w), RoofNeighbourBeforeRemove(D, N, nb.n),
      RoofNeighbourBeforeRemove(D, E, nb.e), RoofNeighbourBeforeRemove(D, S, nb.s),
      RoofNeighbourBeforeRemove(D, T, nb.t), RoofNeighbourBeforeRemove(D, B, nb.b))
  }

  /** Inserting and then removing a cube leaves unjoined neighbours exactly as they were. */
  lemma CubeRemoveRestoresNeighbours(nb: Neighbours)
    requires forall d: Dir :: UnjoinedFromCube(d, nb.At(d))
    ensures CubeNeighboursBeforeRemove(CubeNeighboursAfterInsert(nb)) == nb
  {
    CubeRemoveUndoesInsert(W, nb.At(W));
    CubeRemoveUndoesInsert(N, nb.At(N));
    CubeRemoveUndoesInsert(E, nb.At(E));
    CubeRemoveUndoesInsert(S, nb.At(S));
    CubeRemoveUndoesInsert(T, nb.At(T));
    CubeRemoveUndoesInsert(B, nb.At(B));
  }

  /** Inserting and then removing a roof leaves unjoined neighbours exactly as they were. */
  lemma RoofRemoveRestoresNeighbours(D: Dir, nb: Neighbours)
    requires forall d: Dir :: UnjoinedFromRoof(D, d, nb.At(d))
    ensures RoofNeighboursBeforeRemove(D, RoofNeighboursAfterInsert(D, nb)) == nb
  {
    RoofRemoveUndoesInsert(D, W, nb.At(W));
    RoofRemoveUndoesInsert(D, N, nb.At(N));
    RoofRemoveUndoesInsert(D, E, nb.At(E));
    RoofRemoveUndoesInsert(D, S, nb.At(S));
    RoofRemoveUndoesInsert(D, T, nb.At(T));
    RoofRemoveUndoesInsert(D, B, nb.At(B));
  }

  /** What removing the occupant `removed` does to its neighbour on side d: only cubes and roofs have a hook. */
  function NeighbourBeforeRemove(removed: Occupant, d: Dir, o: Occupant): Occupant
  {
    match removed
    case CubeOf(_) => CubeNeighbourBeforeRemove(d, o)
    case RoofOf(D, _) => RoofNeighbourBeforeRemove(D, d, o)
    case _ => o
  }

  /** All six neighbours, before `removed` leaves. */
  function NeighboursBeforeRemove(removed: Occupant, nb: Neighbours): (r: Neighbours)
    ensures forall d: Dir :: r.At(d) == NeighbourBeforeRemove(removed, d, nb.At(d))
  {
    match removed
    case CubeOf(_) => CubeNeighboursBeforeRemove(nb)
    case RoofOf(D, _) => RoofNeighboursBeforeRemove(D, nb)
    case _ => nb
  }

  // ---------------------------------------------------------------------
  // Shared walls

  /** b sits on side d of a; when both are cubes, their shared wall looks the same from either side. */
  predicate WallAgrees(a: Occupant, d: Dir, b: Occupant)
  {
    a.CubeOf? && b.CubeOf? ==> a.surfaces.Get(d) == b.surfaces.Get(d.Opposite())
  }

  lemma WallAgreesSymmetric(a: Occupant, d: Dir, b: Occupant)
    ensures WallAgrees(a, d, b) <==> WallAgrees(b, d.Opposite(), a)
  {
    OppositeInvolutive(d);
  }

  /** o2 is o1 with at most side f changed; it is a cube exactly when o1 is one. */
  predicate OnlySideChanged(o1: Occupant, o2: Occupant, f: Dir)
  {
    o1.CubeOf? == o2.CubeOf?
    && (o1.CubeOf? ==> forall g: Dir :: g != f ==> o2.surfaces.Get(g) == o1.surfaces.Get(g))
  }

  /** A neighbour of an inserted cube changes at most on the side facing the cube. */
  lemma CubeInsertTouchesFacingSide(d: Dir, o: Occupant)
    ensures OnlySideChanged(o, CubeNeighbourAfterInsert(d, o), d.Opposite())
  {
  }

  lemma CubeRemoveTouchesFacingSide(d: Dir, o: Occupant)
    ensures OnlySideChanged(o, CubeNeighbourBeforeRemove(d, o), d.Opposite())
  {
  }

  /** A neighbour of an inserted roof changes at most on the side facing the roof. */
  lemma RoofInsertTouchesFacingSide(D: Dir, d: Dir, o: Occupant)
    ensures OnlySideChanged(o, RoofNeighbourAfterInsert(D, d, o), d.Opposite())
  {
  }

  lemma RoofRemoveTouchesFacingSide(D: Dir, d: Dir, o: Occupant)
    ensures OnlySideChanged(o, RoofNeighbourBeforeRemove(D, d, o), d.Opposite())
  {
  }

  lemma RemoveTouchesFacingSide(removed: Occupant, d: Dir, o: Occupant)
    ensures OnlySideChanged(o, NeighbourBeforeRemove(removed, d, o), d.Opposite())
  {
    match removed
    case CubeOf(_) => CubeRemoveTouchesFacingSide(d, o);
    case RoofOf(D, _) => RoofRemoveTouchesFacingSide(D, d, o);
    case _ =>
  }

  /** An inserted cube and each horizontal neighbour agree on their shared wall. */
  lemma InsertedCubeAgrees(s: Surfaces, nb: Neighbours, d: Dir)
    requires d.Horizontal()
    ensures WallAgrees(CubeOf(CubeSelfAfterInsert(s, nb)), d, CubeNeighbourAfterInsert(d, nb.At(d)))
  {
  }

  /** A wall that neither side touched still agrees. */
  lemma UntouchedWallAgrees(a1: Occupant, a2: Occupant, fa: Dir, d: Dir, b1: Occupant, b2: Occupant, fb: Dir)
    requires OnlySideChanged(a1, a2, fa) && fa != d
    requires OnlySideChanged(b1, b2, fb) && fb != d.Opposite()
    requires WallAgrees(a1, d, b1)
    ensures WallAgrees(a2, d, b2)
  {
  }

  // ---------------------------------------------------------------------
  // setSurface

  /** A roof's `setSurface`: only an opened side opposite the slope clears the flag. */
  function RoofFlagAfterSetSurface(D: Dir, flag: bool, side: Dir, v: Surface): (r: bool)
    ensures r != flag ==> flag && !r && v == NoSurface && side.Horizontal() && D == side.Opposite()
  {
    if v == NoSurface && side.Horizontal() && D == side.Opposite() then false else flag
  }

  /** `setSurface` on whatever occupies a slot; empty slots and trees ignore it. */
  function SetSurfaceOn(o: Occupant, side: Dir, v: Surface): Occupant
  {
    match o
    case CubeOf(s) => CubeOf(s.Set(side, v))
    case RoofOf(D, flag) => RoofOf(D, RoofFlagAfterSetSurface(D, flag, side, v))
    case _ => o
  }

  /** `setSurface` changes at most the named side. */
  lemma SetSurfaceTouchesOneSide(o: Occupant, side: Dir, v: Surface)
    ensures OnlySideChanged(o, SetSurfaceOn(o, side, v), side)
  {
  }

  /** Setting the same surface on both sides of a wall makes the wall agree. */
  lemma SetSurfaceBothSidesAgrees(a: Occupant, d: Dir, b: Occupant, v: Surface)
    ensures WallAgrees(SetSurfaceOn(a, d, v), d, SetSurfaceOn(b, d.Opposite(), v))
  {
  }

  /** Setting the same surface twice is the same as setting it once. */
  lemma SetSurfaceIdempotent(o: Occupant, side: Dir, v: Surface)
    ensures SetSurfaceOn(SetSurfaceOn(o, side, v), side, v) == SetSurfaceOn(o, side, v)
  {
    if o.CubeOf? {
      SetTwice(o.surfaces, side, v, v);
    }
  }
}
