/**
 * The design world of src/js/sessionAPI/Design.js: a 17 x 17 x 7 grid of
 * cells that holds references to design objects. Cubes and roofs are joined
 * to their neighbours by their hooks when they are added and before they are
 * removed; reads and writes outside the grid are ignored.
 *
 * The ghost map `at` remembers where each object was put. The invariant
 * `Valid` says every object in the grid sits at the position recorded for
 * it, so no object is shared between two cells; this is what lets the hooks
 * treat the six neighbours as separate objects.
 */
module SessionDesign {
  import opened Common
  import opened Helpers
  import opened Grids
  import opened Joins
  import opened SessionObjects

  /**
   * `getCardinalSide`: the side of the cell that the 2-D side of its picture
   * shows from a camera. Top and bottom are up and down on the side cameras,
   * north and south on the plan cameras.
   */
  function CardinalSide(camera: Camera, side: ScreenSide): Dir
  {
    match side
    case TopSide | BottomSide =>
      (match camera
       case North | South | East | West => if side == TopSide then T else B
       case Bottom => if side == TopSide then S else N
       case Top => if side == TopSide then N else S)
    case LeftSide | RightSide =>
      (match camera
       case North => if side == LeftSide then W else E
       case South => if side == LeftSide then E else W
       case East => if side == LeftSide then N else S
       case West => if side == LeftSide then S else N
       case Bottom | Top => if side == LeftSide then W else E)
  }

  /** The other side of a drawn square: left and right, top and bottom. */
  function FlipSide(side: ScreenSide): (r: ScreenSide)
    ensures r != side
  {
    match side
    case TopSide => BottomSide
    case BottomSide => TopSide
    case LeftSide => RightSide
    case RightSide => LeftSide
  }

  /** Opposite sides of the picture are opposite sides of the cell, for every camera. */
  lemma CardinalSideOfFlip(camera: Camera, side: ScreenSide)
    ensures CardinalSide(camera, FlipSide(side)) == CardinalSide(camera, side).Opposite()
  {
  }

  /** Different sides of the picture are different sides of the cell. */
  lemma CardinalSideInjective(camera: Camera, s1: ScreenSide, s2: ScreenSide)
    requires CardinalSide(camera, s1) == CardinalSide(camera, s2)
    ensures s1 == s2
  {
  }

  /** The side cameras show the top and bottom of a cell; the plan cameras show only walls. */
  lemma CardinalSideVertical(camera: Camera, side: ScreenSide)
    ensures !CardinalSide(camera, side).Horizontal()
        <==> camera in {North, South, East, West} && side in {TopSide, BottomSide}
  {
  }

  /** q is one of the six face neighbours of p. */
  predicate Adjacent(p: Pos, q: Pos)
  {
    q == Neighbour(p, W) || q == Neighbour(p, N) || q == Neighbour(p, E)
    || q == Neighbour(p, S) || q == Neighbour(p, T) || q == Neighbour(p, B)
  }

  lemma NeighboursDiffer(p: Pos, d1: Dir, d2: Dir)
    requires d1 != d2
    ensures Neighbour(p, d1) != Neighbour(p, d2) && Neighbour(p, d1) != p
  {
  }

  /** The side of q that faces p, for a neighbour q of p. */
  function DirTo(p: Pos, q: Pos): (d: Dir)
    requires Adjacent(p, q)
    ensures Neighbour(p, d) == q
  {
    if q == Neighbour(p, W) then W
    else if q == Neighbour(p, N) then N
    else if q == Neighbour(p, E) then E
    else if q == Neighbour(p, S) then S
    else if q == Neighbour(p, T) then T
    else B
  }

  lemma NeighbourInjective(p: Pos, q: Pos, d: Dir)
    requires Neighbour(p, d) == Neighbour(q, d)
    ensures p == q
  {
  }

  // ---------------------------------------------------------------------
  // Ownership: which object sits where

  /** The cell's object, if any, is recorded at position q. */
  ghost predicate Owned(at: map<object, Pos>, c: Cell, q: Pos)
  {
    match c
    case CubeCell(k) => k in at && at[k] == q
    case RoofCell(r) => r in at && at[r] == q
    case _ => true
  }

  /** Every object in the grid is recorded at its own position. */
  ghost predicate AllOwned(g: Grid<Cell>, at: map<object, Pos>)
    requires WellFormed(g)
  {
    forall z, y, x :: 0 <= z < ZMax && 0 <= y < YMax && 0 <= x < XMax ==> Owned(at, g[z][y][x], Pos(x, y, z))
  }

  lemma OwnedCell(g: Grid<Cell>, at: map<object, Pos>, q: Pos)
    requires WellFormed(g) && AllOwned(g, at)
    ensures Owned(at, CellAt(g, q, Empty), q)
    ensures Objects(CellAt(g, q, Empty)) <= at.Keys
    ensures forall o :: o in Objects(CellAt(g, q, Empty)) ==> at[o] == q
  {
    if InGrid(q) {
      assert Owned(at, g[q.z][q.y][q.x], Pos(q.x, q.y, q.z));
    }
  }

  /** Recording an object that is not in the grid keeps every cell owned. */
  lemma OwnedAfterRecord(g: Grid<Cell>, at: map<object, Pos>, k: object, p: Pos)
    requires WellFormed(g) && AllOwned(g, at) && k !in at
    ensures AllOwned(g, at[k := p])
  {
    forall z, y, x | 0 <= z < ZMax && 0 <= y < YMax && 0 <= x < XMax
      ensures Owned(at[k := p], g[z][y][x], Pos(x, y, z))
    {
      assert Owned(at, g[z][y][x], Pos(x, y, z));
    }
  }

  /** Writing an owned cell keeps every cell owned. */
  lemma OwnedAfterUpdate(g: Grid<Cell>, at: map<object, Pos>, p: Pos, c: Cell)
    requires WellFormed(g) && AllOwned(g, at) && Owned(at, c, p)
    ensures AllOwned(Updated(g, p, c), at)
  {
    var g' := Updated(g, p, c);
    forall z, y, x | 0 <= z < ZMax && 0 <= y < YMax && 0 <= x < XMax
      ensures Owned(at, g'[z][y][x], Pos(x, y, z))
    {
      UpdatedAt(g, p, c, Pos(x, y, z), Empty);
      assert Owned(at, g[z][y][x], Pos(x, y, z));
    }
  }

  // ---------------------------------------------------------------------
  // The context of a cell

  /** `getCellContext3D(objects, p)`, with the `null` of a missing cell read as `Empty`. */
  function ContextIn(g: Grid<Cell>, p: Pos): Context3D<Cell>
    requires WellFormed(g)
  {
    Context3D(CellAt(g, Neighbour(p, W), Empty), CellAt(g, Neighbour(p, N), Empty), CellAt(g, Neighbour(p, E), Empty),
      CellAt(g, Neighbour(p, S), Empty), CellAt(g, Neighbour(p, T), Empty), CellAt(g, Neighbour(p, B), Empty))
  }

  lemma ContextInAt(g: Grid<Cell>, p: Pos, d: Dir)
    requires WellFormed(g)
    ensures ContextIn(g, p).At(d) == CellAt(g, Neighbour(p, d), Empty)
  {
  }

  /** The context is exactly the bounds-checked lookup of `getCellContext3D`. */
  lemma ContextInIsCellContext3D(g: Grid<Cell>, p: Pos, d: Dir)
    requires WellFormed(g)
    ensures ContextIn(g, p).At(d) == OrEmpty(CellContext3D(g, p).At(d))
  {
    CellContext3DAt(g, p, d);
    GetSafe3DIsCellAt(g, Neighbour(p, d), Empty);
  }

  /**
   * The six slots of a context hold objects recorded at six different
   * positions, none of them p, so they are separate from each other and
   * from any object k that is new or recorded at p.
   */
  lemma ContextSeparate(g: Grid<Cell>, at: map<object, Pos>, p: Pos, k: object)
    requires WellFormed(g) && AllOwned(g, at) && (k in at ==> at[k] == p)
    ensures Separate(k, ContextIn(g, p))
    ensures ContextObjects(ContextIn(g, p)) <= at.Keys
  {
    var ctx := ContextIn(g, p);
    forall d: Dir
      ensures Objects(ctx.At(d)) <= at.Keys
      ensures forall o :: o in Objects(ctx.At(d)) ==> at[o] == Neighbour(p, d)
      ensures k !in Objects(ctx.At(d))
    {
      ContextInAt(g, p, d);
      OwnedCell(g, at, Neighbour(p, d));
      NeighboursDiffer(p, d, if d == N then S else N);
    }
    assert ctx.w == ctx.At(W) && ctx.n == ctx.At(N) && ctx.e == ctx.At(E);
    assert ctx.s == ctx.At(S) && ctx.t == ctx.At(T) && ctx.b == ctx.At(B);
    forall d1: Dir, d2: Dir | d1 != d2
      ensures Objects(ctx.At(d1)) !! Objects(ctx.At(d2))
    {
      NeighboursDiffer(p, d1, d2);
    }
  }

  /** Away from p and its neighbours, no cell holds an object of the context of p. */
  lemma FarFromContext(g: Grid<Cell>, at: map<object, Pos>, p: Pos, q: Pos)
    requires WellFormed(g) && AllOwned(g, at) && q != p && !Adjacent(p, q)
    ensures Objects(CellAt(g, q, Empty)) !! ContextObjects(ContextIn(g, p))
  {
    OwnedCell(g, at, q);
    var mine := Objects(CellAt(g, q, Empty));
    var ctx := ContextIn(g, p);
    forall d: Dir
      ensures mine !! Objects(ctx.At(d))
    {
      ContextInAt(g, p, d);
      OwnedCell(g, at, Neighbour(p, d));
      assert q != Neighbour(p, d);
    }
    assert ctx.w == ctx.At(W) && ctx.n == ctx.At(N) && ctx.e == ctx.At(E);
    assert ctx.s == ctx.At(S) && ctx.t == ctx.At(T) && ctx.b == ctx.At(B);
  }

  /** Two different cells never hold the same object. */
  lemma CellsSeparate(g: Grid<Cell>, at: map<object, Pos>, p: Pos, q: Pos)
    requires WellFormed(g) && AllOwned(g, at) && p != q
    ensures Objects(CellAt(g, p, Empty)) !! Objects(CellAt(g, q, Empty))
  {
    OwnedCell(g, at, p);
    OwnedCell(g, at, q);
  }

  /**
   * The calls `fill` makes, in order: where, which object number, and the
   * roof direction (`'w'`, `'e'`, `'s'`, `'n'`). Cubes get no modifier in
   * the source; their third entry is ignored.
   */
  const SampleScene: seq<(Pos, int, Dir)> := [
    (Pos(11, 3, 0), CUBE, N),
    (Pos(11, 3, 1), CUBE, N),
    (Pos(11, 3, 2), ROOF, W),

    (Pos(12, 3, 0), CUBE, N),
    (Pos(12, 3, 1), CUBE, N),
    (Pos(12, 3, 2), ROOF, E),

    (Pos(13, 3, 0), CUBE, N),
    (Pos(13, 3, 1), ROOF, E),

    (Pos(14, 3, 0), CUBE, N),

    (Pos(15, 3, 0), CUBE, N),

    (Pos(16, 3, 0), TREE, N),

    (Pos(9, 13, 0), CUBE, N),
    (Pos(9, 13, 1), ROOF, S),

    (Pos(9, 14, 0), CUBE, N),
    (Pos(9, 14, 1), ROOF, N),

    (Pos(13, 5, 4), ROOF, E),

    (Pos(5, 0, 1), ROOF, E),
    (Pos(7, 0, 0), CUBE, N),
    (Pos(9, 0, 0), CUBE, N),
    (Pos(10, 0, 0), CUBE, N),

    (Pos(1, 1, 2), CUBE, N),
    (Pos(2, 1, 2), CUBE, N),
    (Pos(1, 2, 2), CUBE, N),
    (Pos(2, 2, 2), CUBE, N),
    (Pos(1, 2, 3), CUBE, N),
    (Pos(2, 2, 3), CUBE, N),

    (Pos(4, 2, 5), ROOF, S),
    (Pos(4, 2, 5), ROOF, N),

    (Pos(4, 2, 5), ROOF, S),
    (Pos(4, 2, 5), ROOF, N)
  ]

  // ---------------------------------------------------------------------
  // The design as a value

  /** What a cell holds, as a value: a cube's surfaces, a roof's direction and side flag, or a part of a tree. */
  datatype Piece = NoPiece | CubePiece(surfaces: Surfaces) | RoofPiece(direction: Dir, hasSideSurface: bool) | TrunkPiece | FoliagePiece

  function PieceOf(c: Cell): Piece
    reads Objects(c)
  {
    match c
    case Empty => NoPiece
    case CubeCell(k) => CubePiece(k.surfaces)
    case RoofCell(r) => RoofPiece(r.direction, r.hasSideSurface)
    case TrunkCell => TrunkPiece
    case FoliageCell => FoliagePiece
  }

  /** The state the join rules see in a piece. */
  function OccOf(pc: Piece): Occupant
  {
    match pc
    case NoPiece => Vacant
    case CubePiece(s) => CubeOf(s)
    case RoofPiece(d, f) => RoofOf(d, f)
    case _ => OtherObject
  }

  /** A cube or a roof takes the state the join rules gave its object; other pieces have no state to change. */
  function Rejoined(pc: Piece, o: Occupant): Piece
  {
    match pc
    case CubePiece(_) => if o.CubeOf? then CubePiece(o.surfaces) else pc
    case RoofPiece(_, _) => if o.RoofOf? then RoofPiece(o.direction, o.hasSideSurface) else pc
    case _ => pc
  }

  /** A whole design as a value: the piece in every cell of the grid. */
  type World = Pos -> Piece

  const EmptyWorld: World := q => NoPiece

  /** What the join rules see at q; outside the grid a cell is empty. */
  function Seen(w: World, q: Pos): Occupant
  {
    if InGrid(q) then OccOf(w(q)) else Vacant
  }

  /** The six neighbours of p in a world, as `getCellContext3D` hands them to the hooks. */
  function Around(w: World, p: Pos): Neighbours
  {
    Context3D(Seen(w, Neighbour(p, W)), Seen(w, Neighbour(p, N)), Seen(w, Neighbour(p, E)),
              Seen(w, Neighbour(p, S)), Seen(w, Neighbour(p, T)), Seen(w, Neighbour(p, B)))
  }

  /** `add(CUBE, p)` on a world: a cube joined to what it sees around p, and each neighbour joined to it. */
  function CubeWorld(w: World, p: Pos): World
  {
    q => if q == p then CubePiece(CubeSelfAfterInsert(AllSolid, Around(w, p)))
         else if Adjacent(p, q) then Rejoined(w(q), CubeNeighbourAfterInsert(DirTo(p, q), OccOf(w(q))))
         else w(q)
  }

  /** `add(ROOF, p, modifier)` on a world. */
  function RoofWorld(w: World, p: Pos, modifier: Dir): World
  {
    q => if q == p then RoofPiece(modifier, RoofFlagAfterInsert(false, modifier, Around(w, p)))
         else if Adjacent(p, q) then Rejoined(w(q), RoofNeighbourAfterInsert(modifier, DirTo(p, q), OccOf(w(q))))
         else w(q)
  }

  /** `add(TREE, p)` on a world: trunk at p and foliage above, when the guard on y lets it through. */
  function TreeWorld(w: World, p: Pos): World
  {
    if p.y < YMax - 1 then
      q => if q == p then TrunkPiece else if q == Neighbour(p, T) then FoliagePiece else w(q)
    else w
  }

  /** `add(obj, p, modifier)` on a world; an unknown object number changes nothing. */
  function AddWorld(w: World, obj: int, p: Pos, modifier: Dir): World
  {
    if obj == TREE then TreeWorld(w, p)
    else if obj == CUBE then CubeWorld(w, p)
    else if obj == ROOF then RoofWorld(w, p, modifier)
    else w
  }

  /** The world after the calls of `entries`, in order, starting from w. */
  function Scene(w: World, entries: seq<(Pos, int, Dir)>): World
  {
    if |entries| == 0 then w
    else
      var n := |entries| - 1;
      AddWorld(Scene(w, entries[..n]), entries[n].1, entries[n].0, entries[n].2)
  }

  /** One more call: the world after the first i + 1 calls is call i applied to the world after the first i. */
  lemma SceneStep(w: World, entries: seq<(Pos, int, Dir)>, i: nat)
    requires i < |entries|
    ensures Scene(w, entries[..i + 1]) == AddWorld(Scene(w, entries[..i]), entries[i].1, entries[i].0, entries[i].2)
  {
    assert entries[..i + 1][..i] == entries[..i];
  }

  /** Which kind of object a piece is, and where a roof slopes. */
  datatype Kind = NoKind | CubeKind | RoofKind(direction: Dir) | TrunkKind | FoliageKind

  function KindOf(pc: Piece): Kind
  {
    match pc
    case NoPiece => NoKind
    case CubePiece(_) => CubeKind
    case RoofPiece(d, _) => RoofKind(d)
    case TrunkPiece => TrunkKind
    case FoliagePiece => FoliageKind
  }

  /**
   * The kind the last call of `entries` that writes q puts there: a cube or
   * a roof at its own cell, a trunk and the foliage above it for a tree the
   * guard lets through; `before` when no call writes q.
   */
  function LastKind(entries: seq<(Pos, int, Dir)>, q: Pos, before: Kind): Kind
  {
    if |entries| == 0 then before
    else
      var n := |entries| - 1;
      var (p, obj, modifier) := entries[n];
      if q == p && obj == CUBE then CubeKind
      else if q == p && obj == ROOF then RoofKind(modifier)
      else if obj == TREE && p.y < YMax - 1 && q == p then TrunkKind
      else if obj == TREE && p.y < YMax - 1 && q == Neighbour(p, T) then FoliageKind
      else LastKind(entries[..n], q, before)
  }

  /** Joining a neighbour changes its state but never its kind, nor the slope of a roof. */
  lemma RejoinedKeepsKind(pc: Piece, d: Dir, roof: Dir)
    ensures KindOf(Rejoined(pc, CubeNeighbourAfterInsert(d, OccOf(pc)))) == KindOf(pc)
    ensures KindOf(Rejoined(pc, RoofNeighbourAfterInsert(roof, d, OccOf(pc)))) == KindOf(pc)
  {
  }

  /**
   * Replaying calls of `add` leaves in every cell an object of the kind the
   * last call that wrote it put there: the joins of later calls change
   * surfaces and flags, never what stands in a cell.
   */
  lemma {:induction false} SceneKinds(w: World, entries: seq<(Pos, int, Dir)>, q: Pos)
    ensures KindOf(Scene(w, entries)(q)) == LastKind(entries, q, KindOf(w(q)))
  {
    if |entries| > 0 {
      var n := |entries| - 1;
      var (p, obj, modifier) := entries[n];
      var v := Scene(w, entries[..n]);
      SceneKinds(w, entries[..n], q);
      if q != p && Adjacent(p, q) {
        RejoinedKeepsKind(v(q), DirTo(p, q), modifier);
      }
    }
  }

  // ---------------------------------------------------------------------
  // The design

  class Design {
    var objects: Grid<Cell>
    ghost var at: map<object, Pos>

    ghost predicate Valid()
      reads this
    {
      WellFormed(objects) && this !in at && AllOwned(objects, at)
    }

    /** `_getCell`: the cell at p, or `null` outside the grid. */
    function GetCell(p: Pos): (c: Cell)
      reads this
      requires WellFormed(objects)
      ensures !InGrid(p) ==> c == Empty
      ensures InGrid(p) ==> c == objects[p.z][p.y][p.x]
    {
      CellAt(objects, p, Empty)
    }

    /** The state of the object at q, as the join rules see it. */
    function OccAt(q: Pos): Occupant
      reads this, Objects(GetCell(q))
      requires WellFormed(objects)
    {
      Occ(GetCell(q))
    }

    /**
     * Horizontally adjacent cubes show their shared wall the same way from
     * both sides: both open or both closed.
     */
    ghost predicate WallsAgree()
      reads this, at.Keys
      requires Valid()
    {
      forall q: Pos, e: Dir :: InGrid(q) && e.Horizontal() && InGrid(Neighbour(q, e)) ==>
        (OwnedCell(objects, at, q); OwnedCell(objects, at, Neighbour(q, e));
         WallAgrees(OccAt(q), e, OccAt(Neighbour(q, e))))
    }

    /** `_setCell`: the write is ignored outside the grid. */
    method SetCell(p: Pos, c: Cell)
      requires Valid() && Owned(at, c, p)
      modifies this
      ensures Valid() && at == old(at)
      ensures objects == Updated(old(objects), p, c)
    {
      if InGrid(p) {
        OwnedAfterUpdate(objects, at, p, c);
        objects := Updated(objects, p, c);
      } else {
        UpdatedOutside(objects, p, c);
      }
    }

    /** Recording a new object keeps the invariant. */
    method Record(k: object, p: Pos)
      requires Valid() && k !in at && k != this
      modifies this
      ensures Valid() && objects == old(objects) && at == old(at)[k := p]
    {
      OwnedAfterRecord(objects, at, k, p);
      at := at[k := p];
    }

    // -------------------------------------------------------------------
    // The effect of each operation, over the cells of the grid

    /** Every cell other than p and its neighbours kept its object, and that object its state. */
    twostate predicate FarCellsKept(p: Pos)
      reads this, at.Keys
      requires old(Valid()) && Valid()
    {
      forall q :: InGrid(q) && q != p && !Adjacent(p, q) ==>
        (OwnedCell(objects, at, q);
         GetCell(q) == old(GetCell(q)) && OccAt(q) == old(OccAt(q)))
    }

    /** Each neighbour of p kept its object. */
    twostate predicate NeighboursKept(p: Pos)
      reads this
      requires old(Valid()) && Valid()
    {
      forall d: Dir :: InGrid(Neighbour(p, d)) ==> GetCell(Neighbour(p, d)) == old(GetCell(Neighbour(p, d)))
    }

    /**
     * The effect of `add(CUBE, p)`: a fresh cube at p whose sides follow the
     * neighbours seen before the write; each neighbour keeps its object and
     * is joined as the cube rules say; nothing else changes.
     */
    twostate predicate CubeAdded(p: Pos)
      reads this, at.Keys
      requires old(Valid()) && Valid()
    {
      CubeAt(p) && NeighboursKept(p) && CubeNeighboursJoined(p) && FarCellsKept(p)
    }

    /** A fresh cube at p whose sides follow the neighbours seen before the write. */
    twostate predicate CubeAt(p: Pos)
      reads this, at.Keys
      requires old(Valid()) && Valid()
    {
      InGrid(p) ==>
        GetCell(p).CubeCell? && fresh(GetCell(p).cube)
        && OccAt(p) == CubeOf(CubeSelfAfterInsert(AllSolid, old(Snapshot(ContextIn(objects, p)))))
    }

    /** Each neighbour of a cube placed at p is joined as the cube rules say. */
    twostate predicate CubeNeighboursJoined(p: Pos)
      reads this, at.Keys
      requires old(Valid()) && Valid()
    {
      forall d: Dir :: InGrid(Neighbour(p, d)) ==>
        (OwnedCell(objects, at, Neighbour(p, d));
         OccAt(Neighbour(p, d)) == CubeNeighbourAfterInsert(d, old(OccAt(Neighbour(p, d)))))
    }

    /** The effect of `add(ROOF, p, modifier)`, in the same terms. */
    twostate predicate RoofAdded(p: Pos, modifier: Dir)
      reads this, at.Keys
      requires old(Valid()) && Valid()
    {
      RoofAt(p, modifier) && NeighboursKept(p) && RoofNeighboursJoined(p, modifier) && FarCellsKept(p)
    }

    /** A fresh roof at p facing `modifier`, its side surface as the neighbours seen before the write decide. */
    twostate predicate RoofAt(p: Pos, modifier: Dir)
      reads this, at.Keys
      requires old(Valid()) && Valid()
    {
      InGrid(p) ==>
        GetCell(p).RoofCell? && fresh(GetCell(p).roof)
        && OccAt(p) == RoofOf(modifier, RoofFlagAfterInsert(false, modifier, old(Snapshot(ContextIn(objects, p)))))
    }

    /** Each neighbour of a roof placed at p facing `modifier` is joined as the roof rules say. */
    twostate predicate RoofNeighboursJoined(p: Pos, modifier: Dir)
      reads this, at.Keys
      requires old(Valid()) && Valid()
    {
      forall d: Dir :: InGrid(Neighbour(p, d)) ==>
        (OwnedCell(objects, at, Neighbour(p, d));
         OccAt(Neighbour(p, d)) == RoofNeighbourAfterInsert(modifier, d, old(OccAt(Neighbour(p, d)))))
    }

    /**
     * A write of c at p, with hooks that changed only the objects of the
     * context of p: the neighbours keep their objects and now have the
     * context's state.
     */
    twostate lemma PlacedNeighbours(p: Pos, new c: Cell)
      requires old(Valid()) && Valid()
      requires objects == Updated(old(objects), p, c)
      ensures NeighboursKept(p)
      ensures forall d: Dir :: InGrid(Neighbour(p, d)) ==>
        OccAt(Neighbour(p, d)) == Snapshot(old(ContextIn(objects, p))).At(d)
        && old(OccAt(Neighbour(p, d))) == old(Snapshot(ContextIn(objects, p))).At(d)
    {
      forall d: Dir | InGrid(Neighbour(p, d))
        ensures GetCell(Neighbour(p, d)) == old(GetCell(Neighbour(p, d)))
        ensures OccAt(Neighbour(p, d)) == Snapshot(old(ContextIn(objects, p))).At(d)
        ensures old(OccAt(Neighbour(p, d))) == old(Snapshot(ContextIn(objects, p))).At(d)
      {
        PlacedNeighbour(p, c, d);
      }
    }

    /** One neighbour of the write. */
    twostate lemma PlacedNeighbour(new p: Pos, new c: Cell, new d: Dir)
      requires old(Valid()) && Valid()
      requires objects == Updated(old(objects), p, c)
      ensures GetCell(Neighbour(p, d)) == old(ContextIn(objects, p)).At(d) == old(GetCell(Neighbour(p, d)))
      ensures OccAt(Neighbour(p, d)) == Snapshot(old(ContextIn(objects, p))).At(d)
      ensures old(OccAt(Neighbour(p, d))) == old(Snapshot(ContextIn(objects, p))).At(d)
    {
      var g0 := old(objects);
      var ctx := ContextIn(g0, p);
      NeighboursDiffer(p, d, if d == N then S else N);
      UpdatedAt(g0, p, c, Neighbour(p, d), Empty);
      ContextInAt(g0, p, d);
      SnapshotAt(ctx, d);
      assert old(Snapshot(ctx).At(d) == Occ(ctx.At(d)));
    }

    /** ... and everything away from p is as it was. */
    twostate lemma PlacedFar(p: Pos, new c: Cell)
      requires old(Valid()) && Valid()
      requires objects == Updated(old(objects), p, c)
      requires unchanged(old(at.Keys) - old(ContextObjects(ContextIn(objects, p))))
      ensures FarCellsKept(p)
    {
      var g0 := old(objects);
      forall q | InGrid(q) && q != p && !Adjacent(p, q)
        ensures GetCell(q) == old(GetCell(q)) && OccAt(q) == old(OccAt(q))
      {
        UpdatedAt(g0, p, c, q, Empty);
        FarFromContext(g0, old(at), p, q);
        OwnedCell(g0, old(at), q);
      }
    }

    /** The hooks of a fresh cube written at p give the effect of `add(CUBE, p)`. */
    twostate lemma CubePlaced(p: Pos, new k: Cube)
      requires old(Valid()) && Valid() && fresh(k)
      requires objects == Updated(old(objects), p, CubeCell(k))
      requires unchanged(old(at.Keys) - old(ContextObjects(ContextIn(objects, p))))
      requires k.surfaces == CubeSelfAfterInsert(AllSolid, old(Snapshot(ContextIn(objects, p))))
      requires Snapshot(old(ContextIn(objects, p))) == CubeNeighboursAfterInsert(old(Snapshot(ContextIn(objects, p))))
      ensures CubeAdded(p)
    {
      PlacedNeighbours(p, CubeCell(k));
      PlacedFar(p, CubeCell(k));
      UpdatedAt(old(objects), p, CubeCell(k), p, Empty);
    }

    /** The hooks of a fresh roof written at p give the effect of `add(ROOF, p, modifier)`. */
    twostate lemma RoofPlaced(p: Pos, new r: Roof)
      requires old(Valid()) && Valid() && fresh(r)
      requires objects == Updated(old(objects), p, RoofCell(r))
      requires unchanged(old(at.Keys) - old(ContextObjects(ContextIn(objects, p))))
      requires r.hasSideSurface == RoofFlagAfterInsert(false, r.direction, old(Snapshot(ContextIn(objects, p))))
      requires Snapshot(old(ContextIn(objects, p))) == RoofNeighboursAfterInsert(r.direction, old(Snapshot(ContextIn(objects, p))))
      ensures RoofAdded(p, r.direction)
    {
      PlacedNeighbours(p, RoofCell(r));
      PlacedFar(p, RoofCell(r));
      UpdatedAt(old(objects), p, RoofCell(r), p, Empty);
    }

    /** `add(CUBE, p)`: the context is read first, then the cube is stored and joined. */
    method AddCube(p: Pos)
      requires Valid()
      modifies this, ContextObjects(ContextIn(objects, p))
      ensures Valid() && CubeAdded(p)
      ensures old(WallsAgree()) ==> WallsAgree()
      ensures old(at.Keys) <= at.Keys && fresh(at.Keys - old(at.Keys))
    {
      var ctx := ContextIn(objects, p);
      ghost var before := Snapshot(ctx);
      var k := new Cube();
      ContextSeparate(objects, at, p, k);
      Record(k, p);
      SetCell(p, CubeCell(k));
      assert Snapshot(ctx) == before;
      k.HookAfterInsert(ctx);
      CubePlaced(p, k);
      if old(WallsAgree()) {
        CubeAddedKeepsWalls(p);
      }
    }

    /** `add(ROOF, p, modifier)`. */
    method AddRoof(p: Pos, modifier: Dir)
      requires Valid()
      modifies this, ContextObjects(ContextIn(objects, p))
      ensures Valid() && RoofAdded(p, modifier)
      ensures old(WallsAgree()) ==> WallsAgree()
      ensures old(at.Keys) <= at.Keys && fresh(at.Keys - old(at.Keys))
    {
      var ctx := ContextIn(objects, p);
      ghost var before := Snapshot(ctx);
      var r := new Roof();
      ContextSeparate(objects, at, p, r);
      Record(r, p);
      SetCell(p, RoofCell(r));
      assert Snapshot(ctx) == before;
      r.HookAfterInsert(modifier, ctx);
      RoofPlaced(p, r);
      if old(WallsAgree()) {
        RoofAddedKeepsWalls(p, modifier);
      }
    }

    /** The effect of `add(TREE, p)` when the guard lets it through: trunk at p, foliage above. */
    twostate predicate TreeAdded(p: Pos)
      reads this, at.Keys
      requires old(Valid()) && Valid()
    {
      (InGrid(p) ==> GetCell(p) == TrunkCell)
      && (InGrid(Neighbour(p, T)) ==> GetCell(Neighbour(p, T)) == FoliageCell)
      && forall q :: InGrid(q) && q != p && q != Neighbour(p, T) ==>
        (OwnedCell(objects, at, q);
         GetCell(q) == old(GetCell(q)) && OccAt(q) == old(OccAt(q)))
    }

    /**
     * `add(TREE, p)`: the guard tests `y`, not `z`, so a tree may be put in
     * any layer; foliage above the top layer falls outside the grid and is
     * dropped, and whatever stood at either cell is overwritten without its
     * hook.
     */
    method AddTree(p: Pos) returns (ok: bool)
      requires Valid()
      modifies this
      ensures Valid() && at == old(at)
      ensures ok <==> p.y < YMax - 1
      ensures ok ==> TreeAdded(p)
      ensures !ok ==> objects == old(objects)
      ensures old(WallsAgree()) ==> WallsAgree()
    {
      if p.y < YMax - 1 {
        SetCell(p, TrunkCell);
        SetCell(Neighbour(p, T), FoliageCell);
        TreePlaced(p);
        if old(WallsAgree()) {
          TreeAddedKeepsWalls(p);
        }
        ok := true;
      } else {
        ok := false;
      }
    }

    twostate lemma TreePlaced(new p: Pos)
      requires old(Valid()) && Valid() && at == old(at)
      requires objects == Updated(Updated(old(objects), p, TrunkCell), Neighbour(p, T), FoliageCell)
      requires unchanged(old(at.Keys))
      ensures TreeAdded(p)
    {
      var g0 := old(objects);
      var g1 := Updated(g0, p, TrunkCell);
      NeighboursDiffer(p, T, B);
      UpdatedAt(g0, p, TrunkCell, p, Empty);
      UpdatedAt(g1, Neighbour(p, T), FoliageCell, p, Empty);
      UpdatedAt(g1, Neighbour(p, T), FoliageCell, Neighbour(p, T), Empty);
      forall q | InGrid(q) && q != p && q != Neighbour(p, T)
        ensures GetCell(q) == old(GetCell(q)) && OccAt(q) == old(OccAt(q))
      {
        UpdatedAt(g0, p, TrunkCell, q, Empty);
        UpdatedAt(g1, Neighbour(p, T), FoliageCell, q, Empty);
        OwnedCell(g0, at, q);
      }
    }

    /** The effect of a call of `add(obj, p, modifier)`. */
    twostate predicate Added(obj: int, p: Pos, modifier: Dir, ok: bool)
      reads this, at.Keys
      requires old(Valid()) && Valid()
    {
      (ok <==> obj == CUBE || obj == ROOF || (obj == TREE && p.y < YMax - 1))
      && (obj == CUBE ==> CubeAdded(p))
      && (obj == ROOF ==> RoofAdded(p, modifier))
      && (obj == TREE && ok ==> TreeAdded(p))
      && (!ok ==> objects == old(objects) && at == old(at))
    }

    /**
     * `add(obj, p, modifier)`: cubes and roofs are stored and joined, trees
     * planted when the guard allows; any other object number is refused.
     * Every object recorded by the call is new.
     */
    method Add(obj: int, p: Pos, modifier: Dir) returns (ok: bool)
      requires Valid()
      modifies this, ContextObjects(ContextIn(objects, p))
      ensures Valid() && Added(obj, p, modifier, ok)
      ensures old(WallsAgree()) ==> WallsAgree()
      ensures old(at.Keys) <= at.Keys && fresh(at.Keys - old(at.Keys))
      ensures !ok ==> unchanged(old(at.Keys))
    {
      if obj == TREE {
        ok := AddTree(p);
      } else if obj == CUBE {
        AddCube(p);
        ok := true;
      } else if obj == ROOF {
        AddRoof(p, modifier);
        ok := true;
      } else {
        ok := false;
      }
    }

    /** The effect of `remove(p)`: the removed object's hook unjoined the neighbours, then p was emptied. */
    twostate predicate Removed(p: Pos)
      reads this, at.Keys
      requires old(Valid()) && Valid()
    {
      GetCell(p) == Empty
      && NeighboursKept(p)
      && (forall d: Dir :: InGrid(Neighbour(p, d)) ==>
            (OwnedCell(objects, at, Neighbour(p, d)); OwnedCell(old(objects), old(at), p);
             OccAt(Neighbour(p, d)) == NeighbourBeforeRemove(old(OccAt(p)), d, old(OccAt(Neighbour(p, d))))))
      && FarCellsKept(p)
    }

    /** Emptying p after hooks that changed only the context of p gives the effect of `remove(p)`. */
    twostate lemma Cleared(new p: Pos)
      requires old(Valid()) && Valid()
      requires objects == Updated(old(objects), p, Empty)
      requires unchanged(old(at.Keys) - old(ContextObjects(ContextIn(objects, p))))
      requires Snapshot(old(ContextIn(objects, p))) == NeighboursBeforeRemove(old(OccAt(p)), old(Snapshot(ContextIn(objects, p))))
      ensures Removed(p)
    {
      PlacedNeighbours(p, Empty);
      PlacedFar(p, Empty);
      UpdatedAt(old(objects), p, Empty, p, Empty);
    }

    /**
     * `remove(p)`. The `TREE` and `FOLIAGE` cases of the source compare the
     * cell's object with a number and never match, so every cell takes the
     * default branch: a cube or a roof runs its hook, and the cell is emptied.
     */
    method Remove(p: Pos)
      requires Valid()
      modifies this, ContextObjects(ContextIn(objects, p))
      ensures Valid() && at == old(at) && Removed(p)
      ensures old(WallsAgree()) ==> WallsAgree()
    {
      var obj := GetCell(p);
      var ctx := ContextIn(objects, p);
      OwnedCell(objects, at, p);
      ContextSeparate(objects, at, p, this);
      forall o | o in Objects(obj)
        ensures o !in ContextObjects(ctx)
      {
        ContextSeparate(objects, at, p, o);
      }
      HookBeforeRemoveOf(obj, ctx);
      SetCell(p, Empty);
      Cleared(p);
      if old(WallsAgree()) {
        RemovedKeepsWalls(p);
      }
    }

    /** The effect of `setSurface` on side d of p: the cell's object and the neighbour across d. */
    twostate predicate SurfaceSet(p: Pos, d: Dir, v: Surface)
      reads this, at.Keys
      requires old(Valid()) && Valid()
    {
      objects == old(objects)
      && (OwnedCell(objects, at, p);
          OccAt(p) == SetSurfaceOn(old(OccAt(p)), d, v))
      && (InGrid(Neighbour(p, d)) ==>
            (OwnedCell(objects, at, Neighbour(p, d));
             OccAt(Neighbour(p, d)) == SetSurfaceOn(old(OccAt(Neighbour(p, d))), d.Opposite(), v)))
      && forall q :: InGrid(q) && q != p && q != Neighbour(p, d) ==>
           (OwnedCell(objects, at, q);
            OccAt(q) == old(OccAt(q)))
    }

    /** Cells other than p and its neighbour across d hold objects that `setSurface` leaves alone. */
    twostate lemma SurfacesPlaced(new p: Pos, new d: Dir)
      requires old(Valid()) && Valid() && objects == old(objects) && at == old(at)
      requires unchanged(old(at.Keys) - Objects(GetCell(p)) - Objects(GetCell(Neighbour(p, d))))
      ensures forall q :: InGrid(q) && q != p && q != Neighbour(p, d) ==>
        (OwnedCell(objects, at, q); OccAt(q) == old(OccAt(q)))
    {
      forall q | InGrid(q) && q != p && q != Neighbour(p, d)
        ensures OccAt(q) == old(OccAt(q))
      {
        CellsSeparate(objects, at, q, p);
        CellsSeparate(objects, at, q, Neighbour(p, d));
        OwnedCell(objects, at, q);
      }
    }

    /**
     * `setSurface(camera, p, side, v)`: the side of the picture is turned
     * into a side of the cell; that side of the cell's object and the
     * opposite side of the neighbour across it are set.
     */
    method SetSurface(camera: Camera, p: Pos, side: ScreenSide, v: Surface)
      requires Valid()
      modifies Objects(GetCell(p)), Objects(GetCell(Neighbour(p, CardinalSide(camera, side))))
      ensures Valid() && at == old(at) && SurfaceSet(p, CardinalSide(camera, side), v)
      ensures old(WallsAgree()) ==> WallsAgree()
    {
      var obj := GetCell(p);
      var d := CardinalSide(camera, side);
      NeighboursDiffer(p, d, if d == N then S else N);
      CellsSeparate(objects, at, p, Neighbour(p, d));
      OwnedCell(objects, at, p);
      OwnedCell(objects, at, Neighbour(p, d));
      SetSurfaceOnCell(obj, d, v);
      var ctx := ContextIn(objects, p);
      ContextInAt(objects, p, d);
      var neighbour := ctx.At(d);
      SetSurfaceOnCell(neighbour, d.Opposite(), v);
      SurfacesPlaced(p, d);
      if old(WallsAgree()) {
        SurfaceSetKeepsWalls(p, d, v);
      }
    }

    // -------------------------------------------------------------------
    // Shared walls stay consistent

    /** After an operation at p: each neighbour changed at most on its side facing p; nothing else changed. */
    twostate predicate FacingSidesOnly(p: Pos)
      reads this, at.Keys
      requires old(Valid()) && Valid()
    {
      (forall d: Dir :: InGrid(Neighbour(p, d)) ==>
         (OwnedCell(objects, at, Neighbour(p, d));
          OnlySideChanged(old(OccAt(Neighbour(p, d))), OccAt(Neighbour(p, d)), d.Opposite())))
      && FarCellsKept(p)
    }

    /** A wall that does not touch p still agrees after an operation at p. */
    twostate lemma PairAwayFrom(new p: Pos, new q: Pos, new e: Dir)
      requires old(Valid()) && Valid() && FacingSidesOnly(p)
      requires InGrid(q) && e.Horizontal() && InGrid(Neighbour(q, e)) && q != p && Neighbour(q, e) != p
      requires old(WallAgrees(OccAt(q), e, OccAt(Neighbour(q, e))))
      ensures WallAgrees(OccAt(q), e, OccAt(Neighbour(q, e)))
    {
      var r := Neighbour(q, e);
      var fa := if Adjacent(p, q) then DirTo(p, q).Opposite() else e.Opposite();
      var fb := if Adjacent(p, r) then DirTo(p, r).Opposite() else e;
      if Adjacent(p, q) {
        NeighbourInverse(p, DirTo(p, q));
      }
      if Adjacent(p, r) {
        var d := DirTo(p, r);
        if d == e {
          NeighbourInjective(p, q, e);
        }
        OppositeInvolutive(d);
        OppositeInvolutive(e);
      }
      UntouchedWallAgrees(old(OccAt(q)), OccAt(q), fa, e, old(OccAt(r)), OccAt(r), fb);
    }

    /** Every wall that does not touch p still agrees after an operation at p. */
    twostate lemma WallsAgreeAwayFrom(new p: Pos)
      requires old(Valid()) && Valid() && FacingSidesOnly(p) && old(WallsAgree())
      ensures forall q: Pos, e: Dir :: InGrid(q) && e.Horizontal() && InGrid(Neighbour(q, e)) && q != p && Neighbour(q, e) != p ==>
        WallAgrees(OccAt(q), e, OccAt(Neighbour(q, e)))
    {
      forall q: Pos, e: Dir | InGrid(q) && e.Horizontal() && InGrid(Neighbour(q, e)) && q != p && Neighbour(q, e) != p
        ensures WallAgrees(OccAt(q), e, OccAt(Neighbour(q, e)))
      {
        PairAwayFrom(p, q, e);
      }
    }

    /** A wall between a freshly inserted cube and its neighbour agrees. */
    twostate lemma CubeAddedWall(new p: Pos, new e: Dir)
      requires old(Valid()) && Valid() && CubeAdded(p)
      requires InGrid(p) && e.Horizontal() && InGrid(Neighbour(p, e))
      ensures WallAgrees(OccAt(p), e, OccAt(Neighbour(p, e)))
    {
      ContextInAt(old(objects), p, e);
      assert old(Snapshot(ContextIn(objects, p)).At(e) == Occ(ContextIn(objects, p).At(e)));
      InsertedCubeAgrees(AllSolid, old(Snapshot(ContextIn(objects, p))), e);
    }

    twostate lemma CubeAddedKeepsWalls(new p: Pos)
      requires old(Valid()) && Valid() && CubeAdded(p) && old(WallsAgree())
      ensures WallsAgree()
    {
      forall d: Dir | InGrid(Neighbour(p, d))
        ensures OnlySideChanged(old(OccAt(Neighbour(p, d))), OccAt(Neighbour(p, d)), d.Opposite())
      {
        CubeInsertTouchesFacingSide(d, old(OccAt(Neighbour(p, d))));
      }
      WallsAgreeAwayFrom(p);
      forall q: Pos, e: Dir | InGrid(q) && e.Horizontal() && InGrid(Neighbour(q, e)) && (q == p || Neighbour(q, e) == p)
        ensures WallAgrees(OccAt(q), e, OccAt(Neighbour(q, e)))
      {
        if q == p {
          CubeAddedWall(p, e);
        } else {
          NeighbourInverse(q, e);
          CubeAddedWall(p, e.Opposite());
          WallAgreesSymmetric(OccAt(p), e.Opposite(), OccAt(q));
          OppositeInvolutive(e);
        }
      }
    }

    twostate lemma RoofAddedKeepsWalls(new p: Pos, new modifier: Dir)
      requires old(Valid()) && Valid() && RoofAdded(p, modifier) && old(WallsAgree())
      ensures WallsAgree()
    {
      forall d: Dir | InGrid(Neighbour(p, d))
        ensures OnlySideChanged(old(OccAt(Neighbour(p, d))), OccAt(Neighbour(p, d)), d.Opposite())
      {
        RoofInsertTouchesFacingSide(modifier, d, old(OccAt(Neighbour(p, d))));
      }
      WallsAgreeAwayFrom(p);
    }

    twostate lemma RemovedKeepsWalls(new p: Pos)
      requires old(Valid()) && Valid() && Removed(p) && old(WallsAgree())
      ensures WallsAgree()
    {
      forall d: Dir | InGrid(Neighbour(p, d))
        ensures OnlySideChanged(old(OccAt(Neighbour(p, d))), OccAt(Neighbour(p, d)), d.Opposite())
      {
        RemoveTouchesFacingSide(old(OccAt(p)), d, old(OccAt(Neighbour(p, d))));
      }
      WallsAgreeAwayFrom(p);
    }

    twostate lemma TreeAddedKeepsWalls(new p: Pos)
      requires old(Valid()) && Valid() && TreeAdded(p) && old(WallsAgree())
      ensures WallsAgree()
    {
      forall q: Pos, e: Dir | InGrid(q) && e.Horizontal() && InGrid(Neighbour(q, e))
        ensures WallAgrees(OccAt(q), e, OccAt(Neighbour(q, e)))
      {
        var r := Neighbour(q, e);
        if q != p && q != Neighbour(p, T) && r != p && r != Neighbour(p, T) {
          assert old(WallAgrees(OccAt(q), e, OccAt(r)));
        }
      }
    }

    /** The one wall that setSurface paints stays consistent, read from either side. */
    twostate lemma SurfaceSetJointWall(new p: Pos, new d: Dir, new v: Surface, new q: Pos, new e: Dir)
      requires old(Valid()) && Valid() && SurfaceSet(p, d, v)
      requires InGrid(q) && e.Horizontal() && InGrid(Neighbour(q, e))
      requires (q == p && Neighbour(q, e) == Neighbour(p, d)) || (q == Neighbour(p, d) && Neighbour(q, e) == p)
      ensures WallAgrees(OccAt(q), e, OccAt(Neighbour(q, e)))
    {
      var n := Neighbour(p, d);
      if q == p {
        NeighbourInjective(p, p, d);
        SetSurfaceBothSidesAgrees(old(OccAt(p)), d, old(OccAt(n)), v);
      } else {
        NeighbourInverse(p, d);
        NeighbourInjective(q, q, e);
        OppositeInvolutive(d);
        SetSurfaceBothSidesAgrees(old(OccAt(p)), d, old(OccAt(n)), v);
        WallAgreesSymmetric(OccAt(p), d, OccAt(n));
      }
    }

    /** Every other wall stays consistent: setSurface changes each cell on one side only. */
    twostate lemma SurfaceSetOtherWall(new p: Pos, new d: Dir, new v: Surface, new q: Pos, new e: Dir)
      requires old(Valid()) && Valid() && SurfaceSet(p, d, v)
      requires InGrid(q) && e.Horizontal() && InGrid(Neighbour(q, e))
      requires !((q == p && Neighbour(q, e) == Neighbour(p, d)) || (q == Neighbour(p, d) && Neighbour(q, e) == p))
      requires old(WallAgrees(OccAt(q), e, OccAt(Neighbour(q, e))))
      ensures WallAgrees(OccAt(q), e, OccAt(Neighbour(q, e)))
    {
      var n := Neighbour(p, d);
      var r := Neighbour(q, e);
      NeighbourInverse(p, d);
      NeighbourInverse(q, e);
      var fa := if q == p then d else if q == n then d.Opposite() else e.Opposite();
      var fb := if r == p then d else if r == n then d.Opposite() else e;
      if q == p || q == n {
        SetSurfaceTouchesOneSide(old(OccAt(q)), fa, v);
      }
      if r == p || r == n {
        SetSurfaceTouchesOneSide(old(OccAt(r)), fb, v);
      }
      if fb == e.Opposite() && r == n {
        OppositeInvolutive(d);
        OppositeInvolutive(e);
        NeighbourInjective(p, q, d);
      }
      UntouchedWallAgrees(old(OccAt(q)), OccAt(q), fa, e, old(OccAt(r)), OccAt(r), fb);
    }

    twostate lemma SurfaceSetKeepsWalls(new p: Pos, new d: Dir, new v: Surface)
      requires old(Valid()) && Valid() && SurfaceSet(p, d, v) && old(WallsAgree())
      ensures WallsAgree()
    {
      var n := Neighbour(p, d);
      forall q: Pos, e: Dir | InGrid(q) && e.Horizontal() && InGrid(Neighbour(q, e))
        ensures WallAgrees(OccAt(q), e, OccAt(Neighbour(q, e)))
      {
        if (q == p && Neighbour(q, e) == n) || (q == n && Neighbour(q, e) == p) {
          SurfaceSetJointWall(p, d, v, q, e);
        } else {
          SurfaceSetOtherWall(p, d, v, q, e);
        }
      }
    }

    // -------------------------------------------------------------------
    // Construction

    /** The piece at q. */
    function PieceAt(q: Pos): Piece
      reads this, Objects(GetCell(q))
      requires WellFormed(objects)
    {
      PieceOf(GetCell(q))
    }

    /** The grid holds the world w: every cell holds w's piece. */
    ghost predicate Shows(w: World)
      reads this, at.Keys
      requires Valid()
    {
      forall q :: InGrid(q) ==> PieceAt(q) == w(q)
    }

    /** The hooks see around p what the world the grid holds shows there. */
    lemma AroundShown(p: Pos, w: World)
      requires Valid() && Shows(w)
      ensures Snapshot(ContextIn(objects, p)) == Around(w, p)
    {
      forall d: Dir
        ensures Occ(CellAt(objects, Neighbour(p, d), Empty)) == Seen(w, Neighbour(p, d))
      {
        var q := Neighbour(p, d);
        if InGrid(q) {
          OwnedCell(objects, at, q);
          assert PieceAt(q) == w(q);
        }
      }
    }

    /** A cell that keeps its object shows the state the object has now. */
    twostate lemma KeptPiece(c: Cell)
      ensures PieceOf(c) == Rejoined(old(PieceOf(c)), Occ(c))
    {
    }

    /** After `add(CUBE, p)` the grid holds the cube world of the one it held. */
    twostate lemma CubeShows(new p: Pos, new w: World)
      requires old(Valid()) && Valid() && CubeAdded(p) && old(Shows(w))
      requires old(Snapshot(ContextIn(objects, p))) == Around(w, p)
      ensures Shows(CubeWorld(w, p))
    {
      forall q | InGrid(q)
        ensures PieceAt(q) == CubeWorld(w, p)(q)
      {
        OwnedCell(objects, at, q);
        if q != p {
          var c := old(GetCell(q));
          assert old(PieceAt(q)) == w(q);
          KeptPiece(c);
          if Adjacent(p, q) {
            var d := DirTo(p, q);
            assert GetCell(Neighbour(p, d)) == c;
          }
        }
      }
    }

    /** After `add(ROOF, p, modifier)` the grid holds the roof world of the one it held. */
    twostate lemma RoofShows(new p: Pos, new modifier: Dir, new w: World)
      requires old(Valid()) && Valid() && RoofAdded(p, modifier) && old(Shows(w))
      requires old(Snapshot(ContextIn(objects, p))) == Around(w, p)
      ensures Shows(RoofWorld(w, p, modifier))
    {
      forall q | InGrid(q)
        ensures PieceAt(q) == RoofWorld(w, p, modifier)(q)
      {
        OwnedCell(objects, at, q);
        if q != p {
          var c := old(GetCell(q));
          assert old(PieceAt(q)) == w(q);
          KeptPiece(c);
          if Adjacent(p, q) {
            var d := DirTo(p, q);
            assert GetCell(Neighbour(p, d)) == c;
          }
        }
      }
    }

    /** After a planted tree the grid holds the tree world of the one it held. */
    twostate lemma TreeShows(new p: Pos, new w: World)
      requires old(Valid()) && Valid() && p.y < YMax - 1 && TreeAdded(p) && old(Shows(w))
      ensures Shows(TreeWorld(w, p))
    {
      forall q | InGrid(q)
        ensures PieceAt(q) == TreeWorld(w, p)(q)
      {
        OwnedCell(objects, at, q);
        if q != p && q != Neighbour(p, T) {
          assert old(PieceAt(q)) == w(q);
          KeptPiece(old(GetCell(q)));
        }
      }
    }

    /** A refused call leaves the grid holding the same world. */
    twostate lemma UnchangedShows(new w: World)
      requires old(Valid()) && Valid() && objects == old(objects) && at == old(at)
      requires unchanged(old(at.Keys)) && old(Shows(w))
      ensures Shows(w)
    {
      forall q | InGrid(q)
        ensures PieceAt(q) == w(q)
      {
        OwnedCell(objects, at, q);
        assert old(PieceAt(q)) == w(q);
      }
    }

    /** A new design starts from the empty world and is filled with the sample scene. */
    constructor ()
      ensures Valid() && WallsAgree()
      ensures Shows(Scene(EmptyWorld, SampleScene))
    {
      var world := Empty3DArray(XMax, YMax, ZMax, Empty);
      objects := world;
      at := map[];
      new;
      assert Shows(EmptyWorld) by {
        forall q | InGrid(q)
          ensures PieceAt(q) == EmptyWorld(q)
        {
          assert objects[q.z][q.y][q.x] == Empty;
        }
      }
      Fill(EmptyWorld);
    }


    /** `getSlice`: the picture a camera sees of slice i. */
    method GetSlice(camera: Camera, i: int) returns (slice: seq<seq<Cell>>)
      requires WellFormed(objects) && 0 <= i < AxisLength(camera)
      ensures slice == SliceOf(objects, camera, i)
    {
      slice := Slice(objects, camera, i, Empty);
    }

    /** `getBackgroundSlices`: the pictures of the slices behind slice i, nearest first. */
    method GetBackgroundSlices(camera: Camera, i: int) returns (slices: seq<seq<seq<Cell>>>)
      requires WellFormed(objects) && 0 <= i < AxisLength(camera)
      ensures |slices| == if camera in {North, East, Bottom} then AxisLength(camera) - 1 - i else i
      ensures forall k :: 0 <= k < |slices| ==> slices[k] == SliceOf(objects, camera, BackgroundIndices(camera, i)[k])
    {
      slices := BackgroundSlices(objects, camera, i, Empty);
      BackgroundIndicesInRange(camera, i);
    }
    /** `fill`'s `addObject`: one call of `add`, and what it does to the world the grid holds. */
    method AddObject(p: Pos, obj: int, modifier: Dir, ghost w: World)
      requires Valid() && WallsAgree() && Shows(w)
      modifies this, ContextObjects(ContextIn(objects, p))
      ensures Valid() && WallsAgree() && Shows(AddWorld(w, obj, p, modifier))
      ensures old(at.Keys) <= at.Keys && fresh(at.Keys - old(at.Keys))
    {
      AroundShown(p, w);
      var ok := Add(obj, p, modifier);
      if !ok {
        UnchangedShows(w);
      } else if obj == TREE {
        TreeShows(p, w);
      } else if obj == CUBE {
        CubeShows(p, w);
      } else {
        RoofShows(p, modifier, w);
      }
    }

    /** A run of `addObject` calls, in order, and the world the grid then holds. */
    method AddObjects(entries: seq<(Pos, int, Dir)>, ghost w: World)
      requires Valid() && WallsAgree() && Shows(w)
      modifies this, at.Keys
      ensures Valid() && WallsAgree() && Shows(Scene(w, entries))
      ensures old(at.Keys) <= at.Keys && fresh(at.Keys - old(at.Keys))
    {
      for i := 0 to |entries|
        invariant Valid() && WallsAgree() && Shows(Scene(w, entries[..i]))
        invariant old(at.Keys) <= at.Keys && fresh(at.Keys - old(at.Keys))
      {
        var (p, obj, modifier) := entries[i];
        ContextSeparate(objects, at, p, this);
        SceneStep(w, entries, i);
        AddObject(p, obj, modifier, Scene(w, entries[..i]));
      }
      assert entries[..|entries|] == entries;
    }

    /** `fill`: every entry of the sample scene handed to `add` in turn, through `addObject`. */
    method Fill(ghost w: World)
      requires Valid() && WallsAgree() && Shows(w)
      modifies this, at.Keys
      ensures Valid() && WallsAgree() && Shows(Scene(w, SampleScene))
      ensures old(at.Keys) <= at.Keys && fresh(at.Keys - old(at.Keys))
    {
      AddObjects(SampleScene, w);
    }
  }
}
