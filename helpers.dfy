/**
 * The grid helpers: bounds-checked lookups in 2-D and 3-D grids, the
 * neighbour contexts built from them, the opposite of a direction, the
 * empty-grid builders and the conversion of canvas clicks into grid cells.
 * A grid is a sequence of rows, as the JavaScript arrays of arrays are;
 * `null` is `None`.
 */
module Helpers {
  import opened Common

  // ---------------------------------------------------------------------
  // Safe lookup

  /** The source's bounds test for a 2-D grid: it measures rows by the first row. */
  predicate InBounds2D<T>(arr: seq<seq<T>>, x: int, y: int)
  {
    0 <= x && |arr| > 0 && |arr[0]| > 0 && x < |arr[0]| && 0 <= y < |arr|
  }

  /**
   * `getSafe`: the element at column x of row y, or null out of bounds.
   * A row shorter than the first one yields `undefined` in JavaScript; it is
   * read as null here.
   */
  function GetSafe<T>(arr: seq<seq<T>>, x: int, y: int): (r: Option<T>)
    ensures r.Some? <==> InBounds2D(arr, x, y) && x < |arr[y]|
    ensures r.Some? ==> r.value == arr[y][x]
  {
    if InBounds2D(arr, x, y) && x < |arr[y]| then Some(arr[y][x]) else None
  }

  /** The source's bounds test for a 3-D grid, measured along the first row of the first layer. */
  predicate InBounds3D<T>(arr: seq<seq<seq<T>>>, x: int, y: int, z: int)
  {
    |arr| > 0 && |arr[0]| > 0 && |arr[0][0]| > 0
    && 0 <= x < |arr[0][0]| && 0 <= y < |arr[0]| && 0 <= z < |arr|
  }

  /** `getSafe3D`: the element `arr[z][y][x]`, or null out of bounds. */
  function GetSafe3D<T>(arr: seq<seq<seq<T>>>, x: int, y: int, z: int): (r: Option<T>)
    ensures r.Some? <==> InBounds3D(arr, x, y, z) && y < |arr[z]| && x < |arr[z][y]|
    ensures r.Some? ==> r.value == arr[z][y][x]
  {
    if InBounds3D(arr, x, y, z) && y < |arr[z]| && x < |arr[z][y]| then Some(arr[z][y][x]) else None
  }

  /** In a box-shaped grid the lookup is exactly "all three indices in range". */
  predicate Box<T>(arr: seq<seq<seq<T>>>, xs: nat, ys: nat, zs: nat)
  {
    |arr| == zs && (forall z :: 0 <= z < zs ==> |arr[z]| == ys)
    && (forall z, y :: 0 <= z < zs && 0 <= y < ys ==> |arr[z][y]| == xs)
  }

  lemma GetSafe3DInBox<T>(arr: seq<seq<seq<T>>>, xs: nat, ys: nat, zs: nat, x: int, y: int, z: int)
    requires Box(arr, xs, ys, zs) && xs > 0 && ys > 0 && zs > 0
    ensures GetSafe3D(arr, x, y, z).Some? <==> 0 <= x < xs && 0 <= y < ys && 0 <= z < zs
  {
  }

  // ---------------------------------------------------------------------
  // Contexts

  /** The nine cells around (x, y); "top" is y + 1 and "left" is x - 1. */
  datatype Context3x3<T> = Context3x3(
    topLeft: T, top: T, topRight: T,
    left: T, center: T, right: T,
    bottomLeft: T, bottom: T, bottomRight: T)
  {
    /** The entry at column offset dx and row offset dy, each in -1..1. */
    function At(dx: int, dy: int): T
      requires -1 <= dx <= 1 && -1 <= dy <= 1
    {
      if dy == 1 then (if dx == -1 then topLeft else if dx == 0 then top else topRight)
      else if dy == 0 then (if dx == -1 then left else if dx == 0 then center else right)
      else (if dx == -1 then bottomLeft else if dx == 0 then bottom else bottomRight)
    }
  }

  /** `getCellContext3x3`. */
  function CellContext3x3<T>(arr: seq<seq<T>>, x: int, y: int): (c: Context3x3<Option<T>>)
    ensures forall dx, dy :: -1 <= dx <= 1 && -1 <= dy <= 1 ==> c.At(dx, dy) == GetSafe(arr, x + dx, y + dy)
  {
    Context3x3(
      GetSafe(arr, x - 1, y + 1), GetSafe(arr, x, y + 1), GetSafe(arr, x + 1, y + 1),
      GetSafe(arr, x - 1, y), GetSafe(arr, x, y), GetSafe(arr, x + 1, y),
      GetSafe(arr, x - 1, y - 1), GetSafe(arr, x, y - 1), GetSafe(arr, x + 1, y - 1))
  }

  /** The centre of a 3x3 context is the cell itself whenever it lies in the grid. */
  lemma ContextCenter<T>(arr: seq<seq<T>>, x: int, y: int)
    requires 0 <= y < |arr| && 0 <= x < |arr[0]| && x < |arr[y]|
    ensures CellContext3x3(arr, x, y).center == Some(arr[y][x])
  {
    assert CellContext3x3(arr, x, y).At(0, 0) == GetSafe(arr, x, y);
  }

  /** The six face neighbours of a cell. */
  datatype Context3D<T> = Context3D(w: T, n: T, e: T, s: T, t: T, b: T)
  {
    function At(d: Dir): T
    {
      match d
      case W => w
      case N => n
      case E => e
      case S => s
      case T => t
      case B => b
    }

    /** The context with the slot in direction d replaced. */
    function With(d: Dir, v: T): (r: Context3D<T>)
      ensures r.At(d) == v
      ensures forall o: Dir :: o != d ==> r.At(o) == At(o)
    {
      match d
      case W => this.(w := v)
      case N => this.(n := v)
      case E => this.(e := v)
      case S => this.(s := v)
      case T => this.(t := v)
      case B => this.(b := v)
    }
  }

  /** How far apart two coordinates are. */
  function Distance(a: int, b: int): nat
  {
    if a <= b then b - a else a - b
  }

  /** The neighbour of a position in a direction: north is y + 1, up is z + 1. */
  function Neighbour(p: Pos, d: Dir): (q: Pos)
    ensures Distance(p.x, q.x) + Distance(p.y, q.y) + Distance(p.z, q.z) == 1
  {
    match d
    case W => p.(x := p.x - 1)
    case N => p.(y := p.y + 1)
    case E => p.(x := p.x + 1)
    case S => p.(y := p.y - 1)
    case T => p.(z := p.z + 1)
    case B => p.(z := p.z - 1)
  }

  /** Stepping back in the opposite direction returns to the start. */
  lemma NeighbourInverse(p: Pos, d: Dir)
    ensures Neighbour(Neighbour(p, d), d.Opposite()) == p
  {
  }

  /** `getCellContext3D`. */
  function CellContext3D<T>(arr: seq<seq<seq<T>>>, p: Pos): Context3D<Option<T>>
  {
    Context3D(
      GetSafe3D(arr, p.x - 1, p.y, p.z),
      GetSafe3D(arr, p.x, p.y + 1, p.z),
      GetSafe3D(arr, p.x + 1, p.y, p.z),
      GetSafe3D(arr, p.x, p.y - 1, p.z),
      GetSafe3D(arr, p.x, p.y, p.z + 1),
      GetSafe3D(arr, p.x, p.y, p.z - 1))
  }

  /** Each entry of the six-neighbour context is the lookup one step away in its direction. */
  lemma CellContext3DAt<T>(arr: seq<seq<seq<T>>>, p: Pos, d: Dir)
    ensures CellContext3D(arr, p).At(d) == GetSafe3D(arr, Neighbour(p, d).x, Neighbour(p, d).y, Neighbour(p, d).z)
  {
  }

  /** The four cells that meet at a grid corner. */
  datatype Corner2x2<T> = Corner2x2(topLeft: T, topRight: T, bottomLeft: T, bottomRight: T)

  /**
   * `getCornerContext2x2`: corner (x, y) touches the cells (x-1, y), (x, y),
   * (x-1, y-1) and (x, y-1).
   */
  function CornerContext2x2<T>(arr: seq<seq<T>>, x: int, y: int): (c: Corner2x2<Option<T>>)
    ensures c.topRight == GetSafe(arr, x, y) && c.topLeft == GetSafe(arr, x - 1, y)
    ensures c.bottomRight == GetSafe(arr, x, y - 1) && c.bottomLeft == GetSafe(arr, x - 1, y - 1)
  {
    Corner2x2(GetSafe(arr, x - 1, y), GetSafe(arr, x, y), GetSafe(arr, x - 1, y - 1), GetSafe(arr, x, y - 1))
  }

  /** Every cell of a rectangular grid is one of the four cells at each of its four corners. */
  lemma CellTouchesItsCorners<T>(arr: seq<seq<T>>, x: int, y: int)
    requires 0 <= y < |arr| && 0 <= x < |arr[0]| && x < |arr[y]|
    ensures CornerContext2x2(arr, x, y).topRight == Some(arr[y][x])
    ensures CornerContext2x2(arr, x + 1, y).topLeft == Some(arr[y][x])
    ensures CornerContext2x2(arr, x, y + 1).bottomRight == Some(arr[y][x])
    ensures CornerContext2x2(arr, x + 1, y + 1).bottomLeft == Some(arr[y][x])
  {
  }

  // ---------------------------------------------------------------------
  // Directions

  /** `getOppositeDirection` on the direction letters; null for anything else. */
  function OppositeDirection(c: char): (r: Option<char>)
    ensures r.Some? <==> c in "nsewtb"
  {
    match c
    case 'n' => Some('s')
    case 's' => Some('n')
    case 'e' => Some('w')
    case 'w' => Some('e')
    case 't' => Some('b')
    case 'b' => Some('t')
    case _ => None
  }

  /** The opposite of the opposite is the letter itself. */
  lemma OppositeInvolution(c: char)
    requires OppositeDirection(c).Some?
    ensures OppositeDirection(OppositeDirection(c).value) == Some(c)
    ensures OppositeDirection(c) != Some(c)
  {
  }

  /** The letter function agrees with the direction datatype's opposite. */
  lemma OppositeDirectionOfDir(d: Dir)
    ensures OppositeDirection(d.Char()) == Some(d.Opposite().Char())
  {
  }

  // ---------------------------------------------------------------------
  // Empty grids

  /** `getEmpty2DArray`: rows x columns cells, every one the default. */
  method Empty2DArray<T>(rows: nat, columns: nat, default: T) returns (arr: seq<seq<T>>)
    ensures |arr| == rows
    ensures forall i :: 0 <= i < rows ==> |arr[i]| == columns
    ensures forall i, j :: 0 <= i < rows && 0 <= j < columns ==> arr[i][j] == default
  {
    arr := [];
    var i := 0;
    while i < rows
      invariant 0 <= i <= rows
      invariant |arr| == i
      invariant forall k :: 0 <= k < i ==> |arr[k]| == columns
      invariant forall k, j :: 0 <= k < i && 0 <= j < columns ==> arr[k][j] == default
    {
      var row := [];
      var j := 0;
      while j < columns
        invariant 0 <= j <= columns
        invariant |row| == j
        invariant forall m :: 0 <= m < j ==> row[m] == default
      {
        row := row + [default];
        j := j + 1;
      }
      arr := arr + [row];
      i := i + 1;
    }
  }

  /** `getEmpty3DArray(x, y, z)`: z layers of y rows of x nulls; `nothing` is the grid's null. */
  method Empty3DArray<T>(x: nat, y: nat, z: nat, nothing: T) returns (arr: seq<seq<seq<T>>>)
    ensures Box(arr, x, y, z)
    ensures forall k, j, i :: 0 <= k < z && 0 <= j < y && 0 <= i < x ==> arr[k][j][i] == nothing
  {
    arr := [];
    var k := 0;
    while k < z
      invariant 0 <= k <= z
      invariant Box(arr, x, y, k)
      invariant forall k', j, i :: 0 <= k' < k && 0 <= j < y && 0 <= i < x ==> arr[k'][j][i] == nothing
    {
      var layer := Empty2DArray(y, x, nothing);
      arr := arr + [layer];
      k := k + 1;
    }
  }

  // ---------------------------------------------------------------------
  // Clicks

  /**
   * `getRelativePosition`: a click normalised to [0, 1) in each axis becomes
   * the grid cell under it; the canvas y axis points down, the grid's up.
   */
  function RelativePosition(clickX: real, clickY: real): (p: (int, int))
    ensures p.0 as real <= clickX * GridSize as real < p.0 as real + 1.0
    ensures (GridSize - 1 - p.1) as real <= clickY * GridSize as real < (GridSize - p.1) as real
  {
    ((clickX * GridSize as real).Floor, GridSize - 1 - (clickY * GridSize as real).Floor)
  }

  /** A click in [0, 1) x [0, 1) names a cell of the 17 x 17 picture. */
  lemma ClickInPicture(clickX: real, clickY: real)
    requires 0.0 <= clickX < 1.0 && 0.0 <= clickY < 1.0
    ensures 0 <= RelativePosition(clickX, clickY).0 < GridSize
    ensures 0 <= RelativePosition(clickX, clickY).1 < GridSize
  {
    var p := RelativePosition(clickX, clickY);
    assert p.0 as real <= clickX * GridSize as real < GridSize as real;
    assert 0.0 <= clickY * GridSize as real < (GridSize - p.1) as real;
  }

  /** The 1-pixel padding around the canvas. */
  predicate OnBorder(x: int, y: int)
  {
    x == 0 || x == CanvasSize - 1 || y == 0 || y == CanvasSize - 1
  }

  /** `getGridPointInModelSpace`: null on the border, otherwise the cell under the pixel. */
  function GridPointInModelSpace(x: int, y: int): (r: Option<(int, int)>)
    ensures r.None? <==> OnBorder(x, y)
  {
    if OnBorder(x, y) then None
    else Some(RelativePosition((x - 1) as real / CanvasSize as real, (y - 1) as real / CanvasSize as real))
  }

  /** The floor of an exact quotient is integer (Euclidean) division. */
  lemma FloorOfQuotient(a: int, g: nat, w: int)
    requires w > 0
    ensures (a as real / w as real * g as real).Floor == (a * g) / w
  {
    var q, rem := (a * g) / w, (a * g) % w;
    assert a * g == q * w + rem;
    assert 0 <= rem < w;
    var v := a as real / w as real * g as real;
    assert v == (a * g) as real / w as real;
    assert v == q as real + rem as real / w as real;
    assert 0.0 <= rem as real / w as real < 1.0;
  }

  /** The grid point is computed by integer division of the offset pixel by the cell width. */
  lemma GridPointIsIntegerDivision(x: int, y: int)
    requires !OnBorder(x, y)
    ensures GridPointInModelSpace(x, y)
         == Some(((x - 1) * GridSize / CanvasSize, GridSize - 1 - (y - 1) * GridSize / CanvasSize))
  {
    FloorOfQuotient(x - 1, GridSize, CanvasSize);
    FloorOfQuotient(y - 1, GridSize, CanvasSize);
    var p := RelativePosition((x - 1) as real / CanvasSize as real, (y - 1) as real / CanvasSize as real);
    assert p.0 == ((x - 1) as real / CanvasSize as real * GridSize as real).Floor;
    assert p.1 == GridSize - 1 - ((y - 1) as real / CanvasSize as real * GridSize as real).Floor;
  }

  /** Every interior pixel of the 852-pixel canvas lands in the 17 x 17 grid. */
  lemma InteriorPixelInGrid(x: int, y: int)
    requires 0 < x < CanvasSize - 1 && 0 < y < CanvasSize - 1
    ensures GridPointInModelSpace(x, y).Some?
    ensures 0 <= GridPointInModelSpace(x, y).value.0 < GridSize
    ensures 0 <= GridPointInModelSpace(x, y).value.1 < GridSize
  {
    GridPointIsIntegerDivision(x, y);
    assert 0 <= (x - 1) * GridSize <= 849 * GridSize;
    assert 0 <= (y - 1) * GridSize <= 849 * GridSize;
  }

  datatype ScreenSide = TopSide | BottomSide | LeftSide | RightSide

  /** The closest cell edge: the cell's column and row and the side nearest to the click. */
  datatype Edge = Edge(x: int, y: int, side: ScreenSide)

  /** Position of a click inside its cell, each coordinate in [0, 1). */
  function CellFraction(clickX: int, clickY: int): (f: (real, real))
    ensures 0.0 <= f.0 < 1.0 && 0.0 <= f.1 < 1.0
  {
    var x := (clickX - 1) as real / CanvasSize as real * GridSize as real;
    var y := GridSize as real - (clickY - 1) as real / CanvasSize as real * GridSize as real;
    (x - x.Floor as real, y - y.Floor as real)
  }

  /** The distance from the click to one side of its cell; the cell's top is at the larger y. */
  function SideDistance(clickX: int, clickY: int, side: ScreenSide): real
  {
    var f := CellFraction(clickX, clickY);
    match side
    case TopSide => 1.0 - f.1
    case BottomSide => f.1
    case LeftSide => f.0
    case RightSide => 1.0 - f.0
  }

  /** Position of a side in the tie-breaking order t, b, l, r. */
  function SideRank(side: ScreenSide): nat
  {
    match side
    case TopSide => 0
    case BottomSide => 1
    case LeftSide => 2
    case RightSide => 3
  }

  /**
   * `getClosestEdgeInModelSpace`: the side is a nearest one, and no side that
   * comes earlier in the order t, b, l, r is as near.
   */
  function ClosestEdgeInModelSpace(clickX: int, clickY: int): (r: Option<Edge>)
    ensures r.None? <==> OnBorder(clickX, clickY)
    ensures r.Some? ==> r.value.x == (clickX - 1) * GridSize / CanvasSize
    ensures r.Some? ==> r.value.y == GridSize - ((clickY - 1) * GridSize + CanvasSize - 1) / CanvasSize
    ensures r.Some? ==> forall o: ScreenSide :: SideDistance(clickX, clickY, r.value.side) <= SideDistance(clickX, clickY, o)
    ensures r.Some? ==> forall o: ScreenSide :: SideRank(o) < SideRank(r.value.side) ==>
              SideDistance(clickX, clickY, o) > SideDistance(clickX, clickY, r.value.side)
  {
    if OnBorder(clickX, clickY) then None
    else
      FloorOfQuotient(clickX - 1, GridSize, CanvasSize);
      FloorOfComplement(clickY - 1, GridSize, GridSize);
      var x := (clickX - 1) as real / CanvasSize as real * GridSize as real;
      var y := GridSize as real - (clickY - 1) as real / CanvasSize as real * GridSize as real;
      var xRemainder, yRemainder := x - x.Floor as real, y - y.Floor as real;
      var tDist, bDist, lDist, rDist := 1.0 - yRemainder, yRemainder, xRemainder, 1.0 - xRemainder;
      var least := RealMin(RealMin(tDist, bDist), RealMin(lDist, rDist));
      var side :=
        if tDist == least then TopSide
        else if bDist == least then BottomSide
        else if lDist == least then LeftSide
        else RightSide;
      Some(Edge(x.Floor, y.Floor, side))
  }

  /**
   * The closest edge names a column of the grid and a row from 0 up to the
   * grid size: its y is the floor of a value counted down from the top, so a
   * click in the first pixel row below the padding gives the grid size itself.
   */
  lemma ClosestEdgeCellRange(clickX: int, clickY: int)
    requires 0 < clickX < CanvasSize - 1 && 0 < clickY < CanvasSize - 1
    ensures ClosestEdgeInModelSpace(clickX, clickY).Some?
    ensures 0 <= ClosestEdgeInModelSpace(clickX, clickY).value.x < GridSize
    ensures 0 <= ClosestEdgeInModelSpace(clickX, clickY).value.y <= GridSize
    ensures ClosestEdgeInModelSpace(clickX, clickY).value.y == GridSize <==> clickY == 1
  {
    var a, b := (clickX - 1) * GridSize, (clickY - 1) * GridSize;
    assert 0 <= a <= 849 * GridSize && 0 <= b <= 849 * GridSize;
    assert clickY == 1 <==> b + CanvasSize - 1 < CanvasSize;
  }

  /** Division by the canvas width is the only quotient with a remainder in [0, width). */
  lemma DivUnique(n: int, q: int, rem: int)
    requires 0 <= rem < CanvasSize && n == q * CanvasSize + rem
    ensures n / CanvasSize == q
  {
  }

  /** The floor of a number minus an exact quotient by the canvas width is that number minus the quotient rounded up. */
  lemma FloorOfComplement(a: int, g: nat, big: int)
    ensures (big as real - a as real / CanvasSize as real * g as real).Floor == big - (a * g + CanvasSize - 1) / CanvasSize
  {
    var w := CanvasSize;
    var q, rem := (a * g) / w, (a * g) % w;
    FloorOfQuotient(a, g, w);
    var v := a as real / w as real * g as real;
    assert v == q as real + rem as real / w as real;
    if rem == 0 {
      DivUnique(a * g + w - 1, q, w - 1);
      assert big as real - v == (big - q) as real;
    } else {
      DivUnique(a * g + w - 1, q + 1, rem - 1);
      assert big as real - v == (big - q - 1) as real + (1.0 - rem as real / w as real);
      assert 0.0 < 1.0 - rem as real / w as real < 1.0;
    }
  }

  function RealMin(a: real, b: real): (m: real)
    ensures m <= a && m <= b && (m == a || m == b)
  {
    if a <= b then a else b
  }
}
