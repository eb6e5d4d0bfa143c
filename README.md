# URBAN5 in Dafny

A Dafny model of the design logic of URBAN5, a voxel design tool. It recreates Negroponte's
1967 architecture system as a browser application. The model also covers the Python
launcher script that serves the application. The grids, objects, controllers and
constraint bookkeeping are modelled as the source writes them, class by class: objects
whose fields the source updates in place are Dafny classes, and pure computations are
functions with lemmas about them.

The model is split into these modules:

- **Common, Helpers, Grids**: cameras and their rotation cycle, directions and their opposites,
  the JavaScript `Math.max` over possibly-`null` values, decimal text of numbers. Helpers
  covers the grid helpers: safe 2-D and 3-D lookups, the neighbour contexts, empty arrays,
  and pixel-to-cell conversion in exact arithmetic. Grids covers the slices of the
  17 x 17 x 7 design grid per camera and the background slice indices.
- **Joins, SessionObjects, SessionDesign**: the design world of `src/js/sessionAPI`.
  - Joins holds the cube and roof join rules, as pure functions over snapshots of the
    neighbour context.
  - SessionObjects holds the `Cube` and `Roof` classes, whose insert and remove hooks and
    `setSurface` update their own and their neighbours' fields.
  - SessionDesign holds the `Design` class: add and remove with their hooks, bounds-checked
    cell access, `setSurface` on both sides of a wall, the cardinal side of a camera-relative
    edge, slices, background slices and the sample scene. An invariant, that the two sides
    of every wall between two horizontally adjacent cubes agree, is kept by every operation.
    Floors and ceilings between stacked cubes are not covered: the cube join rules leave
    the cells above and below untouched, so those two sides can disagree.
- **ApiObjects, LegacyObjects**: the roof of `src/api` (default side surface set, identity
  type tests) and the cube and roof of `src/js`.
- **TopoViews, ApiTopo, SessionTopo, LegacyTopo**: the topography height map. TopoViews holds
  the pure views: slice profiles from 3 x 3 maxima, corners, background slices and the
  highest point. There is one class per layer; the two bounds of `increase` differ between
  layers.
- **LegacyDesign, Display2D, DesignControl, Renderer**: the `DesignModel` grid of `src/js`,
  and the three slice and camera controllers.
- **ConstraintEval, ApiConstraint, DataConstraint, TextToConstraint, Text, SessionConstraint**:
  - the constraint data;
  - violation as an aggregate (sum, max, min over the matching objects) compared against a
    value;
  - the allow-list check;
  - keyword selection in the text parsers;
  - the synonym table and the choice of aggregate.
- **MonitorLists, ApiMonitor, SessionMonitor**: the monitors' constraint lists, same-type
  replacement, conflict and incompatibility messages.
- **IdCounter, ActionLog, PadEdges, ControlPad, LegacyControlPad**: the ID counter, the
  action log with its listeners, and rising-edge detection of gamepad buttons.
- **WalkGrid, LegacyPath, CirculationPath**: the walk grid of the circulation path, with each
  cell blown up into 3 x 3 sub-cells blocked by walls and slopes. The finder's route is
  mapped back to cells, merged and smoothed.
- **SessionFactory**: the session-ID list and counter in local storage, modelled as a map.
- **Launcher**: `run.py`. It covers `str2bool`, the option loop of `get_flags`, the text of
  the flags file and the browser command. The process work comes back as a list of effects.

Where the code and its documentation disagree, the model follows the code:

- **`-h` only.** `get_flags` answers only `-h`; `--help` is not among getopt's long
  options, so it ends in the getopt error and exit status 2.
- **Timeout as text.** A numeric timeout is kept as the text given.
- **Uncaught errors.** A bad boolean or a non-numeric port raises an exception that
  `get_flags` does not catch.

Behaviour that looks unintended is modelled as written:

- **SOUTH camera.** Under the SOUTH camera, `Display2DController.getRelativePosition` takes y
  from the z slice.
- **Trees in session-design `remove`.** `remove` in the session design switches on the
  object itself, so its TREE and FOLIAGE cases never apply.
- **Renderer slice range.** `DesignRenderer.nextSlice` lets the slice reach `sliceMax`.

## Model

| member | source | states |
|---|---|---|
| Common.RotationsInverse | src/js/Display2DController.js:120-156 | a right turn undoes a left turn and a left turn undoes a right turn, for every camera |
| Common.RotationCycle | src/js/Display2DController.js:120-137 | four left turns bring every camera back; a side camera passes through four different cameras on the way; the top and bottom cameras never turn |
| Common.Dir.Opposite | src/js/helpers/Helpers.js:73-90 | the opposite direction differs from the direction and stays horizontal for a horizontal one and vertical for a vertical one |
| Common.OppositeInvolutive | src/js/helpers/Helpers.js:73-90 | the opposite of the opposite is the direction itself |
| Common.Surfaces.Set | src/js/sessionAPI/Cube.js:100-102 | setting the surface of one side changes that side to the new value and leaves the other five sides as they were |
| Common.NatToString | src/api/U5SessionFactory.js:82-90 | the decimal text of a number is non-empty and made of the digits 0-9 only |
| Common.DigitsValueOfNatToString | src/api/U5SessionFactory.js:82-90 | reading the decimal text of a number back as digits gives the number again |
| Common.NatToStringInjective | src/api/U5SessionFactory.js:82-90 | two numbers with the same decimal text are the same number |
| Common.IntToString | src/helpers/ID.js:7-10 | the text of any integer, a minus sign first for a negative one, is non-empty |
| Common.JsMax4 | src/api/Topo.js:183-202 | `Math.max` of four values that may be `null`, where `null` counts as 0: at least each of them and equal to one of them |
| Common.JsMax6 | src/api/Topo.js:130-134 | `Math.max` of six values that may be `null`: at least each of them and equal to one of them |
| Helpers.GetSafe | src/js/helpers/Helpers.js:92-97 | `getSafe` finds an element exactly when the column and row are inside the grid, and then it is the stored element; otherwise the result is `null` (the same function is at src/js/ArrayHelpers.js:5-10) |
| Helpers.GetSafe3D | src/js/helpers/Helpers.js:99-107 | `getSafe3D` finds an element exactly when the position is inside all three levels of the grid, and it is `arr[z][y][x]`; otherwise `null` (the same code is at src/js/ArrayHelpers.js:12-20) |
| Helpers.GetSafe3DInBox | src/js/helpers/Helpers.js:99-107 | in a full box grid the lookup succeeds exactly for 0 <= x, y, z below the box's sizes |
| Helpers.CellContext3x3 | src/js/helpers/Helpers.js:114-126 | each of the nine context entries is the safe lookup at the matching offset around the cell (the same code is at src/js/ArrayHelpers.js:27-39) |
| Helpers.ContextCenter | src/js/helpers/Helpers.js:114-126 | the centre of the 3x3 context of a cell inside the grid is that cell's value |
| Helpers.Context3D.With | src/js/helpers/Helpers.js:133-143 | replacing one slot of the six-neighbour context sets that slot and keeps the other five |
| Helpers.Neighbour | src/js/helpers/Helpers.js:133-143 | the neighbour in a direction is exactly one unit step away from the position |
| Helpers.NeighbourInverse | src/js/helpers/Helpers.js:133-143 | stepping to a neighbour and back in the opposite direction returns to the start |
| Helpers.CellContext3DAt | src/js/helpers/Helpers.js:133-143 | each entry of `getCellContext3D` is the safe 3-D lookup one step away in its direction (the same code is at src/js/ArrayHelpers.js:46-56) |
| Helpers.CornerContext2x2 | src/js/helpers/Helpers.js:150-157 | corner (x, y) collects the cells (x, y), (x-1, y), (x, y-1) and (x-1, y-1) through safe lookups (the same code is at src/js/ArrayHelpers.js:63-70) |
| Helpers.CellTouchesItsCorners | src/js/helpers/Helpers.js:150-157 | every cell of the grid appears in the corner contexts of all four of its corners |
| Helpers.OppositeDirection | src/js/helpers/Helpers.js:73-90 | `getOppositeDirection` answers exactly for the six letters n, s, e, w, t, b and gives `null` for anything else |
| Helpers.OppositeInvolution | src/js/helpers/Helpers.js:73-90 | the opposite of the opposite letter is the letter itself, and no letter is its own opposite |
| Helpers.OppositeDirectionOfDir | src/js/helpers/Helpers.js:73-90 | the letter function agrees with the opposite of the direction datatype |
| Helpers.Empty2DArray | src/js/helpers/Helpers.js:165-174 | `getEmpty2DArray` builds exactly `rows` rows of `columns` cells, every cell the default value (the same code is at src/js/ArrayHelpers.js:78-87) |
| Helpers.Empty3DArray | src/js/helpers/Helpers.js:176-184 | `getEmpty3DArray(x, y, z)` builds z layers of y rows of x cells, every cell `null` |
| Helpers.RelativePosition | src/js/helpers/Helpers.js:8-14 | a click, as fractions of the canvas, maps to the cell whose span contains it, with the canvas y axis flipped so that up is north (the same code is at src/js/Helpers.js:8-14) |
| Helpers.ClickInPicture | src/js/helpers/Helpers.js:8-14 | every click inside the canvas names a cell of the 17 x 17 grid |
| Helpers.GridPointInModelSpace | src/js/helpers/Helpers.js:16-31 | `getGridPointInModelSpace` gives `null` exactly for a pixel on the canvas border (the same code is at src/js/Helpers.js:16-31) |
| Helpers.FloorOfQuotient | src/js/helpers/Helpers.js:16-31 | the floor of the exact quotient that the source computes equals integer division |
| Helpers.FloorOfComplement | src/js/helpers/Helpers.js:44-52 | the floor of a whole number minus the exact quotient that the source computes equals that number minus the quotient rounded up |
| Helpers.GridPointIsIntegerDivision | src/js/helpers/Helpers.js:16-31 | an interior pixel maps to the cell found by integer division of its offset by the cell width, with the y axis flipped |
| Helpers.InteriorPixelInGrid | src/js/helpers/Helpers.js:16-31 | every interior pixel of the 852-pixel canvas lands inside the 17 x 17 grid (the same code is at src/js/Helpers.js:26-30) |
| Helpers.CellFraction | src/js/helpers/Helpers.js:33-71 | a click's position inside its cell is in [0, 1) on both axes |
| Helpers.ClosestEdgeInModelSpace | src/js/helpers/Helpers.js:33-71 | `getClosestEdgeInModelSpace` gives `null` exactly on the border; otherwise its x is the floor of the click's column fraction times the grid size, its y the floor of the grid size minus the row fraction times the grid size (written as integer division, rounded down and rounded up), and its side is at least as near as every other side and the first such side in the order t, b, l, r |
| Helpers.ClosestEdgeCellRange | src/js/helpers/Helpers.js:33-71 | for an interior pixel the edge's x is a column of the grid and its y lies in 0..17, reaching 17 exactly for the first pixel row below the padding |
| Grids.CellAt | src/js/sessionAPI/Design.js:299-305 | `_getCell` gives the stored object for a position inside 0 <= x < 17, 0 <= y < 17, 0 <= z < 7 and `null` for every position outside |
| Grids.Updated | src/js/sessionAPI/Design.js:307-312 | `_setCell` keeps the grid 17 x 17 x 7 |
| Grids.UpdatedAt | src/js/sessionAPI/Design.js:307-312 | after `_setCell` only the written cell reads differently, and only when it lies inside the grid |
| Grids.UpdatedOutside | src/js/sessionAPI/Design.js:307-312 | a write outside the grid leaves the grid unchanged |
| Grids.GetSafe3DIsCellAt | src/js/helpers/Helpers.js:99-107 | the helpers' `getSafe3D` agrees with `_getCell` on the design grid |
| Grids.Reverse | src/js/sessionAPI/Design.js:214 | the reversed row has the same length and element i is element n-1-i of the original |
| Grids.HFlip | src/js/sessionAPI/Design.js:214 | `Array2D.hflip` reverses every row and keeps the row count |
| Grids.VFlip | src/js/sessionAPI/Design.js:222 | `Array2D.vflip` reverses the order of the rows |
| Grids.ReverseReverse | src/js/sessionAPI/Design.js:214 | reversing twice gives the original sequence |
| Grids.HFlipInvolution | src/js/sessionAPI/Design.js:214 | flipping a picture twice gives it back |
| Grids.Transpose | src/js/sessionAPI/Design.js:205-228 | the transpose has a row per column and entry (i, j) is entry (j, i) of the original |
| Grids.SliceAt | src/js/sessionAPI/Design.js:205-228 | every cell of a camera's picture at a slice in range is the model cell at the matching position, which lies inside the grid, and the picture has the camera's row and column counts |
| Grids.SouthMirrorsNorth | src/js/sessionAPI/Design.js:205-228 | the south picture of a slice is the north picture mirrored left to right |
| Grids.YSlice | src/js/sessionAPI/Design.js:289-297 | `_getYSlice`'s nested loops produce the 7 x 17 picture of the row y |
| Grids.XSlice | src/js/sessionAPI/Design.js:279-287 | `_getXSlice`'s nested loops produce the 7 x 17 picture of the column x |
| Grids.Slice | src/js/sessionAPI/Design.js:205-228 | `getSlice` returns the camera's picture of the slice, flipped where the camera looks back along its axis |
| Grids.Ascending | src/js/sessionAPI/Design.js:235-238 | the indices after `start` up to `bound - 1`, in increasing order |
| Grids.Descending | src/js/sessionAPI/Design.js:241-244 | the indices before `start` down to 0, in decreasing order |
| Grids.BackgroundIndicesInRange | src/js/sessionAPI/Design.js:230-272 | behind a slice in range lie all the later slices (north, east, bottom) or all the earlier ones (south, west, top), each in range and none the slice itself |
| Grids.CountUp | src/js/sessionAPI/Design.js:235-238 | the counting-up while loop pushes exactly the ascending indices |
| Grids.CountDown | src/js/sessionAPI/Design.js:241-244 | the counting-down while loop pushes exactly the descending indices |
| Grids.BackgroundSliceIndices | src/js/sessionAPI/Design.js:230-272 | the loop chosen by the camera yields the background indices of that camera |
| Grids.BackgroundSlices | src/js/sessionAPI/Design.js:230-275 | `getBackgroundSlices` returns the picture at every background index, nearest first |
| Joins.CubeSelfAfterInsert | src/js/sessionAPI/Cube.js:20-62 | each side of an inserted cube becomes open exactly when its neighbour on that side is a cube (sides n, e, s, w), a roof above (side t) or a roof facing the cube; otherwise it keeps its surface |
| Joins.CubeInsertLeavesVertical | src/js/sessionAPI/Cube.js:20-62 | inserting a cube never changes the neighbours above and below |
| Joins.CubeJoinIsMutual | src/js/sessionAPI/Cube.js:23-38 | a cube inserted next to a cube opens its own side and the neighbour's facing side |
| Joins.SetGetSame | src/js/sessionAPI/Cube.js:100-102 | setting a side to the surface it already has changes nothing |
| Joins.SetTwice | src/js/sessionAPI/Cube.js:100-102 | a second `setSurface` on the same side overrides the first |
| Joins.CubeRemoveUndoesInsert | src/js/sessionAPI/Cube.js:64-98 | removing a cube restores every neighbour that was not joined to it before it was inserted |
| Joins.RoofFlagAfterInsert | src/js/sessionAPI/Roof.js:16-61 | an inserted roof keeps `hasSideSurface` only when no cube closes it and no roof pairs with it |
| Joins.RoofJoinsOneSide | src/js/sessionAPI/Roof.js:27-60 | a roof is joined on one side only, the horizontal side opposite its slope |
| Joins.RoofRemoveUndoesInsert | src/js/sessionAPI/Roof.js:63-95 | removing a roof restores every neighbour that was not joined to it before it was inserted |
| Joins.CubeAndRoofAgree | src/js/sessionAPI/Cube.js:46-61 | the cube's rule and the roof's rule agree: a cube facing a roof is the cube that closes that roof |
| Joins.CubeNeighboursAfterInsert | src/js/sessionAPI/Cube.js:20-62 | every neighbour of an inserted cube takes its new state by the cube's insert rule for its direction |
| Joins.CubeNeighboursBeforeRemove | src/js/sessionAPI/Cube.js:64-98 | every neighbour of a removed cube takes its new state by the cube's remove rule for its direction |
| Joins.RoofNeighboursAfterInsert | src/js/sessionAPI/Roof.js:16-61 | every neighbour of an inserted roof takes its new state by the roof's insert rule for its direction |
| Joins.RoofNeighboursBeforeRemove | src/js/sessionAPI/Roof.js:63-95 | every neighbour of a removed roof takes its new state by the roof's remove rule for its direction |
| Joins.CubeRemoveRestoresNeighbours | src/js/sessionAPI/Cube.js:20-98 | inserting a cube and then removing it leaves all six unjoined neighbours exactly as they were |
| Joins.RoofRemoveRestoresNeighbours | src/js/sessionAPI/Roof.js:16-95 | inserting a roof and then removing it leaves all six unjoined neighbours exactly as they were |
| Joins.NeighboursBeforeRemove | src/js/sessionAPI/Design.js:98-104 | the neighbours of a removed object change by that object's remove rule: a cube's, a roof's, or none for other objects |
| Joins.WallAgreesSymmetric | src/js/sessionAPI/Design.js:113-126 | two objects agree on a shared wall seen from either side |
| Joins.CubeInsertTouchesFacingSide | src/js/sessionAPI/Cube.js:20-62 | an inserted cube changes each neighbour at most on the side facing the cube |
| Joins.CubeRemoveTouchesFacingSide | src/js/sessionAPI/Cube.js:64-98 | a removed cube changes each neighbour at most on the side facing the cube |
| Joins.RoofInsertTouchesFacingSide | src/js/sessionAPI/Roof.js:16-61 | an inserted roof changes each neighbour at most on the side facing the roof |
| Joins.RoofRemoveTouchesFacingSide | src/js/sessionAPI/Roof.js:63-95 | a removed roof changes each neighbour at most on the side facing the roof |
| Joins.RemoveTouchesFacingSide | src/js/sessionAPI/Design.js:98-104 | whatever is removed, each neighbour changes at most on the side facing it |
| Joins.InsertedCubeAgrees | src/js/sessionAPI/Cube.js:20-62 | an inserted cube and each horizontal neighbour agree on their shared wall afterwards |
| Joins.UntouchedWallAgrees | src/js/sessionAPI/Design.js:113-126 | a wall that neither side changed still agrees |
| Joins.RoofFlagAfterSetSurface | src/js/sessionAPI/Roof.js:97-124 | a roof's `setSurface` changes `hasSideSurface` only by clearing it, and only when the side opposite the slope is opened |
| Joins.SetSurfaceTouchesOneSide | src/js/sessionAPI/Design.js:113-126 | `setSurface` changes an object at most on the named side |
| Joins.SetSurfaceBothSidesAgrees | src/js/sessionAPI/Design.js:113-126 | setting the same surface on both sides of a wall makes the two objects agree on it |
| Joins.SetSurfaceIdempotent | src/js/sessionAPI/Design.js:113-126 | setting the same surface twice is the same as setting it once |
| SessionObjects.SnapshotAt | src/js/sessionAPI/Cube.js:20-21 | the value snapshot of a context holds, in each direction, the state of the object in that slot |
| SessionObjects.Cube.constructor | src/js/sessionAPI/Cube.js:8-17 | a new cube without data has all six surfaces SOLID |
| SessionObjects.Cube.FromData | src/js/sessionAPI/Cube.js:5-7 | a cube built from data takes over its surfaces |
| SessionObjects.Cube.HookAfterInsert | src/js/sessionAPI/Cube.js:20-62 | the inserted cube's surfaces and every neighbour's new state are exactly the cube insert rules applied to the old states |
| SessionObjects.Cube.JoinSlot | src/js/sessionAPI/Cube.js:23-61 | the statements for one direction change only this cube's side in that direction and the neighbour in that slot, by the insert rules |
| SessionObjects.Cube.HookBeforeRemove | src/js/sessionAPI/Cube.js:64-98 | every neighbour of the cube changes exactly by the cube remove rules, and the cube itself is unchanged |
| SessionObjects.Cube.SealSlot | src/js/sessionAPI/Cube.js:67-97 | the statements for one direction change only the neighbour in that slot, by the remove rules |
| SessionObjects.Cube.SetSurface | src/js/sessionAPI/Cube.js:100-102 | `setSurface` sets the named side to the given surface and keeps the others |
| SessionObjects.Cube.HasAccessToOutside | src/js/sessionAPI/Cube.js:105-120 | true exactly when some wall in the plane (n, s, e, w) is open onto an empty neighbour |
| SessionObjects.Cube.HasAccessInDirection | src/js/sessionAPI/Cube.js:122-127 | true exactly when the side in that direction has no surface |
| SessionObjects.Roof.constructor | src/js/sessionAPI/Roof.js:9-12 | a new roof without data faces north and has no side surface |
| SessionObjects.Roof.FromData | src/js/sessionAPI/Roof.js:5-8 | a roof built from data takes over its direction and side-surface flag |
| SessionObjects.Roof.HookAfterInsert | src/js/sessionAPI/Roof.js:16-61 | the roof takes the modifier as its direction, its flag follows the roof insert rule and every neighbour changes exactly by the roof insert rules |
| SessionObjects.Roof.JoinSlot | src/js/sessionAPI/Roof.js:22-60 | the statements for one direction clear the flag exactly when a closing cube or paired roof sits in that slot, and change only that neighbour |
| SessionObjects.Roof.HookBeforeRemove | src/js/sessionAPI/Roof.js:63-95 | every neighbour of the roof changes exactly by the roof remove rules, and the roof itself is unchanged |
| SessionObjects.Roof.UnjoinSlot | src/js/sessionAPI/Roof.js:66-94 | the statements for one direction change only the neighbour in that slot, by the remove rules |
| SessionObjects.Roof.SetSurface | src/js/sessionAPI/Roof.js:97-124 | the direction stays and the flag follows the roof `setSurface` rule: only opening the side opposite the slope clears it |
| SessionObjects.SetSurfaceOnCell | src/js/sessionAPI/Design.js:117-119 | calling `setSurface` on a cell changes its object as the rule says; empty cells and tree parts have no `setSurface` and stay |
| SessionObjects.HookBeforeRemoveOf | src/js/sessionAPI/Design.js:99-102 | calling `hookBeforeRemove` on a cell's object changes the neighbours by that object's remove rule; objects without the hook change nothing |
| SessionDesign.FlipSide | src/js/sessionAPI/Design.js:128-198 | the other side of a drawn square is never the side itself |
| SessionDesign.CardinalSideOfFlip | src/js/sessionAPI/Design.js:128-198 | under `getCardinalSide`, opposite sides of the picture are opposite sides of the cell, for every camera |
| SessionDesign.CardinalSideInjective | src/js/sessionAPI/Design.js:128-198 | different sides of the picture map to different sides of the cell |
| SessionDesign.CardinalSideVertical | src/js/sessionAPI/Design.js:128-198 | the top and bottom of a cell are reached exactly from the top and bottom of a side camera's picture; the plan cameras show only walls |
| SessionDesign.NeighboursDiffer | src/js/helpers/Helpers.js:133-143 | the six neighbours of a position are different from each other and from the position |
| SessionDesign.DirTo | src/js/sessionAPI/Design.js:121-124 | for a neighbour q of p, the direction found leads from p to q |
| SessionDesign.NeighbourInjective | src/js/helpers/Helpers.js:133-143 | two positions with the same neighbour in one direction are the same position |
| SessionDesign.OwnedCell | src/js/sessionAPI/Design.js:307-312 | an object found in a cell is recorded at that cell's position |
| SessionDesign.OwnedAfterRecord | src/js/sessionAPI/Design.js:58-64 | recording a new object keeps every cell's object at its recorded position |
| SessionDesign.OwnedAfterUpdate | src/js/sessionAPI/Design.js:307-312 | writing a cell with an object recorded there keeps every cell's object at its recorded position |
| SessionDesign.ContextInAt | src/js/sessionAPI/Design.js:42 | the context of p holds, in each direction, the cell one step away, `null` outside the grid |
| SessionDesign.ContextInIsCellContext3D | src/js/helpers/Helpers.js:133-143 | that context is the bounds-checked `getCellContext3D` of the helpers |
| SessionDesign.ContextSeparate | src/js/sessionAPI/Design.js:42 | the objects of a context are all different from each other and from the object being placed at p |
| SessionDesign.FarFromContext | src/js/sessionAPI/Design.js:42 | cells away from p and its neighbours hold none of the context's objects |
| SessionDesign.CellsSeparate | src/js/sessionAPI/Design.js:307-312 | two different cells never hold the same object |
| SessionDesign.Design.GetCell | src/js/sessionAPI/Design.js:299-305 | `_getCell` gives the cell at p, or `null` outside the grid |
| SessionDesign.Design.SetCell | src/js/sessionAPI/Design.js:307-312 | `_setCell` writes the cell at p and keeps the invariant; a write outside the grid is ignored |
| SessionDesign.Design.Record | src/js/sessionAPI/Design.js:58-64 | recording a new object's position keeps the invariant and the grid |
| SessionDesign.Design.PlacedNeighbours | src/js/sessionAPI/Design.js:57-66 | after a write at p and the hooks, each neighbour cell keeps its object, now in the state the hook gave it |
| SessionDesign.Design.CubePlaced | src/js/sessionAPI/Design.js:57-61 | a fresh cube stored at p and joined by its hook gives the effect of `add(CUBE, p)` |
| SessionDesign.Design.RoofPlaced | src/js/sessionAPI/Design.js:62-66 | a fresh roof stored at p and joined by its hook gives the effect of `add(ROOF, p, modifier)` |
| SessionDesign.Design.AddCube | src/js/sessionAPI/Design.js:57-61 | `add(CUBE, p)` stores a new cube at p, joins it and its neighbours by the cube rules, leaves every other cell as it was and keeps the walls consistent |
| SessionDesign.Design.AddRoof | src/js/sessionAPI/Design.js:62-66 | `add(ROOF, p, modifier)` stores a new roof with that direction, joins it and its neighbours by the roof rules and leaves every other cell as it was |
| SessionDesign.Design.AddTree | src/js/sessionAPI/Design.js:45-56 | `add(TREE, p)` succeeds exactly when p.y < 16; it then writes a trunk at p and foliage above it and nothing else; when refused the grid is unchanged |
| SessionDesign.Design.TreePlaced | src/js/sessionAPI/Design.js:52-53 | two plain writes of trunk and foliage give the effect of a planted tree |
| SessionDesign.Design.Add | src/js/sessionAPI/Design.js:41-70 | `add(obj, p, modifier)` plants, stores or refuses by the object number: CUBE and ROOF give true, TREE as its guard says, any other number gives false and changes nothing, neither the grid nor any object |
| SessionDesign.Design.Cleared | src/js/sessionAPI/Design.js:98-104 | emptying p after the removed object's hook gives the effect of `remove(p)` |
| SessionDesign.Design.Remove | src/js/sessionAPI/Design.js:76-106 | `remove(p)` runs the removed cube's or roof's hook on its neighbours and then empties p; every other cell keeps its object |
| SessionDesign.Design.SurfacesPlaced | src/js/sessionAPI/Design.js:113-126 | cells other than p and its neighbour across the side keep their state under `setSurface` |
| SessionDesign.Design.SetSurface | src/js/sessionAPI/Design.js:113-126 | `setSurface(camera, p, side, v)` sets the cardinal side of p's object and the opposite side of the neighbour across it, and nothing else |
| SessionDesign.Design.PairAwayFrom | src/js/sessionAPI/Design.js:41-126 | a wall that does not touch p stays consistent after an operation at p |
| SessionDesign.Design.WallsAgreeAwayFrom | src/js/sessionAPI/Design.js:41-126 | every wall that does not touch p stays consistent after an operation at p |
| SessionDesign.Design.CubeAddedWall | src/js/sessionAPI/Design.js:57-61 | the walls between a new cube and its neighbours are consistent |
| SessionDesign.Design.CubeAddedKeepsWalls | src/js/sessionAPI/Design.js:57-61 | adding a cube keeps every wall between horizontally adjacent cells consistent |
| SessionDesign.Design.RoofAddedKeepsWalls | src/js/sessionAPI/Design.js:62-66 | adding a roof keeps every wall between horizontally adjacent cells consistent |
| SessionDesign.Design.RemovedKeepsWalls | src/js/sessionAPI/Design.js:76-106 | removing an object keeps every wall between horizontally adjacent cells consistent |
| SessionDesign.Design.TreeAddedKeepsWalls | src/js/sessionAPI/Design.js:45-56 | planting a tree keeps every wall between horizontally adjacent cells consistent |
| SessionDesign.Design.SurfaceSetJointWall | src/js/sessionAPI/Design.js:113-126 | the wall painted by `setSurface` is consistent seen from either side |
| SessionDesign.Design.SurfaceSetOtherWall | src/js/sessionAPI/Design.js:113-126 | every other wall stays consistent under `setSurface` |
| SessionDesign.Design.SurfaceSetKeepsWalls | src/js/sessionAPI/Design.js:113-126 | `setSurface` keeps every wall between horizontally adjacent cells consistent |
| SessionDesign.Design.constructor | src/js/sessionAPI/Design.js:23-32 | a new design starts from the empty world and then holds, cell by cell, the world the sample scene's calls build from the empty one; its walls are consistent |
| SessionDesign.Design.GetSlice | src/js/sessionAPI/Design.js:205-228 | `getSlice` returns the picture the camera sees of slice i |
| SessionDesign.Design.GetBackgroundSlices | src/js/sessionAPI/Design.js:230-275 | `getBackgroundSlices` returns one picture for each slice behind slice i, nearest first |
| SessionDesign.Design.Fill | src/js/sessionAPI/Design.js:331-380 | after `fill` every cell holds the piece that the sample scene's `add` calls, replayed in order on the world the grid held, put there; the walls stay consistent and every object recorded is new |
| SessionDesign.Design.AddObjects | src/js/sessionAPI/Design.js:331-380 | a run of `addObject` calls leaves the grid holding the world those calls build, in order, from the one it held |
| SessionDesign.Design.AddObject | src/js/sessionAPI/Design.js:332-334 | one `addObject` call turns the world the grid holds into the world of that `add` call, keeping the walls consistent |
| SessionDesign.Design.AroundShown | src/js/sessionAPI/Design.js:42 | the context the hooks read around p is what the world the grid holds shows around p, empty outside the grid |
| SessionDesign.Design.KeptPiece | src/js/sessionAPI/Design.js:41-70 | a cell that keeps its object shows that object's new state and keeps its kind |
| SessionDesign.Design.CubeShows | src/js/sessionAPI/Design.js:48-52 | the effect of `add(CUBE, p)` is the cube world: a cube joined to what it sees at p, each neighbour joined by the cube rules, every other cell as before |
| SessionDesign.Design.RoofShows | src/js/sessionAPI/Design.js:53-57 | the effect of `add(ROOF, p, modifier)` is the roof world: a roof facing the modifier, each neighbour joined by the roof rules, every other cell as before |
| SessionDesign.Design.TreeShows | src/js/sessionAPI/Design.js:58-64 | a planted tree gives the tree world: trunk at p, foliage above, every other cell as before |
| SessionDesign.Design.UnchangedShows | src/js/sessionAPI/Design.js:65-69 | a refused call leaves the grid holding the same world |
| SessionDesign.SceneStep | src/js/sessionAPI/Design.js:331-380 | the world after one more call is that call applied to the world before it |
| SessionDesign.RejoinedKeepsKind | src/js/sessionAPI/Design.js:48-57 | the join rules change a neighbour's surfaces or side flag but never its kind nor a roof's slope |
| SessionDesign.SceneKinds | src/js/sessionAPI/Design.js:331-380 | after a run of `add` calls every cell holds an object of the kind the last call that wrote it put there (cube, roof with its modifier, trunk, or the foliage above a trunk), and cells no call writes keep their kind |
| ApiObjects.Roof.constructor | src/api/Roof.js:12-15 | a new roof without data faces north and, unlike the session roof, has a side surface |
| ApiObjects.Roof.FromData | src/api/Roof.js:8-11 | a roof built from data takes over its direction and side-surface flag |
| ApiObjects.Roof.HookAfterInsert | src/api/Roof.js:19-64 | the roof takes the modifier as direction; its flag and every neighbour change exactly by the roof insert rules, with cubes recognised by class identity |
| ApiObjects.Roof.JoinSlot | src/api/Roof.js:25-63 | the statements for one direction clear the flag exactly when a closing cube or paired roof sits in that slot, and change only that neighbour |
| ApiObjects.Roof.HookBeforeRemove | src/api/Roof.js:66-98 | every neighbour changes exactly by the roof remove rules; the roof itself is unchanged |
| ApiObjects.Roof.UnjoinSlot | src/api/Roof.js:66-98 | the statements for one direction change only the neighbour in that slot, by the remove rules |
| ApiObjects.Roof.SetSurface | src/api/Roof.js:100-127 | the direction stays and only opening the side opposite the slope clears the flag |
| LegacyObjects.JoinCubeSlot | src/js/Cube.js:85-138 | the statements of `_getSurfaces` for one direction set that side of the new surfaces and change only that neighbour, by the cube insert rules |
| LegacyObjects.GetSurfaces | src/js/Cube.js:85-138 | `_getSurfaces` returns all-SOLID surfaces opened exactly towards joined neighbours, and joins those neighbours back |
| LegacyObjects.Cube.constructor | src/js/Cube.js:9-13 | a new cube records its position and takes its surfaces from `_getSurfaces`, whose neighbour updates it makes |
| LegacyObjects.Cube.Remove | src/js/Cube.js:140-174 | `remove` changes every neighbour exactly by the cube remove rules; the cube itself is unchanged |
| LegacyObjects.Cube.SealSlot | src/js/Cube.js:140-174 | the statements for one direction change only the neighbour in that slot, by the remove rules |
| LegacyObjects.Cube.SetSurface | src/js/Cube.js:176-178 | `setSurface` sets the named side and keeps the other sides and the position |
| LegacyObjects.Roof.constructor | src/js/Roof.js:10-16 | a new roof records its direction and position, starts with a side surface and is joined by `_checkJoins` |
| LegacyObjects.Roof.CheckJoins | src/js/Roof.js:19-62 | `_checkJoins` clears the flag and changes every neighbour exactly by the roof insert rules |
| LegacyObjects.Roof.JoinSlot | src/js/Roof.js:19-62 | the statements for one direction clear the flag exactly when a closing cube or paired roof sits in that slot, and change only that neighbour |
| LegacyObjects.Roof.Remove | src/js/Roof.js:64-96 | `remove` changes every neighbour exactly by the roof remove rules; the roof itself is unchanged |
| LegacyObjects.Roof.UnjoinSlot | src/js/Roof.js:64-96 | the statements for one direction change only the neighbour in that slot, by the remove rules |
| LegacyObjects.Roof.SetSurface | src/js/Roof.js:98-125 | the direction and position stay and only opening the side opposite the slope clears the flag |
| TopoViews.View | src/api/Topo.js:93-112 | the north view is the map, south mirrored, west transposed, east transposed and mirrored; the cameras above and below get null; each view keeps the map's rectangular shape |
| TopoViews.ViewAt | src/api/Topo.js:93-112 | column i of slice s of every side view is the map cell that camera shows there |
| TopoViews.AllDominates | src/api/Topo.js:132-134 | the whole-profile pair is at least the front pair, the back pair and the centre height |
| TopoViews.ProfileOf | src/api/Topo.js:114-137 | a slice's profile holds one `all`, `front` and `back` pair per column |
| TopoViews.ColumnPairs | src/api/Topo.js:126-134 | one loop iteration computes column i of the three pair lists |
| TopoViews.SliceProfile | src/api/Topo.js:114-137 | the pushing loop builds exactly the slice's profile |
| TopoViews.ProfileDominates | src/api/Topo.js:132-134 | in every column the whole profile lies at or above the front and back profiles |
| TopoViews.CornersOf | src/api/Topo.js:183-202 | the corner map is (length + 1) x (length + 1) |
| TopoViews.Corners | src/api/Topo.js:183-202 | the nested loops fill exactly the corner map |
| TopoViews.CornersCoverCell | src/api/Topo.js:189-197 | each of a cell's four corners is at least the cell's height |
| TopoViews.CornerIsSomeCell | src/api/Topo.js:189-197 | with non-negative heights a corner equals one of its touching cells, or 0 when it touches none |
| TopoViews.SliceTo | src/api/Topo.js:175 | `slice(0, max)` keeps a prefix of min(max, n) elements, or n + max for a negative bound |
| TopoViews.SetHeight | src/js/TopoModel.js:21-23 | writing one cell changes that cell and nothing else |
| TopoViews.RaiseBounded | src/api/Topo.js:22-27 | raising keeps every height within 0..top and the map's shape |
| TopoViews.LowerBounded | src/api/Topo.js:29-34 | lowering keeps every height within 0..top and the map's shape |
| TopoViews.LowerUndoesRaise | src/api/Topo.js:22-34 | a raise that took effect is undone by a lowering of the same cell |
| TopoViews.RaiseUndoesLower | src/api/Topo.js:22-34 | a lowering that took effect is undone by a raise of the same cell |
| TopoViews.TopoSlice | src/api/Topo.js:91-138 | `getSlice` is null exactly for the cameras above and below, otherwise three lists as wide as the view |
| TopoViews.TopoSliceCovers | src/api/Topo.js:125-135 | in every column the whole profile covers the front and back profiles and the height of the map cell shown there |
| TopoViews.SliceOfMap | src/api/Topo.js:91-138 | the `getSlice` body computes exactly the slice |
| TopoViews.KeptIndices | src/api/Topo.js:141-175 | every kept background index is a slice of the camera's axis |
| TopoViews.TopoBackground | src/api/Topo.js:140-178 | one background slice per kept index |
| TopoViews.TopoBackgroundShape | src/api/Topo.js:140-178 | a side camera gets min(max, n) slices, the k-th being the slice of the k-th index behind; the cameras above and below get none |
| TopoViews.BackgroundOfMap | src/api/Topo.js:140-178 | the index loops, the slicing and the mapping compute exactly the background |
| TopoViews.HighestPoint | src/api/Topo.js:204-214 | null exactly when no height is positive, otherwise the first cell in row order that holds the greatest height |
| ApiTopo.Topo.constructor | src/api/Topo.js:9-16 | the given map is kept; without one the map is all zeros |
| ApiTopo.Topo.Thaw | src/api/Topo.js:228-232 | a fresh topography around the stored heights |
| ApiTopo.Topo.Clear | src/api/Topo.js:18-20 | the map becomes all zeros |
| ApiTopo.Topo.Increase | src/api/Topo.js:22-27 | the cell is raised by one only while it stays below zMax; heights stay within 0..zMax - 1 |
| ApiTopo.Topo.Decrease | src/api/Topo.js:29-34 | the cell is lowered by one only while it stays at or above 0; the bound is kept |
| ApiTopo.Topo.GetAt | src/api/Topo.js:40 | the height at (x, y), undefined exactly when x is off the row |
| ApiTopo.Topo.GetSlice | src/api/Topo.js:91-138 | `getSlice` returns the slice of the current map |
| ApiTopo.Topo.GetBackgroundSlices | src/api/Topo.js:140-178 | `getBackgroundSlices` returns the background of the current map |
| ApiTopo.Topo.GetCorners | src/api/Topo.js:183-202 | `getCorners` returns the corner map of the current heights |
| ApiTopo.Topo.GetHighestNonZeroPoint | src/api/Topo.js:204-214 | null exactly when no height is positive, otherwise the first highest cell |
| ApiTopo.Topo.Fill | src/api/Topo.js:216-218 | only cell (12, 8) changes, to 1 |
| SessionTopo.Topo.constructor | src/js/sessionAPI/Topo.js:9-15 | the given map is kept; without one the map is all zeros |
| SessionTopo.Topo.Thaw | src/js/sessionAPI/Topo.js:167-171 | a fresh topography around the stored heights |
| SessionTopo.Topo.Clear | src/js/sessionAPI/Topo.js:17-19 | the map becomes all zeros |
| SessionTopo.Topo.Increase | src/js/sessionAPI/Topo.js:21-26 | the cell is raised by one only while it stays at or below zMax; heights stay within 0..zMax |
| SessionTopo.Topo.Decrease | src/js/sessionAPI/Topo.js:28-33 | the cell is lowered by one only while it stays at or above 0; the bound is kept |
| SessionTopo.Topo.GetAt | src/js/sessionAPI/Topo.js:39 | the height at (x, y), undefined exactly when x is off the row |
| SessionTopo.Topo.GetSlice | src/js/sessionAPI/Topo.js:46-93 | `getSlice` returns the slice of the current map |
| SessionTopo.Topo.GetBackgroundSlices | src/js/sessionAPI/Topo.js:95-133 | `getBackgroundSlices` returns the background of the current map |
| SessionTopo.Topo.GetCorners | src/js/sessionAPI/Topo.js:138-157 | `getCorners` returns the corner map of the current heights |
| SessionTopo.IncreaseReachesZMax | src/js/sessionAPI/Topo.js:21-26 | a cell at zMax - 1 can be raised to zMax here, while the web topography leaves it as it is |
| LegacyTopo.HeightPairIsAllPair | src/js/TopoModel.js:68-69 | the start and end heights are the later topographies' whole-profile pair |
| LegacyTopo.HeightPairCoversCentre | src/js/TopoModel.js:68-69 | both heights are at least the centre cell |
| LegacyTopo.HeightPairsOf | src/js/TopoModel.js:63-71 | one pair per column of the slice |
| LegacyTopo.TopoModelSlice | src/js/TopoModel.js:32-74 | null exactly for the cameras above and below and for a slice past the last one |
| LegacyTopo.TopoModelSliceIsAllProfile | src/js/TopoModel.js:32-74 | on a full-size map the slice is the `all` list of the later `getSlice` |
| LegacyTopo.TopoModel.constructor | src/js/TopoModel.js:9-14 | a yMax x xMax map of zeros |
| LegacyTopo.TopoModel.SetTopoHeight | src/js/TopoModel.js:21-23 | exactly one cell is overwritten, with any value |
| LegacyTopo.TopoModel.GetTopoSlice | src/js/TopoModel.js:32-74 | `getTopoSlice` returns the slice of the current map |
| LegacyDesign.Added | src/js/DesignModel.js:34-60 | `addObject` keeps the grid well formed and a reported failure changes nothing |
| LegacyDesign.Removed | src/js/DesignModel.js:66-93 | `removeObject` keeps the grid well formed |
| LegacyDesign.AddedOccupancy | src/js/DesignModel.js:51-59 | a non-tree object is placed exactly when its cell is empty, and then only that cell changes |
| LegacyDesign.AddedTree | src/js/DesignModel.js:37-50 | a tree is placed exactly when y < yMax - 1 and its cell and the cell above are empty; it writes TREE there and FOLIAGE above, nothing else |
| LegacyDesign.RemoveUndoesAdd | src/js/DesignModel.js:34-93 | removing what was just added gives back the grid, for a single-cell object and for a tree below the top layer |
| LegacyDesign.GridExtensional | src/js/DesignModel.js:203-216 | two well-formed grids that agree on every cell read through `_getCell` are equal |
| LegacyDesign.TopLayerTreeStays | src/js/DesignModel.js:37-50 | a tree planted in the top layer takes its cell (the foliage write falls outside) and `removeObject` then cannot remove it |
| LegacyDesign.AddOutsideSucceeds | src/js/DesignModel.js:51-55 | outside the grid `addObject` reports success and changes nothing |
| LegacyDesign.ReplacePlaces | src/js/DesignModel.js:34-93 | clearing a cell and adding a single-cell object there places it, unless a top-layer tree or bottom-layer foliage stays put |
| LegacyDesign.Replay | src/js/DesignModel.js:230-270 | replaying additions keeps the grid well formed |
| LegacyDesign.InitObjects | src/js/DesignModel.js:219-227 | `_initObjects` gives zMax layers of yMax x xMax nulls |
| LegacyDesign.DesignModel.constructor | src/js/DesignModel.js:16-27 | the world is the empty grid with the sample objects added in order, over the sample hills |
| LegacyDesign.DesignModel.Populate | src/js/DesignModel.js:230-285 | `_populate` adds the sample objects in order and sets the hills on every row |
| LegacyDesign.DesignModel.HillRow | src/js/DesignModel.js:272-283 | the six `setTopoHeight` calls set row y to 2, 2, 2, 1, 1, 1 for x = 0..5 and change nothing else |
| LegacyDesign.DesignModel.GetCell | src/js/DesignModel.js:203-209 | `_getCell` is null outside the grid and the stored cell inside |
| LegacyDesign.DesignModel.SetCell | src/js/DesignModel.js:211-216 | `_setCell` writes the one cell inside the grid and ignores writes outside it |
| LegacyDesign.DesignModel.AddObject | src/js/DesignModel.js:34-60 | the method computes what `addObject` specifies, result and grid |
| LegacyDesign.DesignModel.RemoveObject | src/js/DesignModel.js:66-93 | the method computes what `removeObject` specifies |
| LegacyDesign.DesignModel.GetTopoSlice | src/js/DesignModel.js:102 | the topography slice of the model's map |
| LegacyDesign.DesignModel.GetSlice | src/js/DesignModel.js:109-132 | the 2-D slice of the grid the camera sees at index i |
| LegacyDesign.DesignModel.GetBackgroundSlices | src/js/DesignModel.js:134-179 | yMax - 1 - i slices looking north, i looking south (and so on per axis), each the slice of the k-th index behind |
| Display2D.Moved | src/js/Display2DController.js:51-100 | stepping forward or back keeps every slice index in range |
| Display2D.PreviousUndoesNext | src/js/Display2DController.js:51-100 | a step that moved the slice is undone by the step the other way |
| Display2D.MovedAxis | src/js/Display2DController.js:51-100 | only the camera's own axis moves |
| Display2D.Without | src/js/Display2DController.js:21 | the filtered list holds exactly the views other than the removed one |
| Display2D.Display2DController.constructor | src/js/Display2DController.js:5-17 | slices x = 0, y = 0, z = 6, no views, looking north |
| Display2D.Display2DController.AddListener | src/js/Display2DController.js:19 | the view is appended and the new length returned; nothing else changes |
| Display2D.Display2DController.RemoveListener | src/js/Display2DController.js:21 | a filtered copy without the removed view; the registered views stay |
| Display2D.Display2DController.SetSliceXAxis | src/js/Display2DController.js:173-178 | the x slice changes only to a legal index below xMax; the other fields stay |
| Display2D.Display2DController.SetSliceYAxis | src/js/Display2DController.js:184-189 | the y slice changes only to a legal index below yMax; the other fields stay |
| Display2D.Display2DController.SetSliceZAxis | src/js/Display2DController.js:162-167 | the z slice changes only to a legal index below zMax; the other fields stay |
| Display2D.Display2DController.NextSlice | src/js/Display2DController.js:51-74 | the camera's axis steps away from the camera, within range |
| Display2D.Display2DController.PreviousSlice | src/js/Display2DController.js:77-100 | the camera's axis steps towards the camera, within range |
| Display2D.Display2DController.SetCamera | src/js/Display2DController.js:102-118 | the camera changes and the slice indices are kept |
| Display2D.Display2DController.RotateLeft | src/js/Display2DController.js:120-137 | north goes to east, east to south, south to west, west to north; above and below stay |
| Display2D.Display2DController.RotateRight | src/js/Display2DController.js:139-156 | north goes to west, west to south, south to east, east to north; above and below stay |
| Display2D.Display2DController.GetRelativePosition | src/js/Display2DController.js:228-264 | null exactly when a side camera is clicked above the zMax rows |
| Display2D.ClickInGrid | src/js/Display2DController.js:228-264 | a click inside the canvas gives a position in the grid, on the current slice of the camera's axis |
| DesignControl.DesignController.constructor | src/js/DesignController.js:9-15 | a fresh design model, looking south at slice 0 |
| DesignControl.DesignController.SetCamera | src/js/DesignController.js:100-122 | the camera is set, the slice goes back to 0 and sliceMax becomes zMax (north, south), xMax (west, east) or yMax (top, bottom) |
| DesignControl.DesignController.SetSlice | src/js/DesignController.js:88-94 | only a slice in 0..sliceMax - 1 is taken; otherwise nothing changes |
| DesignControl.DesignController.NextSlice | src/js/DesignController.js:42 | the slice goes up by one exactly when that is legal, and otherwise stays |
| DesignControl.DesignController.PreviousSlice | src/js/DesignController.js:45 | the slice goes down by one exactly when that is legal, and otherwise stays |
| DesignControl.DesignController.RotateLeft | src/js/DesignController.js:65-82 | a side camera turns left and restarts at slice 0; the cameras above and below do nothing |
| DesignControl.DesignController.GetRelativePosition | src/js/DesignController.js:142-202 | for the south, north and bottom cameras the result is null exactly when a side camera's y falls past the back of the grid |
| DesignControl.DesignController.RemoveObject | src/js/DesignController.js:35-39 | the model's grid becomes `removeObject` at the clicked cell |
| DesignControl.DesignController.AddObject | src/js/DesignController.js:23-28 | the clicked cell is cleared first and the object then added there |
| DesignControl.SouthClickInGrid | src/js/DesignController.js:142-202 | looking south a click inside the canvas names picture cell (x, y) on the current z slice, inside the grid |
| DesignControl.NorthClickInGrid | src/js/DesignController.js:142-202 | looking north the picture's x is mirrored and the z slice is counted from the far end, inside the grid |
| Renderer.CellIndexInPicture | src/js/DesignRenderer.js:39-40 | pixels 1..850 fall on cells 0..16 |
| Renderer.DesignRenderer.constructor | src/js/DesignRenderer.js:17-29 | the renderer starts looking south at slice 0 |
| Renderer.DesignRenderer.SetView | src/js/DesignRenderer.js:97-143 | a new view starts at slice 0 with that view's slice count |
| Renderer.DesignRenderer.NextSlice | src/js/DesignRenderer.js:81-87 | the slice goes up by one while it is below sliceMax |
| Renderer.DesignRenderer.PreviousSlice | src/js/DesignRenderer.js:89-95 | the slice goes down by one while it is above 0, so it never becomes negative |
| Renderer.SouthNorthPositionInGrid | src/js/DesignRenderer.js:32-47 | looking south or north a pixel inside the border lies in the grid; north mirrors x and counts the slices from the far end |
| Renderer.NextSliceLeavesGrid | src/js/DesignRenderer.js:81-87 | `nextSlice` can step to sliceMax itself, and the south view then points at z = zMax, outside the grid |
| ConstraintEval.SumOfTruthyAppend | src/api/Constraint.js:92 | one more value adds itself to the running sum exactly when it is truthy |
| ConstraintEval.ReduceSum | src/api/Constraint.js:91-93 | SUM from a defined first value is that value plus every later truthy value |
| ConstraintEval.ReduceMax | src/api/Constraint.js:94-96 | MAX from a defined first value is a number at least the first and every later truthy value, and equal to one of them |
| ConstraintEval.ReduceMin | src/api/Constraint.js:97-99 | MIN from a defined first value is a number at most the first and every later truthy value, and equal to one of them |
| ConstraintEval.ReduceUndefinedSeed | src/api/Constraint.js:90-102 | a missing first value stays undefined when nothing truthy follows and becomes NaN once a truthy value is combined with it |
| ConstraintEval.ReduceSkipsFalsy | src/api/Constraint.js:90-102 | falsy values after the first never change the folded value |
| ConstraintEval.Compare | src/api/Constraint.js:104 | a comparison can hold only for a number; undefined and NaN compare false |
| ConstraintEval.PropValues | src/api/Constraint.js:83 | one value per object, undefined where the property is missing |
| ConstraintEval.ObjectsOf | src/api/Constraint.js:76 | one property record per item, in order |
| ConstraintEval.FilterKinds | src/api/Constraint.js:78-79 | exactly the items of the kept kinds, in order |
| ConstraintEval.Evaluate | src/api/Constraint.js:85-111 | no values give `false`; otherwise violated exactly when the comparison of the folded value differs from the expected result |
| ConstraintEval.NonNumberViolatesExpectedTrue | src/api/Constraint.js:104-106 | a folded undefined or NaN violates a constraint expecting true and satisfies one expecting false |
| ConstraintEval.HasError | src/api/Constraint.js:120-151 | missing data is an error, a remove request never is, and other data is an error exactly when incomplete or matching no allow-list entry (the same code is at src/js/data/Constraint.js:73-104, against that layer's allow-list) |
| ConstraintEval.FromData | src/api/Constraint.js:57-69 | `new Constraint(data)` copies every field of the data |
| ConstraintEval.SameTypeEquivalence | src/api/Constraint.js:114-117 | `isSameType` is reflexive, symmetric and transitive (the same code is at src/js/data/Constraint.js:59-62) |
| ConstraintEval.ParseInt | src/api/Constraint.js:79 | `parseInt` of a number is itself and of a name not starting with a digit is NaN |
| ConstraintEval.LeadingDigits | src/api/Constraint.js:79 | the part `parseInt` reads is all digits and empty when the first character is not a digit |
| ConstraintEval.ObjectsOfKind | src/api/Constraint.js:78-80 | the selected records are exactly those of the items of that kind |
| ApiConstraint.LastMatch | src/api/Constraint.js:10-30 | the index is -1 exactly when no definition's keyword occurs, otherwise the last definition with one |
| ApiConstraint.HardMatchWins | src/api/Constraint.js:20-30 | ambiguous keywords are consulted only when no hard keyword matched |
| ApiConstraint.Definition.constructor | src/api/Constraint.js:34-35 | a definition's default constraint starts without text or value |
| ApiConstraint.Definition.Data | src/api/Constraint.js:34-43 | the default constraint as data is not a remove request and carries the parsed value |
| ApiConstraint.Specs | src/api/Constraint.js:11 | the table entries of the definitions, in order |
| ApiConstraint.NewDefinitions | src/api/Constraint.js:2 | fresh, distinct definition objects, one per table entry, without text or value |
| ApiConstraint.ScanWords | src/api/Constraint.js:13-17 | the inner pass over one definition's words sets the match index to that definition exactly when one of its words is in the text, and otherwise keeps it |
| ApiConstraint.FindMatch | src/api/Constraint.js:11-18 | the nested `forEach` passes compute the last matching definition |
| ApiConstraint.ParseText | src/api/Constraint.js:5-48 | null exactly without a match; otherwise the matched definition itself, given the sentence and the first number; no other definition changes |
| ApiConstraint.Create | src/api/Constraint.js:153-164 | empty text gets the message; otherwise a constraint exactly when the match has a value and passes `hasError`, holding the matched fields |
| ApiConstraint.IsViolated | src/api/Constraint.js:71-112 | `false` when no object of the type exists, otherwise the folded value and whether its comparison differs from the expected result |
| ApiConstraint.Selection | src/api/Constraint.js:72-81 | 'Structure' selects the buildings, 'Any' every object, a number or digit name one kind |
| DataConstraint.AllowList | src/js/data/Constraint.js:65-71 | exactly the five listed combinations (MAX or MIN of structure height or area, MAX of cube distance to access) pass the allow-list test |
| DataConstraint.NonNumericTypeSelectsNothing | src/js/data/Constraint.js:20-25 | without an 'Any' branch, a type name that is not a number selects no object |
| DataConstraint.IsViolated | src/js/data/Constraint.js:18-57 | `false` for an empty selection, otherwise whether the comparison of the folded value differs from the expected result, with that value |
| DataConstraint.Create | src/js/data/Constraint.js:106-117 | empty text gets the message; any other sentence's parse becomes a constraint exactly when complete and allowed, copying its fields |
| TextToConstraint.Get | src/js/helpers/TextToConstraint.js:43-52 | a key reads a value exactly when some entry carries it |
| TextToConstraint.Put | src/js/helpers/TextToConstraint.js:48 | the assigned key reads the new value and every other key reads what it did |
| TextToConstraint.LastKeyFor | src/js/helpers/TextToConstraint.js:43-52 | no key exactly when no entry lists the word, else the key of an entry listing it |
| TextToConstraint.ReverseMap | src/js/helpers/TextToConstraint.js:43-52 | every synonym maps to the last key that lists it, and only synonyms have a value |
| TextToConstraint.GetFnDuality | src/js/helpers/TextToConstraint.js:171-191 | negating the expected result swaps MAX and MIN; `===` gives SUM; no comparison gives no function; expected true with `>`/`>=` gives MIN and with `<`/`<=` MAX |
| TextToConstraint.GetValue | src/js/helpers/TextToConstraint.js:84-95 | null exactly without numbers, otherwise the first non-zero number, or 0 when every number is 0 |
| Text.ContainsAt | src/js/sessionAPI/Constraint.js:74 | `includes` holds exactly when the word starts at some position inside the text |
| Text.ContainsTransitive | src/js/sessionAPI/Constraint.js:74 | a substring of a word found in the text is found in the text |
| Text.ToLower | src/api/Constraint.js:7 | `toLowerCase` keeps the length and lowers each ASCII capital |
| Text.ToLowerIdempotent | src/js/sessionAPI/Constraint.js:166 | lower-casing twice is lower-casing once; text without capitals is unchanged |
| Text.FirstDigitRunIsFirstMatch | src/js/sessionAPI/Constraint.js:128-132 | the first match of `/[0-9]+/` exists exactly when the text has a digit, starts at the first digit and runs to the next non-digit |
| SessionConstraint.TextHas | src/js/sessionAPI/Constraint.js:71-77 | `textHas` holds exactly when some word of the list occurs in the text |
| SessionConstraint.KindList | src/js/sessionAPI/Constraint.js:92-110 | the kind list is never empty; roof only by the cube-and-roof default; cube for a cube or roof word or the default; foliage and trunk for a tree word |
| SessionConstraint.ParseFn | src/js/sessionAPI/Constraint.js:85-90 | MAX exactly when 'any' or 'no' occurs, otherwise SUM; never MIN |
| SessionConstraint.ParseType | src/js/sessionAPI/Constraint.js:92-110 | 'building' exactly when a building word occurs, otherwise the kind list |
| SessionConstraint.ParseProp | src/js/sessionAPI/Constraint.js:112-119 | area before height before ground, null when no such word occurs |
| SessionConstraint.ParseComp | src/js/sessionAPI/Constraint.js:121-126 | `>` for a greater word, else `<` for a fewer word, else `===` |
| SessionConstraint.ParseText | src/js/sessionAPI/Constraint.js:79-159 | null exactly when no property word or no digit occurs; otherwise every field follows its first matching list, in priority order |
| SessionConstraint.Create | src/js/sessionAPI/Constraint.js:161-172 | null for empty text, otherwise the parse of the lower-cased sentence |
| SessionConstraint.KindSet | src/js/sessionAPI/Constraint.js:23 | `type.includes(item.type)` selects exactly the listed kinds; `undefined` matches nothing |
| SessionConstraint.IsViolated | src/js/sessionAPI/Constraint.js:17-53 | `false` when nothing is selected; otherwise whether the comparison with the constraint's number differs from the expected result |
| SessionConstraint.AbsentFromTestSentence | src/App.test.js:19-23 | a word without a space that none of the test sentence's six words contains is absent from it |
| SessionConstraint.TestSentenceNouns | src/App.test.js:19-23 | the test sentence has no negation or 'any' word (the capital N hides 'No') and does have a building word |
| SessionConstraint.TestSentenceHeight | src/App.test.js:19-23 | the test sentence has a height word |
| SessionConstraint.TestSentenceNoArea | src/App.test.js:19-23 | the test sentence has no area word |
| SessionConstraint.TestSentenceNoComparison | src/App.test.js:19-23 | the test sentence has no greater or fewer word |
| SessionConstraint.TestSentenceNumber | src/App.test.js:19-23 | the test sentence's first number is '50' |
| SessionConstraint.ParseTestSentence | src/App.test.js:19-23 | 'No building taller than 50 ft' parses to an expected-true SUM of building heights compared with `===` to '50' |
| MonitorLists.Others | src/api/Monitor.js:62-70 | the kept list holds exactly the old constraints not of the new one's type, in their order |
| MonitorLists.LastSame | src/api/Monitor.js:63-70 | the removed constraint is none exactly when no old one has the type, otherwise the last one that has it |
| MonitorLists.OthersKeepsOnePerType | src/api/Monitor.js:62-70 | filtering a list without type clashes leaves it without clashes |
| MonitorLists.ReplaceKeepsOnePerType | src/api/Monitor.js:62-80 | the kept constraints followed by the new one never hold two of one type |
| ApiMonitor.Violations | src/api/Monitor.js:136-146 | at most one conflict per constraint |
| ApiMonitor.ViolationsAreViolated | src/api/Monitor.js:138-143 | every conflict is a violated constraint of the list, with the value its check computed, in list order |
| ApiMonitor.ViolatedAreViolations | src/api/Monitor.js:138-143 | every violated constraint of the list is reported with its value |
| ApiMonitor.NoViolations | src/api/Monitor.js:136-146 | no conflict is reported exactly when no constraint is violated |
| ApiMonitor.CollectViolations | src/api/Monitor.js:136-163 | the `forEach` loop collects exactly the violations |
| ApiMonitor.MessageLadder | src/api/Monitor.js:97-115 | at most one conflict line, which is absent exactly when there are no conflicts now or before; one conflict is named; three or more ask to stop; resolution is reported; the incompatibility line likewise |
| ApiMonitor.EmptyDesignIsCompatible | src/api/Monitor.js:9-46 | an empty design breaks no system constraint |
| ApiMonitor.FloatingBuildingIsIncompatible | src/api/Monitor.js:28-36 | a building with a positive `floating` measure breaks 'no building floating' with that value |
| ApiMonitor.SplitByType | src/api/Monitor.js:62-70 | the loop keeps the other types in order and remembers the last constraint of the same type |
| ApiMonitor.Monitor.constructor | src/api/Monitor.js:7-50 | no constraints, the four system constraints, no conflicts, incompatibilities or messages |
| ApiMonitor.Monitor.AddCreated | src/api/Monitor.js:58-85 | the text is echoed; a created constraint replaces those of its type and is added unless it asks for removal, with the matching message; anything else is apologised for; no type clash arises |
| ApiMonitor.Monitor.AddConstraint | src/api/Monitor.js:56-86 | an accepted sentence ends the list, replacing its type, and is announced; otherwise only the echo and the apology are added |
| ApiMonitor.Monitor.ClearConstraints | src/api/Monitor.js:88-91 | the constraints are emptied and 'Cleared constraints' is added |
| ApiMonitor.Monitor.CheckConflicts | src/api/Monitor.js:136-146 | the designer's constraints the design violates |
| ApiMonitor.Monitor.CheckIncompatibilities | src/api/Monitor.js:153-163 | the system constraints the design violates |
| ApiMonitor.Monitor.Report | src/api/Monitor.js:97-128 | the messages become the two ladders, the lists are stored, and the answer is whether either list grew |
| ApiMonitor.Monitor.CheckDesign | src/api/Monitor.js:93-129 | both checks run, the messages become the ladders, the lists are stored, and `true` exactly when either list grew |
| SessionMonitor.ViolatedOf | src/js/sessionAPI/Monitor.js:67-82 | at most one conflict per constraint |
| SessionMonitor.ViolatedOfMembers | src/js/sessionAPI/Monitor.js:70-82 | a constraint is reported exactly when it is listed and violated |
| SessionMonitor.ViolatedOfAppend | src/js/sessionAPI/Monitor.js:70-82 | the designer list's conflicts come first, then the system list's |
| SessionMonitor.ViolationLines | src/js/sessionAPI/Monitor.js:86-91 | one 'Violated constraint' line per conflict, in order |
| SessionMonitor.CollectViolated | src/js/sessionAPI/Monitor.js:70-82 | the loop collects exactly the violated constraints |
| SessionMonitor.ListViolations | src/js/sessionAPI/Monitor.js:88-90 | the message loop gives exactly the violation lines |
| SessionMonitor.Monitor.constructor | src/js/sessionAPI/Monitor.js:5-39 | no constraints, the three system constraints, no conflicts, incompatibilities or messages |
| SessionMonitor.Monitor.AddCreated | src/js/sessionAPI/Monitor.js:45-59 | with a supplied same-type test: nothing created changes nothing; a constraint replaces those of its type, goes last and becomes the only message; a list with one constraint per type keeps that property |
| SessionMonitor.Monitor.AddConstraint | src/js/sessionAPI/Monitor.js:43-60 | with a supplied same-type test: accepted exactly when the lower-cased sentence names a property and has a digit; then it ends the list, replacing its type, and is the only message |
| SessionMonitor.AddedAsWritten | src/js/sessionAPI/Monitor.js:45-59 | as written: nothing created is refused; a created constraint raises exactly when the list is not empty, leaving it as it was, and otherwise becomes the whole list |
| SessionMonitor.SecondAddRaises | src/js/sessionAPI/Monitor.js:47-52 | as written the first constraint is taken and the second raises, where the replacement keeps the new constraint and drops the old one exactly when it has the same type |
| SessionMonitor.Monitor.AddCreatedAsWritten | src/js/sessionAPI/Monitor.js:45-59 | the monitor's outcome and list are those of the as-written add; the message is set only when the constraint is taken |
| SessionMonitor.Monitor.AddConstraintAsWritten | src/js/sessionAPI/Monitor.js:43-60 | refused exactly when `create` does not understand the sentence; raises exactly when it does and a constraint is already listed; else the list is that one constraint, announced |
| SessionMonitor.Monitor.CheckConflicts | src/js/sessionAPI/Monitor.js:67-93 | the messages become the report on the violated designer constraints followed by the violated system constraints |
| SessionMonitor.ReportLadder | src/js/sessionAPI/Monitor.js:84-92 | more than three conflicts give one line; otherwise one line per conflict; no conflict, no line |
| SessionMonitor.EmptyDesignBreaksNothing | src/js/sessionAPI/Monitor.js:67-82 | an empty design breaks no constraint |
| IdCounter.Issued | src/helpers/ID.js:3-10 | the first n calls hand out 0, 1, ..., n - 1 |
| IdCounter.IssuedIncreasing | src/helpers/ID.js:7-10 | ids are strictly increasing, so none repeats |
| IdCounter.ID.constructor | src/helpers/ID.js:3-5 | the counter starts at -1 with nothing issued |
| IdCounter.ID.GetNextID | src/helpers/ID.js:7-10 | the id is one more than the last, is remembered, and exceeds every earlier id |
| ActionLog.Listener.constructor | src/js/ActionsAPI.js:20 | a listener with or without an `onAction` method |
| ActionLog.ActionIdInjective | src/js/ActionsAPI.js:16 | different counter values give different `action_<n>` ids |
| ActionLog.Responders | src/js/ActionsAPI.js:19-23 | exactly the listeners with an `onAction` method, in order |
| ActionLog.ActionsAPI.constructor | src/js/ActionsAPI.js:5-9 | no listeners, an empty history and a fresh id counter |
| ActionLog.ActionsAPI.AddListener | src/js/ActionsAPI.js:11 | the listener goes last and the new length is returned |
| ActionLog.ActionsAPI.RemoveListener | src/js/ActionsAPI.js:13 | a filtered copy without the listener; the registered list stays |
| ActionLog.ActionsAPI.OnAction | src/js/ActionsAPI.js:15-24 | the action is recorded under the next id and every listener with `onAction` is called, in order |
| ActionLog.HistoryIdsDistinct | src/js/ActionsAPI.js:15-18 | no two recorded actions share an id |
| PadEdges.Fired | src/helpers/ControlPad.js:31-37 | exactly the buttons down now and not remembered as down fire |
| PadEdges.FiredInOrder | src/helpers/ControlPad.js:31 | the presses fire in index order, each button at most once |
| PadEdges.NoneFiredWhenHeld | src/helpers/ControlPad.js:33 | nothing fires when every button that is down is remembered as down |
| PadEdges.Remembered | src/helpers/ControlPad.js:38 | after a pass every scanned button holds its current state and other entries are kept |
| PadEdges.FiresOnTransition | src/helpers/ControlPad.js:30-39 | over two passes a button fires on the second exactly when it went from up to down; a held button fires once |
| PadEdges.RememberedStep | src/js/helpers/ControlPad.js:30-37 | a button's test reads the cache as it was before the pass, since each index is written only after its own test |
| ControlPad.ScannedButtons | src/helpers/ControlPad.js:30 | buttons are scanned exactly when the list, the first pad and its buttons all exist |
| ControlPad.ControlPad.constructor | src/helpers/ControlPad.js:6-11 | the cache starts empty |
| ControlPad.ControlPad.Loop | src/helpers/ControlPad.js:21-43 | one pass fires exactly the rising edges and remembers every scanned state; without buttons nothing changes |
| LegacyControlPad.Guard | src/js/helpers/ControlPad.js:27-28 | the guard raises a TypeError exactly when the first slot is empty and scans exactly when the first pad has buttons |
| LegacyControlPad.ControlPad.constructor | src/js/helpers/ControlPad.js:5-7 | the press map starts empty |
| LegacyControlPad.ControlPad.InputLoop | src/js/helpers/ControlPad.js:26-41 | the pass fails exactly on the TypeError; a scan fires exactly the rising edges and remembers every state; otherwise nothing changes |
| WalkGrid.CentreWalkable | src/js/helpers/CalculatePath.js:33-71 | no rule ever blocks a block's centre sub-cell |
| WalkGrid.CellRules | src/js/helpers/CalculatePath.js:19-74 | a slope with something in the way blocks the whole border; on flat ground a cube blocks its corners and exactly the wall midpoints it has no access through, any other object the whole border |
| WalkGrid.BlockCell | src/js/helpers/CalculatePath.js:33-72 | the `setWalkableAt(..., false)` calls clear exactly the blocked sub-cells of that cell and nothing else |
| WalkGrid.ScanSlope | src/js/helpers/CalculatePath.js:23-29 | `isObjectInWay` holds exactly when some height from z to the corner height holds an object |
| WalkGrid.BuildGrid | src/js/helpers/CalculatePath.js:8-76 | a (3 xMax) x (3 yMax) grid where a sub-cell is walkable exactly when its cell's rule leaves it free |
| WalkGrid.Cells | src/js/helpers/CalculatePath.js:89-90 | one design cell per route point, each the point's coordinates divided by 3 |
| WalkGrid.RouteCells | src/js/helpers/CalculatePath.js:82 | a route from the start block's centre to the end block's centre maps onto the start cell first and the end cell last |
| LegacyPath.Squash | src/js/helpers/CalculatePath.js:84-97 | merging runs keeps the first and last cell and leaves no repeated neighbours |
| LegacyPath.SquashMembers | src/js/helpers/CalculatePath.js:84-97 | merging keeps exactly the cells of the list |
| LegacyPath.SquashKeepsNoRepeats | src/js/helpers/CalculatePath.js:84-97 | a list without repeated neighbours is left as it is |
| LegacyPath.SquashIdempotent | src/js/helpers/CalculatePath.js:84-97 | merging twice is merging once |
| LegacyPath.CollapsePath | src/js/helpers/CalculatePath.js:84-97 | the loop computes exactly the merged cell list |
| LegacyPath.GetPathWithWallOpenings | src/js/helpers/CalculatePath.js:6-100 | the walk grid, and the route as cells without repeated neighbours from the start cell to the end cell |
| LegacyPath.Steps | src/js/helpers/CalculatePath.js:116-122 | `count` interpolation points, the first being the start point |
| LegacyPath.Segments | src/js/helpers/CalculatePath.js:109-123 | `steps` points per neighbour pair, starting on the first point |
| LegacyPath.Smoothed | src/js/helpers/CalculatePath.js:103-127 | a path of n > 0 points becomes (n - 1) steps + 1 points, from its first point to its last |
| LegacyPath.SegmentPoints | src/js/helpers/CalculatePath.js:116-122 | the inner loop gives exactly the segment's points |
| LegacyPath.SmoothPath | src/js/helpers/CalculatePath.js:103-127 | `smoothPath` computes exactly the smoothed list; for an empty path and at most one step the source returns the one-element list `[undefined]`, which the model gives as the empty list with `undefinedLast` set |
| LegacyPath.Lifted | src/js/helpers/CalculatePath.js:146-150 | one ground point per cell |
| LegacyPath.CalculatePath | src/js/helpers/CalculatePath.js:142-160 | the route's merged cells lifted onto the ground and smoothed with three steps: 3 (n - 1) + 1 points from the start cell to the end cell |
| CirculationPath.GetPathWithWallOpenings | src/helpers/CalculatePath.js:9-87 | the walk grid, and one cell per route point, from the start cell to the end cell |
| SessionFactory.Split | src/api/U5SessionFactory.js:12 | `split(',')` gives at least one piece and no piece holds a comma |
| SessionFactory.SplitJoin | src/api/U5SessionFactory.js:12 | joining the pieces of a list text by commas gives the text back |
| SessionFactory.SplitAfterPiece | src/api/U5SessionFactory.js:12 | splitting a comma-free piece, a comma and a rest gives the piece followed by the rest's pieces |
| SessionFactory.JoinSplit | src/api/U5SessionFactory.js:12 | splitting a joined list of comma-free ids gives the list back |
| SessionFactory.Saved | src/api/U5SessionFactory.js:16 | exactly the listed ids whose data is truthy, in order |
| SessionFactory.ListedIds | src/api/U5SessionFactory.js:7-18 | `getIDList` is empty without a list, and otherwise holds exactly the listed ids with data, none holding a comma |
| SessionFactory.StoredAfterSet | src/api/U5SessionFactory.js:80 | writing a list of comma-free, non-empty ids and reading it back gives the same ids |
| SessionFactory.CounterAdvances | src/api/U5SessionFactory.js:82-90 | a counter stored as n (or missing, read as 0) advances to n + 1 |
| SessionFactory.IdsDistinct | src/api/U5SessionFactory.js:89 | different counters give different ids, and no id is one of the factory's own keys |
| SessionFactory.NextIdHasNoComma | src/api/U5SessionFactory.js:89 | an id is non-empty and holds no comma |
| SessionFactory.U5SessionFactory.constructor | src/api/U5SessionFactory.js:6 | the factory works on the given storage |
| SessionFactory.U5SessionFactory.SetIDList | src/api/U5SessionFactory.js:80 | the list key holds the ids joined by commas; nothing else changes |
| SessionFactory.U5SessionFactory.GetNextID | src/api/U5SessionFactory.js:82-90 | the counter takes its next value and the id is `U5Session_` followed by it |
| SessionFactory.U5SessionFactory.Get | src/api/U5SessionFactory.js:20-31 | the stored data of the id is returned and the list becomes the other saved ids followed by the id |
| SessionFactory.U5SessionFactory.Remove | src/api/U5SessionFactory.js:33-38 | the list becomes the saved ids without the id, and is returned |
| SessionFactory.U5SessionFactory.NewSession | src/api/U5SessionFactory.js:54-63 | a new session under the next id, which is appended to the saved list |
| SessionFactory.U5SessionFactory.Last | src/api/U5SessionFactory.js:40-52 | the last saved session, or a new one when the list is empty |
| SessionFactory.OthersOfListed | src/api/U5SessionFactory.js:26 | the saved ids other than one stay non-empty and free of commas |
| SessionFactory.MostRecentList | src/api/U5SessionFactory.js:26-28 | a list of other ids followed by the id reads back with the id last and only there |
| SessionFactory.GetMakesMostRecent | src/api/U5SessionFactory.js:24-28 | after `get(id)` the list names every other saved id in its old order, then the id, once |
| SessionFactory.RemoveDeletesEvery | src/api/U5SessionFactory.js:33-38 | after `remove(id)` the list names every other saved id in its old order, and not the id |
| SessionFactory.NewSessionAppends | src/api/U5SessionFactory.js:54-63 | after `newSession` the list names the saved ids, in order, then the new id |
| Launcher.Str2Bool | run.py:80-88 | a bool passes through; a string gives True exactly for yes/true/t/y/1 and False exactly for no/false/f/n/0 after lower-casing, and raises otherwise |
| Launcher.Str2BoolIgnoresCase | run.py:83-88 | the answer does not depend on letter case, and it raises exactly for a word on neither list |
| Launcher.Str2BoolTrueVariants | run.py:83-84 | 'True' and 'YES' are true |
| Launcher.Str2BoolOtherVariants | run.py:85-88 | 'F' is false and 'maybe' raises |
| Launcher.PyIntOfString | run.py:116 | `int(str(n))` is n, so a port written out reads back unchanged |
| Launcher.GetFlags | run.py:92-118 | starting from the defaults, the options are applied in command-line order: `-h` exits with status 0, `-b` and `-k` take `str2bool` and raise on other words, a numeric `-t` is kept as text and any other ignored, `-p` takes `int()` and raises ValueError, other options change nothing |
| Launcher.NoOptionsGiveDefaults | run.py:95-103 | no options give (False, True, 8000, 10); a getopt error prints the usage and exits with status 2 |
| Launcher.HelpStops | run.py:105-107 | `-h` prints the usage and exits with status 0, whatever follows |
| Launcher.LaterOptionWins | run.py:104-116 | of two options for the same flag the later one wins, unless it is a non-numeric timeout |
| Launcher.NonNumericTimeoutIgnored | run.py:110-112 | a timeout that is not numeric leaves the flags as they were and raises nothing |
| Launcher.TimeoutReadsBack | run.py:72-75 | the digits after the timeout label of the flags text are `str(timeout)` |
| Launcher.KioskReadsBack | run.py:72-75 | the value before the kiosk comment of the flags text is the kiosk flag, written in lower case |
| Launcher.BrowserOpensServedPort | run.py:56-59 | the browser address holds exactly the served port, as `int()` reads it back, followed by '/' |
| Launcher.KioskOnlyPrefixes | run.py:56-59 | the kiosk arguments are `--kiosk ` followed by the arguments of a normal window |
| Launcher.Launch | run.py:121-130 | after the flags are read: a rebuild when asked, the flags file written, the server started and the browser opened; an exit or error does nothing else |

## Left out

- Rendering and UI: drawing (`draw2D`, `draw3D`, `_getFaces`), the renderers and views, React components. The controllers' views are reduced to the state they hold.
- NLP parsing (`compromise`): its results (has-word tests, extracted values) are parameters of the text parsers.
- `eval` in `isViolated`: modelled as an enumerated comparison operator.
- JSON freeze and thaw of designs, topographies, monitors and sessions, and the `Design` constructor that takes saved objects: serialisation is outside the model. `Topo.thaw` is modelled as taking the parsed heights.
- `Topo.interpolate` and the square-root distances in `src/helpers/CalculatePath.js` (`getDist`, `smoothPath`): floating point.
- `LegacyPath.SmoothPath`: the interpolation is in exact reals, where the source rounds floating-point values. Its `[undefined]` result for an empty path is the empty list with the `undefinedLast` flag set.
- `Helpers.ClosestEdgeInModelSpace`: the remainders and the `===` tie-break between equal distances are computed in exact reals, where the source compares floating-point values.
- `Helpers.GetSafe`: a row shorter than the first one gives `None` where the source reads `undefined` (which `Math.max` then turns into `NaN`); every grid the source builds is rectangular.
- `LegacyTopo.TopoModel.SetTopoHeight`: requires a cell of the map. In the source an x past the end of a row lengthens that row and a y outside the map throws a TypeError; its only caller writes cells of the map.
- `SessionConstraint.IsViolated`: the number is read as decimal. The source builds an `eval` string, in which a number written with a leading zero is octal or a syntax error.
- The design lookup `session.design.getAt` of the path calculators is the parameter `at` of `WalkGrid`, `LegacyPath` and `CirculationPath`; the access flags it reports for a cube are not tied to `SessionObjects.Cube.HasAccessInDirection`.
- Pixel offsets are integers: `Helpers.GridPointInModelSpace`, `Helpers.ClosestEdgeInModelSpace`, `Renderer.CellIndex` and `Renderer.GetPosition` take whole pixels, where a DOM click offset may be fractional. `Helpers.RelativePosition` takes the click already divided by the canvas size, as a real.
- `addNoise`: randomness. It only adds noise fields to points the model does not read.
- The path finder: the finder's route is a parameter, constrained to start and end on the given cells.
- Timers, polling and event plumbing: `setTimeout`, `requestAnimationFrame` and `navigator.getGamepads`. The list of gamepads is a parameter of one control-pad pass.
- `run.py` process work: the server thread, `os.system`, `npm run build` and the file write are returned as effects, not performed. An error while writing the file is not modelled.
- `U5SessionFactory.test`: a manual console check.
- The session objects themselves (`U5Session`) are not modelled: `get`, `newSession` and `last` return which stored data would be opened.
- `src/js/ID.js`, imported by `ActionsAPI.js`, is not part of this model; the counter is modelled after `src/helpers/ID.js`.
- `src/js/sessionAPI/Tree.js` and `src/api/Cube.js` are not part of this model: trunks and foliage are plain cells without hooks, and the `src/api` roof sees its neighbouring cubes only through `ApiObjects.Cube`, a holder of surfaces.
- `CamerasEnum` is not part of this model: it is the six-valued datatype `Common.Camera`, so an unknown camera cannot be passed.
- `Display2DController.addObject` and `removeObject`: they forward a found position to the design model and redraw. The controller's model holds only its camera and slice state, not the design.
- `DesignController`: the WEST, EAST and TOP branches of `_getRelativePosition` read an undefined field, and `_updateView` calls a method `DesignModel` lacks. Both are left out.
- `DesignControl.DesignController.AddObject`: requires a position, because a missing one throws a TypeError in the source.
- `DesignControl.DesignController.RemoveObject`: requires a position, because a missing one throws a TypeError in the source.
- `DataConstraint.Create`: requires no remove flag, which the parser never produces.
- `Design.thaw` in the session design: its loops use a module-scope helper and the wrong bound, so it is left out.
- `SessionMonitor.Monitor.AddConstraint`: in the source any add of an understood sentence to a non-empty list throws a `TypeError`, because the session constraint does not define `isSameConstraintType`. This member gives the replacement the loop is written for, with the same-type test as a parameter; `AddConstraintAsWritten` models the throw.
- `SessionMonitor.Monitor.AddCreated`: likewise, in the source a created constraint added to a non-empty list throws; this member takes the same-type test as a parameter, and `AddCreatedAsWritten` models the throw.
- `SETTINGS.userName`, used in the monitors' messages, is a parameter.
- Letter case and digits: `toLowerCase`, `isnumeric` and `parseInt` are modelled on ASCII. The leading and trailing whitespace and the underscores that `int()` and `parseInt` accept are not modelled, nor is a leading sign: `ConstraintEval.ParseInt` and `SessionFactory.NextCount` give NaN (`None`) for "-1", "+2" or " 3", where `parseInt` reads -1, 2 and 3.
- The test expectations in `src/App.test.js` other than the ones stated in `SessionConstraint` are not restated.

## Findings

| source | as written | input that shows it | evidently intended | confidence | as-written member | corrected member |
|---|---|---|---|---|---|---|
| src/js/sessionAPI/Monitor.js:49 | `addConstraint` calls `old.isSameConstraintType(constraint)` on each listed constraint, and the session constraint (src/js/sessionAPI/Constraint.js) defines no such method | two understood sentences in a row: the first is listed, the second throws a `TypeError` and the list keeps only the first | the new constraint replaces those of its type and goes last | high, not executed | SessionMonitor.Monitor.AddConstraintAsWritten, SessionMonitor.SecondAddRaises | SessionMonitor.Monitor.AddConstraint |
