# Hex island terrain and player controller — a Dafny model

This project models two pieces of logic from a three.js game.

**The island builder** walks the tile grid [-15, 15]² with tileX outer and tileY inner. It places each cell on an offset-row hexagon layout (`tile2position`) and skips cells farther than 16 from the origin. Every other cell goes, with its height, to `HexagonBox.addHexagon`. That call:
- classifies the height into a `HexagonType` with a first-match chain of `>=` thresholds;
- builds the tile's hexagonal prism (`Hexagon`);
- appends the prism to the batch of its category in a JavaScript `Map`;
- for STONE and SAND tiles, may append a small stone sphere to the STONE batch, behind a random gate.

After the walk, `init` adds one mesh per batch, in the map's insertion order.

**The player controller** keeps a map of held keys, a run toggle, the current animation, and the positions of the model and of the camera that follows it. It has:
- key handlers and the run toggle;
- the direction offset, a decision table over w/a/s/d;
- the per-frame `update`, which picks "Run" or "Idle", moves the model and the camera, and cross-fades the animations.

Modules, one per source file, plus three shared ones:

- `Geometry` holds vectors and the opaque geometry pieces: box, cylinder, sphere. A piece is its constructor parameters plus where its origin was translated to. Merging geometries is sequence append.
- `Biome` holds the `HexagonType` enum, the height thresholds and the classification. It is a separate module because `hexagon.ts` and `hexagonBox.ts` import each other, and Dafny modules may not.
- `JsOps` holds JavaScript's truncated `%` and ASCII `toLowerCase`.
- `Hexagon` models `src/hexagon.ts`.
- `HexagonBox` models `src/hexagonBox.ts`. The class keeps the map as `keys` (insertion order) plus `geometries`. `Place` is the value-level meaning of one `addHexagon`.
- `MainScene` models `src/mainScene.ts`. `Build` folds `Place` over a sequence of cells, and `Terrain` is that fold over the island's cells. The grid walk is imperative and is proved to compute `Terrain`.
- `PlayerControls` models `src/playerControls.ts`.

Three members of `MainScene` exist only to keep the proof of the grid walk small:
- `Visited` is the list of island cells the walk has passed.
- `WalkedTo` says the batches and draws equal the fold over `Visited`. It is stated for "every list equal to `Visited`", so the fold is only unfolded where a proof names it.
- `AnIsland` hands the walk a ghost set that satisfies the island characterisation, so the distance test is only unfolded for the cell at hand.

Nondeterministic inputs are explicit parameters:
- Heights are a function from cell to `real`.
- `Math.random` is a sequence of draws. Each operation returns the draws it did not use.
- The walk direction that `updateWalkingDirection` computes is an input to `update`.

## Model

| member | source | states |
|---|---|---|
| Biome.Classify | src/hexagonBox.ts:44-58 | h >= 8 gives STONE, 7 <= h < 8 DIRT2, 5 <= h < 7 GRASS, 3 <= h < 5 SAND, h < 3 DIRT, each an if-and-only-if; never WATER |
| Biome.ThresholdsStrictlyDecreasing | src/hexagonBox.ts:21-27 | with MAX_HEIGHT = 10 the thresholds are 8, 7, 5, 3, 2, 0 and strictly decreasing |
| Biome.ClassifyMonotone | src/hexagonBox.ts:46-58 | a higher tile never gets a lower category |
| JsOps.RemTwo | src/mainScene.ts:117 | JavaScript `tileY % 2`: -1, 0 or 1, zero iff even, 1 iff odd and positive, -1 iff odd and negative |
| JsOps.RemTwoOdd | src/mainScene.ts:117 | the truncated remainder is an odd function |
| JsOps.RemTwoStep | src/mainScene.ts:117 | consecutive rows differ in truncated parity by exactly one |
| JsOps.LowerChar | src/playerControls.ts:178 | upper-case ASCII letters move up by 32, to the lower-case letter; every other character is kept |
| JsOps.ToLower | src/playerControls.ts:178 | `toLowerCase` keeps the length and lower-cases character by character |
| JsOps.ToLowerIdempotent | src/playerControls.ts:177-183 | lower-casing twice equals lower-casing once, so a key name stored by a handler is already in lower case |
| Geometry.Translated | src/hexagon.ts:15 | `translate(v)` moves the piece's origin by exactly v and changes nothing else |
| Hexagon.TileGeometry | src/hexagon.ts:14-15 | closed cylinder of radius 1, 6 radial segments and 1 height segment, height = tile height, base at y = 0, top at y = height, planar position at world x/z |
| Hexagon.Hexagon.constructor | src/hexagon.ts:12-16 | the stored kind is the argument; the geometry is the prism translated by (x, height/2, y) |
| HexagonBox.Scatters | src/hexagonBox.ts:71 | the categories whose tiles go through the stone gate: STONE and SAND |
| HexagonBox.SeedBatches | src/hexagonBox.ts:35-39 | exactly the keys STONE, DIRT, DIRT2, GRASS, SAND, each holding just `BoxGeometry(x, y, z)`; every reachable category is present, WATER is not |
| HexagonBox.StoneFrom | src/hexagonBox.ts:105-115 | the stone is a 7x7 sphere at the tile height; draws in [0,1) give a radius in [0.1, 0.4) and a jitter in [0, 0.4) on x and z |
| HexagonBox.Place | src/hexagonBox.ts:43-86 | one `addHexagon` keeps the key set and consumes a suffix of at most 4 draws |
| HexagonBox.PlaceFrame | src/hexagonBox.ts:60-85 | every batch only grows (the old batch is a prefix). Only the tile's batch and STONE can change, and STONE changes for another category only when a stone fires. The tile's batch becomes exactly old + [tile] unless it is STONE and a stone fires too |
| HexagonBox.PlaceKeeps | src/hexagonBox.ts:64-84 | a piece already in a batch is still there afterwards |
| HexagonBox.PlaceLands | src/hexagonBox.ts:60-68 | a tile whose category has a batch is in that batch afterwards |
| HexagonBox.PlaceTile | src/hexagonBox.ts:60-68 | with no batch for its category the call changes nothing and draws nothing. Otherwise the tile's prism is the next piece of that batch, and the last one unless a STONE tile's gate fires |
| HexagonBox.PlaceGate | src/hexagonBox.ts:70-84 | a draw is consumed iff the tile has a batch and is STONE or SAND; a stone is added iff that draw > 0.8 and a STONE batch exists; it uses the next three draws and ends the STONE batch, after the tile |
| HexagonBox.PlaceCounts | src/hexagonBox.ts:60-85 | every batch gains one prism iff it is the tile's category, and one sphere iff it is STONE and the gate fired, and grows in length by exactly those pieces, so nothing else is merged |
| HexagonBox.PlaceCountsAt | src/hexagonBox.ts:60-85 | the same prism, sphere and length counts, for one named batch |
| HexagonBox.PlaceDraws | src/hexagonBox.ts:70-112 | with every reachable category present, one call uses one draw for a STONE or SAND tile plus three per stone it adds |
| HexagonBox.HexagonBox.Set | src/hexagonBox.ts:64-68 | `Map.set`: the new map is the old one with the key updated; an existing key keeps its position in the order, a new key goes last |
| HexagonBox.HexagonBox.constructor | src/hexagonBox.ts:32-41 | exactly the keys STONE, DIRT, DIRT2, GRASS, SAND, in that order, each holding `BoxGeometry(x, y, z)`; no WATER |
| HexagonBox.HexagonBox.AddHexagon | src/hexagonBox.ts:43-86 | the keys and their order are unchanged, and the new batches and unused draws are exactly `Place` of the old ones |
| HexagonBox.HexagonBox.CreateStone | src/hexagonBox.ts:105-115 | uses three draws in the order x jitter, z jitter, radius, and returns the rest |
| HexagonBox.NoTileDropped | src/hexagonBox.ts:61-68 | once every reachable category has a batch (as after construction), the tile's batch always gains its prism |
| MainScene.Tile2Position | src/mainScene.ts:116-118 | z = j·1.535; even rows x = i·1.77; odd rows shift by +0.5 column above the axis and by -0.5 below it |
| MainScene.Skipped | src/mainScene.ts:40 | the island test `position.length() > size + 1`, written on squares: x² + z² > 256 |
| MainScene.Kept | src/mainScene.ts:38-40 | a cell passes the island test at its `tile2position` |
| MainScene.InSquare | src/mainScene.ts:36-37 | the cells the two loops range over: both coordinates in [-15, 15] |
| MainScene.SkippedIffLengthExceeds | src/mainScene.ts:40 | comparing x² + z² with 256 agrees with comparing the length with 16 |
| MainScene.KeptInsideSquare | src/mainScene.ts:36-40 | every cell of the plane that passes the island test has \|tileX\| <= 9 and \|tileY\| <= 10, so the loop bounds never cut the disc |
| MainScene.FarRowSkipped | src/mainScene.ts:38-40 | rows with \|tileY\| >= 11 fail the island test |
| MainScene.FarColumnSkipped | src/mainScene.ts:38-40 | columns with \|tileX\| >= 10 fail the island test, whatever the row shift |
| MainScene.OriginKept | src/mainScene.ts:36-40 | cell (0, 0) is at the origin and is kept |
| MainScene.LayoutPointSymmetric | src/mainScene.ts:116-118 | cell (-i, -j) lies opposite cell (i, j), so the island is point-symmetric |
| MainScene.AdjacentRowsInterlock | src/mainScene.ts:116-118 | neighbouring rows are offset by exactly half a column and one row spacing |
| MainScene.Island | src/mainScene.ts:36-40 | the set of kept cells of the square satisfies the island characterisation |
| MainScene.IslandUnique | src/mainScene.ts:36-40 | only one set satisfies that characterisation |
| MainScene.RowCellsExact | src/mainScene.ts:37-40 | one pass of the inner loop visits exactly the island cells of its row, in increasing tileY |
| MainScene.GridCellsMembers | src/mainScene.ts:36-40 | the rows walked so far hold exactly their island cells |
| MainScene.GridCellsOrdered | src/mainScene.ts:36-37 | cells are visited in lexicographic order, tileX outer, tileY inner |
| MainScene.IslandCellsExact | src/mainScene.ts:33-40 | the walk hands over exactly the cells of [-15,15]² within 16 of the origin, each once, in order, at most 961 |
| MainScene.Build | src/mainScene.ts:36-46 | handing cells over one by one keeps the key set and consumes at most 4 draws per cell |
| MainScene.BuildStep | src/mainScene.ts:44 | handing over one more cell is one more `addHexagon` on the result so far |
| MainScene.TallyTotal | src/hexagonBox.ts:46-58 | every cell falls in exactly one of the five categories, none in WATER |
| MainScene.BuildAppendOnly | src/hexagonBox.ts:64-84 | over a whole walk every batch only grows |
| MainScene.BuildPlacesEveryTile | src/mainScene.ts:36-46 | every handed-over tile whose category has a batch ends up in that batch |
| MainScene.BuildPlacesTile | src/mainScene.ts:36-46 | the same, for one cell |
| MainScene.BuildLastTile | src/mainScene.ts:44 | the last cell's tile lands in its batch |
| MainScene.BuildKeepsTile | src/mainScene.ts:44 | a tile placed earlier survives the last step |
| MainScene.BuildCounts | src/mainScene.ts:36-46 | each batch gains exactly as many prisms as cells classified into it, no batch but STONE gains a sphere, and every piece a batch gains over the walk is a prism or a sphere |
| MainScene.BuildConstantDraws | src/hexagonBox.ts:70-73 | with every draw equal to v: no stones if v <= 0.8, else exactly one stone per STONE or SAND tile |
| MainScene.Terrain | src/mainScene.ts:23-46 | the batches after the walk have exactly the five seeded keys |
| MainScene.SeededConservation | src/mainScene.ts:23-46 | from fresh batches: one prism per handed-over cell across the five batches, each batch still starts with its seed box, spheres only in STONE, and each batch is its seed box plus its prisms and spheres, nothing else |
| MainScene.SeedBoxIsEmpty | src/hexagonBox.ts:35-39 | the seed box `BoxGeometry(0, 0, 0)` is neither a prism nor a stone |
| MainScene.EmptyConservation | src/mainScene.ts:36-46 | from five batches with no prisms or stones, the prisms add up to the number of cells, only STONE can hold stones, and every piece added is a prism or a stone |
| MainScene.TerrainConservation | src/mainScene.ts:23-46 | the finished island has one prism per island cell, stones only in STONE, and each batch holds its seed box, its prisms and its stones and nothing else: no geometry lost or duplicated |
| MainScene.BuildDraws | src/mainScene.ts:36-46 | over a whole walk with every reachable category present, the draws used are one per STONE or SAND tile plus three per stone added to STONE, so the stones are exactly the fired gates |
| MainScene.TerrainStones | src/mainScene.ts:23-46 | for the finished island, the draws used are one per STONE or SAND island tile plus three per stone in STONE |
| MainScene.Meshes | src/mainScene.ts:48-50 | one mesh per key, in key order, each carrying its key's batch |
| MainScene.SeededMeshes | src/mainScene.ts:48-50 | over the constructor's keys the meshes come in the order STONE, DIRT, DIRT2, GRASS, SAND |
| MainScene.TerrainMeshes | src/mainScene.ts:48-50 | the finished terrain gives exactly five meshes in that order |
| MainScene.MainScene.Init | src/mainScene.ts:19-50 | `init` appends exactly the five meshes of `Terrain`, in insertion order |
| MainScene.MainScene.AddMeshes | src/mainScene.ts:48-50 | the loop over the map appends one mesh per key, in key order |
| MainScene.VisitSkipped | src/mainScene.ts:40 | a cell outside the island leaves the walk's state unchanged |
| MainScene.VisitKept | src/mainScene.ts:38-44 | an island cell is exactly one more `addHexagon`, with draws enough for it |
| MainScene.WalkStart | src/mainScene.ts:36-37 | the walk starts from the untouched batches and draws |
| MainScene.RowEnd | src/mainScene.ts:36-37 | the end of one row is the start of the next |
| MainScene.WalkEnd | src/mainScene.ts:36-46 | after the last row the walk has handed over exactly the island's cells |
| MainScene.WalkIsTerrain | src/mainScene.ts:36-46 | a walk from the seeded batches ends in `Terrain` |
| MainScene.IslandCellsOf | src/mainScene.ts:36-40 | any characterisation of the island walks the same cells |
| MainScene.AddIsland | src/mainScene.ts:36-46 | the nested loops leave the batches and draws exactly as the fold over the island cells does; the keys are unchanged |
| MainScene.AddRow | src/mainScene.ts:37-45 | one pass of the inner loop extends that fold by the island cells of the row |
| MainScene.AddCell | src/mainScene.ts:38-44 | a skipped cell changes nothing; a kept cell is one `addHexagon` with its height |
| PlayerControls.Pressed | src/playerControls.ts:135-151 | `keyPressed.get(k)` as a condition: true only for a key whose last event was keydown; an unseen key reads `undefined`, which is falsy |
| PlayerControls.IntentOf | src/playerControls.ts:135-153 | forward is 1 iff w is held, -1 iff s is held without w; left is 1 iff a is held, -1 iff d is held without a |
| PlayerControls.AnyPressed | src/playerControls.ts:66 | `some` over the keys is true iff some listed key is pressed; an unseen key counts as released |
| PlayerControls.DirectionOffset | src/playerControls.ts:132-156 | the offset in units of pi/4 is in -3..4; it is 0 with no direction; otherwise turning straight ahead by it faces exactly where the keys point, with w over s and a over d |
| PlayerControls.TurnsDistinct | src/playerControls.ts:132-156 | the eight offsets face eight different ways, so the offset is the only one meeting that contract |
| PlayerControls.TurnTable | src/playerControls.ts:133-153 | the headings of offsets -3..4: s+d, d, w+d, w, w+a, a, s+a, s |
| PlayerControls.DirectionPrecedence | src/playerControls.ts:135-153 | with w held, s does not matter; with a held, d does not matter |
| PlayerControls.RunIffIntent | src/playerControls.ts:66-74 | a direction key is pressed iff the keys ask for a direction other than standing still |
| PlayerControls.Step | src/playerControls.ts:103-105 | the frame's displacement lies in the ground plane and is zero for a zero walk direction |
| PlayerControls.WantedAction | src/playerControls.ts:66-71 | "Run" iff one of w, a, s, d is pressed, otherwise "Idle" |
| PlayerControls.PlayerControls.constructor | src/playerControls.ts:38-59 | no key seen, run toggled on, the given action current and played if it exists |
| PlayerControls.PlayerControls.SwitchToggleRun | src/playerControls.ts:61-63 | negates the toggle and changes nothing else, so two calls restore it |
| PlayerControls.PlayerControls.KeyDown | src/playerControls.ts:177-179 | the lower-cased key becomes pressed; no other key changes |
| PlayerControls.PlayerControls.KeyUp | src/playerControls.ts:181-183 | the lower-cased key becomes released; no other key changes |
| PlayerControls.PlayerControls.Update | src/playerControls.ts:65-89 | moves only while running, and even when the switch gives up. It switches action only when the action changes and both actions exist, fading out then resetting, fading in and playing. An early return skips the mixer update. A current action that exists keeps existing. The camera-to-model offset in x and z is kept |
| PlayerControls.PlayerControls.Move | src/playerControls.ts:103-110 | the model and the camera move by the same x/z step, so their offset is kept and their heights do not change |
| PlayerControls.PlayerControls.UpdateCameraTarget | src/playerControls.ts:91-101 | the camera moves by exactly (moveX, 0, moveZ) |

## Left out

- The noise field and the height remap `((noise + 1) / 2)^1.5 · 10` (src/mainScene.ts:34, 42-43) belong to a foreign library and need non-polynomial floating point. Heights are an input function.
- `Math.random` is a finite sequence of draws. `Init` therefore requires 4 · 961 of them, enough for every cell; the source's random source never runs out.
- `mergeBufferGeometries` is sequence append of opaque pieces. Vertex and index data are not modelled.
- Textures, materials, `getMesh`, the sea, container and floor meshes, the scene background, the environment map and shadows are rendering. A mesh is its category plus its batch.
- Numbers are mathematical reals, not IEEE doubles. Rounding is not modelled.
- The island test compares squares instead of taking `length()`. `SkippedIffLengthExceeds` ties the two together.
- `toLowerCase` is modelled on ASCII letters only. Other Unicode case mappings are not modelled.
- `updateWalkingDirection` (atan2, quaternions, normalisation, axis-angle rotation) is floating-point trigonometry inside three.js. Its result, the walk direction, is an input to `Update`, and the model's rotation is not modelled.
- The `cameraTarget` writes and the dead `pointerControls.moveForward` access in `updateCameraTarget` are left out.
- Event-listener registration, `handlePointerChange` and `console.log` are browser side effects.
- The animation mixer and the animation actions are outside the model. The model records what the controller asks of them as a log of effects.
- `HexagonBox.HexagonBox.constructor` writes the five `set` calls on an empty map as the state they leave, not as five calls.
- The grid walk of `init` is split into `AddIsland`, `AddRow` and `AddCell`: the two loops and the loop body. The `continue` is an early return from `AddCell`.
- `Init` creates the batches with `BoxGeometry(0, 0, 0)`, as the source does. The `envMap` argument is not modelled.
- `HexagonBox.HexagonBox.constructor`, `AddHexagon`, `Set` and the `PlayerControls` methods state their effect on their own object. Aliasing between these objects and the rest of a three.js scene is not modelled.

The model follows the code as written, including these details:
- the row shift uses JavaScript's truncated `%`, so odd negative rows shift left;
- every batch starts with a `BoxGeometry` seed, so all five batches exist even when empty of tiles;
- `addHexagon` on a missing batch silently does nothing rather than failing;
- a tile's height is not validated;
- the growing batch is re-merged on every tile.
