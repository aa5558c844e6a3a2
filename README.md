# Tile strips packed into one mesh

This project models the core of a browser sketch (`3/src/index.js`) that splits the window into four vertical strips. Each strip is a `Tile`. The tiles are packed into one set of flat vertex buffers and drawn with a single draw call. Every frame, each tile rewrites its own slots of the geometry's attribute arrays in place.

The model has five modules:

- `Layout`: the strip widths (`getStepW`), the prefix sum of widths (`getLength`, a loop) and the lemmas about the partition. The strips meet edge to edge and span exactly [-W/2, W/2].
- `TileGeometry`: the pure helpers. These are the per-face corner table (`getPositionAndSize`), the three-way aspect class (`getDirection`), `getCenter` and `getScreenPosition`.
- `Buffers`:
  - the specification functions for the nine push arrays and the counter (`BufferState`) and for what one initial draw appends (`Drawn`);
  - the `MeshBuffers` class, which holds those arrays and `totalRenderCount`;
  - the `Geometry` class, which holds what `addTilesToScene` copies out of them. The five attributes that update drawing rewrites (position, size, direction, ratio, weight) are `array<real>`. The ones it never writes (index, indices, uv, padding and totalIndex) are `seq`s;
  - the in-place writes `setXYZ`/`setXY`/`setX`, specified by `Splice`;
  - the update-mode rewrite of one tile's block (`Redraw`), with the lemmas that it touches only that block.
- `Tiles`: the `Tile` class. Its constructor draws in initial mode, `DrawInitial` is `draw(false)`, `DrawUpdate` is `draw(true)` and `Update` is `update`. The nested face/corner loops carry invariants against the specification functions.
- `Scene`: the module-level state as the class `Sketch`, with these operations:
  - `createTiles`: reset the buffers, build four strips and copy the buffers into the geometry;
  - `render`: the time latch, every tile redrawn in update mode, and the re-arm guard;
  - `onResize`/`setSize`;
  - lemmas about a whole frame: when the tiles' ids are distinct (as after a single `createTiles`), every tile's block holds exactly that tile's entries.

The model follows the code in three places where what it does is easy to misread:

- `onResize` only calls `setSize`. It does not rebuild the tiles or the buffers. `getScreenPosition` still reads the current window width while the strips keep the layout of the old width, so once the window narrows enough the weights drawn each frame leave [0,1]: strip 3 of a layout for a 1000-wide window gets x = 1.219 at width 500 (`Scene.ResizedStripLeavesUnitInterval`).
- `createTiles` empties the buffers and resets `totalRenderCount`, but never empties `tiles`. A second call would leave the earlier tiles in front of the new ones, and `render` would redraw them all (`Scene.Sketch.CreateTiles` states the kept prefix).
- Update mode writes the tile's `impulse` (0 unless `update` is given an argument) into the `ratio` attribute. The random `ratio` chosen in the constructor therefore survives only until the first frame.

## Model

| member | source | states |
|---|---|---|
| Layout.StepW | 3/src/index.js:157-160 | in a window of positive width every strip has positive width below half the window |
| Layout.GetLength | 3/src/index.js:162-168 | the downward loop over strips index-1 .. 0 returns the reference prefix sum LeftOffset(index) of the strip widths |
| Layout.LeftOffsetClosedForm | 3/src/index.js:157-168 | a short strip and a long strip together take half the window, so the offset of strip 2m is m half-widths and of strip 2m+1 one short strip more |
| Layout.StripsAreAdjacent | 3/src/index.js:157-177 | the right edge of strip i is the left edge of strip i+1, and in a window of positive width every strip has positive width |
| Layout.StripsSpanViewport | 3/src/index.js:170-177 | strip 0 starts at -W/2, strip 3 ends at W/2, and the four widths add up to W |
| Layout.LayoutOfThousandWideViewport | 3/src/index.js:157-177 | for W = 1000 the widths are 219, 281, 219, 281, the offsets 0, 219, 500, 719 and the left edges -500 .. 219 |
| TileGeometry.PositionAndSize | 3/src/index.js:210-276 | on a tile at least 2*PADDING wide and high with non-negative depth, every corner of every face lies on the tile's box (x in [x, x+w], y in [y, y+h], z in [0, z]) and every face size is non-negative |
| TileGeometry.FrontFaceSpan | 3/src/index.js:214-221 | on a tile at least 2*PADDING wide and high, front corner 0 is the lowest-leftmost and corner 2 the highest-rightmost point, every corner lies between them at the tile's depth, and their distance is the face size written with every corner |
| Buffers.FrontTrianglesWinding | 3/src/index.js:335-343 | each of the two triangles (corners 0,1,2 and 2,3,0) has twice-signed-area (w-2*PADDING)(h-2*PADDING), so both run counter-clockwise on a face of positive size and together cover it |
| TileGeometry.FaceIsQuad | 3/src/index.js:210-276 | for every one of the six faces the four corners form a parallelogram along the axes whose two edges are as long as the face's w and h |
| TileGeometry.FlatTileSideFacesDegenerate | 3/src/index.js:223-267 | for a tile with z = 0, as the constructor makes it, the side faces have width 0, the top and bottom faces height 0, and every corner lies at z = 0 |
| TileGeometry.Direction | 3/src/index.js:349-357 | the result is -1 exactly when abs(w-h) < 100, 1 exactly when abs(w-h) >= 100 and w > h, and 0 exactly when abs(w-h) >= 100 and w <= h |
| TileGeometry.DirectionSwap | 3/src/index.js:349-357 | swapping w and h keeps the neutral class and exchanges wide (1) with tall (0) |
| TileGeometry.DirectionExamples | 3/src/index.js:349-357 | (500,450) is neutral, (500,300) wide and (300,500) tall |
| TileGeometry.Center | 3/src/index.js:358-363 | the centre is as far from the left edge as from the right edge, and as far from the bottom as from the top |
| TileGeometry.ScreenPosition | 3/src/index.js:364-372 | the screen position gives the centre back: x*W - W/2 and y*H - H/2 are the centre's coordinates |
| TileGeometry.CenteredTileMapsToMiddle | 3/src/index.js:364-372 | a tile centred on the origin has screen position (0.5, 0.5) whatever the window size |
| TileGeometry.ScreenPositionInUnitSquare | 3/src/index.js:364-372 | a tile that lies inside the window has its screen position in [0,1] x [0,1] |
| Tiles.RandomRatio | 3/src/index.js:194 | for a random value in [0,1) the ratio lies in [0.4, 0.6) |
| Tiles.RandomRatioSymmetric | 3/src/index.js:194 | the ratio is symmetric about 0.5: random values r and 1-r give ratios equally far from it |
| Tiles.Tile.constructor | 3/src/index.js:187-199 | the tile takes its bounds with z = 0, the ratio from the random value and impulse 0; it takes the id equal to the counter before it, and the buffers become Drawn of the old buffers |
| Tiles.Tile.DrawInitial | 3/src/index.js:309-347 | the id is the old totalRenderCount, and the buffers become exactly Drawn of the old ones: every stream appended, the counter incremented |
| Tiles.Tile.DrawUpdate | 3/src/index.js:278-307 | the tile's block exists, and the attribute arrays become Redraw of the old ones with the tile's bounds, its impulse as the ratio and its screen position |
| Tiles.Tile.Update | 3/src/index.js:200-209 | with an argument the tile takes its x, y, w, h and impulse; without one the fields stay; z, ratio and id never change; the tile's block is then redrawn as in update mode |
| Buffers.SlotsAreDisjoint | 3/src/index.js:284 | slot id*FACE_NUM*4+k*4+j lies in tile id's block, and two slots are equal exactly when their tile, face and corner are |
| Buffers.BlocksAreDisjoint | 3/src/index.js:282-307 | the blocks of two different ids do not overlap, whatever the number of values per vertex |
| Buffers.TileQuadsAt | 3/src/index.js:335-343 | index q of face k's six indices is the slot of corner 0,1,2,2,3,0 in order, and lies inside the tile's block |
| Buffers.Drawn | 3/src/index.js:309-347 | what one initial draw appends; its properties are stated by DrawnAppends, DrawnVertex, DrawnQuad and DrawnKeepsWellFormed below |
| Buffers.DrawnAppends | 3/src/index.js:313-346 | an initial draw keeps every stream's old contents as a prefix, grows vertices by 12*FACE_NUM, size/weights/paddings/uvs by 8*FACE_NUM, directions/ratios/index by 4*FACE_NUM, indices by 6*FACE_NUM, and increments the counter |
| Buffers.DrawnVertex | 3/src/index.js:313-326 | vertex k*4+j of the new tile gets the tile's id, its ratio, its direction, its screen position, and the corner's position and size from the face table |
| Buffers.DrawnQuad | 3/src/index.js:335-343 | each appended triangle index is the slot of its corner and lies in the new tile's block |
| Buffers.DrawnKeepsWellFormed | 3/src/index.js:309-347 | an initial draw keeps the buffers well-formed: one tile's worth per tile in every stream, ids, paddings, uvs and triangles those of 0 .. n-1 |
| Buffers.WellFormedTopology | 3/src/index.js:323-343 | in well-formed buffers every per-vertex id entry of tile id equals id, and every triangle index is below 4*FACE_NUM*totalRenderCount |
| Buffers.Redraw | 3/src/index.js:278-307 | an update-mode rewrite keeps the length of every attribute; what it writes is stated by RedrawShowsTile, RedrawKeepsOtherBlocks and RedrawIdempotent below |
| Buffers.RedrawShowsTile | 3/src/index.js:282-307 | after an update-mode rewrite the tile's block holds exactly its positions, sizes, direction, ratio value and screen position |
| Buffers.RedrawKeepsOtherBlocks | 3/src/index.js:282-307 | an update-mode rewrite keeps every other tile's block, and the lengths of all attributes |
| Buffers.RedrawIdempotent | 3/src/index.js:278-307 | redrawing a tile twice with the same state gives what redrawing once does |
| Buffers.RedrawAfterDrawn | 3/src/index.js:278-347 | redrawing the newest tile with the values its initial draw used leaves the copied attributes unchanged, so update mode writes the same layout as initial mode |
| Buffers.MeshBuffers.constructor | 3/src/index.js:17-30 | the module-level arrays start empty with the counter at 0 |
| Buffers.MeshBuffers.PushCorner | 3/src/index.js:316-320 | one corner's position, size, direction, ratio and weights are appended, all else kept |
| Buffers.MeshBuffers.PushId | 3/src/index.js:323-326 | one id entry and one padding pair are appended, all else kept |
| Buffers.MeshBuffers.PushFace | 3/src/index.js:328-343 | the face's uvs and its two triangles 0,1,2 / 2,3,0 are appended, all else kept |
| Buffers.MeshBuffers.CountTile | 3/src/index.js:346 | the counter goes up by one, all else kept |
| Buffers.MeshBuffers.Reset | 3/src/index.js:143-155 | the counter is 0 and every array is empty |
| Buffers.SetXYZ | 3/src/index.js:288 | setXYZ overwrites exactly the three values of one vertex |
| Buffers.SetXY | 3/src/index.js:292 | setXY overwrites exactly the two values of one vertex |
| Buffers.SetX | 3/src/index.js:296 | setX overwrites exactly the one value of one vertex |
| Buffers.Geometry.WriteSlot | 3/src/index.js:284-305 | one pass of the update loop splices the corner's position, size, direction, ratio and weights into slot t and changes nothing else |
| Buffers.Geometry.constructor | 3/src/index.js:110-124 | the geometry's attributes are copies of the buffers; totalIndex is as long as index and every entry equals totalRenderCount |
| Scene.StripScreenPosition | 3/src/index.js:170-177 | at the width it was laid out for, every strip's screen position has x strictly between 0 and 1 and y = 0.5 |
| Scene.ResizedStripLeavesUnitInterval | 3/src/index.js:94-98 | strip 3 of a 1000-wide layout, drawn once the window is 500 wide, gets screen position x = 1.219 |
| Scene.StripsDrawnWellFormed | 3/src/index.js:142-177 | the four strips drawn on emptied buffers leave them well-formed with totalRenderCount equal to the number drawn |
| Scene.RedrawnShowsTile | 3/src/index.js:83-85 | after the first n tiles are redrawn in order, every one of them with a distinct id has its own entries in its block |
| Scene.RedrawAllShowsEveryTile | 3/src/index.js:83-85 | when the tiles' ids are distinct (as after a single `createTiles`), after a frame every tile's block holds exactly that tile's entries |
| Scene.BuildStrips | 3/src/index.js:170-177 | the loop builds four fresh tiles; tile i has id i, the bounds of strip i, the ratio of its random value and impulse 0; the buffers are the four strips drawn in order and are well-formed |
| Scene.AddStrip | 3/src/index.js:171-176 | one pass: strip i at its left edge with its width, drawn after the i strips before it |
| Scene.RedrawTiles | 3/src/index.js:83-85 | tiles.forEach(update) leaves the attributes as every tile redrawn in order |
| Scene.Sketch.constructor | 3/src/index.js:15-44 | empty buffers, no tiles, no geometry, time uniform 1.0, latched time 0 |
| Scene.Sketch.CreateTiles | 3/src/index.js:142-180 | the buffers are the four strips drawn on emptied buffers; the old tiles stay as a prefix and four fresh strip tiles follow; the geometry copies the buffers (attributes, indices, index, uv, padding), and totalIndex has 16 entries, one per vertex, each equal to 4; totalRenderCount is 4 and the geometry and its five attribute arrays are fresh |
| Scene.Sketch.Render | 3/src/index.js:64-92 | the time is latched unless in image-generation mode and copied to the uniform; the geometry becomes every tile redrawn in order; the loop re-arms exactly when neither flag is set |
| Scene.Sketch.LatchTime | 3/src/index.js:67-71 | the elapsed time is latched unless in image-generation mode, and the time uniform takes the latched time |
| Scene.Sketch.OnResize | 3/src/index.js:94-108 | the window width and the resolution uniform take the new size; tiles, buffers and geometry are unchanged |

## Left out

- The three.js objects (scene, mesh, material, renderer, camera, orbit controls) and the shader sources are outside the model: they are library calls and external files. The geometry is modelled by its attribute arrays only.
- The clock and `requestAnimationFrame`: the elapsed time is a parameter of `Render`, and the re-arm decision is its result.
- `Math.random`: each tile's random value is a parameter (`randoms[i]` in `createTiles`).
- `window.innerWidth` and the window height captured at load (`stageHeight`) are parameters. Both must be positive, because `getScreenPosition` divides by them. `Scene.Sketch.OnResize` does not require the new height to be positive, since nothing divides by it.
- Scene.Sketch.OnResize: does not model the camera's aspect and projection update, the renderer's pixel ratio (`window.devicePixelRatio`) or its canvas size, which are library side effects.
- Scene.Sketch.Render: does not model `renderer.render`, which draws the frame and changes no modelled state.
- Scene.Sketch.CreateTiles: does not model `scene.clear()` or the mesh and material that `addTilesToScene` builds. It also leaves out the unused `colors` array, which is emptied and never filled.
- The `needsUpdate` flags set in update mode are left out: they only tell the renderer to upload the arrays again.
- Numbers are exact reals. The model leaves out float32 rounding in the attributes, 16-bit wrap-around in the `Uint16` index and uv attributes, and floating-point rounding in the layout.
- Tiles.Tile.DrawUpdate: a write outside the typed arrays (a tile whose id has no block) is silently ignored by three.js. The model requires the block to exist instead.
- `FACE_NUM` and `PADDING` are the source's constants 1 and 0. The formulas are written in terms of them, but no other values are verified.
- `map`, `easeOutExpo` and the commented-out `baseTile` code are never called, so they are left out.
- The resize event listener is left out. `OnResize` is the handler it would call.
