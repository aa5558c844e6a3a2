/** The flat, parallel attribute buffers of the single merged mesh.

    Every tile owns VERTICES_PER_TILE consecutive vertex slots; slot
    `Slot(id, k, j)`, that is `id * FACE_NUM * CORNERS + k * CORNERS + j`,
    holds corner j of face k of the tile whose id is `id`. Each per-vertex
    attribute stores its item (3 numbers for a position, 2 for a size, 1 for
    a direction, ...) at item-size times the slot. Two triangles per face (corners 0,1,2 and 2,3,0) go to the triangle
    index buffer.

    MeshBuffers holds the growable arrays that initial drawing pushes onto;
    Geometry holds the fixed-size attribute arrays built from them once, which
    update drawing overwrites in place. */
module Buffers {
  import opened TileGeometry

  /** Vertex slots one tile reserves. */
  const VERTICES_PER_TILE: nat := FACE_NUM * CORNERS
  /** Triangle indices one face contributes (two triangles). */
  const INDICES_PER_FACE: nat := 6
  /** Triangle order within a face, as corner numbers: 0,1,2 then 2,3,0. */
  const QUAD_ORDER: seq<nat> := [0, 1, 2, 2, 3, 0]
  /** Texture coordinates of a face's corners 0, 1, 2, 3. */
  const FACE_UVS: seq<int> := [0, 0, 1, 0, 1, 1, 0, 1]

  /** The vertex slot of corner `corner` of face `face` of tile `id`
      (targetIndex in update mode, vertexIndex + corner in initial mode). */
  function Slot(id: nat, face: nat, corner: nat): nat
  {
    id * FACE_NUM * CORNERS + face * CORNERS + corner
  }

  /** A tile's slots lie in its own block [id * V, (id + 1) * V), and no two
      (tile, face, corner) triples share a slot: distinct tiles write
      disjoint vertex ranges. */
  lemma SlotsAreDisjoint(id1: nat, face1: nat, corner1: nat, id2: nat, face2: nat, corner2: nat)
    requires face1 < FACE_NUM && corner1 < CORNERS && face2 < FACE_NUM && corner2 < CORNERS
    ensures id1 * VERTICES_PER_TILE <= Slot(id1, face1, corner1) < (id1 + 1) * VERTICES_PER_TILE
    ensures Slot(id1, face1, corner1) == Slot(id2, face2, corner2) <==>
            id1 == id2 && face1 == face2 && corner1 == corner2
  {
  }

  /** Blocks of vertex slots of two distinct tiles do not overlap. */
  lemma BlocksAreDisjoint(id1: nat, id2: nat, itemSize: nat)
    requires id1 != id2
    ensures (id1 + 1) * VERTICES_PER_TILE * itemSize <= id2 * VERTICES_PER_TILE * itemSize
         || (id2 + 1) * VERTICES_PER_TILE * itemSize <= id1 * VERTICES_PER_TILE * itemSize
  {
    var k := VERTICES_PER_TILE * itemSize;
    if id1 < id2 {
      MulMono(id1 + 1, id2, k);
    } else {
      MulMono(id2 + 1, id1, k);
    }
    assert (id1 + 1) * VERTICES_PER_TILE * itemSize == (id1 + 1) * k;
    assert id1 * VERTICES_PER_TILE * itemSize == id1 * k;
    assert (id2 + 1) * VERTICES_PER_TILE * itemSize == (id2 + 1) * k;
    assert id2 * VERTICES_PER_TILE * itemSize == id2 * k;
  }

  lemma MulMono(a: nat, b: nat, k: nat)
    requires a <= b
    ensures a * k <= b * k
  {
  }

  // ---------------------------------------------------------------------
  // Sequence building blocks

  /** `n` copies of `item`, one after the other (n pushes of the same items). */
  function Repeat<T>(item: seq<T>, n: nat): (r: seq<T>)
    ensures |r| == n * |item|
  {
    if n == 0 then [] else Repeat(item, n - 1) + item
  }

  /** Element m of copy q of `item` in Repeat(item, n) is item[m]. */
  lemma {:induction false} RepeatAt<T>(item: seq<T>, n: nat, q: nat, m: nat)
    requires q < n && m < |item|
    ensures q * |item| + m < |Repeat(item, n)|
    ensures Repeat(item, n)[q * |item| + m] == item[m]
  {
    if q < n - 1 {
      RepeatAt(item, n - 1, q, m);
    } else {
      assert |Repeat(item, n - 1)| == q * |item|;
    }
  }

  /** Pushing copies in two rounds gives the same as pushing them in one. */
  lemma {:induction false} RepeatAdd<T>(item: seq<T>, a: nat, b: nat)
    ensures Repeat(item, a + b) == Repeat(item, a) + Repeat(item, b)
  {
    if b > 0 {
      RepeatAdd(item, a, b - 1);
      assert Repeat(item, a + b) == Repeat(item, a + (b - 1)) + item;
    }
  }

  /** `s` with the stretch starting at `at` overwritten by `t`. */
  function Splice<T>(s: seq<T>, at: nat, t: seq<T>): (r: seq<T>)
    requires at + |t| <= |s|
    ensures |r| == |s|
  {
    s[..at] + t + s[at + |t|..]
  }

  /** Entry by entry: inside the stretch Splice holds `t`, elsewhere `s`. */
  lemma SpliceAt<T>(s: seq<T>, at: nat, t: seq<T>, i: nat)
    requires at + |t| <= |s| && i < |s|
    ensures Splice(s, at, t)[i] == if at <= i < at + |t| then t[i - at] else s[i]
  {
  }

  /** Overwriting a stretch leaves every disjoint stretch as it was. */
  lemma SpliceKeepsOthers<T>(s: seq<T>, at: nat, t: seq<T>, lo: nat, hi: nat)
    requires at + |t| <= |s| && lo <= hi <= |s|
    requires hi <= at || at + |t| <= lo
    ensures Splice(s, at, t)[lo..hi] == s[lo..hi]
  {
    var r := Splice(s, at, t);
    forall i | lo <= i < hi
      ensures r[i] == s[i]
    {
      SpliceAt(s, at, t, i);
    }
  }

  /** Overwriting two adjacent stretches one after the other is the same as
      overwriting their concatenation at once. */
  lemma SpliceConsecutive<T>(s: seq<T>, at: nat, t: seq<T>, u: seq<T>)
    requires at + |t| + |u| <= |s|
    ensures Splice(Splice(s, at, t), at + |t|, u) == Splice(s, at, t + u)
  {
    var m := Splice(s, at, t);
    assert m[..at + |t|] == s[..at] + t;
    assert m[at + |t| + |u|..] == s[at + |t| + |u|..];
    assert s[..at] + t + u + s[at + |t| + |u|..] == s[..at] + (t + u) + s[at + |t| + |u|..];
  }

  /** Overwriting a stretch puts `t` there. */
  lemma SpliceShows<T>(s: seq<T>, at: nat, t: seq<T>)
    requires at + |t| <= |s|
    ensures Splice(s, at, t)[at..at + |t|] == t
  {
  }

  // ---------------------------------------------------------------------
  // What one tile contributes

  /** Positions (x, y, z) of the first n vertex slots of a tile, in the order
      the nested face / corner loops push them. */
  function CornerPositions(b: Box, n: nat): (r: seq<real>)
    requires n <= VERTICES_PER_TILE
    ensures |r| == 3 * n
  {
    if n == 0 then []
    else
      var c := PositionAndSize(b, (n - 1) / CORNERS, (n - 1) % CORNERS);
      CornerPositions(b, n - 1) + [c.x, c.y, c.z]
  }

  /** Face sizes (w, h) of the first n vertex slots of a tile. */
  function CornerSizes(b: Box, n: nat): (r: seq<real>)
    requires n <= VERTICES_PER_TILE
    ensures |r| == 2 * n
  {
    if n == 0 then []
    else
      var c := PositionAndSize(b, (n - 1) / CORNERS, (n - 1) % CORNERS);
      CornerSizes(b, n - 1) + [c.w, c.h]
  }

  /** Slot s of a tile holds the position of corner s % 4 of face s / 4 of
      the corner table. */
  lemma {:induction false} CornerPositionAt(b: Box, n: nat, s: nat)
    requires s < n <= VERTICES_PER_TILE
    ensures var c := PositionAndSize(b, s / CORNERS, s % CORNERS);
      CornerPositions(b, n)[3 * s .. 3 * s + 3] == [c.x, c.y, c.z]
  {
    assert VERTICES_PER_TILE == 4;
    if s < n - 1 {
      CornerPositionAt(b, n - 1, s);
      assert CornerPositions(b, n)[3 * s .. 3 * s + 3] == CornerPositions(b, n - 1)[3 * s .. 3 * s + 3];
    } else {
      var c := PositionAndSize(b, s / CORNERS, s % CORNERS);
      assert CornerPositions(b, n) == CornerPositions(b, n - 1) + [c.x, c.y, c.z];
      assert |CornerPositions(b, n - 1)| == 3 * s;
    }
  }

  /** Slot s of a tile holds the face size of corner s % 4 of face s / 4. */
  lemma {:induction false} CornerSizeAt(b: Box, n: nat, s: nat)
    requires s < n <= VERTICES_PER_TILE
    ensures var c := PositionAndSize(b, s / CORNERS, s % CORNERS);
      CornerSizes(b, n)[2 * s .. 2 * s + 2] == [c.w, c.h]
  {
    assert VERTICES_PER_TILE == 4;
    if s < n - 1 {
      CornerSizeAt(b, n - 1, s);
      assert CornerSizes(b, n)[2 * s .. 2 * s + 2] == CornerSizes(b, n - 1)[2 * s .. 2 * s + 2];
    } else {
      var c := PositionAndSize(b, s / CORNERS, s % CORNERS);
      assert CornerSizes(b, n) == CornerSizes(b, n - 1) + [c.w, c.h];
      assert |CornerSizes(b, n - 1)| == 2 * s;
    }
  }

  /** Triangle indices of the first `faces` faces of tile `id`: for face k,
      base, base+1, base+2, base+2, base+3, base with base = Slot(id, k, 0). */
  function TileQuads(id: nat, faces: nat): (r: seq<int>)
    requires faces <= FACE_NUM
    ensures |r| == INDICES_PER_FACE * faces
  {
    if faces == 0 then []
    else
      var base := Slot(id, faces - 1, 0);
      TileQuads(id, faces - 1) + [base + 0, base + 1, base + 2, base + 2, base + 3, base + 0]
  }

  /** Every triangle index a tile contributes addresses one of that tile's
      own vertex slots, and entry q of face k is corner QUAD_ORDER[q] of it. */
  lemma TileQuadsAt(id: nat, k: nat, q: nat)
    requires k < FACE_NUM && q < INDICES_PER_FACE
    ensures TileQuads(id, FACE_NUM)[INDICES_PER_FACE * k + q] == Slot(id, k, QUAD_ORDER[q])
    ensures id * VERTICES_PER_TILE <= TileQuads(id, FACE_NUM)[INDICES_PER_FACE * k + q] < (id + 1) * VERTICES_PER_TILE
  {
    SlotsAreDisjoint(id, k, QUAD_ORDER[q], id, k, QUAD_ORDER[q]);
  }

  // ---------------------------------------------------------------------
  // The whole buffer set

  /** The module-level buffer arrays as values, with the tile counter. */
  datatype BufferState = BufferState(
    index: seq<int>,         // per vertex: id of the owning tile
    vertices: seq<real>,     // per vertex: x, y, z
    uvs: seq<int>,           // per vertex: u, v
    indices: seq<int>,       // per face: two triangles of vertex slots
    paddings: seq<real>,     // per vertex: padding, padding
    size: seq<real>,         // per vertex: face width, face height
    directions: seq<real>,   // per vertex: direction of the tile
    ratios: seq<real>,       // per vertex: blend ratio of the tile
    weights: seq<real>,      // per vertex: screen position of the tile
    totalRenderCount: nat)

  /** The buffers before any tile is drawn (createTiles resets them to this). */
  const EMPTY: BufferState := BufferState([], [], [], [], [], [], [], [], [], 0)

  /** Both triangles a face is drawn with (corners 0,1,2 and 2,3,0) cover
      half the front face each, with the same orientation: for a face of
      positive width and height both run counter-clockwise, so they face the
      same way and together tile the face without overlap. */
  lemma FrontTrianglesWinding(b: Box, t: nat)
    requires t < 2
    ensures var p, q, r := PositionAndSize(b, 0, QUAD_ORDER[3 * t]), PositionAndSize(b, 0, QUAD_ORDER[3 * t + 1]),
                           PositionAndSize(b, 0, QUAD_ORDER[3 * t + 2]);
      && Winding(p, q, r) == (b.w - 2.0 * PADDING) * (b.h - 2.0 * PADDING)
      && (b.w > 2.0 * PADDING && b.h > 2.0 * PADDING ==> Winding(p, q, r) > 0.0)
  {
  }

  /** Per-vertex tile ids of the first n tiles. */
  function TileIds(n: nat): (r: seq<int>)
    ensures |r| == VERTICES_PER_TILE * n
  {
    if n == 0 then [] else TileIds(n - 1) + Repeat<int>([n - 1], VERTICES_PER_TILE)
  }

  /** Triangle indices of the first n tiles. */
  function AllQuads(n: nat): (r: seq<int>)
    ensures |r| == INDICES_PER_FACE * FACE_NUM * n
  {
    if n == 0 then [] else AllQuads(n - 1) + TileQuads(n - 1, FACE_NUM)
  }

  /** The buffers after drawing `s.totalRenderCount` tiles: the tile-specific
      streams have one tile's worth of entries per tile, and the topology
      streams (ids, paddings, uvs, triangle indices) are exactly those of
      that many tiles. */
  ghost predicate WellFormed(s: BufferState)
  {
    StreamLengths(s) && Topology(s)
  }

  /** One tile's worth of entries per drawn tile in each per-vertex stream. */
  ghost predicate StreamLengths(s: BufferState)
  {
    var n := s.totalRenderCount;
    && |s.vertices| == 3 * VERTICES_PER_TILE * n
    && |s.size| == 2 * VERTICES_PER_TILE * n
    && |s.directions| == VERTICES_PER_TILE * n
    && |s.ratios| == VERTICES_PER_TILE * n
    && |s.weights| == 2 * VERTICES_PER_TILE * n
  }

  /** The ids, paddings, uvs and triangles of the drawn tiles. */
  ghost predicate Topology(s: BufferState)
  {
    var n := s.totalRenderCount;
    && s.index == TileIds(n)
    && s.paddings == Repeat([PADDING, PADDING], VERTICES_PER_TILE * n)
    && s.uvs == Repeat(FACE_UVS, FACE_NUM * n)
    && s.indices == AllQuads(n)
  }

  /** Initial drawing of a tile with bounds b, ratio `ratio` and screen
      position sp: it takes id s.totalRenderCount, appends its entries to
      every stream and increments the counter. */
  function Drawn(s: BufferState, b: Box, ratio: real, sp: Point): BufferState
  {
    var id := s.totalRenderCount;
    BufferState(
      s.index + Repeat<int>([id], VERTICES_PER_TILE),
      s.vertices + CornerPositions(b, VERTICES_PER_TILE),
      s.uvs + Repeat(FACE_UVS, FACE_NUM),
      s.indices + TileQuads(id, FACE_NUM),
      s.paddings + Repeat([PADDING, PADDING], VERTICES_PER_TILE),
      s.size + CornerSizes(b, VERTICES_PER_TILE),
      s.directions + Repeat([Direction(b.w, b.h)], VERTICES_PER_TILE),
      s.ratios + Repeat([ratio], VERTICES_PER_TILE),
      s.weights + Repeat([sp.x, sp.y], VERTICES_PER_TILE),
      id + 1)
  }

  /** The buffers part-way through initial drawing of a tile with id
      s.totalRenderCount: `corners` vertex slots have their geometry pushed,
      `ids` slots their id and padding, and `faces` faces their uvs and
      triangles. */
  function Partial(s: BufferState, b: Box, ratio: real, sp: Point, corners: nat, ids: nat, faces: nat): BufferState
    requires corners <= VERTICES_PER_TILE && ids <= VERTICES_PER_TILE && faces <= FACE_NUM
  {
    BufferState(
      s.index + Repeat<int>([s.totalRenderCount], ids),
      s.vertices + CornerPositions(b, corners),
      s.uvs + Repeat(FACE_UVS, faces),
      s.indices + TileQuads(s.totalRenderCount, faces),
      s.paddings + Repeat([PADDING, PADDING], ids),
      s.size + CornerSizes(b, corners),
      s.directions + Repeat([Direction(b.w, b.h)], corners),
      s.ratios + Repeat([ratio], corners),
      s.weights + Repeat([sp.x, sp.y], corners),
      s.totalRenderCount)
  }

  /** Pushing the geometry of corner j of face k. */
  lemma PartialCorner(s: BufferState, b: Box, ratio: real, sp: Point, k: nat, j: nat)
    requires k < FACE_NUM && j < CORNERS
    ensures var p, c := Partial(s, b, ratio, sp, CORNERS * k + j, CORNERS * k, k), PositionAndSize(b, k, j);
      Partial(s, b, ratio, sp, CORNERS * k + j + 1, CORNERS * k, k)
      == p.(vertices := p.vertices + [c.x, c.y, c.z], size := p.size + [c.w, c.h],
            directions := p.directions + [Direction(b.w, b.h)], ratios := p.ratios + [ratio],
            weights := p.weights + [sp.x, sp.y])
  {
    assert (CORNERS * k + j) / CORNERS == k && (CORNERS * k + j) % CORNERS == j;
  }

  /** Pushing the id and padding of corner j of face k. */
  lemma PartialId(s: BufferState, b: Box, ratio: real, sp: Point, k: nat, j: nat)
    requires k < FACE_NUM && j < CORNERS
    ensures var p := Partial(s, b, ratio, sp, CORNERS * (k + 1), CORNERS * k + j, k);
      Partial(s, b, ratio, sp, CORNERS * (k + 1), CORNERS * k + j + 1, k)
      == p.(index := p.index + [s.totalRenderCount], paddings := p.paddings + [PADDING, PADDING])
  {
  }

  /** Pushing the uvs and the two triangles of face k, whose first vertex
      slot is Slot(id, k, 0). */
  lemma PartialFace(s: BufferState, b: Box, ratio: real, sp: Point, k: nat)
    requires k < FACE_NUM
    ensures var p, base := Partial(s, b, ratio, sp, CORNERS * (k + 1), CORNERS * (k + 1), k),
                           Slot(s.totalRenderCount, k, 0);
      Partial(s, b, ratio, sp, CORNERS * (k + 1), CORNERS * (k + 1), k + 1)
      == p.(uvs := p.uvs + FACE_UVS,
            indices := p.indices + [base + 0, base + 1, base + 2, base + 2, base + 3, base + 0])
  {
  }

  /** Nothing pushed yet; everything pushed is the drawn tile but for the
      counter. */
  lemma PartialEnds(s: BufferState, b: Box, ratio: real, sp: Point)
    ensures Partial(s, b, ratio, sp, 0, 0, 0) == s
    ensures Partial(s, b, ratio, sp, VERTICES_PER_TILE, VERTICES_PER_TILE, FACE_NUM)
         == Drawn(s, b, ratio, sp).(totalRenderCount := s.totalRenderCount)
  {
  }

  /** Initial drawing only appends, and by fixed amounts: 12 * FACE_NUM
      position numbers; 8 * FACE_NUM size, weight, padding and uv numbers;
      4 * FACE_NUM direction, ratio and id entries; 6 * FACE_NUM triangle
      indices. */
  lemma DrawnAppends(s: BufferState, b: Box, ratio: real, sp: Point)
    ensures var d := Drawn(s, b, ratio, sp);
      && d.totalRenderCount == s.totalRenderCount + 1
      && |d.vertices| == |s.vertices| + 12 * FACE_NUM && d.vertices[..|s.vertices|] == s.vertices
      && |d.size| == |s.size| + 8 * FACE_NUM && d.size[..|s.size|] == s.size
      && |d.weights| == |s.weights| + 8 * FACE_NUM && d.weights[..|s.weights|] == s.weights
      && |d.paddings| == |s.paddings| + 8 * FACE_NUM && d.paddings[..|s.paddings|] == s.paddings
      && |d.uvs| == |s.uvs| + 8 * FACE_NUM && d.uvs[..|s.uvs|] == s.uvs
      && |d.directions| == |s.directions| + 4 * FACE_NUM && d.directions[..|s.directions|] == s.directions
      && |d.ratios| == |s.ratios| + 4 * FACE_NUM && d.ratios[..|s.ratios|] == s.ratios
      && |d.index| == |s.index| + 4 * FACE_NUM && d.index[..|s.index|] == s.index
      && |d.indices| == |s.indices| + 6 * FACE_NUM && d.indices[..|s.indices|] == s.indices
  {
  }

  /** What a drawn tile appends for one vertex slot v = 4k + j: the
      tile's id, its ratio, its direction and its screen position, and the
      position and size of corner j of face k. */
  lemma DrawnVertex(s: BufferState, b: Box, ratio: real, sp: Point, k: nat, j: nat)
    requires k < FACE_NUM && j < CORNERS
    ensures var d, v := Drawn(s, b, ratio, sp), k * CORNERS + j;
      var c := PositionAndSize(b, k, j);
      && d.index[|s.index| + v] == s.totalRenderCount
      && d.ratios[|s.ratios| + v] == ratio
      && d.directions[|s.directions| + v] == Direction(b.w, b.h)
      && d.weights[|s.weights| + 2 * v .. |s.weights| + 2 * v + 2] == [sp.x, sp.y]
      && d.vertices[|s.vertices| + 3 * v .. |s.vertices| + 3 * v + 3] == [c.x, c.y, c.z]
      && d.size[|s.size| + 2 * v .. |s.size| + 2 * v + 2] == [c.w, c.h]
  {
    DrawnVertexTile(s, b, ratio, sp, k * CORNERS + j);
    DrawnVertexCorner(s, b, ratio, sp, k, j);
  }

  /** The per-tile values a drawn tile appends for vertex slot v. */
  lemma DrawnVertexTile(s: BufferState, b: Box, ratio: real, sp: Point, v: nat)
    requires v < VERTICES_PER_TILE
    ensures var d := Drawn(s, b, ratio, sp);
      && d.index[|s.index| + v] == s.totalRenderCount
      && d.ratios[|s.ratios| + v] == ratio
      && d.directions[|s.directions| + v] == Direction(b.w, b.h)
      && d.weights[|s.weights| + 2 * v .. |s.weights| + 2 * v + 2] == [sp.x, sp.y]
  {
    var d := Drawn(s, b, ratio, sp);
    RepeatAt<int>([s.totalRenderCount], VERTICES_PER_TILE, v, 0);
    RepeatAt([ratio], VERTICES_PER_TILE, v, 0);
    RepeatAt([Direction(b.w, b.h)], VERTICES_PER_TILE, v, 0);
    RepeatWeights(sp, v);
    assert d.weights[|s.weights| + 2 * v .. |s.weights| + 2 * v + 2]
        == Repeat([sp.x, sp.y], VERTICES_PER_TILE)[2 * v .. 2 * v + 2];
  }

  /** The corner geometry a drawn tile appends for corner j of face k. */
  lemma DrawnVertexCorner(s: BufferState, b: Box, ratio: real, sp: Point, k: nat, j: nat)
    requires k < FACE_NUM && j < CORNERS
    ensures var d, v := Drawn(s, b, ratio, sp), k * CORNERS + j;
      var c := PositionAndSize(b, k, j);
      && d.vertices[|s.vertices| + 3 * v .. |s.vertices| + 3 * v + 3] == [c.x, c.y, c.z]
      && d.size[|s.size| + 2 * v .. |s.size| + 2 * v + 2] == [c.w, c.h]
  {
    var d, v := Drawn(s, b, ratio, sp), k * CORNERS + j;
    CornerPositionAt(b, VERTICES_PER_TILE, v);
    CornerSizeAt(b, VERTICES_PER_TILE, v);
    assert v / CORNERS == k && v % CORNERS == j;
    assert d.vertices[|s.vertices| + 3 * v .. |s.vertices| + 3 * v + 3]
        == CornerPositions(b, VERTICES_PER_TILE)[3 * v .. 3 * v + 3];
    assert d.size[|s.size| + 2 * v .. |s.size| + 2 * v + 2]
        == CornerSizes(b, VERTICES_PER_TILE)[2 * v .. 2 * v + 2];
  }

  lemma RepeatWeights(sp: Point, v: nat)
    requires v < VERTICES_PER_TILE
    ensures Repeat([sp.x, sp.y], VERTICES_PER_TILE)[2 * v .. 2 * v + 2] == [sp.x, sp.y]
  {
    RepeatAt([sp.x, sp.y], VERTICES_PER_TILE, v, 0);
    RepeatAt([sp.x, sp.y], VERTICES_PER_TILE, v, 1);
  }

  /** The triangle indices a drawn tile appends for face k: corners
      0,1,2,2,3,0 of that face's vertex slots, all inside the tile's own
      block of slots. */
  lemma DrawnQuad(s: BufferState, b: Box, ratio: real, sp: Point, k: nat, q: nat)
    requires k < FACE_NUM && q < INDICES_PER_FACE
    ensures var d, id := Drawn(s, b, ratio, sp), s.totalRenderCount;
      && d.indices[|s.indices| + INDICES_PER_FACE * k + q] == Slot(id, k, QUAD_ORDER[q])
      && id * VERTICES_PER_TILE <= d.indices[|s.indices| + INDICES_PER_FACE * k + q] < (id + 1) * VERTICES_PER_TILE
  {
    TileQuadsAt(s.totalRenderCount, k, q);
  }

  /** Drawing a tile on well-formed buffers keeps them well-formed: the
      tile's entries land exactly in the block its id reserves. */
  lemma DrawnKeepsWellFormed(s: BufferState, b: Box, ratio: real, sp: Point)
    requires WellFormed(s)
    ensures WellFormed(Drawn(s, b, ratio, sp))
  {
    DrawnKeepsLengths(s, b, ratio, sp);
    DrawnKeepsTopology(s, b, ratio, sp);
  }

  lemma DrawnKeepsLengths(s: BufferState, b: Box, ratio: real, sp: Point)
    requires StreamLengths(s)
    ensures StreamLengths(Drawn(s, b, ratio, sp))
  {
    assert VERTICES_PER_TILE == 4;
  }

  lemma DrawnKeepsTopology(s: BufferState, b: Box, ratio: real, sp: Point)
    requires Topology(s)
    ensures Topology(Drawn(s, b, ratio, sp))
  {
    assert VERTICES_PER_TILE == 4;
    var n := s.totalRenderCount;
    assert TileIds(n + 1) == TileIds(n) + Repeat<int>([n], VERTICES_PER_TILE);
    assert AllQuads(n + 1) == AllQuads(n) + TileQuads(n, FACE_NUM);
    RepeatAdd([PADDING, PADDING], VERTICES_PER_TILE * n, VERTICES_PER_TILE);
    RepeatAdd(FACE_UVS, FACE_NUM * n, FACE_NUM);
    assert VERTICES_PER_TILE * n + VERTICES_PER_TILE == VERTICES_PER_TILE * (n + 1);
    assert FACE_NUM * n + FACE_NUM == FACE_NUM * (n + 1);
  }

  /** In well-formed buffers every vertex slot of tile id carries that id,
      and every triangle index addresses an existing vertex slot: slot
      numbers in the index buffer stay below 4 * FACE_NUM * totalRenderCount. */
  lemma WellFormedTopology(s: BufferState, id: nat, v: nat, i: nat)
    requires WellFormed(s)
    requires id < s.totalRenderCount && v < VERTICES_PER_TILE && i < |s.indices|
    ensures id * VERTICES_PER_TILE + v < |s.index| && s.index[id * VERTICES_PER_TILE + v] == id
    ensures 0 <= s.indices[i] < VERTICES_PER_TILE * s.totalRenderCount
  {
    TileIdsAt(s.totalRenderCount, id, v);
    AllQuadsBound(s.totalRenderCount, i);
  }

  lemma {:induction false} TileIdsAt(n: nat, id: nat, v: nat)
    requires id < n && v < VERTICES_PER_TILE
    ensures id * VERTICES_PER_TILE + v < |TileIds(n)| && TileIds(n)[id * VERTICES_PER_TILE + v] == id
  {
    if id < n - 1 {
      TileIdsAt(n - 1, id, v);
      assert id * VERTICES_PER_TILE + v < |TileIds(n - 1)|;
    } else {
      RepeatAt<int>([id], VERTICES_PER_TILE, v, 0);
      assert |TileIds(n - 1)| == id * VERTICES_PER_TILE;
    }
  }

  lemma {:induction false} AllQuadsBound(n: nat, i: nat)
    requires i < |AllQuads(n)|
    ensures 0 <= AllQuads(n)[i] < VERTICES_PER_TILE * n
  {
    var prefix := AllQuads(n - 1);
    if i < |prefix| {
      AllQuadsBound(n - 1, i);
    } else {
      var r := i - |prefix|;
      TileQuadsAt(n - 1, r / INDICES_PER_FACE, r % INDICES_PER_FACE);
      assert INDICES_PER_FACE * (r / INDICES_PER_FACE) + r % INDICES_PER_FACE == r;
      MulMono(n, n, VERTICES_PER_TILE);
    }
  }

  // ---------------------------------------------------------------------
  // The growable arrays initial drawing pushes onto

  /** The module-level arrays index, vertices, uvs, indices, paddings, size,
      directions, ratios, weights and the counter totalRenderCount. */
  class MeshBuffers {
    var index: seq<int>
    var vertices: seq<real>
    var uvs: seq<int>
    var indices: seq<int>
    var paddings: seq<real>
    var size: seq<real>
    var directions: seq<real>
    var ratios: seq<real>
    var weights: seq<real>
    var totalRenderCount: nat

    /** The buffers as a value. */
    function State(): BufferState
      reads this
    {
      BufferState(index, vertices, uvs, indices, paddings, size, directions, ratios, weights, totalRenderCount)
    }

    ghost predicate Valid()
      reads this
    {
      WellFormed(State())
    }

    /** The arrays as the module declares them: empty, counter at zero. */
    constructor ()
      ensures State() == EMPTY && Valid()
    {
      index, vertices, uvs, indices, paddings := [], [], [], [], [];
      size, directions, ratios, weights := [], [], [], [];
      totalRenderCount := 0;
    }

    /** The five pushes of corner c in initial drawing: its position, its
        face size, the tile's direction, the tile's ratio and its screen
        position. */
    method PushCorner(c: Corner, direction: real, ratio: real, sp: Point)
      modifies this
      ensures State() == old(State()).(vertices := old(vertices) + [c.x, c.y, c.z],
                                       size := old(size) + [c.w, c.h],
                                       directions := old(directions) + [direction],
                                       ratios := old(ratios) + [ratio],
                                       weights := old(weights) + [sp.x, sp.y])
    {
      vertices := vertices + [c.x, c.y, c.z];
      size := size + [c.w, c.h];
      directions := directions + [direction];
      ratios := ratios + [ratio];
      weights := weights + [sp.x, sp.y];
    }

    /** The pushes of one vertex slot's tile id and its two paddings. */
    method PushId(id: int)
      modifies this
      ensures State() == old(State()).(index := old(index) + [id],
                                       paddings := old(paddings) + [PADDING, PADDING])
    {
      index := index + [id];
      paddings := paddings + [PADDING, PADDING];
    }

    /** The pushes of one face: its four uvs and its two triangles over the
        vertex slots vertexIndex .. vertexIndex + 3. */
    method PushFace(vertexIndex: int)
      modifies this
      ensures State() == old(State()).(uvs := old(uvs) + FACE_UVS,
                                       indices := old(indices) + [vertexIndex + 0, vertexIndex + 1, vertexIndex + 2,
                                                                  vertexIndex + 2, vertexIndex + 3, vertexIndex + 0])
    {
      uvs := uvs + FACE_UVS;
      // polygon order: 3 -- 2 above 0 -- 1
      indices := indices + [vertexIndex + 0, vertexIndex + 1, vertexIndex + 2,
                            vertexIndex + 2, vertexIndex + 3, vertexIndex + 0];
    }

    /** The last statement of initial drawing: one more tile. */
    method CountTile()
      modifies this
      ensures State() == old(State()).(totalRenderCount := old(totalRenderCount) + 1)
    {
      totalRenderCount := totalRenderCount + 1;
    }

    /** The first statements of createTiles: counter back to zero, every
      array emptied. */
    method Reset()
      modifies this
      ensures State() == EMPTY && Valid()
    {
      totalRenderCount := 0;
      index, vertices, uvs, indices, paddings := [], [], [], [], [];
      size, directions, ratios, weights := [], [], [], [];
    }
  }

  // ---------------------------------------------------------------------
  // The attribute arrays of the merged geometry

  /** The five attributes update drawing rewrites, as values. */
  datatype AttributeState = AttributeState(
    position: seq<real>,
    size: seq<real>,
    direction: seq<real>,
    ratio: seq<real>,
    weight: seq<real>)

  /** The attributes have room for the block of vertex slots of tile `id`. */
  predicate HasBlock(a: AttributeState, id: nat)
  {
    var end := id * VERTICES_PER_TILE + VERTICES_PER_TILE;
    && 3 * end <= |a.position| && 2 * end <= |a.size|
    && end <= |a.direction| && end <= |a.ratio| && 2 * end <= |a.weight|
  }

  /** Two attribute states of the same lengths, attribute by attribute. */
  predicate SameLengths(a: AttributeState, a': AttributeState)
  {
    && |a.position| == |a'.position| && |a.size| == |a'.size| && |a.direction| == |a'.direction|
    && |a.ratio| == |a'.ratio| && |a.weight| == |a'.weight|
  }

  /** The per-frame attributes of buffers drawn by initial drawing. */
  function AttributesOf(s: BufferState): AttributeState
  {
    AttributeState(s.vertices, s.size, s.directions, s.ratios, s.weights)
  }

  /** Update drawing of tile `id` with bounds b, blend value r and screen
      position sp: each attribute has the tile's block of slots overwritten
      with the tile's entries, and keeps every other entry. */
  function Redraw(a: AttributeState, id: nat, b: Box, r: real, sp: Point): (redrawn: AttributeState)
    requires HasBlock(a, id)
    ensures SameLengths(redrawn, a)
  {
    var v := id * VERTICES_PER_TILE;
    AttributeState(
      Splice(a.position, 3 * v, CornerPositions(b, VERTICES_PER_TILE)),
      Splice(a.size, 2 * v, CornerSizes(b, VERTICES_PER_TILE)),
      Splice(a.direction, v, Repeat([Direction(b.w, b.h)], VERTICES_PER_TILE)),
      Splice(a.ratio, v, Repeat([r], VERTICES_PER_TILE)),
      Splice(a.weight, 2 * v, Repeat([sp.x, sp.y], VERTICES_PER_TILE)))
  }

  /** Update drawing part-way: the first n vertex slots of tile `id`'s block
      rewritten. */
  function PartialRedraw(a: AttributeState, id: nat, b: Box, r: real, sp: Point, n: nat): AttributeState
    requires HasBlock(a, id) && n <= VERTICES_PER_TILE
  {
    var v := id * VERTICES_PER_TILE;
    AttributeState(
      Splice(a.position, 3 * v, CornerPositions(b, n)),
      Splice(a.size, 2 * v, CornerSizes(b, n)),
      Splice(a.direction, v, Repeat([Direction(b.w, b.h)], n)),
      Splice(a.ratio, v, Repeat([r], n)),
      Splice(a.weight, 2 * v, Repeat([sp.x, sp.y], n)))
  }

  /** Nothing rewritten is the old state; everything rewritten is Redraw. */
  lemma PartialRedrawEnds(a: AttributeState, id: nat, b: Box, r: real, sp: Point)
    requires HasBlock(a, id)
    ensures PartialRedraw(a, id, b, r, sp, 0) == a
    ensures PartialRedraw(a, id, b, r, sp, VERTICES_PER_TILE) == Redraw(a, id, b, r, sp)
  {
    var v := id * VERTICES_PER_TILE;
    SpliceNothing(a.position, 3 * v);
    SpliceNothing(a.size, 2 * v);
    SpliceNothing(a.direction, v);
    SpliceNothing(a.ratio, v);
    SpliceNothing(a.weight, 2 * v);
  }

  lemma SpliceNothing<T>(s: seq<T>, at: nat)
    requires at <= |s|
    ensures Splice(s, at, []) == s
  {
  }

  /** Rewriting corner j of face k, vertex slot t = Slot(id, k, j):
      position item t, size item t, ratio item t, direction item t and
      weight item t are overwritten, one attribute after the other. */
  lemma PartialRedrawStep(a: AttributeState, id: nat, b: Box, r: real, sp: Point, k: nat, j: nat)
    requires HasBlock(a, id) && k < FACE_NUM && j < CORNERS
    ensures var p, t, c := PartialRedraw(a, id, b, r, sp, CORNERS * k + j),
                           Slot(id, k, j), PositionAndSize(b, k, j);
      && 3 * t + 3 <= |p.position| && 2 * t + 2 <= |p.size| && t + 1 <= |p.ratio|
      && t + 1 <= |p.direction| && 2 * t + 2 <= |p.weight|
      && PartialRedraw(a, id, b, r, sp, CORNERS * k + j + 1)
         == AttributeState(
              Splice(p.position, 3 * t, [c.x, c.y, c.z]),
              Splice(p.size, 2 * t, [c.w, c.h]),
              Splice(p.direction, 1 * t, [Direction(b.w, b.h)]),
              Splice(p.ratio, 1 * t, [r]),
              Splice(p.weight, 2 * t, [sp.x, sp.y]))
  {
    PartialRedrawPositionStep(a, id, b, r, sp, k, j);
    PartialRedrawSizeStep(a, id, b, r, sp, k, j);
    PartialRedrawDirectionStep(a, id, b, r, sp, k, j);
    PartialRedrawRatioStep(a, id, b, r, sp, k, j);
    PartialRedrawWeightStep(a, id, b, r, sp, k, j);
  }

  /** The position part of PartialRedrawStep. */
  lemma PartialRedrawPositionStep(a: AttributeState, id: nat, b: Box, r: real, sp: Point, k: nat, j: nat)
    requires HasBlock(a, id) && k < FACE_NUM && j < CORNERS
    ensures var p, q, t, c := PartialRedraw(a, id, b, r, sp, CORNERS * k + j), PartialRedraw(a, id, b, r, sp, CORNERS * k + j + 1),
                              Slot(id, k, j), PositionAndSize(b, k, j);
      3 * t + 3 <= |p.position| && q.position == Splice(p.position, 3 * t, [c.x, c.y, c.z])
  {
    assert VERTICES_PER_TILE == 4;
    var n, v := CORNERS * k + j, id * VERTICES_PER_TILE;
    assert Slot(id, k, j) == v + n;
    var c := PositionAndSize(b, k, j);
    CornerStep(b, k, j);
    ItemStep(a.position, 3, v, n, CornerPositions(b, n), [c.x, c.y, c.z]);
  }

  /** The size part of PartialRedrawStep. */
  lemma PartialRedrawSizeStep(a: AttributeState, id: nat, b: Box, r: real, sp: Point, k: nat, j: nat)
    requires HasBlock(a, id) && k < FACE_NUM && j < CORNERS
    ensures var p, q, t, c := PartialRedraw(a, id, b, r, sp, CORNERS * k + j), PartialRedraw(a, id, b, r, sp, CORNERS * k + j + 1),
                              Slot(id, k, j), PositionAndSize(b, k, j);
      2 * t + 2 <= |p.size| && q.size == Splice(p.size, 2 * t, [c.w, c.h])
  {
    assert VERTICES_PER_TILE == 4;
    var n, v := CORNERS * k + j, id * VERTICES_PER_TILE;
    assert Slot(id, k, j) == v + n;
    var c := PositionAndSize(b, k, j);
    CornerStep(b, k, j);
    ItemStep(a.size, 2, v, n, CornerSizes(b, n), [c.w, c.h]);
  }

  /** The direction part of PartialRedrawStep. */
  lemma PartialRedrawDirectionStep(a: AttributeState, id: nat, b: Box, r: real, sp: Point, k: nat, j: nat)
    requires HasBlock(a, id) && k < FACE_NUM && j < CORNERS
    ensures var p, q, t := PartialRedraw(a, id, b, r, sp, CORNERS * k + j), PartialRedraw(a, id, b, r, sp, CORNERS * k + j + 1),
                           Slot(id, k, j);
      t + 1 <= |p.direction| && q.direction == Splice(p.direction, 1 * t, [Direction(b.w, b.h)])
  {
    assert VERTICES_PER_TILE == 4;
    var n, v := CORNERS * k + j, id * VERTICES_PER_TILE;
    assert Slot(id, k, j) == v + n;
    ItemStep(a.direction, 1, v, n, Repeat([Direction(b.w, b.h)], n), [Direction(b.w, b.h)]);
  }

  /** The ratio part of PartialRedrawStep. */
  lemma PartialRedrawRatioStep(a: AttributeState, id: nat, b: Box, r: real, sp: Point, k: nat, j: nat)
    requires HasBlock(a, id) && k < FACE_NUM && j < CORNERS
    ensures var p, q, t := PartialRedraw(a, id, b, r, sp, CORNERS * k + j), PartialRedraw(a, id, b, r, sp, CORNERS * k + j + 1),
                           Slot(id, k, j);
      t + 1 <= |p.ratio| && q.ratio == Splice(p.ratio, 1 * t, [r])
  {
    assert VERTICES_PER_TILE == 4;
    var n, v := CORNERS * k + j, id * VERTICES_PER_TILE;
    assert Slot(id, k, j) == v + n;
    ItemStep(a.ratio, 1, v, n, Repeat([r], n), [r]);
  }

  /** The weight part of PartialRedrawStep. */
  lemma PartialRedrawWeightStep(a: AttributeState, id: nat, b: Box, r: real, sp: Point, k: nat, j: nat)
    requires HasBlock(a, id) && k < FACE_NUM && j < CORNERS
    ensures var p, q, t := PartialRedraw(a, id, b, r, sp, CORNERS * k + j), PartialRedraw(a, id, b, r, sp, CORNERS * k + j + 1),
                           Slot(id, k, j);
      2 * t + 2 <= |p.weight| && q.weight == Splice(p.weight, 2 * t, [sp.x, sp.y])
  {
    assert VERTICES_PER_TILE == 4;
    var n, v := CORNERS * k + j, id * VERTICES_PER_TILE;
    assert Slot(id, k, j) == v + n;
    ItemStep(a.weight, 2, v, n, Repeat([sp.x, sp.y], n), [sp.x, sp.y]);
  }

  /** The entries of corner j of face k come after those of the corners
      before it. */
  lemma CornerStep(b: Box, k: nat, j: nat)
    requires k < FACE_NUM && j < CORNERS
    ensures var n, c := CORNERS * k + j, PositionAndSize(b, k, j);
      && CornerPositions(b, n + 1) == CornerPositions(b, n) + [c.x, c.y, c.z]
      && CornerSizes(b, n + 1) == CornerSizes(b, n) + [c.w, c.h]
  {
    assert (CORNERS * k + j) / CORNERS == k && (CORNERS * k + j) % CORNERS == j;
  }

  /** For an attribute of item size m whose block starts at item v, writing
      item v + n after the first n items of the block extends the rewritten
      prefix by that item. */
  lemma ItemStep<T>(s: seq<T>, m: nat, v: nat, n: nat, done: seq<T>, u: seq<T>)
    requires |done| == m * n && |u| == m
    requires m * v + m * n + m <= |s|
    ensures m * (v + n) + m <= |s|
    ensures Splice(s, m * v, done + u) == Splice(Splice(s, m * v, done), m * (v + n), u)
  {
    assert m * (v + n) == m * v + m * n;
    SpliceConsecutive(s, m * v, done, u);
  }

  /** The entries a tile with bounds b, blend value r and screen position
      sp has in its block, attribute by attribute. */
  function TileBlock(b: Box, r: real, sp: Point): AttributeState
  {
    AttributeState(
      CornerPositions(b, VERTICES_PER_TILE),
      CornerSizes(b, VERTICES_PER_TILE),
      Repeat([Direction(b.w, b.h)], VERTICES_PER_TILE),
      Repeat([r], VERTICES_PER_TILE),
      Repeat([sp.x, sp.y], VERTICES_PER_TILE))
  }

  /** After update drawing, the tile's block holds exactly the tile's
      entries. */
  lemma RedrawShowsTile(a: AttributeState, id: nat, b: Box, r: real, sp: Point)
    requires HasBlock(a, id)
    ensures HasBlock(Redraw(a, id, b, r, sp), id)
    ensures BlockOf(Redraw(a, id, b, r, sp), id) == TileBlock(b, r, sp)
  {
    assert VERTICES_PER_TILE == 4;
    var v, V := id * VERTICES_PER_TILE, VERTICES_PER_TILE;
    SpliceShows(a.position, 3 * v, CornerPositions(b, V));
    SpliceShows(a.size, 2 * v, CornerSizes(b, V));
    SpliceShows(a.direction, v, Repeat([Direction(b.w, b.h)], V));
    SpliceShows(a.ratio, v, Repeat([r], V));
    SpliceShows(a.weight, 2 * v, Repeat([sp.x, sp.y], V));
  }

  /** Update drawing of one tile leaves the block of every other tile as it
      was: tiles with distinct ids never disturb each other. */
  lemma RedrawKeepsOtherBlocks(a: AttributeState, id: nat, b: Box, r: real, sp: Point, other: nat)
    requires HasBlock(a, id) && HasBlock(a, other) && other != id
    ensures HasBlock(Redraw(a, id, b, r, sp), other)
    ensures BlockOf(Redraw(a, id, b, r, sp), other) == BlockOf(a, other)
  {
    assert VERTICES_PER_TILE == 4;
    var v, w := id * VERTICES_PER_TILE, other * VERTICES_PER_TILE;
    var V := VERTICES_PER_TILE;
    BlocksAreDisjoint(id, other, 3);
    BlocksAreDisjoint(id, other, 2);
    BlocksAreDisjoint(id, other, 1);
    assert 3 * w + 3 * V <= 3 * v || 3 * v + 3 * V <= 3 * w;
    SpliceKeepsOthers(a.position, 3 * v, CornerPositions(b, V), 3 * w, 3 * w + 3 * V);
    SpliceKeepsOthers(a.size, 2 * v, CornerSizes(b, V), 2 * w, 2 * w + 2 * V);
    SpliceKeepsOthers(a.direction, v, Repeat([Direction(b.w, b.h)], V), w, w + V);
    SpliceKeepsOthers(a.ratio, v, Repeat([r], V), w, w + V);
    SpliceKeepsOthers(a.weight, 2 * v, Repeat([sp.x, sp.y], V), 2 * w, 2 * w + 2 * V);
  }

  /** The entries of tile `id`'s block, attribute by attribute. */
  function BlockOf(a: AttributeState, id: nat): AttributeState
    requires HasBlock(a, id)
  {
    var v := id * VERTICES_PER_TILE;
    AttributeState(
      a.position[3 * v .. 3 * v + 3 * VERTICES_PER_TILE],
      a.size[2 * v .. 2 * v + 2 * VERTICES_PER_TILE],
      a.direction[v .. v + VERTICES_PER_TILE],
      a.ratio[v .. v + VERTICES_PER_TILE],
      a.weight[2 * v .. 2 * v + 2 * VERTICES_PER_TILE])
  }

  /** Updating a tile twice with the same state leaves what one update left:
      per-frame updates never accumulate. */
  lemma RedrawIdempotent(a: AttributeState, id: nat, b: Box, r: real, sp: Point)
    requires HasBlock(a, id)
    ensures HasBlock(Redraw(a, id, b, r, sp), id)
    ensures Redraw(Redraw(a, id, b, r, sp), id, b, r, sp) == Redraw(a, id, b, r, sp)
  {
    var V := VERTICES_PER_TILE;
    var v := id * V;
    SpliceTwice(a.position, 3 * v, CornerPositions(b, V));
    SpliceTwice(a.size, 2 * v, CornerSizes(b, V));
    SpliceTwice(a.direction, v, Repeat([Direction(b.w, b.h)], V));
    SpliceTwice(a.ratio, v, Repeat([r], V));
    SpliceTwice(a.weight, 2 * v, Repeat([sp.x, sp.y], V));
  }

  lemma SpliceTwice<T>(s: seq<T>, at: nat, t: seq<T>)
    requires at + |t| <= |s|
    ensures Splice(Splice(s, at, t), at, t) == Splice(s, at, t)
  {
  }

  /** Updating the last-drawn tile right after initial drawing, with the
      same bounds and screen position and its own ratio as blend value,
      writes back exactly what initial drawing appended: the two modes of
      drawing agree on the slots and on the values. */
  lemma RedrawAfterDrawn(s: BufferState, b: Box, r: real, sp: Point)
    requires WellFormed(s)
    ensures var d := Drawn(s, b, r, sp);
      HasBlock(AttributesOf(d), s.totalRenderCount)
      && Redraw(AttributesOf(d), s.totalRenderCount, b, r, sp) == AttributesOf(d)
  {
    assert VERTICES_PER_TILE == 4;
    var d, n, V := Drawn(s, b, r, sp), s.totalRenderCount, VERTICES_PER_TILE;
    assert |s.vertices| == 3 * (n * V) && |s.size| == 2 * (n * V) && |s.directions| == n * V;
    assert |s.ratios| == n * V && |s.weights| == 2 * (n * V);
    SpliceSame(s.vertices, CornerPositions(b, V));
    SpliceSame(s.size, CornerSizes(b, V));
    SpliceSame(s.directions, Repeat([Direction(b.w, b.h)], V));
    SpliceSame(s.ratios, Repeat([r], V));
    SpliceSame(s.weights, Repeat([sp.x, sp.y], V));
  }

  /** Overwriting the tail `t` of `s + t` with `t` changes nothing. */
  lemma SpliceSame<T>(s: seq<T>, t: seq<T>)
    ensures Splice(s + t, |s|, t) == s + t
  {
    assert (s + t)[..|s|] == s;
    assert (s + t)[|s| + |t|..] == [];
  }

  /** BufferAttribute.setXYZ: item t of an attribute of item size 3. */
  method SetXYZ(a: array<real>, t: nat, x: real, y: real, z: real)
    requires 3 * t + 3 <= a.Length
    modifies a
    ensures a[..] == Splice(old(a[..]), 3 * t, [x, y, z])
  {
    a[3 * t] := x;
    a[3 * t + 1] := y;
    a[3 * t + 2] := z;
    assert a[..] == old(a[..])[..3 * t] + [x, y, z] + old(a[..])[3 * t + 3..];
  }

  /** BufferAttribute.setXY: item t of an attribute of item size 2. */
  method SetXY(a: array<real>, t: nat, x: real, y: real)
    requires 2 * t + 2 <= a.Length
    modifies a
    ensures a[..] == Splice(old(a[..]), 2 * t, [x, y])
  {
    a[2 * t] := x;
    a[2 * t + 1] := y;
    assert a[..] == old(a[..])[..2 * t] + [x, y] + old(a[..])[2 * t + 2..];
  }

  /** BufferAttribute.setX: item t of an attribute of item size 1. */
  method SetX(a: array<real>, t: nat, x: real)
    requires t + 1 <= a.Length
    modifies a
    ensures a[..] == Splice(old(a[..]), t, [x])
  {
    a[t] := x;
    assert a[..] == old(a[..])[..t] + [x] + old(a[..])[t + 1..];
  }

  /** The buffer geometry addTilesToScene builds. The topology attributes
      are never written after construction; the five per-frame attributes
      are fixed-size arrays that update drawing overwrites in place. */
  class Geometry {
    const indices: seq<int>
    const index: seq<int>
    const totalIndex: seq<real>
    const uv: seq<int>
    const padding: seq<real>
    const position: array<real>
    const size: array<real>
    const direction: array<real>
    const ratio: array<real>
    const weight: array<real>

    /** Number of vertices the geometry holds. */
    function VertexCount(): nat
    {
      ratio.Length
    }

    /** The per-frame attributes as values. */
    function Attributes(): AttributeState
      reads position, size, direction, ratio, weight
    {
      AttributeState(position[..], size[..], direction[..], ratio[..], weight[..])
    }

    /** The five attribute arrays are distinct objects of item sizes 3, 2,
        1, 1, 2 over the same number of vertices. */
    ghost predicate Valid()
    {
      && position.Length == 3 * VertexCount()
      && size.Length == 2 * VertexCount()
      && direction.Length == VertexCount()
      && weight.Length == 2 * VertexCount()
      && position != size && position != direction && position != ratio && position != weight
      && size != direction && size != ratio && size != weight
      && direction != ratio && direction != weight
      && ratio != weight
    }

    /** The writes update drawing makes for vertex slot t: corner c's
        position and face size, the direction d, the blend value r and the
        screen position sp, each into item t of its attribute. */
    method WriteSlot(t: nat, c: Corner, d: real, r: real, sp: Point)
      requires Valid() && t + 1 <= VertexCount()
      modifies position, size, direction, ratio, weight
      ensures var a := old(Attributes());
        Attributes() == AttributeState(
          Splice(a.position, 3 * t, [c.x, c.y, c.z]),
          Splice(a.size, 2 * t, [c.w, c.h]),
          Splice(a.direction, 1 * t, [d]),
          Splice(a.ratio, 1 * t, [r]),
          Splice(a.weight, 2 * t, [sp.x, sp.y]))
    {
      SetXYZ(position, t, c.x, c.y, c.z);
      SetXY(size, t, c.w, c.h);
      SetX(ratio, t, r);
      SetX(direction, t, d);
      SetXY(weight, t, sp.x, sp.y);
    }

    /** addTilesToScene: every buffer copied into an attribute of its own,
        plus a `totalIndex` attribute with one entry per vertex, each the
        final tile count. */
    constructor (mb: MeshBuffers)
      requires StreamLengths(mb.State())
      ensures Valid() && VertexCount() == VERTICES_PER_TILE * mb.totalRenderCount
      ensures indices == mb.indices && index == mb.index && uv == mb.uvs && padding == mb.paddings
      ensures Attributes() == AttributesOf(mb.State())
      ensures |totalIndex| == |index|
      ensures forall i :: 0 <= i < |totalIndex| ==> totalIndex[i] == mb.totalRenderCount as real
      ensures fresh(position) && fresh(size) && fresh(direction) && fresh(ratio) && fresh(weight)
    {
      var s := mb.State();
      indices := s.indices;
      index := s.index;
      totalIndex := seq(|s.index|, _ => s.totalRenderCount as real);
      uv := s.uvs;
      padding := s.paddings;
      position := new real[|s.vertices|](i requires 0 <= i < |s.vertices| => s.vertices[i]);
      size := new real[|s.size|](i requires 0 <= i < |s.size| => s.size[i]);
      direction := new real[|s.directions|](i requires 0 <= i < |s.directions| => s.directions[i]);
      ratio := new real[|s.ratios|](i requires 0 <= i < |s.ratios| => s.ratios[i]);
      weight := new real[|s.weights|](i requires 0 <= i < |s.weights| => s.weights[i]);
    }
  }
}
