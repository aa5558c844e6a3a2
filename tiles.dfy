/** One tile: a rectangular region of the viewport that writes its own
    entries into the shared mesh buffers. Initial drawing (at construction)
    reserves the tile's block by appending and takes the next id; update
    drawing overwrites that block in the geometry's attributes. */
module Tiles {
  import opened TileGeometry
  import opened Buffers

  /** The blend ratio a tile is born with, from the value r that the random
      source returned: 0.5 + (2r - 1) * 0.1. */
  function RandomRatio(random: real): (r: real)
    // a random value in [0, 1) gives a ratio in [0.4, 0.6)
    ensures 0.0 <= random < 1.0 ==> 0.4 <= r < 0.6
  {
    0.5 + (random * 2.0 - 1.0) * 0.1
  }

  /** The ratio is centred on 0.5: random values r and 1 - r give ratios
      equally far from it on either side. */
  lemma RandomRatioSymmetric(random: real)
    ensures RandomRatio(random) - 0.5 == 0.5 - RandomRatio(1.0 - random)
  {
  }

  /** The optional argument of Tile.update: new bounds and a new impulse. */
  datatype TileArg = TileArg(x: real, y: real, w: real, h: real, impulse: real)

  datatype Option<T> = None | Some(value: T)

  /** What update drawing of a tile depends on: its id, its bounds and its
      impulse. */
  datatype TileView = TileView(id: int, bounds: Box, impulse: real)

  class Tile {
    var x: real
    var y: real
    var z: real
    var w: real
    var h: real
    var ratio: real
    var id: int
    var impulse: real

    /** The tile's geometric state. */
    function Bounds(): Box
      reads this
    {
      Box(x, y, z, w, h)
    }

    /** The tile as update drawing sees it. */
    function View(): TileView
      reads this
    {
      TileView(id, Bounds(), impulse)
    }

    /** new Tile(x, y, w, h): a flat tile (z = 0) with a random ratio, no
        impulse, drawn at once in initial mode, which gives it the next id. */
    constructor (x0: real, y0: real, w0: real, h0: real, random: real,
                 mb: MeshBuffers, innerWidth: real, stageHeight: real)
      requires innerWidth > 0.0 && stageHeight > 0.0
      modifies mb
      ensures Bounds() == Box(x0, y0, 0.0, w0, h0)
      ensures ratio == RandomRatio(random) && impulse == 0.0
      ensures id == old(mb.totalRenderCount)
      ensures mb.State() == Drawn(old(mb.State()), Bounds(), ratio, ScreenPosition(Bounds(), innerWidth, stageHeight))
    {
      x, y, z, w, h := x0, y0, 0.0, w0, h0;
      ratio := RandomRatio(random);
      id := -1;
      impulse := 0.0;
      new;
      DrawInitial(mb, innerWidth, stageHeight);
    }

    /** draw(false): takes id = totalRenderCount, appends for every face k
        and corner j the corner's position and face size, the direction,
        the ratio and the screen position, then per face four ids, four
        paddings, four uvs and two triangles over the face's vertex slots,
        and finally increments totalRenderCount. */
    method DrawInitial(mb: MeshBuffers, innerWidth: real, stageHeight: real)
      requires innerWidth > 0.0 && stageHeight > 0.0
      modifies this`id, mb
      ensures id == old(mb.totalRenderCount)
      ensures mb.State() == Drawn(old(mb.State()), Bounds(), ratio, ScreenPosition(Bounds(), innerWidth, stageHeight))
    {
      ghost var s0 := mb.State();
      var tid: nat := mb.totalRenderCount;
      id := tid;
      var b := Bounds();
      var screenPos := ScreenPosition(b, innerWidth, stageHeight);
      PartialEnds(s0, b, ratio, screenPos);

      for k := 0 to FACE_NUM
        invariant mb.State() == Partial(s0, b, ratio, screenPos, CORNERS * k, CORNERS * k, k)
        modifies mb
      {
        for j := 0 to CORNERS
          invariant mb.State() == Partial(s0, b, ratio, screenPos, CORNERS * k + j, CORNERS * k, k)
          modifies mb
        {
          PartialCorner(s0, b, ratio, screenPos, k, j);
          mb.PushCorner(PositionAndSize(b, k, j), Direction(w, h), ratio, screenPos);
        }

        for j := 0 to CORNERS
          invariant mb.State() == Partial(s0, b, ratio, screenPos, CORNERS * (k + 1), CORNERS * k + j, k)
          modifies mb
        {
          PartialId(s0, b, ratio, screenPos, k, j);
          mb.PushId(tid);
        }

        PartialFace(s0, b, ratio, screenPos, k);
        mb.PushFace(Slot(tid, k, 0));
      }

      mb.CountTile();
    }

    /** draw(true): for every face k and corner j, overwrites vertex slot
        Slot(id, k, j) of the geometry's position, size,
        ratio (with the impulse, not the ratio), direction and weight
        attributes; nothing is appended and no other slot is written. */
    method DrawUpdate(g: Geometry, innerWidth: real, stageHeight: real)
      requires g.Valid() && innerWidth > 0.0 && stageHeight > 0.0
      requires 0 <= id && id * VERTICES_PER_TILE + VERTICES_PER_TILE <= g.VertexCount()
      modifies g.position, g.size, g.direction, g.ratio, g.weight
      ensures HasBlock(old(g.Attributes()), id)
      ensures g.Attributes() == Redraw(old(g.Attributes()), id, Bounds(), impulse, ScreenPosition(Bounds(), innerWidth, stageHeight))
    {
      ghost var a0 := g.Attributes();
      var tid: nat := id;
      var b := Bounds();
      var screenPos := ScreenPosition(b, innerWidth, stageHeight);
      PartialRedrawEnds(a0, tid, b, impulse, screenPos);

      for k := 0 to FACE_NUM
        invariant g.Attributes() == PartialRedraw(a0, tid, b, impulse, screenPos, CORNERS * k)
        modifies g.position, g.size, g.direction, g.ratio, g.weight
      {
        for j := 0 to CORNERS
          invariant g.Attributes() == PartialRedraw(a0, tid, b, impulse, screenPos, CORNERS * k + j)
          modifies g.position, g.size, g.direction, g.ratio, g.weight
        {
          PartialRedrawStep(a0, tid, b, impulse, screenPos, k, j);
          g.WriteSlot(Slot(tid, k, j), PositionAndSize(b, k, j), Direction(w, h), impulse, screenPos);
        }
      }
    }

    /** update(arg): with an argument, takes its bounds and impulse; then
        redraws the tile in update mode. */
    method Update(arg: Option<TileArg>, g: Geometry, innerWidth: real, stageHeight: real)
      requires g.Valid() && innerWidth > 0.0 && stageHeight > 0.0
      requires 0 <= id && id * VERTICES_PER_TILE + VERTICES_PER_TILE <= g.VertexCount()
      modifies if arg.Some? then {this} else {}, g.position, g.size, g.direction, g.ratio, g.weight
      ensures arg.Some? ==> x == arg.value.x && y == arg.value.y && w == arg.value.w && h == arg.value.h
                            && impulse == arg.value.impulse
      ensures arg.None? ==> x == old(x) && y == old(y) && w == old(w) && h == old(h) && impulse == old(impulse)
      ensures z == old(z) && ratio == old(ratio) && id == old(id)
      ensures HasBlock(old(g.Attributes()), id)
      ensures g.Attributes() == Redraw(old(g.Attributes()), id, Bounds(), impulse, ScreenPosition(Bounds(), innerWidth, stageHeight))
    {
      if arg.Some? {
        x := arg.value.x;
        y := arg.value.y;
        w := arg.value.w;
        h := arg.value.h;
        impulse := arg.value.impulse;
      }
      DrawUpdate(g, innerWidth, stageHeight);
    }
  }
}
