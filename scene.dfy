/** The module-level state of the sketch and the functions that drive it:
    createTiles lays four strip tiles out and builds the merged geometry,
    render redraws every tile once per frame behind the two development
    flags, and onResize only resizes the renderer. */
module Scene {
  import opened Layout
  import opened TileGeometry
  import opened Buffers
  import opened Tiles

  /** The value the time uniform starts with. */
  const INITIAL_TIME: real := 1.0

  /** The bounds createTiles gives strip i: the strip's left edge, the
      bottom of the stage, the strip's width and the stage's full height. */
  function StripBox(i: nat, width: real, stageHeight: real): Box
  {
    Box(LeftEdge(i, width), -stageHeight / 2.0, 0.0, StepW(i, width), stageHeight)
  }

  /** At the width the strips were laid out for, the screen position of
      every strip lies strictly inside the unit interval horizontally and at
      one half vertically, since each strip spans the stage's full height. */
  lemma StripScreenPosition(i: nat, width: real, stageHeight: real)
    requires i < STRIP_COUNT && width > 0.0 && stageHeight > 0.0
    ensures var sp := ScreenPosition(StripBox(i, width, stageHeight), width, stageHeight);
      0.0 < sp.x < 1.0 && sp.y == 0.5
  {
    var b := StripBox(i, width, stageHeight);
    // the strip's centre, measured from the viewport's left edge
    var mid := LeftOffset(i, width) + StepW(i, width) / 2.0;
    assert 0.0 < mid < width by {
      LeftOffsetClosedForm(i / 2, width);
    }
    assert Center(b).x + width / 2.0 == mid;
    ProperFraction(mid, width);
    assert Center(b).y == 0.0;
    assert (stageHeight / 2.0) / stageHeight == 0.5;
  }

  /** A positive quantity smaller than a second one is a proper fraction of it. */
  lemma ProperFraction(num: real, den: real)
    requires 0.0 < num < den
    ensures 0.0 < num / den < 1.0
  {
    assert num / den + (den - num) / den == den / den == 1.0;
    assert (den - num) / den > 0.0;
  }

  /** onResize leaves the strips where createTiles put them while
      getScreenPosition reads the new window width: strip 3 of a layout for a
      1000-wide window, drawn after the window narrows to 500, gets screen
      position x = 1.219, off the unit interval. */
  lemma ResizedStripLeavesUnitInterval(stageHeight: real)
    requires stageHeight > 0.0
    ensures ScreenPosition(StripBox(3, 1000.0, stageHeight), 500.0, stageHeight).x == 1.219
  {
    LayoutOfThousandWideViewport();
  }

  /** The buffers after createTiles has drawn its first n strips on emptied
      buffers, strip i with the random value randoms[i]. */
  function StripsDrawn(randoms: seq<real>, width: real, stageHeight: real, n: nat): BufferState
    requires n <= |randoms| && width > 0.0 && stageHeight > 0.0
  {
    if n == 0 then EMPTY
    else
      var b := StripBox(n - 1, width, stageHeight);
      Drawn(StripsDrawn(randoms, width, stageHeight, n - 1), b, RandomRatio(randoms[n - 1]),
            ScreenPosition(b, width, stageHeight))
  }

  /** Drawing n strips on emptied buffers leaves them well-formed with n
      tiles counted. */
  lemma {:induction false} StripsDrawnWellFormed(randoms: seq<real>, width: real, stageHeight: real, n: nat)
    requires n <= |randoms| && width > 0.0 && stageHeight > 0.0
    ensures WellFormed(StripsDrawn(randoms, width, stageHeight, n))
    ensures StripsDrawn(randoms, width, stageHeight, n).totalRenderCount == n
  {
    if n > 0 {
      StripsDrawnWellFormed(randoms, width, stageHeight, n - 1);
      var b := StripBox(n - 1, width, stageHeight);
      DrawnKeepsWellFormed(StripsDrawn(randoms, width, stageHeight, n - 1), b, RandomRatio(randoms[n - 1]),
                           ScreenPosition(b, width, stageHeight));
    }
  }

  /** `s` is the state of the buffers once the first n strips are drawn.
      The equation is stated for the one k that equals n, under a trigger on
      StripsDrawn, so that a proof unfolds the strips only where it names
      them. */
  ghost predicate ShowsStrips(s: BufferState, randoms: seq<real>, width: real, stageHeight: real, n: nat)
  {
    forall k {:trigger StripsDrawn(randoms, width, stageHeight, k)} ::
      k == n && k <= |randoms| && width > 0.0 && stageHeight > 0.0 ==> s == StripsDrawn(randoms, width, stageHeight, k)
  }

  /** ShowsStrips is the plain equation with StripsDrawn. */
  lemma ShowsStripsMeans(s: BufferState, randoms: seq<real>, width: real, stageHeight: real, n: nat)
    requires n <= |randoms| && width > 0.0 && stageHeight > 0.0
    ensures ShowsStrips(s, randoms, width, stageHeight, n) <==> s == StripsDrawn(randoms, width, stageHeight, n)
  {
  }

  /** Every tile has a non-negative id whose block `a` has room for. */
  predicate Placed(a: AttributeState, views: seq<TileView>)
  {
    forall i :: 0 <= i < |views| ==> 0 <= views[i].id && HasBlock(a, views[i].id)
  }

  /** No two tiles share an id. */
  predicate DistinctIds(views: seq<TileView>)
  {
    forall i, j :: 0 <= i < j < |views| ==> views[i].id != views[j].id
  }

  /** The first n tiles of `views`, in order, redrawn in update mode. */
  function RedrawFirst(a: AttributeState, views: seq<TileView>, n: nat, width: real, stageHeight: real)
    : (r: AttributeState)
    requires n <= |views| && Placed(a, views) && width > 0.0 && stageHeight > 0.0
    ensures SameLengths(r, a)
  {
    if n == 0 then a
    else
      var v := views[n - 1];
      Redraw(RedrawFirst(a, views, n - 1, width, stageHeight), v.id, v.bounds, v.impulse,
             ScreenPosition(v.bounds, width, stageHeight))
  }

  /** One frame of render on the attributes: every tile, in the order of
      `tiles`, redrawn in update mode. */
  function RedrawAll(a: AttributeState, views: seq<TileView>, width: real, stageHeight: real): AttributeState
    requires Placed(a, views) && width > 0.0 && stageHeight > 0.0
  {
    RedrawFirst(a, views, |views|, width, stageHeight)
  }

  /** `a` is the attributes `a0` once the first n tiles of `views` are
      redrawn; stated, like ShowsStrips, for the one k that equals n. */
  ghost predicate ShowsRedrawn(a: AttributeState, a0: AttributeState, views: seq<TileView>, n: nat,
                               width: real, stageHeight: real)
  {
    forall k {:trigger RedrawFirst(a0, views, k, width, stageHeight)} ::
      k == n && k <= |views| && Placed(a0, views) && width > 0.0 && stageHeight > 0.0
      ==> a == RedrawFirst(a0, views, k, width, stageHeight)
  }

  /** ShowsRedrawn is the plain equation with RedrawFirst. */
  lemma ShowsRedrawnMeans(a: AttributeState, a0: AttributeState, views: seq<TileView>, n: nat,
                          width: real, stageHeight: real)
    requires n <= |views| && Placed(a0, views) && width > 0.0 && stageHeight > 0.0
    ensures ShowsRedrawn(a, a0, views, n, width, stageHeight) <==> a == RedrawFirst(a0, views, n, width, stageHeight)
  {
  }

  /** Some attributes are the first n tiles redrawn (namely RedrawFirst). */
  lemma RedrawnPrefix(a: AttributeState, views: seq<TileView>, n: nat, width: real, stageHeight: real)
    returns (r: AttributeState)
    requires n <= |views| && Placed(a, views) && width > 0.0 && stageHeight > 0.0
    ensures ShowsRedrawn(r, a, views, n, width, stageHeight) && SameLengths(r, a)
  {
    r := RedrawFirst(a, views, n, width, stageHeight);
  }

  /** Redrawing tile n - 1 last leaves its block holding its own entries. */
  lemma RedrawnShowsLast(a: AttributeState, views: seq<TileView>, n: nat, width: real, stageHeight: real,
                         r: AttributeState, before: AttributeState)
    requires 0 < n <= |views| && Placed(a, views) && width > 0.0 && stageHeight > 0.0
    requires ShowsRedrawn(r, a, views, n, width, stageHeight)
    requires ShowsRedrawn(before, a, views, n - 1, width, stageHeight)
    ensures var v := views[n - 1];
      HasBlock(r, v.id) && BlockOf(r, v.id) == TileBlock(v.bounds, v.impulse, ScreenPosition(v.bounds, width, stageHeight))
  {
    var last := views[n - 1];
    assert before == RedrawFirst(a, views, n - 1, width, stageHeight);
    assert r == RedrawFirst(a, views, n, width, stageHeight);
    RedrawShowsTile(before, last.id, last.bounds, last.impulse, ScreenPosition(last.bounds, width, stageHeight));
  }

  /** Redrawing tile n - 1 leaves the block of an id other than its own as
      it was. */
  lemma RedrawnKeepsOther(a: AttributeState, views: seq<TileView>, n: nat, width: real, stageHeight: real,
                          r: AttributeState, before: AttributeState, other: nat)
    requires 0 < n <= |views| && Placed(a, views) && width > 0.0 && stageHeight > 0.0
    requires ShowsRedrawn(r, a, views, n, width, stageHeight)
    requires ShowsRedrawn(before, a, views, n - 1, width, stageHeight)
    requires HasBlock(before, other) && views[n - 1].id != other
    ensures HasBlock(r, other) && BlockOf(r, other) == BlockOf(before, other)
  {
    var last := views[n - 1];
    assert before == RedrawFirst(a, views, n - 1, width, stageHeight);
    assert r == RedrawFirst(a, views, n, width, stageHeight);
    RedrawKeepsOtherBlocks(before, last.id, last.bounds, last.impulse,
                           ScreenPosition(last.bounds, width, stageHeight), other);
  }

  /** When the tiles have distinct ids, once the first n are redrawn the
      block of each of them holds exactly that tile's entries. */
  lemma {:induction false} RedrawnShowsTile(a: AttributeState, views: seq<TileView>, n: nat, width: real,
                                           stageHeight: real, r: AttributeState, i: nat)
    requires n <= |views| && Placed(a, views) && width > 0.0 && stageHeight > 0.0
    requires ShowsRedrawn(r, a, views, n, width, stageHeight)
    requires DistinctIds(views) && i < n
    ensures var v := views[i];
      HasBlock(r, v.id) && BlockOf(r, v.id) == TileBlock(v.bounds, v.impulse, ScreenPosition(v.bounds, width, stageHeight))
  {
    var before := RedrawnPrefix(a, views, n - 1, width, stageHeight);
    if i == n - 1 {
      RedrawnShowsLast(a, views, n, width, stageHeight, r, before);
    } else {
      RedrawnShowsTile(a, views, n - 1, width, stageHeight, before, i);
      RedrawnKeepsOther(a, views, n, width, stageHeight, r, before, views[i].id);
    }
  }

  /** When the tiles have distinct ids, after a frame the block of every
      tile holds exactly that tile's entries. */
  lemma RedrawAllShowsEveryTile(a: AttributeState, views: seq<TileView>, width: real, stageHeight: real, i: nat)
    requires Placed(a, views) && width > 0.0 && stageHeight > 0.0
    requires DistinctIds(views) && i < |views|
    ensures var r, v := RedrawAll(a, views, width, stageHeight), views[i];
      HasBlock(r, v.id)
      && BlockOf(r, v.id) == TileBlock(v.bounds, v.impulse, ScreenPosition(v.bounds, width, stageHeight))
  {
    RedrawnShowsTile(a, views, |views|, width, stageHeight, RedrawAll(a, views, width, stageHeight), i);
  }

  /** The views of a sequence of tiles, in order. */
  function ViewsOf(ts: seq<Tile>): (vs: seq<TileView>)
    reads ts
    ensures |vs| == |ts| && forall i :: 0 <= i < |ts| ==> vs[i] == ts[i].View()
  {
    if ts == [] then [] else ViewsOf(ts[..|ts| - 1]) + [ts[|ts| - 1].View()]
  }

  /** Tile t is strip i of a viewport `width` wide: it has id i, the strip's
      bounds, the ratio drawn from `random` and no impulse. */
  predicate IsStrip(t: Tile, i: nat, random: real, width: real, stageHeight: real)
    reads t
  {
    t.id == i && t.Bounds() == StripBox(i, width, stageHeight) && t.ratio == RandomRatio(random) && t.impulse == 0.0
  }

  /** The loop of createTiles: for each strip i, its left edge from
      getLength, its width from getStepW, and a new tile of the stage's full
      height, which draws itself into `mb` as it is constructed. */
  method BuildStrips(randoms: seq<real>, mb: MeshBuffers, width: real, stageHeight: real)
    returns (created: seq<Tile>)
    requires mb.State() == EMPTY && |randoms| == STRIP_COUNT
    requires width > 0.0 && stageHeight > 0.0
    modifies mb
    ensures ShowsStrips(mb.State(), randoms, width, stageHeight, STRIP_COUNT)
    ensures mb.Valid() && mb.totalRenderCount == STRIP_COUNT
    ensures |created| == STRIP_COUNT
    ensures forall i :: 0 <= i < STRIP_COUNT ==> fresh(created[i])
    ensures forall i :: 0 <= i < STRIP_COUNT ==> IsStrip(created[i], i, randoms[i], width, stageHeight)
  {
    created := [];
    var i := 0;
    while i < STRIP_COUNT
      invariant 0 <= i <= STRIP_COUNT && |created| == i
      invariant mb.totalRenderCount == i
      invariant ShowsStrips(mb.State(), randoms, width, stageHeight, i)
      invariant forall m :: 0 <= m < i ==> fresh(created[m])
      invariant forall m :: 0 <= m < i ==> IsStrip(created[m], m, randoms[m], width, stageHeight)
    {
      var t := AddStrip(randoms, i, mb, width, stageHeight);
      created := created + [t];
      i := i + 1;
    }
    StripsDrawnWellFormed(randoms, width, stageHeight, STRIP_COUNT);
  }

  /** One pass of the createTiles loop: strip i placed after the i strips
      before it, as wide as getStepW says, drawn in append mode. */
  method AddStrip(randoms: seq<real>, i: nat, mb: MeshBuffers, width: real, stageHeight: real)
    returns (t: Tile)
    requires i < |randoms| && width > 0.0 && stageHeight > 0.0
    requires mb.totalRenderCount == i && ShowsStrips(mb.State(), randoms, width, stageHeight, i)
    modifies mb
    ensures mb.totalRenderCount == i + 1 && ShowsStrips(mb.State(), randoms, width, stageHeight, i + 1)
    ensures fresh(t) && IsStrip(t, i, randoms[i], width, stageHeight)
  {
    // the buffers hold strips 0 .. i-1
    assert mb.State() == StripsDrawn(randoms, width, stageHeight, i);
    var length := GetLength(i, width);
    t := new Tile(-width / 2.0 + length, -stageHeight / 2.0, StepW(i, width), stageHeight,
                  randoms[i], mb, width, stageHeight);
    assert t.Bounds() == StripBox(i, width, stageHeight);
    // drawing strip i appended it: the buffers hold strips 0 .. i
    assert mb.State() == StripsDrawn(randoms, width, stageHeight, i + 1);
  }

  /** The tiles.forEach(tile => tile.update()) of render: every tile, in
      order, redrawn in update mode with its own bounds and impulse. */
  method RedrawTiles(ts: seq<Tile>, ghost views: seq<TileView>, g: Geometry, width: real, stageHeight: real)
    requires g.Valid() && width > 0.0 && stageHeight > 0.0
    requires views == ViewsOf(ts) && Placed(g.Attributes(), views)
    modifies g.position, g.size, g.direction, g.ratio, g.weight
    ensures ShowsRedrawn(g.Attributes(), old(g.Attributes()), views, |views|, width, stageHeight)
  {
    ghost var a0 := g.Attributes();
    for i := 0 to |ts|
      invariant ShowsRedrawn(g.Attributes(), a0, views, i, width, stageHeight)
    {
      // tiles 0 .. i-1 are redrawn
      assert g.Attributes() == RedrawFirst(a0, views, i, width, stageHeight);
      ts[i].Update(None, g, width, stageHeight);
      // and now tile i too
      assert g.Attributes() == RedrawFirst(a0, views, i + 1, width, stageHeight);
    }
  }

  /** The sketch's module-level state: the mesh buffers, the tiles, the
      merged geometry (none before createTiles), the window width and the
      stage height, the resolution and time uniforms, the latched time and
      the two development flags. */
  class Sketch {
    const buffers: MeshBuffers
    var tiles: seq<Tile>
    var geometry: Geometry?
    var innerWidth: real
    const stageHeight: real
    var resolution: Point
    var currentTime: real
    var timeUniform: real
    const isImageGenerationMode: bool
    const showGenerateImageButton: bool

    /** The buffers are well-formed, the window has a size, tiles exist only
        once the geometry does, the geometry has the four strips' vertex
        slots, and every tile's id is one of theirs. */
    ghost predicate Valid()
      reads this, tiles
    {
      && innerWidth > 0.0 && stageHeight > 0.0
      && (geometry == null ==> tiles == [])
      && (geometry != null ==> geometry.Valid() && geometry.VertexCount() == VERTICES_PER_TILE * STRIP_COUNT)
      && (forall i :: 0 <= i < |tiles| ==> 0 <= tiles[i].id < STRIP_COUNT)
    }

    /** The tiles as update drawing sees them, in the order of `tiles`. */
    function Views(): seq<TileView>
      reads this, tiles
    {
      ViewsOf(tiles)
    }

    /** The attribute arrays render writes (none before the geometry exists). */
    function AttributeArrays(): set<object>
      reads this
    {
      if geometry == null then {}
      else {geometry.position, geometry.size, geometry.direction, geometry.ratio, geometry.weight}
    }

    /** The module's declarations: empty buffers, no tiles and no geometry
        yet, the time uniform at its initial value; the stage height is the
        window's height when the script starts. */
    constructor (width: real, height: real, imageGenerationMode: bool, generateImageButton: bool)
      requires width > 0.0 && height > 0.0
      ensures Valid() && fresh(buffers) && buffers.State() == EMPTY
      ensures tiles == [] && geometry == null
      ensures innerWidth == width && stageHeight == height && resolution == Point(0.0, 0.0)
      ensures currentTime == 0.0 && timeUniform == INITIAL_TIME
      ensures isImageGenerationMode == imageGenerationMode && showGenerateImageButton == generateImageButton
    {
      buffers := new MeshBuffers();
      tiles := [];
      geometry := null;
      innerWidth := width;
      stageHeight := height;
      resolution := Point(0.0, 0.0);
      currentTime := 0.0;
      timeUniform := INITIAL_TIME;
      isImageGenerationMode := imageGenerationMode;
      showGenerateImageButton := generateImageButton;
    }

    /** createTiles: resets the counter and empties the buffers, appends
        four strip tiles to `tiles` (tiles of an earlier call stay in front
        of them), each drawn in initial mode and so given the next id, and
        builds the geometry from the buffers. randoms[i] is the value the
        random source returns for tile i. */
    method CreateTiles(randoms: seq<real>)
      requires Valid() && |randoms| == STRIP_COUNT
      modifies this`tiles, this`geometry, buffers
      ensures Valid() && buffers.Valid()
      ensures ShowsStrips(buffers.State(), randoms, innerWidth, stageHeight, STRIP_COUNT)
      ensures |tiles| == |old(tiles)| + STRIP_COUNT && tiles[..|old(tiles)|] == old(tiles)
      ensures forall t :: t in tiles[|old(tiles)|..] ==> fresh(t)
      ensures forall i :: 0 <= i < STRIP_COUNT ==>
        IsStrip(tiles[|old(tiles)| + i], i, randoms[i], innerWidth, stageHeight)
      ensures buffers.totalRenderCount == STRIP_COUNT
      ensures geometry != null && fresh(geometry)
      ensures fresh(geometry.position) && fresh(geometry.size) && fresh(geometry.direction)
      ensures fresh(geometry.ratio) && fresh(geometry.weight)
      ensures geometry.Attributes() == AttributesOf(buffers.State())
      ensures geometry.indices == buffers.indices && geometry.index == buffers.index
      ensures geometry.uv == buffers.uvs && geometry.padding == buffers.paddings
      ensures |geometry.totalIndex| == |geometry.index| == VERTICES_PER_TILE * STRIP_COUNT
      ensures forall i :: 0 <= i < |geometry.totalIndex| ==> geometry.totalIndex[i] == STRIP_COUNT as real
    {
      buffers.Reset();
      var created := BuildStrips(randoms, buffers, innerWidth, stageHeight);
      tiles := tiles + created;
      geometry := new Geometry(buffers);
    }

    /** render: latches the elapsed time unless in image-generation mode,
        copies the latched time into the time uniform, redraws every tile in
        update mode, and asks for the next frame only when neither
        development flag is set. */
    method Render(elapsed: real) returns (rearm: bool)
      requires Valid()
      modifies this`currentTime, this`timeUniform, AttributeArrays()
      ensures Valid()
      ensures currentTime == (if isImageGenerationMode then old(currentTime) else elapsed)
      ensures timeUniform == currentTime
      ensures rearm <==> !isImageGenerationMode && !showGenerateImageButton
      ensures geometry != null ==>
        && Placed(old(geometry.Attributes()), old(Views()))
        && geometry.Attributes() == RedrawAll(old(geometry.Attributes()), old(Views()), innerWidth, stageHeight)
    {
      LatchTime(elapsed);
      // tiles is empty until createTiles has built the geometry
      if geometry != null {
        ghost var views := Views();
        assert Placed(geometry.Attributes(), views);
        RedrawTiles(tiles, views, geometry, innerWidth, stageHeight);
      }
      rearm := !isImageGenerationMode && !showGenerateImageButton;
    }

    /** The first statements of render: the elapsed time is latched unless
        in image-generation mode, and the latched time goes to the time
        uniform. */
    method LatchTime(elapsed: real)
      requires Valid()
      modifies this`currentTime, this`timeUniform
      ensures Valid() && Views() == old(Views())
      ensures currentTime == (if isImageGenerationMode then old(currentTime) else elapsed)
      ensures timeUniform == currentTime
    {
      if !isImageGenerationMode {
        currentTime := elapsed;
      }
      timeUniform := currentTime;
    }

    /** onResize / setSize: the resolution uniform (and the camera and
        renderer) take the window's new size; the tiles, the buffers and the
        geometry stay as they were, so nothing is laid out again. */
    method OnResize(width: real, height: real)
      requires Valid() && width > 0.0
      modifies this`innerWidth, this`resolution
      ensures Valid() && innerWidth == width && resolution == Point(width, height)
      ensures tiles == old(tiles) && geometry == old(geometry) && unchanged(buffers)
    {
      innerWidth := width;
      resolution := Point(width, height);
    }
  }
}
