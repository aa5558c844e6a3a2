/** The pure geometry of one tile: the per-face corner table
    (getPositionAndSize), the aspect classification (getDirection) and the
    mapping of the tile's centre into normalised screen space (getCenter,
    getScreenPosition). */
module TileGeometry {

  /** Number of faces of a tile's box that are drawn (front face only). */
  const FACE_NUM: nat := 1
  /** Inward padding applied on every side of a face. */
  const PADDING: real := 0.0
  /** Number of faces the corner table defines: front, right, back, left, top, bottom. */
  const FACE_TABLE_SIZE: nat := 6
  /** Corners of one face, numbered 0 (lower left), 1 (lower right),
      2 (upper right), 3 (upper left). */
  const CORNERS: nat := 4
  /** Width and height closer than this make a tile "neutral". */
  const NEUTRAL_THRESHOLD: real := 100.0

  /** Direction values: the classification getDirection returns. */
  const NEUTRAL: real := -1.0
  const WIDE: real := 1.0
  const TALL: real := 0.0

  /** The geometric state of a tile: lower-left corner, depth, width, height. */
  datatype Box = Box(x: real, y: real, z: real, w: real, h: real)

  /** One corner of one face: its position and the size of its face. */
  datatype Corner = Corner(x: real, y: real, z: real, w: real, h: real)

  datatype Point = Point(x: real, y: real)

  /** Corners 0 and 3 sit on the low-x (or, for the side faces, near) edge. */
  predicate LeftCorner(corner: nat) { corner == 0 || corner == 3 }

  /** Corners 0 and 1 sit on the low-y edge. */
  predicate LowerCorner(corner: nat) { corner == 0 || corner == 1 }

  /** getPositionAndSize: the table giving, for each face of the tile's box
      and each corner of that face, the corner's position and the face's size. */
  function PositionAndSize(b: Box, face: nat, corner: nat): (r: Corner)
    requires face < FACE_TABLE_SIZE && corner < CORNERS
    // on a box at least twice the padding wide and high, in front of z = 0,
    // every corner lies on the box and every face size is non-negative
    ensures b.w >= 2.0 * PADDING && b.h >= 2.0 * PADDING && b.z >= 0.0 ==>
      && b.x <= r.x <= b.x + b.w && b.y <= r.y <= b.y + b.h && 0.0 <= r.z <= b.z
      && r.w >= 0.0 && r.h >= 0.0
  {
    var xs := if LeftCorner(corner) then b.x + PADDING else b.x + b.w - PADDING;
    var ys := if LowerCorner(corner) then b.y + PADDING else b.y + b.h - PADDING;
    if face == 0 then      // front
      Corner(xs, ys, b.z, b.w - PADDING * 2.0, b.h - PADDING * 2.0)
    else if face == 1 then // right
      Corner(b.x + b.w - PADDING, ys, if LeftCorner(corner) then b.z else 0.0, b.z, b.h - PADDING * 2.0)
    else if face == 2 then // back
      Corner(xs, ys, 0.0, b.w - PADDING * 2.0, b.h - PADDING * 2.0)
    else if face == 3 then // left
      Corner(b.x + PADDING, ys, if LeftCorner(corner) then 0.0 else b.z, b.z, b.h - PADDING * 2.0)
    else if face == 4 then // top
      Corner(xs, b.y + b.h - PADDING, if LowerCorner(corner) then b.z else 0.0, b.w - PADDING * 2.0, b.z)
    else                   // bottom
      Corner(xs, b.y + PADDING, if LowerCorner(corner) then b.z else 0.0, b.w - PADDING * 2.0, b.z)
  }

  /** On a tile at least twice the padding wide and high, corner 0 of the
      front face is its lowest and leftmost point and corner 2 its highest
      and rightmost: every corner lies in the rectangle they span, which is
      as large as the face's size, at the tile's depth. */
  lemma FrontFaceSpan(b: Box, corner: nat)
    requires b.w >= 2.0 * PADDING && b.h >= 2.0 * PADDING && corner < CORNERS
    ensures var c0, c2, c := PositionAndSize(b, 0, 0), PositionAndSize(b, 0, 2), PositionAndSize(b, 0, corner);
      && c0.x <= c.x <= c2.x && c0.y <= c.y <= c2.y && c.z == b.z
      && c2.x - c0.x == c.w && c2.y - c0.y == c.h
  {
  }

  /** Twice the signed area of the triangle a, b, c in the x-y plane:
      positive exactly when the corners run counter-clockwise. */
  function Winding(a: Corner, b: Corner, c: Corner): real
  {
    (b.x - a.x) * (c.y - a.y) - (b.y - a.y) * (c.x - a.x)
  }

  /** Every face of the table is a parallelogram whose corners go round in
      order (corner 2 = corner 1 + corner 3 - corner 0), all four corners
      carry the same face size, and that size is the extent of the face
      along its two edges: 0->1 spans the face's width and 0->3 its height. */
  lemma FaceIsQuad(b: Box, face: nat)
    requires face < FACE_TABLE_SIZE
    ensures var c0, c1, c2, c3 := PositionAndSize(b, face, 0), PositionAndSize(b, face, 1),
                                  PositionAndSize(b, face, 2), PositionAndSize(b, face, 3);
      && c2.x == c1.x + c3.x - c0.x
      && c2.y == c1.y + c3.y - c0.y
      && c2.z == c1.z + c3.z - c0.z
      && c0.w == c1.w == c2.w == c3.w
      && c0.h == c1.h == c2.h == c3.h
      && AlongOneAxis(c1.x - c0.x, c1.y - c0.y, c1.z - c0.z)
      && Extent(c1.x - c0.x, c1.y - c0.y, c1.z - c0.z) == Abs(c0.w)
      && AlongOneAxis(c3.x - c0.x, c3.y - c0.y, c3.z - c0.z)
      && Extent(c3.x - c0.x, c3.y - c0.y, c3.z - c0.z) == Abs(c0.h)
  {
    if face == 0 {
    } else if face == 1 {
    } else if face == 2 {
    } else if face == 3 {
    } else if face == 4 {
    } else {
    }
  }

  function Abs(r: real): real { if r < 0.0 then -r else r }

  /** An edge (dx, dy, dz) runs along one coordinate axis: at most one of its
      components is non-zero. */
  predicate AlongOneAxis(dx: real, dy: real, dz: real)
  {
    (dx == 0.0 && dy == 0.0) || (dx == 0.0 && dz == 0.0) || (dy == 0.0 && dz == 0.0)
  }

  /** The length of an edge that runs along one axis. */
  function Extent(dx: real, dy: real, dz: real): real
  {
    Abs(dx) + Abs(dy) + Abs(dz)
  }

  /** With no depth (z = 0, as every tile has) the right and left faces have
      zero width and the top and bottom faces zero height: only the front
      and back faces have area. */
  lemma FlatTileSideFacesDegenerate(b: Box, face: nat, corner: nat)
    requires b.z == 0.0 && face < FACE_TABLE_SIZE && corner < CORNERS
    ensures (face == 1 || face == 3) ==> PositionAndSize(b, face, corner).w == 0.0
    ensures (face == 4 || face == 5) ==> PositionAndSize(b, face, corner).h == 0.0
    ensures PositionAndSize(b, face, corner).z == 0.0
  {
  }

  /** getDirection: neutral when width and height differ by less than the
      threshold, otherwise wide when the tile is wider than tall, else tall. */
  function Direction(w: real, h: real): (d: real)
    ensures d == NEUTRAL || d == WIDE || d == TALL
    ensures d == NEUTRAL <==> Abs(w - h) < NEUTRAL_THRESHOLD
    ensures d == WIDE <==> !(Abs(w - h) < NEUTRAL_THRESHOLD) && w > h
    ensures d == TALL <==> !(Abs(w - h) < NEUTRAL_THRESHOLD) && w <= h
  {
    if Abs(w - h) < NEUTRAL_THRESHOLD then NEUTRAL
    else if w > h then WIDE
    else TALL
  }

  /** Exchanging width and height keeps a neutral tile neutral and turns a
      wide tile into a tall one and back. */
  lemma DirectionSwap(w: real, h: real)
    ensures Direction(h, w) == NEUTRAL <==> Direction(w, h) == NEUTRAL
    ensures Direction(h, w) == WIDE <==> Direction(w, h) == TALL
    ensures Direction(h, w) == TALL <==> Direction(w, h) == WIDE
  {
  }

  /** 500 x 450 is neutral, 500 x 300 is wide, 300 x 500 is tall. */
  lemma DirectionExamples()
    ensures Direction(500.0, 450.0) == NEUTRAL
    ensures Direction(500.0, 300.0) == WIDE
    ensures Direction(300.0, 500.0) == TALL
  {
  }

  /** getCenter: the midpoint of the tile. */
  function Center(b: Box): (c: Point)
    ensures c.x - b.x == b.x + b.w - c.x
    ensures c.y - b.y == b.y + b.h - c.y
  {
    Point(b.x + b.w / 2.0, b.y + b.h / 2.0)
  }

  /** getScreenPosition: the tile's centre moved from viewport coordinates
      (origin at the viewport's centre) into [0,1] x [0,1], given the
      viewport's width and height. */
  function ScreenPosition(b: Box, width: real, height: real): (r: Point)
    requires width > 0.0 && height > 0.0
    // the screen position determines the centre back: x = sx * width - width/2
    ensures r.x * width - width / 2.0 == Center(b).x
    ensures r.y * height - height / 2.0 == Center(b).y
  {
    var c := Center(b);
    Point((c.x + width / 2.0) / width, (c.y + height / 2.0) / height)
  }

  /** A tile centred on the viewport's centre has screen position (0.5, 0.5),
      whatever the viewport's size. */
  lemma CenteredTileMapsToMiddle(b: Box, width: real, height: real)
    requires width > 0.0 && height > 0.0
    requires Center(b) == Point(0.0, 0.0)
    ensures ScreenPosition(b, width, height) == Point(0.5, 0.5)
  {
  }

  /** A tile inside the viewport has its screen position in [0,1] x [0,1]. */
  lemma ScreenPositionInUnitSquare(b: Box, width: real, height: real)
    requires width > 0.0 && height > 0.0
    requires 0.0 <= b.w && -width / 2.0 <= b.x && b.x + b.w <= width / 2.0
    requires 0.0 <= b.h && -height / 2.0 <= b.y && b.y + b.h <= height / 2.0
    ensures 0.0 <= ScreenPosition(b, width, height).x <= 1.0
    ensures 0.0 <= ScreenPosition(b, width, height).y <= 1.0
  {
    var c := Center(b);
    UnitFraction(c.x + width / 2.0, width);
    UnitFraction(c.y + height / 2.0, height);
  }

  lemma UnitFraction(num: real, den: real)
    requires den > 0.0 && 0.0 <= num <= den
    ensures 0.0 <= num / den <= 1.0
  {
  }
}
