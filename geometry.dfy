/** Plane vectors and the collision geometry built by the entities. */
module Geometry {
  datatype Vec2 = Vec2(x: real, y: real)

  function Neg(v: Vec2): Vec2 { Vec2(-v.x, -v.y) }

  /** Component-wise sum of a list of vectors. */
  function Sum(vs: seq<Vec2>): Vec2 {
    if vs == [] then Vec2(0.0, 0.0)
    else var rest := Sum(vs[1..]); Vec2(vs[0].x + rest.x, vs[0].y + rest.y)
  }

  /** Ruby's Math::PI as the decimal 3.141592653589793; floats are reals here, with no rounding. */
  const PI: real := 3.141592653589793

  /** Initial body angle of a Box, 3*pi/2 radians (270 degrees). */
  const BOX_INITIAL_ANGLE: real := 3.0 * PI / 2.0

  /** The initial angle is three quarters of a full turn, between a half turn and a full turn. */
  lemma BoxInitialAngleIsThreeQuarterTurn()
    ensures BOX_INITIAL_ANGLE == 0.75 * (2.0 * PI)
    ensures PI < BOX_INITIAL_ANGLE < 2.0 * PI
  {
  }

  /** Radius of a Ball's circle shape before scaling. */
  const BALL_BASE_RADIUS: real := 5.0

  /**
   * The polygon of a Box of the given width and height.  The axes are
   * deliberately swapped: the local x-extent is half the HEIGHT and the local
   * y-extent half the WIDTH, which the initial angle of 3*pi/2 compensates.
   * The corners are listed (-,-), (-,+), (+,+), (+,-): an axis-aligned
   * rectangle walked around its boundary, centred on the body's origin.
   */
  function BoxVerts(width: real, height: real): (r: seq<Vec2>)
    ensures |r| == 4
    ensures r[0] == Vec2(-height / 2.0, -width / 2.0)
    ensures forall i :: 0 <= i < 4 ==>
      (r[i].x == height / 2.0 || r[i].x == -height / 2.0) &&
      (r[i].y == width / 2.0 || r[i].y == -width / 2.0)
    // consecutive corners share one coordinate: every edge is axis-parallel
    ensures r[0].x == r[1].x && r[1].y == r[2].y && r[2].x == r[3].x && r[3].y == r[0].y
    // opposite corners are mirror images through the origin
    ensures r[2] == Neg(r[0]) && r[3] == Neg(r[1])
    ensures Sum(r) == Vec2(0.0, 0.0)
  {
    var hw, hh := width / 2.0, height / 2.0;
    var r := [Vec2(-hh, -hw), Vec2(-hh, hw), Vec2(hh, hw), Vec2(hh, -hw)];
    assert Sum(r[4..]) == Vec2(0.0, 0.0);
    assert r[3..][1..] == r[4..] && r[2..][1..] == r[3..] && r[1..][1..] == r[2..];
    assert Sum(r[3..]) == Vec2(hh, -hw);
    assert Sum(r[2..]) == Vec2(2.0 * hh, 0.0);
    assert Sum(r[1..]) == Vec2(hh, hw);
    r
  }

  /** The test box of the demo, Box.new(5, 80): x spans +-40 and y spans +-2.5. */
  lemma TestBoxExtents()
    ensures forall v :: v in BoxVerts(5.0, 80.0) ==>
      (v.x == 40.0 || v.x == -40.0) && (v.y == 2.5 || v.y == -2.5)
  {
    var r := BoxVerts(5.0, 80.0);
    forall v | v in r
      ensures (v.x == 40.0 || v.x == -40.0) && (v.y == 2.5 || v.y == -2.5)
    {
      var i :| 0 <= i < 4 && r[i] == v;
    }
  }

  /** Geometry of a collision shape. */
  datatype ShapeGeometry =
    | Circle(radius: real)
    | Poly(verts: seq<Vec2>)
    | Segment(a: Vec2, b: Vec2, thickness: real)
}
