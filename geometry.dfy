/**
 * Unit-space primitives (box, triangle, circle) and the affine transform
 * records that the scene attaches to them.  Coordinates are reals: the
 * generator only adds and multiplies them.
 */
module Geometry {
  import opened Wrappers

  /** A 2-D point, or a pair of per-axis factors. */
  datatype Vec2 = Vec2(x: real, y: real)

  /** The closed set of primitive kinds; the object catalog names them by one letter. */
  datatype Primitive = Box | Triangle | Circle

  /** Canonical geometry: a filled polygon, or a circle drawn as a polygon of `resolution` segments. */
  datatype Shape = Polygon(vertices: seq<Vec2>) | Disc(radius: real, resolution: nat)

  /**
   * An affine transform as the scene records it: translate, then rotate
   * (radians), then scale per axis.  A transform built with only some of the
   * three takes translation (0, 0), rotation 0 and scale (1, 1) for the rest.
   */
  datatype Transform = Transform(translation: Vec2, rotation: real, scale: Vec2)

  /** The double-precision value of pi that the degree conversion uses. */
  const Pi: real := 3.141592653589793

  const CircleRadius: real := 1.0
  const CircleResolution: nat := 30

  /** Degrees to radians, as `deg * (pi / 180)`. */
  function Radians(deg: real): (r: real)
    ensures r * 180.0 == deg * Pi
    ensures r == 0.0 <==> deg == 0.0
    ensures deg > 0.0 <==> r > 0.0
  {
    deg * (Pi / 180.0)
  }

  function Abs(v: real): real { if v < 0.0 then -v else v }

  /** The catalog letter of a primitive kind. */
  function Code(kind: Primitive): char {
    match kind
    case Box => 'B'
    case Triangle => 'T'
    case Circle => 'C'
  }

  /** Dispatch on a catalog letter; any other letter is an invalid primitive kind. */
  function ParseKind(c: char): (r: Option<Primitive>)
    ensures r.Some? <==> c in "BTC"
    ensures r.Some? ==> Code(r.value) == c
  {
    if c == 'B' then Some(Box)
    else if c == 'T' then Some(Triangle)
    else if c == 'C' then Some(Circle)
    else None
  }

  /** Every primitive kind survives being written as its letter and read back. */
  lemma ParseCode(kind: Primitive)
    ensures ParseKind(Code(kind)) == Some(kind)
  {
  }

  /** Twice the cross product of two position vectors. */
  function Cross(a: Vec2, b: Vec2): real { a.x * b.y - a.y * b.x }

  /** Sum of the cross products of consecutive vertices, closing the polygon back to `first`. */
  function EdgeSum(vs: seq<Vec2>, first: Vec2): real
    decreases |vs|
  {
    if |vs| == 0 then 0.0
    else if |vs| == 1 then Cross(vs[0], first)
    else Cross(vs[0], vs[1]) + EdgeSum(vs[1..], first)
  }

  /** Twice the signed area (shoelace formula); positive for counter-clockwise order. */
  function TwiceArea(vs: seq<Vec2>): real {
    if |vs| == 0 then 0.0 else EdgeSum(vs, vs[0])
  }

  /** The corners of the unit box, counter-clockwise from the lower left. */
  const BoxCorners: seq<Vec2> := [Vec2(-0.5, -0.5), Vec2(0.5, -0.5), Vec2(0.5, 0.5), Vec2(-0.5, 0.5)]

  /**
   * The canonical geometry of a primitive kind.  The box is the 1x1 square
   * centred on the origin; the triangle is its lower-right half, with the
   * right angle at (0.5, -0.5); the circle has radius 1 and 30 segments.
   */
  function BuildPrimitive(kind: Primitive): (g: Shape)
    ensures g.Polygon? <==> kind != Circle
    ensures kind == Box ==> g.vertices == [Vec2(-0.5, -0.5), Vec2(0.5, -0.5), Vec2(0.5, 0.5), Vec2(-0.5, 0.5)]
    ensures kind == Box ==> forall i :: 0 <= i < |g.vertices| ==> Abs(g.vertices[i].x) == 0.5 == Abs(g.vertices[i].y)
    ensures kind == Box ==> TwiceArea(g.vertices) == 2.0
    ensures kind == Triangle ==> g.vertices == [Vec2(-0.5, -0.5), Vec2(0.5, -0.5), Vec2(0.5, 0.5)]
    ensures kind == Triangle ==> TwiceArea(g.vertices) == 1.0
    ensures kind == Circle ==> g.radius == 1.0 && g.resolution == 30
  {
    match kind
    case Box =>
      BoxArea();
      BoxCornersAtHalf();
      Polygon(BoxCorners)
    case Triangle =>
      TriangleArea();
      Polygon(BoxCorners[..3])
    case Circle => Disc(CircleRadius, CircleResolution)
  }

  /** The shoelace sum of a quadrilateral, edge by edge. */
  lemma {:induction false} EdgeSumFour(a: Vec2, b: Vec2, c: Vec2, d: Vec2)
    ensures EdgeSum([a, b, c, d], a) == Cross(a, b) + Cross(b, c) + Cross(c, d) + Cross(d, a)
  {
    assert [a, b, c, d][1..] == [b, c, d];
    assert [b, c, d][1..] == [c, d];
    assert [c, d][1..] == [d];
    assert EdgeSum([c, d], a) == Cross(c, d) + Cross(d, a);
    assert EdgeSum([b, c, d], a) == Cross(b, c) + Cross(c, d) + Cross(d, a);
  }

  /** The shoelace sum of a triangle, edge by edge. */
  lemma {:induction false} EdgeSumThree(a: Vec2, b: Vec2, c: Vec2)
    ensures EdgeSum([a, b, c], a) == Cross(a, b) + Cross(b, c) + Cross(c, a)
  {
    assert [a, b, c][1..] == [b, c];
    assert [b, c][1..] == [c];
    assert EdgeSum([b, c], a) == Cross(b, c) + Cross(c, a);
  }

  lemma BoxCornersAtHalf()
    ensures forall i :: 0 <= i < |BoxCorners| ==> Abs(BoxCorners[i].x) == 0.5 == Abs(BoxCorners[i].y)
  {
    forall i | 0 <= i < |BoxCorners|
      ensures Abs(BoxCorners[i].x) == 0.5 == Abs(BoxCorners[i].y)
    {
      assert i == 0 || i == 1 || i == 2 || i == 3;
    }
  }

  lemma BoxArea()
    ensures TwiceArea(BoxCorners) == 2.0
  {
    EdgeSumFour(BoxCorners[0], BoxCorners[1], BoxCorners[2], BoxCorners[3]);
  }

  lemma TriangleArea()
    ensures TwiceArea(BoxCorners[..3]) == 1.0
  {
    assert BoxCorners[..3] == [BoxCorners[0], BoxCorners[1], BoxCorners[2]];
    EdgeSumThree(BoxCorners[0], BoxCorners[1], BoxCorners[2]);
  }

  /** The triangle is the box with its last corner removed, so it covers half the box. */
  lemma TriangleIsHalfBox()
    ensures BuildPrimitive(Triangle).vertices == BuildPrimitive(Box).vertices[..3]
    ensures 2.0 * TwiceArea(BuildPrimitive(Triangle).vertices) == TwiceArea(BuildPrimitive(Box).vertices)
  {
  }
}
