/**
 * Object templates: a catalog entry is a named list of part specifications,
 * each placing one primitive in the object's canonical 1x1 space.  Composing
 * an entry yields the parts of one compound drawable.
 */
module Compose {
  import opened Geometry

  /** One part of an object: primitive kind, position, per-axis scale and rotation in degrees. */
  datatype PartSpec = PartSpec(kind: Primitive, offset: Vec2, scale: Vec2, rotationDegrees: real)

  /** A catalog entry: a name, the object's uniform base scale and its parts in draw order. */
  datatype ObjectDef = ObjectDef(name: string, baseScale: real, parts: seq<PartSpec>)

  datatype Color = Color(r: real, g: real, b: real)

  /** The single fill colour every part is given. */
  const PartColor: Color := Color(0.8, 0.6, 0.4)

  /** A placed primitive: its geometry, the transforms attached to it in order, its colour. */
  datatype Part = Part(shape: Shape, attrs: seq<Transform>, color: Color)

  /** A group of parts drawn together under the transforms attached to the group. */
  datatype Compound = Compound(parts: seq<Part>, attrs: seq<Transform>)

  /** The part's own placement: translation to its offset, its rotation in radians, its scale. */
  function LocalTransform(spec: PartSpec): (t: Transform)
    ensures t.translation == spec.offset && t.scale == spec.scale
    ensures t.rotation * 180.0 == spec.rotationDegrees * Pi
  {
    Transform(spec.offset, Radians(spec.rotationDegrees), spec.scale)
  }

  /** A transform that only scales, by `k` on both axes: no translation, no rotation. */
  function UniformScale(k: real): (t: Transform)
    ensures t.translation == Vec2(0.0, 0.0) && t.rotation == 0.0
    ensures t.scale.x == t.scale.y == k
  {
    Transform(Vec2(0.0, 0.0), 0.0, Vec2(k, k))
  }

  /**
   * The parts of an object built from `specs` with base scale `base`: one
   * part per specification, in the same order; each takes the geometry of
   * its kind, first its local transform and then the uniform base scale,
   * and the fixed part colour.
   */
  function ObjectParts(specs: seq<PartSpec>, base: real): (ps: seq<Part>)
    ensures |ps| == |specs|
    ensures forall i :: 0 <= i < |ps| ==> ps[i].shape == BuildPrimitive(specs[i].kind)
    ensures forall i :: 0 <= i < |ps| ==> ps[i].attrs == [LocalTransform(specs[i]), UniformScale(base)]
    ensures forall i :: 0 <= i < |ps| ==> ps[i].color == PartColor
    decreases |specs|
  {
    if |specs| == 0 then []
    else
      [Part(BuildPrimitive(specs[0].kind), [LocalTransform(specs[0]), UniformScale(base)], PartColor)]
      + ObjectParts(specs[1..], base)
  }

  /** Composing an object whose specifications are concatenated composes each list in turn. */
  lemma {:induction false} ObjectPartsAppend(a: seq<PartSpec>, b: seq<PartSpec>, base: real)
    ensures ObjectParts(a + b, base) == ObjectParts(a, base) + ObjectParts(b, base)
    decreases |a|
  {
    if |a| > 0 {
      assert (a + b)[1..] == a[1..] + b;
      ObjectPartsAppend(a[1..], b, base);
    }
  }

  /**
   * Builds the parts of one catalog entry by walking its specifications in
   * declaration order and appending one part for each.
   */
  method ComposeObject(def: ObjectDef) returns (obj: seq<Part>)
    ensures obj == ObjectParts(def.parts, def.baseScale)
  {
    obj := [];
    var i := 0;
    while i < |def.parts|
      invariant 0 <= i <= |def.parts|
      invariant |obj| == i
      invariant forall k :: 0 <= k < i ==> obj[k].shape == BuildPrimitive(def.parts[k].kind)
      invariant forall k :: 0 <= k < i ==> obj[k].attrs == [LocalTransform(def.parts[k]), UniformScale(def.baseScale)]
      invariant forall k :: 0 <= k < i ==> obj[k].color == PartColor
    {
      var spec := def.parts[i];
      var geom := BuildPrimitive(spec.kind);
      var attrs := [LocalTransform(spec)];
      attrs := attrs + [UniformScale(def.baseScale)];
      obj := obj + [Part(geom, attrs, PartColor)];
      i := i + 1;
    }
  }

  /** The three objects the generator draws from unless told otherwise. */
  const DefaultObjects: seq<ObjectDef> := [
    ObjectDef("boat", 1.0, [
      PartSpec(Box, Vec2(0.0, -0.43), Vec2(1.0, 0.15), 0.0),
      PartSpec(Triangle, Vec2(0.1, 0.1), Vec2(0.5, 0.85), 0.0)]),
    ObjectDef("house", 1.0, [
      PartSpec(Box, Vec2(0.0, -0.202), Vec2(1.0, 0.55), 0.0),
      PartSpec(Triangle, Vec2(-0.25, 0.32), Vec2(0.5, 0.4), 0.0),
      PartSpec(Triangle, Vec2(0.25, 0.32), Vec2(-0.5, 0.4), 0.0)]),
    ObjectDef("car", 1.0, [
      PartSpec(Box, Vec2(0.0, 0.0), Vec2(1.0, 0.45), 0.0),
      PartSpec(Box, Vec2(0.0, 0.3), Vec2(0.4, 0.4), 0.0),
      PartSpec(Circle, Vec2(-0.25, -0.32), Vec2(0.2, 0.2), 0.0),
      PartSpec(Circle, Vec2(0.25, -0.32), Vec2(0.2, 0.2), 0.0)])
  ]

  /** The primitive kinds of a list of part specifications, in order. */
  function Kinds(specs: seq<PartSpec>): (ks: seq<Primitive>)
    ensures |ks| == |specs| && forall i :: 0 <= i < |specs| ==> ks[i] == specs[i].kind
  {
    seq(|specs|, i requires 0 <= i < |specs| => specs[i].kind)
  }

  /**
   * The default catalog holds a boat (a hull box under a triangular sail), a
   * house (a box under two roof triangles) and a car (body and cabin boxes,
   * two circle wheels), each at base scale 1; every part's offset lies in the
   * unit square centred on the origin and its scale is at most 1 on each axis.
   */
  lemma DefaultCatalog()
    ensures |DefaultObjects| == 3
    ensures DefaultObjects[0].name == "boat" && Kinds(DefaultObjects[0].parts) == [Box, Triangle]
    ensures DefaultObjects[1].name == "house" && Kinds(DefaultObjects[1].parts) == [Box, Triangle, Triangle]
    ensures DefaultObjects[2].name == "car" && Kinds(DefaultObjects[2].parts) == [Box, Box, Circle, Circle]
    ensures forall i :: 0 <= i < |DefaultObjects| ==> DefaultObjects[i].baseScale == 1.0
    ensures forall i, j :: 0 <= i < |DefaultObjects| && 0 <= j < |DefaultObjects[i].parts| ==>
      var spec := DefaultObjects[i].parts[j];
      Abs(spec.offset.x) <= 0.5 && Abs(spec.offset.y) <= 0.5 && Abs(spec.scale.x) <= 1.0 && Abs(spec.scale.y) <= 1.0
  {
  }

  /** A client of the composition contract: the default car has a body, a cabin and two wheels. */
  method ComposeDefaultCar() {
    var def := DefaultObjects[2];
    assert def.baseScale == 1.0 && |def.parts| == 4;
    assert def.parts[2].kind == Circle && def.parts[3].kind == Circle;
    var car := ComposeObject(def);
    assert |car| == 4;
    assert car[2].shape == Disc(1.0, 30) && car[3].shape == Disc(1.0, 30);
    assert car[3].attrs[1] == Transform(Vec2(0.0, 0.0), 0.0, Vec2(1.0, 1.0));
  }
}
