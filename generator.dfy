/**
 * One frame of the image generator: the scene is emptied, then `count`
 * objects are sampled, composed, placed with their final screen transform
 * and recorded as pose labels.  The random draws are inputs.
 */
module Generator {
  import opened Wrappers
  import opened Geometry
  import opened Compose

  /**
   * The generator's configuration: canvas size, object size as a fraction of
   * the canvas width, the sampling ranges, the objects per frame and the
   * catalog.  None of it is validated.
   */
  datatype Config = Config(
    width: nat, height: nat,
    objectScale: real,
    widthShift: real, heightShift: real,
    scaleRange: real, rotateRange: real,
    count: int,
    objects: seq<ObjectDef>)

  /**
   * The random values drawn for one object, in the order they are drawn: the
   * class index, the x and y offsets, the scale and the rotation in degrees.
   */
  datatype Draw = Draw(cls: int, x: real, y: real, s: real, degrees: real)

  /** A pose label: class index, offsets, scale and rotation in radians. */
  datatype Pose = Pose(cls: int, x: real, y: real, s: real, r: real)

  /** Drawing a class index from an empty catalog is the one way a frame fails. */
  datatype FrameError = EmptyClassRange

  /** `v` lies between the two ends of a uniform draw, whichever end is larger. */
  predicate Between(v: real, a: real, b: real) {
    (a <= v <= b) || (b <= v <= a)
  }

  /** The objects a frame holds: `count` of them, or none when `count` is negative. */
  function Iterations(count: int): nat {
    if count < 0 then 0 else count
  }

  /**
   * The ranges the random draws of one object come from.  As the offset and
   * rotation ranges are symmetric, a draw fits exactly when its class indexes
   * the catalog, each offset and the rotation are at most their range in
   * magnitude, and the scale lies between the scale range and 1.
   */
  function DrawFits(d: Draw, cfg: Config): (b: bool)
    ensures b <==> (0 <= d.cls < |cfg.objects|
                    && Abs(d.x) <= Abs(cfg.widthShift) && Abs(d.y) <= Abs(cfg.heightShift)
                    && Between(d.s, cfg.scaleRange, 1.0)
                    && Abs(d.degrees) <= Abs(cfg.rotateRange))
  {
    0 <= d.cls < |cfg.objects|
    && Between(d.x, -cfg.widthShift, cfg.widthShift)
    && Between(d.y, -cfg.heightShift, cfg.heightShift)
    && Between(d.s, cfg.scaleRange, 1.0)
    && Between(d.degrees, -cfg.rotateRange, cfg.rotateRange)
  }

  /**
   * The pose that the draws of one object give: the offsets and the scale as
   * drawn, the rotation converted to radians.  Its class indexes the catalog,
   * its offsets stay within the shift ranges, its scale between the scale
   * range and 1, its rotation within the rotate range (in radians); a scale
   * range of 1 fixes the scale at 1, a rotate range of 0 the rotation at 0.
   */
  function SamplePose(d: Draw, cfg: Config): (p: Pose)
    requires DrawFits(d, cfg)
    ensures p.cls == d.cls && p.x == d.x && p.y == d.y && p.s == d.s && p.r == Radians(d.degrees)
    ensures 0 <= p.cls < |cfg.objects|
    ensures Abs(p.x) <= Abs(cfg.widthShift) && Abs(p.y) <= Abs(cfg.heightShift)
    ensures Between(p.s, cfg.scaleRange, 1.0)
    ensures Abs(p.r) <= Radians(Abs(cfg.rotateRange))
    ensures cfg.scaleRange == 1.0 ==> p.s == 1.0
    ensures cfg.rotateRange == 0.0 ==> p.r == 0.0
  {
    Pose(d.cls, d.x, d.y, d.s, Radians(d.degrees))
  }

  /**
   * The screen transform of an object with pose `p`: the offsets are
   * fractions of the canvas measured from its centre, the rotation is the
   * pose's, and the scale is the same on both axes, the pose's scale times the
   * object size times the canvas width.
   */
  function FinalTransform(cfg: Config, p: Pose): (t: Transform)
    ensures t.translation == Vec2((p.x + 0.5) * cfg.width as real, (p.y + 0.5) * cfg.height as real)
    ensures t.rotation == p.r
    ensures t.scale.x == t.scale.y == p.s * cfg.objectScale * cfg.width as real
  {
    var ss := p.s * cfg.objectScale * cfg.width as real;
    Transform(Vec2((p.x + 0.5) * cfg.width as real, (p.y + 0.5) * cfg.height as real), p.r, Vec2(ss, ss))
  }

  /** An object at zero offset sits at the centre of the canvas. */
  lemma CentredAtZeroOffset(cfg: Config, p: Pose)
    requires p.x == 0.0 && p.y == 0.0
    ensures FinalTransform(cfg, p).translation == Vec2(cfg.width as real / 2.0, cfg.height as real / 2.0)
  {
  }

  /**
   * The compound the scene holds for an object with pose `p`: one part per
   * specification of the chosen catalog entry, each with its kind's geometry,
   * its local transform and the entry's base scale, and the whole group under
   * the single final transform of the pose.
   */
  function Placed(cfg: Config, p: Pose): (c: Compound)
    requires 0 <= p.cls < |cfg.objects|
    ensures c.attrs == [FinalTransform(cfg, p)]
    ensures |c.parts| == |cfg.objects[p.cls].parts|
    ensures forall i :: 0 <= i < |c.parts| ==>
      c.parts[i].shape == BuildPrimitive(cfg.objects[p.cls].parts[i].kind)
      && c.parts[i].attrs == [LocalTransform(cfg.objects[p.cls].parts[i]), UniformScale(cfg.objects[p.cls].baseScale)]
  {
    Compound(ObjectParts(cfg.objects[p.cls].parts, cfg.objects[p.cls].baseScale), [FinalTransform(cfg, p)])
  }

  /**
   * The generator's default arguments: a 28x28 canvas, objects half the
   * canvas width, offsets up to a quarter of the canvas, scale and rotation
   * fixed, one object per frame, the default catalog.
   */
  const DefaultConfig: Config := Config(28, 28, 0.5, 0.25, 0.25, 1.0, 0.0, 1, DefaultObjects)

  /**
   * Under the default arguments every pose has scale 1 and rotation 0 and
   * offsets of at most a quarter; the object is drawn 14 units wide and its
   * centre lies within [7, 21] on both axes.
   */
  lemma DefaultPose(d: Draw)
    requires DrawFits(d, DefaultConfig)
    ensures SamplePose(d, DefaultConfig).s == 1.0 && SamplePose(d, DefaultConfig).r == 0.0
    ensures Abs(SamplePose(d, DefaultConfig).x) <= 0.25 && Abs(SamplePose(d, DefaultConfig).y) <= 0.25
    ensures FinalTransform(DefaultConfig, SamplePose(d, DefaultConfig)).scale == Vec2(14.0, 14.0)
    ensures 7.0 <= FinalTransform(DefaultConfig, SamplePose(d, DefaultConfig)).translation.x <= 21.0
    ensures 7.0 <= FinalTransform(DefaultConfig, SamplePose(d, DefaultConfig)).translation.y <= 21.0
  {
  }

  /** The drawing surface: a fixed configuration and the geometry placed so far. */
  class Scene {
    const cfg: Config
    var geoms: seq<Compound>

    constructor (cfg: Config)
      ensures this.cfg == cfg && geoms == []
    {
      this.cfg := cfg;
      geoms := [];
    }

    /**
     * Builds one frame from the random draws of its objects.  The scene is
     * emptied first; then for each draw in order the chosen object is
     * composed, placed with its final transform and its pose appended to the
     * labels.  With an empty catalog and at least one object to draw, the
     * class draw fails and the scene stays empty.
     */
    method Frame(draws: seq<Draw>) returns (res: Result<seq<Pose>, FrameError>)
      requires |draws| == Iterations(cfg.count)
      requires |cfg.objects| > 0 ==> forall i :: 0 <= i < |draws| ==> DrawFits(draws[i], cfg)
      modifies this
      ensures res.Failure? <==> |cfg.objects| == 0 && Iterations(cfg.count) > 0
      ensures res.Failure? ==> geoms == []
      ensures res.Success? ==> |res.value| == |geoms| == Iterations(cfg.count)
      ensures res.Success? ==> forall i :: 0 <= i < |geoms| ==>
        DrawFits(draws[i], cfg) && res.value[i] == SamplePose(draws[i], cfg)
      ensures res.Success? ==> forall i :: 0 <= i < |geoms| ==>
        0 <= res.value[i].cls < |cfg.objects| && geoms[i] == Placed(cfg, res.value[i])
    {
      geoms := [];
      var labels: seq<Pose> := [];
      if |cfg.objects| == 0 && |draws| > 0 {
        return Failure(EmptyClassRange);
      }
      var i := 0;
      while i < |draws|
        invariant 0 <= i <= |draws|
        invariant |geoms| == |labels| == i
        invariant forall k :: 0 <= k < i ==> DrawFits(draws[k], cfg) && labels[k] == SamplePose(draws[k], cfg)
        invariant forall k :: 0 <= k < i ==> geoms[k] == Placed(cfg, labels[k])
      {
        var d := draws[i];
        var obj := ComposeObject(cfg.objects[d.cls]);
        var pose := SamplePose(d, cfg);
        geoms := geoms + [Compound(obj, [FinalTransform(cfg, pose)])];
        labels := labels + [pose];
        i := i + 1;
      }
      return Success(labels);
    }
  }

  /**
   * A client of the frame contract: a catalog holding one unit square, a
   * 4x4 canvas, every range fixed and one object per frame gives the single
   * label (0, 0, 0, 1, 0) and a square of side 2 centred on the canvas.
   */
  method SquareScenario() {
    var square := ObjectDef("square", 1.0, [PartSpec(Box, Vec2(0.0, 0.0), Vec2(1.0, 1.0), 0.0)]);
    var cfg := Config(4, 4, 0.5, 0.0, 0.0, 1.0, 0.0, 1, [square]);
    var scene := new Scene(cfg);
    var d := Draw(0, 0.0, 0.0, 1.0, 0.0);
    assert DrawFits(d, cfg);
    var res := scene.Frame([d]);
    assert res.Success? && |res.value| == 1 && res.value[0] == Pose(0, 0.0, 0.0, 1.0, 0.0);
    assert res.value == [Pose(0, 0.0, 0.0, 1.0, 0.0)];
    assert |scene.geoms| == 1;
    assert scene.geoms[0].attrs == [Transform(Vec2(2.0, 2.0), 0.0, Vec2(2.0, 2.0))];
  }

  /** A client of the frame contract: a frame of zero objects is empty and never fails. */
  method EmptyFrame(cfg: Config)
    requires cfg.count == 0
  {
    var scene := new Scene(cfg);
    scene.geoms := [Compound([], [])];
    var res := scene.Frame([]);
    assert res == Success([]) && scene.geoms == [];
  }
}
