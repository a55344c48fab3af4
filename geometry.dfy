/**
 * The straight-line formulas of the tracker: single-remote ranging from the
 * apparent separation of two IR dots, two-remote triangulation by the law of
 * sines, and the subtraction of the calibration origin.
 *
 * Arithmetic is on reals. The trigonometric functions and the two divisions
 * whose divisor is a trigonometric value are parameters (`Maths`), so nothing
 * here depends on their numeric values: in IEEE arithmetic those divisions
 * yield an infinity or NaN at a zero divisor, which a real cannot hold.
 */
module Geometry {
  import opened Sensor

  /** The C maths library, left uninterpreted. */
  datatype Maths = Maths(
    sin: real -> real,
    tan: real -> real,
    sqrt: real -> real,
    quotient: (real, real) -> real)

  /** M_PI and M_PI_4. */
  const Pi: real := 3.14159265358979323846
  const QuarterPi: real := Pi / 4.0

  /** The four configuration fields of the tracker. */
  datatype Settings = Settings(
    irDotSeparation: real,  // mm between the two IR dots (single-remote ranging)
    remoteSeparation: real, // mm between the two remotes (triangulation baseline)
    verticalAngle: real,    // radians the cameras are tilted
    angledDownwards: bool)  // whether the cameras point down at the user

  /** A position in millimetres. */
  datatype Vec3 = Vec3(x: real, y: real, z: real)

  const Zero := Vec3(0.0, 0.0, 0.0)

  /** Horizontal offset at `depth` of a dot seen at normalised x `px`. */
  function HorizontalOffset(m: Maths, px: real, depth: real): real
  {
    m.sin(QuarterPi * (px - 0.5)) * depth
  }

  /** The angle below or above the camera axis of a dot seen at normalised y `py`. */
  function VerticalAngle(cfg: Settings, py: real): real
  {
    (if cfg.angledDownwards then -1.0 else 1.0) * (py - 0.5) * QuarterPi + cfg.verticalAngle
  }

  /** Vertical offset at `depth` of a dot seen at normalised y `py`. */
  function VerticalOffset(m: Maths, cfg: Settings, py: real, depth: real): real
  {
    m.sin(VerticalAngle(cfg, py)) * depth
  }

  /** Single-remote depth: half the IR dot separation over the tangent of half the subtended angle. */
  function SingleDepth(m: Maths, cfg: Settings, a: Point, b: Point): real
  {
    var dx := a.x - b.x;
    var dy := a.y - b.y;
    var pointDist := m.sqrt(dx * dx + dy * dy);
    m.quotient(cfg.irDotSeparation / 2.0, m.tan(QuarterPi * pointDist / 2.0))
  }

  /**
   * The single-remote result. The depth is offset first, and the horizontal
   * and vertical offsets are then taken at that already-offset depth.
   */
  function SingleFix(m: Maths, cfg: Settings, origin: Vec3, a: Point, b: Point): Vec3
  {
    var z := SingleDepth(m, cfg, a, b) - origin.z;
    var avg := Midpoint(a, b);
    Vec3(HorizontalOffset(m, avg.x, z) - origin.x, VerticalOffset(m, cfg, avg.y, z) - origin.y, z)
  }

  /** Viewing angle of remote 1 towards its representative point. */
  function AngleR1(p: Point): (a: real)
    ensures 0.0 <= p.x <= 1.0 ==> 3.0 * Pi / 8.0 <= a <= 5.0 * Pi / 8.0
  {
    3.0 * Pi / 8.0 + p.x * QuarterPi
  }

  /** Viewing angle of remote 2: its x axis is mirrored, the remotes facing each other. */
  function AngleR2(p: Point): (a: real)
    ensures 0.0 <= p.x <= 1.0 ==> 3.0 * Pi / 8.0 <= a <= 5.0 * Pi / 8.0
  {
    3.0 * Pi / 8.0 + (1.0 - p.x) * QuarterPi
  }

  /**
   * Distance from the baseline of the apex of a triangle whose base of length
   * `baseline` has angles `a1` and `a2` (law of sines).
   */
  function LawOfSinesDepth(m: Maths, baseline: real, a1: real, a2: real): real
  {
    m.quotient(baseline * m.sin(a1) * m.sin(a2), m.sin(Pi - (a1 + a2)))
  }

  /** Depth of the point the two remotes see. */
  function DualDepth(m: Maths, cfg: Settings, p1: Point, p2: Point): real
  {
    LawOfSinesDepth(m, cfg.remoteSeparation, AngleR1(p1), AngleR2(p2))
  }

  /**
   * The two-remote result: the per-remote offsets averaged, minus the origin's
   * x and y. The origin's z is not subtracted.
   */
  function DualFix(m: Maths, cfg: Settings, origin: Vec3, p1: Point, p2: Point): Vec3
  {
    var z := DualDepth(m, cfg, p1, p2);
    var x := (HorizontalOffset(m, p1.x, z) + HorizontalOffset(m, p2.x, z)) / 2.0;
    var y := (VerticalOffset(m, cfg, p1.y, z) + VerticalOffset(m, cfg, p2.y, z)) / 2.0;
    Vec3(x - origin.x, y - origin.y, z)
  }

  /**
   * Single-remote offset algebra: the reported depth is the raw depth minus
   * the origin's z, but x and y lose, besides the origin's x and y, the
   * origin's z scaled by the viewing sine, because they are computed from
   * the offset depth.
   */
  lemma SingleOffsetAlgebra(m: Maths, cfg: Settings, origin: Vec3, a: Point, b: Point)
    ensures var raw := SingleFix(m, cfg, Zero, a, b);
            var r := SingleFix(m, cfg, origin, a, b);
            var avg := Midpoint(a, b);
            && r.z == raw.z - origin.z
            && r.x == raw.x - origin.x - m.sin(QuarterPi * (avg.x - 0.5)) * origin.z
            && r.y == raw.y - origin.y - m.sin(VerticalAngle(cfg, avg.y)) * origin.z
  {
  }

  /**
   * Two-remote offset algebra: the reported x and y are the raw ones minus the
   * origin's, and the reported depth is the raw depth whatever the origin.
   */
  lemma DualOffsetAlgebra(m: Maths, cfg: Settings, origin: Vec3, p1: Point, p2: Point)
    ensures var raw := DualFix(m, cfg, Zero, p1, p2);
            var r := DualFix(m, cfg, origin, p1, p2);
            r == Vec3(raw.x - origin.x, raw.y - origin.y, raw.z)
  {
  }

  function Mirror(p: Point): Point
  {
    Point(1.0 - p.x, p.y)
  }

  /**
   * Remote 2 looks at a point as remote 1 looks at its mirror image, so
   * exchanging the two remotes and mirroring their points leaves the
   * triangulated depth unchanged.
   */
  lemma DualDepthSymmetric(m: Maths, cfg: Settings, p1: Point, p2: Point)
    ensures AngleR2(p2) == AngleR1(Mirror(p2))
    ensures DualDepth(m, cfg, Mirror(p2), Mirror(p1)) == DualDepth(m, cfg, p1, p2)
  {
    var a1, a2 := AngleR1(p1), AngleR2(p2);
    assert AngleR1(Mirror(p2)) == a2;
    assert AngleR2(Mirror(p1)) == a1;
    assert m.sin(Pi - (a2 + a1)) == m.sin(Pi - (a1 + a2));
    assert LawOfSinesDepth(m, cfg.remoteSeparation, a2, a1) == LawOfSinesDepth(m, cfg.remoteSeparation, a1, a2);
  }

  /** An odd sine: sin(-a) == -sin(a). */
  ghost predicate OddSine(m: Maths)
  {
    forall a, b :: a + b == 0.0 ==> m.sin(a) == -m.sin(b)
  }

  /** With an odd sine, a mirrored point has the opposite horizontal offset. */
  lemma MirroredOffset(m: Maths, p: Point, depth: real)
    requires OddSine(m)
    ensures HorizontalOffset(m, Mirror(p).x, depth) == -HorizontalOffset(m, p.x, depth)
  {
    var h, g := QuarterPi * (p.x - 0.5), QuarterPi * (Mirror(p).x - 0.5);
    assert g + h == 0.0;
    var sh, sg := m.sin(h), m.sin(g);
    assert sg == -sh;
    assert sg * depth == -(sh * depth);
  }

  /**
   * With an odd sine, exchanging the two remotes and mirroring their points
   * mirrors the horizontal offset and leaves the vertical offset and the
   * depth unchanged.
   */
  lemma DualMirrorX(m: Maths, cfg: Settings, p1: Point, p2: Point)
    requires OddSine(m)
    ensures var raw := DualFix(m, cfg, Zero, p1, p2);
            DualFix(m, cfg, Zero, Mirror(p2), Mirror(p1)) == Vec3(-raw.x, raw.y, raw.z)
  {
    DualDepthSymmetric(m, cfg, p1, p2);
    var z := DualDepth(m, cfg, p1, p2);
    MirroredOffset(m, p1, z);
    MirroredOffset(m, p2, z);
  }

  /**
   * Querying again with the single-remote raw result stored as the origin
   * gives depth 0 but x and y equal to minus the stored ones, not 0.
   */
  lemma SingleAfterReset(m: Maths, cfg: Settings, a: Point, b: Point)
    ensures var o := SingleFix(m, cfg, Zero, a, b);
            SingleFix(m, cfg, o, a, b) == Vec3(-o.x, -o.y, 0.0)
  {
  }

  /**
   * Querying again with the two-remote raw result stored as the origin gives
   * x and y of 0 but keeps the full depth.
   */
  lemma DualAfterReset(m: Maths, cfg: Settings, p1: Point, p2: Point)
    ensures var o := DualFix(m, cfg, Zero, p1, p2);
            DualFix(m, cfg, o, p1, p2) == Vec3(0.0, 0.0, o.z)
  {
  }
}
