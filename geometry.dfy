/** Value-level 3D math of the wireframe demo: the coordinates a Vertex holds,
    the transformations that build a new Vertex, the perspective divide and
    the mapping of normalised coordinates onto the drawing surface. */
module Geometry {

  /** Size of the drawing surface in pixels. */
  const WIDTH: real := 800.0
  const HEIGHT: real := 800.0

  /** Frames per second of the animation loop. */
  const FPS: real := 30.0

  /** Math.PI as JavaScript prints it; the model computes over exact reals. */
  const PI: real := 3.141592653589793

  /** The three coordinates of a Vertex. */
  datatype Vec3 = Vec3(x: real, y: real, z: real)

  /** A two-coordinate point: the result of project and of screenify. */
  datatype Point2 = Point2(x: real, y: real)

  /** The pair (Math.cos(angle), Math.sin(angle)) a rotation computes from its angle. */
  datatype Trig = Trig(c: real, s: real)

  /** cos and sin of the angle 0, which is what an omitted rotate argument means. */
  const NoTurn: Trig := Trig(1.0, 0.0)

  /** What true cosine and sine values of one angle satisfy. */
  predicate OnUnitCircle(t: Trig)
  {
    t.c * t.c + t.s * t.s == 1.0
  }

  /** cos and sin of the negated angle. */
  function Negated(t: Trig): Trig
  {
    Trig(t.c, -t.s)
  }

  function NormSq(v: Vec3): real
  {
    v.x * v.x + v.y * v.y + v.z * v.z
  }

  // ---------------------------------------------------------------- translate

  /** The argument at position i of a JavaScript call, or the parameter's default 0
      when the call passes fewer arguments. */
  function ArgOrZero(args: seq<real>, i: nat): real
  {
    if i < |args| then args[i] else 0.0
  }

  /** The deltas translate(dx=0, dy=0, dz=0) ends up using for a given argument
      list: a call with exactly one argument moves that value from dx to dz. */
  function Deltas(args: seq<real>): Vec3
  {
    var dx, dy, dz := ArgOrZero(args, 0), ArgOrZero(args, 1), ArgOrZero(args, 2);
    if |args| == 1 then Vec3(0.0, dy, dx) else Vec3(dx, dy, dz)
  }

  /** translate called with the argument list args. */
  function Translate(v: Vec3, args: seq<real>): (r: Vec3)
    ensures |args| == 0 ==> r == v
    ensures |args| == 1 ==> r == Vec3(v.x, v.y, v.z + args[0])
    ensures |args| == 2 ==> r == Vec3(v.x + args[0], v.y + args[1], v.z)
    ensures |args| >= 3 ==> r == Vec3(v.x + args[0], v.y + args[1], v.z + args[2])
  {
    var d := Deltas(args);
    Vec3(v.x + d.x, v.y + d.y, v.z + d.z)
  }

  /** A lone argument is a z offset: translate(d) is translate(0, 0, d), and it
      differs from translate(d, 0, 0) whenever d is not zero. */
  lemma LoneArgumentIsDz(v: Vec3, d: real)
    ensures Translate(v, [d]) == Translate(v, [0.0, 0.0, d])
    ensures d != 0.0 ==> Translate(v, [d]) != Translate(v, [d, 0.0, 0.0])
  {
  }

  /** Translating back by the negated offsets restores the point. */
  lemma TranslateInverse(v: Vec3, dx: real, dy: real, dz: real)
    ensures Translate(Translate(v, [dx, dy, dz]), [-dx, -dy, -dz]) == v
    ensures Translate(Translate(v, [dz]), [-dz]) == v
  {
  }

  // ---------------------------------------------------------------- rotations

  /** rotate_yz: turns (y, z) by the angle, keeps x. */
  function RotateYZ(v: Vec3, t: Trig): (r: Vec3)
    ensures r.x == v.x
  {
    Vec3(v.x, v.y * t.c - v.z * t.s, v.y * t.s + v.z * t.c)
  }

  /** rotate_xz: turns (x, z) by the angle, keeps y. */
  function RotateXZ(v: Vec3, t: Trig): (r: Vec3)
    ensures r.y == v.y
  {
    Vec3(v.x * t.c - v.z * t.s, v.y, v.x * t.s + v.z * t.c)
  }

  /** rotate_xy: turns (x, y) by the angle, keeps z. */
  function RotateXY(v: Vec3, t: Trig): (r: Vec3)
    ensures r.z == v.z
  {
    Vec3(v.x * t.c - v.y * t.s, v.x * t.s + v.y * t.c, v.z)
  }

  /** rotate(ax, ay, az), written with the fused local updates of the source:
      it is the chain YZ by ax, then XZ by ay, then XY by az. */
  function Rotate(v: Vec3, tx: Trig, ty: Trig, tz: Trig): (r: Vec3)
    ensures r == RotateXY(RotateXZ(RotateYZ(v, tx), ty), tz)
  {
    var x, y, z := v.x, v.y, v.z;
    var y1, z1 := y * tx.c - z * tx.s, y * tx.s + z * tx.c;
    var x2, z2 := x * ty.c - z1 * ty.s, x * ty.s + z1 * ty.c;
    var x3, y3 := x2 * tz.c - y1 * tz.s, x2 * tz.s + y1 * tz.c;
    Vec3(x3, y3, z2)
  }

  /** The angle 0 leaves every rotation without effect. */
  lemma NoTurnIsIdentity(v: Vec3)
    ensures RotateYZ(v, NoTurn) == v && RotateXZ(v, NoTurn) == v && RotateXY(v, NoTurn) == v
  {
  }

  /** rotate's omitted angles default to 0: rotate() leaves the vertex alone, and
      rotate(ax) is rotate_yz(ax). */
  lemma OmittedAnglesAreZero(v: Vec3, t: Trig)
    ensures Rotate(v, NoTurn, NoTurn, NoTurn) == v
    ensures Rotate(v, t, NoTurn, NoTurn) == RotateYZ(v, t)
  {
    NoTurnIsIdentity(v);
    NoTurnIsIdentity(RotateYZ(v, t));
  }

  /** A quarter turn (cos 0, sin 1) sends the first coordinate of the pair to the second. */
  lemma QuarterTurns(v: Vec3)
    ensures RotateYZ(v, Trig(0.0, 1.0)) == Vec3(v.x, -v.z, v.y)
    ensures RotateXZ(v, Trig(0.0, 1.0)) == Vec3(-v.z, v.y, v.x)
    ensures RotateXY(v, Trig(0.0, 1.0)) == Vec3(-v.y, v.x, v.z)
  {
  }

  /** The order of the chain matters: turning (1, 0, 0) a quarter turn about
      YZ and then XY ends on the y axis; the reverse order ends on the z axis. */
  lemma RotateOrderMatters()
    ensures Rotate(Vec3(1.0, 0.0, 0.0), Trig(0.0, 1.0), NoTurn, Trig(0.0, 1.0)) == Vec3(0.0, 1.0, 0.0)
    ensures RotateYZ(RotateXZ(RotateXY(Vec3(1.0, 0.0, 0.0), Trig(0.0, 1.0)), NoTurn), Trig(0.0, 1.0))
            == Vec3(0.0, 0.0, 1.0)
  {
    var ex, ey := Vec3(1.0, 0.0, 0.0), Vec3(0.0, 1.0, 0.0);
    QuarterTurns(ex);
    QuarterTurns(ey);
    NoTurnIsIdentity(ex);
    NoTurnIsIdentity(ey);
  }

  /** (a c - b s)^2 + (a s + b c)^2 == (a^2 + b^2)(c^2 + s^2): a plane rotation
      keeps the squared length of the pair it turns. */
  lemma PlaneTurnKeepsLength(a: real, b: real, c: real, s: real)
    requires c * c + s * s == 1.0
    ensures (a * c - b * s) * (a * c - b * s) + (a * s + b * c) * (a * s + b * c) == a * a + b * b
  {
    calc {
      (a * c - b * s) * (a * c - b * s) + (a * s + b * c) * (a * s + b * c);
      a * a * (c * c) - 2.0 * a * b * (c * s) + b * b * (s * s)
        + (a * a * (s * s) + 2.0 * a * b * (c * s) + b * b * (c * c));
      a * a * (c * c + s * s) + b * b * (c * c + s * s);
      a * a + b * b;
    }
  }

  /** Turning a pair by an angle and then by its negation gives back the pair. */
  lemma PlaneTurnInverse(a: real, b: real, c: real, s: real)
    requires c * c + s * s == 1.0
    ensures (a * c - b * s) * c - (a * s + b * c) * -s == a
    ensures (a * c - b * s) * -s + (a * s + b * c) * c == b
  {
    assert (a * c - b * s) * c - (a * s + b * c) * -s == a * (c * c + s * s);
    assert (a * c - b * s) * -s + (a * s + b * c) * c == b * (c * c + s * s);
  }

  /** Each single-axis rotation by true cos/sin values keeps the distance to the origin. */
  lemma RotationsKeepLength(v: Vec3, t: Trig)
    requires OnUnitCircle(t)
    ensures NormSq(RotateYZ(v, t)) == NormSq(v)
    ensures NormSq(RotateXZ(v, t)) == NormSq(v)
    ensures NormSq(RotateXY(v, t)) == NormSq(v)
  {
    LengthYZ(v, t);
    LengthXZ(v, t);
    LengthXY(v, t);
  }

  lemma LengthYZ(v: Vec3, t: Trig)
    requires OnUnitCircle(t)
    ensures NormSq(RotateYZ(v, t)) == NormSq(v)
  {
    var w := RotateYZ(v, t);
    PlaneTurnKeepsLength(v.y, v.z, t.c, t.s);
    assert w.y * w.y + w.z * w.z == v.y * v.y + v.z * v.z;
  }

  lemma LengthXZ(v: Vec3, t: Trig)
    requires OnUnitCircle(t)
    ensures NormSq(RotateXZ(v, t)) == NormSq(v)
  {
    var w := RotateXZ(v, t);
    PlaneTurnKeepsLength(v.x, v.z, t.c, t.s);
    assert w.x * w.x + w.z * w.z == v.x * v.x + v.z * v.z;
  }

  lemma LengthXY(v: Vec3, t: Trig)
    requires OnUnitCircle(t)
    ensures NormSq(RotateXY(v, t)) == NormSq(v)
  {
    var w := RotateXY(v, t);
    PlaneTurnKeepsLength(v.x, v.y, t.c, t.s);
    assert w.x * w.x + w.y * w.y == v.x * v.x + v.y * v.y;
  }

  /** Each single-axis rotation is undone by the rotation by the negated angle. */
  lemma RotationsInvertible(v: Vec3, t: Trig)
    requires OnUnitCircle(t)
    ensures RotateYZ(RotateYZ(v, t), Negated(t)) == v
    ensures RotateXZ(RotateXZ(v, t), Negated(t)) == v
    ensures RotateXY(RotateXY(v, t), Negated(t)) == v
  {
    InverseYZ(v, t);
    InverseXZ(v, t);
    InverseXY(v, t);
  }

  lemma InverseYZ(v: Vec3, t: Trig)
    requires OnUnitCircle(t)
    ensures RotateYZ(RotateYZ(v, t), Negated(t)) == v
  {
    PlaneTurnInverse(v.y, v.z, t.c, t.s);
  }

  lemma InverseXZ(v: Vec3, t: Trig)
    requires OnUnitCircle(t)
    ensures RotateXZ(RotateXZ(v, t), Negated(t)) == v
  {
    PlaneTurnInverse(v.x, v.z, t.c, t.s);
  }

  lemma InverseXY(v: Vec3, t: Trig)
    requires OnUnitCircle(t)
    ensures RotateXY(RotateXY(v, t), Negated(t)) == v
  {
    PlaneTurnInverse(v.x, v.y, t.c, t.s);
  }

  /** The fused rotation keeps the distance to the origin. */
  lemma RotateKeepsLength(v: Vec3, tx: Trig, ty: Trig, tz: Trig)
    requires OnUnitCircle(tx) && OnUnitCircle(ty) && OnUnitCircle(tz)
    ensures NormSq(Rotate(v, tx, ty, tz)) == NormSq(v)
  {
    var v1 := RotateYZ(v, tx);
    var v2 := RotateXZ(v1, ty);
    RotationsKeepLength(v, tx);
    RotationsKeepLength(v1, ty);
    RotationsKeepLength(v2, tz);
  }

  // ---------------------------------------------------------------- project

  /** project: the perspective divide (x/z, y/z). */
  function Project(v: Vec3): (p: Point2)
    requires v.z != 0.0
    ensures p.x * v.z == v.x && p.y * v.z == v.y
  {
    Point2(v.x / v.z, v.y / v.z)
  }

  /** Points on one ray from the eye project to the same place. */
  lemma ProjectAlongRay(v: Vec3, k: real)
    requires v.z != 0.0 && k != 0.0
    ensures Project(Vec3(k * v.x, k * v.y, k * v.z)) == Project(v)
  {
    var p := Project(v);
    var q := Project(Vec3(k * v.x, k * v.y, k * v.z));
    assert q.x * (k * v.z) == k * v.x;
    assert k * (q.x * v.z) == k * (p.x * v.z);
    assert q.y * (k * v.z) == k * v.y;
    assert k * (q.y * v.z) == k * (p.y * v.z);
  }

  lemma ProjectExample()
    ensures Project(Vec3(1.0, 2.0, 2.0)) == Point2(0.5, 1.0)
  {
  }

  // ---------------------------------------------------------------- screenify

  /** screenify: the affine map from -1..1 onto 0..WIDTH and 0..HEIGHT, not clamped. */
  function Screenify(p: Point2): (q: Point2)
    ensures -1.0 <= p.x <= 1.0 <==> 0.0 <= q.x <= WIDTH
    ensures -1.0 <= p.y <= 1.0 <==> 0.0 <= q.y <= HEIGHT
  {
    Point2((p.x + 1.0) / 2.0 * WIDTH, (p.y + 1.0) / 2.0 * HEIGHT)
  }

  /** The inverse map from pixels back to normalised coordinates. */
  function Unscreenify(q: Point2): Point2
  {
    Point2(q.x / WIDTH * 2.0 - 1.0, q.y / HEIGHT * 2.0 - 1.0)
  }

  lemma ScreenifyRoundTrip(p: Point2, q: Point2)
    ensures Unscreenify(Screenify(p)) == p
    ensures Screenify(Unscreenify(q)) == q
  {
  }

  /** The corners and the centre of the normalised square land on the corners
      and the centre of the surface. */
  lemma ScreenCorners()
    ensures Screenify(Point2(-1.0, -1.0)) == Point2(0.0, 0.0)
    ensures Screenify(Point2(1.0, 1.0)) == Point2(WIDTH, HEIGHT)
    ensures Screenify(Point2(0.0, 0.0)) == Point2(WIDTH / 2.0, HEIGHT / 2.0)
  {
  }

  function Lerp(p: Point2, q: Point2, k: real): Point2
  {
    Point2(p.x + k * (q.x - p.x), p.y + k * (q.y - p.y))
  }

  /** screenify is affine: it maps the point a fraction k of the way from p to q
      to the point the same fraction of the way between their images. */
  lemma ScreenifyAffine(p: Point2, q: Point2, k: real)
    ensures Screenify(Lerp(p, q, k)) == Lerp(Screenify(p), Screenify(q), k)
  {
  }

  /** Nothing is clamped: a point beyond the normalised square lands beyond the surface. */
  lemma ScreenifyNotClamped(p: Point2)
    ensures p.x < -1.0 ==> Screenify(p).x < 0.0
    ensures p.x > 1.0 ==> Screenify(p).x > WIDTH
    ensures p.y < -1.0 ==> Screenify(p).y < 0.0
    ensures p.y > 1.0 ==> Screenify(p).y > HEIGHT
  {
  }
}
