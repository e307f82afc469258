/**
 * The viewer camera of update(): its eye and the point it looks at, both fixed linear
 * functions of the set height and the wheel-driven distance d.
 */
module ViewerCamera {
  import opened Geometry

  /** The eye: on the cylinder's axis plane x = 0, raised by 0.4 d above mid-height, d back. */
  function Eye(setHeight: real, d: real): (e: Vec3)
    ensures e.x == 0.0 && e.z == d
  {
    Vec3(0.0, setHeight * 0.5 + d * 0.4, d)
  }

  /** The look-at point: lowered by 0.25 d below mid-height, 0.25 d + 50 in front of the axis. */
  function Center(setHeight: real, d: real): (c: Vec3)
    ensures c.x == 0.0
    ensures d >= 0.0 ==> c.z < 0.0
  {
    Vec3(0.0, setHeight * 0.5 - d * 0.25, -d * 0.25 - 50.0)
  }

  /**
   * For d >= 0 the eye is never below the look-at point, level only at d = 0; the camera
   * always looks towards -z, and eye and centre stay in the plane x = 0.
   */
  lemma LooksDown(setHeight: real, d: real)
    requires d >= 0.0
    ensures var e, c := Eye(setHeight, d), Center(setHeight, d);
      e.y >= c.y && (e.y == c.y <==> d == 0.0) &&
      e.y - c.y == 0.65 * d && e.z - c.z == 1.25 * d + 50.0 > 0.0 &&
      e.x == c.x == 0.0
  {
  }

  /** The slope of the view line: the drop per unit of forward travel. */
  function Tilt(setHeight: real, d: real): real
    requires d >= 0.0
  {
    var e, c := Eye(setHeight, d), Center(setHeight, d);
    (e.y - c.y) / (e.z - c.z)
  }

  /** The tilt-down grows strictly with the distance. */
  lemma TiltGrows(setHeight: real, d1: real, d2: real)
    requires 0.0 <= d1 < d2
    ensures Tilt(setHeight, d1) < Tilt(setHeight, d2)
  {
    LooksDown(setHeight, d1);
    LooksDown(setHeight, d2);
    var a, b := 1.25 * d1 + 50.0, 1.25 * d2 + 50.0;
    assert Tilt(setHeight, d1) == 0.65 * d1 / a;
    assert Tilt(setHeight, d2) == 0.65 * d2 / b;
    // cross-multiplied: 0.65 d1 b < 0.65 d2 a, since 0.65 d1 b - 0.65 d2 a == 32.5 (d1 - d2)
    assert 0.65 * d1 * b - 0.65 * d2 * a == 32.5 * (d1 - d2);
    DivLess(0.65 * d1, a, 0.65 * d2, b);
  }

  lemma DivLess(p: real, a: real, q: real, b: real)
    requires a > 0.0 && b > 0.0 && p * b < q * a
    ensures p / a < q / b
  {
    assert p / a == (p * b) / (a * b);
    assert q / b == (q * a) / (a * b);
  }
}
