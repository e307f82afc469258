/** Small value types shared by the modules: vectors, pixel points, rectangles, trigonometry. */
module Geometry {

  /** A 3-component float vector (Cinder's Vec3f), over the reals. */
  datatype Vec3 = Vec3(x: real, y: real, z: real)

  /** A window position in whole pixels, as mouse events deliver it. */
  datatype Point = Point(x: int, y: int)

  /** A float rectangle (Cinder's Rectf): corners (x1, y1) and (x2, y2). */
  datatype RectF = RectF(x1: real, y1: real, x2: real, y2: real)

  /** Cosine and sine, left uninterpreted: any pair of total functions. */
  datatype Trig = Trig(cos: real -> real, sin: real -> real)

  /** The horizontal unit direction at angle `a`: (cos a, 0, sin a). */
  function Direction(trig: Trig, a: real): (d: Vec3)
    ensures d.y == 0.0
  {
    Vec3(trig.cos(a), 0.0, trig.sin(a))
  }

  /** The point at angle `a` on a circle of radius `radius` around the y axis, at height `y`. */
  function RimPoint(trig: Trig, a: real, radius: real, y: real): (p: Vec3)
    ensures p.y == y
  {
    Vec3(trig.cos(a) * radius, y, trig.sin(a) * radius)
  }
}
