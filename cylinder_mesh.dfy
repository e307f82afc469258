/**
 * drawCylinder: the triangle strip that wraps the panorama around a cylinder. Rung i of
 * the strip sits at the fraction i / 72 of the angular span and contributes a bottom vertex
 * (height 0, texture row 0.25) and a top vertex (the given height, texture row 0.75).
 */
module CylinderMesh {
  import opened Geometry
  import opened AppConstants

  const NUM_SEGS: nat := 72
  /** The texture rows of the bottom and the top edge of the strip. */
  const V_BOTTOM: real := 0.25
  const V_TOP: real := 0.75

  /** A strip vertex: texture coordinate (u, v) and position. */
  datatype StripVertex = StripVertex(u: real, v: real, pos: Vec3)

  /** The fraction of the span reached at rung i (per). */
  function SegmentFraction(i: int): real {
    i as real / NUM_SEGS as real
  }

  /** The angle of rung i (rads): the fraction of the span, plus the fixed 0.75 pi and the rotation. */
  function SegmentAngle(i: int, totalRadians: real, setAngle: real): real {
    SegmentFraction(i) * totalRadians + M_PI * 0.75 + setAngle
  }

  /** The k-th vertex of the strip: rung k / 2, bottom when k is even, top when k is odd. */
  function VertexAt(trig: Trig, radius: real, height: real, totalRadians: real, setAngle: real,
                    k: nat): StripVertex
  {
    var i := k / 2;
    var rads := SegmentAngle(i, totalRadians, setAngle);
    if k % 2 == 0 then StripVertex(SegmentFraction(i), V_BOTTOM, RimPoint(trig, rads, radius, 0.0))
    else StripVertex(SegmentFraction(i), V_TOP, RimPoint(trig, rads, radius, height))
  }

  /** The number of vertices drawCylinder emits: two per rung, NUM_SEGS + 1 rungs. */
  const STRIP_LENGTH: nat := 2 * (NUM_SEGS + 1)

  /** The whole strip, as a value. */
  function CylinderStrip(trig: Trig, radius: real, height: real, totalRadians: real,
                         setAngle: real): (strip: seq<StripVertex>)
    ensures |strip| == STRIP_LENGTH
  {
    seq(STRIP_LENGTH, k requires 0 <= k => VertexAt(trig, radius, height, totalRadians, setAngle, k))
  }

  /**
   * drawCylinder's loop: for i = 0 .. NUM_SEGS it emits the bottom and the top vertex of
   * rung i, in that order.
   */
  method DrawCylinder(trig: Trig, radius: real, height: real, totalRadians: real, setAngle: real)
    returns (strip: seq<StripVertex>)
    ensures strip == CylinderStrip(trig, radius, height, totalRadians, setAngle)
  {
    strip := [];
    var i := 0;
    while i <= NUM_SEGS
      invariant 0 <= i <= NUM_SEGS + 1
      invariant |strip| == 2 * i
      invariant forall k :: 0 <= k < |strip| ==>
                  strip[k] == VertexAt(trig, radius, height, totalRadians, setAngle, k)
    {
      var per := i as real / NUM_SEGS as real;
      var rads := per * totalRadians + M_PI * 0.75 + setAngle;
      var bottom := StripVertex(per, V_BOTTOM, Vec3(trig.cos(rads) * radius, 0.0, trig.sin(rads) * radius));
      var top := StripVertex(per, V_TOP, Vec3(trig.cos(rads) * radius, height, trig.sin(rads) * radius));
      assert per == SegmentFraction(i) && rads == SegmentAngle(i, totalRadians, setAngle);
      assert (2 * i) / 2 == i && (2 * i) % 2 == 0;
      assert (2 * i + 1) / 2 == i && (2 * i + 1) % 2 == 1;
      assert bottom == VertexAt(trig, radius, height, totalRadians, setAngle, 2 * i);
      assert top == VertexAt(trig, radius, height, totalRadians, setAngle, 2 * i + 1);
      strip := strip + [bottom, top];
      i := i + 1;
    }
  }

  /**
   * Texture coordinates: vertex k carries u = (k / 2) / 72 in [0, 1]; even vertices are on
   * the floor with v = 0.25, odd ones at the given height with v = 0.75.
   */
  lemma StripTexCoords(trig: Trig, radius: real, height: real, totalRadians: real, setAngle: real,
                       k: nat)
    requires k < STRIP_LENGTH
    ensures var w := CylinderStrip(trig, radius, height, totalRadians, setAngle)[k];
      w.u * NUM_SEGS as real == (k / 2) as real && 0.0 <= w.u <= 1.0 &&
      (k % 2 == 0 ==> w.v == V_BOTTOM && w.pos.y == 0.0) &&
      (k % 2 == 1 ==> w.v == V_TOP && w.pos.y == height)
  {
  }

  /** u never decreases along the strip, starts at 0 and ends at 1. */
  lemma {:induction false} StripUMonotone(trig: Trig, radius: real, height: real,
                                           totalRadians: real, setAngle: real, k1: nat, k2: nat)
    requires k1 <= k2 < STRIP_LENGTH
    ensures var s := CylinderStrip(trig, radius, height, totalRadians, setAngle);
      s[k1].u <= s[k2].u && s[0].u == 0.0 && s[STRIP_LENGTH - 1].u == 1.0
  {
    var s := CylinderStrip(trig, radius, height, totalRadians, setAngle);
    assert k1 / 2 <= k2 / 2;
    FractionMonotone(k1 / 2, k2 / 2);
    assert s[k1].u == SegmentFraction(k1 / 2);
    assert s[k2].u == SegmentFraction(k2 / 2);
  }

  lemma FractionMonotone(i: int, j: int)
    requires i <= j
    ensures SegmentFraction(i) <= SegmentFraction(j)
  {
  }

  /**
   * The two vertices of a rung share its angle; rung angles step by totalRadians / 72 from
   * 0.75 pi + setAngle at rung 0 to that plus totalRadians at the last rung.
   */
  lemma StripAngles(trig: Trig, radius: real, height: real, totalRadians: real, setAngle: real,
                    i: nat)
    requires i <= NUM_SEGS
    ensures var s := CylinderStrip(trig, radius, height, totalRadians, setAngle);
      var a := SegmentAngle(i, totalRadians, setAngle);
      s[2 * i] == StripVertex(SegmentFraction(i), V_BOTTOM, RimPoint(trig, a, radius, 0.0)) &&
      s[2 * i + 1] == StripVertex(SegmentFraction(i), V_TOP, RimPoint(trig, a, radius, height)) &&
      (i < NUM_SEGS ==> SegmentAngle(i + 1, totalRadians, setAngle) - a == totalRadians / NUM_SEGS as real)
    ensures SegmentAngle(0, totalRadians, setAngle) == 0.75 * M_PI + setAngle
    ensures SegmentAngle(NUM_SEGS, totalRadians, setAngle) == 0.75 * M_PI + setAngle + totalRadians
  {
    var s := CylinderStrip(trig, radius, height, totalRadians, setAngle);
    assert s[2 * i] == VertexAt(trig, radius, height, totalRadians, setAngle, 2 * i);
    assert s[2 * i + 1] == VertexAt(trig, radius, height, totalRadians, setAngle, 2 * i + 1);
  }
}
