/**
 * The camera ring and the off-screen targets: the angle setup gives each camera, the
 * target sizes, and the slots drawToPanoFbo places the captures in.
 */
module Panorama {
  import opened Geometry
  import opened AppConstants

  datatype ColorFormat = Rgb | Rgba

  /** An off-screen render target (Cinder's gl::Fbo), by its size and color format. */
  datatype Fbo = Fbo(width: int, height: int, format: ColorFormat)

  /** An integer pixel rectangle [x1, x2) x [y1, y2). */
  datatype Rect = Rect(x1: int, y1: int, x2: int, y2: int)

  predicate InRect(r: Rect, x: int, y: int) {
    r.x1 <= x < r.x2 && r.y1 <= y < r.y2
  }

  /** Perspective parameters as handed to CameraPersp::setPerspective. */
  datatype Perspective = Perspective(fovDegrees: real, aspect: real, near: real, far: real)

  /** The scene camera of setup: vertical field of view DEGREES / NUM_CAMERAS, square aspect. */
  function ScenePerspective(): (p: Perspective)
    ensures p.aspect == 1.0 && p.fovDegrees * NUM_CAMERAS as real == DEGREES
  {
    Perspective(DEGREES / NUM_CAMERAS as real, 1.0, 1.0, 3000.0)
  }

  /** The angle between adjacent cameras (radiansDelta). */
  function CameraStep(totalRadians: real, count: nat): (d: real)
    requires count > 0
    ensures d * count as real == totalRadians
  {
    totalRadians / count as real
  }

  /** The angle camera `i` looks along: the value camAngle has reached after `i` steps. */
  function CameraAngle(i: int, totalRadians: real, count: nat): real
    requires count > 0
  {
    i as real * CameraStep(totalRadians, count)
  }

  /** Adjacent cameras differ by exactly one step, and `count` steps make the whole span. */
  lemma AnglesEvenlySpaced(i: int, totalRadians: real, count: nat)
    requires count > 0
    ensures CameraAngle(i + 1, totalRadians, count) - CameraAngle(i, totalRadians, count)
            == CameraStep(totalRadians, count)
    ensures CameraAngle(0, totalRadians, count) == 0.0
    ensures CameraAngle(count, totalRadians, count) == totalRadians
  {
  }

  /**
   * With a square aspect the horizontal field of view equals the vertical one, so each scene
   * camera sees exactly one step, and the right edge of camera i is the left edge of camera i+1.
   */
  lemma SeamsCoincide(i: int)
    ensures ToRadians(ScenePerspective().fovDegrees) == CameraStep(ToRadians(DEGREES), NUM_CAMERAS)
    ensures var half := ToRadians(ScenePerspective().fovDegrees) / 2.0;
      CameraAngle(i, ToRadians(DEGREES), NUM_CAMERAS) + half ==
      CameraAngle(i + 1, ToRadians(DEGREES), NUM_CAMERAS) - half
  {
    ToRadiansShare(DEGREES, NUM_CAMERAS);
    AnglesEvenlySpaced(i, ToRadians(DEGREES), NUM_CAMERAS);
  }

  /** The app's three cameras look at 0, pi/2 and pi. */
  lemma AppCameraAngles()
    ensures CameraAngle(0, ToRadians(DEGREES), NUM_CAMERAS) == 0.0
    ensures CameraAngle(1, ToRadians(DEGREES), NUM_CAMERAS) == M_PI_2
    ensures CameraAngle(2, ToRadians(DEGREES), NUM_CAMERAS) == M_PI
  {
    TotalRadians();
  }

  /** The camera whose field of view holds the direction `theta`. */
  function CameraOf(theta: real, totalRadians: real, count: nat): int
    requires count > 0 && totalRadians > 0.0
  {
    var step := CameraStep(totalRadians, count);
    ((theta + step / 2.0) / step).Floor
  }

  /**
   * The fields of view [angle(i) - step/2, angle(i) + step/2) of the ring tile
   * [-step/2, totalRadians - step/2): every direction there is seen by exactly one camera.
   */
  lemma FieldsOfViewTile(theta: real, totalRadians: real, count: nat, i: int)
    requires count > 0 && totalRadians > 0.0
    requires var step := CameraStep(totalRadians, count);
      -step / 2.0 <= theta < totalRadians - step / 2.0
    ensures 0 <= CameraOf(theta, totalRadians, count) < count
    ensures var step := CameraStep(totalRadians, count);
      var a := CameraAngle(i, totalRadians, count);
      (a - step / 2.0 <= theta < a + step / 2.0) <==> i == CameraOf(theta, totalRadians, count)
  {
    var step := CameraStep(totalRadians, count);
    var u := theta + step / 2.0;
    var q := u / step;
    var j := q.Floor;
    assert q * step == u;
    // in units of one step, camera i covers [i, i + 1) and the ring covers [0, count)
    AtLeastIff(0.0, q, step, u);
    BelowIff(count as real - 1.0, q, step, u);
    assert j as real <= q < j as real + 1.0;
    var ir := i as real;
    AtLeastIff(ir, q, step, u);
    BelowIff(ir, q, step, u);
  }

  /** With u == q * step and step > 0: u is at least k steps exactly when q >= k. */
  lemma AtLeastIff(k: real, q: real, step: real, u: real)
    requires step > 0.0 && q * step == u
    ensures k * step <= u <==> k <= q
  {
    ScaleLeq(k, q, step);
  }

  /** With u == q * step and step > 0: u is below k + 1 steps exactly when q < k + 1. */
  lemma BelowIff(k: real, q: real, step: real, u: real)
    requires step > 0.0 && q * step == u
    ensures u < k * step + step <==> q < k + 1.0
  {
    ScaleLess(q, k + 1.0, step);
    assert (k + 1.0) * step == k * step + step;
  }

  /** Scaling by a positive factor keeps a non-strict comparison, both ways. */
  lemma ScaleLeq(a: real, b: real, c: real)
    requires c > 0.0
    ensures a * c <= b * c <==> a <= b
  {
    if a <= b {
      assert (b - a) * c >= 0.0;
    } else {
      assert (a - b) * c > 0.0;
    }
  }

  /** Scaling by a positive factor keeps a strict comparison, both ways. */
  lemma ScaleLess(a: real, b: real, c: real)
    requires c > 0.0
    ensures a * c < b * c <==> a < b
  {
    ScaleLeq(b, a, c);
  }

  /** A camera's own target: FBO_SIZE square, RGB. */
  function CameraFbo(size: nat): (f: Fbo)
    ensures f.width == f.height == size
  {
    Fbo(size, size, Rgb)
  }

  /** The composite target: `count` camera targets side by side. */
  function PanoFbo(size: nat, count: nat): (f: Fbo)
    ensures f.width == size * count && f.height == size
  {
    Fbo(size * count, size, Rgb)
  }

  /** The rectangle drawToPanoFbo draws camera `i`'s capture into. */
  function SlotRect(size: nat, i: int): (r: Rect)
    ensures r.x2 - r.x1 == size && r.y1 == 0 && r.y2 == size
  {
    Rect(size * i, 0, size * (i + 1), size)
  }

  lemma MulMono(a: int, b: int, c: nat)
    requires a <= b
    ensures c * a <= c * b
  {
  }

  /** Adjacent slots meet: the end of slot i is the start of slot i+1. */
  lemma SlotsAdjacent(size: nat, i: int)
    ensures SlotRect(size, i).x2 == SlotRect(size, i + 1).x1
  {
  }

  /** Every slot of the ring lies inside the composite target and is as large as a camera target. */
  lemma SlotsInsidePanorama(size: nat, count: nat, i: int)
    requires 0 <= i < count
    ensures var r := SlotRect(size, i);
      0 <= r.x1 && r.x2 <= PanoFbo(size, count).width &&
      r.x2 - r.x1 == CameraFbo(size).width && r.y2 - r.y1 == CameraFbo(size).height &&
      r.y1 == 0 && r.y2 == PanoFbo(size, count).height
  {
    MulMono(0, i, size);
    MulMono(i + 1, count, size);
  }

  /**
   * The slots of cameras 0 .. count-1 tile the composite target: a pixel (x, y) of the target
   * lies in slot i exactly when i == x / size, and no slot reaches outside the target.
   */
  lemma SlotsTile(size: nat, count: nat, x: int, y: int, i: int)
    requires size > 0 && 0 <= i < count
    ensures InRect(SlotRect(size, i), x, y) ==>
              0 <= x < PanoFbo(size, count).width && 0 <= y < PanoFbo(size, count).height
    ensures 0 <= x < size * count && 0 <= y < size ==>
              0 <= x / size < count && (InRect(SlotRect(size, i), x, y) <==> i == x / size)
  {
    SlotsInsidePanorama(size, count, i);
    if 0 <= x < size * count && 0 <= y < size {
      var j := x / size;
      assert size * j <= x < size * (j + 1) by {
        assert x == size * j + x % size;
      }
      assert 0 <= j < count by {
        if j < 0 { MulMono(j, -1, size); }
        if j >= count { MulMono(count, j, size); }
      }
      if i < j {
        MulMono(i + 1, j, size);
      } else if i > j {
        MulMono(j + 1, i, size);
      }
    }
  }

  /** One draw of drawToPanoFbo: bind camera `camera`'s texture and fill `rect` with it. */
  datatype DrawCall = DrawCall(camera: int, rect: Rect)

  /**
   * drawToPanoFbo: for each camera in order, draw its texture into its slot. The result is a
   * tiling of the composite target in which each pixel is painted by exactly one camera,
   * camera x / size.
   */
  method DrawToPanoFbo(size: nat, count: nat) returns (calls: seq<DrawCall>)
    requires size > 0
    ensures |calls| == count
    ensures forall i :: 0 <= i < count ==> calls[i] == DrawCall(i, SlotRect(size, i))
    ensures forall x, y, k :: 0 <= x < size * count && 0 <= y < size && 0 <= k < count ==>
              (InRect(calls[k].rect, x, y) <==> calls[k].camera == x / size)
  {
    calls := [];
    var i := 0;
    while i < count
      invariant 0 <= i <= count
      invariant |calls| == i
      invariant forall k :: 0 <= k < i ==> calls[k] == DrawCall(k, SlotRect(size, k))
    {
      calls := calls + [DrawCall(i, Rect(size * i, 0, size * (i + 1), size))];
      i := i + 1;
    }
    forall x, y, k | 0 <= x < size * count && 0 <= y < size && 0 <= k < count
      ensures InRect(calls[k].rect, x, y) <==> calls[k].camera == x / size
    {
      SlotsTile(size, count, x, y, k);
    }
  }
}
