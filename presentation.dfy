/**
 * What draw() presents once the panorama is composited: the dewarp shader's uniform
 * values, and either two cylinder passes (cylinder mode) or one over-tall rectangle
 * (flat mode).
 */
module Presentation {
  import opened Geometry
  import opened AppConstants
  import Panorama
  import CylinderMesh
  import ViewInput

  datatype Option<T> = None | Some(value: T)

  /** The dewarp shader's uniforms, by the names the shader declares. */
  datatype Uniforms = Uniforms(
    panoTex: int,          // texture unit of the panorama
    radians: real,         // total field of view
    radiansOffset: real,   // (pi / 2) / radians
    numCameras: real,
    invNumCamsHalf: real)  // 1 / (2 numCameras)

  /** The uniform values draw() sets when warp is on; both display modes set the same ones. */
  function WarpUniforms(totalRadians: real, numCameras: nat): (u: Uniforms)
    requires totalRadians != 0.0 && numCameras > 0
    ensures u.panoTex == 0 && u.radians == totalRadians && u.numCameras == numCameras as real
    ensures u.radiansOffset * u.radians == M_PI_2
    ensures u.invNumCamsHalf * 2.0 * u.numCameras == 1.0
  {
    Uniforms(0, totalRadians, M_PI_2 / totalRadians, numCameras as real,
             1.0 / (numCameras as real * 2.0))
  }

  /**
   * The uniforms agree with the camera partition: invNumCamsHalf of the span is half of one
   * camera's step, and radiansOffset is a quarter turn as a share of the span.
   */
  lemma WarpMatchesPartition(totalRadians: real, numCameras: nat)
    requires totalRadians != 0.0 && numCameras > 0
    ensures var u := WarpUniforms(totalRadians, numCameras);
      u.invNumCamsHalf * u.radians == Panorama.CameraStep(totalRadians, numCameras) / 2.0 &&
      u.radiansOffset == M_PI_2 / totalRadians
  {
  }

  /** With the app's constants: a span of 1.5 pi, radiansOffset 1/3, 3 cameras, invNumCamsHalf 1/6. */
  lemma AppWarpUniforms()
    ensures WarpUniforms(ToRadians(DEGREES), NUM_CAMERAS)
            == Uniforms(0, 3.0 * M_PI_2, 1.0 / 3.0, 3.0, 1.0 / 6.0)
  {
    TotalRadians();
    var u := WarpUniforms(ToRadians(DEGREES), NUM_CAMERAS);
    assert u.radiansOffset * (3.0 * M_PI_2) == M_PI_2;
  }

  /** The shader binding of a pass: the uniforms when warp is on, none when it is off. */
  function ShaderFor(warp: bool, totalRadians: real): (sh: Option<Uniforms>)
    requires totalRadians != 0.0
    ensures sh.Some? <==> warp
  {
    if warp then Some(WarpUniforms(totalRadians, NUM_CAMERAS)) else None
  }

  /** One drawCylinder call: its strip, whether it is textured, its grey level, its shader. */
  datatype CylinderPass = CylinderPass(strip: seq<CylinderMesh.StripVertex>, textured: bool,
                                       gray: real, shader: Option<Uniforms>)

  /** The presentation part of one frame. */
  datatype Frame =
    | CylinderFrame(passes: seq<CylinderPass>)
    | FlatFrame(rect: RectF, shader: Option<Uniforms>)

  /** Flat mode's rectangle: the window's width, and 20% of its height added above and below. */
  function FlatRect(window: ViewInput.WindowSize): (r: RectF)
    ensures r.x1 == 0.0 && r.x2 == window.width as real
    ensures r.y2 - r.y1 == 1.4 * window.height as real
    ensures r.y1 + r.y2 == window.height as real
    ensures 0.0 - r.y1 == r.y2 - window.height as real == 0.2 * window.height as real
  {
    RectF(0.0, 0.0 - window.height as real * 0.2, window.width as real, window.height as real * 1.2)
  }

  /**
   * draw()'s final presentation. Cylinder mode: the panorama-textured cylinder (through the
   * shader when warp is on), then an untextured dark cylinder half a unit further out.
   * Flat mode: the panorama on FlatRect of the current window, through the shader when warp
   * is on.
   */
  function PlanFrame(trig: Trig, s: ViewInput.ViewState, totalRadians: real, radius: real,
                     height: real, window: ViewInput.WindowSize): (f: Frame)
    requires totalRadians != 0.0
    ensures f.CylinderFrame? <==> s.showCylinder
  {
    if s.showCylinder then
      CylinderFrame([
        CylinderPass(CylinderMesh.CylinderStrip(trig, radius, height, totalRadians, s.setAngle),
                     true, 1.0, ShaderFor(s.warp, totalRadians)),
        CylinderPass(CylinderMesh.CylinderStrip(trig, radius + 0.5, height, totalRadians, s.setAngle),
                     false, 0.2, None)])
    else
      FlatFrame(FlatRect(window), ShaderFor(s.warp, totalRadians))
  }

  /** The shader a frame draws the panorama through. */
  function PanoramaShader(f: Frame): Option<Uniforms> {
    match f
    case CylinderFrame(passes) => if passes == [] then None else passes[0].shader
    case FlatFrame(_, shader) => shader
  }

  /**
   * Both display modes bind the shader exactly when warp is on, with the same uniforms; in
   * cylinder mode the shader is unbound again before the dark backing cylinder is drawn,
   * and that cylinder has the same strip layout half a unit further out.
   */
  lemma ShaderSameInBothModes(trig: Trig, s: ViewInput.ViewState, totalRadians: real,
                              radius: real, height: real, window: ViewInput.WindowSize)
    requires totalRadians != 0.0
    ensures var f := PlanFrame(trig, s, totalRadians, radius, height, window);
      var g := PlanFrame(trig, s.(showCylinder := !s.showCylinder), totalRadians, radius, height, window);
      PanoramaShader(f) == PanoramaShader(g) &&
      (PanoramaShader(f).Some? <==> s.warp) &&
      (s.warp ==> PanoramaShader(f) == Some(WarpUniforms(totalRadians, NUM_CAMERAS)))
    ensures var f := PlanFrame(trig, s, totalRadians, radius, height, window);
      f.CylinderFrame? ==> |f.passes| == 2 && f.passes[0].textured && !f.passes[1].textured &&
                           f.passes[1].shader == None
  {
  }
}
