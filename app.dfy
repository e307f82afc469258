/**
 * The app object: its fields as the handlers update them. The constructor plays
 * prepareSettings followed by setup; each handler method is proved to move the view fields
 * exactly as the matching transition of ViewInput does, and to change no other field.
 */
module App {
  import opened Geometry
  import opened AppConstants
  import ViewInput
  import Panorama
  import CylinderMesh
  import ViewerCamera
  import Presentation

  class CylindricalApp {
    // cameras
    var sceneEye: Vec3
    var scenePerspective: Panorama.Perspective
    var camDist: real
    var eye: Vec3
    var center: Vec3
    var up: Vec3

    // off-screen targets and camera look directions
    const targets: array<Vec3>
    const fbos: array<Panorama.Fbo>
    var panoFbo: Panorama.Fbo

    // mouse
    var mouseDragPos: Point
    var mousePrevX: real

    // the cylinder ("set")
    var setTotalRadians: real
    var setRadius: real
    var setHeight: real
    var setAngle: real

    var showCylinder: bool
    var warp: bool
    /** The window size last requested (setWindowSize's effect is not modelled). */
    var windowSize: ViewInput.WindowSize

    /** The fields the event handlers update, as a ViewState value. */
    function View(): ViewInput.ViewState
      reads this
    {
      ViewInput.ViewState(showCylinder, warp, setAngle, mousePrevX, mouseDragPos, camDist, windowSize)
    }

    /** The object invariant: the view state is valid and the setup-time values stay fixed. */
    ghost predicate Valid()
      reads this, fbos, targets
    {
      ViewInput.Valid(View()) &&
      fbos.Length == NUM_CAMERAS && targets.Length == NUM_CAMERAS &&
      setTotalRadians == ToRadians(DEGREES) && setRadius == 300.0 && setHeight == 300.0 &&
      (forall i :: 0 <= i < NUM_CAMERAS ==> fbos[i] == Panorama.CameraFbo(FBO_SIZE)) &&
      (forall i :: 0 <= i < NUM_CAMERAS ==> targets[i].y == 0.0) &&
      panoFbo == Panorama.PanoFbo(FBO_SIZE, NUM_CAMERAS)
    }

    /**
     * prepareSettings then setup, for a window `windowWidth` pixels wide, with `trig` as
     * cosine and sine. Shader and texture loading are not part of this model.
     */
    constructor (windowWidth: int, trig: Trig)
      ensures Valid()
      ensures View() == ViewInput.Initial(windowWidth)
      ensures sceneEye == Vec3(0.0, 0.0, 0.0) && scenePerspective == Panorama.ScenePerspective()
      ensures eye == Vec3(0.0, 150.0, 500.0) && center == Vec3(0.0, 150.0, 10.0)
      ensures up == Vec3(0.0, 1.0, 0.0)
      ensures forall i :: 0 <= i < NUM_CAMERAS ==>
                targets[i] == Direction(trig, Panorama.CameraAngle(i, setTotalRadians, NUM_CAMERAS))
      ensures fresh(fbos) && fresh(targets)
    {
      windowSize := ViewInput.WindowSize(APP_WIDTH, APP_HEIGHT);
      sceneEye := Vec3(0.0, 0.0, 0.0);
      scenePerspective := Panorama.ScenePerspective();
      setTotalRadians := ToRadians(DEGREES);
      setRadius := 300.0;
      setHeight := 300.0;
      setAngle := 0.0;
      mousePrevX := windowWidth as real * 0.5;
      mouseDragPos := Point(0, 0);
      camDist := 500.0;
      eye := Vec3(0.0, 300.0 * 0.5, 500.0);
      center := Vec3(0.0, 300.0 * 0.5, 10.0);
      up := Vec3(0.0, 1.0, 0.0);
      targets := new Vec3[NUM_CAMERAS](_ => Vec3(0.0, 0.0, 0.0));
      fbos := new Panorama.Fbo[NUM_CAMERAS](_ => Panorama.Fbo(0, 0, Panorama.Rgb));
      panoFbo := Panorama.Fbo(0, 0, Panorama.Rgb);
      showCylinder := true;
      warp := false;
      new;
      SetupTargets(trig);
    }

    /**
     * setup's target loop: camAngle starts at 0 and grows by radiansDelta per camera, so camera
     * i gets the direction at angle i * radiansDelta and its own FBO_SIZE square target; the
     * composite target is NUM_CAMERAS targets wide.
     */
    method SetupTargets(trig: Trig)
      requires fbos.Length == NUM_CAMERAS && targets.Length == NUM_CAMERAS
      modifies fbos, targets, this`panoFbo
      ensures forall i :: 0 <= i < NUM_CAMERAS ==>
                fbos[i] == Panorama.CameraFbo(FBO_SIZE) &&
                targets[i] == Direction(trig, Panorama.CameraAngle(i, setTotalRadians, NUM_CAMERAS))
      ensures panoFbo == Panorama.PanoFbo(FBO_SIZE, NUM_CAMERAS)
    {
      var radiansDelta := setTotalRadians / NUM_CAMERAS as real;
      var camAngle := 0.0;
      var i := 0;
      while i < NUM_CAMERAS
        invariant 0 <= i <= NUM_CAMERAS
        invariant camAngle == Panorama.CameraAngle(i, setTotalRadians, NUM_CAMERAS)
        invariant forall k :: 0 <= k < i ==>
                    fbos[k] == Panorama.CameraFbo(FBO_SIZE) &&
                    targets[k] == Direction(trig, Panorama.CameraAngle(k, setTotalRadians, NUM_CAMERAS))
      {
        fbos[i] := Panorama.Fbo(FBO_SIZE, FBO_SIZE, Panorama.Rgb);
        targets[i] := Vec3(trig.cos(camAngle), 0.0, trig.sin(camAngle));
        Panorama.AnglesEvenlySpaced(i, setTotalRadians, NUM_CAMERAS);
        camAngle := camAngle + radiansDelta;
        i := i + 1;
      }
      panoFbo := Panorama.Fbo(FBO_SIZE * NUM_CAMERAS, FBO_SIZE, Panorama.Rgb);
    }

    /** keyDown: space toggles the display mode, 'w' the warp flag; other keys do nothing. */
    method KeyDown(c: char)
      requires Valid()
      modifies this`showCylinder, this`windowSize, this`warp
      ensures Valid()
      ensures View() == ViewInput.KeyDown(old(View()), c)
    {
      if c == ' ' {
        ToggleRender();
      } else if c == 'w' {
        warp := !warp;
      }
    }

    /** toggleRender: flip the display mode and request that mode's window size. */
    method ToggleRender()
      requires Valid()
      modifies this`showCylinder, this`windowSize
      ensures Valid()
      ensures View() == ViewInput.ToggleRender(old(View()))
    {
      showCylinder := !showCylinder;
      if showCylinder {
        windowSize := ViewInput.WindowSize(1280, 720);
      } else {
        windowSize := ViewInput.WindowSize(1500, 500);
      }
    }

    /** mouseDown: anchor the drag at the press position. */
    method MouseDown(pos: Point)
      requires Valid()
      modifies this`mousePrevX
      ensures Valid()
      ensures View() == ViewInput.MouseDown(old(View()), pos)
    {
      mousePrevX := pos.x as real;
    }

    /** mouseDrag: rotate by 0.004 per pixel moved since the anchor, then re-anchor. */
    method MouseDrag(pos: Point)
      requires Valid()
      modifies this`mouseDragPos, this`setAngle, this`mousePrevX
      ensures Valid()
      ensures View() == ViewInput.MouseDrag(old(View()), pos)
    {
      mouseDragPos := pos;
      setAngle := setAngle + (mouseDragPos.x as real - mousePrevX) * 0.004;
      mousePrevX := mouseDragPos.x as real;
    }

    /** mouseWheel: move the viewer by ten units per increment, kept within [0, 800]. */
    method MouseWheel(increment: real)
      requires Valid()
      modifies this`camDist
      ensures Valid()
      ensures View() == ViewInput.MouseWheel(old(View()), increment)
    {
      camDist := camDist + increment * 10.0;
      camDist := ViewInput.Constrain(camDist, 0.0, 800.0);
    }

    /** update: place the viewer camera from the current distance. */
    method Update()
      requires Valid()
      modifies this`eye, this`center
      ensures Valid()
      ensures eye == ViewerCamera.Eye(setHeight, camDist)
      ensures center == ViewerCamera.Center(setHeight, camDist)
    {
      eye := Vec3(0.0, setHeight * 0.5 + camDist * 0.4, camDist);
      center := Vec3(0.0, setHeight * 0.5 - camDist * 0.25, -camDist * 0.25 - 50.0);
    }

    /**
     * draw, after the scene capture: the composite pass of drawToPanoFbo and the final
     * presentation, for the current window size `window`. It changes no field.
     */
    method Draw(trig: Trig, window: ViewInput.WindowSize)
      returns (composite: seq<Panorama.DrawCall>, frame: Presentation.Frame)
      requires Valid()
      ensures |composite| == NUM_CAMERAS
      ensures forall i :: 0 <= i < NUM_CAMERAS ==>
                composite[i] == Panorama.DrawCall(i, Panorama.SlotRect(FBO_SIZE, i))
      ensures frame == Presentation.PlanFrame(trig, View(), setTotalRadians, setRadius, setHeight, window)
    {
      composite := Panorama.DrawToPanoFbo(FBO_SIZE, NUM_CAMERAS);
      var shader: Presentation.Option<Presentation.Uniforms> := Presentation.None;
      if warp {
        shader := Presentation.Some(Presentation.Uniforms(
          0, setTotalRadians, M_PI_2 / setTotalRadians, NUM_CAMERAS as real,
          1.0 / (NUM_CAMERAS as real * 2.0)));
      }
      if showCylinder {
        var strip := CylinderMesh.DrawCylinder(trig, setRadius, setHeight, setTotalRadians, setAngle);
        var backing := CylinderMesh.DrawCylinder(trig, setRadius + 0.5, setHeight, setTotalRadians, setAngle);
        frame := Presentation.CylinderFrame([
          Presentation.CylinderPass(strip, true, 1.0, shader),
          Presentation.CylinderPass(backing, false, 0.2, Presentation.None)]);
      } else {
        frame := Presentation.FlatFrame(
          Geometry.RectF(0.0, 0.0 - window.height as real * 0.2, window.width as real,
                         window.height as real * 1.2),
          shader);
      }
    }
  }
}
