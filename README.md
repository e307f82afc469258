# CylinderProjection: a verified model of the panorama rig and its view state

The application renders one scene through a ring of `NUM_CAMERAS = 3` cameras that share an
eye point and differ in heading by `totalRadians / 3`. It captures each camera into its own
`1920 x 1920` off-screen target (FBO) and pastes the three captures side by side into a
`5760 x 1920` panorama target. It then shows that panorama either wrapped round a cylinder
or stretched flat, optionally through a dewarp shader.

This project models the state and the arithmetic underneath the rendering:

- **View-state machine** (`ViewInput`, class `App.CylindricalApp`). The handlers `keyDown`,
  `toggleRender`, `mouseDown`, `mouseDrag` and `mouseWheel` are pure transitions on a
  `ViewState` value. The class keeps the same fields. Each handler method is proved to move
  them exactly as its transition does, and its `modifies` clause names the only fields it
  may change. The lemmas prove these facts:
  - the two toggles are involutions;
  - any other key is inert;
  - the wheel clamp keeps the distance in `[0, 800]`;
  - drag deltas telescope;
  - no event sequence breaks the invariant "distance in range, requested window matches the
    display mode".
- **Camera partition and panorama layout** (`Panorama`).
  - The setup loop accumulates `camAngle` and is proved to give camera `i` the angle
    `i * radiansDelta`.
  - The cameras' fields of view tile the ring: each direction is seen by exactly one camera,
    and adjacent edges coincide.
  - The slot rectangles of `drawToPanoFbo` tile the composite target: each pixel is painted
    by exactly one camera, camera `x / 1920`.
- **Derived geometry** (`CylinderMesh`, `ViewerCamera`, `Presentation`).
  - The 146-vertex triangle strip of `drawCylinder` is proved to have these texture
    coordinates and angles: `u` rises from 0 to 1, `v` is 0.25 on the bottom edge and 0.75
    on the top, and the angle runs over the span from `0.75 pi + setAngle`.
  - The eye and centre of the viewer camera are proved to give a tilt-down that grows with
    distance.
  - The warp uniforms are proved to agree with the camera partition and to be the same in
    both display modes.

Modelling choices:

- `float` is modelled as `real`, and integers are unbounded. The values involved are small
  whole numbers or exact ratios, so no wrap-around arises.
- `cos` and `sin` are left uninterpreted. They are passed as a `Trig` value holding any two
  functions.
- `M_PI` and `M_PI_2` are the decimal literals `<math.h>` gives them. Cinder's `toRadians` is
  taken as `degrees * M_PI / 180`.
- Mouse positions are whole pixels, because Cinder's `getPos()` returns integer coordinates.
- Clocks, the window system and the GPU do not appear. The window width at setup and the
  current window size in `draw` are parameters.

Two observations on the code:

- The scene camera gets a vertical field of view of `DEGREES / NUM_CAMERAS` with aspect 1. It
  is the square aspect that makes the horizontal field equal the angular step (`SeamsCoincide`).
- `setup` places the viewer eye at `(0, 150, 500)`, looking at `(0, 150, 10)`. The `update`
  formula at distance 500 gives a different eye, `(0, 350, 500)`. `update` overwrites both
  before the first frame is drawn.

## Model

| member | source | states |
|---|---|---|
| AppConstants.ToRadians | src/CylindricalApp.cpp:86 | the result times 180 is the degrees times pi |
| AppConstants.HalfPi | src/CylindricalApp.cpp:241 | the M_PI_2 literal is exactly half the M_PI literal |
| AppConstants.ToRadiansShare | src/CylindricalApp.cpp:81-86 | converting DEGREES / N to radians equals converting DEGREES and dividing by N |
| AppConstants.TotalRadians | src/CylindricalApp.cpp:86 | the ring's span, 270 degrees, is 3 * pi/2 radians |
| Geometry.Direction | src/CylindricalApp.cpp:122 | a camera target vector is horizontal (its y is 0) |
| Geometry.RimPoint | src/CylindricalApp.cpp:281-283 | a strip vertex sits at the given height on the circle of the given radius |
| ViewInput.RequestedWindow | src/CylindricalApp.cpp:355-363 | cylinder mode requests 1280x720 (taller), flat mode requests 1500x500 (three times as wide as high) |
| ViewInput.Initial | src/CylindricalApp.cpp:74-92 | the state after prepareSettings and setup is valid: cylinder mode, no warp, no rotation, distance 500, anchor at half the window width |
| ViewInput.Constrain | src/CylindricalApp.cpp:155 | the result lies in [lo, hi] and equals v when v is already in range |
| ViewInput.ConstrainNearest | src/CylindricalApp.cpp:155 | the clamped value is the point of [lo, hi] nearest to v |
| ViewInput.ConstrainIdempotent | src/CylindricalApp.cpp:155 | clamping twice is clamping once |
| ViewInput.ToggleRender | src/CylindricalApp.cpp:355-363 | the mode flips, the requested window matches the new mode, nothing else changes, and validity is kept |
| ViewInput.KeyDown | src/CylindricalApp.cpp:131-138 | validity is kept; a key other than space or 'w' changes nothing |
| ViewInput.MouseDown | src/CylindricalApp.cpp:140-143 | only the drag anchor changes, and it becomes the press x |
| ViewInput.MouseDrag | src/CylindricalApp.cpp:145-150 | the angle grows by 0.004 times (x - anchor); the anchor and drag position become the new position; nothing else changes |
| ViewInput.MouseWheel | src/CylindricalApp.cpp:152-156 | the distance ends in [0, 800] for any increment; it is old + 10 * increment when that is in range; nothing else changes |
| ViewInput.WheelZeroIsIdentity | src/CylindricalApp.cpp:152-156 | from a valid state a zero wheel increment changes nothing |
| ViewInput.ToggleRenderTwice | src/CylindricalApp.cpp:355-363 | two toggles restore the mode and request the original mode's window; from a valid state they restore the whole state |
| ViewInput.SpaceFlipsOnlyMode | src/CylindricalApp.cpp:133-134 | space flips the mode, requests that mode's window, and changes no other field |
| ViewInput.WFlipsOnlyWarp | src/CylindricalApp.cpp:135-136 | 'w' flips the warp flag and changes no other field |
| ViewInput.KeyDownTwice | src/CylindricalApp.cpp:131-138 | pressing any key twice restores the state (for space, when the window matches the mode) |
| ViewInput.DragTelescopes | src/CylindricalApp.cpp:145-150 | over any non-empty drag sequence the angle grows by 0.004 * (last x - starting anchor); only the drag fields change |
| ViewInput.PressDragTelescopes | src/CylindricalApp.cpp:140-150 | a press at x0 and then drags rotate by 0.004 * (last x - x0) in total, or by nothing if there is no drag |
| ViewInput.DragBackRestoresAngle | src/CylindricalApp.cpp:140-150 | dragging back to the press column restores the rotation |
| ViewInput.Step | src/CylindricalApp.cpp:131-156 | each of the four handlers keeps the view-state invariant |
| ViewInput.RunPreservesValid | src/CylindricalApp.cpp:131-156 | any sequence of events keeps the distance in [0, 800] and the requested window in step with the mode |
| ViewInput.LastWheelInRange | src/CylindricalApp.cpp:152-156 | after any events that end with a wheel event, the distance is in [0, 800], whatever the state before |
| Panorama.ScenePerspective | src/CylindricalApp.cpp:81-83 | the scene camera has a square aspect and a vertical field of view that times NUM_CAMERAS gives DEGREES |
| Panorama.CameraStep | src/CylindricalApp.cpp:116 | one step times the camera count is the total span |
| Panorama.AnglesEvenlySpaced | src/CylindricalApp.cpp:116-124 | adjacent camera angles differ by radiansDelta; camera 0 is at 0; count steps reach the total span |
| Panorama.SeamsCoincide | src/CylindricalApp.cpp:81-116 | each camera's field of view in radians equals radiansDelta, so camera i's right edge is camera i+1's left edge |
| Panorama.AppCameraAngles | src/CylindricalApp.cpp:116-124 | the app's cameras look at 0, pi/2 and pi |
| Panorama.FieldsOfViewTile | src/CylindricalApp.cpp:116-124 | every direction in [-step/2, total - step/2) lies in the field of view of exactly one camera, which has index in [0, count) |
| Panorama.CameraFbo | src/CylindricalApp.cpp:121 | each camera target is FBO_SIZE square |
| Panorama.PanoFbo | src/CylindricalApp.cpp:125 | the composite target is size * count wide and size high |
| Panorama.SlotRect | src/CylindricalApp.cpp:200 | a slot is exactly one target wide and spans the full height [0, size] |
| Panorama.SlotsAdjacent | src/CylindricalApp.cpp:200 | the end of slot i is the start of slot i+1 |
| Panorama.SlotsInsidePanorama | src/CylindricalApp.cpp:197-201 | each slot of cameras 0..count-1 lies inside the composite target, matches a camera target's size, and spans the composite target's height |
| Panorama.SlotsTile | src/CylindricalApp.cpp:197-201 | a pixel of the composite target lies in slot i exactly when i == x / size; no slot pixel lies outside the target |
| Panorama.DrawToPanoFbo | src/CylindricalApp.cpp:188-206 | one draw per camera, in order, into its slot; every pixel of the composite target is painted by exactly one draw, that of camera x / size |
| CylinderMesh.CylinderStrip | src/CylindricalApp.cpp:273-286 | the strip has 2 * (72 + 1) vertices |
| CylinderMesh.DrawCylinder | src/CylindricalApp.cpp:273-286 | the loop emits exactly the strip: the bottom then the top vertex of rungs 0..72 |
| CylinderMesh.StripTexCoords | src/CylindricalApp.cpp:278-283 | vertex k has u = (k/2)/72 in [0, 1]; even vertices have v = 0.25 and y = 0; odd ones have v = 0.75 and y = height |
| CylinderMesh.StripUMonotone | src/CylindricalApp.cpp:277-280 | u never decreases along the strip, starts at 0 and ends at 1 |
| CylinderMesh.StripAngles | src/CylindricalApp.cpp:277-283 | both vertices of a rung are at its angle; rung angles step by span/72 from 0.75 pi + setAngle to that plus the span |
| ViewerCamera.Eye | src/CylindricalApp.cpp:162 | the eye is in the plane x = 0, at depth d |
| ViewerCamera.Center | src/CylindricalApp.cpp:163 | the look-at point is in the plane x = 0, in front of the axis (z < 0) for d >= 0 |
| ViewerCamera.LooksDown | src/CylindricalApp.cpp:162-163 | for d >= 0 the eye is 0.65 d above the look-at point (level only at d = 0), and 1.25 d + 50 behind it |
| ViewerCamera.TiltGrows | src/CylindricalApp.cpp:162-163 | the slope of the view line grows strictly with the distance |
| Presentation.WarpUniforms | src/CylindricalApp.cpp:239-243 | panoTex 0, radians the span, radiansOffset * radians = pi/2, invNumCamsHalf * 2 * numCameras = 1 |
| Presentation.WarpMatchesPartition | src/CylindricalApp.cpp:240-243 | invNumCamsHalf times the span is half a camera step, and radiansOffset is (pi/2) / span |
| Presentation.AppWarpUniforms | src/CylindricalApp.cpp:240-243 | with the app's constants the uniforms are 1.5 pi, 1/3, 3 and 1/6 |
| Presentation.ShaderFor | src/CylindricalApp.cpp:237-244 | the shader is bound exactly when warp is on |
| Presentation.FlatRect | src/CylindricalApp.cpp:266 | the flat rectangle is the window's width and 1.4 times its height, centred on it, with 0.2 of the height added above and below |
| Presentation.PlanFrame | src/CylindricalApp.cpp:234-270 | the frame is a cylinder frame exactly in cylinder mode |
| Presentation.ShaderSameInBothModes | src/CylindricalApp.cpp:234-270 | both modes draw the panorama through the same uniforms, exactly when warp is on; in cylinder mode the textured pass is followed by an untextured backing pass with no shader |
| App.CylindricalApp.constructor | src/CylindricalApp.cpp:74-129 | after prepareSettings and setup the object is valid, with the initial view state, eye and centre; camera i's target is the direction at i * radiansDelta |
| App.CylindricalApp.SetupTargets | src/CylindricalApp.cpp:115-125 | the loop gives camera i a square FBO_SIZE target and the direction at i * radiansDelta; the composite target is NUM_CAMERAS wide |
| App.CylindricalApp.KeyDown | src/CylindricalApp.cpp:131-138 | the view fields move as ViewInput.KeyDown says; only the mode, window and warp fields may change |
| App.CylindricalApp.ToggleRender | src/CylindricalApp.cpp:355-363 | the view fields move as ViewInput.ToggleRender says; only the mode and window fields change |
| App.CylindricalApp.MouseDown | src/CylindricalApp.cpp:140-143 | only the anchor changes, as ViewInput.MouseDown says |
| App.CylindricalApp.MouseDrag | src/CylindricalApp.cpp:145-150 | only the drag position, angle and anchor change, as ViewInput.MouseDrag says |
| App.CylindricalApp.MouseWheel | src/CylindricalApp.cpp:152-156 | only the distance changes, as ViewInput.MouseWheel says; the invariant is kept |
| App.CylindricalApp.Update | src/CylindricalApp.cpp:158-165 | only the viewer eye and centre change; they become ViewerCamera.Eye and Center at the current distance |
| App.CylindricalApp.Draw | src/CylindricalApp.cpp:208-271 | no field changes; the composite pass draws camera i into slot i; the presentation is PlanFrame of the current state |

## Left out

- OpenGL and Cinder effects are not modelled: FBO bind and unbind, matrices, viewport,
  clears, colours as GL state, texture binding, alpha and depth enables. They are library
  calls whose effects are not visible here. Only the values they are given are modelled:
  rectangles, vertices, uniforms and grey levels.
- Shader and texture loading, and the compile-error path that quits, are not modelled
  (src/CylindricalApp.cpp:100-113). They are I/O through an unseen library.
- `drawBox` (src/CylindricalApp.cpp:289-353) is left out. It is a fixed decorative vertex
  list.
- `drawScene` (src/CylindricalApp.cpp:167-185) is left out. Its only computed value is each
  camera's centre of interest, `sceneEye + targets[i]`, which is passed to the camera library.
- `resize` and the viewer camera's `setPerspective` are left out
  (src/CylindricalApp.cpp:69-72, 96). So are the `lookAt` and `setCenterOfInterestPoint`
  calls (84, 97, 160, 164, 175). They are camera-library internals. The scene camera's
  perspective parameters are recorded as values.
- The `setWindowSize` effect is not modelled. Only the requested size is kept.
- IEEE float rounding is not modelled. In particular `0.004f` and `0.2f`/`1.2f` are taken as
  exact decimals, and the even spacing and round trips hold over the reals.
- `mMouseXDelta` is left out: it is declared but never used.
- App.CylindricalApp.constructor: the direction vectors hold the uninterpreted `cos`/`sin`
  values. Which way the ring turns on screen, and hence that slot order matches heading
  order, depends on the real trigonometry and is not proved.
- Cinder's per-frame driver (calling `update` and then `draw`) is not modelled. `Update` and
  `Draw` are separate methods.
