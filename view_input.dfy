/**
 * The view-state machine driven by the app's event handlers: display mode with the
 * window size each mode requests, the warp flag, drag rotation and wheel distance.
 * Each handler is a pure transition on a ViewState value; the class in module App
 * keeps the same fields and is proved to follow these transitions.
 */
module ViewInput {
  import opened Geometry
  import opened AppConstants

  /** Radians of rotation per pixel of horizontal drag. */
  const DRAG_SCALE: real := 0.004
  /** Viewer distance per wheel increment. */
  const WHEEL_SCALE: real := 10.0
  /** The range the viewer distance is clamped to. */
  const MIN_CAM_DIST: real := 0.0
  const MAX_CAM_DIST: real := 800.0

  /** A window size in pixels: only the size the app requests is recorded. */
  datatype WindowSize = WindowSize(width: int, height: int)

  /** The window size toggleRender requests for each display mode. */
  function RequestedWindow(showCylinder: bool): (w: WindowSize)
    ensures showCylinder ==> w.width < w.height * 2
    ensures !showCylinder ==> w.width == w.height * 3
  {
    if showCylinder then WindowSize(1280, 720) else WindowSize(1500, 500)
  }

  datatype ViewState = ViewState(
    showCylinder: bool,   // cylinder mode when true, flat mode when false
    warp: bool,           // dewarp shader enabled
    setAngle: real,       // rotation offset of the cylinder, in radians
    mousePrevX: real,     // x of the last press or drag
    mouseDragPos: Point,  // position of the last drag
    camDist: real,        // viewer distance
    window: WindowSize)   // last requested window size

  /** What every handler keeps: the distance is in range and the window matches the mode. */
  predicate Valid(s: ViewState) {
    MIN_CAM_DIST <= s.camDist <= MAX_CAM_DIST && s.window == RequestedWindow(s.showCylinder)
  }

  /**
   * The view state after prepareSettings and setup: cylinder mode, no warp, no rotation,
   * distance 500, the drag anchor at the middle of a window `windowWidth` wide.
   */
  function Initial(windowWidth: int): (s: ViewState)
    ensures Valid(s)
    ensures s.showCylinder && !s.warp && s.setAngle == 0.0 && s.camDist == 500.0
    ensures 2.0 * s.mousePrevX == windowWidth as real
  {
    ViewState(true, false, 0.0, windowWidth as real * 0.5, Point(0, 0), 500.0,
              WindowSize(APP_WIDTH, APP_HEIGHT))
  }

  /** Cinder's constrain: `v` pulled into [lo, hi]. */
  function Constrain(v: real, lo: real, hi: real): (r: real)
    ensures lo <= hi ==> lo <= r <= hi
    ensures lo <= v <= hi ==> r == v
  {
    if v < lo then lo else if v > hi then hi else v
  }

  /** Constrain picks the point of [lo, hi] nearest to `v`. */
  lemma ConstrainNearest(v: real, lo: real, hi: real, y: real)
    requires lo <= y <= hi
    ensures var r := Constrain(v, lo, hi);
      (if r <= v then v - r else r - v) <= (if y <= v then v - y else y - v)
  {
  }

  /** Constraining twice is constraining once. */
  lemma ConstrainIdempotent(v: real, lo: real, hi: real)
    requires lo <= hi
    ensures Constrain(Constrain(v, lo, hi), lo, hi) == Constrain(v, lo, hi)
  {
  }

  /** toggleRender: flip the display mode and request that mode's window size. */
  function ToggleRender(s: ViewState): (r: ViewState)
    ensures r.showCylinder != s.showCylinder
    ensures r.window == RequestedWindow(r.showCylinder)
    ensures r == s.(showCylinder := r.showCylinder, window := r.window)
    ensures MIN_CAM_DIST <= s.camDist <= MAX_CAM_DIST ==> Valid(r)
  {
    var show := !s.showCylinder;
    s.(showCylinder := show, window := RequestedWindow(show))
  }

  /** keyDown: space toggles the display mode, 'w' toggles warp, other keys do nothing. */
  function KeyDown(s: ViewState, c: char): (r: ViewState)
    ensures Valid(s) ==> Valid(r)
    ensures c != ' ' && c != 'w' ==> r == s
  {
    if c == ' ' then ToggleRender(s)
    else if c == 'w' then s.(warp := !s.warp)
    else s
  }

  /** mouseDown: only the drag anchor moves to the press position. */
  function MouseDown(s: ViewState, pos: Point): (r: ViewState)
    ensures r.mousePrevX == pos.x as real
    ensures r == s.(mousePrevX := r.mousePrevX)
  {
    s.(mousePrevX := pos.x as real)
  }

  /** mouseDrag: rotate by the scaled horizontal move since the anchor, then re-anchor. */
  function MouseDrag(s: ViewState, pos: Point): (r: ViewState)
    ensures r.setAngle - s.setAngle == DRAG_SCALE * (pos.x as real - s.mousePrevX)
    ensures r.mousePrevX == pos.x as real && r.mouseDragPos == pos
    ensures r == s.(setAngle := r.setAngle, mousePrevX := r.mousePrevX, mouseDragPos := pos)
  {
    s.(mouseDragPos := pos,
       setAngle := s.setAngle + (pos.x as real - s.mousePrevX) * DRAG_SCALE,
       mousePrevX := pos.x as real)
  }

  /** mouseWheel: move the viewer by the scaled increment, clamped to [0, 800]. */
  function MouseWheel(s: ViewState, increment: real): (r: ViewState)
    ensures MIN_CAM_DIST <= r.camDist <= MAX_CAM_DIST
    ensures MIN_CAM_DIST <= s.camDist + increment * WHEEL_SCALE <= MAX_CAM_DIST ==>
              r.camDist == s.camDist + increment * WHEEL_SCALE
    ensures r == s.(camDist := r.camDist)
  {
    s.(camDist := Constrain(s.camDist + increment * WHEEL_SCALE, MIN_CAM_DIST, MAX_CAM_DIST))
  }

  /** From an in-range distance a zero increment changes nothing. */
  lemma WheelZeroIsIdentity(s: ViewState)
    requires Valid(s)
    ensures MouseWheel(s, 0.0) == s
  {
  }

  /** Toggling twice restores the mode; from a valid state it restores the whole state. */
  lemma ToggleRenderTwice(s: ViewState)
    ensures ToggleRender(ToggleRender(s)).showCylinder == s.showCylinder
    ensures ToggleRender(ToggleRender(s)).window == RequestedWindow(s.showCylinder)
    ensures Valid(s) ==> ToggleRender(ToggleRender(s)) == s
  {
  }

  /** Space changes exactly the mode and the requested window. */
  lemma SpaceFlipsOnlyMode(s: ViewState)
    ensures var r := KeyDown(s, ' ');
      r.showCylinder != s.showCylinder && r.window == RequestedWindow(r.showCylinder) &&
      r == s.(showCylinder := r.showCylinder, window := r.window)
  {
  }

  /** 'w' changes exactly the warp flag. */
  lemma WFlipsOnlyWarp(s: ViewState)
    ensures var r := KeyDown(s, 'w'); r.warp != s.warp && r == s.(warp := r.warp)
  {
  }

  /** Every key is an involution: pressing it twice leaves the state where it was. */
  lemma KeyDownTwice(s: ViewState, c: char)
    requires c == ' ' ==> s.window == RequestedWindow(s.showCylinder)
    ensures KeyDown(KeyDown(s, c), c) == s
  {
  }

  /** The positions of a drag sequence, applied one after another. */
  function DragThrough(s: ViewState, ps: seq<Point>): ViewState
    decreases |ps|
  {
    if ps == [] then s else DragThrough(MouseDrag(s, ps[0]), ps[1..])
  }

  /**
   * Drag deltas telescope: after any non-empty drag sequence the angle has moved by the
   * scaled distance from the anchor to the last position, and only the drag fields changed.
   */
  lemma {:induction false} DragTelescopes(s: ViewState, ps: seq<Point>)
    requires ps != []
    ensures var r := DragThrough(s, ps); var last := ps[|ps| - 1];
      r.setAngle == s.setAngle + DRAG_SCALE * (last.x as real - s.mousePrevX) &&
      r.mousePrevX == last.x as real &&
      r == s.(setAngle := r.setAngle, mousePrevX := r.mousePrevX, mouseDragPos := last)
    decreases |ps|
  {
    var t := MouseDrag(s, ps[0]);
    if |ps| > 1 {
      DragTelescopes(t, ps[1..]);
      assert ps[1..][|ps[1..]| - 1] == ps[|ps| - 1];
    }
  }

  /**
   * A press at `down` followed by drags: the total rotation is the scaled distance from the
   * press to the last drag position (no rotation if there was no drag).
   */
  lemma PressDragTelescopes(s: ViewState, down: Point, ps: seq<Point>)
    ensures var r := DragThrough(MouseDown(s, down), ps);
      r.setAngle == s.setAngle + (if ps == [] then 0.0
                                  else DRAG_SCALE * (ps[|ps| - 1].x as real - down.x as real))
  {
    if ps != [] {
      DragTelescopes(MouseDown(s, down), ps);
    }
  }

  /** Dragging back to the press column restores the rotation. */
  lemma DragBackRestoresAngle(s: ViewState, down: Point, ps: seq<Point>)
    requires ps != [] && ps[|ps| - 1].x == down.x
    ensures DragThrough(MouseDown(s, down), ps).setAngle == s.setAngle
  {
    PressDragTelescopes(s, down, ps);
  }

  /** The input events the handlers receive. */
  datatype Event =
    | KeyDownEvent(c: char)
    | MouseDownEvent(pos: Point)
    | MouseDragEvent(pos: Point)
    | MouseWheelEvent(increment: real)

  function Step(s: ViewState, e: Event): (r: ViewState)
    ensures Valid(s) ==> Valid(r)
  {
    match e
    case KeyDownEvent(c) => KeyDown(s, c)
    case MouseDownEvent(pos) => MouseDown(s, pos)
    case MouseDragEvent(pos) => MouseDrag(s, pos)
    case MouseWheelEvent(inc) => MouseWheel(s, inc)
  }

  function Run(s: ViewState, es: seq<Event>): ViewState
    decreases |es|
  {
    if es == [] then s else Run(Step(s, es[0]), es[1..])
  }

  /** No event sequence takes the distance out of [0, 800] or the window out of step with the mode. */
  lemma {:induction false} RunPreservesValid(s: ViewState, es: seq<Event>)
    requires Valid(s)
    ensures Valid(Run(s, es))
    decreases |es|
  {
    if es != [] {
      RunPreservesValid(Step(s, es[0]), es[1..]);
    }
  }

  /** A wheel event as the last event puts the distance in range whatever came before. */
  lemma {:induction false} LastWheelInRange(s: ViewState, es: seq<Event>, inc: real)
    ensures var r := Run(s, es + [MouseWheelEvent(inc)]);
      MIN_CAM_DIST <= r.camDist <= MAX_CAM_DIST
    decreases |es|
  {
    if es == [] {
      assert es + [MouseWheelEvent(inc)] == [MouseWheelEvent(inc)];
    } else {
      assert (es + [MouseWheelEvent(inc)])[1..] == es[1..] + [MouseWheelEvent(inc)];
      LastWheelInRange(Step(s, es[0]), es[1..], inc);
    }
  }
}
