/**
 * The `Camera` input handlers: a zoom scalar moved by ten percent of its
 * magnitude per scroll tick, and an angle set from the horizontal cursor
 * position while the left button is held.
 */
module CameraInput {

  /** The default arguments `ZOOM` and `ANGLE` of the constructor. */
  const ZOOM: real := 12.0
  const ANGLE: real := 0.0

  datatype Camera = Camera(zoom: real, angle: real)

  function Abs(x: real): (r: real)
    ensures r >= 0.0 && (r == x || r == -x)
  {
    if x < 0.0 then -x else x
  }

  /** `Camera::Camera(zoom, angle)`. */
  function NewCamera(zoom: real, angle: real): (c: Camera)
    ensures c.zoom == zoom && c.angle == angle
  {
    Camera(zoom, angle)
  }

  /** `Camera()`, with both default arguments. */
  function DefaultCamera(): (c: Camera)
    ensures c.zoom == 12.0 && c.angle == 0.0
  {
    NewCamera(ZOOM, ANGLE)
  }

  /** `Camera::processMouseMovement`: the angle is set, not accumulated, and only while the button is down. */
  function ProcessMouseMovement(c: Camera, xoffset: real, isLeftMouseButtonPressed: bool): (r: Camera)
    ensures r.zoom == c.zoom
    ensures isLeftMouseButtonPressed ==> r.angle * 200.0 == xoffset
    ensures !isLeftMouseButtonPressed ==> r == c
  {
    if isLeftMouseButtonPressed then c.(angle := xoffset / 200.0) else c
  }

  /** `Camera::processMouseScroll`: one tick up (`1`) or down (`-1`); any other offset is ignored. */
  function ProcessMouseScroll(c: Camera, yoffset: real): (r: Camera)
    ensures r.angle == c.angle
    ensures yoffset == 1.0 ==> r.zoom >= c.zoom
    ensures yoffset == -1.0 ==> r.zoom <= c.zoom
    ensures yoffset != 1.0 && yoffset != -1.0 ==> r == c
  {
    if yoffset == 1.0 then c.(zoom := c.zoom + Abs(c.zoom) * 0.1)
    else if yoffset == -1.0 then c.(zoom := c.zoom - Abs(c.zoom) * 0.1)
    else c
  }

  function Sign(x: real): int {
    if x > 0.0 then 1 else if x < 0.0 then -1 else 0
  }

  /**
   * Each tick scales the zoom by 1.1 or 0.9 (which one depends on its sign),
   * so its sign is kept and zero stays zero.
   */
  lemma ScrollScales(c: Camera, yoffset: real)
    ensures var z := ProcessMouseScroll(c, yoffset).zoom;
      && Sign(z) == Sign(c.zoom)
      && (c.zoom == 0.0 ==> z == 0.0)
      && (c.zoom > 0.0 && yoffset == 1.0 ==> z == 1.1 * c.zoom)
      && (c.zoom > 0.0 && yoffset == -1.0 ==> z == 0.9 * c.zoom)
      && (c.zoom < 0.0 && yoffset == 1.0 ==> z == 0.9 * c.zoom)
      && (c.zoom < 0.0 && yoffset == -1.0 ==> z == 1.1 * c.zoom)
  {
  }

  /** A run of scroll events, handled in order. */
  function ScrollAll(c: Camera, yoffsets: seq<real>): Camera
    decreases |yoffsets|
  {
    if yoffsets == [] then c else ScrollAll(ProcessMouseScroll(c, yoffsets[0]), yoffsets[1..])
  }

  /** No run of scroll events changes the sign of the zoom or the angle. */
  lemma {:induction false} ScrollAllKeepsSign(c: Camera, yoffsets: seq<real>)
    ensures Sign(ScrollAll(c, yoffsets).zoom) == Sign(c.zoom)
    ensures ScrollAll(c, yoffsets).angle == c.angle
    decreases |yoffsets|
  {
    if yoffsets != [] {
      ScrollScales(c, yoffsets[0]);
      ScrollAllKeepsSign(ProcessMouseScroll(c, yoffsets[0]), yoffsets[1..]);
    }
  }

  function Power(b: real, n: nat): real
    decreases n
  {
    if n == 0 then 1.0 else b * Power(b, n - 1)
  }

  function Repeat(y: real, n: nat): seq<real>
    decreases n
  {
    if n == 0 then [] else [y] + Repeat(y, n - 1)
  }

  /**
   * Zooming out `n` ticks from a positive zoom multiplies it by 0.9^n: the
   * zoom shrinks strictly with every tick and never reaches zero.
   */
  lemma {:induction false} ZoomOutApproachesZero(c: Camera, n: nat)
    requires c.zoom > 0.0
    ensures ScrollAll(c, Repeat(-1.0, n)).zoom == Power(0.9, n) * c.zoom
    ensures 0.0 < ScrollAll(c, Repeat(-1.0, n)).zoom
    ensures n > 0 ==> ScrollAll(c, Repeat(-1.0, n)).zoom < c.zoom
    decreases n
  {
    if n > 0 {
      var c1 := ProcessMouseScroll(c, -1.0);
      assert c1.zoom == 0.9 * c.zoom;
      assert Repeat(-1.0, n)[0] == -1.0 && Repeat(-1.0, n)[1..] == Repeat(-1.0, n - 1);
      ZoomOutApproachesZero(c1, n - 1);
      var z := ScrollAll(c1, Repeat(-1.0, n - 1)).zoom;
      assert z == Power(0.9, n - 1) * (0.9 * c.zoom);
      assert z == Power(0.9, n) * c.zoom;
      assert z <= c1.zoom;
    }
  }

  /** The angle follows the last cursor position seen with the button held, not their sum. */
  lemma MovementIsAbsolute(c: Camera, x1: real, x2: real)
    ensures ProcessMouseMovement(ProcessMouseMovement(c, x1, true), x2, true) == ProcessMouseMovement(c, x2, true)
  {
  }

  /** Moving the mouse never touches the zoom, and scrolling never the angle. */
  lemma InputsAreIndependent(c: Camera, x: real, pressed: bool, y: real)
    ensures ProcessMouseMovement(ProcessMouseScroll(c, y), x, pressed)
         == ProcessMouseScroll(ProcessMouseMovement(c, x, pressed), y)
  {
  }
}
