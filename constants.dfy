/** The application's fixed startup constants and the two math-library constants it uses. */
module AppConstants {

  /** Side, in pixels, of each camera's square off-screen target. */
  const FBO_SIZE: nat := 1920
  /** Window size requested before the window opens. */
  const APP_WIDTH: int := 1280
  const APP_HEIGHT: int := 720
  /** Total horizontal field of view covered by the camera ring, in degrees. */
  const DEGREES: real := 270.0
  const NUM_CAMERAS: nat := 3

  /** The decimal literals that <math.h> defines for pi and pi/2. */
  const M_PI: real := 3.14159265358979323846
  const M_PI_2: real := 1.57079632679489661923

  /** Degrees to radians, taken as its mathematical meaning. */
  function ToRadians(degrees: real): (r: real)
    ensures r * 180.0 == degrees * M_PI
  {
    degrees * M_PI / 180.0
  }

  /** The two library constants agree exactly: M_PI_2 is half of M_PI. */
  lemma HalfPi()
    ensures 2.0 * M_PI_2 == M_PI
  {
  }

  /** Converting a share of an angle is the share of the converted angle. */
  lemma ToRadiansShare(degrees: real, n: nat)
    requires n > 0
    ensures ToRadians(degrees / n as real) == ToRadians(degrees) / n as real
  {
  }

  /** The ring spans three quarter turns: 270 degrees is three times pi/2. */
  lemma TotalRadians()
    ensures ToRadians(DEGREES) == 3.0 * M_PI_2
  {
  }
}
