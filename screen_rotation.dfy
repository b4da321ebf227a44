/** The screen-rotation remap of the hub: a pure sign-and-permutation table that
    re-expresses the horizontal gravity pair and the horizontal gyroscope pair in
    screen-relative axes. Rotations are the integer codes Android's `Surface`
    reports; any other code takes the default branch, as ROTATION_0 does. */
module ScreenRotation {

  const ROTATION_0: int := 0
  const ROTATION_90: int := 1
  const ROTATION_180: int := 2
  const ROTATION_270: int := 3

  /** The two horizontal components of a sensor vector. */
  datatype Pair = Pair(x: real, y: real)

  function SquaredNorm(p: Pair): real {
    p.x * p.x + p.y * p.y
  }

  /** Remaps the corrected gravity pair (gravityX, gravityY). */
  function RemapAccel(rotation: int, g: Pair): Pair {
    if rotation == ROTATION_90 then Pair(g.y, -g.x)
    else if rotation == ROTATION_270 then Pair(-g.y, g.x)
    else if rotation == ROTATION_180 then Pair(-g.x, -g.y)
    else Pair(-g.x, -g.y)
  }

  /** Remaps the gyroscope pair (gyroData[0], gyroData[1]). */
  function RemapGyro(rotation: int, g: Pair): Pair {
    if rotation == ROTATION_90 then Pair(g.y, g.x)
    else if rotation == ROTATION_270 then Pair(-g.y, -g.x)
    else if rotation == ROTATION_180 then Pair(-g.x, -g.y)
    else Pair(-g.x, -g.y)
  }

  /** Every entry of the accelerometer table is a rotation of the plane and
      every entry of the gyroscope table a signed permutation, so both keep
      the length of the pair. */
  lemma RemapKeepsLength(rotation: int, g: Pair)
    ensures SquaredNorm(RemapAccel(rotation, g)) == SquaredNorm(g)
    ensures SquaredNorm(RemapGyro(rotation, g)) == SquaredNorm(g)
  {
  }

  /** The accelerometer remaps for 90 and 270 undo each other, and those for
      0 and 180 are their own inverses. */
  lemma AccelRemapRoundTrip(g: Pair)
    ensures RemapAccel(ROTATION_270, RemapAccel(ROTATION_90, g)) == g
    ensures RemapAccel(ROTATION_90, RemapAccel(ROTATION_270, g)) == g
    ensures RemapAccel(ROTATION_0, RemapAccel(ROTATION_0, g)) == g
    ensures RemapAccel(ROTATION_180, RemapAccel(ROTATION_180, g)) == g
  {
  }

  /** Every gyroscope remap is its own inverse. */
  lemma GyroRemapInvolution(rotation: int, g: Pair)
    ensures RemapGyro(rotation, RemapGyro(rotation, g)) == g
  {
  }

  /** ROTATION_180 and every code outside the four known ones behave as
      ROTATION_0 for both pairs. */
  lemma DefaultRotationIsZero(rotation: int, g: Pair)
    requires rotation != ROTATION_90 && rotation != ROTATION_270
    ensures RemapAccel(rotation, g) == RemapAccel(ROTATION_0, g) == Pair(-g.x, -g.y)
    ensures RemapGyro(rotation, g) == RemapGyro(ROTATION_0, g) == Pair(-g.x, -g.y)
  {
  }

  /** The quarter-turn remaps of the gravity pair are rotations by a right
      angle: applying 90 twice, or 270 twice, gives the 0 remap. */
  lemma QuarterTurnsCompose(g: Pair)
    ensures RemapAccel(ROTATION_90, RemapAccel(ROTATION_90, g)) == Pair(-g.x, -g.y)
    ensures RemapAccel(ROTATION_270, RemapAccel(ROTATION_270, g)) == Pair(-g.x, -g.y)
  {
  }
}
