/**
 * The bike record and the four clamped movement steps that the bike's
 * movement intervals run. The horizontal position `left` moves in steps of
 * 0.5 between 0 and 90; it is kept here in half-units, so `leftHalves` runs
 * over 0..180 and `left = leftHalves / 2` is always on the 0.5 grid.
 */
module BikeMotion {

  const MaxAltitude: int := 90
  /** 90, the largest `left`, in half-units. */
  const MaxLeftHalves: int := 180

  datatype Bike = Bike(
    altitude: int,
    leftHalves: int,
    movingUp: bool,
    movingDown: bool,
    movingRight: bool,
    movingLeft: bool)

  /** The bike that the controller and restart start from. */
  const DefaultBike: Bike := Bike(0, 0, false, false, false, false)

  /** `left` as the controller stores it. */
  function LeftPosition(b: Bike): (left: real)
    ensures 0 <= b.leftHalves <= MaxLeftHalves ==> 0.0 <= left <= 90.0
    ensures left * 2.0 == b.leftHalves as real
  {
    b.leftHalves as real / 2.0
  }

  /** moveBikeUp: one unit up unless already at the top. */
  function StepUp(altitude: int): (a: int)
    ensures 0 <= altitude <= MaxAltitude ==> 0 <= a <= MaxAltitude
    ensures a - altitude == (if altitude == MaxAltitude then 0 else 1)
  {
    if altitude != MaxAltitude then altitude + 1 else altitude
  }

  /** moveBikeDown: one unit down unless already on the ground. */
  function StepDown(altitude: int): (a: int)
    ensures 0 <= altitude <= MaxAltitude ==> 0 <= a <= MaxAltitude
    ensures altitude - a == (if altitude == 0 then 0 else 1)
  {
    if altitude != 0 then altitude - 1 else altitude
  }

  /** moveBikeRight: half a unit right unless already at 90. */
  function StepRight(leftHalves: int): (h: int)
    ensures 0 <= leftHalves <= MaxLeftHalves ==> 0 <= h <= MaxLeftHalves
    ensures h - leftHalves == (if leftHalves == MaxLeftHalves then 0 else 1)
  {
    if leftHalves != MaxLeftHalves then leftHalves + 1 else leftHalves
  }

  /** moveBikeLeft: half a unit left unless already at 0. */
  function StepLeft(leftHalves: int): (h: int)
    ensures 0 <= leftHalves <= MaxLeftHalves ==> 0 <= h <= MaxLeftHalves
    ensures leftHalves - h == (if leftHalves == 0 then 0 else 1)
  {
    if leftHalves != 0 then leftHalves - 1 else leftHalves
  }

  /** Up and Down undo each other away from the clamps. */
  lemma UpDownInverse(altitude: int)
    requires 0 < altitude < MaxAltitude
    ensures StepDown(StepUp(altitude)) == altitude && StepUp(StepDown(altitude)) == altitude
  {
  }
}
