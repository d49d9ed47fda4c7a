/** The needle mapping of updateNeedle (script.js:175-181). */
module Needle {
  import opened Numbers

  /** Cents beyond this magnitude pin the needle. */
  const DisplayRange: real := 50.0
  /** The needle's deflection at either end, in degrees. */
  const MaxAngle: real := 90.0

  /** displayCents: the cents clamped to [-50, 50]. */
  function DisplayCents(cents: real): real
  {
    Max(-DisplayRange, Min(DisplayRange, cents))
  }

  /** The needle's rotation in degrees: the clamped cents scaled by 90 / 50. */
  function NeedleAngle(cents: real): (angle: real)
    ensures -MaxAngle <= angle <= MaxAngle
    ensures -DisplayRange <= cents <= DisplayRange ==> angle == 1.8 * cents
    ensures cents >= DisplayRange ==> angle == MaxAngle
    ensures cents <= -DisplayRange ==> angle == -MaxAngle
  {
    DisplayCents(cents) * (MaxAngle / DisplayRange)
  }

  /** Sharper notes never move the needle left. */
  lemma NeedleAngleMonotone(x: real, y: real)
    requires x <= y
    ensures NeedleAngle(x) <= NeedleAngle(y)
  {
  }

  /** Flat and sharp by the same amount deflect the needle symmetrically. */
  lemma NeedleAngleSymmetric(x: real)
    ensures NeedleAngle(-x) == -NeedleAngle(x)
  {
  }
}
