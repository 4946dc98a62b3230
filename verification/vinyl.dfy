/**
 * The vinyl disc sliding out of the sleeve. The reveal setting, a value in
 * [0, 1], moves the disc linearly along x from its tucked-in position to
 * its exposed one and tilts it by up to five degrees.
 */
module Vinyl {

  const SleeveThickness: real := 0.006
  /** Distance of the artwork panes from the sleeve's middle plane. */
  const PlaneOffset: real := SleeveThickness / 2.0 + 0.0004

  /** Tucked inside the sleeve. */
  const VinylBaseX: real := 0.0
  /** Fully out, to the right. */
  const VinylExitX: real := 0.5
  /** The tilt at full reveal, in degrees. */
  const MaxTiltDegrees: real := 5.0

  /** Where the disc sits for a reveal value. */
  function RevealX(amount: real): (x: real)
    ensures amount == 0.0 ==> x == VinylBaseX
    ensures amount == 1.0 ==> x == VinylExitX
    ensures 0.0 <= amount <= 1.0 ==> VinylBaseX <= x <= VinylExitX
  {
    VinylBaseX + amount * (VinylExitX - VinylBaseX)
  }

  /** How far the disc is tilted for a reveal value, in degrees. */
  function RevealTilt(amount: real): (degrees: real)
    ensures amount == 0.0 ==> degrees == 0.0
    ensures amount == 1.0 ==> degrees == MaxTiltDegrees
    ensures 0.0 <= amount <= 1.0 ==> 0.0 <= degrees <= MaxTiltDegrees
  {
    MaxTiltDegrees * amount
  }

  /**
   * The tilt follows the slide: it is the fraction of the full slide the
   * disc has travelled, times the tilt at full reveal.
   */
  lemma {:induction false} RevealTiltFollowsSlide(amount: real)
    ensures RevealTilt(amount) == MaxTiltDegrees * (RevealX(amount) - VinylBaseX) / (VinylExitX - VinylBaseX)
  {
    assert RevealX(amount) - VinylBaseX == amount * (VinylExitX - VinylBaseX);
  }

  /** The reveal value a disc position stands for: the inverse of RevealX. */
  function RevealAt(x: real): (amount: real)
    ensures x == VinylBaseX ==> amount == 0.0
    ensures x == VinylExitX ==> amount == 1.0
  {
    (x - VinylBaseX) / (VinylExitX - VinylBaseX)
  }

  /** Sliding further out always moves the disc further right. */
  lemma RevealStrictlyIncreasing(a: real, b: real)
    requires a < b
    ensures RevealX(a) < RevealX(b)
    ensures RevealTilt(a) < RevealTilt(b)
  {
  }

  /** The disc position determines the reveal value, and back. */
  lemma RevealRoundTrip(amount: real, x: real)
    ensures RevealAt(RevealX(amount)) == amount
    ensures RevealX(RevealAt(x)) == x
  {
  }

  /** The disc mesh's position and its rotation about z (kept in degrees). */
  class VinylDisc {
    var x: real
    var y: real
    var z: real
    var tiltDegrees: real

    /** The disc starts tucked in, just behind the back pane. */
    constructor ()
      ensures x == VinylBaseX && y == 0.0 && z == -PlaneOffset + 0.0002
      ensures tiltDegrees == 0.0
    {
      x, y, z := VinylBaseX, 0.0, -PlaneOffset + 0.0002;
      tiltDegrees := 0.0;
    }

    /** Moves and tilts the disc for a reveal value; y and z stay. */
    method UpdateVinylReveal(value: real)
      modifies this
      ensures x == RevealX(value) && tiltDegrees == RevealTilt(value)
      ensures RevealAt(x) == value
      ensures y == old(y) && z == old(z)
    {
      var maxSlide := VinylExitX - VinylBaseX;
      x := VinylBaseX + value * maxSlide;
      tiltDegrees := MaxTiltDegrees * value;
      RevealRoundTrip(value, x);
    }
  }
}
