/** The integer-degree geometry of an audio bin: the bearing at which a listening
    robot hears a tone and the rounding helper kept beside it.
    `atan` and `sqrt` belong to the C library; the arctangent enters as a value
    of the range the library guarantees, already computed from ydiff/xdiff. */
module Bearing {
  import opened CArith

  /** The constant the source uses for pi. */
  const PI_APPROX: real := 3.141592

  /** What `atan` can return: a double inside (-pi/2, pi/2), widened to a
      rational bound just above pi/2. */
  type ArctanRadians = r: real | -1.5708 < r < 1.5708 witness 0.0

  /** radiansToDegrees: `(int)(180 * rads / 3.141592)`, truncated toward zero. */
  function RadiansToDegrees(rads: real): (degs: int)
    ensures rads >= 0.0 ==> 0 <= degs && degs as real <= 180.0 * rads / PI_APPROX < degs as real + 1.0
    ensures rads < 0.0 ==> degs as real - 1.0 < 180.0 * rads / PI_APPROX <= degs as real && degs <= 0
  {
    Trunc(180.0 * rads / PI_APPROX)
  }

  /** An arctangent converted to degrees is a whole angle in [-90, 90]. */
  lemma ArctanDegreesInRange(a: ArctanRadians)
    ensures -90 <= RadiansToDegrees(a) <= 90
  {
    var d := 180.0 * a / PI_APPROX;
    assert d < 90.01 by {
      assert 180.0 * a < 180.0 * 1.5708;
    }
    assert d > -90.01 by {
      assert 180.0 * a > 180.0 * -1.5708;
    }
  }

  /** The receiver's yaw in degrees folded into [0, 360): `((deg % 360) + 360) % 360`
      with C's truncating remainder. */
  function NormaliseYaw(deg: int): (yaw: int)
    ensures 0 <= yaw < 360
  {
    CRem(CRem(deg, 360) + 360, 360)
  }

  /** Folding the yaw is the mathematical residue of the angle modulo 360. */
  lemma NormaliseYawIsResidue(deg: int)
    ensures NormaliseYaw(deg) == deg % 360
  {
    var r := CRem(deg, 360);
    assert r % 360 == deg % 360;
    CRemOfNonNegative(r + 360, 360);
    assert (r + 360) % 360 == r % 360;
  }

  /** The bearing of the source seen from the x axis, before the receiver's yaw
      is taken off: in [0, 360). */
  function BearingFromXAxis(xdiff: real, atanRatio: ArctanRadians): (b: int)
    ensures 0 <= b < 360
  {
    ArctanDegreesInRange(atanRatio);
    CRem(RadiansToDegrees(atanRatio) + (if xdiff < 0.0 then 180 else 360), 360)
  }

  /** convertDifferentialCoordsIntoBearing: the bearing, in whole degrees
      anticlockwise from the receiver's heading, of a source at offset
      (xdiff, ydiff); 0 when the receiver sits on the source.
      `atanRatio` is `atan(ydiff / xdiff)` as the C library computes it. */
  function BearingOf(xdiff: real, ydiff: real, receiverYaw: real, atanRatio: ArctanRadians): (b: int)
    ensures 0 <= b < 360
    ensures xdiff == 0.0 && ydiff == 0.0 ==> b == 0
  {
    var yaw := NormaliseYaw(RadiansToDegrees(receiverYaw));
    if xdiff == 0.0 && ydiff == 0.0 then 0
    else CRem(360 - yaw + BearingFromXAxis(xdiff, atanRatio), 360)
  }

  /** Away from the source, the bearing is the direction of the source (the
      arctangent, turned by a half turn when the source lies at negative x)
      minus the receiver's heading, taken modulo 360. */
  lemma BearingIsDirectionMinusHeading(xdiff: real, ydiff: real, receiverYaw: real, atanRatio: ArctanRadians)
    requires xdiff != 0.0 || ydiff != 0.0
    ensures BearingOf(xdiff, ydiff, receiverYaw, atanRatio)
         == (RadiansToDegrees(atanRatio) + (if xdiff < 0.0 then 180 else 0) - RadiansToDegrees(receiverYaw)) % 360
  {
    var heading := RadiansToDegrees(receiverYaw);
    var source := RadiansToDegrees(atanRatio) + (if xdiff < 0.0 then 180 else 0);
    var yaw := NormaliseYaw(heading);
    NormaliseYawIsResidue(heading);
    var wrtX := BearingFromXAxis(xdiff, atanRatio);
    ArctanDegreesInRange(atanRatio);
    CRemOfNonNegative(source + 360, 360);
    assert wrtX == (source + 360) % 360;
    CRemOfNonNegative(360 - yaw + wrtX, 360);
    SubtractResidues(source, heading);
  }

  /** Residues modulo 360 may stand for the angles themselves in a difference
      taken modulo 360. */
  lemma SubtractResidues(a: int, c: int)
    ensures (360 - c % 360 + (a + 360) % 360) % 360 == (a - c) % 360
  {
    var qa := (a + 360) / 360;
    var qc := c / 360;
    var d := a - c;
    var lhs := 360 - c % 360 + (a + 360) % 360;
    assert lhs == d + 360 * (2 - qa + qc);
    assert (d + 360 * (2 - qa + qc)) % 360 == d % 360 by {
      var qd := d / 360;
      assert d + 360 * (2 - qa + qc) == 360 * (qd + 2 - qa + qc) + d % 360;
    }
  }

  /** roundToNearest: the multiple of `resolution` nearest to `input`, found as
      two truncated quotients; ties go to the lower one. */
  function RoundToNearest(input: real, resolution: real): real
    requires resolution != 0.0
  {
    var lower := Trunc(input / resolution) as real * resolution;
    var upper := Trunc((input + resolution) / resolution) as real * resolution;
    if input - lower > upper - input then upper else lower
  }

  /** The largest multiple of a positive `resolution` at or below `input`. */
  function LowerMultiple(input: real, resolution: real): (m: real)
    requires resolution > 0.0
  {
    (input / resolution).Floor as real * resolution
  }

  /** For a non-negative input and positive resolution the result is the
      multiple of `resolution` just below (or at) the input or the one just
      above it, the upper one exactly when it is strictly closer; so the
      result is never farther than half a resolution from the input. */
  lemma RoundToNearestPicksCloser(input: real, resolution: real)
    requires input >= 0.0 && resolution > 0.0
    ensures LowerMultiple(input, resolution) <= input < LowerMultiple(input, resolution) + resolution
    ensures RoundToNearest(input, resolution) == LowerMultiple(input, resolution) + resolution
            <==> input - LowerMultiple(input, resolution) > LowerMultiple(input, resolution) + resolution - input
    ensures RoundToNearest(input, resolution) == LowerMultiple(input, resolution)
            <==> input - LowerMultiple(input, resolution) <= LowerMultiple(input, resolution) + resolution - input
    ensures -resolution / 2.0 <= RoundToNearest(input, resolution) - input < resolution / 2.0
  {
    var lower := LowerMultiple(input, resolution);
    RoundingBracket(input, resolution);
    RoundingChoice(input, resolution, lower);
    var r := RoundToNearest(input, resolution);
    if input - lower > lower + resolution - input {
      assert r == lower + resolution && lower + resolution - input < resolution / 2.0;
    } else {
      assert r == lower && input - lower <= resolution / 2.0;
    }
  }

  /** The two truncated quotients of roundToNearest name the multiples of
      `resolution` on either side of a non-negative input. */
  lemma RoundingBracket(input: real, resolution: real)
    requires input >= 0.0 && resolution > 0.0
    ensures LowerMultiple(input, resolution) <= input < LowerMultiple(input, resolution) + resolution
    ensures Trunc(input / resolution) as real * resolution == LowerMultiple(input, resolution)
    ensures Trunc((input + resolution) / resolution) as real * resolution == LowerMultiple(input, resolution) + resolution
  {
    var q := input / resolution;
    var k := q.Floor;
    assert q * resolution == input;
    assert q >= 0.0 by {
      if q < 0.0 {
        NegTimesPos(q, resolution);
      }
    }
    assert (q + 1.0) * resolution == input + resolution;
    QuotientOfProduct(q + 1.0, resolution, input + resolution);
    assert Trunc(q) == k;
    assert Trunc(q + 1.0) == k + 1;
    BracketByMultiples(input, resolution, q, k);
    NextMultiple(k, resolution);
  }

  /** RoundToNearest chooses between the two multiples its quotients name. */
  lemma RoundingChoice(input: real, resolution: real, lower: real)
    requires resolution != 0.0
    requires Trunc(input / resolution) as real * resolution == lower
    requires Trunc((input + resolution) / resolution) as real * resolution == lower + resolution
    ensures RoundToNearest(input, resolution)
         == if input - lower > lower + resolution - input then lower + resolution else lower
  {
  }

  lemma QuotientOfProduct(q: real, d: real, n: real)
    requires d > 0.0 && q * d == n
    ensures n / d == q
  {
  }

  lemma NegTimesPos(x: real, y: real)
    requires x < 0.0 && y > 0.0
    ensures x * y < 0.0
  {
  }

  /** The multiples of `d` on either side of `n = q * d`. */
  lemma BracketByMultiples(n: real, d: real, q: real, k: int)
    requires d > 0.0 && q * d == n && k as real <= q < k as real + 1.0
    ensures k as real * d <= n < k as real * d + d
  {
    ScaleBetween(k as real, q, k as real + 1.0, d);
    assert (k as real + 1.0) * d == k as real * d + d;
  }

  lemma NextMultiple(k: int, d: real)
    ensures (k + 1) as real * d == k as real * d + d
  {
    assert (k + 1) as real == k as real + 1.0;
  }

  lemma ScaleBetween(lo: real, q: real, hi: real, s: real)
    requires lo <= q < hi && s > 0.0
    ensures lo * s <= q * s < hi * s
  {
  }

  /** For a negative input the truncating cast rounds toward zero, not down:
      -2.7 at resolution 1 is sent to -2, 0.7 away, although -3 is only 0.3
      away. */
  lemma RoundToNearestNegativeInput()
    ensures RoundToNearest(-2.7, 1.0) == -2.0
    ensures RoundToNearest(-2.7, 1.0) - -2.7 > 1.0 / 2.0
  {
    assert Trunc(-2.7 / 1.0) == -2;
    assert Trunc((-2.7 + 1.0) / 1.0) == -1;
  }

  /** The multiples of a positive `resolution` just below (or at) and just
      above any input, of either sign. */
  lemma LowerMultipleBrackets(input: real, resolution: real)
    requires resolution > 0.0
    ensures LowerMultiple(input, resolution) <= input < LowerMultiple(input, resolution) + resolution
  {
    var q := input / resolution;
    assert q * resolution == input;
    BracketByMultiples(input, resolution, q, q.Floor);
  }

  /** As written, a negative resolution breaks the rounding too: 23.7 at
      resolution -5 has 20 as its "floor" candidate and 15 as its "ceiling"
      candidate, and 15 is returned, farther than half a resolution away. */
  lemma RoundToNearestNegativeResolution()
    ensures RoundToNearest(23.7, -5.0) == 15.0
    ensures 23.7 - RoundToNearest(23.7, -5.0) > 5.0 / 2.0
  {
    assert Trunc(23.7 / -5.0) == -4;
    assert Trunc((23.7 + -5.0) / -5.0) == -3;
  }

  /** roundToNearest with the multiple below taken by rounding down rather
      than toward zero: for every input and positive resolution, the nearer
      of the two neighbouring multiples, ties going to the lower one. */
  function RoundToNearestCorrected(input: real, resolution: real): (r: real)
    requires resolution > 0.0
    ensures r == LowerMultiple(input, resolution) || r == LowerMultiple(input, resolution) + resolution
    ensures r == LowerMultiple(input, resolution) + resolution
            <==> input - LowerMultiple(input, resolution) > LowerMultiple(input, resolution) + resolution - input
    ensures -resolution / 2.0 <= r - input < resolution / 2.0
  {
    LowerMultipleBrackets(input, resolution);
    var lower := LowerMultiple(input, resolution);
    var upper := lower + resolution;
    if input - lower > upper - input then upper else lower
  }

  /** On a non-negative input the correction changes nothing. */
  lemma RoundToNearestCorrectedAgrees(input: real, resolution: real)
    requires input >= 0.0 && resolution > 0.0
    ensures RoundToNearestCorrected(input, resolution) == RoundToNearest(input, resolution)
  {
    RoundingBracket(input, resolution);
    RoundingChoice(input, resolution, LowerMultiple(input, resolution));
  }

  /** The corrected rounding sends -2.7 to -3 at resolution 1. */
  lemma RoundToNearestCorrectedNegative()
    ensures RoundToNearestCorrected(-2.7, 1.0) == -3.0
  {
    assert (-2.7 / 1.0).Floor == -3;
  }

  /** The two examples in the source's documentation of roundToNearest. */
  lemma RoundToNearestExamples()
    ensures RoundToNearest(23.720954, 5.0) == 25.0
    ensures RoundToNearest(23.720954, 0.5) == 23.5
  {
    assert Trunc(23.720954 / 5.0) == 4;
    assert Trunc((23.720954 + 5.0) / 5.0) == 5;
    assert Trunc(23.720954 / 0.5) == 47;
    assert Trunc((23.720954 + 0.5) / 0.5) == 48;
  }
}
