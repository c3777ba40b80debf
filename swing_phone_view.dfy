/** The "swing your phone" hint (`SwingPhoneView`): a phone image travels a figure
    of eight while tilting. The model covers how the tilt is chosen from the image's
    horizontal position `x` (in [-1, 1]) and the previous frame's position; the
    figure-of-eight curve that produces `x`, the animator and the view are outside it. */
module SwingPhone {
  import opened JavaSemantics

  /** Where the tilt curve switches between its linear pieces. */
  const HALF: real := 0.55

  /** `map`: the linear map sending `start1` to `start2` and `stop1` to `stop2`. */
  function Map(value: real, start1: real, stop1: real, start2: real, stop2: real): real
    requires start1 != stop1
  {
    start2 + (stop2 - start2) * ((value - start1) / (stop1 - start1))
  }

  /** `map` sends the ends of the input range to the ends of the output range. */
  lemma MapHitsEnds(start1: real, stop1: real, start2: real, stop2: real)
    requires start1 != stop1
    ensures Map(start1, start1, stop1, start2, stop2) == start2
    ensures Map(stop1, start1, stop1, start2, stop2) == stop2
  {
    DivSelf(stop1 - start1);
  }

  /** `map` keeps a value between the input ends between the output ends. */
  lemma MapStaysBetween(value: real, start1: real, stop1: real, start2: real, stop2: real)
    requires start1 < stop1 || stop1 < start1
    requires start1 <= value <= stop1 || stop1 <= value <= start1
    ensures var r := Map(value, start1, stop1, start2, stop2);
      start2 <= r <= stop2 || stop2 <= r <= start2
  {
    var d := stop1 - start1;
    var t := (value - start1) / d;
    assert 0.0 <= t <= 1.0 by {
      assert t * d == value - start1;
      if start1 < stop1 {
        if t < 0.0 {
          ScaleHalfOpen(d, t, t, 0.0);
        } else if t > 1.0 {
          ScaleHalfOpen(d, 1.0, t, t);
        }
      } else {
        assert t * (-d) == start1 - value;
        if t < 0.0 {
          ScaleHalfOpen(-d, t, t, 0.0);
        } else if t > 1.0 {
          ScaleHalfOpen(-d, 1.0, t, t);
        }
      }
    }
    TiltBetween(start2, stop2, t);
  }

  lemma TiltBetween(a: real, b: real, t: real)
    requires 0.0 <= t <= 1.0
    ensures a <= a + (b - a) * t <= b || b <= a + (b - a) * t <= a
  {
    var q := b - a;
    if q > 0.0 {
      ScaleHalfOpen(q, 0.0, t, 1.0);
      assert 0.0 <= q * t <= q;
      assert a <= a + q * t <= b;
    } else if q < 0.0 {
      ScaleHalfOpen(-q, 0.0, t, 1.0);
      NegatedProduct(q, t);
      assert 0.0 <= (-q) * t <= -q;
      assert q <= q * t <= 0.0;
      assert b <= a + q * t <= a;
    }
  }

  lemma DivSelf(d: real)
    requires d != 0.0
    ensures d / d == 1.0
  {
  }

  lemma NegatedProduct(x: real, t: real)
    ensures (-x) * t == -(x * t)
  {
  }

  /** Whether the image counts as moving right: ties with the previous frame do. */
  predicate MovingRight(x: real, lastVal: real)
  {
    x >= lastVal
  }

  /** The tilt, in degrees, for position `x` after a frame at `lastVal`. Moving right it
      rises from -90 at the left edge to 30 at the centre and falls back to -90 at the
      right edge; moving left it goes from -90 at either edge through -180 at
      +-0.55 to -210 at the centre. */
  function SwingRotation(x: real, lastVal: real): real
  {
    if MovingRight(x, lastVal) then
      if x <= 0.0 then
        if x < -HALF then Map(x, -1.0, -HALF, -90.0, 0.0) else Map(x, -HALF, 0.0, 0.0, 30.0)
      else
        if x > HALF then Map(x, HALF, 1.0, 0.0, -90.0) else Map(x, 0.0, HALF, 30.0, 0.0)
    else
      if x >= 0.0 then
        if x > HALF then Map(x, 1.0, HALF, -90.0, -180.0) else Map(x, HALF, 0.0, -180.0, -210.0)
      else
        if x < -HALF then Map(x, -1.0, -HALF, -90.0, -180.0) else Map(x, -HALF, 0.0, -180.0, -210.0)
  }

  /** The pieces meet: moving right the tilt is 0 at +-0.55 and 30 at the centre,
      moving left it is -180 at +-0.55 and -210 at the centre, whichever piece the
      point is assigned to. */
  lemma PiecesMeetAtJoins(lastVal: real)
    ensures lastVal <= -HALF ==>
      SwingRotation(-HALF, lastVal) == Map(-HALF, -1.0, -HALF, -90.0, 0.0) == 0.0
    ensures lastVal <= 0.0 ==>
      SwingRotation(0.0, lastVal) == Map(0.0, 0.0, HALF, 30.0, 0.0) == 30.0
    ensures lastVal <= HALF ==>
      SwingRotation(HALF, lastVal) == Map(HALF, HALF, 1.0, 0.0, -90.0) == 0.0
    ensures lastVal > HALF ==>
      SwingRotation(HALF, lastVal) == Map(HALF, 1.0, HALF, -90.0, -180.0) == -180.0
    ensures lastVal > 0.0 ==>
      SwingRotation(0.0, lastVal) == Map(0.0, -HALF, 0.0, -180.0, -210.0) == -210.0
    ensures lastVal > -HALF ==>
      SwingRotation(-HALF, lastVal) == Map(-HALF, -HALF, 0.0, -180.0, -210.0) == -180.0
  {
  }

  /** At the two turning points, x = +-1, both directions give the same tilt, so the
      image does not jump when it changes direction. */
  lemma TurnsWithoutJump(lastVal: real, otherLastVal: real)
    ensures SwingRotation(1.0, lastVal) == SwingRotation(1.0, otherLastVal) == -90.0
    ensures SwingRotation(-1.0, lastVal) == SwingRotation(-1.0, otherLastVal) == -90.0
  {
  }

  /** For x in [-1, 1] the tilt stays within [-90, 30] moving right and within
      [-210, -90] moving left. */
  lemma SwingRotationRange(x: real, lastVal: real)
    requires -1.0 <= x <= 1.0
    ensures MovingRight(x, lastVal) ==> -90.0 <= SwingRotation(x, lastVal) <= 30.0
    ensures !MovingRight(x, lastVal) ==> -210.0 <= SwingRotation(x, lastVal) <= -90.0
  {
    if MovingRight(x, lastVal) {
      if x <= 0.0 {
        if x < -HALF {
          MapStaysBetween(x, -1.0, -HALF, -90.0, 0.0);
        } else {
          MapStaysBetween(x, -HALF, 0.0, 0.0, 30.0);
        }
      } else if x > HALF {
        MapStaysBetween(x, HALF, 1.0, 0.0, -90.0);
      } else {
        MapStaysBetween(x, 0.0, HALF, 30.0, 0.0);
      }
    } else if x >= 0.0 {
      if x > HALF {
        MapStaysBetween(x, 1.0, HALF, -90.0, -180.0);
      } else {
        MapStaysBetween(x, HALF, 0.0, -180.0, -210.0);
      }
    } else if x < -HALF {
      MapStaysBetween(x, -1.0, -HALF, -90.0, -180.0);
    } else {
      MapStaysBetween(x, -HALF, 0.0, -180.0, -210.0);
    }
  }

  /** The animator's update listener of one `startLoop`, holding the previous frame's
      position. */
  class SwingLoopListener {
    var lastVal: real
    /** The tilt last handed to the phone image. */
    var rotation: real

    constructor ()
      ensures lastVal == 0.0 && rotation == 0.0
    {
      lastVal := 0.0;
      rotation := 0.0;
    }

    /** One animation frame at position `x`: tilts the image by the rule for the
        direction since the previous frame, then remembers `x`. */
    method OnAnimationUpdate(x: real)
      modifies this
      ensures rotation == SwingRotation(x, old(lastVal))
      ensures lastVal == x
    {
      var r: real;
      if x >= lastVal {
        if x <= 0.0 {
          if x < -HALF {
            r := Map(x, -1.0, -HALF, -90.0, 0.0);
          } else {
            r := Map(x, -HALF, 0.0, 0.0, 30.0);
          }
        } else {
          if x > HALF {
            r := Map(x, HALF, 1.0, 0.0, -90.0);
          } else {
            r := Map(x, 0.0, HALF, 30.0, 0.0);
          }
        }
      } else {
        if x >= 0.0 {
          if x > HALF {
            r := Map(x, 1.0, HALF, -90.0, -180.0);
          } else {
            r := Map(x, HALF, 0.0, -180.0, -210.0);
          }
        } else {
          if x < -HALF {
            r := Map(x, -1.0, -HALF, -90.0, -180.0);
          } else {
            r := Map(x, -HALF, 0.0, -180.0, -210.0);
          }
        }
      }
      rotation := r;
      lastVal := x;
    }
  }
}
