/**
  The arithmetic of one control tick in `RCApp.update_logic`: the deadzone
  rescale of an axis, first-order smoothing toward a target, the yaw wrap
  and pitch clamp of the head orientation, the L2 trigger rescale, and the
  16-channel vector handed to the CRSF encoder.
 */
module Shaping {
  import opened Wrappers
  import opened Crsf

  function Abs(x: real): real
  {
    if x < 0.0 then -x else x
  }

  // ---------------------------------------------------------------------
  // Deadzone
  // ---------------------------------------------------------------------

  /** `math.copysign(m, s)` for a magnitude `m >= 0` (the reals have no signed zero). */
  function CopySign(m: real, s: real): real
  {
    if s < 0.0 then -m else m
  }

  /**
    The deadzone rescale applied to the steering axis and to both head axes:
    inputs with `|raw| < dz` become 0, the rest is shifted toward 0 by `dz`
    and stretched so that full deflection stays full deflection.
   */
  function Deadzone(raw: real, dz: real): real
    requires 0.0 <= dz < 1.0
  {
    if Abs(raw) < dz then 0.0 else CopySign((Abs(raw) - dz) / (1.0 - dz), raw)
  }

  /** Inside the band the output is 0; outside it keeps the sign of `raw` and has magnitude `(|raw| - dz) / (1 - dz)`. */
  lemma DeadzoneShape(raw: real, dz: real)
    requires 0.0 <= dz < 1.0
    ensures Abs(raw) < dz ==> Deadzone(raw, dz) == 0.0
    ensures Abs(raw) >= dz ==> Abs(Deadzone(raw, dz)) == (Abs(raw) - dz) / (1.0 - dz)
    ensures raw >= 0.0 ==> Deadzone(raw, dz) >= 0.0
    ensures raw <= 0.0 ==> Deadzone(raw, dz) <= 0.0
  {
    if Abs(raw) >= dz {
      QuotientBounds(Abs(raw) - dz, 1.0 - dz);
    }
  }

  /** A non-negative quotient by a positive divisor, and at most 1 when the dividend does not exceed the divisor. */
  lemma QuotientBounds(a: real, d: real)
    requires 0.0 <= a && 0.0 < d
    ensures 0.0 <= a / d
    ensures a <= d ==> a / d <= 1.0
  {
    var q := a / d;
    assert q * d == a;
  }

  /** A deflection within [-1, 1] stays within [-1, 1], and full deflection maps to itself. */
  lemma DeadzoneBounded(raw: real, dz: real)
    requires 0.0 <= dz < 1.0 && -1.0 <= raw <= 1.0
    ensures -1.0 <= Deadzone(raw, dz) <= 1.0
    ensures Deadzone(1.0, dz) == 1.0 && Deadzone(-1.0, dz) == -1.0
    ensures Deadzone(0.0, dz) == 0.0
  {
    var d := 1.0 - dz;
    if Abs(raw) >= dz {
      QuotientBounds(Abs(raw) - dz, d);
    }
    DivSelf(d);
  }

  lemma DivSelf(d: real)
    requires d != 0.0
    ensures d / d == 1.0
  {
  }

  /** The rescale is monotone: a larger deflection never gives a smaller output. */
  lemma DeadzoneMonotone(x: real, y: real, dz: real)
    requires 0.0 <= dz < 1.0 && x <= y
    ensures Deadzone(x, dz) <= Deadzone(y, dz)
  {
    var d := 1.0 - dz;
    DeadzoneShape(x, dz);
    DeadzoneShape(y, dz);
    if Abs(x) >= dz && Abs(y) >= dz {
      if x >= 0.0 {
        assert (x - dz) / d <= (y - dz) / d;
      } else if y < 0.0 {
        assert (-y - dz) / d <= (-x - dz) / d;
      }
    }
  }

  // ---------------------------------------------------------------------
  // Smoothing
  // ---------------------------------------------------------------------

  /** `x += (target - x) * k`: one step of the first-order low-pass filter. */
  function Smooth(x: real, target: real, k: real): real
  {
    x + (target - x) * k
  }

  /** The rate of a response slider: `slider / 1000`. */
  function Rate(slider: int): real
  {
    slider as real / 1000.0
  }

  /** The response sliders range over 50..400, so the rate lies in [0.05, 0.4]. */
  lemma RateRange(slider: int)
    requires 50 <= slider <= 400
    ensures 0.05 <= Rate(slider) <= 0.4
  {
  }

  /** A step lands between the old value and the target, and closes the gap by the factor `1 - k`. */
  lemma SmoothStep(x: real, target: real, k: real)
    requires 0.0 <= k <= 1.0
    ensures x <= target ==> x <= Smooth(x, target, k) <= target
    ensures target <= x ==> target <= Smooth(x, target, k) <= x
    ensures Abs(target - Smooth(x, target, k)) == (1.0 - k) * Abs(target - x)
  {
    var g := target - x;
    assert target - Smooth(x, target, k) == (1.0 - k) * g;
    if g >= 0.0 {
      assert g * k <= g;
      assert (1.0 - k) * g >= 0.0;
    } else {
      assert g * k >= g;
      assert (1.0 - k) * g <= 0.0;
    }
  }

  /** An interval holding both the value and the target also holds the smoothed value. */
  lemma SmoothStaysWithin(lo: real, hi: real, x: real, target: real, k: real)
    requires 0.0 <= k <= 1.0
    requires lo <= x <= hi && lo <= target <= hi
    ensures lo <= Smooth(x, target, k) <= hi
  {
    SmoothStep(x, target, k);
  }

  function Power(b: real, n: nat): real
  {
    if n == 0 then 1.0 else b * Power(b, n - 1)
  }

  /** `n` ticks toward a constant target. */
  function SmoothTimes(x: real, target: real, k: real, n: nat): real
  {
    if n == 0 then x else Smooth(SmoothTimes(x, target, k, n - 1), target, k)
  }

  /** After `n` ticks toward a constant target the signed gap is `(1 - k)^n` times the initial gap. */
  lemma {:induction false} SmoothGap(x: real, target: real, k: real, n: nat)
    ensures target - SmoothTimes(x, target, k, n) == Power(1.0 - k, n) * (target - x)
  {
    if n > 0 {
      var y := SmoothTimes(x, target, k, n - 1);
      var p := Power(1.0 - k, n - 1);
      var d0, d, d1 := target - x, target - y, target - SmoothTimes(x, target, k, n);
      assert d == p * d0 by {
        SmoothGap(x, target, k, n - 1);
      }
      assert d1 == (1.0 - k) * d by {
        assert SmoothTimes(x, target, k, n) == Smooth(y, target, k);
      }
      assert Power(1.0 - k, n) == (1.0 - k) * p;
      ScaleChain(1.0 - k, p, d0, d, d1);
    }
  }

  lemma {:induction false} PowerNonNegative(b: real, n: nat)
    requires 0.0 <= b
    ensures 0.0 <= Power(b, n)
  {
    if n > 0 {
      PowerNonNegative(b, n - 1);
      assert 0.0 <= b * Power(b, n - 1);
    }
  }

  lemma AbsScale(c: real, d: real)
    requires 0.0 <= c
    ensures Abs(c * d) == c * Abs(d)
  {
    if d < 0.0 {
      assert c * d <= 0.0;
      assert -(c * d) == c * -d;
    } else {
      assert c * d >= 0.0;
    }
  }

  /** After `n` ticks toward a constant target the error is `(1 - k)^n` times the initial error. */
  lemma {:induction false} SmoothConverges(x: real, target: real, k: real, n: nat)
    requires 0.0 <= k <= 1.0
    ensures Abs(target - SmoothTimes(x, target, k, n)) == Power(1.0 - k, n) * Abs(target - x)
  {
    SmoothGap(x, target, k, n);
    PowerNonNegative(1.0 - k, n);
    AbsScale(Power(1.0 - k, n), target - x);
  }

  lemma ScaleChain(a: real, p: real, e0: real, e: real, e1: real)
    requires e == p * e0 && e1 == a * e
    ensures e1 == (a * p) * e0
  {
  }

  // ---------------------------------------------------------------------
  // Head orientation
  // ---------------------------------------------------------------------

  /** `adj = yaw - offset`, then one correction by 360 degrees in each direction. */
  function WrapYaw(yaw: real, offset: real): real
  {
    var adj := yaw - offset;
    var adj1 := if adj > 180.0 then adj - 360.0 else adj;
    if adj1 < -180.0 then adj1 + 360.0 else adj1
  }

  /** The wrap changes the angle by a whole turn at most, and leaves [-180, 180] alone. */
  lemma WrapYawAngle(yaw: real, offset: real)
    ensures var d := yaw - offset;
      WrapYaw(yaw, offset) == d || WrapYaw(yaw, offset) == d - 360.0 || WrapYaw(yaw, offset) == d + 360.0
    ensures -180.0 <= yaw - offset <= 180.0 ==> WrapYaw(yaw, offset) == yaw - offset
  {
  }

  /** A difference within 540 degrees is brought into [-180, 180]. */
  lemma WrapYawRange(yaw: real, offset: real)
    requires -540.0 <= yaw - offset <= 540.0
    ensures -180.0 <= WrapYaw(yaw, offset) <= 180.0
  {
  }

  /** `max(-45, min(45, pitch - offset))`. */
  function ClampPitch(pitch: real, offset: real): real
  {
    var adj := pitch - offset;
    var upper := if adj < 45.0 then adj else 45.0;
    if -45.0 < upper then upper else -45.0
  }

  /** The adjusted pitch always lies in [-45, 45], and equals the difference whenever that does. */
  lemma ClampPitchRange(pitch: real, offset: real)
    ensures -45.0 <= ClampPitch(pitch, offset) <= 45.0
    ensures -45.0 <= pitch - offset <= 45.0 ==> ClampPitch(pitch, offset) == pitch - offset
    ensures pitch - offset > 45.0 ==> ClampPitch(pitch, offset) == 45.0
    ensures pitch - offset < -45.0 ==> ClampPitch(pitch, offset) == -45.0
  {
  }

  /** Four values of the wrap and the clamp: 190 -> -170, -190 -> 170, 60 -> 45, -60 -> -45. */
  lemma OrientationExamples()
    ensures WrapYaw(190.0, 0.0) == -170.0 && WrapYaw(-190.0, 0.0) == 170.0
    ensures ClampPitch(60.0, 0.0) == 45.0 && ClampPitch(-60.0, 0.0) == -45.0
  {
  }

  /** With the offsets set to the current readings both adjusted angles are 0. */
  lemma CalibratedIsCentred(yaw: real, pitch: real)
    ensures WrapYaw(yaw, yaw) == 0.0 && ClampPitch(pitch, pitch) == 0.0
  {
  }

  // ---------------------------------------------------------------------
  // L2 trigger and the channel vector
  // ---------------------------------------------------------------------

  /** `(raw + 1) / 2`: an axis moved from [-1, 1] onto [0, 1] (the throttle axis and the L2 trigger). */
  function AxisToUnit(raw: real): real
  {
    (raw + 1.0) / 2.0
  }

  /** The reverse indicator: the trigger level exceeds one half. */
  predicate Reverse(level: real)
  {
    level > 0.5
  }

  /** A trigger in [-1, 1] gives a level in [0, 1]; reverse shows exactly when the raw axis is past its centre. */
  lemma AxisToUnitRange(raw: real)
    ensures -1.0 <= raw <= 1.0 ==> 0.0 <= AxisToUnit(raw) <= 1.0
    ensures Reverse(AxisToUnit(raw)) <==> raw > 0.0
  {
  }

  /** The value of every channel not driven by an input. */
  const NEUTRAL: int := 1024

  /**
    `ch = [1024] * 16` with channels 0..4 set to steering, throttle,
    adjusted yaw, adjusted pitch and the L2 level, each mapped onto 172..1811.
   */
  function ChannelVector(steer: real, throttle: real, adjYaw: real, adjPitch: real, l2: real): seq<int>
  {
    [ MapRange(steer, -1, 1, CHANNEL_MIN, CHANNEL_MAX),
      MapRange(throttle, 0, 1, CHANNEL_MIN, CHANNEL_MAX),
      MapRange(adjYaw, -180, 180, CHANNEL_MIN, CHANNEL_MAX),
      MapRange(adjPitch, -45, 45, CHANNEL_MIN, CHANNEL_MAX),
      MapRange(l2, 0, 1, CHANNEL_MIN, CHANNEL_MAX) ]
    + seq(11, _ => NEUTRAL)
  }

  /** The inputs stay inside the domains the mapping expects. */
  predicate InDomains(steer: real, throttle: real, adjYaw: real, adjPitch: real, l2: real)
  {
    && -1.0 <= steer <= 1.0
    && 0.0 <= throttle <= 1.0
    && -180.0 <= adjYaw <= 180.0
    && -45.0 <= adjPitch <= 45.0
    && 0.0 <= l2 <= 1.0
  }

  /** Sixteen channels; the five live ones in [172, 1811] when their inputs are in range, the rest 1024. */
  lemma ChannelVectorRange(steer: real, throttle: real, adjYaw: real, adjPitch: real, l2: real)
    requires InDomains(steer, throttle, adjYaw, adjPitch, l2)
    ensures var ch := ChannelVector(steer, throttle, adjYaw, adjPitch, l2);
      && |ch| == 16
      && (forall i :: 0 <= i < 5 ==> CHANNEL_MIN <= ch[i] <= CHANNEL_MAX)
      && (forall i :: 5 <= i < 16 ==> ch[i] == NEUTRAL)
  {
    MapRangeWithin(steer, -1, 1, CHANNEL_MIN, CHANNEL_MAX);
    MapRangeWithin(throttle, 0, 1, CHANNEL_MIN, CHANNEL_MAX);
    MapRangeWithin(adjYaw, -180, 180, CHANNEL_MIN, CHANNEL_MAX);
    MapRangeWithin(adjPitch, -45, 45, CHANNEL_MIN, CHANNEL_MAX);
    MapRangeWithin(l2, 0, 1, CHANNEL_MIN, CHANNEL_MAX);
  }

  /** In range, every channel fits in 11 bits, so the frame carries the channel vector unchanged. */
  lemma ChannelFrameRoundTrip(steer: real, throttle: real, adjYaw: real, adjPitch: real, l2: real)
    requires InDomains(steer, throttle, adjYaw, adjPitch, l2)
    ensures var ch := ChannelVector(steer, throttle, adjYaw, adjPitch, l2);
      EncodeFrame(ch).Success? && DecodeFrame(EncodeFrame(ch).value, 16) == Success(ch)
  {
    var ch := ChannelVector(steer, throttle, adjYaw, adjPitch, l2);
    ChannelVectorRange(steer, throttle, adjYaw, adjPitch, l2);
    EncodeDecodeInRange(ch);
  }

  /** Steering 1.0 with deadzone 0.05 and rate 0.2 from rest: the smoothed value 0.2 maps to channel 1155. */
  lemma SteeringExample()
    ensures Deadzone(1.0, 0.05) == 1.0
    ensures Smooth(0.0, 1.0, Rate(200)) == 0.2
    ensures MapRange(0.2, -1, 1, CHANNEL_MIN, CHANNEL_MAX) == 1155
  {
    DeadzoneBounded(1.0, 0.05);
    assert Interpolate(0.2, -1, 1, CHANNEL_MIN, CHANNEL_MAX) == 1155.4;
  }
}
