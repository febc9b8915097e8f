/**
  The state of `RCApp` that the control loop reads and writes, and the
  operations on it: one tick of `update_logic`, the calibrate, pause,
  profile, reset, head-source and connect buttons. The joystick, the
  serial ports and `float()` are inputs of the operations: a tick is told
  which axes the joystick reported, what the sensor port delivered and
  whether the write to the output port failed.
 */
module Control {
  import opened Wrappers
  import opened Crsf
  import opened Shaping
  import opened SensorLines

  /** Where the head orientation comes from (`self.head_source`). */
  datatype HeadSource = Arduino | JoystickHead

  /**
    What the joystick reports during one tick: its axis values, or that
    pygame raised while they were read (a device unplugged mid-tick).
   */
  datatype Joystick = Joystick(axes: seq<real>, readFails: bool)

  /** What one tick gets from the sensor port: nothing waiting, decoded text, or an exception. */
  datatype SensorRead = NoData | Received(text: string) | ReadError

  /** `self.default_L2_axis`. */
  const L2_AXIS: nat := 4

  /** A slider value in percent as a fraction. */
  function Percent(v: int): real
  {
    v as real / 100.0
  }

  /** The axes can be read: a joystick is present, has at least `n` axes and did not raise. */
  predicate Readable(joy: Option<Joystick>, n: nat)
  {
    joy.Some? && !joy.value.readFails && |joy.value.axes| >= n
  }

  /** `raw_steer` before the deadzone: axis 0, or 0 without a joystick or when reading it raises. */
  function SteerAxis(joy: Option<Joystick>): real
  {
    if Readable(joy, 1) then joy.value.axes[0] else 0.0
  }

  /** `raw_thr`: axis 5 moved onto [0, 1] when there are more than five axes, else 0. */
  function ThrottleTarget(joy: Option<Joystick>): real
  {
    if Readable(joy, 6) then AxisToUnit(joy.value.axes[5]) else 0.0
  }

  /**
    The joystick head source: axes 2 and 3 (0 when missing) through the head
    deadzone, scaled to yaw and pitch with their signs flipped. When pygame
    raises, the previous yaw and pitch stay.
   */
  function HeadFromJoystick(joy: Option<Joystick>, headDeadzone: int, yaw: real, pitch: real): (real, real)
    requires 0 <= headDeadzone <= 30
  {
    if !Readable(joy, 0) then (yaw, pitch)
    else
      var axes := joy.value.axes;
      var rx := if |axes| > 2 then axes[2] else 0.0;
      var ry := if |axes| > 3 then axes[3] else 0.0;
      var d := Percent(headDeadzone);
      (-Deadzone(rx, d) * 90.0, -Deadzone(ry, d) * 45.0)
  }

  /** `l2_val`: the L2 axis moved onto [0, 1] when the joystick has it, else 0. */
  function L2Level(joy: Option<Joystick>): real
  {
    if Readable(joy, L2_AXIS + 1) then AxisToUnit(joy.value.axes[L2_AXIS]) else 0.0
  }

  /** Every reported axis lies in [-1, 1], as pygame promises. */
  predicate AxesInRange(joy: Option<Joystick>)
  {
    joy.Some? ==> forall i :: 0 <= i < |joy.value.axes| ==> -1.0 <= joy.value.axes[i] <= 1.0
  }

  /**
    With the axes in [-1, 1]: the steering target lies in [-1, 1], the
    throttle target and the L2 level in [0, 1], and the joystick head source
    gives yaw in [-90, 90] and pitch in [-45, 45].
   */
  lemma JoystickTargetsInRange(joy: Option<Joystick>, deadzone: int, headDeadzone: int, yaw: real, pitch: real)
    requires AxesInRange(joy) && 0 <= deadzone <= 20 && 0 <= headDeadzone <= 30
    ensures -1.0 <= Deadzone(SteerAxis(joy), Percent(deadzone)) <= 1.0
    ensures 0.0 <= ThrottleTarget(joy) <= 1.0 && 0.0 <= L2Level(joy) <= 1.0
    ensures Readable(joy, 0) ==>
      var (y, p) := HeadFromJoystick(joy, headDeadzone, yaw, pitch);
      -90.0 <= y <= 90.0 && -45.0 <= p <= 45.0
  {
    DeadzoneBounded(SteerAxis(joy), Percent(deadzone));
    AxisToUnitRange(if Readable(joy, 6) then joy.value.axes[5] else 0.0);
    AxisToUnitRange(if Readable(joy, L2_AXIS + 1) then joy.value.axes[L2_AXIS] else 0.0);
    if Readable(joy, 0) {
      var axes := joy.value.axes;
      DeadzoneBounded(if |axes| > 2 then axes[2] else 0.0, Percent(headDeadzone));
      DeadzoneBounded(if |axes| > 3 then axes[3] else 0.0, Percent(headDeadzone));
    }
  }

  /** The slider values a named driving profile selects (steering rate, throttle rate, deadzone). */
  function Preset(name: string): Option<(int, int, int)>
  {
    if name == "Beginner" then Some((120, 120, 10))
    else if name == "Sport" then Some((250, 250, 5))
    else if name == "Race" then Some((380, 380, 0))
    else None
  }

  /** Every preset lies within the slider ranges 50..400 and 0..20. */
  lemma PresetsInRange(name: string)
    ensures Preset(name).Some? ==>
      var (s, t, d) := Preset(name).value;
      50 <= s <= 400 && 50 <= t <= 400 && 0 <= d <= 20
  {
  }

  /**
    A tick keeps steering in [-1, 1] and throttle in [0, 1]: with the axes in
    [-1, 1] both targets lie in those intervals and a rate in [0.05, 0.4]
    moves each value part of the way toward its target.
   */
  lemma SmoothingKeepsRanges(steer: real, throttle: real, joy: Option<Joystick>, deadzone: int, steerRate: int, throttleRate: int)
    requires 0 <= deadzone <= 20 && 50 <= steerRate <= 400 && 50 <= throttleRate <= 400
    ensures -1.0 <= steer <= 1.0 && 0.0 <= throttle <= 1.0 && AxesInRange(joy) ==>
      && -1.0 <= Smooth(steer, Deadzone(SteerAxis(joy), Percent(deadzone)), Rate(steerRate)) <= 1.0
      && 0.0 <= Smooth(throttle, ThrottleTarget(joy), Rate(throttleRate)) <= 1.0
  {
    if -1.0 <= steer <= 1.0 && 0.0 <= throttle <= 1.0 && AxesInRange(joy) {
      JoystickTargetsInRange(joy, deadzone, 0, 0.0, 0.0);
      RateRange(steerRate);
      RateRange(throttleRate);
      SmoothStaysWithin(-1.0, 1.0, steer, Deadzone(SteerAxis(joy), Percent(deadzone)), Rate(steerRate));
      SmoothStaysWithin(0.0, 1.0, throttle, ThrottleTarget(joy), Rate(throttleRate));
    }
  }

  class RcApp {
    var steer: real
    var throttle: real
    var yaw: real
    var pitch: real
    var yawOffset: real
    var pitchOffset: real
    /** The unterminated tail of the sensor text (`self.in_buffer`). */
    var inBuffer: string
    var sendingEnabled: bool
    /** `self.serial_out is not None`. */
    var outputAttached: bool
    /** `self.serial_in is not None`. */
    var inputAttached: bool
    var headSource: HeadSource
    /** The steering and throttle response sliders (50..400). */
    var steerRate: int
    var throttleRate: int
    /** The steering deadzone slider (0..20 percent). */
    var deadzone: int
    /** The head deadzone slider (0..30 percent). */
    var headDeadzone: int

    /** The sliders stay within their ranges and the buffer never holds a line terminator. */
    predicate Valid()
      reads this
    {
      && 50 <= steerRate <= 400 && 50 <= throttleRate <= 400
      && 0 <= deadzone <= 20 && 0 <= headDeadzone <= 30
      && NoTerminator(inBuffer)
    }

    /** Steering in [-1, 1] and throttle in [0, 1]. */
    predicate Settled()
      reads this
    {
      -1.0 <= steer <= 1.0 && 0.0 <= throttle <= 1.0
    }

    /** `__init__`: everything at rest, sending on, no port attached, Arduino head source, then the Beginner profile. */
    constructor ()
      ensures Valid() && Settled()
      ensures steer == 0.0 && throttle == 0.0 && yaw == 0.0 && pitch == 0.0
      ensures yawOffset == 0.0 && pitchOffset == 0.0 && inBuffer == ""
      ensures sendingEnabled && !outputAttached && !inputAttached && headSource == Arduino
      ensures steerRate == 120 && throttleRate == 120 && deadzone == 10 && headDeadzone == 5
    {
      steer, throttle, yaw, pitch := 0.0, 0.0, 0.0, 0.0;
      yawOffset, pitchOffset := 0.0, 0.0;
      inBuffer := "";
      sendingEnabled := true;
      outputAttached, inputAttached := false, false;
      headSource := Arduino;
      steerRate, throttleRate, deadzone := 200, 200, 5;
      headDeadzone := 5;
      new;
      LoadProfile("Beginner");
    }

    /** `toggle_sending`: flips the pause switch and nothing else. */
    method ToggleSending()
      modifies this
      ensures sendingEnabled == !old(sendingEnabled)
      ensures steer == old(steer) && throttle == old(throttle) && yaw == old(yaw) && pitch == old(pitch)
      ensures yawOffset == old(yawOffset) && pitchOffset == old(pitchOffset) && inBuffer == old(inBuffer)
      ensures outputAttached == old(outputAttached) && inputAttached == old(inputAttached)
      ensures headSource == old(headSource)
      ensures steerRate == old(steerRate) && throttleRate == old(throttleRate)
      ensures deadzone == old(deadzone) && headDeadzone == old(headDeadzone)
    {
      sendingEnabled := !sendingEnabled;
    }

    /** `calibrate_head`: the current orientation becomes the centre, so both adjusted angles are 0. */
    method CalibrateHead()
      modifies this
      ensures yawOffset == yaw && pitchOffset == pitch
      ensures WrapYaw(yaw, yawOffset) == 0.0 && ClampPitch(pitch, pitchOffset) == 0.0
      ensures steer == old(steer) && throttle == old(throttle) && yaw == old(yaw) && pitch == old(pitch)
      ensures inBuffer == old(inBuffer) && sendingEnabled == old(sendingEnabled)
      ensures outputAttached == old(outputAttached) && inputAttached == old(inputAttached)
      ensures headSource == old(headSource)
      ensures steerRate == old(steerRate) && throttleRate == old(throttleRate)
      ensures deadzone == old(deadzone) && headDeadzone == old(headDeadzone)
    {
      yawOffset := yaw;
      pitchOffset := pitch;
      CalibratedIsCentred(yaw, pitch);
    }

    /** `load_profile`: a known profile sets the three tuning sliders; any other name changes nothing. */
    method LoadProfile(name: string)
      requires Valid()
      modifies this
      ensures Valid()
      ensures Preset(name).Some? ==> (steerRate, throttleRate, deadzone) == Preset(name).value
      ensures Preset(name).None? ==>
        steerRate == old(steerRate) && throttleRate == old(throttleRate) && deadzone == old(deadzone)
      ensures steer == old(steer) && throttle == old(throttle) && yaw == old(yaw) && pitch == old(pitch)
      ensures yawOffset == old(yawOffset) && pitchOffset == old(pitchOffset) && inBuffer == old(inBuffer)
      ensures sendingEnabled == old(sendingEnabled)
      ensures outputAttached == old(outputAttached) && inputAttached == old(inputAttached)
      ensures headSource == old(headSource) && headDeadzone == old(headDeadzone)
    {
      if name == "Beginner" {
        steerRate, throttleRate, deadzone := 120, 120, 10;
      } else if name == "Sport" {
        steerRate, throttleRate, deadzone := 250, 250, 5;
      } else if name == "Race" {
        steerRate, throttleRate, deadzone := 380, 380, 0;
      }
    }

    /** `reset_tuning`: rates back to 200 and the steering deadzone to 5; the "Custom" profile it selects changes nothing. */
    method ResetTuning()
      requires Valid()
      modifies this
      ensures Valid()
      ensures steerRate == 200 && throttleRate == 200 && deadzone == 5
      ensures steer == old(steer) && throttle == old(throttle) && yaw == old(yaw) && pitch == old(pitch)
      ensures yawOffset == old(yawOffset) && pitchOffset == old(pitchOffset) && inBuffer == old(inBuffer)
      ensures sendingEnabled == old(sendingEnabled)
      ensures outputAttached == old(outputAttached) && inputAttached == old(inputAttached)
      ensures headSource == old(headSource) && headDeadzone == old(headDeadzone)
    {
      steerRate, throttleRate, deadzone := 200, 200, 5;
      LoadProfile("Custom");
    }

    /** `change_head_source`: combo-box entry 0 is the Arduino, any other the joystick. */
    method ChangeHeadSource(index: int)
      modifies this
      ensures headSource == (if index == 0 then Arduino else JoystickHead)
      ensures steer == old(steer) && throttle == old(throttle) && yaw == old(yaw) && pitch == old(pitch)
      ensures yawOffset == old(yawOffset) && pitchOffset == old(pitchOffset) && inBuffer == old(inBuffer)
      ensures sendingEnabled == old(sendingEnabled)
      ensures outputAttached == old(outputAttached) && inputAttached == old(inputAttached)
      ensures steerRate == old(steerRate) && throttleRate == old(throttleRate)
      ensures deadzone == old(deadzone) && headDeadzone == old(headDeadzone)
    {
      headSource := if index == 0 then Arduino else JoystickHead;
    }

    /**
      `connect_serial_out`: with a port selected the output is attached exactly
      when opening it succeeds; with none selected nothing changes.
     */
    method ConnectOutput(selected: bool, opens: bool)
      modifies this
      ensures outputAttached == (if selected then opens else old(outputAttached))
      ensures steer == old(steer) && throttle == old(throttle) && yaw == old(yaw) && pitch == old(pitch)
      ensures yawOffset == old(yawOffset) && pitchOffset == old(pitchOffset) && inBuffer == old(inBuffer)
      ensures sendingEnabled == old(sendingEnabled) && inputAttached == old(inputAttached)
      ensures headSource == old(headSource)
      ensures steerRate == old(steerRate) && throttleRate == old(throttleRate)
      ensures deadzone == old(deadzone) && headDeadzone == old(headDeadzone)
    {
      if selected {
        outputAttached := opens;
      }
    }

    /**
      `connect_serial_in`: like the output, and a successful open also empties
      the receive buffer; a failed open leaves the buffer as it was.
     */
    method ConnectInput(selected: bool, opens: bool)
      requires Valid()
      modifies this
      ensures Valid()
      ensures inputAttached == (if selected then opens else old(inputAttached))
      ensures inBuffer == (if selected && opens then "" else old(inBuffer))
      ensures steer == old(steer) && throttle == old(throttle) && yaw == old(yaw) && pitch == old(pitch)
      ensures yawOffset == old(yawOffset) && pitchOffset == old(pitchOffset)
      ensures sendingEnabled == old(sendingEnabled) && outputAttached == old(outputAttached)
      ensures headSource == old(headSource)
      ensures steerRate == old(steerRate) && throttleRate == old(throttleRate)
      ensures deadzone == old(deadzone) && headDeadzone == old(headDeadzone)
    {
      if selected {
        if opens {
          inputAttached := true;
          inBuffer := "";
        } else {
          inputAttached := false;
        }
      }
    }

    /**
      The Arduino branch after text arrived: append it to the buffer, keep
      the unterminated tail, and apply the complete lines in order.
     */
    method ReceiveText(text: string, parse: string -> Option<real>)
      requires Valid()
      modifies this
      ensures Valid()
      ensures var lines := SplitLines(old(inBuffer) + text);
        && inBuffer == Remainder(lines)
        && (yaw, pitch) == ApplyLines(CompleteLines(lines), old(yaw), old(pitch), parse)
      ensures steer == old(steer) && throttle == old(throttle)
      ensures yawOffset == old(yawOffset) && pitchOffset == old(pitchOffset)
      ensures sendingEnabled == old(sendingEnabled)
      ensures outputAttached == old(outputAttached) && inputAttached == old(inputAttached)
      ensures headSource == old(headSource)
      ensures steerRate == old(steerRate) && throttleRate == old(throttleRate)
      ensures deadzone == old(deadzone) && headDeadzone == old(headDeadzone)
    {
      var buffer := inBuffer + text;
      var complete, rem := SplitBuffer(buffer);
      RemainderHasNoTerminator(buffer);
      inBuffer := rem;
      var y, p := ApplyCompleteLines(complete, yaw, pitch, parse);
      yaw, pitch := y, p;
    }

    /**
      The head-tracking part of a tick. With the Arduino source and an input
      attached, received text goes through the buffer and a read exception
      detaches the input; with the joystick source the orientation is read
      from axes 2 and 3.
     */
    method UpdateHead(joy: Option<Joystick>, incoming: SensorRead, parse: string -> Option<real>)
      requires Valid()
      modifies this
      ensures Valid()
      ensures headSource == JoystickHead ==>
        && (yaw, pitch) == HeadFromJoystick(joy, headDeadzone, old(yaw), old(pitch))
        && inBuffer == old(inBuffer) && inputAttached == old(inputAttached)
      ensures headSource == Arduino && (!old(inputAttached) || incoming.NoData?) ==>
        && yaw == old(yaw) && pitch == old(pitch)
        && inBuffer == old(inBuffer) && inputAttached == old(inputAttached)
      ensures headSource == Arduino && old(inputAttached) && incoming.ReadError? ==>
        && yaw == old(yaw) && pitch == old(pitch)
        && inBuffer == old(inBuffer) && !inputAttached
      ensures headSource == Arduino && old(inputAttached) && incoming.Received? ==>
        var lines := SplitLines(old(inBuffer) + incoming.text);
        && inBuffer == Remainder(lines)
        && (yaw, pitch) == ApplyLines(CompleteLines(lines), old(yaw), old(pitch), parse)
        && inputAttached
      ensures steer == old(steer) && throttle == old(throttle)
      ensures yawOffset == old(yawOffset) && pitchOffset == old(pitchOffset)
      ensures sendingEnabled == old(sendingEnabled) && outputAttached == old(outputAttached)
      ensures headSource == old(headSource)
      ensures steerRate == old(steerRate) && throttleRate == old(throttleRate)
      ensures deadzone == old(deadzone) && headDeadzone == old(headDeadzone)
    {
      if headSource == Arduino {
        if inputAttached {
          match incoming
          case NoData =>
          case ReadError =>
            inputAttached := false;
          case Received(text) =>
            ReceiveText(text, parse);
        }
      } else {
        var head := HeadFromJoystick(joy, headDeadzone, yaw, pitch);
        yaw, pitch := head.0, head.1;
      }
    }

    /**
      The output part of a tick: with an output attached and sending on, the
      frame of `channels` is written, and a failed write detaches the output.
     */
    method SendChannels(channels: seq<int>, writeFails: bool) returns (sent: Option<seq<Byte>>)
      requires |channels| <= 184
      modifies this
      ensures sent == if old(outputAttached) && sendingEnabled then Some(EncodeFrame(channels).value) else None
      ensures outputAttached == (old(outputAttached) && !(sendingEnabled && writeFails))
      ensures steer == old(steer) && throttle == old(throttle) && yaw == old(yaw) && pitch == old(pitch)
      ensures yawOffset == old(yawOffset) && pitchOffset == old(pitchOffset) && inBuffer == old(inBuffer)
      ensures sendingEnabled == old(sendingEnabled) && inputAttached == old(inputAttached)
      ensures headSource == old(headSource)
      ensures steerRate == old(steerRate) && throttleRate == old(throttleRate)
      ensures deadzone == old(deadzone) && headDeadzone == old(headDeadzone)
    {
      sent := None;
      if outputAttached && sendingEnabled {
        var frame := PackCrsfChannels(channels);
        sent := Some(frame.value);
        if writeFails {
          outputAttached := false;
        }
      }
    }

    /**
      The driving part of a tick: steering moves toward the deadzoned axis 0
      and throttle toward axis 5, each by its rate; with the axes in [-1, 1]
      both stay in their ranges.
     */
    method SmoothDrive(joy: Option<Joystick>)
      requires Valid()
      modifies this
      ensures Valid()
      ensures steer == Smooth(old(steer), Deadzone(SteerAxis(joy), Percent(deadzone)), Rate(steerRate))
      ensures throttle == Smooth(old(throttle), ThrottleTarget(joy), Rate(throttleRate))
      ensures old(Settled()) && AxesInRange(joy) ==> Settled()
      ensures yaw == old(yaw) && pitch == old(pitch)
      ensures yawOffset == old(yawOffset) && pitchOffset == old(pitchOffset) && inBuffer == old(inBuffer)
      ensures sendingEnabled == old(sendingEnabled)
      ensures outputAttached == old(outputAttached) && inputAttached == old(inputAttached)
      ensures headSource == old(headSource)
      ensures steerRate == old(steerRate) && throttleRate == old(throttleRate)
      ensures deadzone == old(deadzone) && headDeadzone == old(headDeadzone)
    {
      SmoothingKeepsRanges(steer, throttle, joy, deadzone, steerRate, throttleRate);
      steer := Smooth(steer, Deadzone(SteerAxis(joy), Percent(deadzone)), Rate(steerRate));
      throttle := Smooth(throttle, ThrottleTarget(joy), Rate(throttleRate));
    }

    /**
      One tick of `update_logic`. Steering and throttle move toward their
      targets by their rates; the head orientation comes from the sensor
      text or from the joystick; the 16 channels are built from the new
      state; the frame is written when an output is attached and sending is
      on, and a failed write detaches the output. Returned: the channel
      vector, whether the reverse indicator shows, and the frame written.
     */
    method Tick(joy: Option<Joystick>, incoming: SensorRead, writeFails: bool, parse: string -> Option<real>)
      returns (channels: seq<int>, reverse: bool, sent: Option<seq<Byte>>)
      requires Valid()
      modifies this
      ensures Valid()
      ensures steer == Smooth(old(steer), Deadzone(SteerAxis(joy), Percent(deadzone)), Rate(steerRate))
      ensures throttle == Smooth(old(throttle), ThrottleTarget(joy), Rate(throttleRate))
      ensures headSource == JoystickHead ==>
        && (yaw, pitch) == HeadFromJoystick(joy, headDeadzone, old(yaw), old(pitch))
        && inBuffer == old(inBuffer) && inputAttached == old(inputAttached)
      ensures headSource == Arduino && (!old(inputAttached) || incoming.NoData?) ==>
        && yaw == old(yaw) && pitch == old(pitch)
        && inBuffer == old(inBuffer) && inputAttached == old(inputAttached)
      ensures headSource == Arduino && old(inputAttached) && incoming.ReadError? ==>
        && yaw == old(yaw) && pitch == old(pitch)
        && inBuffer == old(inBuffer) && !inputAttached
      ensures headSource == Arduino && old(inputAttached) && incoming.Received? ==>
        var lines := SplitLines(old(inBuffer) + incoming.text);
        && inBuffer == Remainder(lines)
        && (yaw, pitch) == ApplyLines(CompleteLines(lines), old(yaw), old(pitch), parse)
        && inputAttached
      ensures channels == ChannelVector(steer, throttle, WrapYaw(yaw, yawOffset), ClampPitch(pitch, pitchOffset), L2Level(joy))
      ensures reverse <==> Reverse(L2Level(joy))
      ensures sent == if old(outputAttached) && sendingEnabled then Some(EncodeFrame(channels).value) else None
      ensures outputAttached == (old(outputAttached) && !(sendingEnabled && writeFails))
      ensures yawOffset == old(yawOffset) && pitchOffset == old(pitchOffset)
      ensures sendingEnabled == old(sendingEnabled) && headSource == old(headSource)
      ensures steerRate == old(steerRate) && throttleRate == old(throttleRate)
      ensures deadzone == old(deadzone) && headDeadzone == old(headDeadzone)
      ensures old(Settled()) && AxesInRange(joy) ==> Settled()
      ensures InDomains(steer, throttle, WrapYaw(yaw, yawOffset), ClampPitch(pitch, pitchOffset), L2Level(joy)) ==>
        && (forall i :: 0 <= i < |channels| ==> CHANNEL_MIN <= channels[i] <= CHANNEL_MAX)
        && (sent.Some? ==> DecodeFrame(sent.value, 16) == Success(channels))
    {
      SmoothDrive(joy);
      UpdateHead(joy, incoming, parse);

      var adjYaw := WrapYaw(yaw, yawOffset);
      var adjPitch := ClampPitch(pitch, pitchOffset);
      var l2 := L2Level(joy);
      reverse := Reverse(l2);
      channels := ChannelVector(steer, throttle, adjYaw, adjPitch, l2);
      sent := SendChannels(channels, writeFails);
      if InDomains(steer, throttle, adjYaw, adjPitch, l2) {
        ChannelVectorRange(steer, throttle, adjYaw, adjPitch, l2);
        ChannelFrameRoundTrip(steer, throttle, adjYaw, adjPitch, l2);
      }
    }
  }
}
