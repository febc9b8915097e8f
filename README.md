# RC link control core in Dafny

This project models the control core of `rc_app1.py`, a desktop app that drives a
remote-controlled vehicle. Each 20 ms tick it reads a game controller and a
head-orientation sensor and shapes the inputs:

- a deadzone rescale;
- first-order smoothing at a slider-chosen rate;
- yaw wrap and pitch clamp around a calibrated centre;
- the L2 trigger rescale.

It then maps the shaped values onto 16 radio channels, packs them into a CRSF
"RC channels packed" frame and writes the frame to the transmitter port.

The project has six modules:

- **`Wrappers`** (`wrappers.dfy`): `Option` and `Result`.
- **`Bits`** (`bits.dfy`):
  - powers of two;
  - LSB-first bit strings of natural numbers;
  - Python's `|` on non-negative integers, and the fact that it equals `+` when
    the bits do not overlap.
- **`Crsf`** (`crsf.dfy`):
  - `map_range`, with Python's `int()` truncation toward zero;
  - `pack_crsf_channels`, as the imperative methods `PackPayload` and
    `PackCrsfChannels`.

  Both methods are proved equal to a bit-level definition of the frame:

  - each channel contributes 11 bits, `c & 0x7FF`, LSB first;
  - the bit string is zero-padded to whole bytes;
  - the frame header is `0xC8, len(payload)+2, 0x16`;
  - the last byte is an additive mod-256 checksum over the frame-type byte and
    the payload.

  A reference decoder, `DecodeFrame`, reads frames back. The frame lemmas are
  stated against it.
- **`Shaping`** (`shaping.dfy`): the real-valued arithmetic of one tick and the
  16-channel vector.
- **`SensorLines`** (`sensor_lines.dfy`): the sensor text protocol.
  - The receive buffer is split like Python's `str.splitlines(True)`.
  - Lines ending in `\n` or `\r` are complete. They are stripped and scanned for
    `YAW:<number>` and `PITCH:<number>` tokens, with case and spaces ignored.
  - The last incomplete piece stays in the buffer.
- **`Control`** (`control.dfy`): the `RCApp` state as a class, `RcApp`. Its
  methods are the tick (`update_logic`) and the buttons:
  - calibrate;
  - pause/resume;
  - profile;
  - reset tuning;
  - head source;
  - connect.

Python integers are unbounded, like Dafny's `int`. The channel values are
therefore `int`, and `& 0x7FF`, `& 0xFF` and `>>= 8` become `% 2048`, `% 256`
and `/ 256`. These agree with Python for every integer, negative ones included.
Python `float` becomes `real`.

Some inputs of the source come from outside the program. The model turns each
into an input of the operation that uses it:

- the joystick's axis values, and whether pygame raised while reading them
  (`Joystick`);
- what the sensor port delivered (`SensorRead`);
- whether a write to the output port raised;
- whether a selected port opened;
- Python's `float()` on a token, as the parameter `parse: string -> Option<real>`,
  where `None` stands for a `ValueError`.

The frame encoder has one error path of its own. `bytes([...])` raises when the
length byte `len(payload)+2` exceeds 255, which happens above 184 channels.
`EncodeFrame` returns `Failure(LengthOutOfByteRange)` there.

`pack_crsf_channels` masks each value with `& 0x7FF` and accepts any number of
channels up to 184, not only 16. On that domain `EncodeDecode` returns the masked
values, and `EncodeDecodeInRange` returns the values unchanged for channels in
[0, 2047].

## Model

| member | source | states |
|---|---|---|
| Bits.DisjointOr | rc_app1.py:28 | `buf \| (v << bits)` equals `buf + v * 2^bits` when `buf < 2^bits`, so accumulating channels never mixes bits |
| Bits.BitOr | rc_app1.py:28 | Python's `\|` on non-negative integers, bit by bit from the least significant end; `DisjointOr` relates it to `+` |
| Bits.LowByteBits | rc_app1.py:31-32 | `buf & 0xFF` carries the low 8 bits of the accumulator and `buf >> 8` the remaining `bits - 8` |
| Bits.ToBitsSplit | rc_app1.py:28 | the bit string of `a + b * 2^k` is the `k` bits of `a` followed by the bits of `b` |
| Crsf.Trunc | rc_app1.py:21 | `int()` of a real: the integer toward zero, within 1 of its argument |
| Crsf.MapRange | rc_app1.py:20-21 | `int(b1 + (x - a1) * (b2 - b1) / (a2 - a1))`; its properties are `MapRangeEndpoints`, `MapRangeMonotone`, `MapRangeWithin` and `MapRangeCentre` |
| Crsf.MapRangeEndpoints | rc_app1.py:20-21 | `map_range(a1, a1, a2, b1, b2) == b1` and `map_range(a2, a1, a2, b1, b2) == b2` |
| Crsf.MapRangeMonotone | rc_app1.py:20-21 | for an increasing domain and codomain, `x <= y` implies `map_range(x) <= map_range(y)` |
| Crsf.MapRangeWithin | rc_app1.py:20-21 | an input inside the domain lands inside the codomain |
| Crsf.MapRangeCentre | rc_app1.py:20-21 | `map_range(0, -1, 1, 172, 1811) == 991` (991.5 truncated) |
| Crsf.AccumulateChannel | rc_app1.py:28-29 | after `buf \|= (c & 0x7FF) << bits; bits += 11`, the accumulator holds its old bits followed by the channel's 11 bits |
| Crsf.EmitByte | rc_app1.py:30-33 | emitting `buf & 0xFF` and shifting by 8 moves 8 bits from the accumulator to the output without losing or reordering any |
| Crsf.FlushByte | rc_app1.py:34-35 | the trailing partial byte carries the remaining bits, zero-padded to 8 |
| Crsf.ByteBitsSnoc | rc_app1.py:31 | appending one byte to the output appends its 8 bits, LSB first, to the output's bit stream |
| Crsf.PartialByteBits | rc_app1.py:34-35 | fewer than 8 leftover bits form a byte whose 8 bits are those bits followed by zeros |
| Crsf.DrainBytes | rc_app1.py:30-33 | the inner `while bits >= 8` loop leaves fewer than 8 bits in the accumulator and moves whole bytes to the output; the bit stream of output plus accumulator is unchanged |
| Crsf.PackChannel | rc_app1.py:27-33 | one iteration of the channel loop appends the channel's 11 masked bits to the bit stream of output plus accumulator, leaving fewer than 8 bits pending |
| Crsf.PackPayload | rc_app1.py:23-36 | the packing loops produce exactly `Payload(ch)`; they keep `bits < 8` and `buf < 2^bits` after each flush and `8*len(out) + bits == 11*i` |
| Crsf.Payload | rc_app1.py:23-36 | the reference payload: the channel bits, zero-padded to whole bytes, grouped into bytes LSB first; `PackPayload` is proved equal to it |
| Crsf.PayloadLength | rc_app1.py:27-36 | the payload has `ceil(11n/8)` bytes: `11n` channel bits plus under 8 padding bits |
| Crsf.PayloadBits | rc_app1.py:27-36 | the payload's bits, LSB first, are each channel's 11 bits in order, then zero padding |
| Crsf.ReadChannelBits | rc_app1.py:27-29 | reading the channel bits back 11 at a time yields `c & 0x7FF` for every channel, in order |
| Crsf.EncodeFrame | rc_app1.py:36-41 | the frame exists exactly when the length byte fits, i.e. for at most 184 channels; otherwise `bytes()` raises |
| Crsf.PackCrsfChannels | rc_app1.py:23-41 | the whole function, with its checksum loop, returns exactly `EncodeFrame(ch)`, the `ValueError` case included |
| Crsf.EncodeDecode | rc_app1.py:23-41 | round trip: decoding the frame of `ch` succeeds and yields `c & 0x7FF` for every channel |
| Crsf.MaskedInRange | rc_app1.py:28 | `c & 0x7FF` leaves a channel already in [0, 2047] unchanged |
| Crsf.EncodeDecodeInRange | rc_app1.py:23-41 | round trip: channels in [0, 2047] decode from their frame exactly as given |
| Crsf.SixteenChannelFrame | rc_app1.py:23-41 | 16 channels give a 26-byte frame: `0xC8`, `24`, `0x16`, the 22-byte payload with no padding, and the checksum of bytes 2..24 |
| Crsf.ChecksumStep | rc_app1.py:38-40 | one iteration of `crc = (crc + b) & 0xFF` extends the checksum by one byte |
| Crsf.Checksum | rc_app1.py:37-40 | the additive checksum: the sum of the bytes mod 256; `SumBytes` is its loop, `ChecksumDetectsByteChange` its property |
| Crsf.SumBytes | rc_app1.py:38-40 | the checksum loop returns the sum of the bytes mod 256 |
| Crsf.ChecksumDetectsByteChange | rc_app1.py:38-40 | changing any single byte of the summed range changes the checksum |
| Crsf.PayloadByteChangeDetected | rc_app1.py:37-41 | a frame with one payload byte changed is rejected by the decoder with `BadChecksum` |
| Shaping.DeadzoneShape | rc_app1.py:456-460 | `\|raw\| < dz` gives 0; otherwise the sign of `raw` is kept and the magnitude is `(\|raw\| - dz)/(1 - dz)` |
| Shaping.DeadzoneBounded | rc_app1.py:456-460 | inputs in [-1, 1] stay in [-1, 1]; ±1 map to ±1 and 0 to 0 |
| Shaping.DeadzoneMonotone | rc_app1.py:456-460 | the rescale never reverses the order of two inputs |
| Shaping.Deadzone | rc_app1.py:456-460 | the deadzone rescale, used for steering here and for the head axes at lines 517-525; `DeadzoneShape`, `DeadzoneBounded` and `DeadzoneMonotone` state its properties |
| Shaping.RateRange | rc_app1.py:289-294 | a response slider in 50..400 gives a rate `slider/1000` in [0.05, 0.4] |
| Shaping.Rate | rc_app1.py:469-470 | the rate of a response slider, `slider / 1000`; `RateRange` bounds it |
| Shaping.Smooth | rc_app1.py:469-470 | one smoothing step `x + (target - x) * k`; `SmoothStep`, `SmoothGap` and `SmoothConverges` state its properties |
| Shaping.SmoothStep | rc_app1.py:469-470 | the smoothed value lies between the old value and the target, and the gap shrinks to exactly `(1 - k)` times its size |
| Shaping.SmoothStaysWithin | rc_app1.py:469-470 | an interval holding both the value and the target holds the smoothed value |
| Shaping.SmoothGap | rc_app1.py:469-470 | after `n` ticks toward a fixed target the signed gap is `(1 - k)^n` times the initial gap |
| Shaping.SmoothConverges | rc_app1.py:469-470 | after `n` ticks toward a fixed target the error is `(1 - k)^n` times the initial error |
| Shaping.WrapYawAngle | rc_app1.py:532-535 | the wrap changes `yaw - offset` by 0 or ±360 only, and leaves values in [-180, 180] alone |
| Shaping.WrapYawRange | rc_app1.py:532-535 | a difference within ±540 is brought into [-180, 180] |
| Shaping.WrapYaw | rc_app1.py:532-535 | `yaw - offset` with one correction by 360 degrees each way; `WrapYawAngle` and `WrapYawRange` state its properties |
| Shaping.ClampPitchRange | rc_app1.py:533-536 | the adjusted pitch always lies in [-45, 45]: unchanged inside, ±45 outside |
| Shaping.ClampPitch | rc_app1.py:533-536 | `max(-45, min(45, pitch - offset))`; `ClampPitchRange` states its effect |
| Shaping.OrientationExamples | rc_app1.py:532-536 | yaw 190 → -170, yaw -190 → 170, pitch 60 → 45, pitch -60 → -45 |
| Shaping.CalibratedIsCentred | rc_app1.py:532-536 | with the offsets equal to the readings, both adjusted angles are 0 |
| Shaping.AxisToUnitRange | rc_app1.py:538-548 | `(raw + 1)/2` maps [-1, 1] into [0, 1], and the reverse threshold `> 0.5` holds exactly when `raw > 0` |
| Shaping.AxisToUnit | rc_app1.py:538-546 | `(raw + 1) / 2`; `AxisToUnitRange` bounds it |
| Shaping.Reverse | rc_app1.py:548-551 | the reverse indicator shows when the L2 level exceeds 0.5; `AxisToUnitRange` relates it to the raw axis |
| Shaping.ChannelVectorRange | rc_app1.py:553-558 | 16 channels; the five live ones lie in [172, 1811] when their inputs are in their domains; the other eleven are 1024 |
| Shaping.ChannelVector | rc_app1.py:553-558 | the 16 channels: the five mapped inputs, then 1024; `ChannelVectorRange` states their ranges |
| Shaping.ChannelFrameRoundTrip | rc_app1.py:553-558 | an in-domain channel vector goes through the frame unchanged |
| Shaping.SteeringExample | rc_app1.py:456-470 | full right steering with deadzone 5% and rate 200 moves steer from 0 to 0.2, channel 1155 |
| SensorLines.FirstLineLength | rc_app1.py:479 | the first line of `splitlines(True)` ends just after the first line break, or at the end of the text: no break occurs before its end except the `\r` of a final `\r\n`, and a line ending in `\r` is never cut before a following `\n` |
| SensorLines.FirstLineIsPiece | rc_app1.py:479 | the first line is a line piece: non-empty, with a line break only at its end (`\r\n` counting as one) |
| SensorLines.SplitLines | rc_app1.py:479 | `splitlines(True)`: the first line, then the lines of the rest; its properties are `SplitLinesShape` |
| SensorLines.SplitLinesShape | rc_app1.py:479 | the lines concatenate back to the text; each holds a line break only at its end (`\r\n` counts as one); all but the last end in one; no line ending in `\r` is followed by one starting with `\n` |
| SensorLines.SplitLinesKeepCrLf | rc_app1.py:479 | a `\r\n` is never torn across two lines: a line ending in `\r` is never followed by a line starting with `\n` |
| SensorLines.SplitExample | rc_app1.py:479 | `"A\x0bB\n"` splits into `"A\x0b"` and `"B\n"`: `\x0b` is a line break for `splitlines` |
| SensorLines.TrimStart | rc_app1.py:484 | `strip()` on the left: the result is a suffix of the text, every character removed before it is whitespace, and it does not start with whitespace |
| SensorLines.TrimEnd | rc_app1.py:484 | `strip()` on the right: the result is a prefix of the text, every character removed after it is whitespace, and it does not end in whitespace |
| SensorLines.Strip | rc_app1.py:484 | `s.strip()`: the leading whitespace run and then the trailing one removed, as `TrimStart` and `TrimEnd` state |
| SensorLines.SplitBuffer | rc_app1.py:479-487 | the loop over the lines yields the stripped complete lines in order, and the last incomplete line as `rem` |
| SensorLines.RemainderIsIncompleteLine | rc_app1.py:480-487 | `rem` is empty or one of the lines that does not end in `\n`/`\r` |
| SensorLines.RemainderHasNoTerminator | rc_app1.py:478-487 | the buffer kept for the next read never contains `\n` or `\r` |
| SensorLines.RemainderIsFinalFragment | rc_app1.py:478-487 | when `\n` and `\r` are the only line breaks in the text, the kept buffer is exactly the text after the last `\n`/`\r` |
| SensorLines.EarlierFragmentKept | rc_app1.py:479-487 | with other `splitlines` breaks the buffer can keep an earlier fragment: `"A\x0bB\n"` leaves `"A\x0b"` |
| SensorLines.RemoveSpaces | rc_app1.py:490 | `replace(" ", "")` leaves no space and never lengthens the line |
| SensorLines.RemoveSpacesOne | rc_app1.py:490 | `replace(" ", "")` on one character: a space becomes nothing, any other character stays |
| SensorLines.RemoveSpacesAppend | rc_app1.py:490 | `replace(" ", "")` of `a + b` is that of `a` followed by that of `b`, so the kept characters stay in order |
| SensorLines.Tokens | rc_app1.py:490 | `ln.replace(" ", "").split(",")`; `SensorLineTokens` gives the tokens of a sensor line |
| SensorLines.RemoveSpacesNoSpace | rc_app1.py:490 | `replace(" ", "")` leaves a line without spaces unchanged |
| SensorLines.Split | rc_app1.py:490 | `split(sep)` gives at least one piece and no piece contains the separator |
| SensorLines.SplitNoSeparator | rc_app1.py:490 | `split(sep)` of a text without the separator is that text alone |
| SensorLines.SplitAfterPiece | rc_app1.py:490 | `split(sep)` of `a + sep + b` is `a` followed by the pieces of `b` |
| SensorLines.SplitAtSeparator | rc_app1.py:495 | a text containing the separator splits into at least two pieces, so `split(":")[1]` exists |
| SensorLines.UpperChar | rc_app1.py:494-497 | `upper()` on one character: `a`-`z` become `A`-`Z`, every other character is kept |
| SensorLines.HasTag | rc_app1.py:494-497 | `p.upper().startswith(tag)`: the token is at least as long as the tag and its upper-cased start equals the tag |
| SensorLines.Field | rc_app1.py:495-497 | `p.split(":")[1]`, which exists for a tagged token (`SplitAtSeparator`); `TaggedField` gives its value for `YAW:v` and `PITCH:v` |
| SensorLines.ApplyToken | rc_app1.py:493-497 | one token of the loop: a `YAW:` token sets yaw, a `PITCH:` token sets pitch, a failing `float()` gives `None` |
| SensorLines.TokenValues | rc_app1.py:491-501 | the tokens of one line folded in order through `ApplyToken`; `ParseLine` is its loop, `LastTokenWins` and `SkippedIffBadToken` its properties |
| SensorLines.TaggedHasColon | rc_app1.py:494-497 | a token that starts with `YAW:` or `PITCH:` after upper-casing contains a ':' |
| SensorLines.TaggedField | rc_app1.py:494-497 | `YAW:v` carries the yaw tag only, `PITCH:v` the pitch tag only, and `split(":")[1]` of either is `v` |
| SensorLines.YawAndPitchTagsExclusive | rc_app1.py:494-497 | no token carries both tags |
| SensorLines.ParseLine | rc_app1.py:489-503 | the token loop of one line returns exactly the values `TokenValues` assigns to it, or `None` where `float()` raises |
| SensorLines.FailureIsFinal | rc_app1.py:489-503 | once a token fails to parse, the whole line is skipped whatever follows |
| SensorLines.SkippedIffBadToken | rc_app1.py:489-503 | a line is skipped if and only if one of its tagged tokens fails to parse |
| SensorLines.LastTokenWins | rc_app1.py:493-501 | a line that parses sets yaw and pitch from its last `YAW:`/`PITCH:` token, and leaves an axis it does not mention unset |
| SensorLines.SensorLineTokens | rc_app1.py:490 | the line `YAW:<y>,PITCH:<p>` splits into its two tokens |
| SensorLines.SensorLineRoundTrip | rc_app1.py:488-503 | the line `YAW:<y>,PITCH:<p>` sets yaw to `float(y)` and pitch to `float(p)`, and is skipped when either does not parse |
| SensorLines.ApplyCompleteLines | rc_app1.py:488-503 | the loop over the complete lines gives the yaw and pitch of `ApplyLines`: each line in order, a skipped line changing neither |
| SensorLines.ApplyLines | rc_app1.py:488-503 | the complete lines applied in order: a line that parses sets the axes it mentions, a skipped line changes nothing; `ApplyCompleteLines` is its loop |
| Control.JoystickTargetsInRange | rc_app1.py:445-546 | with axes in [-1, 1], steering target in [-1, 1], throttle target and L2 level in [0, 1], joystick head yaw in [-90, 90] and pitch in [-45, 45] |
| Control.SteerAxis | rc_app1.py:445-454 | axis 0, or 0 without a joystick or when reading it raises; `JoystickTargetsInRange` bounds it after the deadzone |
| Control.ThrottleTarget | rc_app1.py:445-454 | axis 5 moved onto [0, 1] when there are more than five axes, else 0; `JoystickTargetsInRange` bounds it |
| Control.HeadFromJoystick | rc_app1.py:512-530 | yaw and pitch from axes 2 and 3 (0 when missing) through the head deadzone, scaled by -90 and -45; unchanged when pygame raises; `JoystickTargetsInRange` bounds them |
| Control.L2Level | rc_app1.py:538-546 | the L2 axis moved onto [0, 1] when the joystick has it, else 0; `JoystickTargetsInRange` bounds it |
| Control.PresetsInRange | rc_app1.py:413-425 | every profile preset lies within the slider ranges |
| Control.Preset | rc_app1.py:413-427 | the three named profiles and their slider values; any other name has none; `PresetsInRange` bounds them |
| Control.SmoothingKeepsRanges | rc_app1.py:445-470 | one tick keeps steering in [-1, 1] and throttle in [0, 1] when the axes are in [-1, 1] |
| Control.RcApp.constructor | rc_app1.py:53-353 | the initial state of `__init__` and `init_ui`: at rest, sending on, nothing attached, Arduino head source, head deadzone 5 (lines 330-332); the tuning sliders start at 200/200/5 (lines 289-297) and the Beginner profile loaded at line 353 leaves 120/120/10 |
| Control.RcApp.ToggleSending | rc_app1.py:403-404 | flips `sending_enabled` and changes nothing else |
| Control.RcApp.CalibrateHead | rc_app1.py:433-435 | the offsets become the current yaw and pitch, so both adjusted angles are 0; nothing else changes |
| Control.RcApp.LoadProfile | rc_app1.py:413-427 | Beginner, Sport and Race set their three sliders; any other name changes nothing |
| Control.RcApp.ResetTuning | rc_app1.py:407-411 | rates back to 200 and steering deadzone to 5; the head deadzone and everything else unchanged |
| Control.RcApp.ChangeHeadSource | rc_app1.py:429-431 | index 0 selects the Arduino, any other index the joystick |
| Control.RcApp.ConnectOutput | rc_app1.py:378-388 | with a port selected, the output is attached exactly when opening succeeds; without one nothing changes |
| Control.RcApp.ConnectInput | rc_app1.py:390-401 | like the output; a successful open also empties the receive buffer |
| Control.RcApp.ReceiveText | rc_app1.py:477-503 | the buffer becomes the unterminated tail of old buffer + text, and yaw/pitch follow the complete lines |
| Control.RcApp.SmoothDrive | rc_app1.py:445-470 | steering moves toward the deadzoned axis 0 and throttle toward axis 5, each by its rate; both stay in range when the axes are in [-1, 1]; nothing else changes |
| Control.RcApp.UpdateHead | rc_app1.py:472-530 | Arduino source: received text is processed, no data changes nothing, a read exception detaches the input and keeps the buffer; joystick source: yaw and pitch from axes 2 and 3 |
| Control.RcApp.SendChannels | rc_app1.py:560-568 | the frame is written only with an output attached and sending on; a failed write detaches the output |
| Control.RcApp.Tick | rc_app1.py:445-568 | the new state of one tick and the frame written. It keeps the slider ranges and a terminator-free buffer, and keeps steer/throttle in range. An in-domain channel vector is in [172, 1811] and decodes back from the frame |

## Left out

- The Qt window, styling, the labels (status, reverse indicator text, telemetry) and all rendering: presentation only.
- Joystick discovery and re-initialisation (`init_pygame`, `reinit_joystick`, `update_joystick_label`) are not modelled. The joystick present in a tick is an input of `Tick`.
- A joystick that fails on one call but not another within the same tick is not modelled: `readFails` is one flag per tick.
- Port listing (`refresh_ports`), `closeEvent` and the bytes on the wire are not modelled. `connect_serial_*` keep only their effect on the state. A read delivers already-decoded text, so `decode(errors='ignore')` is not modelled, and `in_waiting == 0` is `NoData`.
- SendChannels: `sent` is the frame handed to `write`; a partial write is not modelled.
- The timers and the `time.time()`/`dt` bookkeeping (`last_time`): scheduling only, and `dt` is never used.
- `last_steer` and `last_throttle`: written by `update_logic` but never read by the logic.
- Floating point: `real` replaces IEEE doubles. Rounding, NaN, infinities and the sign of zero that `math.copysign` can observe are not modelled.
- Python's `float()` is the parameter `parse`. Its accepted syntax is not modelled.
- SensorLines.UpperChar: `str.upper()` is modelled for ASCII letters only; Unicode case mappings, some of which change a string's length, are not modelled.
- Crsf.MapRange: requires `a1 != a2`. The source would raise `ZeroDivisionError` there, and every call site passes distinct domain ends.
- SensorLines.RemainderIsFinalFragment: requires that `\n` and `\r` are the only line breaks in the text. With another `splitlines` break (`\x0b`, `\x0c`, `\x1c`-`\x1e`, `\x85`, `\u2028`, `\u2029`), a fragment ending in it can stay in the buffer in front of later text (`EarlierFragmentKept`).
- The profile combo box and the slider widgets themselves are not modelled. `LoadProfile` is the slot the combo box calls, and the slider values are fields.
