/**
  The CRSF section of rc_app1.py: the linear channel mapping `map_range`
  and the RC-channels frame encoder `pack_crsf_channels`, together with a
  reference decoder that reads a frame back.

  Frame layout: [address 0xC8][payload length + 2][type 0x16][payload][checksum]
  where the payload holds every channel value masked to 11 bits, packed
  least significant bit first, and the checksum is the sum mod 256 of the
  type byte and the payload bytes.
 */
module Crsf {
  import opened Wrappers
  import opened Bits

  type Byte = x: int | 0 <= x < 256

  const CRSF_ADDRESS: Byte := 0xC8
  const CRSF_FRAMETYPE_RC_CHANNELS: Byte := 0x16

  /** Lowest and highest channel value produced by the mapping. */
  const CHANNEL_MIN: int := 172
  const CHANNEL_MAX: int := 1811

  /** The width of one packed channel value. */
  const CHANNEL_BITS: nat := 11

  // ---------------------------------------------------------------------
  // map_range
  // ---------------------------------------------------------------------

  /** Python's `int(x)` on a float: truncation toward zero. */
  function Trunc(x: real): (r: int)
    ensures 0.0 <= x ==> 0 <= r && r as real <= x < r as real + 1.0
    ensures x < 0.0 ==> r <= 0 && r as real - 1.0 < x <= r as real
  {
    if x >= 0.0 then x.Floor else -((-x).Floor)
  }

  /** The straight line through `(a1, b1)` and `(a2, b2)`, evaluated at `x`. */
  function Interpolate(x: real, a1: int, a2: int, b1: int, b2: int): real
    requires a1 != a2
  {
    b1 as real + (x - a1 as real) * (b2 - b1) as real / (a2 - a1) as real
  }

  /** `int(b1 + (x - a1) * (b2 - b1) / (a2 - a1))`; the source divides by zero when `a1 == a2`. */
  function MapRange(x: real, a1: int, a2: int, b1: int, b2: int): int
    requires a1 != a2
  {
    Trunc(Interpolate(x, a1, a2, b1, b2))
  }

  lemma TruncMonotone(x: real, y: real)
    requires x <= y
    ensures Trunc(x) <= Trunc(y)
  {
  }

  lemma TruncOfInt(k: int)
    ensures Trunc(k as real) == k
  {
  }

  /** The domain's end points are sent to the codomain's end points. */
  lemma MapRangeEndpoints(a1: int, a2: int, b1: int, b2: int)
    requires a1 != a2
    ensures MapRange(a1 as real, a1, a2, b1, b2) == b1
    ensures MapRange(a2 as real, a1, a2, b1, b2) == b2
  {
    var s := (b2 - b1) as real;
    var d := (a2 - a1) as real;
    assert Interpolate(a1 as real, a1, a2, b1, b2) == b1 as real;
    assert a2 as real - a1 as real == d;
    assert Interpolate(a2 as real, a1, a2, b1, b2) == b1 as real + d * s / d;
    MulDivCancel(d, s);
    assert b1 as real + s == b2 as real;
    TruncOfInt(b1);
    TruncOfInt(b2);
  }

  lemma MulDivCancel(d: real, s: real)
    requires d != 0.0
    ensures d * s / d == s
  {
  }

  /** With an increasing domain and a non-decreasing codomain the mapping is monotone. */
  lemma MapRangeMonotone(x: real, y: real, a1: int, a2: int, b1: int, b2: int)
    requires a1 < a2 && b1 <= b2 && x <= y
    ensures MapRange(x, a1, a2, b1, b2) <= MapRange(y, a1, a2, b1, b2)
  {
    var s := (b2 - b1) as real;
    var d := (a2 - a1) as real;
    var p, q := (x - a1 as real) * s, (y - a1 as real) * s;
    assert q - p == (y - x) * s;
    assert (y - x) * s >= 0.0;
    assert q / d - p / d == (q - p) / d;
    assert Interpolate(x, a1, a2, b1, b2) == b1 as real + p / d;
    assert Interpolate(y, a1, a2, b1, b2) == b1 as real + q / d;
    TruncMonotone(Interpolate(x, a1, a2, b1, b2), Interpolate(y, a1, a2, b1, b2));
  }

  /** A value inside the domain lands inside the codomain. */
  lemma MapRangeWithin(x: real, a1: int, a2: int, b1: int, b2: int)
    requires a1 < a2 && b1 <= b2
    requires a1 as real <= x <= a2 as real
    ensures b1 <= MapRange(x, a1, a2, b1, b2) <= b2
  {
    MapRangeEndpoints(a1, a2, b1, b2);
    MapRangeMonotone(a1 as real, x, a1, a2, b1, b2);
    MapRangeMonotone(x, a2 as real, a1, a2, b1, b2);
  }

  /** The centre of [-1, 1] maps to 991.5, which truncates to 991. */
  lemma MapRangeCentre()
    ensures MapRange(0.0, -1, 1, CHANNEL_MIN, CHANNEL_MAX) == 991
  {
    assert Interpolate(0.0, -1, 1, CHANNEL_MIN, CHANNEL_MAX) == 991.5;
  }

  // ---------------------------------------------------------------------
  // Bit-level payload
  // ---------------------------------------------------------------------

  /** The channel values masked to 11 bits (`c & 0x7FF`). */
  function Masked(ch: seq<int>): (r: seq<int>)
    ensures |r| == |ch|
    ensures forall i :: 0 <= i < |ch| ==> 0 <= r[i] < 2048 && r[i] % 2048 == ch[i] % 2048
  {
    seq(|ch|, i requires 0 <= i < |ch| => ch[i] % 2048)
  }

  /** The bit stream of the channels: 11 bits each, least significant first, in order. */
  function ChannelBits(ch: seq<int>): (r: seq<bool>)
    ensures |r| == 11 * |ch|
  {
    if ch == [] then [] else ChannelBits(ch[..|ch| - 1]) + ToBits(ch[|ch| - 1] % 2048, CHANNEL_BITS)
  }

  /** The bit stream of a byte string: 8 bits per byte, least significant first. */
  function ByteBits(bs: seq<Byte>): (r: seq<bool>)
    ensures |r| == 8 * |bs|
  {
    if bs == [] then [] else ByteBits(bs[..|bs| - 1]) + ToBits(bs[|bs| - 1], BYTE_BITS)
  }

  /** Groups a bit stream into bytes, 8 bits each, least significant first. */
  function BitsToBytes(bits: seq<bool>): (r: seq<Byte>)
    requires |bits| % 8 == 0
    ensures |r| == |bits| / 8
  {
    if bits == [] then []
    else
      assert Pow2(8) == 256;
      BitsToBytes(bits[..|bits| - 8]) + [FromBits(bits[|bits| - 8..])]
  }

  /** Zero bits that fill the last byte of an `n`-channel payload. */
  function PadBits(n: nat): (p: nat)
    ensures p < 8
  {
    (8 - (11 * n) % 8) % 8
  }

  /** Adding the padding to a bit count gives a multiple of 8. */
  lemma PadFill(m: nat)
    ensures (m + (8 - m % 8) % 8) % 8 == 0
  {
  }

  /** The padding completes the last byte, so the padded stream is whole bytes. */
  lemma PaddedLength(ch: seq<int>)
    ensures |ChannelBits(ch) + Zeros(PadBits(|ch|))| % 8 == 0
  {
    PadFill(11 * |ch|);
  }

  /** The payload of `pack_crsf_channels`: the channel bit stream, zero-padded to whole bytes. */
  function Payload(ch: seq<int>): seq<Byte>
  {
    PaddedLength(ch);
    BitsToBytes(ChannelBits(ch) + Zeros(PadBits(|ch|)))
  }

  /** The payload has ceil(11 n / 8) bytes. */
  lemma PayloadLength(ch: seq<int>)
    ensures 8 * |Payload(ch)| == 11 * |ch| + PadBits(|ch|)
    ensures |Payload(ch)| == (11 * |ch| + 7) / 8
  {
    PaddedLength(ch);
  }

  lemma {:induction false} ByteBitsOfBitsToBytes(bits: seq<bool>)
    requires |bits| % 8 == 0
    ensures ByteBits(BitsToBytes(bits)) == bits
  {
    if bits != [] {
      var n := |bits|;
      var front, last := bits[..n - 8], bits[n - 8..];
      assert |front| % 8 == 0 by {
        ModEight(n - 8, n / 8 - 1, 0);
      }
      assert FromBits(last) < 256 by {
        assert Pow2(8) == 256;
      }
      var b: Byte := FromBits(last);
      assert ByteBits(BitsToBytes(bits)) == ByteBits(BitsToBytes(front)) + ToBits(b, BYTE_BITS) by {
        assert BitsToBytes(bits) == BitsToBytes(front) + [b];
        ByteBitsSnoc(BitsToBytes(front), b);
      }
      assert ByteBits(BitsToBytes(front)) == front by {
        ByteBitsOfBitsToBytes(front);
      }
      assert ToBits(b, BYTE_BITS) == last by {
        assert |last| == BYTE_BITS;
        ToFromBits(last);
      }
      assert bits == front + last;
    }
  }

  lemma {:induction false} BitsToBytesOfByteBits(bs: seq<Byte>)
    ensures BitsToBytes(ByteBits(bs)) == bs
  {
    if bs != [] {
      var n := |bs|;
      var b := bs[n - 1];
      var front := ByteBits(bs[..n - 1]);
      var last := ToBits(b, BYTE_BITS);
      assert ByteBits(bs) == front + last;
      BitsToBytesSnoc(front, last);
      assert BitsToBytes(front) == bs[..n - 1] by {
        BitsToBytesOfByteBits(bs[..n - 1]);
      }
      assert FromBits(last) == b as nat by {
        assert Pow2(8) == 256;
        FromToBits(b as nat, BYTE_BITS);
      }
      assert bs == bs[..n - 1] + [b];
    }
  }

  /** Eight more bits make one more byte. */
  lemma BitsToBytesSnoc(front: seq<bool>, last: seq<bool>)
    requires |front| % 8 == 0 && |last| == BYTE_BITS
    ensures FromBits(last) < 256
    ensures BitsToBytes(front + last) == BitsToBytes(front) + [FromBits(last) as Byte]
  {
    assert Pow2(8) == 256;
    var bits := front + last;
    assert |bits| % 8 == 0 by {
      ModEight(|bits|, |front| / 8 + 1, 0);
    }
    assert bits[..|bits| - 8] == front;
    assert bits[|bits| - 8..] == last;
  }

  /** The payload's bit stream is the channel bit stream followed by the padding. */
  lemma PayloadBits(ch: seq<int>)
    ensures ByteBits(Payload(ch)) == ChannelBits(ch) + Zeros(PadBits(|ch|))
  {
    PaddedLength(ch);
    ByteBitsOfBitsToBytes(ChannelBits(ch) + Zeros(PadBits(|ch|)));
  }

  // ---------------------------------------------------------------------
  // Checksum and frame
  // ---------------------------------------------------------------------

  function Sum(s: seq<Byte>): int
  {
    if s == [] then 0 else Sum(s[..|s| - 1]) + s[|s| - 1]
  }

  /** The additive checksum: the byte sum mod 256 (not the CRC-8 of the CRSF protocol). */
  function Checksum(s: seq<Byte>): Byte
  {
    Sum(s) % 256
  }

  lemma ChecksumStep(s: seq<Byte>, b: Byte)
    ensures Checksum(s + [b]) == (Checksum(s) + b) % 256
  {
    assert (s + [b])[..|s|] == s;
    var q := Sum(s) / 256;
    assert Sum(s) == 256 * q + Checksum(s);
    assert Sum(s) + b == 256 * q + (Checksum(s) + b);
  }

  /** Replacing one byte changes the sum by the difference of the two values. */
  lemma {:induction false} SumUpdate(s: seq<Byte>, j: nat, v: Byte)
    requires j < |s|
    ensures Sum(s[j := v]) == Sum(s) - s[j] + v
  {
    var n := |s|;
    assert s[j := v][..n - 1] == if j == n - 1 then s[..n - 1] else s[..n - 1][j := v];
    if j < n - 1 {
      SumUpdate(s[..n - 1], j, v);
    }
  }

  /** Changing any single byte to a different value changes the checksum. */
  lemma ChecksumDetectsByteChange(s: seq<Byte>, j: nat, v: Byte)
    requires j < |s| && v != s[j]
    ensures Checksum(s[j := v]) != Checksum(s)
  {
    SumUpdate(s, j, v);
  }

  datatype EncodeError =
    /** `bytes([...])` rejects a length byte above 255 (more than 184 channels). */
    LengthOutOfByteRange

  /**
    The frame `pack_crsf_channels` returns, or the error it raises when the
    length byte does not fit in a byte.
   */
  function EncodeFrame(ch: seq<int>): (r: Result<seq<Byte>, EncodeError>)
    ensures r.Success? <==> |ch| <= 184
  {
    var payload := Payload(ch);
    if |payload| + 2 > 255 then Failure(LengthOutOfByteRange)
    else
      var frame := [CRSF_ADDRESS, |payload| + 2, CRSF_FRAMETYPE_RC_CHANNELS] + payload;
      Success(frame + [Checksum(frame[2..])])
  }

  lemma ShiftedBound(low: nat, v: nat, p: nat)
    requires low < p && v < 2048
    ensures low + v * p < p * 2048
  {
    assert v * p <= 2047 * p;
  }

  /** One channel entering the accumulator: `buf |= (c & 0x7FF) << bits`, `bits += 11`. */
  lemma AccumulateChannel(buf: nat, bits: nat, v: nat)
    requires buf < Pow2(bits) && v < 2048
    ensures BitOr(buf, v * Pow2(bits)) < Pow2(bits + 11)
    ensures ToBits(BitOr(buf, v * Pow2(bits)), bits + 11) == ToBits(buf, bits) + ToBits(v, CHANNEL_BITS)
  {
    var p := Pow2(bits);
    DisjointOr(buf, v, bits);
    assert buf + v * p < Pow2(bits + 11) by {
      Pow2Add(bits, 11);
      assert Pow2(11) == 2048;
      ShiftedBound(buf, v, p);
    }
    ToBitsSplit(buf, v, bits, CHANNEL_BITS);
  }

  /** Appending one byte appends its 8 bits. */
  lemma ByteBitsSnoc(out: seq<Byte>, b: Byte)
    ensures ByteBits(out + [b]) == ByteBits(out) + ToBits(b, BYTE_BITS)
  {
    assert (out + [b])[..|out|] == out;
  }

  /** One byte leaving the accumulator: `out.append(buf & 0xFF)`, `buf >>= 8`, `bits -= 8`. */
  lemma EmitByte(out: seq<Byte>, buf: nat, bits: nat)
    requires 8 <= bits && buf < Pow2(bits)
    ensures buf / 256 < Pow2(bits - 8)
    ensures ByteBits(out + [buf % 256]) + ToBits(buf / 256, bits - 8) == ByteBits(out) + ToBits(buf, bits)
  {
    LowByteBits(buf, bits);
    ByteBitsSnoc(out, buf % 256);
  }

  /** Fewer than 8 bits, written as a byte, are followed by zero bits. */
  lemma PartialByteBits(buf: nat, bits: nat)
    requires 0 < bits < 8 && buf < Pow2(bits)
    ensures buf < 256
    ensures ToBits(buf, BYTE_BITS) == ToBits(buf, bits) + Zeros(8 - bits)
  {
    Pow2Monotone(bits, 8);
    assert Pow2(8) == 256;
    ToBitsSplit(buf, 0, bits, 8 - bits);
    assert buf + 0 * Pow2(bits) == buf;
    ZeroBits(8 - bits);
  }

  /** The trailing partial byte, zero-padded: `if bits: out.append(buf & 0xFF)`. */
  lemma FlushByte(out: seq<Byte>, buf: nat, bits: nat)
    requires 0 < bits < 8 && buf < Pow2(bits)
    ensures buf % 256 == buf
    ensures ByteBits(out + [buf % 256]) == ByteBits(out) + ToBits(buf, bits) + Zeros(8 - bits)
  {
    PartialByteBits(buf, bits);
    ByteBitsSnoc(out, buf);
  }

  lemma ChannelBitsPrefix(ch: seq<int>, i: nat)
    requires i < |ch|
    ensures ChannelBits(ch[..i + 1]) == ChannelBits(ch[..i]) + ToBits(ch[i] % 2048, CHANNEL_BITS)
  {
    assert ch[..i + 1][..i] == ch[..i];
  }

  lemma ModEight(x: int, q: int, r: int)
    requires x == 8 * q + r && 0 <= r < 8
    ensures x % 8 == r
  {
  }

  /** Whatever is left in the accumulator after the last channel is exactly the padding's complement. */
  lemma LeftoverBits(n: nat, bytes: nat, bits: nat)
    requires 8 * bytes + bits == 11 * n && bits < 8
    ensures bits == 0 ==> PadBits(n) == 0
    ensures bits > 0 ==> PadBits(n) == 8 - bits
  {
    ModEight(11 * n, bytes, bits);
  }

  /** With a partial byte left, flushing it gives the padded channel bits. */
  lemma FinishWithFlush(ch: seq<int>, out: seq<Byte>, buf: nat, bits: nat)
    requires 0 < bits < 8 && buf < Pow2(bits)
    requires 8 * |out| + bits == 11 * |ch|
    requires ByteBits(out) + ToBits(buf, bits) == ChannelBits(ch)
    ensures ByteBits(out + [buf % 256]) == ChannelBits(ch) + Zeros(PadBits(|ch|))
  {
    LeftoverBits(|ch|, |out|, bits);
    FlushByte(out, buf, bits);
  }

  /** With no partial byte left, the bytes out already are the padded channel bits. */
  lemma FinishWithoutFlush(ch: seq<int>, out: seq<Byte>, buf: nat)
    requires 8 * |out| == 11 * |ch|
    requires ByteBits(out) + ToBits(buf, 0) == ChannelBits(ch)
    ensures ByteBits(out) == ChannelBits(ch) + Zeros(PadBits(|ch|))
  {
    LeftoverBits(|ch|, |out|, 0);
    assert ToBits(buf, 0) == [] && Zeros(PadBits(|ch|)) == [];
    assert ByteBits(out) + [] == ByteBits(out);
    assert ChannelBits(ch) + [] == ChannelBits(ch);
  }

  /** After the last channel, flushing the partial byte (if any) completes the payload. */
  lemma FinishPayload(ch: seq<int>, out: seq<Byte>, buf: nat, bits: nat)
    requires bits < 8 && buf < Pow2(bits)
    requires 8 * |out| + bits == 11 * |ch|
    requires ByteBits(out) + ToBits(buf, bits) == ChannelBits(ch)
    ensures (if bits > 0 then out + [buf % 256] else out) == Payload(ch)
  {
    var full := if bits > 0 then out + [buf % 256] else out;
    if bits > 0 {
      FinishWithFlush(ch, out, buf, bits);
    } else {
      FinishWithoutFlush(ch, out, buf);
    }
    BitsToBytesOfByteBits(full);
  }

  /** The inner loop of `pack_crsf_channels`: emits whole bytes while 8 or more bits are buffered. */
  method DrainBytes(out0: seq<Byte>, buf0: nat, bits0: nat) returns (out: seq<Byte>, buf: nat, bits: nat)
    requires buf0 < Pow2(bits0)
    ensures bits < 8 && buf < Pow2(bits)
    ensures 8 * |out| + bits == 8 * |out0| + bits0
    ensures ByteBits(out) + ToBits(buf, bits) == ByteBits(out0) + ToBits(buf0, bits0)
  {
    out, buf, bits := out0, buf0, bits0;
    while bits >= 8
      invariant buf < Pow2(bits)
      invariant 8 * |out| + bits == 8 * |out0| + bits0
      invariant ByteBits(out) + ToBits(buf, bits) == ByteBits(out0) + ToBits(buf0, bits0)
      decreases bits
    {
      EmitByte(out, buf, bits);
      out := out + [buf % 256];  // buf & 0xFF
      buf := buf / 256;          // buf >>= 8
      bits := bits - 8;
    }
  }

  /**
    One iteration of the `for c in ch` loop: the channel's 11 bits enter the
    accumulator and whole bytes leave it.
   */
  method PackChannel(out0: seq<Byte>, buf0: nat, bits0: nat, c: int) returns (out: seq<Byte>, buf: nat, bits: nat)
    requires bits0 < 8 && buf0 < Pow2(bits0)
    ensures bits < 8 && buf < Pow2(bits)
    ensures 8 * |out| + bits == 8 * |out0| + bits0 + 11
    ensures ByteBits(out) + ToBits(buf, bits) == ByteBits(out0) + ToBits(buf0, bits0) + ToBits(c % 2048, CHANNEL_BITS)
  {
    var v: nat := c % 2048;  // c & 0x7FF
    var acc := BitOr(buf0, v * Pow2(bits0));  // buf |= (c & 0x7FF) << bits
    assert acc < Pow2(bits0 + 11) && ToBits(acc, bits0 + 11) == ToBits(buf0, bits0) + ToBits(v, CHANNEL_BITS) by {
      AccumulateChannel(buf0, bits0, v);
    }
    out, buf, bits := DrainBytes(out0, acc, bits0 + 11);
  }

  /** The packing loop of `pack_crsf_channels`: 11 bits per channel, whole bytes out, partial byte flushed. */
  method PackPayload(ch: seq<int>) returns (out: seq<Byte>)
    ensures out == Payload(ch)
  {
    var buf: nat := 0;
    var bits: nat := 0;
    out := [];
    var i := 0;
    while i < |ch|
      invariant 0 <= i <= |ch|
      invariant bits < 8 && buf < Pow2(bits)
      invariant 8 * |out| + bits == 11 * i
      invariant ByteBits(out) + ToBits(buf, bits) == ChannelBits(ch[..i])
    {
      ChannelBitsPrefix(ch, i);
      out, buf, bits := PackChannel(out, buf, bits, ch[i]);
      i := i + 1;
    }
    assert (if bits > 0 then out + [buf % 256] else out) == Payload(ch) by {
      assert ch[..i] == ch;
      FinishPayload(ch, out, buf, bits);
    }
    if bits > 0 {
      out := out + [buf % 256];
    }
  }

  /** The checksum loop `for b in frame[2:]: crc = (crc + b) & 0xFF`. */
  method SumBytes(s: seq<Byte>) returns (crc: Byte)
    ensures crc == Checksum(s)
  {
    crc := 0;
    var k := 0;
    while k < |s|
      invariant 0 <= k <= |s|
      invariant crc == Checksum(s[..k])
    {
      ChecksumStep(s[..k], s[k]);
      assert s[..k + 1] == s[..k] + [s[k]];
      crc := (crc + s[k]) % 256;  // crc = (crc + b) & 0xFF
      k := k + 1;
    }
    assert s[..k] == s;
  }

  /** `pack_crsf_channels`: packs the channels, frames them and appends the checksum. */
  method PackCrsfChannels(ch: seq<int>) returns (r: Result<seq<Byte>, EncodeError>)
    ensures r == EncodeFrame(ch)
  {
    var payload := PackPayload(ch);
    if |payload| + 2 > 255 {
      // bytes([...]) raises ValueError for a length byte outside range(0, 256)
      return Failure(LengthOutOfByteRange);
    }
    var frame := [CRSF_ADDRESS, |payload| + 2, CRSF_FRAMETYPE_RC_CHANNELS] + payload;
    var crc := SumBytes(frame[2..]);
    r := Success(frame + [crc]);
  }

  // ---------------------------------------------------------------------
  // Reference decoder
  // ---------------------------------------------------------------------

  /** Reads a bit stream back 11 bits at a time, least significant first. */
  function ReadChannels(bits: seq<bool>): (r: seq<int>)
    requires |bits| % 11 == 0
    ensures |r| == |bits| / 11
  {
    if bits == [] then [] else ReadChannels(bits[..|bits| - 11]) + [FromBits(bits[|bits| - 11..])]
  }

  lemma {:induction false} ReadChannelBits(ch: seq<int>)
    ensures ReadChannels(ChannelBits(ch)) == Masked(ch)
  {
    if ch != [] {
      var n := |ch|;
      var front := ChannelBits(ch[..n - 1]);
      var v := ch[n - 1] % 2048;
      var last := ToBits(v, CHANNEL_BITS);
      var bits := ChannelBits(ch);
      assert bits == front + last;
      assert bits[..|bits| - 11] == front;
      assert bits[|bits| - 11..] == last;
      assert ReadChannels(front) == Masked(ch[..n - 1]) by {
        ReadChannelBits(ch[..n - 1]);
      }
      assert FromBits(last) == v by {
        assert Pow2(11) == 2048;
        FromToBits(v, CHANNEL_BITS);
      }
      assert ReadChannels(bits) == ReadChannels(front) + [FromBits(last)];
      assert Masked(ch) == Masked(ch[..n - 1]) + [v];
    }
  }

  datatype DecodeError = TooShort | BadAddress | BadLength | BadFrameType | BadChecksum

  /** Checks the framing and the checksum, then reads `n` channels from the payload. */
  function DecodeFrame(frame: seq<Byte>, n: nat): Result<seq<int>, DecodeError>
  {
    if |frame| < 4 then Failure(TooShort)
    else if frame[0] != CRSF_ADDRESS then Failure(BadAddress)
    else if frame[1] as int + 2 != |frame| then Failure(BadLength)
    else if frame[2] != CRSF_FRAMETYPE_RC_CHANNELS then Failure(BadFrameType)
    else if frame[|frame| - 1] != Checksum(frame[2..|frame| - 1]) then Failure(BadChecksum)
    else
      var payload := frame[3..|frame| - 1];
      if 8 * |payload| < 11 * n then Failure(TooShort)
      else Success(ReadChannels(ByteBits(payload)[..11 * n]))
  }

  /** Channels already inside 11 bits come back from a frame exactly as they went in. */
  lemma EncodeDecodeInRange(ch: seq<int>)
    requires |ch| <= 184
    requires forall i :: 0 <= i < |ch| ==> 0 <= ch[i] < 2048
    ensures EncodeFrame(ch).Success?
    ensures DecodeFrame(EncodeFrame(ch).value, |ch|) == Success(ch)
  {
    EncodeDecode(ch);
    MaskedInRange(ch);
  }

  /** Masking leaves channels that already fit in 11 bits alone. */
  lemma MaskedInRange(ch: seq<int>)
    requires forall i :: 0 <= i < |ch| ==> 0 <= ch[i] < 2048
    ensures Masked(ch) == ch
  {
    var m := Masked(ch);
    forall i | 0 <= i < |ch|
      ensures m[i] == ch[i]
    {
      assert m[i] == ch[i] % 2048;
    }
  }

  /** Decoding an encoded frame gives back every channel masked to 11 bits, in order. */
  lemma EncodeDecode(ch: seq<int>)
    requires |ch| <= 184
    ensures EncodeFrame(ch).Success?
    ensures DecodeFrame(EncodeFrame(ch).value, |ch|) == Success(Masked(ch))
  {
    var payload := Payload(ch);
    var frame := EncodeFrame(ch).value;
    assert frame[3..|frame| - 1] == payload;
    assert frame[2..|frame| - 1] == [CRSF_FRAMETYPE_RC_CHANNELS] + payload;
    PayloadBits(ch);
    assert ByteBits(payload)[..11 * |ch|] == ChannelBits(ch);
    ReadChannelBits(ch);
  }

  /** A frame of 16 channels: 26 bytes, 22 of them payload with no padding. */
  lemma SixteenChannelFrame(ch: seq<int>)
    requires |ch| == 16
    ensures EncodeFrame(ch).Success?
    ensures var f := EncodeFrame(ch).value;
      && PadBits(16) == 0
      && |f| == 26
      && f[0] == 0xC8 && f[1] == 24 && f[2] == 0x16
      && f[3..25] == Payload(ch)
      && f[25] == Checksum(f[2..25])
  {
  }

  /** Altering any single payload byte of a frame makes the decoder reject its checksum. */
  lemma PayloadByteChangeDetected(ch: seq<int>, j: nat, v: Byte)
    requires |ch| <= 184
    requires 3 <= j < |EncodeFrame(ch).value| - 1 && v != EncodeFrame(ch).value[j]
    ensures DecodeFrame(EncodeFrame(ch).value[j := v], |ch|) == Failure(BadChecksum)
  {
    var f := EncodeFrame(ch).value;
    var g := f[j := v];
    var n := |f|;
    assert g[2..n - 1] == f[2..n - 1][j - 2 := v];
    ChecksumDetectsByteChange(f[2..n - 1], j - 2, v);
  }
}
