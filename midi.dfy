/**
 * MIDI bytes as the engine and the WebMidi stub handle them.
 *
 * JavaScript evaluates `a | b` and `a & b` on the 32-bit two's-complement
 * images of its operands (ToInt32). That is modelled explicitly here, bit by
 * bit on non-negative integers, so that an out-of-range channel handed to
 * `sendControlChange` yields exactly the number JavaScript would produce.
 */
module Midi {

  /** One byte of an inbound message (Web MIDI delivers a Uint8Array). */
  type Byte = b: int | 0 <= b < 256

  const NoteOn: int := 0x90
  const ControlChangeType: int := 0xB0
  const AllNotesOff: int := 123
  const ResetAllControllers: int := 121

  // ---------------------------------------------------------------------
  // JavaScript 32-bit bitwise operators
  // ---------------------------------------------------------------------

  function Pow2(n: nat): (p: nat)
    ensures p >= 1
  {
    if n == 0 then 1 else 2 * Pow2(n - 1)
  }

  const TwoTo32: int := 0x1_0000_0000

  /** The low n bits of a | b. */
  function BitOr(a: nat, b: nat, n: nat): nat
  {
    if n == 0 then 0
    else (if a % 2 == 1 || b % 2 == 1 then 1 else 0) + 2 * BitOr(a / 2, b / 2, n - 1)
  }

  /** The low n bits of a & b. */
  function BitAnd(a: nat, b: nat, n: nat): nat
  {
    if n == 0 then 0
    else (if a % 2 == 1 && b % 2 == 1 then 1 else 0) + 2 * BitAnd(a / 2, b / 2, n - 1)
  }

  /** ToUint32: the number modulo 2^32 (Dafny's % never yields a negative). */
  function ToUint32(x: int): nat
  {
    x % TwoTo32
  }

  /** Reads 32 bits as a two's-complement number, as the result of | and & is read. */
  function FromInt32Bits(u: int): int
  {
    if u < 0x8000_0000 then u else u - TwoTo32
  }

  /** JavaScript's `a | b`. */
  function JsOr(a: int, b: int): int
  {
    FromInt32Bits(BitOr(ToUint32(a), ToUint32(b), 32))
  }

  /** JavaScript's `a & b`. */
  function JsAnd(a: int, b: int): int
  {
    FromInt32Bits(BitAnd(ToUint32(a), ToUint32(b), 32))
  }

  /** Division by d is unique: the quotient and remainder are determined. */
  lemma DivModUnique(a: int, d: int, q: int, m: int)
    requires d > 0 && a == d * q + m && 0 <= m < d
    ensures a % d == m && a / d == q
  {
    var q', m' := a / d, a % d;
    assert a == d * q' + m';
    if q' > q {
      assert d * q' >= d * (q + 1) by { MulMonotonic(d, q + 1, q'); }
      assert false;
    } else if q' < q {
      assert d * q >= d * (q' + 1) by { MulMonotonic(d, q' + 1, q); }
      assert false;
    }
  }

  lemma MulMonotonic(d: int, x: int, y: int)
    requires d > 0 && x <= y
    ensures d * x <= d * y
  {
    assert d * y - d * x == d * (y - x);
  }

  /** The remainder modulo 2p splits into the low bit and the remainder of the rest modulo p. */
  lemma ModSplit(a: nat, p: nat)
    requires p >= 1
    ensures a % (2 * p) == a % 2 + 2 * ((a / 2) % p)
  {
    var h := a / 2;
    var r, s := h / p, h % p;
    assert h == p * r + s;
    assert a == (2 * p) * r + (a % 2 + 2 * s);
    DivModUnique(a, 2 * p, r, a % 2 + 2 * s);
  }

  /** Or-ing in zero keeps a number that fits in n bits. */
  lemma {:induction false} BitOrZero(a: nat, n: nat)
    requires a < Pow2(n)
    ensures BitOr(a, 0, n) == a
  {
    if n > 0 {
      BitOrZero(a / 2, n - 1);
    }
  }

  /** Or of a number whose low k bits are clear with a number below 2^k is their sum. */
  lemma {:induction false} BitOrDisjoint(a: nat, b: nat, k: nat, n: nat)
    requires k <= n && b < Pow2(k) && a % Pow2(k) == 0 && a < Pow2(n)
    ensures BitOr(a, b, n) == a + b
  {
    if k == 0 {
      BitOrZero(a, n);
    } else {
      var p := Pow2(k - 1);
      ModSplit(a, p);
      assert a % 2 == 0 && (a / 2) % p == 0;
      BitOrDisjoint(a / 2, b / 2, k - 1, n - 1);
    }
  }

  lemma {:induction false} BitAndZero(a: nat, n: nat)
    ensures BitAnd(a, 0, n) == 0
  {
    if n > 0 {
      BitAndZero(a / 2, n - 1);
    }
  }

  /** And with 0x0F keeps the low nibble. */
  lemma LowNibble(a: nat, n: nat)
    requires n >= 4
    ensures BitAnd(a, 0x0F, n) == a % 16
  {
    BitAndZero(a / 16, n - 4);
    assert a / 2 / 2 == a / 4 && a / 4 / 2 == a / 8 && a / 8 / 2 == a / 16;
    calc {
      BitAnd(a, 0x0F, n);
      a % 2 + 2 * BitAnd(a / 2, 7, n - 1);
      a % 2 + 2 * ((a / 2) % 2) + 4 * BitAnd(a / 4, 3, n - 2);
      a % 2 + 2 * ((a / 2) % 2) + 4 * ((a / 4) % 2) + 8 * BitAnd(a / 8, 1, n - 3);
      a % 2 + 2 * ((a / 2) % 2) + 4 * ((a / 4) % 2) + 8 * ((a / 8) % 2) + 16 * BitAnd(a / 16, 0, n - 4);
    }
  }

  /** And with a mask whose low bit is clear shifts down by one bit. */
  lemma BitAndEvenMask(a: nat, m: nat, n: nat)
    requires n >= 1
    ensures BitAnd(a, 2 * m, n) == 2 * BitAnd(a / 2, m, n - 1)
  {
    DivModUnique(2 * m, 2, m, 0);
  }

  lemma {:induction false} Pow2Monotonic(k: nat, n: nat)
    requires k <= n
    ensures Pow2(k) <= Pow2(n)
  {
    if k < n {
      Pow2Monotonic(k, n - 1);
    }
  }

  /** A number in 0..2^31 is its own 32-bit image. */
  lemma SmallInt32(x: int)
    requires 0 <= x < 0x8000_0000
    ensures ToUint32(x) == x && FromInt32Bits(x) == x
  {
    DivModUnique(x, TwoTo32, 0, x);
  }

  // ---------------------------------------------------------------------
  // Decoding a status byte (the engine's midimessage handler)
  // ---------------------------------------------------------------------

  /** `e.data[0]`; an empty message reads `undefined`, which `&` treats as 0. */
  function StatusByte(data: seq<Byte>): (b: Byte)
    ensures |data| > 0 ==> b == data[0]
    ensures |data| == 0 ==> b == 0
  {
    if |data| == 0 then 0 else data[0]
  }

  /** `(b & 0x0F) + 1`: the channel is the low nibble plus one, always in 1..16. */
  function ChannelOfStatus(b: Byte): (channel: int)
    ensures 1 <= channel <= 16
    ensures channel == b % 16 + 1
  {
    SmallInt32(b);
    SmallInt32(0x0F);
    LowNibble(b, 32);
    JsAnd(b, 0x0F) + 1
  }

  /** `b & 0xF0`: the message type is the high nibble, the byte with its low nibble cleared. */
  function TypeOfStatus(b: Byte): (kind: int)
    ensures kind == b - b % 16
    ensures kind % 16 == 0 && 0 <= kind <= 0xF0
  {
    SmallInt32(b);
    SmallInt32(0xF0);
    HighNibble(b);
    SmallInt32(b - b % 16);
    JsAnd(b, 0xF0)
  }

  lemma HighNibble(b: Byte)
    ensures BitAnd(b, 0xF0, 32) == b - b % 16
    ensures (b - b % 16) % 16 == 0 && 0 <= b - b % 16 <= 0xF0
  {
    BitAndEvenMask(b, 0x78, 32);
    BitAndEvenMask(b / 2, 0x3C, 31);
    BitAndEvenMask(b / 4, 0x1E, 30);
    BitAndEvenMask(b / 8, 0x0F, 29);
    assert b / 2 / 2 == b / 4 && b / 4 / 2 == b / 8 && b / 8 / 2 == b / 16;
    LowNibble(b / 16, 28);
    DivModUnique(b / 16, 16, 0, b / 16);
    DivModUnique(b - b % 16, 16, b / 16, 0);
  }

  function ChannelOf(data: seq<Byte>): int
  {
    ChannelOfStatus(StatusByte(data))
  }

  function TypeOf(data: seq<Byte>): int
  {
    TypeOfStatus(StatusByte(data))
  }

  // ---------------------------------------------------------------------
  // Encoding a Control Change (WebMidi.sendControlChange)
  // ---------------------------------------------------------------------

  /** `0xB0 | (channel - 1)`, with JavaScript's 32-bit semantics for any channel. */
  function ControlChangeStatus(channel: int): int
  {
    JsOr(0xB0, channel - 1)
  }

  /** The three numbers `[status, controller, value]` handed to `output.send`. */
  function ControlChange(channel: int, controller: int, value: int): (msg: seq<int>)
    ensures |msg| == 3 && msg[1] == controller && msg[2] == value
    ensures msg[0] == ControlChangeStatus(channel)
  {
    [ControlChangeStatus(channel), controller, value]
  }

  /**
   * For a channel in 1..16 the status byte lies in 0xB0..0xBF, and the
   * engine's decoding of it gives back the channel and the Control Change type.
   */
  lemma ControlChangeRoundTrip(channel: int)
    requires 1 <= channel <= 16
    ensures ControlChangeStatus(channel) == 0xAF + channel
    ensures 0xB0 <= ControlChangeStatus(channel) <= 0xBF
    ensures ChannelOfStatus(0xAF + channel) == channel
    ensures TypeOfStatus(0xAF + channel) == ControlChangeType
  {
    ControlChangeStatusValue(channel);
    DivModUnique(0xAF + channel, 16, 11, channel - 1);
  }

  /** For channel in 1..16, `0xB0 | (channel - 1)` is the sum, as the low nibble of 0xB0 is clear. */
  lemma ControlChangeStatusValue(channel: int)
    requires 1 <= channel <= 16
    ensures ControlChangeStatus(channel) == 0xAF + channel
  {
    var low := channel - 1;
    assert Pow2(4) == 16;
    assert Pow2(8) == 256;
    Pow2Monotonic(8, 32);
    DivModUnique(0xB0, 16, 11, 0);
    BitOrDisjoint(0xB0, low, 4, 32);
    SmallInt32(0xB0);
    SmallInt32(low);
    assert BitOr(ToUint32(0xB0), ToUint32(low), 32) == 0xB0 + low;
    SmallInt32(0xB0 + low);
  }


  /**
   * Nothing checks the channel: channel 0 turns `channel - 1` into -1, whose
   * 32-bit image has every bit set, so the status is -1; channel 17 sets bit 4,
   * which 0xB0 already has, so it collides with channel 1.
   */
  lemma ControlChangeChannelZero()
    ensures ControlChangeStatus(0) == -1
  {
    Pow2Of32();
    SmallInt32(0xB0);
    DivModUnique(-1, TwoTo32, -1, TwoTo32 - 1);
    assert ToUint32(-1) == TwoTo32 - 1;
    BitOrAllOnes(0xB0, 32);
    assert BitOr(0xB0, TwoTo32 - 1, 32) == TwoTo32 - 1;
  }

  lemma ControlChangeChannelSeventeen()
    ensures ControlChangeStatus(17) == ControlChangeStatus(1) == 0xB0
  {
    SmallInt32(0xB0);
    SmallInt32(16);
    var low := BitOr(0xB, 1, 28);
    assert Pow2(3) == 8;
    Pow2Monotonic(3, 27);
    BitOrZero(5, 27);
    assert low == 11;
    BitOrEven(0x16 / 2, 2 / 2, 29);
    BitOrEven(0x2C / 2, 4 / 2, 30);
    BitOrEven(0x58 / 2, 8 / 2, 31);
    BitOrEven(0xB0 / 2, 16 / 2, 32);
    ControlChangeRoundTrip(1);
  }

  lemma Pow2Of32()
    ensures Pow2(32) == TwoTo32
  {
    assert Pow2(8) == 256;
    Pow2Product(8, 8);
    assert Pow2(16) == 65536;
    Pow2Product(16, 16);
    assert Pow2(16) * Pow2(16) == 65536 * 65536;
  }

  lemma {:induction false} Pow2Product(j: nat, k: nat)
    ensures Pow2(j + k) == Pow2(j) * Pow2(k)
  {
    if k > 0 {
      Pow2Product(j, k - 1);
    }
  }

  /** Or with n one-bits gives n one-bits. */
  lemma {:induction false} BitOrAllOnes(a: nat, n: nat)
    ensures BitOr(a, Pow2(n) - 1, n) == Pow2(n) - 1
  {
    if n > 0 {
      var p := Pow2(n - 1);
      DivModUnique(2 * p - 1, 2, p - 1, 1);
      BitOrAllOnes(a / 2, n - 1);
    }
  }

  /** Or of two even numbers shifts down by one bit. */
  lemma BitOrEven(a: nat, b: nat, n: nat)
    requires n >= 1
    ensures BitOr(2 * a, 2 * b, n) == 2 * BitOr(a, b, n - 1)
  {
    DivModUnique(2 * a, 2, a, 0);
    DivModUnique(2 * b, 2, b, 0);
  }
}
