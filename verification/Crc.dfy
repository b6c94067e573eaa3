/**
 CRC-16/Modbus as the frame codec and the Modbus RTU helpers use it: initial value 0xFFFF,
 reflected polynomial 0xA001, one byte at a time, least significant bit first
 (section 6.2.2 "CRC Generation" of MODBUS over Serial Line V1.02).

 The register is specified byte by byte (`CrcFrom`). The error-detection theorems are proved on a
 second, bit-serial definition (`Absorb`) that is shown to compute the same register.
 */
module Crc {

  type Byte = bv8
  type Bits = seq<bool>

  /** The 16-bit shift register. */
  datatype Reg = Reg(v: bv16)

  const ZERO := Reg(0)
  const INIT := Reg(0xFFFF)
  const POLY := Reg(0xA001)

  // ---------------------------------------------------------------- the register

  function Xor(a: Reg, b: Reg): Reg { Reg(a.v ^ b.v) }
  function Shift(c: Reg): Reg { Reg(c.v >> 1) }
  predicate Odd(c: Reg) { c.v & 1 != 0 }

  /** One turn of the inner loop: shift right and, if a one fell out, add the polynomial. */
  function BitStep(c: Reg): Reg {
    if Odd(c) then Xor(Shift(c), POLY) else Shift(c)
  }

  function BitSteps(c: Reg, n: nat): Reg
    decreases n
  {
    if n == 0 then c else BitStep(BitSteps(c, n - 1))
  }

  function Load(b: Byte): Reg { Reg(b as bv16) }

  /** The register after absorbing one byte. */
  function ByteStep(c: Reg, b: Byte): Reg {
    BitSteps(Xor(c, Load(b)), 8)
  }

  /** The register after absorbing `data`, starting from `c`. */
  function CrcFrom(c: Reg, data: seq<Byte>): Reg
    decreases |data|
  {
    if |data| == 0 then c else CrcFrom(ByteStep(c, data[0]), data[1..])
  }

  function Crc16(data: seq<Byte>): Reg { CrcFrom(INIT, data) }

  function Lo(c: Reg): Byte { (c.v & 0xFF) as Byte }
  function Hi(c: Reg): Byte { (c.v >> 8) as Byte }

  /** How both codecs put a CRC on the wire: low byte first. */
  function Trailer(data: seq<Byte>): seq<Byte> { [Lo(Crc16(data)), Hi(Crc16(data))] }

  /** Data closed by its trailer. */
  function Sealed(data: seq<Byte>): (s: seq<Byte>)
    ensures |s| == |data| + 2
  {
    data + Trailer(data)
  }

  /** The receiver's test: the last two bytes are the CRC of the bytes before them. */
  predicate Codeword(s: seq<Byte>) {
    |s| >= 2 && s[|s| - 2] == Lo(Crc16(s[..|s| - 2])) && s[|s| - 1] == Hi(Crc16(s[..|s| - 2]))
  }

  lemma {:induction false} CrcFromConcat(c: Reg, a: seq<Byte>, b: seq<Byte>)
    ensures CrcFrom(c, a + b) == CrcFrom(CrcFrom(c, a), b)
    decreases |a|
  {
    if a == [] {
      assert a + b == b;
    } else {
      assert (a + b)[1..] == a[1..] + b;
      CrcFromConcat(ByteStep(c, a[0]), a[1..], b);
    }
  }

  lemma CrcFromSnoc(c: Reg, a: seq<Byte>, b: Byte)
    ensures CrcFrom(c, a + [b]) == ByteStep(CrcFrom(c, a), b)
  {
    CrcFromConcat(c, a, [b]);
    assert CrcFrom(CrcFrom(c, a), [b]) == CrcFrom(ByteStep(CrcFrom(c, a), b), []);
  }

  /** The receivers rebuild the sent CRC as a word. */
  lemma WordFromBytes(c: Reg, lo: Byte, hi: Byte)
    ensures lo == Lo(c) && hi == Hi(c) ==> c.v == (lo as bv16) | ((hi as bv16) << 8)
    ensures c.v == (lo as bv16) | ((hi as bv16) << 8) ==> lo == Lo(c)
    ensures c.v == (lo as bv16) | ((hi as bv16) << 8) ==> hi == Hi(c)
  {}

  /** The nested loops of frame_crc16_modbus over `size` bytes of a buffer. */
  method ComputeCrc(data: array<Byte>, start: nat, size: nat) returns (crc: Reg)
    requires start + size <= data.Length
    ensures crc == Crc16(data[start..start + size])
  {
    crc := Reg(0xFFFF);
    for i := 0 to size
      invariant crc == Crc16(data[start..start + i])
    {
      CrcFromSnoc(INIT, data[start..start + i], data[start + i]);
      assert data[start..start + i + 1] == data[start..start + i] + [data[start + i]];
      crc := Reg(crc.v ^ (data[start + i] as bv16));
      ghost var loaded := crc;
      for bit := 0 to 8
        invariant crc == BitSteps(loaded, bit)
      {
        if crc.v & 1 != 0 {
          crc := Reg((crc.v >> 1) ^ 0xA001);
        } else {
          crc := Reg(crc.v >> 1);
        }
      }
    }
  }

  /** Both encoders end this way: the CRC of what was written goes behind it, low byte first. */
  method AppendCrc(output: array<Byte>, start: nat, size: nat)
    requires start + size + 2 <= output.Length
    modifies output
    ensures output[start..start + size + 2] == Sealed(old(output[start..start + size]))
    ensures output[..start] == old(output[..start])
    ensures output[start + size + 2..] == old(output[start + size + 2..])
  {
    hide Crc16;
    var crc := ComputeCrc(output, start, size);
    ghost var data := output[start..start + size];
    output[start + size] := (crc.v & 0xFF) as Byte;
    output[start + size + 1] := (crc.v >> 8) as Byte;
    assert output[start..start + size] == data;
    assert output[start..start + size + 2] == output[start..start + size] + [output[start + size], output[start + size + 1]];
  }

  // ---------------------------------------------------------------- algebra of one step

  lemma XorAssociates(a: Reg, b: Reg, c: Reg)
    ensures Xor(Xor(a, b), c) == Xor(a, Xor(b, c))
  {}

  lemma XorSwaps(a: Reg, b: Reg, c: Reg, d: Reg)
    ensures Xor(Xor(a, b), Xor(c, d)) == Xor(Xor(a, c), Xor(b, d))
  {}

  lemma XorZero(a: Reg)
    ensures Xor(a, ZERO) == a
  {}

  lemma XorSame(a: Reg, b: Reg)
    ensures Xor(a, b) == ZERO <==> a == b
  {}

  /** What one step adds on top of the shift. */
  function Feedback(odd: bool): Reg { if odd then POLY else ZERO }

  lemma OddXor(c: Reg, d: Reg)
    ensures Odd(Xor(c, d)) <==> Odd(c) != Odd(d)
  {}

  lemma ShiftXor(c: Reg, d: Reg)
    ensures Shift(Xor(c, d)) == Xor(Shift(c), Shift(d))
  {}

  lemma FeedbackXor(p: bool, q: bool)
    ensures Feedback(p != q) == Xor(Feedback(p), Feedback(q))
  {}

  lemma BitStepSplits(c: Reg)
    ensures BitStep(c) == Xor(Shift(c), Feedback(Odd(c)))
  {
    XorZero(Shift(c));
  }

  lemma SwapSums(sx: Reg, fx: Reg, sc: Reg, sd: Reg, fc: Reg, fd: Reg)
    requires sx == Xor(sc, sd) && fx == Xor(fc, fd)
    ensures Xor(sx, fx) == Xor(Xor(sc, fc), Xor(sd, fd))
  {
    XorSwaps(sc, sd, fc, fd);
  }

  lemma BitStepLinear(c: Reg, d: Reg)
    ensures BitStep(Xor(c, d)) == Xor(BitStep(c), BitStep(d))
  {
    BitStepSplits(c);
    BitStepSplits(d);
    BitStepSplits(Xor(c, d));
    ShiftXor(c, d);
    OddXor(c, d);
    FeedbackXor(Odd(c), Odd(d));
    SwapSums(Shift(Xor(c, d)), Feedback(Odd(Xor(c, d))),
             Shift(c), Shift(d), Feedback(Odd(c)), Feedback(Odd(d)));
  }

  lemma {:induction false} BitStepsLinear(c: Reg, d: Reg, n: nat)
    ensures BitSteps(Xor(c, d), n) == Xor(BitSteps(c, n), BitSteps(d, n))
    decreases n
  {
    if n > 0 {
      BitStepsLinear(c, d, n - 1);
      BitStepLinear(BitSteps(c, n - 1), BitSteps(d, n - 1));
    }
  }

  /** Zero is the only register a step sends to zero: the top bit of 0xA001 survives the shift. */
  lemma BitStepZero(c: Reg)
    ensures BitStep(c) == ZERO <==> c == ZERO
  {
    assert (c.v >> 1) ^ 0xA001 != 0;
    assert c.v >> 1 == 0 ==> c.v == 0 || c.v & 1 != 0;
  }

  lemma {:induction false} BitStepsZero(c: Reg, n: nat)
    ensures BitSteps(c, n) == ZERO <==> c == ZERO
    decreases n
  {
    if n > 0 {
      BitStepsZero(c, n - 1);
      BitStepZero(BitSteps(c, n - 1));
    }
  }

  lemma {:induction false} BitStepsFront(c: Reg, n: nat)
    ensures BitSteps(BitStep(c), n) == BitSteps(c, n + 1)
    decreases n
  {
    if n > 0 { BitStepsFront(c, n - 1); }
  }

  // ---------------------------------------------------------------- the bit-serial register

  function Bit(b: bool): Reg { if b then Reg(1) else ZERO }

  /** The register of a serial receiver, one message bit at a time. */
  function Absorb(c: Reg, bits: Bits): Reg
    decreases |bits|
  {
    if |bits| == 0 then c else Absorb(BitStep(Xor(c, Bit(bits[0]))), bits[1..])
  }

  /** A register moved one place up; nothing may fall off the top. */
  function Up(c: Reg): Reg { Reg(c.v << 1) }

  predicate TopClear(c: Reg) { c.v & 0x8000 == 0 }

  /** Bits packed with the first one at position zero. */
  function Pack(bits: Bits): Reg
    decreases |bits|
  {
    if |bits| == 0 then ZERO else Xor(Bit(bits[0]), Up(Pack(bits[1..])))
  }

  lemma UpIsEven(v: Reg)
    ensures !Odd(Up(v))
  {}

  lemma UpThenShift(v: Reg)
    requires TopClear(v)
    ensures Shift(Up(v)) == v
  {}

  lemma UpThenStep(v: Reg)
    requires TopClear(v)
    ensures BitStep(Up(v)) == v
  {
    UpIsEven(v);
    UpThenShift(v);
  }

  lemma UpZero(v: Reg)
    requires TopClear(v) && Up(v) == ZERO
    ensures v == ZERO
  {}

  /** `v` fits in the lowest `n` bits. */
  predicate Fits(v: Reg, m: bv16) { v.v | m == m }

  /** The mask of the lowest `n` bits. */
  function Mask(n: nat): bv16 { if n == 0 then 0 else (Mask(n - 1) << 1) | 1 }

  lemma FitsStep(v: Reg, m: bv16, b: bool)
    requires Fits(v, m)
    ensures Fits(Xor(Bit(b), Up(v)), (m << 1) | 1)
  {}

  lemma {:induction false} PackFits(bits: Bits)
    ensures Fits(Pack(bits), Mask(|bits|))
    decreases |bits|
  {
    if |bits| > 0 {
      PackFits(bits[1..]);
      FitsStep(Pack(bits[1..]), Mask(|bits| - 1), bits[0]);
    }
  }

  lemma MaskTopClear(n: nat)
    requires n <= 15
    ensures Mask(n) & 0x8000 == 0
  {
    assert Mask(1) == 1;
    assert Mask(3) == 7;
    assert Mask(5) == 0x1F;
    assert Mask(7) == 0x7F;
    assert Mask(9) == 0x1FF;
    assert Mask(11) == 0x7FF;
    assert Mask(13) == 0x1FFF;
    assert Mask(15) == 0x7FFF;
  }

  lemma FitsTopClear(v: Reg, m: bv16)
    requires Fits(v, m) && m & 0x8000 == 0
    ensures TopClear(v)
  {}

  /** Fewer than sixteen packed bits leave the top bit clear. */
  lemma PackTopClear(bits: Bits)
    requires |bits| <= 15
    ensures TopClear(Pack(bits))
  {
    PackFits(bits);
    MaskTopClear(|bits|);
    FitsTopClear(Pack(bits), Mask(|bits|));
  }

  /** Up to sixteen serial bits act like one word loaded into the register. */
  lemma {:induction false} AbsorbIsLoad(c: Reg, bits: Bits)
    requires |bits| <= 16
    ensures Absorb(c, bits) == BitSteps(Xor(c, Pack(bits)), |bits|)
    decreases |bits|
  {
    if |bits| == 0 {
      XorZero(c);
    } else {
      var b, rest := Bit(bits[0]), Pack(bits[1..]);
      PackTopClear(bits[1..]);
      AbsorbIsLoad(BitStep(Xor(c, b)), bits[1..]);
      UpThenStep(rest);
      BitStepLinear(Xor(c, b), Up(rest));
      XorAssociates(c, b, Up(rest));
      BitStepsFront(Xor(c, Pack(bits)), |bits| - 1);
    }
  }

  lemma PackStepZero(b: bool, v: Reg)
    requires TopClear(v) && Xor(Bit(b), Up(v)) == ZERO
    ensures !b && v == ZERO
  {
    UpIsEven(v);
    OddXor(Bit(b), Up(v));
    if !b { UpZero(v); }
  }

  /** Packing loses nothing: only all-false bits pack to zero. */
  lemma {:induction false} PackZero(bits: Bits)
    requires |bits| <= 16 && Pack(bits) == ZERO
    ensures forall i | 0 <= i < |bits| :: !bits[i]
    decreases |bits|
  {
    if |bits| > 0 {
      PackTopClear(bits[1..]);
      PackStepZero(bits[0], Pack(bits[1..]));
      PackZero(bits[1..]);
      assert forall i | 0 < i < |bits| :: bits[i] == bits[1..][i - 1];
    }
  }

  // ---------------------------------------------------------------- known values

  function StepBits(v: bv16): bv16 { if v & 1 != 0 then (v >> 1) ^ 0xA001 else v >> 1 }

  lemma StepOnBits(v: bv16)
    ensures BitStep(Reg(v)) == Reg(StepBits(v))
  {}

  function FourSteps(v: bv16): bv16 { StepBits(StepBits(StepBits(StepBits(v)))) }

  lemma FourOnBits(v: bv16)
    ensures BitSteps(Reg(v), 4) == Reg(FourSteps(v))
  {
    hide BitStep, StepBits;
    StepOnBits(v);
    StepOnBits(StepBits(v));
    StepOnBits(StepBits(StepBits(v)));
    StepOnBits(StepBits(StepBits(StepBits(v))));
    assert BitSteps(Reg(v), 2) == BitStep(BitStep(Reg(v)));
  }

  lemma {:induction false} BitStepsSplit(c: Reg, m: nat, n: nat)
    ensures BitSteps(c, m + n) == BitSteps(BitSteps(c, m), n)
    decreases n
  {
    hide BitStep;
    if n > 0 { BitStepsSplit(c, m, n - 1); }
  }

  /** One byte, on bare bits. */
  lemma AbsorbsByte(data: seq<Byte>, k: nat, c: bv16, d: bv16)
    requires k < |data| && d == FourSteps(FourSteps(c ^ (data[k] as bv16)))
    ensures CrcFrom(Reg(c), data[k..]) == CrcFrom(Reg(d), data[k + 1..])
  {
    hide BitSteps, FourSteps;
    var v := c ^ (data[k] as bv16);
    FourOnBits(v);
    FourOnBits(FourSteps(v));
    BitStepsSplit(Reg(v), 4, 4);
    assert data[k..][0] == data[k] && data[k..][1..] == data[k + 1..];
  }

  lemma CrcOfNothing(c: Reg)
    ensures CrcFrom(c, []) == c
  {}

  /** The check value of CRC-16/Modbus, of the text "123456789". */
  lemma CheckValue()
    ensures Crc16([0x31, 0x32, 0x33, 0x34, 0x35, 0x36, 0x37, 0x38, 0x39]) == Reg(0x4B37)
  {
    hide CrcFrom;
    var data: seq<Byte> := [0x31, 0x32, 0x33, 0x34, 0x35, 0x36, 0x37, 0x38, 0x39];
    assert data[0..] == data && data[9..] == [];
    AbsorbsByte(data, 0, 0xFFFF, 0x947E);
    AbsorbsByte(data, 1, 0x947E, 0xF595);
    AbsorbsByte(data, 2, 0xF595, 0x7A75);
    AbsorbsByte(data, 3, 0x7A75, 0x30BA);
    AbsorbsByte(data, 4, 0x30BA, 0xA471);
    AbsorbsByte(data, 5, 0xA471, 0x32E4);
    AbsorbsByte(data, 6, 0x32E4, 0x9D73);
    AbsorbsByte(data, 7, 0x9D73, 0x37DD);
    AbsorbsByte(data, 8, 0x37DD, 0x4B37);
    CrcOfNothing(Reg(0x4B37));
  }

  /** The CRC of a read request for two holding registers. */
  lemma ReadRequestCrc()
    ensures Crc16([0x01, 0x03, 0x00, 0x00, 0x00, 0x02]) == Reg(0x0BC4)
  {
    hide CrcFrom;
    var data: seq<Byte> := [0x01, 0x03, 0x00, 0x00, 0x00, 0x02];
    assert data[0..] == data && data[6..] == [];
    AbsorbsByte(data, 0, 0xFFFF, 0x807E);
    AbsorbsByte(data, 1, 0x807E, 0x2140);
    AbsorbsByte(data, 2, 0x2140, 0xF020);
    AbsorbsByte(data, 3, 0xF020, 0xD8F1);
    AbsorbsByte(data, 4, 0xD8F1, 0x8419);
    AbsorbsByte(data, 5, 0x8419, 0x0BC4);
    CrcOfNothing(Reg(0x0BC4));
  }
}
