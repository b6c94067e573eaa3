/**
 What the CRC-16 trailer detects. The receiver's comparison is shown to be the vanishing of one
 register; two words of the same length are both accepted exactly when the serial register sends
 their difference to zero; hence no burst of at most sixteen bits and no odd number of flipped bits
 goes unnoticed, wherever it falls.
 */
module ErrorDetection {
  import opened Crc

  // ---------------------------------------------------------------- bytes as bits

  function LowBits(b: Byte, n: nat): (bits: Bits)
    ensures |bits| == n
    decreases n
  {
    if n == 0 then [] else [b & 1 != 0] + LowBits(b >> 1, n - 1)
  }

  /** The order in which the bits of `data` reach the register. */
  function BitsOf(data: seq<Byte>): (bits: Bits)
    ensures |bits| == 8 * |data|
    decreases |data|
  {
    if |data| == 0 then [] else LowBits(data[0], 8) + BitsOf(data[1..])
  }

  function Shifted(b: Byte, n: nat): Byte
    decreases n
  {
    if n == 0 then b else Shifted(b >> 1, n - 1)
  }

  lemma ByteRunsOut(b: Byte)
    ensures Shifted(b, 8) == 0
  {
    assert Shifted(b, 8) == Shifted(b >> 1 >> 1, 6);
    assert Shifted(b, 8) == Shifted(b >> 1 >> 1 >> 1 >> 1, 4);
    assert Shifted(b, 8) == Shifted(b >> 1 >> 1 >> 1 >> 1 >> 1 >> 1, 2);
    assert Shifted(b, 8) == b >> 1 >> 1 >> 1 >> 1 >> 1 >> 1 >> 1 >> 1;
  }

  lemma PeelBit(b: Byte)
    ensures Xor(Bit(b & 1 != 0), Up(Load(b >> 1))) == Load(b)
  {}

  lemma {:induction false} PackLowBits(b: Byte, n: nat)
    requires Shifted(b, n) == 0
    ensures Pack(LowBits(b, n)) == Load(b)
    decreases n
  {
    if n > 0 {
      PackLowBits(b >> 1, n - 1);
      assert LowBits(b, n)[1..] == LowBits(b >> 1, n - 1);
      PeelBit(b);
    }
  }

  lemma {:induction false} AbsorbConcat(c: Reg, a: Bits, b: Bits)
    ensures Absorb(c, a + b) == Absorb(Absorb(c, a), b)
    decreases |a|
  {
    if a == [] {
      assert a + b == b;
    } else {
      assert (a + b)[1..] == a[1..] + b;
      AbsorbConcat(BitStep(Xor(c, Bit(a[0]))), a[1..], b);
    }
  }

  /** The byte-wise register of the source is the serial register. */
  lemma {:induction false} CrcIsSerial(c: Reg, data: seq<Byte>)
    ensures CrcFrom(c, data) == Absorb(c, BitsOf(data))
    decreases |data|
  {
    if |data| > 0 {
      var first := LowBits(data[0], 8);
      ByteRunsOut(data[0]);
      PackLowBits(data[0], 8);
      AbsorbIsLoad(c, first);
      AbsorbConcat(c, first, BitsOf(data[1..]));
      CrcIsSerial(ByteStep(c, data[0]), data[1..]);
    }
  }

  // ---------------------------------------------------------------- the residue

  function TopByte(b: Byte): Reg { Reg((b as bv16) << 8) }

  lemma TopByteIsUps(b: Byte)
    ensures TopByte(b) == Up(Up(Up(Up(Up(Up(Up(Up(Load(b)))))))))
  {}

  lemma UpsTopClear(b: Byte)
    ensures TopClear(Load(b))
    ensures TopClear(Up(Load(b)))
    ensures TopClear(Up(Up(Load(b))))
    ensures TopClear(Up(Up(Up(Load(b)))))
    ensures TopClear(Up(Up(Up(Up(Load(b))))))
    ensures TopClear(Up(Up(Up(Up(Up(Load(b)))))))
    ensures TopClear(Up(Up(Up(Up(Up(Up(Load(b))))))))
    ensures TopClear(Up(Up(Up(Up(Up(Up(Up(Load(b)))))))))
  {}

  /** Eight steps bring the high byte down unchanged. */
  lemma TopByteFalls(b: Byte)
    ensures BitSteps(TopByte(b), 8) == Load(b)
  {
    TopByteIsUps(b);
    UpsTopClear(b);
    var u1 := Up(Load(b));
    var u2 := Up(u1);
    var u3 := Up(u2);
    var u4 := Up(u3);
    var u5 := Up(u4);
    var u6 := Up(u5);
    var u7 := Up(u6);
    var u8 := Up(u7);
    UpThenStep(u7);
    UpThenStep(u6);
    UpThenStep(u5);
    UpThenStep(u4);
    UpThenStep(u3);
    UpThenStep(u2);
    UpThenStep(u1);
    UpThenStep(Load(b));
    assert BitSteps(u8, 1) == u7;
    assert BitSteps(u8, 3) == u5;
    assert BitSteps(u8, 5) == u3;
    assert BitSteps(u8, 7) == u1;
  }

  /** A word is its two bytes. */
  lemma WordOfBytes(c: Reg)
    ensures Xor(c, Load(Lo(c))) == TopByte(Hi(c))
  {}

  lemma BytesOfWord(c: Reg, x: Byte, y: Byte)
    requires Xor(c, Load(x)) == TopByte(y)
    ensures x == Lo(c)
    ensures y == Hi(c)
  {}

  /** From register `c`, exactly the low then the high byte of `c` bring the register to zero. */
  lemma TwoBytesClear(c: Reg, x: Byte, y: Byte)
    ensures ByteStep(ByteStep(c, x), y) == ZERO <==> x == Lo(c) && y == Hi(c)
  {
    var loaded := Xor(c, Load(x));
    BitStepsZero(Xor(ByteStep(c, x), Load(y)), 8);
    XorSame(ByteStep(c, x), Load(y));
    TopByteFalls(y);
    BitStepsLinear(loaded, TopByte(y), 8);
    XorSame(BitSteps(loaded, 8), BitSteps(TopByte(y), 8));
    BitStepsZero(Xor(loaded, TopByte(y)), 8);
    XorSame(loaded, TopByte(y));
    WordOfBytes(c);
    if loaded == TopByte(y) { BytesOfWord(c, x, y); }
  }

  /** The receiver's comparison of the trailer is the vanishing of the register over all bytes. */
  lemma CodewordIsZeroResidue(s: seq<Byte>)
    requires |s| >= 2
    ensures Codeword(s) <==> Crc16(s) == ZERO
  {
    var n := |s| - 2;
    assert s == (s[..n] + [s[n]]) + [s[n + 1]];
    CrcFromSnoc(INIT, s[..n] + [s[n]], s[n + 1]);
    CrcFromSnoc(INIT, s[..n], s[n]);
    TwoBytesClear(Crc16(s[..n]), s[n], s[n + 1]);
  }

  /** Appending the trailer makes a codeword whose register is zero. */
  lemma TrailerMakesCodeword(data: seq<Byte>)
    ensures Codeword(Sealed(data))
    ensures Crc16(Sealed(data)) == ZERO
  {
    var s := Sealed(data);
    assert s[..|s| - 2] == data;
    CodewordIsZeroResidue(s);
  }

  // ---------------------------------------------------------------- differences

  /** The positions at which two words of the same length disagree. */
  function Difference(a: Bits, b: Bits): (d: Bits)
    requires |a| == |b|
    ensures |d| == |a| && forall i | 0 <= i < |a| :: d[i] <==> a[i] != b[i]
  {
    seq(|a|, i requires 0 <= i < |a| => a[i] != b[i])
  }

  lemma BitXor(p: bool, q: bool)
    ensures Bit(p != q) == Xor(Bit(p), Bit(q))
  {}

  lemma {:induction false} AbsorbLinear(c: Reg, d: Reg, a: Bits, b: Bits)
    requires |a| == |b|
    ensures Absorb(Xor(c, d), Difference(a, b)) == Xor(Absorb(c, a), Absorb(d, b))
    decreases |a|
  {
    if |a| > 0 {
      assert Difference(a, b)[1..] == Difference(a[1..], b[1..]);
      BitXor(a[0], b[0]);
      XorSwaps(c, d, Bit(a[0]), Bit(b[0]));
      BitStepLinear(Xor(c, Bit(a[0])), Xor(d, Bit(b[0])));
      AbsorbLinear(BitStep(Xor(c, Bit(a[0]))), BitStep(Xor(d, Bit(b[0]))), a[1..], b[1..]);
    }
  }

  /** Given one codeword, another word of its length is a codeword iff the serial register,
      started at zero, sends their difference to zero. */
  lemma UndetectedIff(a: seq<Byte>, b: seq<Byte>)
    requires |a| == |b| && Codeword(a)
    ensures Codeword(b) <==> Absorb(ZERO, Difference(BitsOf(a), BitsOf(b))) == ZERO
  {
    CodewordIsZeroResidue(a);
    CodewordIsZeroResidue(b);
    CrcIsSerial(INIT, a);
    CrcIsSerial(INIT, b);
    AbsorbLinear(INIT, INIT, BitsOf(a), BitsOf(b));
    XorSame(INIT, INIT);
    XorSame(Crc16(a), Crc16(b));
  }

  predicate Quiet(bits: Bits) { forall i | 0 <= i < |bits| :: !bits[i] }

  lemma {:induction false} AbsorbQuiet(c: Reg, bits: Bits)
    requires Quiet(bits)
    ensures Absorb(c, bits) == ZERO <==> c == ZERO
    decreases |bits|
  {
    if |bits| > 0 {
      XorZero(c);
      BitStepZero(c);
      AbsorbQuiet(BitStep(c), bits[1..]);
    }
  }

  lemma SplitBits(d: Bits, p: nat, q: nat)
    requires p <= q <= |d|
    ensures d == d[..p] + (d[p..q] + d[q..])
  {}

  /** Bits that are quiet outside a window of sixteen reach zero only if they are quiet throughout. */
  lemma BurstNotLost(d: Bits, p: nat)
    requires forall i | 0 <= i < |d| && d[i] :: p <= i < p + 16
    requires Absorb(ZERO, d) == ZERO
    ensures Quiet(d)
  {
    if p < |d| {
      var q := if p + 16 < |d| then p + 16 else |d|;
      var before, burst, after := d[..p], d[p..q], d[q..];
      SplitBits(d, p, q);
      AbsorbConcat(ZERO, before, burst + after);
      AbsorbConcat(Absorb(ZERO, before), burst, after);
      AbsorbQuiet(ZERO, before);
      AbsorbQuiet(Absorb(ZERO, burst), after);
      AbsorbIsLoad(ZERO, burst);
      BitStepsZero(Xor(ZERO, Pack(burst)), |burst|);
      XorSame(ZERO, Pack(burst));
      PackZero(burst);
      forall i | p <= i < q ensures !d[i] { assert d[i] == burst[i - p]; }
    }
  }

  lemma SameLowBits(x: Byte, y: Byte)
    requires LowBits(x, 8) == LowBits(y, 8)
    ensures x == y
  {
    ByteRunsOut(x);
    ByteRunsOut(y);
    PackLowBits(x, 8);
    PackLowBits(y, 8);
    assert Load(x).v == Load(y).v;
  }

  lemma {:induction false} SameBits(a: seq<Byte>, b: seq<Byte>)
    requires |a| == |b| && BitsOf(a) == BitsOf(b)
    ensures a == b
    decreases |a|
  {
    if |a| > 0 {
      var x, y := BitsOf(a), BitsOf(b);
      assert x[..8] == LowBits(a[0], 8) && x[8..] == BitsOf(a[1..]);
      assert y[..8] == LowBits(b[0], 8) && y[8..] == BitsOf(b[1..]);
      SameLowBits(a[0], b[0]);
      SameBits(a[1..], b[1..]);
    }
  }

  /** Every burst of at most sixteen bits is detected: of two different words of one length that
      agree outside sixteen consecutive bits, at most one is a codeword. */
  lemma BurstDetected(a: seq<Byte>, b: seq<Byte>, p: nat)
    requires |a| == |b| && a != b && Codeword(a)
    requires forall i | 0 <= i < 8 * |a| && BitsOf(a)[i] != BitsOf(b)[i] :: p <= i < p + 16
    ensures !Codeword(b)
  {
    if Codeword(b) {
      var d := Difference(BitsOf(a), BitsOf(b));
      UndetectedIff(a, b);
      BurstNotLost(d, p);
      assert forall i | 0 <= i < 8 * |a| :: !d[i];
      assert BitsOf(a) == BitsOf(b);
      SameBits(a, b);
    }
  }

  lemma ConcatAt(x: Bits, y: Bits, i: nat)
    requires i < |x| + |y|
    ensures (x + y)[i] == if i < |x| then x[i] else y[i - |x|]
  {}

  lemma {:induction false} BitsOfAt(a: seq<Byte>, k: nat, j: nat)
    requires k < |a| && j < 8
    ensures BitsOf(a)[8 * k + j] == LowBits(a[k], 8)[j]
    decreases |a|
  {
    hide LowBits;
    ConcatAt(LowBits(a[0], 8), BitsOf(a[1..]), 8 * k + j);
    if k > 0 { BitsOfAt(a[1..], k - 1, j); }
  }

  lemma BitDiffersInByte(a: seq<Byte>, b: seq<Byte>, i: nat)
    requires |a| == |b| && i < 8 * |a| && BitsOf(a)[i] != BitsOf(b)[i]
    ensures a[i / 8] != b[i / 8]
  {
    var byte, bit := i / 8, i % 8;
    assert i == 8 * byte + bit;
    BitsOfAt(a, byte, bit);
    BitsOfAt(b, byte, bit);
  }

  /** Damage confined to two neighbouring bytes is such a burst. */
  lemma TwoByteDamageDetected(a: seq<Byte>, b: seq<Byte>, k: nat)
    requires |a| == |b| && a != b && Codeword(a)
    requires forall i | 0 <= i < |a| && i != k && i != k + 1 :: a[i] == b[i]
    ensures !Codeword(b)
  {
    var x, y := BitsOf(a), BitsOf(b);
    forall i | 0 <= i < 8 * |a| && x[i] != y[i]
      ensures 8 * k <= i < 8 * k + 16
    {
      BitDiffersInByte(a, b, i);
    }
    BurstDetected(a, b, 8 * k);
  }

  // ---------------------------------------------------------------- parity

  function Ones(bits: Bits): nat
    decreases |bits|
  {
    if |bits| == 0 then 0 else (if bits[0] then 1 else 0) + Ones(bits[1..])
  }

  function Shifts(c: Reg, n: nat): Reg
    decreases n
  {
    if n == 0 then c else Shift(Shifts(c, n - 1))
  }

  /** Parity of the lowest `n` bits of a register. */
  predicate ParityBelow(c: Reg, n: nat)
    decreases n
  {
    n > 0 && ParityBelow(c, n - 1) != Odd(Shifts(c, n - 1))
  }

  predicate OddParity(c: Reg) { ParityBelow(c, 16) }

  lemma {:induction false} ShiftsXor(a: Reg, b: Reg, n: nat)
    ensures Shifts(Xor(a, b), n) == Xor(Shifts(a, n), Shifts(b, n))
    decreases n
  {
    if n > 0 {
      ShiftsXor(a, b, n - 1);
      ShiftXor(Shifts(a, n - 1), Shifts(b, n - 1));
    }
  }

  lemma {:induction false} ParityXor(a: Reg, b: Reg, n: nat)
    ensures ParityBelow(Xor(a, b), n) <==> ParityBelow(a, n) != ParityBelow(b, n)
    decreases n
  {
    if n > 0 {
      ParityXor(a, b, n - 1);
      ShiftsXor(a, b, n - 1);
      OddXor(Shifts(a, n - 1), Shifts(b, n - 1));
    }
  }

  lemma {:induction false} ShiftsFront(c: Reg, n: nat)
    ensures Shifts(Shift(c), n) == Shifts(c, n + 1)
    decreases n
  {
    if n > 0 { ShiftsFront(c, n - 1); }
  }

  lemma {:induction false} ParityFront(c: Reg, n: nat)
    ensures ParityBelow(c, n + 1) <==> Odd(c) != ParityBelow(Shift(c), n)
    decreases n
  {
    if n > 0 {
      ParityFront(c, n - 1);
      ShiftsFront(c, n - 1);
    }
  }

  lemma RegRunsOut(c: Reg)
    ensures Shifts(c, 16) == ZERO
  {
    var c4 := Shift(Shift(Shift(Shift(c))));
    var c8 := Shift(Shift(Shift(Shift(c4))));
    var c12 := Shift(Shift(Shift(Shift(c8))));
    var c16 := Shift(Shift(Shift(Shift(c12))));
    assert Shifts(c, 2) == Shift(Shift(c));
    assert Shifts(c, 4) == c4;
    assert Shifts(c, 6) == Shift(Shift(c4));
    assert Shifts(c, 8) == c8;
    assert Shifts(c, 10) == Shift(Shift(c8));
    assert Shifts(c, 12) == c12;
    assert Shifts(c, 14) == Shift(Shift(c12));
    assert Shifts(c, 16) == c16;
  }

  lemma ParityOfShift(c: Reg)
    ensures OddParity(c) <==> Odd(c) != OddParity(Shift(c))
  {
    ParityFront(c, 15);
    ShiftsFront(c, 15);
    RegRunsOut(c);
  }

  lemma {:induction false} ShiftsOfZero(n: nat)
    ensures Shifts(ZERO, n) == ZERO
    decreases n
  {
    if n > 0 { ShiftsOfZero(n - 1); }
  }

  lemma {:induction false} ParityOfZero(n: nat)
    ensures !ParityBelow(ZERO, n)
    decreases n
  {
    if n > 0 {
      ParityOfZero(n - 1);
      ShiftsOfZero(n - 1);
    }
  }

  lemma ParityOfOne()
    ensures OddParity(Reg(1))
  {
    ParityFront(Reg(1), 15);
    assert Shift(Reg(1)) == ZERO;
    ParityOfZero(15);
  }

  /** The polynomial has three ones: bits 0, 13 and 15. */
  lemma ParityOfPoly()
    ensures OddParity(POLY)
  {
    assert POLY == Xor(Xor(Reg(0x8000), Reg(0x2000)), Reg(1));
    ParityXor(Xor(Reg(0x8000), Reg(0x2000)), Reg(1), 16);
    ParityXor(Reg(0x8000), Reg(0x2000), 16);
    ParityOfOne();
    ParityOfShift(Reg(0x8000));
    ParityOfShift(Reg(0x4000));
    assert Shift(Reg(0x8000)) == Reg(0x4000);
    assert Shift(Reg(0x4000)) == Reg(0x2000);
  }

  lemma ParityOfBit(c: Reg, b: bool)
    ensures OddParity(Xor(c, Bit(b))) <==> OddParity(c) != b
  {
    ParityXor(c, Bit(b), 16);
    if b { ParityOfOne(); } else { ParityOfZero(16); }
  }

  /** A one that falls out brings in an odd number of ones, so a step keeps the parity. */
  lemma ParityOfStep(c: Reg)
    ensures OddParity(BitStep(c)) <==> OddParity(c)
  {
    ParityOfShift(c);
    ParityXor(Shift(c), POLY, 16);
    ParityOfPoly();
  }

  lemma {:induction false} ParityOfAbsorb(c: Reg, bits: Bits)
    ensures OddParity(Absorb(c, bits)) <==> OddParity(c) != (Ones(bits) % 2 == 1)
    decreases |bits|
  {
    if |bits| > 0 {
      ParityOfBit(c, bits[0]);
      ParityOfStep(Xor(c, Bit(bits[0])));
      ParityOfAbsorb(BitStep(Xor(c, Bit(bits[0]))), bits[1..]);
    }
  }

  /** Any odd number of flipped bits is detected. */
  lemma OddFlipsDetected(a: seq<Byte>, b: seq<Byte>)
    requires |a| == |b| && Codeword(a)
    requires Ones(Difference(BitsOf(a), BitsOf(b))) % 2 == 1
    ensures !Codeword(b)
  {
    UndetectedIff(a, b);
    ParityOfZero(16);
    ParityOfAbsorb(ZERO, Difference(BitsOf(a), BitsOf(b)));
  }
}
