/**
 Two flipped bits. A step of the register multiplies by x modulo x^16 + x^15 + x^2 + 1, the top bit standing
 for 1. Two flipped bits cancel exactly if their distance is a multiple of the order of x, and that order is
 32767: x^32768 is x, which repeated squaring shows, and none of the proper divisors 4681, 1057 and 217 that
 belong to the primes 7, 31 and 151 will do.
 */
module FlippedBits {
  import opened Crc
  import opened ErrorDetection

  const UNIT := Reg(0x8000)
  const ORDER: nat := 32767

  function Power(n: nat): Reg { BitSteps(UNIT, n) }

  predicate Returns(n: nat) { Power(n) == UNIT }

  // ---------------------------------------------------------------- exponents that return to one

  lemma {:induction false} StepsAdd(c: Reg, m: nat, n: nat)
    ensures BitSteps(BitSteps(c, m), n) == BitSteps(c, m + n)
    decreases n
  {
    if n > 0 { StepsAdd(c, m, n - 1); }
  }

  lemma StepsInjective(c: Reg, d: Reg, n: nat)
    ensures BitSteps(c, n) == BitSteps(d, n) <==> c == d
  {
    hide Xor, BitSteps;
    BitStepsLinear(c, d, n);
    BitStepsZero(Xor(c, d), n);
    XorSame(c, d);
    XorSame(BitSteps(c, n), BitSteps(d, n));
  }

  lemma ReturnsLess(m: nat, n: nat)
    requires Returns(n)
    ensures Returns(m + n) <==> Returns(m)
  {
    StepsAdd(UNIT, m, n);
    StepsInjective(Power(m), UNIT, n);
  }

  lemma {:induction false} ReturnsMultiple(n: nat, k: nat)
    requires Returns(n)
    ensures Returns(k * n)
    decreases k
  {
    if k == 0 {
      assert k * n == 0;
    } else {
      ReturnsMultiple(n, k - 1);
      assert k * n == (k - 1) * n + n;
      ReturnsLess((k - 1) * n, n);
    }
  }

  lemma ReturnsRemainder(m: nat, a: nat, b: nat)
    requires b > 0 && Returns(m * a) && Returns(m * b)
    ensures Returns(m * (a % b))
  {
    var k := a / b;
    ReturnsMultiple(m * b, k);
    assert a == k * b + a % b;
    assert m * a == m * (k * b) + m * (a % b) == k * (m * b) + m * (a % b);
    ReturnsLess(m * (a % b), k * (m * b));
  }

  ghost predicate Prime(q: nat) { q > 1 && forall s: nat | 1 < s < q :: q % s != 0 }

  /** If x^(m * q) is one for a prime q, and x^(m * s) is too for an s below it, then x^m is. */
  lemma {:induction false} ReturnsBelowPrime(m: nat, q: nat, s: nat)
    requires Prime(q) && 0 < s < q && Returns(m * q) && Returns(m * s)
    ensures Returns(m)
    decreases s
  {
    if s > 1 {
      ReturnsRemainder(m, q, s);
      ReturnsBelowPrime(m, q, q % s);
    }
  }

  // ---------------------------------------------------------------- squaring

  /** What coefficient 15 - i contributes to the square. */
  function Part(c: Reg, i: nat): Reg
    requires i < 16
  {
    if Odd(Shifts(c, i)) then Power(2 * (15 - i)) else ZERO
  }

  function Sum(c: Reg, n: nat): Reg
    requires n <= 16
    decreases n
  {
    if n == 0 then ZERO else Xor(Sum(c, n - 1), Part(c, n - 1))
  }

  /** The square: coefficient k moves to 2 * k. */
  function Square(c: Reg): Reg { Sum(c, 16) }

  function Twice(c: Reg): Reg { BitStep(BitStep(c)) }

  lemma TwiceLinear(c: Reg, d: Reg)
    ensures Twice(Xor(c, d)) == Xor(Twice(c), Twice(d))
  {
    hide Xor, BitStep;
    BitStepLinear(c, d);
    BitStepLinear(BitStep(c), BitStep(d));
  }

  lemma TwiceZero()
    ensures Twice(ZERO) == ZERO
  {}

  lemma TwicePower(n: nat)
    ensures Twice(Power(n)) == Power(n + 2)
  {
    assert BitSteps(UNIT, n + 2) == BitStep(BitSteps(UNIT, n + 1));
  }

  /** What falls out of the register comes back as x^32. */
  function Wrapped(odd: bool): Reg { if odd then Power(32) else ZERO }

  lemma {:induction false} SumOfShift(c: Reg, n: nat)
    requires n < 16
    ensures Twice(Sum(c, n + 1)) == Xor(Wrapped(Odd(c)), Sum(Shift(c), n))
    decreases n
  {
    TwiceLinear(Sum(c, n), Part(c, n));
    if n == 0 {
      SumStarts(c);
    } else {
      SumOfShift(c, n - 1);
      PartOfShift(c, n);
      hide Xor, Twice, Part, Odd, Shift;
      XorAssociates(Wrapped(Odd(c)), Sum(Shift(c), n - 1), Part(Shift(c), n - 1));
    }
  }

  lemma PartOfShift(c: Reg, n: nat)
    requires 0 < n < 16
    ensures Twice(Part(c, n)) == Part(Shift(c), n - 1)
  {
    ShiftsFront(c, n - 1);
    TwicePower(2 * (15 - n));
    TwiceZero();
    hide Twice, Odd, Shift, Shifts, Power;
  }

  lemma SumStarts(c: Reg)
    ensures Twice(Sum(c, 1)) == Xor(Wrapped(Odd(c)), Sum(Shift(c), 0))
  {
    hide Xor, Twice, Power, Odd;
    XorFromZero(Part(c, 0));
    XorZero(Wrapped(Odd(c)));
    TwicePower(30);
    TwiceZero();
    assert Shifts(c, 0) == c;
  }

  lemma {:induction false} SumLinear(c: Reg, d: Reg, n: nat)
    requires n <= 16
    ensures Sum(Xor(c, d), n) == Xor(Sum(c, n), Sum(d, n))
    decreases n
  {
    if n > 0 {
      SumLinear(c, d, n - 1);
      PartLinear(c, d, n - 1);
      hide Xor, Part;
      XorSwaps(Sum(c, n - 1), Sum(d, n - 1), Part(c, n - 1), Part(d, n - 1));
    }
  }

  lemma PartLinear(c: Reg, d: Reg, i: nat)
    requires i < 16
    ensures Part(Xor(c, d), i) == Xor(Part(c, i), Part(d, i))
  {
    hide Odd, Shifts, Power;
    ShiftsXor(c, d, i);
    OddXor(Shifts(c, i), Shifts(d, i));
    XorSame(Power(2 * (15 - i)), Power(2 * (15 - i)));
  }

  lemma SquareOfFeedback(odd: bool)
    ensures Square(Feedback(odd)) == Wrapped(odd)
  {
    SquareIsTable(Feedback(odd));
    Powers();
    assert Power(32) == BitStep(BitStep(Power(30)));
    hide Square;
  }

  lemma SquareStep(c: Reg)
    ensures Square(BitStep(c)) == Twice(Square(c))
  {
    SumOfShift(c, 15);
    ShiftsFront(c, 15);
    RegRunsOut(c);
    XorZero(Sum(Shift(c), 15));
    assert Sum(Shift(c), 16) == Sum(Shift(c), 15);
    BitStepSplits(c);
    SumLinear(Shift(c), Feedback(Odd(c)), 16);
    SquareOfFeedback(Odd(c));
    hide Sum, Shift, BitStep, Feedback, Twice, Wrapped;
    XorSwap(Wrapped(Odd(c)), Sum(Shift(c), 15));
  }

  lemma XorSwap(a: Reg, b: Reg)
    ensures Xor(a, b) == Xor(b, a)
  {}

  // The square read off a table, for computing with constants.

  function Term(c: Reg, square: bv16): Reg { if Odd(c) then Reg(square) else ZERO }

  function Quarter(sum: Reg, c: Reg, p: bv16, q: bv16, r: bv16, s: bv16): Reg {
    Xor(Xor(Xor(Xor(sum, Term(c, p)), Term(Shift(c), q)), Term(Shift(Shift(c)), r)), Term(Shift(Shift(Shift(c))), s))
  }

  function Four(c: Reg): Reg { Shift(Shift(Shift(Shift(c)))) }

  function Table(c: Reg): Reg {
    var low := Quarter(ZERO, c, 0x6001, 0xC007, 0xC019, 0xC061);
    var mid := Quarter(low, Four(c), 0xC181, 0xC601, 0xD801, 0xA001);
    var high := Quarter(mid, Four(Four(c)), 0x0002, 0x0008, 0x0020, 0x0080);
    Quarter(high, Four(Four(Four(c))), 0x0200, 0x0800, 0x2000, 0x8000)
  }

  lemma QuarterIsSum(c: Reg, n: nat, p: bv16, q: bv16, r: bv16, s: bv16)
    requires n <= 12 && Power(2 * (15 - n)) == Reg(p) && Power(2 * (14 - n)) == Reg(q)
    requires Power(2 * (13 - n)) == Reg(r) && Power(2 * (12 - n)) == Reg(s)
    ensures Sum(c, n + 4) == Quarter(Sum(c, n), Shifts(c, n), p, q, r, s)
    ensures Shifts(c, n + 4) == Four(Shifts(c, n))
  {
    hide Power, Odd, Shift, Xor;
    var d := Shifts(c, n);
    assert Shifts(c, n + 1) == Shift(d);
    assert Shifts(c, n + 2) == Shift(Shift(d));
    assert Shifts(c, n + 3) == Shift(Shift(Shift(d)));
    assert Sum(c, n + 1) == Xor(Sum(c, n), Term(d, p));
    assert Sum(c, n + 2) == Xor(Sum(c, n + 1), Term(Shift(d), q));
    assert Sum(c, n + 3) == Xor(Sum(c, n + 2), Term(Shift(Shift(d)), r));
  }

  lemma Powers()
    ensures Power(0) == Reg(0x8000)
    ensures Power(2) == Reg(0x2000)
    ensures Power(4) == Reg(0x0800)
    ensures Power(6) == Reg(0x0200)
    ensures Power(8) == Reg(0x0080)
    ensures Power(10) == Reg(0x0020)
    ensures Power(12) == Reg(0x0008)
    ensures Power(14) == Reg(0x0002)
    ensures Power(16) == Reg(0xA001)
    ensures Power(18) == Reg(0xD801)
    ensures Power(20) == Reg(0xC601)
    ensures Power(22) == Reg(0xC181)
    ensures Power(24) == Reg(0xC061)
    ensures Power(26) == Reg(0xC019)
    ensures Power(28) == Reg(0xC007)
    ensures Power(30) == Reg(0x6001)
  {
    assert Power(0) == Reg(0x8000);
    assert Power(2) == Reg(0x2000);
    assert Power(4) == Reg(0x0800);
    assert Power(6) == Reg(0x0200);
    assert Power(8) == Reg(0x0080);
    assert Power(10) == Reg(0x0020);
    assert Power(12) == Reg(0x0008);
    assert Power(14) == Reg(0x0002);
    assert Power(16) == Reg(0xA001);
    assert Power(18) == Reg(0xD801);
    assert Power(20) == Reg(0xC601);
    assert Power(22) == Reg(0xC181);
    assert Power(24) == Reg(0xC061);
    assert Power(26) == Reg(0xC019);
    assert Power(28) == Reg(0xC007);
    assert Power(30) == Reg(0x6001);
  }

  lemma SquareIsTable(c: Reg)
    ensures Square(c) == Table(c)
  {
    Powers();
    hide Power, Quarter, Four, Sum, Shifts;
    SumEmpty(c);
    QuarterIsSum(c, 0, 0x6001, 0xC007, 0xC019, 0xC061);
    QuarterIsSum(c, 4, 0xC181, 0xC601, 0xD801, 0xA001);
    QuarterIsSum(c, 8, 0x0002, 0x0008, 0x0020, 0x0080);
    QuarterIsSum(c, 12, 0x0200, 0x0800, 0x2000, 0x8000);
  }

  lemma SumEmpty(c: Reg)
    ensures Sum(c, 0) == ZERO && Shifts(c, 0) == c
  {}

  lemma {:induction false} SquareDoubles(n: nat)
    ensures Power(2 * n) == Square(Power(n))
    decreases n
  {
    if n == 0 {
      SquareIsTable(UNIT);
    } else {
      hide Square;
      SquareDoubles(n - 1);
      SquareStep(Power(n - 1));
      TwicePower(2 * (n - 1));
      assert 2 * n == 2 * (n - 1) + 2;
    }
  }

  // The same on the bare bits.

  function Half(v: bv16): bv16 { v >> 1 }

  function AddBits(sum: bv16, v: bv16, square: bv16): bv16 { if v & 1 != 0 then sum ^ square else sum }

  function QuarterBits(sum: bv16, v: bv16, p: bv16, q: bv16, r: bv16, s: bv16): bv16 {
    AddBits(AddBits(AddBits(AddBits(sum, v, p), Half(v), q), Half(Half(v)), r), Half(Half(Half(v))), s)
  }

  function FourBits(v: bv16): bv16 { Half(Half(Half(Half(v)))) }

  function TableBits(v: bv16): bv16 {
    var low := QuarterBits(0, v, 0x6001, 0xC007, 0xC019, 0xC061);
    var mid := QuarterBits(low, FourBits(v), 0xC181, 0xC601, 0xD801, 0xA001);
    var high := QuarterBits(mid, FourBits(FourBits(v)), 0x0002, 0x0008, 0x0020, 0x0080);
    QuarterBits(high, FourBits(FourBits(FourBits(v))), 0x0200, 0x0800, 0x2000, 0x8000)
  }

  lemma HalfOnBits(v: bv16)
    ensures Shift(Reg(v)) == Reg(Half(v))
  {}

  lemma AddOnBits(sum: bv16, v: bv16, square: bv16)
    ensures Xor(Reg(sum), Term(Reg(v), square)) == Reg(AddBits(sum, v, square))
  {
    if v & 1 != 0 {
      assert Term(Reg(v), square) == Reg(square);
    } else {
      XorZero(Reg(sum));
    }
  }

  lemma OnBits(sum: bv16, v: bv16, p: bv16, q: bv16, r: bv16, s: bv16)
    ensures Quarter(Reg(sum), Reg(v), p, q, r, s) == Reg(QuarterBits(sum, v, p, q, r, s))
  {
    hide Half, AddBits, Term, Xor, Shift;
    HalfOnBits(v);
    HalfOnBits(Half(v));
    HalfOnBits(Half(Half(v)));
    AddOnBits(sum, v, p);
    var one := AddBits(sum, v, p);
    AddOnBits(one, Half(v), q);
    var two := AddBits(one, Half(v), q);
    AddOnBits(two, Half(Half(v)), r);
    AddOnBits(AddBits(two, Half(Half(v)), r), Half(Half(Half(v))), s);
  }

  lemma FourOnBits(v: bv16)
    ensures Four(Reg(v)) == Reg(FourBits(v))
  {
    hide Half, Shift;
    HalfOnBits(v);
    HalfOnBits(Half(v));
    HalfOnBits(Half(Half(v)));
    HalfOnBits(Half(Half(Half(v))));
  }

  lemma TableOnBits(v: bv16)
    ensures Table(Reg(v)) == Reg(TableBits(v))
  {
    hide Quarter, QuarterBits, Four, FourBits;
    var w := FourBits(v);
    FourOnBits(v);
    FourOnBits(w);
    FourOnBits(FourBits(w));
    var low := QuarterBits(0, v, 0x6001, 0xC007, 0xC019, 0xC061);
    var mid := QuarterBits(low, w, 0xC181, 0xC601, 0xD801, 0xA001);
    var high := QuarterBits(mid, FourBits(w), 0x0002, 0x0008, 0x0020, 0x0080);
    OnBits(0, v, 0x6001, 0xC007, 0xC019, 0xC061);
    OnBits(low, w, 0xC181, 0xC601, 0xD801, 0xA001);
    OnBits(mid, FourBits(w), 0x0002, 0x0008, 0x0020, 0x0080);
    OnBits(high, FourBits(FourBits(w)), 0x0200, 0x0800, 0x2000, 0x8000);
  }

  /** One rung of a ladder up to a power. */
  lemma Rung(n: nat, v: bv16, odd: bool, w: bv16)
    requires Power(n) == Reg(v)
    requires w == if odd then StepBits(TableBits(v)) else TableBits(v)
    ensures Power(2 * n + if odd then 1 else 0) == Reg(w)
  {
    hide Square, Table, TableBits, BitStep, StepBits;
    SquareDoubles(n);
    SquareIsTable(Reg(v));
    TableOnBits(v);
    StepOnBits(TableBits(v));
  }

  lemma FirstPower()
    ensures Power(1) == Reg(0x4000)
  {}

  // ---------------------------------------------------------------- the order of x

  lemma OrderReturns()
    ensures Returns(ORDER)
  {
    hide Power;
    FirstPower();
    Rung(1, 0x4000, false, 0x2000);
    Rung(2, 0x2000, false, 0x0800);
    Rung(4, 0x0800, false, 0x0080);
    Rung(8, 0x0080, false, 0xA001);
    Rung(16, 0xA001, false, 0xE801);
    Rung(32, 0xE801, false, 0xC881);
    Rung(64, 0xC881, false, 0x6080);
    Rung(128, 0x6080, false, 0x8801);
    Rung(256, 0x8801, false, 0xE081);
    Rung(512, 0xE081, false, 0x6800);
    Rung(1024, 0x6800, false, 0x2880);
    Rung(2048, 0x2880, false, 0xA881);
    Rung(4096, 0xA881, false, 0x4880);
    Rung(8192, 0x4880, false, 0x8081);
    Rung(16384, 0x8081, false, 0x4000);
    OneBack();
  }

  lemma OneBack()
    requires Power(32768) == Power(1)
    ensures Returns(32767)
  {
    hide BitSteps;
    StepsAdd(UNIT, 32767, 1);
    StepsAdd(UNIT, 0, 1);
    StepsInjective(Power(32767), Power(0), 1);
    StartsAtUnit();
  }

  lemma StartsAtUnit()
    ensures Power(0) == UNIT
  {}

  lemma NotBySeventh()
    ensures !Returns(4681)
  {
    hide Power;
    FirstPower();
    Rung(1, 0x4000, false, 0x2000);
    Rung(2, 0x2000, false, 0x0800);
    Rung(4, 0x0800, true, 0x0040);
    Rung(9, 0x0040, false, 0xD801);
    Rung(18, 0xD801, false, 0xC281);
    Rung(36, 0xC281, true, 0x3004);
    Rung(73, 0x3004, false, 0xCA19);
    Rung(146, 0xCA19, false, 0xC169);
    Rung(292, 0xC169, true, 0x0F31);
    Rung(585, 0x0F31, false, 0x672B);
    Rung(1170, 0x672B, false, 0x8E4C);
    Rung(2340, 0x8E4C, true, 0x8C69);
  }

  lemma HalfWay()
    ensures Power(33) == Reg(0xD401)
  {
    hide Power;
    FirstPower();
    Rung(1, 0x4000, false, 0x2000);
    Rung(2, 0x2000, false, 0x0800);
    Rung(4, 0x0800, false, 0x0080);
    Rung(8, 0x0080, false, 0xA001);
    Rung(16, 0xA001, true, 0xD401);
  }

  lemma NotByThirtyFirst()
    ensures !Returns(1057)
  {
    hide Power;
    HalfWay();
    Rung(33, 0xD401, false, 0xC221);
    Rung(66, 0xC221, false, 0x0608);
    Rung(132, 0x0608, false, 0xC049);
    Rung(264, 0xC049, false, 0xD861);
    Rung(528, 0xD861, true, 0xCE41);
  }

  lemma NotByLast()
    ensures !Returns(217)
  {
    hide Power;
    FirstPower();
    Rung(1, 0x4000, true, 0x1000);
    Rung(3, 0x1000, false, 0x0200);
    Rung(6, 0x0200, true, 0x0004);
    Rung(13, 0x0004, true, 0xC00D);
    Rung(27, 0xC00D, false, 0xC079);
    Rung(54, 0xC079, false, 0xDFE1);
    Rung(108, 0xDFE1, true, 0x3E55);
  }

  lemma SmallPrimes()
    ensures Prime(7) && Prime(31)
  {}

  lemma LargePrime()
    ensures Prime(151)
  {}

  /** An exponent that returns to one is a multiple of the prime q, if ORDER / q does not return. */
  lemma DividedByPrime(n: nat, m: nat, q: nat)
    requires Returns(n) && Prime(q) && m * q == ORDER && !Returns(m)
    ensures n % q == 0
  {
    OrderReturns();
    hide Returns, Prime;
    ReturnsMultiple(n, m);
    QPositive(q);
    ReturnsRemainder(m, n, q);
    if n % q != 0 { ReturnsBelowPrime(m, q, n % q); }
  }

  lemma QPositive(q: nat)
    requires Prime(q)
    ensures q > 1
  {}

  lemma AllThree(n: nat)
    requires n % 7 == 0 && n % 31 == 0 && n % 151 == 0
    ensures n % ORDER == 0
  {
    var a, b, c := n / 7, n / 31, n / 151;
    assert n == 7 * a == 31 * b == 151 * c;
    var e := 9 * b - 2 * a;
    assert n == 217 * e;
    var f := 23 * e - 16 * c;
    assert n == 32767 * f;
  }

  /** The powers of x return to one exactly at the multiples of 32767. */
  lemma ReturnsIff(n: nat)
    ensures Returns(n) <==> n % ORDER == 0
  {
    OrderReturns();
    hide Returns;
    if Returns(n) {
      SmallPrimes();
      LargePrime();
      NotBySeventh();
      NotByThirtyFirst();
      NotByLast();
      hide Prime;
      DividedByPrime(n, 4681, 7);
      DividedByPrime(n, 1057, 31);
      DividedByPrime(n, 217, 151);
      AllThree(n);
    }
    if n % ORDER == 0 { ReturnsMultiple(ORDER, n / ORDER); }
  }

  // ---------------------------------------------------------------- two flipped bits

  lemma {:induction false} QuietIsSteps(c: Reg, bits: Bits)
    requires Quiet(bits)
    ensures Absorb(c, bits) == BitSteps(c, |bits|)
    decreases |bits|
  {
    if |bits| > 0 {
      hide BitStep;
      XorZero(c);
      QuietIsSteps(BitStep(c), bits[1..]);
      BitStepsFront(c, |bits| - 1);
    }
  }

  /** A flipped bit behind quiet ones. */
  lemma FlipAfterQuiet(c: Reg, d: Bits, p: nat)
    requires p < |d| && d[p] && Quiet(d[..p])
    ensures Absorb(c, d) == Absorb(BitStep(Xor(BitSteps(c, p), Reg(1))), d[p + 1..])
  {
    hide BitStep, Xor;
    assert d == d[..p] + d[p..];
    AbsorbConcat(c, d[..p], d[p..]);
    QuietIsSteps(c, d[..p]);
    assert d[p..][0] == d[p] && d[p..][1..] == d[p + 1..];
  }

  /** Nothing but bits `p` and `q` is set. */
  predicate Pair(d: Bits, p: nat, q: nat) {
    p < q < |d| && forall i | 0 <= i < |d| :: d[i] <==> i == p || i == q
  }

  lemma PairVanishesIff(d: Bits, p: nat, q: nat)
    requires Pair(d, p, q)
    ensures Absorb(ZERO, d) == ZERO <==> BitSteps(Reg(1), q - p) == Reg(1)
  {
    hide BitStep, Xor, Absorb;
    var e, n := d[p + 1..], q - p - 1;
    FlipAfterQuiet(ZERO, d, p);
    BitStepsZero(ZERO, p);
    XorFromZero(Reg(1));
    var c := BitStep(Reg(1));
    assert e[n] == d[q];
    FlipAfterQuiet(c, e, n);
    BitStepsFront(Reg(1), n);
    var f := Xor(BitSteps(Reg(1), q - p), Reg(1));
    assert Quiet(e[n + 1..]);
    AbsorbQuiet(BitStep(f), e[n + 1..]);
    BitStepZero(f);
    XorSame(BitSteps(Reg(1), q - p), Reg(1));
  }

  lemma XorFromZero(c: Reg)
    ensures Xor(ZERO, c) == c
  {}

  lemma LastBitReturnsIff(n: nat)
    ensures BitSteps(Reg(1), n) == Reg(1) <==> Returns(n)
  {
    Fifteenth();
    hide BitSteps;
    StepsAdd(UNIT, 15, n);
    StepsAdd(UNIT, n, 15);
    StepsInjective(Power(n), UNIT, 15);
  }

  lemma Fifteenth()
    ensures Power(15) == Reg(1)
  {
    Powers();
    assert Power(15) == BitStep(Power(14));
    hide BitSteps;
  }

  lemma DistanceDecides(d: Bits, p: nat, q: nat)
    requires Pair(d, p, q)
    ensures p < q && (Absorb(ZERO, d) == ZERO <==> (q - p) % ORDER == 0)
  {
    hide Absorb, Returns, BitSteps;
    PairVanishesIff(d, p, q);
    LastBitReturnsIff(q - p);
    ReturnsIff(q - p);
  }

  /** Two flipped bits go unnoticed if and only if their distance is a multiple of 32767. */
  lemma TwoFlipsMissedIff(a: seq<Byte>, b: seq<Byte>, p: nat, q: nat)
    requires |a| == |b| && Codeword(a) && Pair(Difference(BitsOf(a), BitsOf(b)), p, q)
    ensures p < q && (Codeword(b) <==> (q - p) % ORDER == 0)
  {
    hide Codeword, Absorb, BitsOf, Pair, Difference;
    UndetectedIff(a, b);
    DistanceDecides(Difference(BitsOf(a), BitsOf(b)), p, q);
  }

  lemma {:induction false} NoOnes(d: Bits)
    requires Ones(d) == 0
    ensures Quiet(d)
    decreases |d|
  {
    if |d| > 0 {
      NoOnes(d[1..]);
      assert forall i | 1 <= i < |d| :: d[i] == d[1..][i - 1];
    }
  }

  /** The first set bit; the rest has one fewer. */
  lemma {:induction false} FirstOne(d: Bits) returns (p: nat)
    requires Ones(d) > 0
    ensures p < |d| && d[p] && Quiet(d[..p]) && Ones(d[p + 1..]) == Ones(d) - 1
    decreases |d|
  {
    if d[0] {
      p := 0;
    } else {
      var k := FirstOne(d[1..]);
      p := k + 1;
      assert d[1..][k + 1..] == d[p + 1..];
      forall i | 0 <= i < p ensures !d[i] { if i > 0 { assert d[i] == d[1..][..k][i - 1]; } }
    }
  }

  lemma TwoOnes(d: Bits) returns (p: nat, q: nat)
    requires Ones(d) == 2
    ensures Pair(d, p, q)
  {
    p := FirstOne(d);
    var e := d[p + 1..];
    var k := FirstOne(e);
    q := p + 1 + k;
    NoOnes(e[k + 1..]);
    forall i | 0 <= i < |d| ensures d[i] <==> i == p || i == q {
      if i < p { assert d[i] == d[..p][i]; }
      if p < i < q { assert d[i] == e[..k][i - p - 1]; }
      if q < i { assert d[i] == e[k + 1..][i - q - 1]; }
    }
  }

  /** Up to 4095 bytes, trailer included, two words that differ in one, two or three bits are never both
      accepted: codewords are at least four flips apart. Every frame and every Modbus message is shorter. */
  lemma FewFlipsDetected(a: seq<Byte>, b: seq<Byte>)
    requires |a| == |b| <= 4095 && Codeword(a)
    requires 1 <= Ones(Difference(BitsOf(a), BitsOf(b))) <= 3
    ensures !Codeword(b)
  {
    hide Codeword, BitsOf, Ones;
    var d := Difference(BitsOf(a), BitsOf(b));
    if Ones(d) == 2 {
      var p, q := TwoOnes(d);
      assert 0 < q - p < ORDER;
      hide Pair;
      TwoFlipsMissedIff(a, b, p, q);
    } else {
      OddFlipsDetected(a, b);
    }
  }
}
