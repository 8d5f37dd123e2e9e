/** Division by a generator polynomial of degree 32 in a shift register, for any generator. Words hold the
    coefficient of x^31 in their least significant bit, so the register shifts towards the low end. */
module ShiftRegister {
  import opened Bits
  import opened Powers

  type Byte = b: int | 0 <= b < 256

  datatype Register = Register(bits: seq<bool>)

  type Word = w: Register | |w.bits| == 32 witness Register(Zeros(32))

  /** `^` */
  function Add(a: Word, b: Word): Word {
    Register(Xor(a.bits, b.bits))
  }

  /** `>>>` */
  function Shift(w: Word, k: nat): Word {
    Register(Shr(w.bits, k))
  }

  function AllOnes(): Word {
    Register(Ones(32))
  }

  function FromNumber(n: nat): Word {
    Register(FromNat(n, 32))
  }

  /** Up to 32 bits at the low end. */
  function Pad(bits: seq<bool>): Word
    requires |bits| <= 32
  {
    Register(bits + Zeros(32 - |bits|))
  }

  // ----- The reference: one data bit at a time. -----

  /** Shift one data bit in; the generator is subtracted when the bit that leaves differs from it. */
  function ShiftBit(poly: Word, reg: Word, bit: bool): Word {
    if reg.bits[0] != bit then Add(poly, Shift(reg, 1)) else Shift(reg, 1)
  }

  function ShiftBits(poly: Word, reg: Word, bits: seq<bool>): Word
    decreases |bits|
  {
    if |bits| == 0 then reg else ShiftBits(poly, ShiftBit(poly, reg, bits[0]), bits[1..])
  }

  function BitsOf(data: seq<Byte>): (bits: seq<bool>)
    ensures |bits| == 8 * |data|
  {
    if |data| == 0 then [] else FromNat(data[0], 8) + BitsOf(data[1..])
  }

  // ----- The division step without data, and its linearity. -----

  function Step(poly: Word, c: Word): Word {
    if c.bits[0] then Add(poly, Shift(c, 1)) else Shift(c, 1)
  }

  function Steps(poly: Word, c: Word, n: nat): Word
    decreases |c.bits|, n
  {
    if n == 0 then c else Steps(poly, Step(poly, c), n - 1)
  }

  lemma {:induction false} StepsThenStep(poly: Word, c: Word, n: nat)
    ensures Steps(poly, c, n + 1) == Step(poly, Steps(poly, c, n))
    decreases n
  {
    if n > 0 {
      StepsThenStep(poly, Step(poly, c), n - 1);
    }
  }

  lemma StepIsLinear(poly: Word, a: Word, b: Word)
    ensures Step(poly, Add(a, b)) == Add(Step(poly, a), Step(poly, b))
  {
  }

  lemma {:induction false} StepsAreLinear(poly: Word, a: Word, b: Word, n: nat)
    ensures Steps(poly, Add(a, b), n) == Add(Steps(poly, a, n), Steps(poly, b, n))
    decreases n
  {
    if n > 0 {
      StepIsLinear(poly, a, b);
      StepsAreLinear(poly, Step(poly, a), Step(poly, b), n - 1);
    }
  }

  /** While the low bits are zero a step only shifts. */
  lemma {:induction false} StepsOfHighBits(poly: Word, h: Word, n: nat)
    requires n <= 32 && forall i :: 0 <= i < n ==> !h.bits[i]
    ensures Steps(poly, h, n) == Shift(h, n)
    decreases n
  {
    if n == 0 {
      assert Shr(h.bits, 0) == h.bits;
    } else {
      StepsOfHighBits(poly, Shift(h, 1), n - 1);
      assert Shr(Shr(h.bits, 1), n - 1) == Shr(h.bits, n);
    }
  }

  // ----- Data bits may be added in ahead of time. -----

  lemma ShiftIsStep(poly: Word, reg: Word, bits: seq<bool>)
    requires 0 < |bits| <= 32
    ensures Step(poly, Add(reg, Pad(bits))) == Add(ShiftBit(poly, reg, bits[0]), Pad(bits[1..]))
  {
  }

  /** Up to a word of data bits at once: add them at the low end, then run the division steps. */
  lemma {:induction false} ShiftBitsAreSteps(poly: Word, reg: Word, bits: seq<bool>)
    requires |bits| <= 32
    ensures ShiftBits(poly, reg, bits) == Steps(poly, Add(reg, Pad(bits)), |bits|)
    decreases |bits|
  {
    if |bits| == 0 {
      assert Xor(reg.bits, Pad(bits).bits) == reg.bits;
    } else {
      ShiftIsStep(poly, reg, bits);
      ShiftBitsAreSteps(poly, ShiftBit(poly, reg, bits[0]), bits[1..]);
    }
  }

  // ----- The byte step of the table-driven form. -----

  /** The remainders of the 256 bytes. */
  ghost predicate IsTable(poly: Word, table: seq<Word>) {
    |table| == 256 && forall n :: 0 <= n < 256 ==> table[n] == Steps(poly, FromNumber(n), 8)
  }

  /** `& 0xff` */
  function LowByte(w: Word): (n: nat)
    ensures n < 256
  {
    ToNatBound(w.bits[..8]);
    assert Pow2(8) == 256;
    ToNat(w.bits[..8])
  }

  lemma ByteWord(b: Byte)
    ensures FromNumber(b) == Pad(FromNat(b, 8))
  {
    assert Pow2(8) == 256;
    Widen(b, 8, 24);
  }

  lemma LowByteWord(w: Word)
    ensures FromNumber(LowByte(w)) == Pad(w.bits[..8])
  {
    ByteWord(LowByte(w));
    FromNatToNat(w.bits[..8]);
  }

  /** Eight division steps are one table lookup and one shift. */
  lemma EightSteps(poly: Word, x: Word)
    ensures Steps(poly, x, 8) == Add(Steps(poly, FromNumber(LowByte(x)), 8), Shift(x, 8))
  {
    var low := Pad(x.bits[..8]);
    var high := Register(Zeros(8) + x.bits[8..]);
    assert x.bits == Xor(low.bits, high.bits);
    StepsAreLinear(poly, low, high, 8);
    StepsOfHighBits(poly, high, 8);
    assert Shr(high.bits, 8) == Shr(x.bits, 8);
    LowByteWord(x);
  }

  /** One round of the table loop processes the eight bits of a byte. */
  lemma ByteStep(poly: Word, reg: Word, b: Byte)
    ensures
      var remainder := Steps(poly, FromNumber(LowByte(Add(reg, FromNumber(b)))), 8);
      ShiftBits(poly, reg, FromNat(b, 8)) == Add(remainder, Shift(reg, 8))
  {
    ShiftBitsAreSteps(poly, reg, FromNat(b, 8));
    ByteWord(b);
    EightSteps(poly, Add(reg, FromNumber(b)));
    assert Shr(Add(reg, FromNumber(b)).bits, 8) == Shr(reg.bits, 8);
  }

  lemma {:induction false} ShiftBitsInTurn(poly: Word, reg: Word, a: seq<bool>, b: seq<bool>)
    ensures ShiftBits(poly, reg, a + b) == ShiftBits(poly, ShiftBits(poly, reg, a), b)
    decreases |a|
  {
    if |a| == 0 {
      assert a + b == b;
    } else {
      var next, all := ShiftBit(poly, reg, a[0]), a + b;
      assert all[0] == a[0] && all[1..] == a[1..] + b;
      ShiftBitsInTurn(poly, next, a[1..], b);
    }
  }

  lemma {:induction false} BitsOfConcat(a: seq<Byte>, b: seq<Byte>)
    ensures BitsOf(a + b) == BitsOf(a) + BitsOf(b)
    decreases |a|
  {
    if |a| == 0 {
      assert a + b == b;
    } else {
      BitsOfConcat(a[1..], b);
      assert (a + b)[1..] == a[1..] + b;
      assert (a + b)[0] == a[0];
    }
  }

  lemma BitsOfNext(data: seq<Byte>, i: nat)
    requires i < |data|
    ensures BitsOf(data[..i + 1]) == BitsOf(data[..i]) + FromNat(data[i], 8)
  {
    assert data[..i + 1] == data[..i] + [data[i]];
    BitsOfConcat(data[..i], [data[i]]);
    assert BitsOf([data[i]]) == FromNat(data[i], 8);
  }

  // ----- With a generator whose constant term is one, no division step loses information. -----

  lemma StepIsInjective(poly: Word, a: Word, b: Word)
    requires poly.bits[31] && Step(poly, a) == Step(poly, b)
    ensures a == b
  {
    assert a.bits[0] == Step(poly, a).bits[31] && b.bits[0] == Step(poly, b).bits[31];
    forall i | 1 <= i < 32
      ensures a.bits[i] == b.bits[i]
    {
      assert a.bits[i] == (Step(poly, a).bits[i - 1] != (a.bits[0] && poly.bits[i - 1]));
      assert b.bits[i] == (Step(poly, b).bits[i - 1] != (b.bits[0] && poly.bits[i - 1]));
    }
    assert a.bits == b.bits;
  }

  lemma {:induction false} StepsAreInjective(poly: Word, a: Word, b: Word, n: nat)
    requires poly.bits[31] && Steps(poly, a, n) == Steps(poly, b, n)
    ensures a == b
    decreases n
  {
    if n > 0 {
      StepsAreInjective(poly, Step(poly, a), Step(poly, b), n - 1);
      StepIsInjective(poly, a, b);
    }
  }

  lemma AddIsInjective(a: Word, b: Word, mask: Word)
    requires Add(a, mask) == Add(b, mask)
    ensures a == b
  {
  }

  /** Registers that differ stay different while the same bits are shifted in. */
  lemma {:induction false} SameBitsKeepDifference(poly: Word, a: Word, b: Word, bits: seq<bool>)
    requires poly.bits[31] && ShiftBits(poly, a, bits) == ShiftBits(poly, b, bits)
    ensures a == b
    decreases |bits|
  {
    if |bits| > 0 {
      SameBitsKeepDifference(poly, ShiftBit(poly, a, bits[0]), ShiftBit(poly, b, bits[0]), bits[1..]);
      var bit := Pad([bits[0]]);
      ShiftIsStep(poly, a, [bits[0]]);
      ShiftIsStep(poly, b, [bits[0]]);
      StepIsInjective(poly, Add(a, bit), Add(b, bit));
      AddIsInjective(a, b, bit);
    }
  }

  /** From one register, different strings of at most 32 bits lead to different registers. */
  lemma ShortStringsDiffer(poly: Word, reg: Word, x: seq<bool>, y: seq<bool>)
    requires poly.bits[31] && |x| == |y| <= 32 && ShiftBits(poly, reg, x) == ShiftBits(poly, reg, y)
    ensures x == y
  {
    ShiftBitsAreSteps(poly, reg, x);
    ShiftBitsAreSteps(poly, reg, y);
    StepsAreInjective(poly, Add(reg, Pad(x)), Add(reg, Pad(y)), |x|);
    forall i | 0 <= i < |x|
      ensures x[i] == y[i]
    {
      assert Add(reg, Pad(x)).bits[i] == (reg.bits[i] != x[i]);
      assert Add(reg, Pad(y)).bits[i] == (reg.bits[i] != y[i]);
    }
  }

  /** Strings that differ only inside a window of at most 32 bits lead to different registers. */
  lemma BurstsChangeTheRegister(poly: Word, start: Word, p: seq<bool>, q: seq<bool>, at: nat, width: nat)
    requires poly.bits[31]
    requires |p| == |q| && width <= 32 && at + width <= |p|
    requires p[..at] == q[..at] && p[at + width..] == q[at + width..]
    requires ShiftBits(poly, start, p) == ShiftBits(poly, start, q)
    ensures p == q
  {
    var reg := ShiftBits(poly, start, p[..at]);
    var x, y := p[at..at + width], q[at..at + width];
    InThreeParts(poly, start, p, at, width);
    InThreeParts(poly, start, q, at, width);
    SameBitsKeepDifference(poly, ShiftBits(poly, reg, x), ShiftBits(poly, reg, y), p[at + width..]);
    ShortStringsDiffer(poly, reg, x, y);
    PartsDetermine(p, q, at, width);
  }

  lemma PartsDetermine(p: seq<bool>, q: seq<bool>, at: nat, width: nat)
    requires |p| == |q| && at + width <= |p|
    requires p[..at] == q[..at] && p[at..at + width] == q[at..at + width] && p[at + width..] == q[at + width..]
    ensures p == q
  {
  }

  lemma InThreeParts(poly: Word, start: Word, p: seq<bool>, at: nat, width: nat)
    requires at + width <= |p|
    ensures
      var reg := ShiftBits(poly, start, p[..at]);
      ShiftBits(poly, start, p) == ShiftBits(poly, ShiftBits(poly, reg, p[at..at + width]), p[at + width..])
  {
    assert p == (p[..at] + p[at..at + width]) + p[at + width..];
    ShiftBitsInTurn(poly, start, p[..at] + p[at..at + width], p[at + width..]);
    ShiftBitsInTurn(poly, start, p[..at], p[at..at + width]);
  }

  lemma {:induction false} BitsOfIsInjective(a: seq<Byte>, b: seq<Byte>)
    requires |a| == |b| && BitsOf(a) == BitsOf(b)
    ensures a == b
    decreases |a|
  {
    if |a| > 0 {
      assert BitsOf(a)[..8] == FromNat(a[0], 8) && BitsOf(b)[..8] == FromNat(b[0], 8);
      assert BitsOf(a)[8..] == BitsOf(a[1..]) && BitsOf(b)[8..] == BitsOf(b[1..]);
      BitsOfIsInjective(a[1..], b[1..]);
      assert Pow2(8) == 256;
      ToNatFromNat(a[0], 8);
      ToNatFromNat(b[0], 8);
      assert a == [a[0]] + a[1..] && b == [b[0]] + b[1..];
    }
  }
}
