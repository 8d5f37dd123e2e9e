/** The table-driven CRC-32 of the icon writer, against the definition in RFC 2083, section 3.4: the bits of
    the data are processed one at a time, each byte from its least significant bit, through a 32-bit
    register that starts as all ones and is inverted at the end. */
module Crc32 {
  import opened Bits
  import opened ShiftRegister

  // ----- The generator. -----

  /** The generator of RFC 2083, section 3.4, without its x^32. */
  predicate InGenerator(exponent: int) {
    exponent in {26, 23, 22, 16, 12, 11, 10, 8, 7, 5, 4, 2, 1, 0}
  }

  function Generator(): Word {
    Register(seq(32, i => InGenerator(31 - i)))
  }

  const POLYNOMIAL: Word := Generator()

  /** Four bits from a hexadecimal digit. */
  function Hex(d: nat): (bits: seq<bool>)
    requires d < 16
    ensures |bits| == 4
  {
    [d % 2 == 1, d / 2 % 2 == 1, d / 4 % 2 == 1, d / 8 == 1]
  }

  /** The generator as a number is the constant of the source. */
  lemma PolynomialIsTheConstant()
    ensures ToNat(POLYNOMIAL.bits) == 0xedb88320
  {
    PolynomialDigits();
    var d1 := Hex(0xe);
    var d2 := Hex(0xd) + d1;
    var d3 := Hex(0xb) + d2;
    var d4 := Hex(0x8) + d3;
    var d5 := Hex(0x8) + d4;
    var d6 := Hex(0x3) + d5;
    var d7 := Hex(0x2) + d6;
    assert d1 == d1 + [];
    HexDigit(0xe, []);
    HexDigit(0xd, d1);
    HexDigit(0xb, d2);
    HexDigit(0x8, d3);
    HexDigit(0x8, d4);
    HexDigit(0x3, d5);
    HexDigit(0x2, d6);
    HexDigit(0x0, d7);
  }

  lemma PolynomialDigits()
    ensures POLYNOMIAL.bits
         == Hex(0x0) + (Hex(0x2) + (Hex(0x3) + (Hex(0x8) + (Hex(0x8) + (Hex(0xb) + (Hex(0xd) + Hex(0xe)))))))
  {
  }

  lemma HexDigit(d: nat, rest: seq<bool>)
    requires d < 16
    ensures ToNat(Hex(d) + rest) == d + 16 * ToNat(rest)
  {
    var bits := Hex(d);
    FirstBit(bits[3], rest);
    FirstBit(bits[2], [bits[3]] + rest);
    FirstBit(bits[1], [bits[2]] + ([bits[3]] + rest));
    FirstBit(bits[0], [bits[1]] + ([bits[2]] + ([bits[3]] + rest)));
    assert bits + rest == [bits[0]] + ([bits[1]] + ([bits[2]] + ([bits[3]] + rest)));
  }

  lemma FirstBit(b: bool, rest: seq<bool>)
    ensures ToNat([b] + rest) == (if b then 1 else 0) + 2 * ToNat(rest)
  {
  }

  // ----- The checksum, and the code that computes it. -----

  function Crc(data: seq<Byte>): nat {
    ToNat(Add(ShiftBits(POLYNOMIAL, AllOnes(), BitsOf(data)), AllOnes()).bits)
  }

  /** The inner loop of the table: one division step per bit of a byte. */
  method TableEntry(poly: Word, n: nat) returns (c: Word)
    ensures c == Steps(poly, FromNumber(n), 8)
  {
    c := FromNumber(n);
    var k := 0;
    while k < 8
      invariant 0 <= k <= 8
      invariant c == Steps(poly, FromNumber(n), k)
    {
      StepsThenStep(poly, FromNumber(n), k);
      c := if c.bits[0] then Add(poly, Shift(c, 1)) else Shift(c, 1);
      k := k + 1;
    }
  }

  /** The module-level cache of the table and the two functions that use it. */
  class CrcTable {
    var table: array?<Word>

    ghost predicate Valid()
      reads this, table
    {
      table != null ==> IsTable(POLYNOMIAL, table[..])
    }

    constructor ()
      ensures Valid() && table == null
    {
      table := null;
    }

    method GetCrcTable() returns (t: array<Word>)
      requires Valid()
      modifies this
      ensures Valid() && table == t && IsTable(POLYNOMIAL, t[..])
      ensures old(table) != null ==> t == old(table)
      ensures old(table) == null ==> fresh(t)
    {
      if table != null {
        return table;
      }
      t := new Word[256](_ => AllOnes());
      table := t;
      var n := 0;
      while n < 256
        invariant 0 <= n <= 256 && table == t
        invariant forall m :: 0 <= m < n ==> t[m] == Steps(POLYNOMIAL, FromNumber(m), 8)
      {
        t[n] := TableEntry(POLYNOMIAL, n);
        n := n + 1;
      }
    }

    method Crc32(buffer: array<Byte>) returns (r: nat)
      requires Valid()
      modifies this
      ensures Valid() && (old(table) != null ==> table == old(table))
      ensures r == Crc(buffer[..])
    {
      var t := GetCrcTable();
      var crc: Word := AllOnes();
      var i := 0;
      while i < buffer.Length
        invariant 0 <= i <= buffer.Length && table == t
        invariant crc == ShiftBits(POLYNOMIAL, AllOnes(), BitsOf(buffer[..i]))
        invariant IsTable(POLYNOMIAL, t[..])
      {
        BitsOfNext(buffer[..], i);
        assert buffer[..][..i] == buffer[..i] && buffer[..][..i + 1] == buffer[..i + 1];
        ShiftBitsInTurn(POLYNOMIAL, AllOnes(), BitsOf(buffer[..i]), FromNat(buffer[i], 8));
        ByteStep(POLYNOMIAL, crc, buffer[i]);
        crc := Add(t[LowByte(Add(crc, FromNumber(buffer[i])))], Shift(crc, 8));
        i := i + 1;
      }
      assert buffer[..] == buffer[..i];
      r := ToNat(Add(crc, AllOnes()).bits);
    }
  }

  // ----- What the checksum is for. -----

  /** Every error burst of at most 32 bits is detected: messages that differ only inside such a window never
      have the same checksum, wherever the window lies. */
  lemma BurstsAreDetected(data: seq<Byte>, damaged: seq<Byte>, at: nat, width: nat)
    requires |data| == |damaged| && width <= 32 && at + width <= 8 * |data|
    requires BitsOf(data)[..at] == BitsOf(damaged)[..at]
    requires BitsOf(data)[at + width..] == BitsOf(damaged)[at + width..]
    requires data != damaged
    ensures Crc(data) != Crc(damaged)
  {
    var p, q := BitsOf(data), BitsOf(damaged);
    var a, b := ShiftBits(POLYNOMIAL, AllOnes(), p), ShiftBits(POLYNOMIAL, AllOnes(), q);
    FromNatToNat(Add(a, AllOnes()).bits);
    FromNatToNat(Add(b, AllOnes()).bits);
    assert POLYNOMIAL.bits[31];
    if Crc(data) == Crc(damaged) {
      AddIsInjective(a, b, AllOnes());
      BurstsChangeTheRegister(POLYNOMIAL, AllOnes(), p, q, at, width);
      BitsOfIsInjective(data, damaged);
    }
  }

  /** In bytes: changing at most four neighbouring bytes changes the checksum. */
  lemma FourBytesAreDetected(before: seq<Byte>, x: seq<Byte>, y: seq<Byte>, after: seq<Byte>)
    requires |x| == |y| <= 4 && x != y
    ensures Crc(before + x + after) != Crc(before + y + after)
  {
    var data, damaged := before + x + after, before + y + after;
    assert x == data[|before|..|before| + |x|] && y == damaged[|before|..|before| + |y|];
    BitsOfConcat(before + x, after);
    BitsOfConcat(before, x);
    BitsOfConcat(before + y, after);
    BitsOfConcat(before, y);
    BurstsAreDetected(data, damaged, 8 * |before|, 8 * |x|);
  }
}
