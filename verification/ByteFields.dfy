/** Fixed-width fields in byte buffers, as Node's Buffer writes and reads them. */
module ByteFields {
  import opened ShiftRegister

  /** What a Buffer call ends with: a value, or the RangeError of a number that does not fit its field. */
  datatype Outcome<T> = Ok(value: T) | RangeError | InvalidType

  const LIMIT: nat := 0x1_0000_0000

  function U16LE(n: nat): (b: seq<Byte>)
    requires n < 0x10000
    ensures |b| == 2
  {
    [n % 256, n / 256]
  }

  function U32LE(n: nat): (b: seq<Byte>)
    requires n < LIMIT
    ensures |b| == 4
  {
    [n % 256, n / 256 % 256, n / 0x10000 % 256, n / 0x100_0000]
  }

  function U32BE(n: nat): (b: seq<Byte>)
    requires n < LIMIT
    ensures |b| == 4
  {
    [n / 0x100_0000, n / 0x10000 % 256, n / 256 % 256, n % 256]
  }

  function ReadU16LE(b: seq<Byte>, at: nat): nat
    requires at + 2 <= |b|
  {
    b[at] as int + 256 * (b[at + 1] as int)
  }

  function ReadU32LE(b: seq<Byte>, at: nat): (n: nat)
    requires at + 4 <= |b|
    ensures n < LIMIT
  {
    b[at] as int + 256 * (b[at + 1] as int) + 0x10000 * (b[at + 2] as int) + 0x100_0000 * (b[at + 3] as int)
  }

  function ReadU32BE(b: seq<Byte>, at: nat): (n: nat)
    requires at + 4 <= |b|
    ensures n < LIMIT
  {
    0x100_0000 * (b[at] as int) + 0x10000 * (b[at + 1] as int) + 256 * (b[at + 2] as int) + b[at + 3] as int
  }

  lemma Digits(n: nat)
    requires n < LIMIT
    ensures n == 0x100_0000 * (n / 0x100_0000) + 0x10000 * (n / 0x10000 % 256) + 256 * (n / 256 % 256) + n % 256
  {
    assert n / 256 / 256 == n / 0x10000;
    assert n / 0x10000 / 256 == n / 0x100_0000;
  }

  /** Four bytes are the big-endian field of a number exactly when, most significant first, they are its digits to the
      base 256; and so is what is read from them. */
  lemma MostSignificantFirst(n: nat, b: seq<Byte>)
    requires n < LIMIT && |b| == 4
    ensures var value := ((b[0] as int * 256 + b[1] as int) * 256 + b[2] as int) * 256 + b[3] as int;
            (b == U32BE(n) <==> value == n) && (ReadU32BE(b, 0) == n <==> value == n)
  {
    Digits(n);
    if ((b[0] as int * 256 + b[1] as int) * 256 + b[2] as int) * 256 + b[3] as int == n {
      SameDigits(n, b[0] as int, b[1] as int, b[2] as int, b[3] as int);
    }
  }

  /** The same of the little-endian fields, least significant first. */
  lemma LeastSignificantFirst(n: nat, b: seq<Byte>)
    requires n < LIMIT && |b| == 4
    ensures var value := b[0] as int + 256 * (b[1] as int + 256 * (b[2] as int + 256 * (b[3] as int)));
            (b == U32LE(n) <==> value == n) && (ReadU32LE(b, 0) == n <==> value == n)
    ensures n < 0x10000 ==> (b[..2] == U16LE(n) <==> b[0] as int + 256 * (b[1] as int) == n)
    ensures ReadU16LE(b, 0) == n <==> b[0] as int + 256 * (b[1] as int) == n
  {
    Digits(n);
    if b[0] as int + 256 * (b[1] as int + 256 * (b[2] as int + 256 * (b[3] as int))) == n {
      SameDigits(n, b[3] as int, b[2] as int, b[1] as int, b[0] as int);
    }
  }

  lemma SameDigits(n: nat, a: nat, b: nat, c: nat, d: nat)
    requires a < 256 && b < 256 && c < 256 && d < 256 && n == ((a * 256 + b) * 256 + c) * 256 + d
    ensures n / 0x100_0000 == a && n / 0x10000 % 256 == b && n / 256 % 256 == c && n % 256 == d
  {
  }

  lemma FieldRoundTrip(n: nat, before: seq<Byte>, after: seq<Byte>)
    requires n < LIMIT
    ensures ReadU32BE(before + U32BE(n) + after, |before|) == n
    ensures ReadU32LE(before + U32LE(n) + after, |before|) == n
  {
    Digits(n);
    var be := before + U32BE(n) + after;
    assert forall i :: 0 <= i < 4 ==> be[|before| + i] == U32BE(n)[i];
    var le := before + U32LE(n) + after;
    assert forall i :: 0 <= i < 4 ==> le[|before| + i] == U32LE(n)[i];
  }

  /** The buffer after `src` has been copied to offset `at`; what does not fit is dropped. */
  function Overlay(buffer: seq<Byte>, at: nat, src: seq<Byte>): (r: seq<Byte>)
    requires at <= |buffer|
    ensures |r| == |buffer|
  {
    var n := if |src| <= |buffer| - at then |src| else |buffer| - at;
    buffer[..at] + src[..n] + buffer[at + n..]
  }

  lemma OverlayNext(buffer: seq<Byte>, at: nat, src: seq<Byte>, i: nat)
    requires i < |src| && at + i < |buffer|
    ensures Overlay(buffer, at, src[..i + 1]) == Overlay(buffer, at, src[..i])[at + i := src[i]]
  {
  }

  method Copy(src: seq<Byte>, buffer: array<Byte>, at: nat)
    requires at <= buffer.Length
    modifies buffer
    ensures buffer[..] == Overlay(old(buffer[..]), at, src)
  {
    var i := 0;
    while i < |src| && at + i < buffer.Length
      invariant 0 <= i <= |src| && at + i <= buffer.Length
      invariant buffer[..] == Overlay(old(buffer[..]), at, src[..i])
    {
      OverlayNext(old(buffer[..]), at, src, i);
      buffer[at + i] := src[i];
      i := i + 1;
    }
    if i < |src| {
      assert src[..i] == src[..buffer.Length - at];
    } else {
      assert src[..i] == src;
    }
  }

  method WriteU32BE(buffer: array<Byte>, n: nat, at: nat) returns (ok: bool)
    requires at + 4 <= buffer.Length
    modifies buffer
    ensures ok <==> n < LIMIT
    ensures buffer[..] == if n < LIMIT then Overlay(old(buffer[..]), at, U32BE(n)) else old(buffer[..])
  {
    ok := n < LIMIT;
    if ok {
      Copy(U32BE(n), buffer, at);
    }
  }

  method WriteU32LE(buffer: array<Byte>, n: nat, at: nat) returns (ok: bool)
    requires at + 4 <= buffer.Length
    modifies buffer
    ensures ok <==> n < LIMIT
    ensures buffer[..] == if n < LIMIT then Overlay(old(buffer[..]), at, U32LE(n)) else old(buffer[..])
  {
    ok := n < LIMIT;
    if ok {
      Copy(U32LE(n), buffer, at);
    }
  }
}
