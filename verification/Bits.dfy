/** Machine words as bit sequences, least significant bit first. */
module Bits {
  import opened Powers

  function Xor(a: seq<bool>, b: seq<bool>): (r: seq<bool>)
    requires |a| == |b|
    ensures |r| == |a| && forall i :: 0 <= i < |r| ==> r[i] == (a[i] != b[i])
  {
    seq(|a|, i requires 0 <= i < |a| => a[i] != b[i])
  }

  /** Shift towards the low end, filling with zeros (`>>>`). */
  function Shr(a: seq<bool>, k: nat): (r: seq<bool>)
    ensures |r| == |a| && forall i :: 0 <= i < |r| ==> r[i] == (i + k < |a| && a[i + k])
  {
    seq(|a|, i requires 0 <= i < |a| => i + k < |a| && a[i + k])
  }

  function Zeros(n: nat): (r: seq<bool>)
    ensures |r| == n && forall i :: 0 <= i < n ==> !r[i]
  {
    seq(n, i => false)
  }

  function Ones(n: nat): (r: seq<bool>)
    ensures |r| == n && forall i :: 0 <= i < n ==> r[i]
  {
    seq(n, i => true)
  }

  function FromNat(n: nat, width: nat): (r: seq<bool>)
    ensures |r| == width
  {
    if width == 0 then [] else [n % 2 == 1] + FromNat(n / 2, width - 1)
  }

  function ToNat(a: seq<bool>): nat {
    if |a| == 0 then 0 else (if a[0] then 1 else 0) + 2 * ToNat(a[1..])
  }

  lemma {:induction false} ToNatBound(a: seq<bool>)
    ensures ToNat(a) < Pow2(|a|)
    decreases |a|
  {
    if |a| > 0 {
      ToNatBound(a[1..]);
    }
  }

  lemma {:induction false} FromNatToNat(a: seq<bool>)
    ensures FromNat(ToNat(a), |a|) == a
    decreases |a|
  {
    if |a| > 0 {
      FromNatToNat(a[1..]);
      assert ToNat(a) / 2 == ToNat(a[1..]);
      assert a == [a[0]] + a[1..];
    }
  }

  lemma {:induction false} ToNatFromNat(n: nat, width: nat)
    requires n < Pow2(width)
    ensures ToNat(FromNat(n, width)) == n
    decreases width
  {
    if width > 0 {
      ToNatFromNat(n / 2, width - 1);
      assert FromNat(n, width)[1..] == FromNat(n / 2, width - 1);
    }
  }

  lemma {:induction false} FromZero(width: nat)
    ensures FromNat(0, width) == Zeros(width)
    decreases width
  {
    if width > 0 {
      FromZero(width - 1);
      assert Zeros(width) == [false] + Zeros(width - 1);
    }
  }

  /** A wider encoding is the narrower one with zeros on top. */
  lemma {:induction false} Widen(n: nat, width: nat, more: nat)
    requires n < Pow2(width)
    ensures FromNat(n, width + more) == FromNat(n, width) + Zeros(more)
    decreases width
  {
    if width == 0 {
      FromZero(more);
      assert [] + Zeros(more) == Zeros(more);
    } else {
      Widen(n / 2, width - 1, more);
      assert [n % 2 == 1] + (FromNat(n / 2, width - 1) + Zeros(more))
          == [n % 2 == 1] + FromNat(n / 2, width - 1) + Zeros(more);
    }
  }
}
