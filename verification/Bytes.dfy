/** Bytes, and whole numbers as bytes with the highest first. */
module Bytes {

  type Byte = x: nat | x < 256

  /** The last n bytes of the number v. */
  function BigEndian(v: nat, n: nat): (b: seq<Byte>)
    ensures |b| == n
  {
    if n == 0 then [] else BigEndian(v / 256, n - 1) + [v % 256]
  }

  function FromBigEndian(b: seq<Byte>): nat {
    if b == [] then 0 else 256 * FromBigEndian(b[..|b| - 1]) + b[|b| - 1]
  }

  function Power(base: nat, n: nat): nat { if n == 0 then 1 else base * Power(base, n - 1) }

  lemma {:induction false} PowerPositive(base: nat, n: nat)
    requires base > 0
    ensures Power(base, n) > 0
  {
    if n > 0 { PowerPositive(base, n - 1); }
  }

  /** Splitting off the last digit. */
  lemma LastDigit(v: nat, p: nat)
    requires p > 0
    ensures v % (256 * p) == 256 * (v / 256 % p) + v % 256
  {
    var a, r := v / 256, v % 256;
    var q, m := a / p, a % p;
    assert a == p * q + m;
    assert 256 * p * q == 256 * (p * q);
    Remainder(v, 256 * p, q, 256 * m + r);
  }

  lemma Times(a: int, b: int, d: nat)
    requires a <= b
    ensures d * a <= d * b
  {
  }

  lemma Remainder(v: nat, d: nat, q: nat, r: nat)
    requires d > 0 && v == d * q + r && r < d
    ensures v % d == r && v / d == q
  {
    var e := v / d - q;
    assert d * e == d * (v / d) - d * q;
    if e > 0 { Times(1, e, d); }
    if e < 0 { Times(e, -1, d); }
  }

  lemma {:induction false} BigEndianBack(v: nat, n: nat)
    ensures Power(256, n) > 0 && FromBigEndian(BigEndian(v, n)) == v % Power(256, n)
  {
    PowerPositive(256, n);
    if n > 0 {
      PowerPositive(256, n - 1);
      BigEndianBack(v / 256, n - 1);
      LastDigit(v, Power(256, n - 1));
      var b := BigEndian(v, n);
      assert b[..n - 1] == BigEndian(v / 256, n - 1);
    }
  }

  lemma {:induction false} FromBigEndianBack(b: seq<Byte>)
    ensures BigEndian(FromBigEndian(b), |b|) == b
    decreases |b|
  {
    if b != [] {
      var n := |b| - 1;
      FromBigEndianBack(b[..n]);
      assert b == b[..n] + [b[n]];
    }
  }
}
