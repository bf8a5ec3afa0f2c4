/** Base32 (section 6 of RFC 4648) without padding: the bits of the bytes, regrouped by
    five, each group a letter. */
module Base32 {

  import opened Wrappers
  import opened Bytes

  // ---------------------------------------------------------------------------
  // Numbers as bits, and strings of numbers as strings of bits
  // ---------------------------------------------------------------------------

  /** The last w bits of v, the highest first. */
  function ToBits(v: nat, w: nat): (bs: seq<bool>)
    ensures |bs| == w
  {
    if w == 0 then [] else ToBits(v / 2, w - 1) + [v % 2 == 1]
  }

  function FromBits(bs: seq<bool>): nat {
    if bs == [] then 0 else 2 * FromBits(bs[..|bs| - 1]) + if bs[|bs| - 1] then 1 else 0
  }

  lemma {:induction false} FromToBits(v: nat, w: nat)
    requires v < Power(2, w)
    ensures FromBits(ToBits(v, w)) == v
  {
    if w > 0 {
      FromToBits(v / 2, w - 1);
      assert ToBits(v, w)[..w - 1] == ToBits(v / 2, w - 1);
    }
  }

  lemma {:induction false} ToFromBits(bs: seq<bool>)
    ensures ToBits(FromBits(bs), |bs|) == bs && FromBits(bs) < Power(2, |bs|)
    decreases |bs|
  {
    if bs != [] {
      var n := |bs| - 1;
      ToFromBits(bs[..n]);
      assert bs == bs[..n] + [bs[n]];
    }
  }

  /** The values of w bits each that bs consists of; a shorter rest is left out. */
  function Group(bs: seq<bool>, w: nat): (vs: seq<nat>)
    requires w > 0
    decreases |bs|
  {
    if |bs| < w then [] else [FromBits(bs[..w])] + Group(bs[w..], w)
  }

  function Spread(vs: seq<nat>, w: nat): (bs: seq<bool>)
    ensures |bs| == w * |vs|
  {
    if vs == [] then [] else ToBits(vs[0], w) + Spread(vs[1..], w)
  }

  lemma {:induction false} GroupSpread(vs: seq<nat>, w: nat)
    requires w > 0 && forall i :: 0 <= i < |vs| ==> vs[i] < Power(2, w)
    ensures Group(Spread(vs, w), w) == vs
  {
    if vs != [] {
      GroupSpread(vs[1..], w);
      FromToBits(vs[0], w);
      var bs := Spread(vs, w);
      assert |bs| >= w by { assert |bs| == w + |Spread(vs[1..], w)|; }
      assert bs[..w] == ToBits(vs[0], w) && bs[w..] == Spread(vs[1..], w);
    }
  }

  lemma {:induction false} SpreadGroup(bs: seq<bool>, w: nat, n: nat)
    requires w > 0 && |bs| == n * w
    ensures |Group(bs, w)| == n && Spread(Group(bs, w), w) == bs
    ensures forall i :: 0 <= i < n ==> Group(bs, w)[i] < Power(2, w)
    decreases n
  {
    if n > 0 {
      assert (n - 1) * w == n * w - w;
      assert |bs| >= w by { Times(1, n, w); }
      SpreadGroup(bs[w..], w, n - 1);
      ToFromBits(bs[..w]);
      var vs := Group(bs, w);
      assert vs[1..] == Group(bs[w..], w) && vs[0] == FromBits(bs[..w]);
      assert bs == bs[..w] + bs[w..];
    }
  }

  // ---------------------------------------------------------------------------
  // Letters
  // ---------------------------------------------------------------------------

  /** The letter of a value below 32, in capitals. */
  function Letter(v: nat): char
    requires v < 32
  {
    if v < 26 then ('A' as int + v) as char else ('2' as int + v - 26) as char
  }

  function ValueOf(c: char): Option<nat> {
    if 'A' <= c <= 'Z' then Some(c as int - 'A' as int)
    else if '2' <= c <= '7' then Some(c as int - '2' as int + 26)
    else None
  }

  function Spell(vs: seq<nat>): (s: string)
    requires forall i :: 0 <= i < |vs| ==> vs[i] < 32
    ensures |s| == |vs|
  {
    seq(|vs|, i requires 0 <= i < |vs| => Letter(vs[i]))
  }

  /** The values of the letters, if all are letters. */
  function Read(s: string): (r: Option<seq<nat>>)
    ensures r.Some? ==> |r.value| == |s| && forall i :: 0 <= i < |s| ==> ValueOf(s[i]) == Some(r.value[i])
  {
    if exists i :: 0 <= i < |s| && ValueOf(s[i]).None? then None
    else Some(seq(|s|, i requires 0 <= i < |s| => ValueOf(s[i]).value))
  }

  lemma LetterBack(v: nat)
    requires v < 32
    ensures ValueOf(Letter(v)) == Some(v) && InAlphabet(Letter(v))
  {
  }

  predicate InAlphabet(c: char) { 'A' <= c <= 'Z' || '2' <= c <= '7' }

  lemma ReadSpell(vs: seq<nat>)
    requires forall i :: 0 <= i < |vs| ==> vs[i] < 32
    ensures Read(Spell(vs)) == Some(vs)
    ensures forall i :: 0 <= i < |vs| ==> InAlphabet(Spell(vs)[i])
  {
    forall i | 0 <= i < |vs| ensures ValueOf(Spell(vs)[i]) == Some(vs[i]) && InAlphabet(Spell(vs)[i]) {
      LetterBack(vs[i]);
    }
    assert Read(Spell(vs)).value == vs;
  }

  // ---------------------------------------------------------------------------
  // Encoding and decoding
  // ---------------------------------------------------------------------------

  /** The letters n bytes take. */
  function LetterCount(n: nat): nat { (8 * n + 4) / 5 }

  /** The bytes n letters carry: a last group of one, three or six letters gives nothing. */
  function ByteCount(n: nat): nat {
    n / 8 * 5 +
    (if n % 8 == 2 then 1 else if n % 8 == 4 then 2 else if n % 8 == 5 then 3 else if n % 8 == 7 then 4 else 0)
  }

  lemma CountBack(n: nat)
    ensures ByteCount(LetterCount(n)) == n
    ensures 8 * n <= 5 * LetterCount(n) < 8 * n + 5
  {
    var q, r := n / 5, n % 5;
    assert n == 5 * q + r;
    assert LetterCount(n) == 8 * q + (8 * r + 4) / 5;
  }

  function Falses(n: nat): (bs: seq<bool>)
    ensures |bs| == n
  {
    if n == 0 then [] else Falses(n - 1) + [false]
  }

  /** The bits of the data, with zeros up to a whole letter. */
  function PaddedBits(data: seq<Byte>): (bs: seq<bool>)
    ensures |bs| == 5 * LetterCount(|data|)
  {
    CountBack(|data|);
    Spread(data, 8) + Falses(5 * LetterCount(|data|) - 8 * |data|)
  }

  function Encode(data: seq<Byte>): (s: string)
    ensures |s| == LetterCount(|data|)
  {
    SpreadGroup(PaddedBits(data), 5, LetterCount(|data|));
    assert Power(2, 5) == 32;
    Spell(Group(PaddedBits(data), 5))
  }

  function Decode(s: string): Option<seq<Byte>> {
    match Read(s)
    case None => None
    case Some(vs) => Some(Regroup(vs))
  }

  /** The bytes a string of five-bit values carries. */
  function Regroup(vs: seq<nat>): (data: seq<Byte>)
    ensures |data| == ByteCount(|vs|)
  {
    BytesFit(|vs|);
    var bs := Spread(vs, 5)[..8 * ByteCount(|vs|)];
    SpreadGroup(bs, 8, ByteCount(|vs|));
    assert Power(2, 8) == 256;
    AsBytes(Group(bs, 8))
  }

  function AsBytes(vs: seq<nat>): (data: seq<Byte>)
    requires forall i :: 0 <= i < |vs| ==> vs[i] < 256
    ensures data == vs
  {
    if vs == [] then [] else [vs[0]] + AsBytes(vs[1..])
  }

  lemma BytesFit(n: nat)
    ensures 8 * ByteCount(n) <= 5 * n
  {
    assert n == 8 * (n / 8) + n % 8;
  }

  /** Decoding undoes encoding, for every byte string. */
  lemma DecodeEncode(data: seq<Byte>)
    ensures Decode(Encode(data)) == Some(data)
  {
    var bs := PaddedBits(data);
    var n := LetterCount(|data|);
    SpreadGroup(bs, 5, n);
    assert Power(2, 5) == 32;
    var vs := Group(bs, 5);
    ReadSpell(vs);
    CountBack(|data|);
    assert Spread(vs, 5)[..8 * |data|] == Spread(data, 8);
    BytesBack(data);
  }

  lemma BytesBack(data: seq<Byte>)
    ensures Group(Spread(data, 8), 8) == data
  {
    assert Power(2, 8) == 256;
    GroupSpread(data, 8);
  }

  /** Only capital letters and the digits 2 to 7 come out. */
  lemma EncodeAlphabet(data: seq<Byte>)
    ensures forall i :: 0 <= i < |Encode(data)| ==> InAlphabet(Encode(data)[i])
  {
    SpreadGroup(PaddedBits(data), 5, LetterCount(|data|));
    assert Power(2, 5) == 32;
    ReadSpell(Group(PaddedBits(data), 5));
  }

  /** The alphabet of section 6 of RFC 4648: A to Z, then 2 to 7. */
  lemma LetterTable(v: nat)
    requires v < 32
    ensures v < 26 ==> Letter(v) as int == 'A' as int + v
    ensures v >= 26 ==> Letter(v) as int == '2' as int + (v - 26)
  {
  }

  function Bit(b: bool): nat { if b then 1 else 0 }

  lemma FiveBits(a: bool, b: bool, c: bool, d: bool, e: bool)
    ensures FromBits([a, b, c, d, e]) == 16 * Bit(a) + 8 * Bit(b) + 4 * Bit(c) + 2 * Bit(d) + Bit(e)
  {
    assert [a, b, c, d, e][..4] == [a, b, c, d] && [a, b, c, d][..3] == [a, b, c];
    assert [a, b, c][..2] == [a, b] && [a, b][..1] == [a] && [a][..0] == [];
    assert FromBits([a]) == Bit(a);
    assert FromBits([a, b]) == 2 * Bit(a) + Bit(b);
    assert FromBits([a, b, c]) == 4 * Bit(a) + 2 * Bit(b) + Bit(c);
  }

  lemma TenBits(a: seq<bool>, b: seq<bool>)
    requires |a| == 5 && |b| == 5
    ensures Group(a + b, 5) == [FromBits(a), FromBits(b)]
  {
    assert (a + b)[..5] == a && (a + b)[5..] == b && b[..5] == b && b[5..] == [];
    assert Group(b, 5) == [FromBits(b)];
  }

  /** The bits of the letter f. */
  lemma BitsOfF()
    ensures ToBits(102, 8) == [false, true, true, false, false, true, true, false]
  {
    assert ToBits(6, 4) == [false, true, true, false] by {
      assert ToBits(1, 2) == [false, true];
    }
    assert ToBits(12, 5) == [false, true, true, false, false];
    assert ToBits(25, 6) == [false, true, true, false, false, true];
  }

  lemma PaddedBitsOfF()
    ensures PaddedBits([102]) == [false, true, true, false, false] + [true, true, false, false, false]
  {
    var data: seq<Byte> := [102];
    BitsOfF();
    assert data[1..] == [] && Spread(data, 8) == ToBits(102, 8);
    assert Falses(1) == [false] && Falses(2) == [false, false];
  }

  lemma GroupsOfF()
    ensures Group(PaddedBits([102]), 5) == [12, 24]
  {
    PaddedBitsOfF();
    TenBits([false, true, true, false, false], [true, true, false, false, false]);
    FiveBits(false, true, true, false, false);
    FiveBits(true, true, false, false, false);
  }

  lemma SpellMY(vs: seq<nat>)
    requires vs == [12, 24]
    ensures Spell(vs) == "MY"
  {
    LetterTable(12);
    LetterTable(24);
  }

  /** The first test vector of RFC 4648 (section 10), without padding. */
  lemma TestVector()
    ensures Encode([102]) == "MY"
  {
    GroupsOfF();
    SpellMY(Group(PaddedBits([102]), 5));
  }
}
