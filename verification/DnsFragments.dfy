/** A payload spread over fixed-width address records: a header record and numbered
    fragments, put together again whatever order and however often they arrive. */
module DnsFragments {

  import opened Wrappers
  import opened Bytes

  datatype Error = NoAnswer | TooLong(length: nat, max: nat) | Missing(have: nat, want: nat)

  // ---------------------------------------------------------------------------
  // Packing
  // ---------------------------------------------------------------------------

  function Zeros(n: nat): (r: seq<Byte>)
    ensures |r| == n && forall j :: 0 <= j < n ==> r[j] == 0
  {
    if n == 0 then [] else Zeros(n - 1) + [0]
  }

  /** Two bytes, the high one first; the length is cut to sixteen bits. */
  function Header(length: nat, width: nat): (r: seq<Byte>)
    requires width >= 3
    ensures |r| == width
  {
    [0, (length % 65536 / 256), (length % 256)] + Zeros(width - 3)
  }

  function HeaderLength(r: seq<Byte>): nat
    requires |r| >= 3
  {
    var high: int, low: int := r[1], r[2];
    256 * high + low
  }

  function At(p: seq<Byte>, k: nat): Byte { if k < |p| then p[k] else 0 }

  /** The d bytes from a on, filled up with zeros. */
  function Slice(p: seq<Byte>, a: nat, d: nat): (r: seq<Byte>)
    ensures |r| == d && forall j :: 0 <= j < d ==> r[j] == At(p, a + j)
  {
    if a >= |p| then Zeros(d)
    else if a + d >= |p| then p[a..] + Zeros(a + d - |p|)
    else p[a..a + d]
  }

  /** The i-th piece of d bytes, counted from one. */
  function Piece(p: seq<Byte>, d: nat, i: nat): (r: seq<Byte>)
    requires i >= 1
    ensures |r| == d
  {
    Slice(p, (i - 1) * d, d)
  }

  function Fragment(p: seq<Byte>, width: nat, i: nat): (r: seq<Byte>)
    requires width >= 3 && i >= 1
    ensures |r| == width && r[0] == i % 256
  {
    [(i % 256)] + Piece(p, width - 1, i)
  }

  /** How many pieces of d bytes it takes. */
  function Pieces(length: nat, d: nat): nat
    requires d > 0
  {
    (length + d - 1) / d
  }

  function Answer(p: seq<Byte>, width: nat): seq<seq<Byte>>
    requires width >= 3
  {
    [Header(|p|, width)] + seq(Pieces(|p|, width - 1), i requires i >= 0 => Fragment(p, width, i + 1))
  }

  lemma PiecesCover(length: nat, d: nat)
    requires d > 0
    ensures (Pieces(length, d) - 1) * d < length <= Pieces(length, d) * d || length == 0 == Pieces(length, d)
  {
    var n := Pieces(length, d);
    DivMod(length + d - 1, d);
    assert (n - 1) * d == n * d - d;
  }

  lemma DivMod(a: nat, d: nat)
    requires d > 0
    ensures a / d * d <= a < a / d * d + d
  {
    assert a == a / d * d + a % d;
  }

  /** The payload must fit in 255 numbered records. */
  method FragAnswer(p: seq<Byte>, width: nat) returns (r: Result<seq<seq<Byte>>, Error>)
    requires width >= 3
    ensures r == if |p| > 255 * (width - 1) then Err(TooLong(|p|, 255 * (width - 1))) else Ok(Answer(p, width))
  {
    var d := width - 1;
    if |p| > 255 * d { return Err(TooLong(|p|, 255 * d)); }
    var head := [0, (|p| % 65536 / 256), (|p| % 256)] + Zeros(width - 3);
    var rrs := [head];
    var i, idx := 0, 1;
    PiecesCover(|p|, d);
    while i < |p|
      invariant i == (idx - 1) * d && 1 <= idx <= Pieces(|p|, d) + 1
      invariant rrs == Answer(p, width)[..idx]
    {
      IndexBelow(|p|, d, idx);
      var end := if i + d > |p| then |p| else i + d;
      var rec := [(idx % 256)] + p[i..end] + Zeros(d - (end - i));
      AnswerNext(p, width, idx);
      assert rec == Fragment(p, width, idx);
      rrs := rrs + [rec];
      assert idx * d == i + d;
      i, idx := i + d, idx + 1;
    }
    IndexEnd(|p|, d, idx);
    assert rrs == Answer(p, width);
    return Ok(rrs);
  }

  lemma AnswerNext(p: seq<Byte>, width: nat, idx: nat)
    requires width >= 3 && 1 <= idx <= Pieces(|p|, width - 1)
    ensures idx < |Answer(p, width)|
    ensures Answer(p, width)[..idx + 1] == Answer(p, width)[..idx] + [Fragment(p, width, idx)]
  {
    assert Answer(p, width)[idx] == Fragment(p, width, idx);
  }

  lemma IndexBelow(length: nat, d: nat, idx: nat)
    requires d > 0 && idx >= 1 && (idx - 1) * d < length
    ensures idx <= Pieces(length, d)
  {
    PiecesCover(length, d);
    if idx > Pieces(length, d) { Times(Pieces(length, d), idx - 1, d); }
  }

  lemma IndexEnd(length: nat, d: nat, idx: nat)
    requires d > 0 && 1 <= idx <= Pieces(length, d) + 1 && (idx - 1) * d >= length
    ensures idx == Pieces(length, d) + 1
  {
    PiecesCover(length, d);
    if idx <= Pieces(length, d) { Times(idx - 1, Pieces(length, d) - 1, d); }
  }

  // ---------------------------------------------------------------------------
  // Unpacking
  // ---------------------------------------------------------------------------

  /** The length the last header record gives, or -1. */
  function LengthIn(width: nat, recs: seq<seq<Byte>>): int
    requires width >= 3
    decreases |recs|
  {
    if recs == [] then -1
    else
      var r := recs[|recs| - 1];
      if |r| == width && r[0] == 0 then HeaderLength(r) else LengthIn(width, recs[..|recs| - 1])
  }

  /** What the records say the numbered pieces are; of two for one number the later. */
  function PiecesIn(width: nat, recs: seq<seq<Byte>>): map<nat, seq<Byte>>
    requires width >= 3
    decreases |recs|
  {
    if recs == [] then map[]
    else
      var m := PiecesIn(width, recs[..|recs| - 1]);
      var r := recs[|recs| - 1];
      if |r| == width && r[0] != 0 then m[r[0] := r[1..]] else m
  }

  /** The pieces up to number k in order. */
  function Joined(m: map<nat, seq<Byte>>, k: nat): seq<Byte> {
    if k == 0 then [] else Joined(m, k - 1) + if k in m then m[k] else []
  }

  function Extract(width: nat, recs: seq<seq<Byte>>): Result<seq<Byte>, Error>
    requires width >= 3
  {
    var length := LengthIn(width, recs);
    var out := Joined(PiecesIn(width, recs), 255);
    if length < 0 then Err(NoAnswer)
    else if |out| < length then Err(Missing(|out|, length))
    else Ok(out[..length])
  }

  method FragExtract(width: nat, recs: seq<seq<Byte>>) returns (r: Result<seq<Byte>, Error>)
    requires width >= 3
    ensures r == Extract(width, recs)
  {
    var length := -1;
    var frags: map<nat, seq<Byte>> := map[];
    var i := 0;
    while i < |recs|
      invariant 0 <= i <= |recs|
      invariant length == LengthIn(width, recs[..i]) && frags == PiecesIn(width, recs[..i])
    {
      assert recs[..i + 1][..i] == recs[..i];
      var rec := recs[i];
      if |rec| == width {
        if rec[0] == 0 { length := HeaderLength(rec); } else { frags := frags[rec[0] := rec[1..]]; }
      }
      i := i + 1;
    }
    assert recs[..i] == recs;
    if length < 0 { return Err(NoAnswer); }
    var out := [];
    for k := 1 to 256
      invariant out == Joined(frags, k - 1)
    {
      if k in frags { out := out + frags[k]; }
    }
    if |out| < length { return Err(Missing(|out|, length)); }
    return Ok(out[..length]);
  }

  // ---------------------------------------------------------------------------
  // Records of one answer, in any order, any of them any number of times
  // ---------------------------------------------------------------------------

  predicate FitsIn(p: seq<Byte>, width: nat) { width >= 3 && |p| <= 255 * (width - 1) }

  /** Every record is one of p's answer, or of another width and so passed over. */
  predicate DrawnFrom(recs: seq<seq<Byte>>, p: seq<Byte>, width: nat)
    requires width >= 3
  {
    forall k :: 0 <= k < |recs| ==> recs[k] in Answer(p, width) || |recs[k]| != width
  }

  predicate Complete(recs: seq<seq<Byte>>, p: seq<Byte>, width: nat)
    requires width >= 3
  {
    forall a :: a in Answer(p, width) ==> a in recs
  }

  lemma FewPieces(p: seq<Byte>, width: nat)
    requires FitsIn(p, width)
    ensures Pieces(|p|, width - 1) <= 255
  {
    var d := width - 1;
    PiecesCover(|p|, d);
    if Pieces(|p|, d) > 255 { Times(255, Pieces(|p|, d) - 1, d); }
  }

  /** The header or one of n fragments, told apart by the first byte. */
  predicate IsRecord(p: seq<Byte>, width: nat, n: nat, r: seq<Byte>)
    requires width >= 3
  {
    && |r| == width
    && (r[0] == 0 ==> r == Header(|p|, width))
    && (r[0] != 0 ==> r[0] <= n && r == Fragment(p, width, r[0]))
  }

  lemma FragmentIsRecord(p: seq<Byte>, width: nat, n: nat, k: nat)
    requires width >= 3 && 1 <= k <= n <= 255
    ensures IsRecord(p, width, n, Fragment(p, width, k))
  {
  }

  lemma RecordOf(p: seq<Byte>, width: nat, r: seq<Byte>)
    requires FitsIn(p, width)
    ensures r in Answer(p, width) ==> IsRecord(p, width, Pieces(|p|, width - 1), r)
  {
    FewPieces(p, width);
    if r in Answer(p, width) {
      var k :| 0 <= k < |Answer(p, width)| && Answer(p, width)[k] == r;
      RecordAt(p, width, k);
      if k > 0 { FragmentIsRecord(p, width, Pieces(|p|, width - 1), k); }
    }
  }

  lemma RecordAt(p: seq<Byte>, width: nat, k: nat)
    requires width >= 3 && k < |Answer(p, width)|
    ensures k <= Pieces(|p|, width - 1)
    ensures Answer(p, width)[k] == if k == 0 then Header(|p|, width) else Fragment(p, width, k)
  {
  }

  lemma HeaderSays(length: nat, width: nat)
    requires width >= 3
    ensures Header(length, width)[0] == 0 && HeaderLength(Header(length, width)) == length % 65536
  {
    LowByte(length);
  }

  lemma LowByte(length: nat)
    ensures length % 65536 == 256 * (length % 65536 / 256) + length % 256
  {
    LastDigit(length, 256);
    Remainder(length % 65536, 256, length / 256 % 256, length % 256);
  }

  lemma {:induction false} LengthFound(p: seq<Byte>, width: nat, recs: seq<seq<Byte>>)
    requires FitsIn(p, width) && DrawnFrom(recs, p, width)
    ensures LengthIn(width, recs) == if Header(|p|, width) in recs then |p| % 65536 else -1
    decreases |recs|
  {
    if recs != [] {
      var n := |recs| - 1;
      var r := recs[n];
      assert recs == recs[..n] + [r];
      LengthFound(p, width, recs[..n]);
      HeaderSays(|p|, width);
      if |r| == width { RecordOf(p, width, r); }
    }
  }

  /** What one more record does to a piece. */
  lemma OneMore(p: seq<Byte>, width: nat, r: seq<Byte>, i: nat)
    requires FitsIn(p, width) && 1 <= i <= Pieces(|p|, width - 1)
    ensures r in Answer(p, width) || |r| != width ==> (r == Fragment(p, width, i) <==> |r| == width && r[0] == i)
  {
    FewPieces(p, width);
    if |r| == width { RecordOf(p, width, r); }
  }

  lemma {:induction false} PiecesFound(p: seq<Byte>, width: nat, recs: seq<seq<Byte>>, i: nat)
    requires FitsIn(p, width) && DrawnFrom(recs, p, width) && 1 <= i <= Pieces(|p|, width - 1)
    ensures i in PiecesIn(width, recs) <==> Fragment(p, width, i) in recs
    ensures i in PiecesIn(width, recs) ==> PiecesIn(width, recs)[i] == Piece(p, width - 1, i)
    decreases |recs|
  {
    if recs != [] {
      var n := |recs| - 1;
      var r := recs[n];
      assert recs == recs[..n] + [r];
      PiecesFound(p, width, recs[..n], i);
      OneMore(p, width, r, i);
    }
  }

  lemma {:induction false} NoOthersFound(p: seq<Byte>, width: nat, recs: seq<seq<Byte>>, i: nat)
    requires FitsIn(p, width) && DrawnFrom(recs, p, width)
    ensures i in PiecesIn(width, recs) ==> 1 <= i <= Pieces(|p|, width - 1)
    decreases |recs|
  {
    if recs != [] {
      RecordOf(p, width, recs[|recs| - 1]);
      NoOthersFound(p, width, recs[..|recs| - 1], i);
    }
  }

  /** m holds some of p's pieces of d bytes. */
  ghost predicate SomePieces(m: map<nat, seq<Byte>>, p: seq<Byte>, d: nat) {
    d > 0 && forall i :: i in m ==> 1 <= i <= Pieces(|p|, d) && m[i] == Piece(p, d, i)
  }

  lemma {:induction false} JoinedAll(m: map<nat, seq<Byte>>, p: seq<Byte>, d: nat, k: nat)
    requires SomePieces(m, p, d) && forall i :: 1 <= i <= k ==> i in m
    ensures |Joined(m, k)| == k * d && Spells(Joined(m, k), p)
  {
    if k > 0 {
      JoinedAll(m, p, d, k - 1);
      OneMoreTimes(k, d);
      SpellsOn(Joined(m, k - 1), p, (k - 1) * d, d);
    }
  }

  /** s is the beginning of p with zeros after it. */
  predicate Spells(s: seq<Byte>, p: seq<Byte>) { forall j :: 0 <= j < |s| ==> s[j] == At(p, j) }

  lemma SpellsOn(s: seq<Byte>, p: seq<Byte>, a: nat, d: nat)
    requires Spells(s, p) && |s| == a
    ensures Spells(s + Slice(p, a, d), p)
  {
  }

  lemma OneMoreTimes(k: nat, d: nat)
    requires k > 0
    ensures k * d == (k - 1) * d + d
  {
  }

  lemma {:induction false} JoinedShort(m: map<nat, seq<Byte>>, p: seq<Byte>, d: nat, k: nat, gap: nat)
    requires SomePieces(m, p, d) && gap !in m
    ensures |Joined(m, k)| + (if 1 <= gap <= k then d else 0) <= k * d
  {
    if k > 0 {
      JoinedShort(m, p, d, k - 1, gap);
      OneMoreTimes(k, d);
    }
  }

  lemma {:induction false} JoinedStops(m: map<nat, seq<Byte>>, p: seq<Byte>, d: nat, k: nat)
    requires SomePieces(m, p, d) && k >= Pieces(|p|, d)
    ensures Joined(m, k) == Joined(m, Pieces(|p|, d))
  {
    if k > Pieces(|p|, d) { JoinedStops(m, p, d, k - 1); }
  }

  lemma FoundArePieces(p: seq<Byte>, width: nat, recs: seq<seq<Byte>>)
    requires FitsIn(p, width) && DrawnFrom(recs, p, width)
    ensures SomePieces(PiecesIn(width, recs), p, width - 1)
  {
    forall i | i in PiecesIn(width, recs)
      ensures 1 <= i <= Pieces(|p|, width - 1) && PiecesIn(width, recs)[i] == Piece(p, width - 1, i)
    {
      NoOthersFound(p, width, recs, i);
      PiecesFound(p, width, recs, i);
    }
  }

  /** Whatever records of an answer arrive, in whatever order and however often, the
      payload comes out exactly when the header and every fragment are among them, and
      otherwise there is an error, never another payload. */
  lemma ReassemblesExactlyWhenComplete(p: seq<Byte>, width: nat, recs: seq<seq<Byte>>)
    requires FitsIn(p, width) && |p| < 65536 && DrawnFrom(recs, p, width)
    ensures Complete(recs, p, width) ==> Extract(width, recs) == Ok(p)
    ensures !Complete(recs, p, width) ==> Extract(width, recs).Err?
    ensures Extract(width, recs) == Err(NoAnswer) <==> Header(|p|, width) !in recs
  {
    LengthFound(p, width, recs);
    NoAnswerMeansNoLength(width, recs);
    if Complete(recs, p, width) {
      WholeAnswer(p, width, recs);
      assert p[..|p| % 65536] == p;
    } else {
      MissingIsShort(p, width, recs);
      ShortFails(width, recs, |p|);
    }
  }

  lemma NoAnswerMeansNoLength(width: nat, recs: seq<seq<Byte>>)
    requires width >= 3
    ensures Extract(width, recs) == Err(NoAnswer) <==> LengthIn(width, recs) < 0
  {
  }

  lemma ShortFails(width: nat, recs: seq<seq<Byte>>, length: nat)
    requires width >= 3
    requires LengthIn(width, recs) < 0 || (LengthIn(width, recs) == length && |Joined(PiecesIn(width, recs), 255)| < length)
    ensures Extract(width, recs).Err?
  {
  }

  lemma MissingIsShort(p: seq<Byte>, width: nat, recs: seq<seq<Byte>>)
    requires FitsIn(p, width) && DrawnFrom(recs, p, width)
    ensures !Complete(recs, p, width) && Header(|p|, width) in recs ==> |Joined(PiecesIn(width, recs), 255)| < |p|
  {
    if Complete(recs, p, width) || Header(|p|, width) !in recs { return; }
    var a: seq<Byte> :| a in Answer(p, width) && a !in recs;
    RecordOf(p, width, a);
    FewPieces(p, width);
    FoundArePieces(p, width, recs);
    PiecesFound(p, width, recs, a[0]);
    GapIsShort(PiecesIn(width, recs), p, width - 1, a[0]);
  }

  lemma GapIsShort(m: map<nat, seq<Byte>>, p: seq<Byte>, d: nat, gap: nat)
    requires SomePieces(m, p, d) && 1 <= gap <= Pieces(|p|, d) <= 255 && gap !in m
    ensures |Joined(m, 255)| < |p|
  {
    PiecesCover(|p|, d);
    JoinedStops(m, p, d, 255);
    JoinedShort(m, p, d, Pieces(|p|, d), gap);
    OneMoreTimes(Pieces(|p|, d), d);
  }

  /** All records of an answer give back the payload cut to the sixteen bits the header
      has for its length. */
  lemma WholeAnswer(p: seq<Byte>, width: nat, recs: seq<seq<Byte>>)
    requires FitsIn(p, width) && DrawnFrom(recs, p, width) && Complete(recs, p, width)
    ensures Extract(width, recs) == Ok(p[..|p| % 65536])
  {
    var d := width - 1;
    var n := Pieces(|p|, d);
    var m := PiecesIn(width, recs);
    LengthFound(p, width, recs);
    RecordAt(p, width, 0);
    assert Answer(p, width)[0] in recs;
    FewPieces(p, width);
    FoundArePieces(p, width, recs);
    forall i | 1 <= i <= n ensures i in m {
      AnswerNext(p, width, i);
      RecordAt(p, width, i);
      assert Answer(p, width)[i] in recs;
      PiecesFound(p, width, recs, i);
    }
    JoinedWhole(m, p, d);
    var k := |p| % 65536;
    assert Joined(m, 255)[..k] == p[..k];
  }

  lemma JoinedWhole(m: map<nat, seq<Byte>>, p: seq<Byte>, d: nat)
    requires SomePieces(m, p, d) && Pieces(|p|, d) <= 255
    requires forall i :: 1 <= i <= Pieces(|p|, d) ==> i in m
    ensures |Joined(m, 255)| >= |p| && forall j :: 0 <= j < |p| ==> Joined(m, 255)[j] == p[j]
  {
    PiecesCover(|p|, d);
    JoinedAll(m, p, d, Pieces(|p|, d));
    JoinedStops(m, p, d, 255);
  }

  lemma Shorter(p: seq<Byte>, k: nat)
    requires k <= |p|
    ensures p[..k] == p <==> k == |p|
  {
    if p[..k] == p { assert |p[..k]| == k; }
  }

  /** A payload survives exactly when its length fits the header. Records of at most 258
      bytes cannot hold a longer one; the two widths in use, 4 and 16, are far below. */
  lemma SurvivesExactlyWhenShort(p: seq<Byte>, width: nat)
    requires FitsIn(p, width)
    ensures Extract(width, Answer(p, width)) == Ok(p) <==> |p| < 65536
    ensures width <= 258 ==> |p| < 65536
  {
    WholeAnswerOnce(p, width);
    Shorter(p, |p| % 65536);
    NarrowIsShort(p, width);
  }

  lemma WholeAnswerOnce(p: seq<Byte>, width: nat)
    requires FitsIn(p, width)
    ensures Extract(width, Answer(p, width)) == Ok(p[..|p| % 65536])
  {
    WholeAnswer(p, width, Answer(p, width));
  }

  lemma NarrowIsShort(p: seq<Byte>, width: nat)
    requires FitsIn(p, width)
    ensures width <= 258 ==> |p| < 65536
  {
    if width <= 258 { Times(width - 1, 257, 255); }
  }

  /** Where everything is in the records: a zero and the length in the header, the number and
      then the payload's bytes from position a in the fragments. */
  lemma Layout(p: seq<Byte>, width: nat, i: nat, j: nat, a: nat)
    requires width >= 3 && 1 <= i <= 255 && 1 <= j < width && a == (i - 1) * (width - 1)
    ensures Header(|p|, width)[..3] == [0, |p| % 65536 / 256, |p| % 256]
    ensures Fragment(p, width, i)[0] == i
    ensures Fragment(p, width, i)[j] == if a + j - 1 < |p| then p[a + j - 1] else 0
  {
    assert Fragment(p, width, i)[j] == Slice(p, a, width - 1)[j - 1];
  }
}
