/** The order in which a smux session writes frames: control before data, and within a
    class by a 32-bit request number compared modulo 2^32. */
module Shaper {
  import opened Window
  import opened Bytes

  datatype Class = CLSCTRL | CLSDATA

  /** `mark` of a FIN: how far the stream's accepted bytes had been reported written when
      it was closed. */
  datatype Frame = Data(sid: nat, bytes: seq<Byte>) | Fin(sid: nat, mark: nat) | Syn(sid: nat) | Other

  /** `order` is the true number of the request, `number` its 32 bits; `accepted` is the
      number of requests drawn when the shaper took it. */
  datatype Request = Request(cls: Class, number: u32, order: nat, accepted: nat, frame: Frame)

  function TimeDiff(later: u32, earlier: u32): int { Int32(U32(later - earlier)) }

  predicate Less(a: Request, b: Request) {
    if a.cls != b.cls then a.cls == CLSCTRL else TimeDiff(b.number, a.number) > 0
  }

  /** The order meant. */
  predicate Before(a: Request, b: Request) {
    if a.cls != b.cls then a.cls == CLSCTRL else a.order < b.order
  }

  /** The modular comparison is right exactly as far as half the number space. */
  lemma LessIffWithinHalf(a: Request, b: Request)
    requires a.cls == b.cls && a.number == U32(a.order) && b.number == U32(b.order)
    requires a.order < b.order < a.order + MOD
    ensures Less(a, b) <==> b.order - a.order < HALF
    ensures Less(b, a) <==> b.order - a.order > HALF
  {
    ModSub(b.order, a.order);
    ModSub(a.order, b.order);
    var d := b.order - a.order;
    assert U32(b.number - a.number) == d && U32(a.number - b.number) == MOD - d;
  }

  /** Everything in `rs` was drawn within half the number space. */
  predicate Spans(rs: seq<Request>) {
    && (forall i :: 0 <= i < |rs| ==> rs[i].number == U32(rs[i].order))
    && (forall i, j :: 0 <= i < |rs| && 0 <= j < |rs| ==> rs[i].order - rs[j].order < HALF)
    && (forall i, j :: 0 <= i < j < |rs| ==> rs[i].order != rs[j].order)
  }

  lemma LessIsBefore(rs: seq<Request>, i: nat, j: nat)
    requires Spans(rs) && i < |rs| && j < |rs|
    ensures Less(rs[i], rs[j]) <==> Before(rs[i], rs[j])
  {
    var a, b := rs[i], rs[j];
    assert a.order - b.order < HALF && b.order - a.order < HALF;
    if a.cls == b.cls {
      if a.order < b.order { LessIffWithinHalf(a, b); }
      else if b.order < a.order { LessIffWithinHalf(b, a); }
      else { assert U32(b.number - a.number) == 0; }
    }
  }

  // ---------------------------------------------------------------------------
  // The heap
  // ---------------------------------------------------------------------------

  function Parent(i: nat): nat
    requires i > 0
  {
    (i - 1) / 2
  }

  predicate Placed(h: seq<Request>, i: nat)
    requires 0 < i < |h|
  {
    !Before(h[i], h[Parent(i)])
  }

  /** The entry below `hole` at i is not before the one above it. */
  predicate Skips(h: seq<Request>, hole: nat, i: nat)
    requires 0 < i < |h| && Parent(i) == hole
  {
    0 < hole ==> !Before(h[i], h[Parent(hole)])
  }

  /** Every entry is in its place but, possibly, the one at `hole`. */
  predicate HeapUp(h: seq<Request>, hole: nat) {
    && (forall i :: 0 < i < |h| && i != hole ==> Placed(h, i))
    && (forall i :: 0 < i < |h| && Parent(i) == hole ==> Skips(h, hole, i))
  }

  /** Every entry is in its place but, possibly, those directly below `hole`. */
  predicate HeapDown(h: seq<Request>, hole: nat) {
    && (forall i :: 0 < i < |h| && Parent(i) != hole ==> Placed(h, i))
    && (forall i :: 0 < i < |h| && Parent(i) == hole ==> Skips(h, hole, i))
  }

  predicate IsHeap(h: seq<Request>) {
    forall i :: 0 < i < |h| ==> Placed(h, i)
  }

  lemma {:induction false} RootIsFirst(h: seq<Request>, i: nat)
    requires IsHeap(h) && i < |h|
    ensures !Before(h[i], h[0])
  {
    if i > 0 {
      assert Placed(h, i);
      RootIsFirst(h, Parent(i));
    }
  }

  function Swapped(h: seq<Request>, i: nat, j: nat): (r: seq<Request>)
    requires i < |h| && j < |h|
    ensures |r| == |h| && multiset(r) == multiset(h)
  {
    h[i := h[j]][j := h[i]]
  }

  lemma SpansPermuted(a: seq<Request>, b: seq<Request>)
    requires Spans(a) && multiset(a) == multiset(b)
    ensures Spans(b)
  {
    forall i | 0 <= i < |b| ensures b[i] in a { assert b[i] in multiset(b); }
    forall i, j | 0 <= i < |b| && 0 <= j < |b| ensures b[i].order - b[j].order < HALF {
      assert b[i] in a && b[j] in a;
    }
    forall i, j | 0 <= i < j < |b| ensures b[i].order != b[j].order {
      if b[i].order == b[j].order {
        SameOrderSameRequest(a, b[i], b[j]);
        TwicePlaced(b, i, j);
        OncePlaced(a, b[i]);
      }
    }
  }

  lemma SameOrderSameRequest(a: seq<Request>, x: Request, y: Request)
    requires Spans(a) && x in a && y in a && x.order == y.order
    ensures x == y
  {
    var i :| 0 <= i < |a| && a[i] == x;
    var j :| 0 <= j < |a| && a[j] == y;
  }

  lemma TwicePlaced(b: seq<Request>, i: nat, j: nat)
    requires i < j < |b| && b[i] == b[j]
    ensures multiset(b)[b[i]] >= 2
  {
    assert b == b[..j] + [b[j]] + b[j + 1..];
    assert b[i] in b[..j] && b[i] in multiset(b[..j]);
  }

  lemma OncePlaced(a: seq<Request>, x: Request)
    requires Spans(a) && x in a
    ensures multiset(a)[x] == 1
  {
    var i :| 0 <= i < |a| && a[i] == x;
    assert a == a[..i] + [x] + a[i + 1..];
    assert x !in multiset(a[..i]) && x !in multiset(a[i + 1..]);
  }

  /** container/heap over shaperHeap: Push appends and sifts up, Pop moves the last entry
      to the root, sifts it down and returns the old root. */
  class ShaperHeap {
    var h: seq<Request>

    ghost predicate Valid()
      reads this
    {
      IsHeap(h) && Spans(h)
    }

    constructor ()
      ensures Valid() && h == []
    {
      h := [];
    }

    method Push(x: Request)
      requires Valid() && Spans(h + [x])
      modifies this
      ensures Valid() && multiset(h) == multiset(old(h)) + multiset{x}
    {
      Appended(h, x);
      h := h + [x];
      SiftUp();
    }

    method SiftUp()
      requires |h| > 0 && HeapUp(h, |h| - 1) && Spans(h)
      modifies this
      ensures Valid() && multiset(h) == multiset(old(h))
    {
      var j := |h| - 1;
      while j > 0 && Less(h[j], h[Parent(j)])
        invariant 0 <= j < |h| && HeapUp(h, j) && multiset(h) == multiset(old(h)) && Spans(h)
      {
        LessIsBefore(h, j, Parent(j));
        UpOnceKeepsHeap(h, j);
        h := Swapped(h, j, Parent(j));
        SpansPermuted(old(h), h);
        j := Parent(j);
      }
      if j > 0 { LessIsBefore(h, j, Parent(j)); }
    }

    /** Removes and returns a request no other is before. */
    method Pop() returns (x: Request)
      requires Valid() && h != []
      modifies this
      ensures Valid() && multiset(old(h)) == multiset(h) + multiset{x}
      ensures NoneBefore(old(h), x)
    {
      x := h[0];
      RootRemoved(h);
      h := RootCut(h);
      SiftDown();
    }

    method SiftDown()
      requires HeapDown(h, 0) && Spans(h)
      modifies this
      ensures Valid() && multiset(h) == multiset(old(h))
    {
      var i := 0;
      while 2 * i + 1 < |h|
        invariant 0 <= i && |h| == |old(h)| && HeapDown(h, i) && multiset(h) == multiset(old(h)) && Spans(h)
        decreases |h| - i
      {
        var j := 2 * i + 1;
        if j + 1 < |h| {
          LessIsBefore(h, j + 1, j);
          if Less(h[j + 1], h[j]) { j := j + 1; }
        }
        LessIsBefore(h, j, i);
        if !Less(h[j], h[i]) {
          NotBelow(h, i, j);
          return;
        }
        DownOnceKeepsHeap(h, i, j);
        h := Swapped(h, i, j);
        SpansPermuted(old(h), h);
        i := j;
      }
    }
  }

  predicate NoneBefore(h: seq<Request>, x: Request) {
    forall i :: 0 <= i < |h| ==> !Before(h[i], x)
  }

  /** The last entry takes the root's place. */
  function RootCut(h: seq<Request>): seq<Request>
    requires h != []
  {
    Swapped(h, 0, |h| - 1)[..|h| - 1]
  }

  lemma RootRemoved(h: seq<Request>)
    requires IsHeap(h) && Spans(h) && h != []
    ensures HeapDown(RootCut(h), 0) && Spans(RootCut(h))
    ensures multiset(h) == multiset(RootCut(h)) + multiset{h[0]} && NoneBefore(h, h[0])
  {
    var r := RootCut(h);
    assert Swapped(h, 0, |h| - 1) == r + [h[0]];
    SpansPermuted(h, r + [h[0]]);
    assert forall i :: 0 <= i < |r| ==> (r + [h[0]])[i] == r[i];
    forall i | 0 < i < |r| && Parent(i) != 0 ensures Placed(r, i) { assert Placed(h, i); }
    forall i | 0 <= i < |h| ensures !Before(h[i], h[0]) { RootIsFirst(h, i); }
  }

  lemma Appended(h: seq<Request>, x: Request)
    requires IsHeap(h)
    ensures HeapUp(h + [x], |h|)
  {
    forall i | 0 < i < |h| ensures Placed(h + [x], i) { assert Placed(h, i); }
  }

  lemma UpOnceKeepsHeap(h: seq<Request>, j: nat)
    requires 0 < j < |h| && HeapUp(h, j) && Before(h[j], h[Parent(j)])
    ensures HeapUp(Swapped(h, j, Parent(j)), Parent(j))
  {
    var r, p := Swapped(h, j, Parent(j)), Parent(j);
    forall i | 0 < i < |r| && i != p ensures Placed(r, i) {
      if i != j {
        assert Placed(h, i);
        if Parent(i) == j { assert Skips(h, j, i); }
      }
    }
    forall i | 0 < i < |r| && Parent(i) == p ensures Skips(r, p, i) {
      if 0 < p {
        assert Placed(h, p);
        if i != j { assert Placed(h, i); }
      }
    }
  }

  predicate FirstChild(h: seq<Request>, i: nat, j: nat) {
    && i < |h| && j < |h| && (j == 2 * i + 1 || j == 2 * i + 2)
    && (2 * i + 1 < |h| ==> !Before(h[2 * i + 1], h[j]))
    && (2 * i + 2 < |h| ==> !Before(h[2 * i + 2], h[j]))
  }

  lemma NotBelow(h: seq<Request>, i: nat, j: nat)
    requires HeapDown(h, i) && FirstChild(h, i, j) && !Before(h[j], h[i])
    ensures IsHeap(h)
  {
    forall k | 0 < k < |h| ensures Placed(h, k) {
      if Parent(k) == i { assert k == 2 * i + 1 || k == 2 * i + 2; }
    }
  }

  lemma DownOnceKeepsHeap(h: seq<Request>, i: nat, j: nat)
    requires HeapDown(h, i) && FirstChild(h, i, j) && Before(h[j], h[i])
    ensures HeapDown(Swapped(h, i, j), j)
  {
    var r := Swapped(h, i, j);
    assert Parent(j) == i;
    forall k | 0 < k < |r| && Parent(k) != j ensures Placed(r, k) {
      if Parent(k) == i {
        assert k == 2 * i + 1 || k == 2 * i + 2;
      } else {
        assert Placed(h, k);
        if k == i { assert Skips(h, i, j); }
      }
    }
    forall k | 0 < k < |r| && Parent(k) == j ensures Skips(r, j, k) {
      assert Placed(h, k);
    }
  }
}
