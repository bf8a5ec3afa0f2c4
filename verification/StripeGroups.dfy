/** Assembling striped flows on the client: the legs of a flow arrive one by one, in any
    order and possibly wrong, and are filed under a group id until the group is complete
    or given up. */
module StripeGroups {

  import opened Wrappers

  type Leg = nat

  datatype Kind = Striped | Promote

  /** What a leg says of itself. */
  datatype Header = Header(kind: Kind, flow: nat, group: nat, index: nat, total: nat, parity: nat, addr: string)

  /** A group object; `id` is the number its timer was given. */
  datatype Group = Group(
    id: nat, streams: seq<Option<Leg>>, remaining: nat, addr: string, parity: nat, kind: Kind, flow: nat)

  /** Groups are objects: `heap[n]` is the n-th one made and `table` maps group ids to
      objects. `delivered` and `dropped` count how often each object was completed and given
      up, and `closing` are those given up whose legs are not closed yet. `legs` and `home`
      remember every arrival and where it was filed; `closed` counts closes. */
  datatype Table = Table(
    heap: seq<Group>, table: map<nat, nat>,
    delivered: multiset<nat>, dropped: multiset<nat>, closing: set<nat>,
    legs: map<Leg, Header>, home: map<Leg, nat>, closed: multiset<Leg>)

  function Fresh(): Table { Table([], map[], multiset{}, multiset{}, {}, map[], map[], multiset{}) }

  predicate ValidHeader(h: Header) { h.total != 0 && h.index < h.total && h.parity < h.total }

  function NewGroup(h: Header): Group {
    Group(h.group, seq(h.total, _ => None), h.total, h.addr, h.parity, h.kind, h.flow)
  }

  /** Same kind, same promoted flow, same shape, same destination. */
  predicate Agrees(g: Group, h: Header) {
    && g.kind == h.kind
    && (h.kind == Promote ==> g.flow == h.flow)
    && |g.streams| == h.total && g.parity == h.parity
    && g.addr == h.addr
  }

  predicate Accepts(g: Group, h: Header) {
    Agrees(g, h) && h.index < |g.streams| && g.streams[h.index] == None
  }

  function File(g: Group, leg: Leg, h: Header): Group
    requires Accepts(g, h)
  {
    g.(streams := g.streams[h.index := Some(leg)], remaining := if g.remaining == 0 then 0 else g.remaining - 1)
  }

  // ---------------------------------------------------------------------------
  // The operations
  // ---------------------------------------------------------------------------

  function Rejected(y: Table, leg: Leg): Table { y.(closed := y.closed + multiset{leg}) }

  /** The group object a leg goes to, made if there is none. */
  function Found(y: Table, h: Header): (Table, nat) {
    if h.group in y.table then (y, y.table[h.group])
    else (y.(heap := y.heap + [NewGroup(h)], table := y.table[h.group := |y.heap|]), |y.heap|)
  }

  function Filed(y: Table, leg: Leg, h: Header, n: nat): Table
    requires n < |y.heap| && Accepts(y.heap[n], h)
  {
    var g := File(y.heap[n], leg, h);
    var z := y.(heap := y.heap[n := g], home := y.home[leg := n]);
    if g.remaining == 0 then z.(table := z.table - {h.group}, delivered := z.delivered + multiset{n}) else z
  }

  function AddLegSpec(y: Table, leg: Leg, h: Header): Table {
    var x := y.(legs := y.legs[leg := h]);
    if !ValidHeader(h) then Rejected(x, leg)
    else
      var (z, n) := Found(x, h);
      if n < |z.heap| && Accepts(z.heap[n], h) then Filed(z, leg, h, n) else Rejected(z, leg)
  }

  /** The table still holds this very object. */
  predicate Pending(y: Table, n: nat) {
    n < |y.heap| && y.heap[n].id in y.table && y.table[y.heap[n].id] == n
  }

  function AbortSpec(y: Table, n: nat): Table {
    if Pending(y, n) then
      y.(table := y.table - {y.heap[n].id}, dropped := y.dropped + multiset{n}, closing := y.closing + {n})
    else y
  }

  function LegsOf(ss: seq<Option<Leg>>): multiset<Leg>
    decreases |ss|
  {
    if ss == [] then multiset{}
    else
      var rest := LegsOf(ss[..|ss| - 1]);
      match ss[|ss| - 1]
      case None => rest
      case Some(l) => rest + multiset{l}
  }

  function CloseSpec(y: Table, n: nat): Table {
    if n in y.closing && n < |y.heap| then
      y.(closing := y.closing - {n}, closed := y.closed + LegsOf(y.heap[n].streams))
    else y
  }

  /** The client's group table. */
  class Assembler {
    var y: Table

    constructor ()
      ensures y == Fresh()
    {
      y := Fresh();
    }

    /** Files a leg, or closes it; `complete` says that the returned group object now has
        all its legs and is out of the table. */
    method AddStripeLeg(leg: Leg, h: Header) returns (n: Option<nat>, complete: bool)
      requires forall i :: i in y.table ==> y.table[i] < |y.heap|
      modifies this
      ensures y == AddLegSpec(old(y), leg, h)
      ensures n == None <==> y.closed == old(y.closed) + multiset{leg} && !complete
      ensures complete <==> |y.delivered| == |old(y.delivered)| + 1
    {
      y := y.(legs := y.legs[leg := h]);
      n, complete := None, false;
      if h.total == 0 || h.index >= h.total || h.parity >= h.total {
        y := y.(closed := y.closed + multiset{leg});
        return;
      }
      if h.group !in y.table {
        y := y.(table := y.table[h.group := |y.heap|], heap := y.heap + [NewGroup(h)]);
      }
      var k := y.table[h.group];
      var g := y.heap[k];
      if g.kind != h.kind || (h.kind == Promote && g.flow != h.flow)
         || |g.streams| != h.total || g.parity != h.parity || g.addr != h.addr || g.streams[h.index] != None
      {
        y := y.(closed := y.closed + multiset{leg});
        return;
      }
      g := File(g, leg, h);
      y := y.(heap := y.heap[k := g], home := y.home[leg := k]);
      complete := g.remaining == 0;
      if complete {
        y := y.(table := y.table - {h.group}, delivered := y.delivered + multiset{k});
      }
      n := Some(k);
      assert multiset{leg}[leg] == 1;
    }

    /** The timer of group object n. */
    method Abort(n: nat)
      requires n < |y.heap|
      modifies this
      ensures y == if Pending(old(y), n) then CloseSpec(AbortSpec(old(y), n), n) else old(y)
    {
      if y.heap[n].id in y.table && y.table[y.heap[n].id] == n {
        y := y.(table := y.table - {y.heap[n].id}, dropped := y.dropped + multiset{n}, closing := y.closing + {n});
        CloseLegs(n);
      }
    }

    method CloseLegs(n: nat)
      requires n < |y.heap| && n in y.closing
      modifies this
      ensures y == CloseSpec(old(y), n)
    {
      var ss := y.heap[n].streams;
      var closed := y.closed;
      var i := 0;
      while i < |ss|
        invariant 0 <= i <= |ss|
        invariant closed == y.closed + LegsOf(ss[..i])
      {
        assert ss[..i + 1][..i] == ss[..i];
        match ss[i] {
          case None =>
          case Some(l) => closed := closed + multiset{l};
        }
        i := i + 1;
      }
      assert ss[..i] == ss;
      y := y.(closing := y.closing - {n}, closed := closed);
    }
  }

  // ---------------------------------------------------------------------------
  // Runs
  // ---------------------------------------------------------------------------

  datatype Event =
    | Arrive(leg: Leg, h: Header)
    | Timer(n: nat)       // of group object n, however late
    | DropAll             // a restart takes whatever is pending
    | CloseDropped(n: nat)

  function DropAllSpec(y: Table): Table {
    y.(table := map[], dropped := y.dropped + multiset(y.table.Values), closing := y.closing + y.table.Values)
  }

  /** A stream arrives once. */
  function Step(y: Table, e: Event): Table {
    match e
    case Arrive(leg, h) => if leg in y.legs then y else AddLegSpec(y, leg, h)
    case Timer(n) => AbortSpec(y, n)
    case DropAll => DropAllSpec(y)
    case CloseDropped(n) => CloseSpec(y, n)
  }

  function Run(y: Table, es: seq<Event>): Table
    decreases |es|
  {
    if es == [] then y else Step(Run(y, es[..|es| - 1]), es[|es| - 1])
  }

  // ---------------------------------------------------------------------------
  // Slots
  // ---------------------------------------------------------------------------

  function Empty(ss: seq<Option<Leg>>): nat
    decreases |ss|
  {
    if ss == [] then 0 else Empty(ss[..|ss| - 1]) + if ss[|ss| - 1] == None then 1 else 0
  }

  lemma {:induction false} EmptyFill(ss: seq<Option<Leg>>, k: nat, leg: Leg)
    requires k < |ss| && ss[k] == None
    ensures Empty(ss) == Empty(ss[k := Some(leg)]) + 1
    decreases |ss|
  {
    var n := |ss| - 1;
    if k == n {
      assert ss[k := Some(leg)][..n] == ss[..n];
    } else {
      assert ss[k := Some(leg)][..n] == ss[..n][k := Some(leg)];
      EmptyFill(ss[..n], k, leg);
    }
  }

  lemma {:induction false} EmptyNew(n: nat)
    ensures Empty(seq(n, _ => None)) == n
  {
    if n > 0 {
      var a: seq<Option<Leg>> := seq(n, _ => None);
      var b: seq<Option<Leg>> := seq(n - 1, _ => None);
      assert a[..n - 1] == b;
      EmptyNew(n - 1);
    }
  }

  lemma {:induction false} NoneEmpty(ss: seq<Option<Leg>>, k: nat)
    requires Empty(ss) == 0 && k < |ss|
    ensures ss[k].Some?
    decreases |ss|
  {
    if k < |ss| - 1 { NoneEmpty(ss[..|ss| - 1], k); }
  }

  predicate Distinct(ss: seq<Option<Leg>>) {
    forall i, j :: 0 <= i < j < |ss| && ss[i].Some? ==> ss[i] != ss[j]
  }

  lemma {:induction false} LegsOfCounts(ss: seq<Option<Leg>>, l: Leg)
    requires Distinct(ss)
    ensures LegsOf(ss)[l] == if Some(l) in ss then 1 else 0
    decreases |ss|
  {
    if ss != [] {
      var n := |ss| - 1;
      assert ss == ss[..n] + [ss[n]];
      LegsOfCounts(ss[..n], l);
    }
  }

  // ---------------------------------------------------------------------------
  // The invariant
  // ---------------------------------------------------------------------------

  predicate TableInv(y: Table) {
    && (forall i :: i in y.table ==> y.table[i] < |y.heap| && y.heap[y.table[i]].id == i)
    && (forall n :: n in y.closing ==> n in y.dropped)
  }

  /** Every object is pending, or was completed or given up once. */
  ghost predicate OnceInv(y: Table) {
    forall n: nat :: y.delivered[n] + y.dropped[n] == if n < |y.heap| && !Pending(y, n) then 1 else 0
  }

  /** An object is delivered exactly when its last slot is filled. */
  predicate GroupInv(heap: seq<Group>, delivered: multiset<nat>) {
    forall n :: 0 <= n < |heap| ==>
      && heap[n].remaining == Empty(heap[n].streams)
      && (heap[n].remaining == 0 <==> n in delivered)
  }

  /** A leg in slot k of object n is at home there, and its header says so. */
  predicate SlotInv(heap: seq<Group>, legs: map<Leg, Header>, home: map<Leg, nat>) {
    forall n, k :: 0 <= n < |heap| && 0 <= k < |heap[n].streams| && heap[n].streams[k].Some? ==>
      AtHome(heap[n], legs, home, heap[n].streams[k].value, n, k)
  }

  predicate AtHome(g: Group, legs: map<Leg, Header>, home: map<Leg, nat>, l: Leg, n: nat, k: nat) {
    && l in home && home[l] == n
    && l in legs && legs[l].index == k && legs[l].group == g.id
    && Agrees(g, legs[l])
  }

  predicate HomeInv(heap: seq<Group>, legs: map<Leg, Header>, home: map<Leg, nat>) {
    forall l :: l in home ==>
      && l in legs && home[l] < |heap|
      && legs[l].index < |heap[home[l]].streams|
      && heap[home[l]].streams[legs[l].index] == Some(l)
  }

  /** Closed for good: never filed, or filed in an object given up and done with. */
  predicate Finished(y: Table, l: Leg) {
    l in y.home ==> y.home[l] in y.dropped && y.home[l] !in y.closing
  }

  ghost predicate ClosedInv(y: Table) {
    forall l: Leg :: y.closed[l] == if l in y.legs && Finished(y, l) then 1 else 0
  }

  /** Where the legs are, and where the objects are. */
  predicate Places(y: Table) { SlotInv(y.heap, y.legs, y.home) && HomeInv(y.heap, y.legs, y.home) }

  ghost predicate Objects(y: Table) { TableInv(y) && OnceInv(y) && GroupInv(y.heap, y.delivered) }

  ghost predicate Inv(y: Table) { Objects(y) && Places(y) && ClosedInv(y) }

  // ---------------------------------------------------------------------------
  // Every event keeps it
  // ---------------------------------------------------------------------------

  lemma SlotsDistinct(y: Table, n: nat)
    requires Places(y) && n < |y.heap|
    ensures Distinct(y.heap[n].streams)
  {
    var ss := y.heap[n].streams;
    forall i, j | 0 <= i < j < |ss| && ss[i].Some? ensures ss[i] != ss[j] {
      assert AtHome(y.heap[n], y.legs, y.home, ss[i].value, n, i);
      if ss[j].Some? { assert AtHome(y.heap[n], y.legs, y.home, ss[j].value, n, j); }
    }
  }

  lemma CloseKeepsInv(y: Table, n: nat)
    requires Inv(y)
    ensures Inv(CloseSpec(y, n))
  {
    if n in y.closing {
      var z := CloseSpec(y, n);
      var ss := y.heap[n].streams;
      SlotsDistinct(y, n);
      forall l: Leg ensures z.closed[l] == if l in z.legs && Finished(z, l) then 1 else 0 {
        LegsOfCounts(ss, l);
        if Some(l) in ss {
          var k :| 0 <= k < |ss| && ss[k] == Some(l);
          assert AtHome(y.heap[n], y.legs, y.home, l, n, k);
        }
      }
    }
  }

  lemma AbortKeepsInv(y: Table, n: nat)
    requires Inv(y)
    ensures Inv(AbortSpec(y, n))
  {
  }

  lemma DropAllKeepsInv(y: Table)
    requires Inv(y)
    ensures Inv(DropAllSpec(y))
  {
    DropAllKeepsObjects(y);
    DropAllKeepsClosed(y);
  }

  lemma DropAllKeepsObjects(y: Table)
    requires Objects(y)
    ensures Objects(DropAllSpec(y))
  {
    var z := DropAllSpec(y);
    forall n: nat ensures z.delivered[n] + z.dropped[n] == if n < |z.heap| && !Pending(z, n) then 1 else 0 {
      assert y.delivered[n] + y.dropped[n] == if n < |y.heap| && !Pending(y, n) then 1 else 0;
      assert n in y.table.Values <==> Pending(y, n);
    }
  }

  lemma DropAllKeepsClosed(y: Table)
    requires Objects(y) && ClosedInv(y)
    ensures ClosedInv(DropAllSpec(y))
  {
    var z := DropAllSpec(y);
    forall l: Leg ensures Finished(z, l) <==> Finished(y, l) {
      if l in y.home {
        var n := y.home[l];
        assert y.delivered[n] + y.dropped[n] == if n < |y.heap| && !Pending(y, n) then 1 else 0;
        assert n in y.table.Values <==> Pending(y, n);
      }
    }
  }

  lemma NewLegWaits(y: Table, leg: Leg, h: Header)
    requires Places(y) && ClosedInv(y) && leg !in y.legs
    ensures Waiting(Found(y.(legs := y.legs[leg := h]), h).0, leg, h)
  {
  }

  /** leg has arrived and is neither filed nor closed. */
  ghost predicate Waiting(y: Table, leg: Leg, h: Header) {
    && leg in y.legs && y.legs[leg] == h && leg !in y.home
    && forall l: Leg :: y.closed[l] == if l in y.legs && l != leg && Finished(y, l) then 1 else 0
  }

  lemma NewLegKeepsPlaces(y: Table, leg: Leg, h: Header)
    requires Places(y) && leg !in y.legs
    ensures Places(y.(legs := y.legs[leg := h]))
  {
  }

  lemma RejectKeepsInv(y: Table, leg: Leg, h: Header)
    requires Inv(y) && leg !in y.legs
    ensures Inv(Rejected(y.(legs := y.legs[leg := h]), leg))
  {
    NewLegKeepsPlaces(y, leg, h);
  }

  lemma FoundKeepsObjects(y: Table, h: Header)
    requires Objects(y) && ValidHeader(h)
    ensures Objects(Found(y, h).0)
  {
    if h.group !in y.table {
      assert y.delivered[|y.heap|] == 0;
      EmptyNew(h.total);
      FreshKeepsTable(y, h);
    }
  }

  lemma FreshKeepsTable(y: Table, h: Header)
    requires TableInv(y) && OnceInv(y) && h.group !in y.table
    ensures TableInv(Found(y, h).0) && OnceInv(Found(y, h).0)
  {
  }

  lemma FoundKeepsPlaces(y: Table, h: Header)
    requires Places(y)
    ensures Places(Found(y, h).0)
  {
  }

  lemma FileKeepsTable(y: Table, leg: Leg, h: Header, n: nat)
    requires TableInv(y) && OnceInv(y) && h.group in y.table && n == y.table[h.group] && Accepts(y.heap[n], h)
    ensures TableInv(Filed(y, leg, h, n))
  {
  }

  /** The leg's own object goes from pending to delivered, or stays; the others stay. */
  lemma FileKeepsPending(y: Table, leg: Leg, h: Header, n: nat, k: nat)
    requires TableInv(y) && h.group in y.table && n == y.table[h.group] && Accepts(y.heap[n], h) && k < |y.heap|
    ensures var z := Filed(y, leg, h, n);
      Pending(z, k) <==> Pending(y, k) && !(k == n && z.heap[n].remaining == 0)
  {
    assert y.heap[n].id == h.group;
  }

  lemma FileKeepsOnce(y: Table, leg: Leg, h: Header, n: nat)
    requires TableInv(y) && OnceInv(y) && h.group in y.table && n == y.table[h.group] && Accepts(y.heap[n], h)
    ensures OnceInv(Filed(y, leg, h, n))
  {
    var z := Filed(y, leg, h, n);
    forall k: nat ensures z.delivered[k] + z.dropped[k] == if k < |z.heap| && !Pending(z, k) then 1 else 0 {
      assert y.delivered[k] + y.dropped[k] == if k < |y.heap| && !Pending(y, k) then 1 else 0;
      if k < |y.heap| { FileKeepsPending(y, leg, h, n, k); }
    }
  }

  lemma FileKeepsGroups(y: Table, leg: Leg, h: Header, n: nat)
    requires GroupInv(y.heap, y.delivered) && n < |y.heap| && n !in y.delivered && Accepts(y.heap[n], h)
    ensures GroupInv(Filed(y, leg, h, n).heap, Filed(y, leg, h, n).delivered)
  {
    EmptyFill(y.heap[n].streams, h.index, leg);
  }

  lemma FileKeepsPlaces(y: Table, leg: Leg, h: Header, n: nat)
    requires Places(y) && n < |y.heap| && y.heap[n].id == h.group && Accepts(y.heap[n], h)
    requires leg in y.legs && y.legs[leg] == h && leg !in y.home
    ensures Places(Filed(y, leg, h, n))
  {
    FileKeepsSlots(y, leg, h, n);
    FileKeepsHomes(y, leg, h, n);
  }

  lemma FileKeepsSlots(y: Table, leg: Leg, h: Header, n: nat)
    requires Places(y) && n < |y.heap| && y.heap[n].id == h.group && Accepts(y.heap[n], h)
    requires leg in y.legs && y.legs[leg] == h && leg !in y.home
    ensures var z := Filed(y, leg, h, n); SlotInv(z.heap, z.legs, z.home)
  {
    var z := Filed(y, leg, h, n);
    forall m, k | 0 <= m < |z.heap| && 0 <= k < |z.heap[m].streams| && z.heap[m].streams[k].Some?
      ensures AtHome(z.heap[m], z.legs, z.home, z.heap[m].streams[k].value, m, k)
    {
      if m != n || k != h.index {
        assert AtHome(y.heap[m], y.legs, y.home, y.heap[m].streams[k].value, m, k);
      }
    }
  }

  lemma FileKeepsHomes(y: Table, leg: Leg, h: Header, n: nat)
    requires HomeInv(y.heap, y.legs, y.home) && n < |y.heap| && Accepts(y.heap[n], h)
    requires leg in y.legs && y.legs[leg] == h
    ensures var z := Filed(y, leg, h, n); HomeInv(z.heap, z.legs, z.home)
  {
    assert y.heap[n].streams[h.index] == None;
  }

  lemma FileKeepsClosed(y: Table, leg: Leg, h: Header, n: nat)
    requires Objects(y) && h.group in y.table && n == y.table[h.group] && Accepts(y.heap[n], h)
    requires Waiting(y, leg, h)
    ensures ClosedInv(Filed(y, leg, h, n))
  {
    assert y.dropped[n] == 0;
  }

  lemma FileKeepsInv(y: Table, leg: Leg, h: Header, n: nat)
    requires Objects(y) && Places(y) && h.group in y.table && n == y.table[h.group] && Accepts(y.heap[n], h)
    requires Waiting(y, leg, h)
    ensures Inv(Filed(y, leg, h, n))
  {
    assert Pending(y, n) && y.delivered[n] == 0;
    FileKeepsTable(y, leg, h, n);
    FileKeepsOnce(y, leg, h, n);
    FileKeepsGroups(y, leg, h, n);
    FileKeepsPlaces(y, leg, h, n);
    FileKeepsClosed(y, leg, h, n);
  }

  /** A leg of a new group is never rejected: the first leg fixes what the group is. */
  lemma NewGroupAccepts(h: Header)
    requires ValidHeader(h)
    ensures Accepts(NewGroup(h), h)
  {
  }

  lemma AcceptKeepsInv(y: Table, leg: Leg, h: Header)
    requires Inv(y) && leg !in y.legs && ValidHeader(h)
    ensures var (z, n) := Found(y.(legs := y.legs[leg := h]), h);
      n < |z.heap| && (Accepts(z.heap[n], h) ==> Inv(Filed(z, leg, h, n)))
  {
    var x := y.(legs := y.legs[leg := h]);
    NewLegKeepsPlaces(y, leg, h);
    FoundKeepsObjects(x, h);
    FoundKeepsPlaces(x, h);
    NewLegWaits(y, leg, h);
    var (z, n) := Found(x, h);
    if Accepts(z.heap[n], h) { FileKeepsInv(z, leg, h, n); }
  }

  lemma AddLegKeepsInv(y: Table, leg: Leg, h: Header)
    requires Inv(y) && leg !in y.legs
    ensures Inv(AddLegSpec(y, leg, h))
  {
    RejectKeepsInv(y, leg, h);
    if ValidHeader(h) {
      NewGroupAccepts(h);
      AcceptKeepsInv(y, leg, h);
    }
  }

  lemma StepKeepsInv(y: Table, e: Event)
    requires Inv(y)
    ensures Inv(Step(y, e))
  {
    match e
    case Arrive(leg, h) => if leg !in y.legs { AddLegKeepsInv(y, leg, h); }
    case Timer(n) => AbortKeepsInv(y, n);
    case DropAll => DropAllKeepsInv(y);
    case CloseDropped(n) => CloseKeepsInv(y, n);
  }

  lemma {:induction false} RunKeepsInv(es: seq<Event>)
    ensures Inv(Run(Fresh(), es))
    decreases |es|
  {
    if es != [] {
      RunKeepsInv(es[..|es| - 1]);
      StepKeepsInv(Run(Fresh(), es[..|es| - 1]), es[|es| - 1]);
    }
  }

  // ---------------------------------------------------------------------------
  // What every run keeps
  // ---------------------------------------------------------------------------

  predicate Holds(y: Table, n: nat, l: Leg) { n < |y.heap| && Some(l) in y.heap[n].streams }

  /** l sits in an object of the given kind: pending, delivered, or given up and not closed. */
  ghost predicate IsPending(y: Table, l: Leg) { exists n :: Pending(y, n) && Holds(y, n, l) }

  ghost predicate IsDelivered(y: Table, l: Leg) { exists n :: n in y.delivered && Holds(y, n, l) }

  ghost predicate IsClosing(y: Table, l: Leg) { exists n :: n in y.closing && Holds(y, n, l) }

  function One(b: bool): nat { if b then 1 else 0 }

  lemma HomeIsOnly(y: Table, n: nat, l: Leg)
    requires Inv(y) && Holds(y, n, l)
    ensures l in y.home && y.home[l] == n
  {
    var k :| 0 <= k < |y.heap[n].streams| && y.heap[n].streams[k] == Some(l);
    assert AtHome(y.heap[n], y.legs, y.home, l, n, k);
  }

  /** Every leg that ever arrived, whatever its header, is in exactly one place: pending,
      delivered, closed (once), or in a group given up whose legs are being closed. */
  lemma EveryLegInOnePlace(es: seq<Event>, l: Leg)
    requires l in Run(Fresh(), es).legs
    ensures var y := Run(Fresh(), es);
      One(IsPending(y, l)) + One(IsDelivered(y, l)) + One(IsClosing(y, l)) + y.closed[l] == 1
  {
    RunKeepsInv(es);
    OnePlace(Run(Fresh(), es), l);
  }

  lemma OnePlace(y: Table, l: Leg)
    requires Inv(y) && l in y.legs
    ensures One(IsPending(y, l)) + One(IsDelivered(y, l)) + One(IsClosing(y, l)) + y.closed[l] == 1
  {
    forall n | Holds(y, n, l) ensures l in y.home && y.home[l] == n { HomeIsOnly(y, n, l); }
    if l in y.home {
      var n := y.home[l];
      assert Holds(y, n, l);
      assert y.delivered[n] + y.dropped[n] == if Pending(y, n) then 0 else 1;
    }
  }

  /** Slot k of object n has a leg announced for that slot of that group, of the kind,
      promoted flow, shape and destination the group has. */
  predicate Filled(y: Table, n: nat, k: nat)
    requires n < |y.heap| && k < |y.heap[n].streams|
  {
    && y.heap[n].streams[k].Some?
    && y.heap[n].streams[k].value in y.legs
    && var g, h := y.heap[n], y.legs[y.heap[n].streams[k].value];
       && h.group == g.id && h.index == k
       && h.kind == g.kind && (h.kind == Promote ==> h.flow == g.flow)
       && h.total == |g.streams| && h.parity == g.parity && h.addr == g.addr
  }

  /** A delivered group has a fitting leg in every one of its slots. */
  lemma DeliveredIsWhole(es: seq<Event>, n: nat)
    requires n in Run(Fresh(), es).delivered
    ensures var y := Run(Fresh(), es);
      n < |y.heap| && forall k :: 0 <= k < |y.heap[n].streams| ==> Filled(y, n, k)
  {
    RunKeepsInv(es);
    var y := Run(Fresh(), es);
    assert y.delivered[n] > 0;
    forall k | 0 <= k < |y.heap[n].streams| ensures Filled(y, n, k) {
      NoneEmpty(y.heap[n].streams, k);
      assert AtHome(y.heap[n], y.legs, y.home, y.heap[n].streams[k].value, n, k);
    }
  }

  /** Every group object ever made is pending, or was completed or given up exactly once;
      and a timer that comes after that changes nothing, even when its number is in use
      again. */
  lemma GroupEndsOnce(es: seq<Event>, n: nat)
    requires n < |Run(Fresh(), es).heap|
    ensures var y := Run(Fresh(), es);
      && y.delivered[n] + y.dropped[n] + One(Pending(y, n)) == 1
      && (n in y.delivered || n in y.dropped ==> Step(y, Timer(n)) == y)
  {
    RunKeepsInv(es);
  }

  /** A rejected leg leaves every group, pending or not, as it was. */
  lemma RejectionTouchesNothing(es: seq<Event>, leg: Leg, h: Header)
    requires leg !in Run(Fresh(), es).legs
    ensures var y := Run(Fresh(), es); var z := Step(y, Arrive(leg, h));
      leg in z.closed ==> z == Rejected(y.(legs := y.legs[leg := h]), leg)
  {
    RunKeepsInv(es);
    NewLegIsNowhere(Run(Fresh(), es), leg, h);
  }

  lemma NewLegIsNowhere(y: Table, leg: Leg, h: Header)
    requires Inv(y) && leg !in y.legs
    ensures leg in AddLegSpec(y, leg, h).closed ==>
      AddLegSpec(y, leg, h) == Rejected(y.(legs := y.legs[leg := h]), leg)
  {
    assert y.closed[leg] == 0;
    if ValidHeader(h) { NewGroupAccepts(h); }
  }

  // ---------------------------------------------------------------------------
  // What is filed, and what is delivered
  // ---------------------------------------------------------------------------

  /** In every run an arriving leg is kept if and only if its header is sound and there is no
      group of its number yet, or it is of that group's kind, promoted flow, shape and
      destination and its slot is free; else it is closed. */
  lemma FiledExactlyWhen(es: seq<Event>, leg: Leg, h: Header)
    requires leg !in Run(Fresh(), es).legs
    ensures var y := Run(Fresh(), es); var z := Step(y, Arrive(leg, h));
      && (leg in z.home <==> leg !in z.closed)
      && (leg in z.home <==>
            && 0 < h.total && h.index < h.total && h.parity < h.total
            && (h.group in y.table ==>
                  y.table[h.group] < |y.heap| && var g := y.heap[y.table[h.group]];
                  && g.kind == h.kind && (h.kind == Promote ==> g.flow == h.flow)
                  && |g.streams| == h.total && g.parity == h.parity && g.addr == h.addr
                  && g.streams[h.index] == None))
  {
    RunKeepsInv(es);
    FiledWhen(Run(Fresh(), es), leg, h);
  }

  lemma FiledWhen(y: Table, leg: Leg, h: Header)
    requires Inv(y) && leg !in y.legs
    ensures var z := AddLegSpec(y, leg, h);
      && (leg in z.home <==> leg !in z.closed)
      && (leg in z.home <==>
            && 0 < h.total && h.index < h.total && h.parity < h.total
            && (h.group in y.table ==>
                  y.table[h.group] < |y.heap| && var g := y.heap[y.table[h.group]];
                  && g.kind == h.kind && (h.kind == Promote ==> g.flow == h.flow)
                  && |g.streams| == h.total && g.parity == h.parity && g.addr == h.addr
                  && g.streams[h.index] == None))
  {
    assert y.closed[leg] == 0 && leg !in y.home;
    if h.total != 0 && h.index < h.total && h.parity < h.total && h.group !in y.table { NewGroupAccepts(h); }
  }

  /** The headers of one group: alike but for their index, sound, and one for each index. */
  predicate OneGroup(hs: seq<Header>) {
    && (forall k :: 0 <= k < |hs| ==>
          hs[k] == hs[0].(index := hs[k].index) && hs[k].index < hs[k].total && hs[k].parity < hs[k].total && hs[k].total == |hs|)
    && (forall i, j :: 0 <= i < j < |hs| ==> hs[i].index != hs[j].index)
  }

  /** The first k of the legs have arrived. */
  function ArriveAll(y: Table, legs: seq<Leg>, hs: seq<Header>, k: nat): Table
    requires k <= |legs| == |hs|
  {
    if k == 0 then y else Step(ArriveAll(y, legs, hs, k - 1), Arrive(legs[k - 1], hs[k - 1]))
  }

  /** k of the legs are in their slots of the object n, which nobody else touched. */
  predicate Assembling(y: Table, n: nat, legs: seq<Leg>, hs: seq<Header>, k: nat)
    requires k <= |legs| == |hs|
  {
    && n < |y.heap| && k > 0 && OneGroup(hs)
    && |y.heap[n].streams| == |hs| && y.heap[n].remaining == |hs| - k
    && y.heap[n].kind == hs[0].kind && y.heap[n].flow == hs[0].flow && y.heap[n].parity == hs[0].parity && y.heap[n].addr == hs[0].addr
    && (forall j :: 0 <= j < k ==> y.heap[n].streams[hs[j].index] == Some(legs[j]))
    && (forall j :: k <= j < |hs| ==> y.heap[n].streams[hs[j].index] == None)
    && (if k < |hs| then hs[0].group in y.table && y.table[hs[0].group] == n else n in y.delivered)
    && (forall j :: k <= j < |legs| ==> legs[j] !in y.legs)
  }

  lemma FirstLegAssembles(y: Table, legs: seq<Leg>, hs: seq<Header>)
    requires |legs| == |hs| > 0 && OneGroup(hs) && hs[0].group !in y.table
    requires (forall i, j :: 0 <= i < j < |legs| ==> legs[i] != legs[j]) && forall j :: 0 <= j < |legs| ==> legs[j] !in y.legs
    ensures Assembling(Step(y, Arrive(legs[0], hs[0])), |y.heap|, legs, hs, 1)
  {
    var h := hs[0];
    assert h.index < h.total && h.parity < h.total && h.total == |hs|;
    NewGroupAccepts(h);
    var g := File(NewGroup(h), legs[0], h);
    forall j | 1 <= j < |hs| ensures g.streams[hs[j].index] == None { assert hs[j].index != hs[0].index; }
  }

  lemma NextLegAssembles(y: Table, n: nat, legs: seq<Leg>, hs: seq<Header>, k: nat)
    requires |legs| == |hs| && 0 < k < |hs| && Assembling(y, n, legs, hs, k)
    requires forall i, j :: 0 <= i < j < |legs| ==> legs[i] != legs[j]
    ensures Assembling(Step(y, Arrive(legs[k], hs[k])), n, legs, hs, k + 1)
  {
    var h := hs[k];
    assert h == hs[0].(index := h.index) && h.index < h.total && h.parity < h.total;
    assert Accepts(y.heap[n], h);
    forall j | 0 <= j < |hs| && j != k ensures hs[j].index != h.index && hs[j].index < |hs| {
      assert hs[if j < k then j else k].index != hs[if j < k then k else j].index;
    }
  }

  lemma {:induction false} LegsAssemble(y: Table, legs: seq<Leg>, hs: seq<Header>, k: nat)
    requires |legs| == |hs| && 0 < k <= |hs| && OneGroup(hs) && hs[0].group !in y.table
    requires (forall i, j :: 0 <= i < j < |legs| ==> legs[i] != legs[j]) && forall j :: 0 <= j < |legs| ==> legs[j] !in y.legs
    ensures Assembling(ArriveAll(y, legs, hs, k), |y.heap|, legs, hs, k)
    decreases k
  {
    if k == 1 {
      assert ArriveAll(y, legs, hs, 0) == y;
      FirstLegAssembles(y, legs, hs);
    } else {
      LegsAssemble(y, legs, hs, k - 1);
      NextLegAssembles(ArriveAll(y, legs, hs, k - 1), |y.heap|, legs, hs, k - 1);
    }
  }

  /** A group's legs make a flow in whatever order they come: once all have arrived the group
      is delivered, with each leg in the slot it was announced for. */
  lemma AnyOrderDelivers(es: seq<Event>, legs: seq<Leg>, hs: seq<Header>)
    requires |legs| == |hs| > 0 && OneGroup(hs) && hs[0].group !in Run(Fresh(), es).table
    requires forall i, j :: 0 <= i < j < |legs| ==> legs[i] != legs[j]
    requires forall j :: 0 <= j < |legs| ==> legs[j] !in Run(Fresh(), es).legs
    ensures var y := Run(Fresh(), es); var z := ArriveAll(y, legs, hs, |legs|); var n := |y.heap|;
      && n < |z.heap| && n in z.delivered && |z.heap[n].streams| == |hs|
      && forall j :: 0 <= j < |hs| ==> hs[j].index < |hs| && z.heap[n].streams[hs[j].index] == Some(legs[j])
  {
    LegsAssemble(Run(Fresh(), es), legs, hs, |legs|);
  }

  lemma ClosedHasLegs(y: Table, n: nat, l: Leg)
    requires Places(y) && n < |y.heap| && n in y.closing && Some(l) in y.heap[n].streams
    ensures l in CloseSpec(y, n).closed
  {
    SlotsDistinct(y, n);
    LegsOfCounts(y.heap[n].streams, l);
  }

  /** A timer that finds its group pending gives the group up, and every leg in it is closed. */
  lemma TimeoutCloses(es: seq<Event>, n: nat, l: Leg)
    requires var y := Run(Fresh(), es); n < |y.heap| && y.heap[n].id in y.table && y.table[y.heap[n].id] == n
    requires Some(l) in Run(Fresh(), es).heap[n].streams
    ensures var y := Run(Fresh(), es);
      y.heap[n].id !in Step(y, Timer(n)).table && l in Step(Step(y, Timer(n)), CloseDropped(n)).closed
  {
    PlacesInRun(es);
    TimeoutClosesIn(Run(Fresh(), es), n, l);
  }

  lemma PlacesInRun(es: seq<Event>)
    ensures Places(Run(Fresh(), es))
  {
    RunKeepsInv(es);
  }

  lemma TimeoutClosesIn(y: Table, n: nat, l: Leg)
    requires Places(y) && Pending(y, n) && Some(l) in y.heap[n].streams
    ensures y.heap[n].id !in Step(y, Timer(n)).table && l in Step(Step(y, Timer(n)), CloseDropped(n)).closed
  {
    ClosedHasLegs(AbortSpec(y, n), n, l);
  }

  lemma RestartClosesIn(y: Table, n: nat, l: Leg)
    requires Places(y) && Pending(y, n) && Some(l) in y.heap[n].streams
    ensures Step(y, DropAll).table == map[] && l in Step(Step(y, DropAll), CloseDropped(n)).closed
  {
    assert n in y.table.Values;
    ClosedHasLegs(DropAllSpec(y), n, l);
  }

  /** A restart does so to all of them. */
  lemma RestartCloses(es: seq<Event>, n: nat, l: Leg)
    requires var y := Run(Fresh(), es); n < |y.heap| && y.heap[n].id in y.table && y.table[y.heap[n].id] == n
    requires Some(l) in Run(Fresh(), es).heap[n].streams
    ensures var y := Run(Fresh(), es);
      Step(y, DropAll).table == map[] && l in Step(Step(y, DropAll), CloseDropped(n)).closed
  {
    PlacesInRun(es);
    RestartClosesIn(Run(Fresh(), es), n, l);
  }
}
