/** Placing plain flows: an opener reserves the live session with the lowest score, opens
    its stream with no lock held, and drops the reservation when the open returns. */
module Placement {

  import opened Wrappers
  import opened Numbers

  /** What a session costs per stream: its round trip time with its age and slowness
      charges, fixed here and positive. */
  type Weight = w: real | 0.0 < w witness 1.0

  datatype Leg = Leg(weight: Weight, live: bool, streams: nat, pending: nat)

  function Load(l: Leg): nat { l.streams + l.pending }

  /** What n streams cost on this session. */
  function Cost(n: nat, w: Weight): real { n as real * w }

  function Score(l: Leg): real { Cost(Load(l) + 1, l.weight) }

  predicate Eligible(legs: seq<Leg>, tried: set<nat>, i: nat) { i < |legs| && legs[i].live && i !in tried }

  /** b is the first of the eligible sessions below n with the lowest score. */
  predicate BestBelow(legs: seq<Leg>, tried: set<nat>, n: nat, b: nat)
    requires n <= |legs|
  {
    && b < n && Eligible(legs, tried, b)
    && forall i :: 0 <= i < n && Eligible(legs, tried, i) ==>
         (Score(legs[b]) <= Score(legs[i]) && (i < b ==> Score(legs[b]) < Score(legs[i])))
  }

  predicate IsBest(legs: seq<Leg>, tried: set<nat>, b: nat) { BestBelow(legs, tried, |legs|, b) }

  /** The best of the first n sessions, if any is eligible. */
  function Best(legs: seq<Leg>, tried: set<nat>, n: nat): (b: Option<nat>)
    requires n <= |legs|
    ensures b == None <==> forall i :: 0 <= i < n ==> !Eligible(legs, tried, i)
    ensures b.Some? ==> BestBelow(legs, tried, n, b.value)
  {
    if n == 0 then None
    else
      var c := Best(legs, tried, n - 1);
      if !Eligible(legs, tried, n - 1) then c
      else if c == None || Score(legs[n - 1]) < Score(legs[c.value]) then Some(n - 1)
      else c
  }

  function LiveCount(legs: seq<Leg>): nat
    decreases |legs|
  {
    if legs == [] then 0 else LiveCount(legs[..|legs| - 1]) + if legs[|legs| - 1].live then 1 else 0
  }

  lemma {:induction false} LiveCountCounts(legs: seq<Leg>)
    ensures LiveCount(legs) == |set i | 0 <= i < |legs| && legs[i].live|
    decreases |legs|
  {
    if legs != [] {
      var n := |legs| - 1;
      LiveCountCounts(legs[..n]);
      var before := set i | 0 <= i < n && legs[..n][i].live;
      assert (set i | 0 <= i < |legs| && legs[i].live) == before + if legs[n].live then {n} else {};
    }
  }

  function Reserved(legs: seq<Leg>, b: nat): seq<Leg>
    requires b < |legs|
  {
    legs[b := legs[b].(pending := legs[b].pending + 1)]
  }

  predicate Increasing(s: seq<nat>) { forall i, j :: 0 <= i < j < |s| ==> s[i] < s[j] }

  /** avail lists the eligible sessions below n in order. */
  ghost predicate Lists(legs: seq<Leg>, tried: set<nat>, n: nat, avail: seq<nat>) {
    && Increasing(avail)
    && (forall j :: 0 <= j < |avail| ==> avail[j] < n && Eligible(legs, tried, avail[j]))
    && (forall i: nat :: i < n && Eligible(legs, tried, i) ==> i in avail)
  }

  /** b is the first of the first n entries of avail with the lowest score. */
  ghost predicate Leads(legs: seq<Leg>, avail: seq<nat>, n: nat, b: nat)
    requires n <= |avail| && forall j :: 0 <= j < |avail| ==> avail[j] < |legs|
  {
    && b < |legs| && (exists j :: 0 <= j < n && avail[j] == b)
    && (forall j :: 0 <= j < n ==> Score(legs[b]) <= Score(legs[avail[j]]))
    && (forall j :: 0 <= j < n && avail[j] < b ==> Score(legs[b]) < Score(legs[avail[j]]))
  }

  lemma LeadsOn(legs: seq<Leg>, avail: seq<nat>, n: nat, b: nat)
    requires n < |avail| && Increasing(avail) && (forall j :: 0 <= j < |avail| ==> avail[j] < |legs|) && Leads(legs, avail, n, b)
    ensures Leads(legs, avail, n + 1, if Score(legs[avail[n]]) < Score(legs[b]) then avail[n] else b)
  {
  }

  lemma LeaderInProducts(legs: seq<Leg>, avail: seq<nat>, b: nat)
    requires (forall j :: 0 <= j < |avail| ==> avail[j] < |legs|) && Leads(legs, avail, |avail|, b)
    ensures b in avail && forall j :: 0 <= j < |avail| ==>
      var mine := (Load(legs[b]) + 1) as real * legs[b].weight;
      var other := (Load(legs[avail[j]]) + 1) as real * legs[avail[j]].weight;
      mine <= other && (avail[j] < b ==> mine < other)
  {
  }

  lemma LeaderIsBest(legs: seq<Leg>, tried: set<nat>, avail: seq<nat>, b: nat)
    requires Lists(legs, tried, |legs|, avail) && Leads(legs, avail, |avail|, b)
    ensures IsBest(legs, tried, b)
  {
  }

  class Pool {
    var legs: seq<Leg>

    /** The live sessions not in tried, in registry order, and how many live ones there are. */
    method Available(tried: set<nat>) returns (avail: seq<nat>, live: nat)
      ensures Lists(legs, tried, |legs|, avail) && live == LiveCount(legs)
      ensures live == |set i | 0 <= i < |legs| && legs[i].live|
      ensures forall i: nat :: i in avail <==> i < |legs| && legs[i].live && i !in tried
    {
      LiveCountCounts(legs);
      avail, live := [], 0;
      var k := 0;
      while k < |legs|
        invariant 0 <= k <= |legs|
        invariant live == LiveCount(legs[..k])
        invariant Lists(legs, tried, k, avail)
      {
        assert legs[..k + 1][..k] == legs[..k];
        if legs[k].live {
          live := live + 1;
          if k !in tried { avail := avail + [k]; }
        }
        k := k + 1;
      }
      assert legs[..k] == legs;
    }

    method Lowest(avail: seq<nat>) returns (b: nat)
      requires avail != [] && Increasing(avail) && forall j :: 0 <= j < |avail| ==> avail[j] < |legs|
      ensures Leads(legs, avail, |avail|, b)
      ensures b in avail && b < |legs| && forall j :: 0 <= j < |avail| ==>
        var mine := (Load(legs[b]) + 1) as real * legs[b].weight;
        var other := (Load(legs[avail[j]]) + 1) as real * legs[avail[j]].weight;
        mine <= other && (avail[j] < b ==> mine < other)
    {
      b := avail[0];
      var n := 1;
      while n < |avail|
        invariant 1 <= n <= |avail| && Leads(legs, avail, n, b)
      {
        LeadsOn(legs, avail, n, b);
        if Score(legs[avail[n]]) < Score(legs[b]) { b := avail[n]; }
        n := n + 1;
      }
      LeaderInProducts(legs, avail, b);
    }

    /** Picks and reserves the first live session with the lowest score not in tried; with
        none left, says how many live ones there were. */
    method ReservePlainLeg(tried: set<nat>) returns (best: Option<nat>, live: nat)
      modifies this
      ensures live == |set i | 0 <= i < |old(legs)| && old(legs)[i].live|
      ensures best == None <==> forall i: nat :: i < |old(legs)| && old(legs)[i].live ==> i in tried
      ensures best.Some? ==> IsBest(old(legs), tried, best.value)
      ensures best.Some? ==> best.value < |old(legs)| && old(legs)[best.value].live && best.value !in tried
      ensures best.Some? ==> forall i: nat :: i < |old(legs)| && old(legs)[i].live && i !in tried ==>
        var mine := (old(legs)[best.value].streams + old(legs)[best.value].pending + 1) as real * old(legs)[best.value].weight;
        var other := (old(legs)[i].streams + old(legs)[i].pending + 1) as real * old(legs)[i].weight;
        mine <= other && (i < best.value ==> mine < other)
      ensures best == None ==> legs == old(legs)
      ensures best.Some? ==>
        legs == old(legs)[best.value := old(legs)[best.value].(pending := old(legs)[best.value].pending + 1)]
    {
      var avail;
      avail, live := Available(tried);
      if |avail| == 0 { return None, live; }
      var b := Lowest(avail);
      LeaderIsBest(legs, tried, avail, b);
      legs := legs[b := legs[b].(pending := legs[b].pending + 1)];
      best := Some(b);
    }

    /** Drops a reservation: the open returned. */
    method ReleasePlainLeg(i: nat)
      requires i < |legs| && legs[i].pending > 0
      modifies this
      ensures legs == old(legs)[i := old(legs)[i].(pending := old(legs)[i].pending - 1)]
    {
      legs := legs[i := legs[i].(pending := legs[i].pending - 1)];
    }
  }

  // ---------------------------------------------------------------------------
  // Openers
  // ---------------------------------------------------------------------------

  /** `at` is the session an open is in flight on; `attempts` are the sessions the opener
      has reserved, in order; it is `done` once it returned. */
  datatype Opener = Opener(avoid: set<nat>, tried: set<nat>, at: Option<nat>, attempts: seq<nat>, done: bool)

  datatype Sys = Sys(legs: seq<Leg>, openers: seq<Opener>)

  datatype Event =
    | Join(weight: Weight)          // a session is registered
    | Die(i: nat)                   // a session closes
    | End(i: nat)                   // a stream on a session ends
    | Begin(avoid: set<nat>)        // somebody wants a stream
    | Reserve(k: nat)
    | Opened(k: nat)
    | Failed(k: nat)

  function ReserveStep(y: Sys, k: nat): Sys
    requires k < |y.openers|
  {
    var o := y.openers[k];
    match Best(y.legs, o.tried, |y.legs|)
    case None => y.(openers := y.openers[k := o.(done := true)])
    case Some(b) =>
      y.(legs := Reserved(y.legs, b),
         openers := y.openers[k := o.(at := Some(b), attempts := o.attempts + [b])])
  }

  /** The open on leg i returned; what was a reservation becomes a stream, or nothing. */
  function Returned(l: Leg, ok: bool): Leg {
    l.(pending := if l.pending == 0 then 0 else l.pending - 1, streams := l.streams + if ok then 1 else 0)
  }

  function ReturnStep(y: Sys, k: nat, ok: bool): Sys
    requires k < |y.openers| && y.openers[k].at.Some?
  {
    var o := y.openers[k];
    var i := o.at.value;
    if i >= |y.legs| then y
    else
      Sys(y.legs[i := Returned(y.legs[i], ok)],
          y.openers[k := o.(at := None, done := ok, tried := if ok then o.tried else o.tried + {i})])
  }

  function Step(y: Sys, e: Event): Sys {
    match e
    case Join(w) => y.(legs := y.legs + [Leg(w, true, 0, 0)])
    case Die(i) => if i < |y.legs| then y.(legs := y.legs[i := y.legs[i].(live := false)]) else y
    case End(i) =>
      if i < |y.legs| && y.legs[i].streams > 0 then
        y.(legs := y.legs[i := y.legs[i].(streams := y.legs[i].streams - 1)])
      else y
    case Begin(avoid) => y.(openers := y.openers + [Opener(avoid, avoid, None, [], false)])
    case Reserve(k) =>
      if k < |y.openers| && y.openers[k].at == None && !y.openers[k].done then ReserveStep(y, k) else y
    case Opened(k) => if k < |y.openers| && y.openers[k].at.Some? then ReturnStep(y, k, true) else y
    case Failed(k) => if k < |y.openers| && y.openers[k].at.Some? then ReturnStep(y, k, false) else y
  }

  function Run(y: Sys, es: seq<Event>): Sys
    decreases |es|
  {
    if es == [] then y else Step(Run(y, es[..|es| - 1]), es[|es| - 1])
  }

  // Openers in flight

  function InFlight(os: seq<Opener>, i: nat): nat
    decreases |os|
  {
    if os == [] then 0 else InFlight(os[..|os| - 1], i) + At(os[|os| - 1], i)
  }

  function At(o: Opener, i: nat): nat { if o.at == Some(i) then 1 else 0 }

  lemma {:induction false} InFlightUpdate(os: seq<Opener>, k: nat, o: Opener, i: nat)
    requires k < |os|
    ensures InFlight(os[k := o], i) == InFlight(os, i) - At(os[k], i) + At(o, i)
    decreases |os|
  {
    var n := |os| - 1;
    if k == n {
      assert os[k := o][..n] == os[..n];
    } else {
      assert os[k := o][..n] == os[..n][k := o];
      InFlightUpdate(os[..n], k, o, i);
    }
  }

  lemma InFlightAppend(os: seq<Opener>, o: Opener, i: nat)
    ensures InFlight(os + [o], i) == InFlight(os, i) + At(o, i)
  {
    assert (os + [o])[..|os|] == os;
  }

  predicate Distinct(s: seq<nat>) { forall i, j :: 0 <= i < j < |s| ==> s[i] != s[j] }

  /** tried are the sessions to avoid and the attempts that failed; the one in flight or
      successful is the last attempt and is none of them. */
  predicate OpenerInv(o: Opener, n: nat) {
    && Distinct(o.attempts)
    && (forall i :: i in o.attempts ==> i < n && i !in o.avoid)
    && o.avoid <= o.tried
    && (o.at == None && !o.done ==> forall i :: i in o.attempts ==> i in o.tried)
    && (o.at.Some? ==>
          && o.at.value < n && !o.done
          && o.attempts != [] && o.attempts[|o.attempts| - 1] == o.at.value
          && forall j :: 0 <= j < |o.attempts| - 1 ==> o.attempts[j] in o.tried)
  }

  predicate Inv(y: Sys) {
    && (forall i :: 0 <= i < |y.legs| ==> y.legs[i].pending == InFlight(y.openers, i))
    && (forall k :: 0 <= k < |y.openers| ==> OpenerInv(y.openers[k], |y.legs|))
  }

  lemma InFlightCounts(os: seq<Opener>, k: nat, i: nat)
    requires k < |os| && os[k].at == Some(i)
    ensures InFlight(os, i) >= 1
  {
    InFlightUpdate(os, k, os[k].(at := None), i);
  }

  /** No opener points past the registry. */
  lemma {:induction false} NoneBeyond(os: seq<Opener>, i: nat)
    requires forall k :: 0 <= k < |os| ==> os[k].at != Some(i)
    ensures InFlight(os, i) == 0
    decreases |os|
  {
    if os != [] { NoneBeyond(os[..|os| - 1], i); }
  }

  lemma ReserveKeepsInv(y: Sys, k: nat)
    requires Inv(y) && k < |y.openers| && y.openers[k].at == None && !y.openers[k].done
    ensures Inv(ReserveStep(y, k))
  {
    var o := y.openers[k];
    var z := ReserveStep(y, k);
    assert y.legs[..|y.legs|] == y.legs;
    forall i | 0 <= i < |z.legs| ensures z.legs[i].pending == InFlight(z.openers, i) {
      InFlightUpdate(y.openers, k, z.openers[k], i);
    }
    ReserveKeepsOpener(o, z.openers[k], y.legs);
  }

  lemma ReserveKeepsOpener(o: Opener, p: Opener, legs: seq<Leg>)
    requires OpenerInv(o, |legs|) && o.at == None && !o.done
    requires
      || p == o.(done := true)
      || exists b: nat :: Eligible(legs, o.tried, b) && p == o.(at := Some(b), attempts := o.attempts + [b])
    ensures OpenerInv(p, |legs|)
  {
    if p != o.(done := true) {
      var b: nat :| Eligible(legs, o.tried, b) && p == o.(at := Some(b), attempts := o.attempts + [b]);
      assert b !in o.attempts;
    }
  }

  lemma ReturnKeepsInv(y: Sys, k: nat, ok: bool)
    requires Inv(y) && k < |y.openers| && y.openers[k].at.Some?
    ensures Inv(ReturnStep(y, k, ok))
  {
    var o := y.openers[k];
    var z := ReturnStep(y, k, ok);
    assert o.at.value in o.attempts;
    InFlightCounts(y.openers, k, o.at.value);
    forall i | 0 <= i < |z.legs| ensures z.legs[i].pending == InFlight(z.openers, i) {
      InFlightUpdate(y.openers, k, z.openers[k], i);
    }
    forall i | i in o.attempts ensures !ok ==> i in o.tried + {o.at.value} {
      var j :| 0 <= j < |o.attempts| && o.attempts[j] == i;
    }
  }

  lemma StepKeepsInv(y: Sys, e: Event)
    requires Inv(y)
    ensures Inv(Step(y, e))
  {
    match e
    case Join(w) => JoinKeepsInv(y, w);
    case Begin(avoid) => BeginKeepsInv(y, avoid);
    case Reserve(k) =>
      if k < |y.openers| && y.openers[k].at == None && !y.openers[k].done { ReserveKeepsInv(y, k); }
    case Opened(k) => if k < |y.openers| && y.openers[k].at.Some? { ReturnKeepsInv(y, k, true); }
    case Failed(k) => if k < |y.openers| && y.openers[k].at.Some? { ReturnKeepsInv(y, k, false); }
    case Die(i) => LegKeepsInv(y, e);
    case End(i) => LegKeepsInv(y, e);
  }

  lemma JoinKeepsInv(y: Sys, w: Weight)
    requires Inv(y)
    ensures Inv(Step(y, Join(w)))
  {
    NoneBeyond(y.openers, |y.legs|);
    forall k | 0 <= k < |y.openers| ensures OpenerInv(y.openers[k], |y.legs| + 1) {
      assert OpenerInv(y.openers[k], |y.legs|);
    }
  }

  lemma BeginKeepsInv(y: Sys, avoid: set<nat>)
    requires Inv(y)
    ensures Inv(Step(y, Begin(avoid)))
  {
    var o := Opener(avoid, avoid, None, [], false);
    assert OpenerInv(o, |y.legs|);
    forall i | 0 <= i < |y.legs| ensures InFlight(y.openers + [o], i) == InFlight(y.openers, i) {
      InFlightAppend(y.openers, o, i);
    }
  }

  lemma LegKeepsInv(y: Sys, e: Event)
    requires Inv(y) && (e.Die? || e.End?)
    ensures Inv(Step(y, e))
  {
  }

  lemma {:induction false} RunKeepsInv(y: Sys, es: seq<Event>)
    requires Inv(y)
    ensures Inv(Run(y, es))
    decreases |es|
  {
    if es != [] {
      RunKeepsInv(y, es[..|es| - 1]);
      StepKeepsInv(Run(y, es[..|es| - 1]), es[|es| - 1]);
    }
  }

  lemma {:induction false} DistinctFits(s: seq<nat>, n: nat)
    requires Distinct(s) && forall i: nat :: i in s ==> i < n
    ensures |s| <= n
    decreases n
  {
    if s != [] {
      assert s[0] in s;
      if n - 1 in s {
        var k :| 0 <= k < |s| && s[k] == n - 1;
        var t := s[..k] + s[k + 1..];
        forall i: nat | i in t ensures i < n - 1 {
          var j :| 0 <= j < |t| && t[j] == i;
          assert t[j] == s[if j < k then j else j + 1];
          assert t[j] in s;
        }
        DistinctFits(t, n - 1);
      } else {
        DistinctFits(s, n - 1);
      }
    }
  }

  /** In every run, with sessions joining and dying and opens failing: the reservations on
      a session are the opens in flight on it, and no opener tries a session twice or one
      it was told to avoid - so it gives up after at most as many attempts as there are
      sessions. */
  lemma ReservationsAreOpensInFlight(es: seq<Event>)
    ensures var y := Run(Sys([], []), es);
      && (forall i :: 0 <= i < |y.legs| ==> y.legs[i].pending == InFlight(y.openers, i))
      && (forall k :: 0 <= k < |y.openers| ==>
            && Distinct(y.openers[k].attempts)
            && |y.openers[k].attempts| <= |y.legs|
            && (forall i :: i in y.openers[k].attempts ==> i !in y.openers[k].avoid))
  {
    RunKeepsInv(Sys([], []), es);
    var y := Run(Sys([], []), es);
    forall k | 0 <= k < |y.openers| ensures |y.openers[k].attempts| <= |y.legs| {
      DistinctFits(y.openers[k].attempts, |y.legs|);
    }
  }

  // ---------------------------------------------------------------------------
  // Bursts
  // ---------------------------------------------------------------------------

  /** In a burst flows only arrive, reserve and get their streams, in any order. */
  predicate InBurst(e: Event) { (e.Begin? && e.avoid == {}) || e.Reserve? || e.Opened? }

  predicate AllLive(legs: seq<Leg>) { forall i :: 0 <= i < |legs| ==> legs[i].live && legs[i].pending == 0 }

  predicate SameSessions(a: seq<Leg>, b: seq<Leg>) {
    |a| == |b| && forall i :: 0 <= i < |a| ==> a[i].weight == b[i].weight && b[i].live && Load(a[i]) <= Load(b[i])
  }

  predicate Fits(legs: seq<Leg>, i: nat, j: nat)
    requires i < |legs| && j < |legs|
  {
    Cost(Load(legs[i]), legs[i].weight) <= Cost(Load(legs[j]) + 1, legs[j].weight)
  }

  /** Every session that got a flow since `was` carries no more, in cost, than any other
      would with one flow more. */
  predicate Spread(was: seq<Leg>, legs: seq<Leg>) {
    && SameSessions(was, legs)
    && forall i, j {:trigger Fits(legs, i, j)} :: 0 <= i < |legs| && 0 <= j < |legs| && Load(legs[i]) > Load(was[i]) ==> Fits(legs, i, j)
  }

  lemma CostGrows(m: nat, n: nat, w: Weight)
    requires m <= n
    ensures Cost(m, w) <= Cost(n, w)
  {
  }

  lemma ReserveKeepsSpread(was: seq<Leg>, legs: seq<Leg>, b: nat)
    requires Spread(was, legs) && IsBest(legs, {}, b)
    ensures Spread(was, Reserved(legs, b))
  {
    var next := Reserved(legs, b);
    forall i, j | 0 <= i < |next| && 0 <= j < |next| && Load(next[i]) > Load(was[i]) ensures Fits(next, i, j) {
      assert Eligible(legs, {}, j);
      CostGrows(Load(legs[j]) + 1, Load(next[j]) + 1, legs[j].weight);
      if i != b { assert Fits(legs, i, j); }
    }
  }

  ghost predicate BurstInv(was: seq<Leg>, y: Sys) {
    && Inv(y) && Spread(was, y.legs)
    && forall k :: 0 <= k < |y.openers| ==> y.openers[k].tried == {}
  }

  lemma ReturnKeepsLoads(y: Sys, k: nat)
    requires Inv(y) && k < |y.openers| && y.openers[k].at.Some?
    ensures var z := ReturnStep(y, k, true);
      |z.legs| == |y.legs| && forall i :: 0 <= i < |y.legs| ==>
        Load(z.legs[i]) == Load(y.legs[i]) && z.legs[i].weight == y.legs[i].weight && z.legs[i].live == y.legs[i].live
  {
    InFlightCounts(y.openers, k, y.openers[k].at.value);
  }

  lemma SameLoadsSpread(was: seq<Leg>, a: seq<Leg>, b: seq<Leg>)
    requires Spread(was, a) && |a| == |b|
    requires forall i :: 0 <= i < |a| ==>
      Load(a[i]) == Load(b[i]) && a[i].weight == b[i].weight && a[i].live == b[i].live
    ensures Spread(was, b)
  {
    forall i, j | 0 <= i < |b| && 0 <= j < |b| && Load(b[i]) > Load(was[i]) ensures Fits(b, i, j) {
      assert Fits(a, i, j);
    }
  }

  lemma StepKeepsBurst(was: seq<Leg>, y: Sys, e: Event)
    requires BurstInv(was, y) && InBurst(e)
    ensures BurstInv(was, Step(y, e))
  {
    StepKeepsInv(y, e);
    match e
    case Reserve(k) =>
      if k < |y.openers| && y.openers[k].at == None && !y.openers[k].done {
        var c := Best(y.legs, {}, |y.legs|);
        if c.Some? { ReserveKeepsSpread(was, y.legs, c.value); }
      }
    case Opened(k) =>
      if k < |y.openers| && y.openers[k].at.Some? {
        ReturnKeepsLoads(y, k);
        SameLoadsSpread(was, y.legs, ReturnStep(y, k, true).legs);
      }
    case _ =>
  }

  lemma {:induction false} RunKeepsBurst(was: seq<Leg>, es: seq<Event>)
    requires AllLive(was) && forall i :: 0 <= i < |es| ==> InBurst(es[i])
    ensures BurstInv(was, Run(Sys(was, []), es))
    decreases |es|
  {
    if es != [] {
      RunKeepsBurst(was, es[..|es| - 1]);
      StepKeepsBurst(was, Run(Sys(was, []), es[..|es| - 1]), es[|es| - 1]);
    }
  }

  /** A burst spreads: from idle sessions, after any number of reservations and whichever
      opens have returned, no session carries more, in cost, than any other would with one
      flow more. From loaded sessions it holds of every session the burst has used. */
  lemma BurstSpreads(was: seq<Leg>, es: seq<Event>, i: nat, j: nat)
    requires AllLive(was) && forall k :: 0 <= k < |es| ==> InBurst(es[k])
    requires i < |was| && j < |was|
    ensures |After(was, es)| == |was|
    ensures After(was, es)[i].weight == was[i].weight && After(was, es)[j].weight == was[j].weight
    ensures Load(After(was, es)[i]) > was[i].streams || was[i].streams == 0 ==>
      Load(After(was, es)[i]) as real * After(was, es)[i].weight <= (Load(After(was, es)[j]) + 1) as real * After(was, es)[j].weight
  {
    AfterIsSpread(was, es);
    SpreadInProducts(was, After(was, es), i, j);
  }

  /** The sessions after the events es, from was with no opener yet. */
  function After(was: seq<Leg>, es: seq<Event>): seq<Leg> { Run(Sys(was, []), es).legs }

  lemma AfterIsSpread(was: seq<Leg>, es: seq<Event>)
    requires AllLive(was) && forall k :: 0 <= k < |es| ==> InBurst(es[k])
    ensures Spread(was, After(was, es))
  {
    RunKeepsBurst(was, es);
  }

  lemma SpreadInProducts(was: seq<Leg>, legs: seq<Leg>, i: nat, j: nat)
    requires AllLive(was) && Spread(was, legs) && i < |legs| && j < |legs|
    ensures Load(legs[i]) > was[i].streams || was[i].streams == 0 ==>
      Load(legs[i]) as real * legs[i].weight <= (Load(legs[j]) + 1) as real * legs[j].weight
  {
    if Load(legs[i]) == 0 { CostGrows(0, Load(legs[j]) + 1, legs[j].weight); }
    assert Load(legs[i]) > was[i].streams ==> Fits(legs, i, j);
  }

  lemma {:induction false} SumMonotone(m: seq<nat>, l: seq<nat>)
    requires |m| == |l| && forall j :: 0 <= j < |m| ==> m[j] <= l[j]
    ensures Sum(m) <= Sum(l)
    ensures Sum(m) == Sum(l) ==> m == l
    decreases |m|
  {
    if m != [] {
      SumMonotone(m[1..], l[1..]);
      assert m == [m[0]] + m[1..] && l == [l[0]] + l[1..];
    }
  }

  function Loads(legs: seq<Leg>): (m: seq<nat>)
    ensures |m| == |legs| && forall i :: 0 <= i < |legs| ==> m[i] == Load(legs[i])
    decreases |legs|
  {
    if legs == [] then [] else Loads(legs[..|legs| - 1]) + [Load(legs[|legs| - 1])]
  }

  /** What the dearest session costs when they carry the loads m. */
  function Peak(legs: seq<Leg>, m: seq<nat>): (c: real)
    requires |m| == |legs|
    decreases |legs|
  {
    if legs == [] then 0.0
    else
      var n := |legs| - 1;
      var c := Peak(legs[..n], m[..n]);
      var d := Cost(m[n], legs[n].weight);
      if n == 0 || c < d then d else c
  }

  /** It is no less than what any of them costs, and what one of them does. */
  lemma {:induction false} PeakCovers(legs: seq<Leg>, m: seq<nat>, i: nat)
    requires |m| == |legs| && i < |legs|
    ensures m[i] as real * legs[i].weight == Cost(m[i], legs[i].weight) <= Peak(legs, m)
    decreases |legs|
  {
    var n := |legs| - 1;
    if i < n { PeakCovers(legs[..n], m[..n], i); }
  }

  lemma {:induction false} PeakIsReached(legs: seq<Leg>, m: seq<nat>) returns (i: nat)
    requires |m| == |legs| && legs != []
    ensures i < |legs| && m[i] as real * legs[i].weight == Cost(m[i], legs[i].weight) == Peak(legs, m)
    decreases |legs|
  {
    var n := |legs| - 1;
    i := n;
    if n > 0 && !(Peak(legs[..n], m[..n]) < Cost(m[n], legs[n].weight)) { i := PeakIsReached(legs[..n], m[..n]); }
  }

  /** Placing flow by flow is as good as any plan made with all flows in view: however the
      same number of flows is spread over the sessions on top of what they carried, the
      dearest session then costs at least as much as it does after the burst. */
  lemma GreedyIsOptimal(was: seq<Leg>, es: seq<Event>, plan: seq<nat>)
    requires AllLive(was) && forall k :: 0 <= k < |es| ==> InBurst(es[k])
    requires |plan| == |was| && forall k :: 0 <= k < |was| ==> Load(was[k]) <= plan[k]
    requires Sum(plan) == Sum(Loads(After(was, es)))
    ensures |After(was, es)| == |was|
    ensures Peak(After(was, es), Loads(After(was, es))) <= Peak(After(was, es), plan)
  {
    AfterIsSpread(was, es);
    PlanPeaks(was, After(was, es), plan);
  }

  lemma PlanPeaks(was: seq<Leg>, legs: seq<Leg>, plan: seq<nat>)
    requires Spread(was, legs) && Sum(plan) == Sum(Loads(legs))
    requires |plan| == |was| && forall k :: 0 <= k < |was| ==> Load(was[k]) <= plan[k]
    ensures Peak(legs, Loads(legs)) <= Peak(legs, plan)
  {
    if legs != [] {
      var i := PeakIsReached(legs, Loads(legs));
      var j := PlanIsNoBetter(was, legs, plan, i);
      PeakCovers(legs, plan, j);
    }
  }

  lemma PlanIsNoBetter(was: seq<Leg>, legs: seq<Leg>, plan: seq<nat>, i: nat) returns (j: nat)
    requires Spread(was, legs)
    requires |plan| == |was| && forall k :: 0 <= k < |was| ==> Load(was[k]) <= plan[k]
    requires Sum(plan) == Sum(Loads(legs)) && i < |was|
    ensures j < |was| && Cost(Load(legs[i]), legs[i].weight) <= Cost(plan[j], legs[j].weight)
  {
    if Load(legs[i]) <= plan[i] {
      j := i;
      CostGrows(Load(legs[i]), plan[i], legs[i].weight);
    } else {
      if forall k :: 0 <= k < |plan| ==> plan[k] <= Loads(legs)[k] {
        SumMonotone(plan, Loads(legs));
        assert false;
      }
      j :| 0 <= j < |plan| && plan[j] > Loads(legs)[j];
      assert Fits(legs, i, j);
      CostGrows(Load(legs[j]) + 1, plan[j], legs[j].weight);
    }
  }

  /** An open that goes through: somebody begins, reserves the first best session, and gets a
      stream on it; the reservation is gone. */
  lemma OpenSucceeds(y: Sys, b: nat)
    requires IsBest(y.legs, {}, b)
    ensures var k := |y.openers|; var z := Step(Step(Step(y, Begin({})), Reserve(k)), Opened(k));
      && z.legs == y.legs[b := y.legs[b].(streams := y.legs[b].streams + 1)]
      && k < |z.openers| && z.openers[k].done && z.openers[k].attempts == [b]
  {
    var k := |y.openers|;
    var y1 := Step(y, Begin({}));
    var c := Best(y.legs, {}, |y.legs|);
    assert c != None by { assert Eligible(y.legs, {}, b); }
    BestIsUnique(y.legs, b, c.value);
    var y2 := Step(y1, Reserve(k));
    assert y2.legs == Reserved(y.legs, b) && y2.openers[k].at == Some(b);
    var y3 := Step(y2, Opened(k));
    assert y3.legs[b] == y.legs[b].(streams := y.legs[b].streams + 1);
  }

  lemma BestIsUnique(legs: seq<Leg>, b: nat, c: nat)
    requires IsBest(legs, {}, b) && IsBest(legs, {}, c)
    ensures b == c
  {
    assert Eligible(legs, {}, b) && Eligible(legs, {}, c);
  }

  /** One that fails leaves the session as it was, and the opener does not try it again. */
  lemma OpenFails(y: Sys, k: nat, i: nat)
    requires Inv(y) && k < |y.openers| && y.openers[k].at == Some(i)
    ensures var z := Step(y, Failed(k));
      && i < |y.legs| && z.legs == y.legs[i := y.legs[i].(pending := z.legs[i].pending)] && z.legs[i].pending + 1 == y.legs[i].pending
      && z.openers[k].at.None? && !z.openers[k].done && z.openers[k].tried == y.openers[k].tried + {i}
  {
    InFlightCounts(y.openers, k, i);
  }

  lemma LegsChange(y: Sys, i: nat)
    requires i < |y.legs|
    ensures !Step(y, Die(i)).legs[i].live && Step(y, Die(i)).legs[i].streams == y.legs[i].streams
    ensures y.legs[i].streams > 0 ==> Step(y, End(i)).legs[i] == y.legs[i].(streams := y.legs[i].streams - 1)
  {
  }
}
