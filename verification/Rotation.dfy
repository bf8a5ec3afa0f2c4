/** Make before break: a rotation takes the decision gate, notes which sessions the pool
    has, and retires its aging session only once a live session outside that note is
    registered. */
module Rotation {

  import opened Wrappers

  type Session = nat

  // ---------------------------------------------------------------------------
  // The registry
  // ---------------------------------------------------------------------------

  predicate Counts(s: Session, old_: Session, seen: set<Session>, closed: set<Session>) {
    s != old_ && s !in closed && s !in seen
  }

  class Pool {
    var sessions: seq<Session>

    constructor ()
      ensures sessions == []
    {
      sessions := [];
    }

    method Register(s: Session)
      modifies this
      ensures sessions == old(sessions) + [s]
    {
      sessions := sessions + [s];
    }

    method Snapshot() returns (seen: set<Session>)
      ensures forall s :: s in seen <==> s in sessions
    {
      seen := {};
      var i := 0;
      while i < |sessions|
        invariant 0 <= i <= |sessions|
        invariant forall s :: s in seen <==> s in sessions[..i]
      {
        seen := seen + {sessions[i]};
        i := i + 1;
      }
      assert sessions[..i] == sessions;
    }

    /** Takes the entry of s out of the registry; the others keep their order. */
    method Unregister(s: Session)
      modifies this
      ensures sessions == Without(old(sessions), s)
    {
      var i := 0;
      while i < |sessions|
        invariant 0 <= i <= |sessions| && sessions == old(sessions)
        invariant s !in sessions[..i]
      {
        if sessions[i] == s {
          WithoutIsOneCut(sessions, s, i);
          sessions := sessions[..i] + sessions[i + 1..];
          return;
        }
        i := i + 1;
      }
      WithoutIsOneCut(sessions, s, i);
    }

    /** Retires old if and only if a live session outside seen, other than old, is
        registered - in the same section. */
    method RetireIfReplaced(old_: Session, seen: set<Session>, closed: set<Session>) returns (r: Option<Session>)
      modifies this
      ensures r.Some? <==> exists s :: s in old(sessions) && s != old_ && s !in closed && s !in seen
      ensures r.Some? ==> r.value in old(sessions) && r.value != old_ && r.value !in closed && r.value !in seen
      ensures r.Some? ==> sessions == Without(old(sessions), old_)
      ensures r.None? ==> sessions == old(sessions)
    {
      var i := 0;
      while i < |sessions|
        invariant 0 <= i <= |sessions| && sessions == old(sessions)
        invariant forall k :: 0 <= k < i ==> !Counts(sessions[k], old_, seen, closed)
      {
        var s := sessions[i];
        if s != old_ && s !in closed && s !in seen {
          assert s in old(sessions) && Counts(s, old_, seen, closed);
          Unregister(old_);
          return Some(s);
        }
        i := i + 1;
      }
      return None;
    }
  }

  function Without(ss: seq<Session>, s: Session): seq<Session> {
    if ss == [] then [] else if ss[0] == s then ss[1..] else [ss[0]] + Without(ss[1..], s)
  }

  lemma {:induction false} WithoutIsOneCut(ss: seq<Session>, s: Session, i: nat)
    requires i <= |ss| && s !in ss[..i]
    ensures i < |ss| && ss[i] == s ==> Without(ss, s) == ss[..i] + ss[i + 1..]
    ensures i == |ss| ==> Without(ss, s) == ss
  {
    if i > 0 {
      assert ss[1..][..i - 1] == ss[..i][1..];
      WithoutIsOneCut(ss[1..], s, i - 1);
      if i < |ss| && ss[i] == s { assert ss[1..][i..] == ss[i + 1..]; }
    }
  }

  // ---------------------------------------------------------------------------
  // Rotations, admissions and closes, interleaved
  // ---------------------------------------------------------------------------

  /** One retirement: who left, against which successor, and what was known, registered
      and closed when it was decided. */
  datatype Retirement = Retirement(
    old_: Session, successor: Session, seen: set<Session>, reg: set<Session>, closed: set<Session>)

  /** `gate` is the session whose rotation holds the decision gate, `seen` its snapshot
      once taken. A session is registered once (`ever`). */
  datatype Sys = Sys(
    reg: set<Session>, closed: set<Session>, ever: set<Session>,
    gate: Option<Session>, seen: Option<set<Session>>, log: seq<Retirement>)

  datatype Event =
    | Admit(s: Session)
    | Close(s: Session)
    | WatchUnregister(s: Session)
    | AcquireGate(old_: Session)
    | Snapshot
    | TryRetire(successor: Session)
    | GiveUp

  function Start(): Sys { Sys({}, {}, {}, None, None, []) }

  function Step(y: Sys, e: Event): Sys {
    match e
    case Admit(s) => if s in y.ever then y else y.(reg := y.reg + {s}, ever := y.ever + {s})
    case Close(s) => y.(closed := y.closed + {s})
    case WatchUnregister(s) => if s in y.closed then y.(reg := y.reg - {s}) else y
    case AcquireGate(o) => if y.gate.None? && o in y.ever then y.(gate := Some(o), seen := None) else y
    case Snapshot => if y.gate.Some? && y.seen.None? then y.(seen := Some(y.reg)) else y
    case TryRetire(s) =>
      if y.gate.Some? && y.seen.Some? && s in y.reg && Counts(s, y.gate.value, y.seen.value, y.closed)
      then y.(reg := y.reg - {y.gate.value}, gate := None, seen := None,
              log := y.log + [Retirement(y.gate.value, s, y.seen.value, y.reg, y.closed)])
      else y
    case GiveUp => y.(gate := None, seen := None)
  }

  function Run(y: Sys, es: seq<Event>): Sys
    decreases |es|
  {
    if es == [] then y else Step(Run(y, es[..|es| - 1]), es[|es| - 1])
  }

  /** A successor that has paid for one retirement is known to every later snapshot, or
      gone for good. */
  predicate Inv(y: Sys) {
    && y.reg <= y.ever
    && (forall i :: 0 <= i < |y.log| ==> y.log[i].successor in y.ever)
    && (y.seen.Some? ==> y.gate.Some? && y.seen.value <= y.ever)
    && (forall i :: 0 <= i < |y.log| && y.seen.Some? ==> (y.log[i].seen + {y.log[i].successor}) * y.reg <= y.seen.value)
    && (forall i :: 0 <= i < |y.log| ==> y.log[i].seen <= y.ever)
    && (forall i :: 0 <= i < |y.log| ==>
        y.log[i].successor in y.log[i].reg && Counts(y.log[i].successor, y.log[i].old_, y.log[i].seen, y.log[i].closed))
    && (forall i, j :: 0 <= i < j < |y.log| ==> y.log[j].successor !in y.log[i].seen + {y.log[i].successor})
  }

  lemma {:induction false} RunKeepsInv(es: seq<Event>)
    ensures Inv(Run(Start(), es))
    decreases |es|
  {
    if es != [] {
      RunKeepsInv(es[..|es| - 1]);
    }
  }

  /** Rotation never spends a replacement twice: every retirement has a successor of its
      own, which was registered and live when it was decided and unknown to its snapshot.
      So there are never more retirements than sessions admitted after the first one's
      snapshot. */
  lemma SuccessorsAreDistinct(es: seq<Event>)
    ensures var y := Run(Start(), es);
      && (forall i, j :: 0 <= i < j < |y.log| ==> y.log[i].successor != y.log[j].successor)
      && (forall i :: 0 <= i < |y.log| ==>
          y.log[i].successor in y.log[i].reg - y.log[i].closed - y.log[i].seen)
      && (y.log != [] ==> |y.log| <= |y.ever - y.log[0].seen|)
  {
    RunKeepsInv(es);
    var y := Run(Start(), es);
    SuccessorsCardinality(y.log);
    if y.log != [] { SubsetCardinality(Successors(y.log), y.ever - y.log[0].seen); }
  }

  function Successors(log: seq<Retirement>): set<Session> {
    set i | 0 <= i < |log| :: log[i].successor
  }

  lemma SuccessorsCardinality(log: seq<Retirement>)
    requires forall i, j :: 0 <= i < j < |log| ==> log[i].successor != log[j].successor
    ensures |Successors(log)| == |log|
  {
    if log != [] {
      var n := |log| - 1;
      SuccessorsCardinality(log[..n]);
      assert Successors(log) == Successors(log[..n]) + {log[n].successor};
    }
  }

  lemma SubsetCardinality<T>(a: set<T>, b: set<T>)
    requires a <= b
    ensures |a| <= |b|
  {
    assert b == a + (b - a);
  }

  /** At each retirement the pool keeps at least as many live sessions as had survived
      from the snapshot: rotation by itself never shrinks it. */
  lemma RotationKeepsCapacity(es: seq<Event>, i: nat)
    requires i < |Run(Start(), es).log|
    ensures var t := Run(Start(), es).log[i];
      |(t.reg - {t.old_}) - t.closed| >= |(t.reg * t.seen) - t.closed|
  {
    RunKeepsInv(es);
    var t := Run(Start(), es).log[i];
    var survivors := (t.reg * t.seen) - t.closed;
    var after := (t.reg - {t.old_}) - t.closed;
    SubsetCardinality((survivors - {t.old_}) + {t.successor}, after);
    assert |(survivors - {t.old_}) + {t.successor}| == |survivors - {t.old_}| + 1;
    if t.old_ in survivors { assert survivors == (survivors - {t.old_}) + {t.old_}; }
    else { assert survivors == survivors - {t.old_}; }
  }

  function Retired(log: seq<Retirement>): set<Session> {
    set i | 0 <= i < |log| :: log[i].old_
  }

  /** Without closes the registry is what was ever admitted less what was retired. */
  lemma {:induction false} OnlyRetired(es: seq<Event>)
    requires forall i :: 0 <= i < |es| ==> !es[i].Close?
    ensures var y := Run(Start(), es); y.closed == {} && y.ever <= y.reg + Retired(y.log)
    decreases |es|
  {
    if es != [] {
      var y, z := Run(Start(), es[..|es| - 1]), Run(Start(), es);
      OnlyRetired(es[..|es| - 1]);
      RetiredGrows(y.log, z.log);
    }
  }

  lemma RetiredGrows(a: seq<Retirement>, b: seq<Retirement>)
    ensures a <= b ==> Retired(a) <= Retired(b)
    ensures |b| == |a| + 1 && a <= b ==> Retired(b) == Retired(a) + {b[|a|].old_}
  {
    if a <= b { assert forall i :: 0 <= i < |a| ==> a[i] == b[i]; }
  }

  lemma {:induction false} RetiredCardinality(log: seq<Retirement>)
    ensures |Retired(log)| <= |log|
    decreases |log|
  {
    if log != [] {
      var n := |log| - 1;
      RetiredCardinality(log[..n]);
      RetiredGrows(log[..n], log);
    }
  }

  /** Over a whole run: as long as no session closes by itself, however many rotations are
      interleaved with admissions, the registry never falls below the size it had at the
      snapshot of the first retirement. */
  lemma RotationNeverShrinksPool(es: seq<Event>)
    requires forall i :: 0 <= i < |es| ==> !es[i].Close?
    ensures var y := Run(Start(), es); y.log != [] ==> |y.reg| >= |y.log[0].seen|
  {
    var y := Run(Start(), es);
    if y.log != [] {
      RunKeepsInv(es);
      SuccessorsAreDistinct(es);
      OnlyRetired(es);
      RetiredCardinality(y.log);
      var seen := y.log[0].seen;
      assert y.ever == seen + (y.ever - seen) && seen !! (y.ever - seen);
      SubsetCardinality(y.ever, y.reg + Retired(y.log));
      assert |y.reg + Retired(y.log)| <= |y.reg| + |Retired(y.log)|;
    }
  }

  /** Rotation does retire: with the gate held and the snapshot taken, a session admitted
      since, and live, lets the old one go at once - and it alone. */
  lemma ReplacementRetires(es: seq<Event>, s: Session)
    requires var y := Run(Start(), es); y.gate.Some? && y.seen.Some? && s !in y.ever && s !in y.closed
    ensures var y := Run(Start(), es); var z := Step(Step(y, Admit(s)), TryRetire(s));
      && z.reg == (y.reg + {s}) - {y.gate.value} && z.gate.None? && |z.log| == |y.log| + 1
      && z.log[|y.log|].old_ == y.gate.value && z.log[|y.log|].successor == s
  {
    RunKeepsGate(es);
    RunKeepsInv(es);
  }

  /** Whose rotation it is was admitted once. */
  lemma {:induction false} RunKeepsGate(es: seq<Event>)
    ensures var y := Run(Start(), es); y.gate.Some? ==> y.gate.value in y.ever
    decreases |es|
  {
    if es != [] { RunKeepsGate(es[..|es| - 1]); }
  }

  /** And nothing else does: with no live session outside the snapshot nobody retires. */
  lemma NothingNewNothingRetired(es: seq<Event>, s: Session)
    requires var y := Run(Start(), es); y.seen.Some? && y.reg - y.closed <= y.seen.value
    ensures Step(Run(Start(), es), TryRetire(s)) == Run(Start(), es)
  {
  }

  /** A whole rotation, from any state with the gate free: taken, noted, replaced, retired. */
  lemma RotationHappens(es: seq<Event>, o: Session, s: Session)
    requires var y := Run(Start(), es); y.gate.None? && o in y.ever && s !in y.ever && s !in y.closed
    ensures var y := Run(Start(), es);
      var z := Step(Step(Step(Step(y, AcquireGate(o)), Snapshot), Admit(s)), TryRetire(s));
      z.reg == (y.reg + {s}) - {o} && z.gate.None? && |z.log| == |y.log| + 1 && z.log[|y.log|].seen == y.reg
  {
    RunKeepsInv(es);
  }

  /** A rotation can be given up, and a closed session leaves the registry. */
  lemma OthersHappen(y: Sys, s: Session)
    ensures Step(y, GiveUp).gate.None? && Step(y, GiveUp).reg == y.reg
    ensures Step(y, Close(s)).closed == y.closed + {s}
    ensures s in y.closed ==> Step(y, WatchUnregister(s)).reg == y.reg - {s}
  {
  }
}
