/** The client's memory of flows it no longer runs or is about to run again, with its
    lazy expiry and periodic sweep, and the at-most-once admission it gives openings.
    Times are seconds on a clock that does not go back. */
module GoneFlows {

  import opened Wrappers
  import opened Numbers

  const GONE_FOR: nat := 2 * 60
  const REOPENED_FOR: nat := 15 * 60
  const SWEEP_EVERY: nat := 1024

  type FlowId = nat

  /** `reopen`: told to the server as never seen, one opening is still expected. */
  datatype Gone = Gone(until: nat, reopen: bool)

  type Memory = map<FlowId, Gone>

  // ---------------------------------------------------------------------------
  // The memory that never forgets an entry, only lets it expire
  // ---------------------------------------------------------------------------

  predicate Remembered(m: Memory, id: FlowId, now: nat) {
    id in m && now <= m[id].until
  }

  function PutSpec(m: Memory, id: FlowId, f: Gone): Memory {
    m[id := if id in m then f.(until := Max(m[id].until, f.until)) else f]
  }

  function FinishedSpec(m: Memory, id: FlowId, now: nat): Memory {
    PutSpec(m, id, Gone(now + GONE_FOR, false))
  }

  function NeverSeenSpec(m: Memory, id: FlowId, now: nat): (Memory, bool) {
    if Remembered(m, id, now) && !m[id].reopen then (m, false)
    else (PutSpec(m, id, Gone(now + REOPENED_FOR, true)), true)
  }

  function AdmitSpec(m: Memory, id: FlowId, now: nat): (Memory, bool) {
    if !Remembered(m, id, now) then (m, true)
    else if !m[id].reopen then (m, false)
    else (PutSpec(m, id, Gone(now + REOPENED_FOR, false)), true)
  }

  /** Two memories hold the same unexpired entries. */
  ghost predicate Same(a: Memory, b: Memory, now: nat) {
    forall id :: (Remembered(a, id, now) || Remembered(b, id, now)) ==>
      Remembered(a, id, now) && Remembered(b, id, now) && a[id] == b[id]
  }

  /** What has expired cannot be told from what was deleted: the three questions get the
      same answer and leave memories that are again the same. */
  lemma ExpiredIsUnobservable(a: Memory, b: Memory, id: FlowId, now: nat)
    requires Same(a, b, now)
    ensures Same(FinishedSpec(a, id, now), FinishedSpec(b, id, now), now)
    ensures NeverSeenSpec(a, id, now).1 == NeverSeenSpec(b, id, now).1
    ensures Same(NeverSeenSpec(a, id, now).0, NeverSeenSpec(b, id, now).0, now)
    ensures AdmitSpec(a, id, now).1 == AdmitSpec(b, id, now).1
    ensures Same(AdmitSpec(a, id, now).0, AdmitSpec(b, id, now).0, now)
  {
    assert Remembered(a, id, now) <==> Remembered(b, id, now);
  }

  // ---------------------------------------------------------------------------
  // The memory the client keeps
  // ---------------------------------------------------------------------------

  class Keeper {
    var m: Memory
    var adds: nat

    constructor ()
      ensures m == map[] && adds == 0
    {
      m, adds := map[], 0;
    }

    method Put(id: FlowId, f: Gone, now: nat)
      requires now <= f.until && adds < SWEEP_EVERY
      modifies this
      ensures adds < SWEEP_EVERY && Same(m, PutSpec(old(m), id, f), now)
      ensures m.Keys <= old(m).Keys + {id}
    {
      var kept := f;
      if id in m && m[id].until > f.until { kept := Gone(m[id].until, f.reopen); }
      m := m[id := kept];
      adds := adds + 1;
      if adds >= SWEEP_EVERY {
        adds := 0;
        Sweep(now);
      }
    }

    /** Deletes the entries that have expired, and no others. */
    method Sweep(now: nat)
      modifies this`m
      ensures forall k :: k in m <==> k in old(m) && now <= old(m)[k].until
      ensures forall k :: k in m ==> m[k] == old(m)[k]
    {
      var keys := m.Keys;
      while keys != {}
        invariant keys <= m.Keys <= old(m).Keys
        invariant forall k :: k in m ==> m[k] == old(m)[k]
        invariant forall k :: k in old(m) && now <= old(m)[k].until ==> k in m
        invariant forall k :: k in m && k !in keys ==> now <= m[k].until
        decreases keys
      {
        var k :| k in keys;
        keys := keys - {k};
        if now > m[k].until { m := m - {k}; }
      }
    }

    method Get(id: FlowId, now: nat) returns (f: Gone, ok: bool)
      modifies this`m
      ensures ok <==> Remembered(old(m), id, now)
      ensures ok ==> f == old(m)[id] && m == old(m)
      ensures !ok ==> m == old(m) - {id}
    {
      if id in m && now <= m[id].until {
        return m[id], true;
      }
      m := m - {id};
      return Gone(0, false), false;
    }

    method Finished(id: FlowId, now: nat)
      requires adds < SWEEP_EVERY
      modifies this
      ensures adds < SWEEP_EVERY && Same(m, FinishedSpec(old(m), id, now), now)
    {
      Put(id, Gone(now + GONE_FOR, false), now);
    }

    method NeverSeen(id: FlowId, now: nat) returns (r: bool)
      requires adds < SWEEP_EVERY
      modifies this
      ensures adds < SWEEP_EVERY && r == NeverSeenSpec(old(m), id, now).1
      ensures r <==> !(id in old(m) && now <= old(m)[id].until && !old(m)[id].reopen)
      ensures r ==> id in m && m[id].reopen && m[id].until >= now + REOPENED_FOR
      ensures Same(m, NeverSeenSpec(old(m), id, now).0, now)
    {
      var f, ok := Get(id, now);
      if ok && !f.reopen { return false; }
      Put(id, Gone(now + REOPENED_FOR, true), now);
      return true;
    }

    method Admit(id: FlowId, now: nat) returns (r: bool)
      requires adds < SWEEP_EVERY
      modifies this
      ensures adds < SWEEP_EVERY && r == AdmitSpec(old(m), id, now).1
      ensures r <==> !(id in old(m) && now <= old(m)[id].until && !old(m)[id].reopen)
      ensures r && id in old(m) && now <= old(m)[id].until ==> id in m && !m[id].reopen && m[id].until >= now + REOPENED_FOR
      ensures Same(m, AdmitSpec(old(m), id, now).0, now)
    {
      var f, ok := Get(id, now);
      if !ok { return true; }
      if !f.reopen { return false; }
      Put(id, Gone(now + REOPENED_FOR, false), now);
      return true;
    }
  }

  // ---------------------------------------------------------------------------
  // Openings, finishes and resume attaches, interleaved
  // ---------------------------------------------------------------------------

  /** One admitted opening; `expected` when it is the one the server was asked for. Once it
      has `ended`, `until` is the expiry then remembered. */
  datatype Admission = Admission(id: FlowId, at: nat, expected: bool, ended: Option<nat>, until: nat)

  /** `looked` are the flows some attach has found not running and not yet acted on: the
      look and the act are separate lock holds. `barred` is, per flow that has run and
      ended, the longest expiry remembered when it ended. */
  datatype Client = Client(
    gone: Memory, running: set<FlowId>, looked: set<FlowId>, now: nat,
    barred: map<FlowId, nat>, log: seq<Admission>)

  datatype Event =
    | Tick(d: nat)
    | Open(id: FlowId)
    | Finish(id: FlowId)
    | AttachLook(id: FlowId)
    | AttachAct(id: FlowId)
    | Purge(ids: set<FlowId>) // lazy deletion and sweeps: any expired entries

  function Start(): Client { Client(map[], {}, {}, 0, map[], []) }

  function Expired(c: Client, ids: set<FlowId>): set<FlowId> {
    set id | id in ids && !Remembered(c.gone, id, c.now)
  }

  /** What a flow's end does to an admission: it ends the one that runs. */
  function End(a: Admission, id: FlowId, now: nat, until: nat): Admission {
    if a.id == id && a.ended.None? then a.(ended := Some(now), until := until) else a
  }

  function EndAll(log: seq<Admission>, id: FlowId, now: nat, until: nat): (r: seq<Admission>)
    ensures |r| == |log| && forall i :: 0 <= i < |log| ==> r[i] == End(log[i], id, now, until)
  {
    if log == [] then [] else [End(log[0], id, now, until)] + EndAll(log[1..], id, now, until)
  }

  function Step(c: Client, e: Event): Client {
    match e
    case Tick(d) => c.(now := c.now + d)
    case Open(id) =>
      var (m, ok) := AdmitSpec(c.gone, id, c.now);
      if id in c.running || !ok then c
      else c.(gone := m, running := c.running + {id}, log := c.log + [Admission(id, c.now, Remembered(c.gone, id, c.now), None, 0)])
    case Finish(id) =>
      if id !in c.running then c
      else
        var m := FinishedSpec(c.gone, id, c.now);
        c.(gone := m, running := c.running - {id}, barred := c.barred[id := m[id].until],
           log := EndAll(c.log, id, c.now, m[id].until))
    case AttachLook(id) => if id in c.running then c else c.(looked := c.looked + {id})
    case AttachAct(id) => if id !in c.looked then c else c.(gone := NeverSeenSpec(c.gone, id, c.now).0)
    case Purge(ids) => c.(gone := c.gone - Expired(c, ids))
  }

  function Run(c: Client, es: seq<Event>): Client
    decreases |es|
  {
    if es == [] then c else Step(Run(c, es[..|es| - 1]), es[|es| - 1])
  }

  /** The same run of a client that never deletes an entry. */
  function WithoutPurges(es: seq<Event>): seq<Event>
    decreases |es|
  {
    if es == [] then []
    else
      var before, e := WithoutPurges(es[..|es| - 1]), es[|es| - 1];
      if e.Purge? then before else before + [e]
  }

  /** Nothing but expired entries tells the two clients apart. */
  ghost predicate Alike(a: Client, b: Client) { a == b.(gone := a.gone) && Same(a.gone, b.gone, a.now) }

  lemma StepKeepsAlike(a: Client, b: Client, e: Event)
    requires Alike(a, b)
    ensures Alike(Step(a, e), if e.Purge? then b else Step(b, e))
  {
    match e
    case Open(id) => ExpiredIsUnobservable(a.gone, b.gone, id, a.now);
    case Finish(id) => ExpiredIsUnobservable(a.gone, b.gone, id, a.now);
    case AttachAct(id) => ExpiredIsUnobservable(a.gone, b.gone, id, a.now);
    case _ =>
  }

  /** Lazy deletion and the sweep cannot be observed: every run admits, runs, refuses and
      remembers, short of expired entries, as the same run without any deletion does. */
  lemma {:induction false} DeletionIsUnobservable(es: seq<Event>)
    ensures Alike(Run(Start(), es), Run(Start(), WithoutPurges(es)))
    decreases |es|
  {
    if es != [] {
      var before, e := es[..|es| - 1], es[|es| - 1];
      DeletionIsUnobservable(before);
      StepKeepsAlike(Run(Start(), before), Run(Start(), WithoutPurges(before)), e);
      assert (WithoutPurges(before) + [e])[..|WithoutPurges(before)|] == WithoutPurges(before);
    }
  }

  /** The end of the time in which the i-th admission keeps the flow from being admitted
      again, whatever happens meanwhile. */
  function Until(a: Admission): nat {
    a.at + if a.expected then REOPENED_FOR else GONE_FOR
  }

  predicate Barred(c: Client, id: FlowId) {
    id in c.barred && (c.now <= c.barred[id] ==> id in c.gone && c.gone[id] == Gone(c.barred[id], false))
  }

  /** An admission that has not ended runs; one that has is remembered as it ended until
      what was remembered has passed. */
  predicate AdmissionOk(c: Client, a: Admission) {
    && a.at <= c.now
    && (a.ended.None? ==>
          && a.id in c.running
          && (a.expected && c.now <= Until(a) ==> a.id in c.gone && Until(a) <= c.gone[a.id].until))
    && (a.ended.Some? ==>
          && a.at <= a.ended.value <= c.now
          && a.ended.value + GONE_FOR <= a.until && Until(a) <= a.until
          && (if a.id in c.running then a.until < c.now else Barred(c, a.id) && a.until <= c.barred[a.id]))
  }

  /** Of two admissions of a flow the first has ended, and what was remembered then passed. */
  predicate Apart(log: seq<Admission>) {
    forall i, j :: 0 <= i < j < |log| && log[i].id == log[j].id ==> log[i].ended.Some? && log[i].until < log[j].at
  }

  predicate Inv(c: Client) {
    (forall i :: 0 <= i < |c.log| ==> AdmissionOk(c, c.log[i])) && Apart(c.log)
  }

  lemma OpenKeepsAdmission(c: Client, id: FlowId, a: Admission)
    requires AdmissionOk(c, a) && Step(c, Open(id)) != c
    ensures AdmissionOk(Step(c, Open(id)), a) && (a.id == id ==> a.ended.Some? && a.until < c.now)
  {
  }

  lemma OpenKeepsInv(c: Client, id: FlowId)
    requires Inv(c)
    ensures Inv(Step(c, Open(id)))
  {
    var d := Step(c, Open(id));
    if d != c {
      forall i | 0 <= i < |c.log|
        ensures d.log[i] == c.log[i] && AdmissionOk(d, d.log[i])
        ensures d.log[i].id == id ==> d.log[i].ended.Some? && d.log[i].until < c.now
      {
        OpenKeepsAdmission(c, id, c.log[i]);
      }
      assert AdmissionOk(d, d.log[|c.log|]);
    }
  }

  lemma FinishKeepsAdmission(c: Client, id: FlowId, a: Admission)
    requires AdmissionOk(c, a) && id in c.running
    ensures var m := FinishedSpec(c.gone, id, c.now);
      AdmissionOk(Step(c, Finish(id)), End(a, id, c.now, m[id].until))
  {
  }

  lemma FinishKeepsInv(c: Client, id: FlowId)
    requires Inv(c) && id in c.running
    ensures Inv(Step(c, Finish(id)))
  {
    var d := Step(c, Finish(id));
    forall i | 0 <= i < |d.log| ensures AdmissionOk(d, d.log[i]) { FinishKeepsAdmission(c, id, c.log[i]); }
  }

  lemma OtherKeepsAdmission(c: Client, e: Event, a: Admission)
    requires AdmissionOk(c, a) && !e.Open? && !e.Finish?
    ensures AdmissionOk(Step(c, e), a)
  {
  }

  lemma OtherKeepsInv(c: Client, e: Event)
    requires Inv(c) && !e.Open? && !e.Finish?
    ensures Inv(Step(c, e))
  {
    forall i | 0 <= i < |c.log| ensures AdmissionOk(Step(c, e), c.log[i]) {
      OtherKeepsAdmission(c, e, c.log[i]);
    }
  }

  lemma {:induction false} RunKeepsInv(es: seq<Event>)
    ensures Inv(Run(Start(), es))
    decreases |es|
  {
    if es != [] {
      var e := es[|es| - 1];
      RunKeepsInv(es[..|es| - 1]);
      var c := Run(Start(), es[..|es| - 1]);
      match e
      case Open(id) => OpenKeepsInv(c, id);
      case Finish(id) => if id in c.running { FinishKeepsInv(c, id); }
      case _ => OtherKeepsInv(c, e);
    }
  }

  /** At most once: in every interleaving - attaches that look and act under separate
      lock holds, lazy deletions and sweeps included - no flow is admitted a second time
      before its first run has ended and the longest expiry remembered then has passed: that
      is goneFor after the end at least, and reopenedFor after an admission the server was
      asked for. */
  lemma AtMostOncePerFlow(es: seq<Event>, i: nat, j: nat)
    requires var log := Run(Start(), es).log; i < j < |log| && log[i].id == log[j].id
    ensures var log := Run(Start(), es).log;
      && log[i].ended.Some? && log[i].until < log[j].at
      && log[i].ended.value + GONE_FOR <= log[i].until && Until(log[i]) <= log[i].until
  {
    RunKeepsInv(es);
    assert AdmissionOk(Run(Start(), es), Run(Start(), es).log[i]);
  }

  // ---------------------------------------------------------------------------
  // Exactly which openings are admitted
  // ---------------------------------------------------------------------------

  /** Of the flows that do not run, the memory refuses those that ran and ended, until the
      expiry remembered then, and no others; and nothing is remembered for longer than
      reopenedFor. */
  predicate MemoryOk(c: Client) {
    && (forall id :: id in c.barred && id !in c.running ==> Barred(c, id))
    && (forall id :: id in c.gone && !c.gone[id].reopen && id !in c.running ==>
          id in c.barred && c.gone[id].until <= c.barred[id])
    && (forall id :: id in c.gone ==> c.gone[id].until <= c.now + REOPENED_FOR)
    && (forall id :: id in c.barred ==> c.barred[id] <= c.now + REOPENED_FOR)
  }

  lemma OpenKeepsMemory(c: Client, id: FlowId)
    requires MemoryOk(c)
    ensures MemoryOk(Step(c, Open(id)))
  {
  }

  lemma FinishKeepsMemory(c: Client, id: FlowId)
    requires MemoryOk(c)
    ensures MemoryOk(Step(c, Finish(id)))
  {
  }

  lemma OtherKeepsMemory(c: Client, e: Event)
    requires MemoryOk(c) && !e.Open? && !e.Finish?
    ensures MemoryOk(Step(c, e))
  {
  }

  lemma {:induction false} RunKeepsMemory(es: seq<Event>)
    ensures MemoryOk(Run(Start(), es))
    decreases |es|
  {
    if es != [] {
      var c, e := Run(Start(), es[..|es| - 1]), es[|es| - 1];
      RunKeepsMemory(es[..|es| - 1]);
      match e
      case Open(id) => OpenKeepsMemory(c, id);
      case Finish(id) => FinishKeepsMemory(c, id);
      case _ => OtherKeepsMemory(c, e);
    }
  }

  /** In every run a flow that is not running is opened if and only if it has not ended, or
      the expiry remembered at its end has passed - so a flow never heard of always is, and
      an ended one is kept out for goneFor at least and reopenedFor at most. A resume attach
      tells the server that it was never seen under the same condition. */
  lemma AdmitsExactlyWhen(es: seq<Event>, id: FlowId)
    requires id !in Run(Start(), es).running
    ensures var c := Run(Start(), es);
      && (id in Step(c, Open(id)).running <==> !(id in c.barred && c.now <= c.barred[id]))
      && (NeverSeenSpec(c.gone, id, c.now).1 <==> !(id in c.barred && c.now <= c.barred[id]))
      && (id in c.barred ==> c.barred[id] <= c.now + REOPENED_FOR)
  {
    RunKeepsMemory(es);
  }

  /** A flow that runs is not opened a second time, whatever is remembered. */
  lemma RunningIsNotReopened(es: seq<Event>, id: FlowId)
    requires id in Run(Start(), es).running
    ensures Step(Run(Start(), es), Open(id)) == Run(Start(), es)
  {
  }

  /** A resume attach that finds a flow neither running nor kept out tells the server that it
      was never seen, and the opening so asked for is admitted, as the one expected, any time
      in reopenedFor. */
  lemma ReopeningIsAdmitted(es: seq<Event>, id: FlowId, d: nat)
    requires var c := Run(Start(), es);
      id !in c.running && !(id in c.barred && c.now <= c.barred[id])
    ensures var c := Run(Start(), es);
      var z := Step(Step(Step(Step(c, AttachLook(id)), AttachAct(id)), Tick(d)), Open(id));
      && id in z.running && |z.log| == |c.log| + 1
      && (d <= 15 * 60 ==> z.log[|c.log|] == Admission(id, c.now + d, true, None, 0))
      && (d > 15 * 60 && !(id in c.gone && c.gone[id].until > c.now + 15 * 60) ==>
            z.log[|c.log|] == Admission(id, c.now + d, false, None, 0))
  {
    RunKeepsMemory(es);
  }

  /** A flow that ends is kept out for two minutes from then, or as long as was remembered of
      it already. */
  lemma FinishKeepsOut(es: seq<Event>, id: FlowId)
    requires id in Run(Start(), es).running
    ensures var c := Run(Start(), es); var z := Step(c, Finish(id));
      && id !in z.running && id in z.barred
      && z.barred[id] == (if id in c.gone && c.gone[id].until > c.now + 120 then c.gone[id].until else c.now + 120)
  {
  }

  /** While nothing longer than what was remembered at its end has passed, a flow that
      ran is neither admitted nor told to the server as never seen. */
  lemma EndedFlowStaysEnded(es: seq<Event>, id: FlowId, i: nat)
    requires var c := Run(Start(), es);
      i < |c.log| && c.log[i].id == id && id !in c.running && id in c.barred && c.now <= c.barred[id]
    ensures var c := Run(Start(), es);
      && Step(c, Open(id)) == c && !NeverSeenSpec(c.gone, id, c.now).1
      && c.barred[id] >= Until(c.log[i])
  {
    RunKeepsInv(es);
    assert AdmissionOk(Run(Start(), es), Run(Start(), es).log[i]);
  }

  /** A deletion deletes what has expired of what it is after, and nothing else. */
  lemma DeletionDeletes(c: Client, ids: set<FlowId>, id: FlowId)
    ensures var z := Step(c, Purge(ids));
      id in z.gone <==> id in c.gone && !(id in ids && c.gone[id].until < c.now)
  {
  }
}
