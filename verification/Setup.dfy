/** Setting up accepted connections: a queue, a bounded number of setup workers, a guard
    that closes a connection whose setup takes too long, and admission slots taken by
    compare-and-swap and given back on every retry. */
module Setup {

  import opened Numbers

  /** The guard of an attempt: `Idle` may still fire, `Settled` never will. A connection no
      worker has started on has none. */
  datatype Guard = Absent | Idle | Fired | Settled

  // ---------------------------------------------------------------------------
  // One attempt
  // ---------------------------------------------------------------------------

  function FireSpec(g: Guard): Guard { if g == Idle then Fired else g }

  function SettleSpec(g: Guard): Guard { if g == Idle then Settled else g }

  /** The counters all attempts share. */
  class Counters {
    var streams: int
    var permits: int
  }

  /** `guard` stands for the one-shot the timer, the generation's stop and the worker
      compete for; `released` for the one-shot around the permit; `socketClosed` for the
      local connection. */
  class SetupAttempt {
    var guard: Guard
    var released: bool
    var socketClosed: bool
    const shared: Counters

    ghost predicate Valid()
      reads this
    {
      guard != Absent && (guard == Fired ==> socketClosed)
    }

    constructor (shared: Counters)
      ensures Valid() && guard == Idle && !released && !socketClosed && this.shared == shared
    {
      guard, released, socketClosed := Idle, false, false;
      this.shared := shared;
    }

    /** The expiry timer's and the stop's callback. */
    method Fire()
      requires Valid()
      modifies this`guard, this`socketClosed
      ensures Valid() && guard == FireSpec(old(guard)) && guard == if old(guard) == Idle then Fired else old(guard)
      ensures socketClosed == (old(socketClosed) || old(guard) == Idle)
    {
      if guard == Idle {
        guard, socketClosed := Fired, true;
      }
    }

    /** Afterwards the socket is closed, or the guard never closes it. */
    method Settle() returns (fired: bool)
      requires Valid()
      modifies this`guard
      ensures Valid() && guard == SettleSpec(old(guard)) && guard == if old(guard) == Idle then Settled else old(guard)
      ensures guard in {Fired, Settled}
      ensures fired == (old(guard) == Fired)
      ensures fired ==> socketClosed
    {
      if guard == Idle { guard := Settled; }
      fired := guard == Fired;
    }

    method Handoff() returns (ok: bool)
      requires Valid()
      modifies this`guard
      ensures Valid() && guard == SettleSpec(old(guard))
      ensures ok == (guard == Settled)
    {
      var fired := Settle();
      ok := !fired;
    }

    method ReleasePermit()
      modifies this`released, shared`permits
      ensures released
      ensures shared.permits == old(shared.permits) - if old(released) then 0 else 1
    {
      if !released {
        released := true;
        shared.permits := shared.permits - 1;
      }
    }

    method Drop()
      requires Valid()
      modifies this`guard, this`socketClosed, shared`streams
      ensures Valid() && guard == SettleSpec(old(guard)) && socketClosed
      ensures shared.streams == old(shared.streams) - 1
    {
      var _ := Settle();
      socketClosed := true;
      shared.streams := shared.streams - 1;
    }
  }

  // ---------------------------------------------------------------------------
  // One connection's way through the pipeline
  // ---------------------------------------------------------------------------

  datatype Place =
    | Queued
    | Refused                          // dequeued, but the generation had stopped
    | Trying                           // between attempts: no admission slot
    | Saw(active: int, budget: int)    // has read the counter, has not swapped yet
    | Slotted                          // opening legs and sending headers
    | Lost                             // a slot and nothing to use it for
    | Handed                           // the guard is settled, the flow not started
    | Flowing
    | Ending                           // the flow is over, its slot still taken
    | Dropping
    | Closing
    | Uncounting
    | Leaving
    | Gone

  /** `counted` is whether the acceptor, which queues first and counts after, has counted
      the connection; the last six fields count what has been done with it. */
  datatype Conn = Conn(
    striped: bool, counted: bool, place: Place, guard: Guard, released: bool,
    slotsTaken: nat, slotsGiven: nat, permitsTaken: nat, permitsGiven: nat, uncounts: nat, ends: Ends)

  /** How often the worker closed it, and how often it went to a data pump. */
  datatype Ends = Ends(closes: nat, pumps: nat)

  function Accepted(striped: bool): Conn {
    Conn(striped, false, Queued, Absent, false, 0, 0, 0, 0, 0, Ends(0, 0))
  }

  datatype Move =
    | Count
    | Fire
    | Look(budget: int)
    | Swap
    | GiveUp
    | FreeSlot
    | Settle
    | FecFails
    | Start
    | Close
    | Uncount
    | Leave

  /** What a move does to the connection and to the shared counters. */
  datatype Effect = Effect(conn: Conn, streams: int, flows: int, permits: int)

  function Stay(c: Conn): Effect { Effect(c, 0, 0, 0) }

  function To(c: Conn, p: Place): Effect { Effect(c.(place := p), 0, 0, 0) }

  /** Gives the permit back, the first time. */
  function Release(c: Conn, p: Place): Effect {
    if c.released then To(c, p)
    else Effect(c.(place := p, released := true, permitsGiven := c.permitsGiven + 1), 0, 0, -1)
  }

  function Free(c: Conn, p: Place): Effect {
    Effect(c.(place := p, slotsGiven := c.slotsGiven + 1), 0, -1, 0)
  }

  function Uncounted(c: Conn, p: Place): Effect {
    Effect(c.(place := p, uncounts := c.uncounts + 1), -1, 0, 0)
  }

  /** flows is the admission counter as it is now, width the legs one flow takes. */
  function Swapped(c: Conn, flows: int, width: int): Effect {
    if !c.place.Saw? then Stay(c)
    else if (c.place.active + 1) * width <= Max(c.place.budget, width) && flows == c.place.active then
      Effect(c.(place := Slotted, slotsTaken := c.slotsTaken + 1), 0, 1, 0)
    else To(c, Trying)
  }

  function Settling(c: Conn): Effect {
    var d := c.(guard := SettleSpec(c.guard));
    if c.place.Slotted? then To(d, if d.guard == Fired then Lost else Handed)
    else if c.place.Dropping? then To(d, Closing)
    else Stay(c)
  }

  function Act(c: Conn, m: Move, flows: int, width: int): Effect {
    match m
    case Count => if c.counted then Stay(c) else Effect(c.(counted := true), 1, 0, 0)
    case Fire => Stay(c.(guard := FireSpec(c.guard)))
    case Look(b) => if c.place.Trying? then To(c, Saw(flows, b)) else Stay(c)
    case Swap => Swapped(c, flows, width)
    case GiveUp => if c.place.Trying? then To(c, Dropping) else Stay(c)
    case FreeSlot =>
      if c.place.Slotted? then Free(c, Trying)
      else if c.place.Lost? then Free(c, Dropping)
      else if c.place.Ending? then Free(c, Leaving)
      else Stay(c)
    case Settle => Settling(c)
    case FecFails => if c.place.Handed? && c.striped then To(c, Lost) else Stay(c)
    case Start =>
      if c.place.Handed? then Release(c.(ends := c.ends.(pumps := c.ends.pumps + 1)), Flowing) else Stay(c)
    case Close =>
      if c.place.Closing? then To(c.(ends := c.ends.(closes := c.ends.closes + 1)), Uncounting) else Stay(c)
    case Uncount =>
      if c.place.Uncounting? then Uncounted(c, Leaving)
      else if c.place.Flowing? then Uncounted(c, Ending)
      else Stay(c)
    case Leave =>
      if c.place.Refused? then Release(c, Closing)
      else if c.place.Leaving? then (if c.guard == Absent then To(c, Gone) else Release(c, Gone))
      else Stay(c)
  }

  // What a connection holds, by where it is

  predicate HoldsSlot(c: Conn) { (c.place.Slotted? || c.place.Lost? || c.place.Handed? || c.place.Flowing? || c.place.Ending?) }

  predicate HoldsPermit(c: Conn) {
    || (c.place.Refused? || c.place.Trying? || c.place.Slotted? || c.place.Lost? || c.place.Handed? || c.place.Dropping?)
    || c.place.Saw?
    || ((c.place.Closing? || c.place.Uncounting? || c.place.Leaving?) && !c.released && c.guard != Absent)
  }

  predicate IsOver(c: Conn) { (c.place.Ending? || c.place.Leaving? || c.place.Gone?) }

  predicate BeforeWorker(c: Conn) { (c.place.Queued? || c.place.Refused?) }

  predicate ConnInv(c: Conn) {
    && c.uncounts == (if IsOver(c) then 1 else 0)
    && c.slotsTaken == c.slotsGiven + (if HoldsSlot(c) then 1 else 0)
    && c.permitsGiven == (if c.released then 1 else 0)
    && c.permitsTaken == c.permitsGiven + (if HoldsPermit(c) then 1 else 0)
    && (c.guard != Absent ==> c.permitsTaken == 1)
    && (HoldsPermit(c) || c.place.Queued? ==> !c.released)
    && (c.place.Flowing? || c.place.Ending? ==> c.released)
    && (c.place.Gone? ==> c.released || c.guard == Absent)
    && (c.guard == Absent ==> BeforeWorker(c) || (c.place.Closing? || c.place.Uncounting? || c.place.Leaving? || c.place.Gone?))
    && (BeforeWorker(c) ==> c.guard == Absent)
    && (c.place.Handed? ==> c.guard == Settled)
    && ((c.place.Closing? || c.place.Uncounting?) ==> c.guard != Idle)
    && EndsInv(c)
  }

  /** Handed to a pump behind a settled guard, or closed, and not both. */
  predicate EndsInv(c: Conn) {
    && c.ends.pumps + c.ends.closes <= 1
    && ((c.place.Flowing? || c.place.Ending?) ==> c.ends.pumps == 1)
    && (c.place.Uncounting? ==> c.ends.closes == 1)
    && ((c.place.Leaving? || c.place.Gone?) ==> c.ends.pumps + c.ends.closes == 1)
    && (!((c.place.Flowing? || c.place.Ending? || c.place.Uncounting? || c.place.Leaving? || c.place.Gone?)) ==> c.ends == Ends(0, 0))
    && (c.ends.pumps == 1 ==> c.guard == Settled)
  }

  predicate EndsOnce(c: Conn) {
    && c.ends.pumps + c.ends.closes <= 1
    && (c.ends.pumps == 1 ==> c.guard == Settled)
    && c.uncounts <= 1
    && c.permitsGiven <= c.permitsTaken <= 1
    && (c.guard != Absent || c.place.Refused? ==> c.permitsTaken == 1)
    && (c.place.Gone? ==>
          && c.ends.pumps + c.ends.closes == 1
          && c.uncounts == 1
          && c.slotsTaken == c.slotsGiven
          && c.permitsGiven == c.permitsTaken)
  }

  lemma ConnInvEndsOnce(c: Conn)
    requires ConnInv(c)
    ensures EndsOnce(c)
  {
  }

  lemma ActKeepsConnInv(c: Conn, m: Move, flows: int, width: int)
    requires ConnInv(c)
    ensures ConnInv(Act(c, m, flows, width).conn)
  {
  }

  function StreamUnits(c: Conn): int { (if IsOver(c) then 0 else 1) - (if c.counted then 0 else 1) }

  function SlotUnits(c: Conn): int { if HoldsSlot(c) then 1 else 0 }

  function PermitUnits(c: Conn): int { if HoldsPermit(c) then 1 else 0 }

  predicate Balances(c: Conn, f: Effect) {
    && f.conn.striped == c.striped
    && StreamUnits(f.conn) == StreamUnits(c) + f.streams
    && SlotUnits(f.conn) == SlotUnits(c) + f.flows
    && PermitUnits(f.conn) == PermitUnits(c) + f.permits
  }

  /** The shared counters move with what the connection holds. */
  lemma ActBalances(c: Conn, m: Move, flows: int, width: int)
    requires ConnInv(c)
    ensures Balances(c, Act(c, m, flows, width))
  {
    if GivesBack(m) { EndBalances(c, m, flows, width); } else { BeginBalances(c, m, flows, width); }
  }

  predicate GivesBack(m: Move) { m.Start? || m.Close? || m.Uncount? || m.Leave? || m.FreeSlot? }

  lemma BeginBalances(c: Conn, m: Move, flows: int, width: int)
    requires ConnInv(c) && !GivesBack(m)
    ensures Balances(c, Act(c, m, flows, width))
  {
  }

  lemma EndBalances(c: Conn, m: Move, flows: int, width: int)
    requires ConnInv(c) && GivesBack(m)
    ensures Balances(c, Act(c, m, flows, width))
  {
  }

  // ---------------------------------------------------------------------------
  // The pipeline
  // ---------------------------------------------------------------------------

  /** `parked` is whether the dispatch loop holds a permit for the connection it has not
      dequeued yet; `peak` is the largest budget a worker has read. */
  datatype Sys = Sys(
    conns: seq<Conn>, streams: int, plain: int, striped: int,
    permits: int, parked: bool, stopped: bool, peak: int, limits: Limits)

  /** The permits there are, and the legs of a striped flow (at least one). */
  datatype Limits = Limits(permits: nat, legs: nat)

  function Fresh(l: Limits): Sys { Sys([], 0, 0, 0, 0, false, false, 0, l) }

  datatype Event =
    | Accept(striped: bool)
    | TakePermit
    | DropPermit
    | Dequeue(i: nat)
    | Sweep(i: nat)
    | Stop
    | Do(i: nat, m: Move)

  function Width(l: Limits, striped: bool): nat { if striped && l.legs > 0 then l.legs else 1 }

  function Flows(y: Sys, striped: bool): int { if striped then y.striped else y.plain }

  function DoStep(y: Sys, i: nat, m: Move): Sys
    requires i < |y.conns|
  {
    var c := y.conns[i];
    var f := Act(c, m, Flows(y, c.striped), Width(y.limits, c.striped));
    Apply(y, i, f).(peak := if m.Look? then Max(y.peak, m.budget) else y.peak)
  }

  function Apply(y: Sys, i: nat, f: Effect): Sys
    requires i < |y.conns|
  {
    y.(conns := y.conns[i := f.conn],
       streams := y.streams + f.streams,
       plain := y.plain + (if y.conns[i].striped then 0 else f.flows),
       striped := y.striped + (if y.conns[i].striped then f.flows else 0),
       permits := y.permits + f.permits)
  }

  /** The loop's permit goes with the connection, whether or not a worker starts. */
  function DequeueStep(y: Sys, i: nat): Sys
    requires i < |y.conns|
  {
    var c := y.conns[i];
    var d := c.(permitsTaken := c.permitsTaken + 1);
    y.(conns := y.conns[i := if y.stopped then d.(place := Refused) else d.(place := Trying, guard := Idle)],
       parked := false)
  }

  function Step(y: Sys, e: Event): Sys {
    match e
    case Accept(striped) => y.(conns := y.conns + [Accepted(striped)])
    case TakePermit =>
      if !y.parked && y.permits < y.limits.permits then y.(parked := true, permits := y.permits + 1) else y
    case DropPermit => if y.parked then y.(parked := false, permits := y.permits - 1) else y
    case Dequeue(i) => if i < |y.conns| && y.conns[i].place.Queued? && y.parked then DequeueStep(y, i) else y
    case Sweep(i) =>
      if i < |y.conns| && y.conns[i].place.Queued? && y.stopped then
        y.(conns := y.conns[i := y.conns[i].(place := Closing)])
      else y
    case Stop => y.(stopped := true)
    case Do(i, m) => if i < |y.conns| then DoStep(y, i, m) else y
  }

  function Run(y: Sys, es: seq<Event>): Sys
    decreases |es|
  {
    if es == [] then y else Step(Run(y, es[..|es| - 1]), es[|es| - 1])
  }

  // ---------------------------------------------------------------------------
  // Sums over the connections
  // ---------------------------------------------------------------------------

  function Sum(cs: seq<Conn>, f: Conn -> int): int
    decreases |cs|
  {
    if cs == [] then 0 else Sum(cs[..|cs| - 1], f) + f(cs[|cs| - 1])
  }

  lemma {:induction false} SumUpdate(cs: seq<Conn>, i: nat, c: Conn, f: Conn -> int)
    requires i < |cs|
    ensures Sum(cs[i := c], f) == Sum(cs, f) - f(cs[i]) + f(c)
    decreases |cs|
  {
    var n := |cs| - 1;
    if i == n {
      assert cs[i := c][..n] == cs[..n];
    } else {
      assert cs[i := c][..n] == cs[..n][i := c];
      SumUpdate(cs[..n], i, c, f);
    }
  }

  lemma SumAppend(cs: seq<Conn>, c: Conn, f: Conn -> int)
    ensures Sum(cs + [c], f) == Sum(cs, f) + f(c)
  {
    assert (cs + [c])[..|cs|] == cs;
  }

  lemma {:induction false} SumZero(cs: seq<Conn>, f: Conn -> int)
    requires forall i :: 0 <= i < |cs| ==> f(cs[i]) == 0
    ensures Sum(cs, f) == 0
    decreases |cs|
  {
    if cs != [] { SumZero(cs[..|cs| - 1], f); }
  }

  lemma {:induction false} SumAtLeast(cs: seq<Conn>, f: Conn -> int)
    requires forall i :: 0 <= i < |cs| ==> f(cs[i]) >= 0
    ensures Sum(cs, f) >= 0
    decreases |cs|
  {
    if cs != [] { SumAtLeast(cs[..|cs| - 1], f); }
  }

  function PlainUnits(c: Conn): int { if c.striped then 0 else SlotUnits(c) }

  function StripedUnits(c: Conn): int { if c.striped then SlotUnits(c) else 0 }

  predicate Balanced(y: Sys) {
    && y.streams == Sum(y.conns, StreamUnits)
    && y.plain == Sum(y.conns, PlainUnits)
    && y.striped == Sum(y.conns, StripedUnits)
    && y.permits == Sum(y.conns, PermitUnits) + (if y.parked then 1 else 0)
  }

  predicate WithinBudget(y: Sys) {
    && y.permits <= y.limits.permits
    && y.plain <= Max(y.peak, 1)
    && y.striped * Width(y.limits, true) <= Max(y.peak, Width(y.limits, true))
  }

  /** A budget a worker has read is no larger than the peak. */
  predicate AllConnInv(y: Sys) {
    forall i :: 0 <= i < |y.conns| ==>
      ConnInv(y.conns[i]) && (y.conns[i].place.Saw? ==> y.conns[i].place.budget <= y.peak)
  }

  predicate Inv(y: Sys) { Balanced(y) && WithinBudget(y) && AllConnInv(y) }

  lemma UpdateBalances(y: Sys, i: nat, c: Conn)
    requires i < |y.conns| && y.conns[i].striped == c.striped
    ensures var cs := y.conns[i := c]; var b := y.conns[i];
      && Sum(cs, StreamUnits) == Sum(y.conns, StreamUnits) + StreamUnits(c) - StreamUnits(b)
      && Sum(cs, PlainUnits) == Sum(y.conns, PlainUnits) + PlainUnits(c) - PlainUnits(b)
      && Sum(cs, StripedUnits) == Sum(y.conns, StripedUnits) + StripedUnits(c) - StripedUnits(b)
      && Sum(cs, PermitUnits) == Sum(y.conns, PermitUnits) + PermitUnits(c) - PermitUnits(b)
  {
    SumUpdate(y.conns, i, c, StreamUnits);
    SumUpdate(y.conns, i, c, PlainUnits);
    SumUpdate(y.conns, i, c, StripedUnits);
    SumUpdate(y.conns, i, c, PermitUnits);
  }

  lemma ApplyKeepsBalance(y: Sys, i: nat, f: Effect)
    requires Balanced(y) && i < |y.conns| && Balances(y.conns[i], f)
    ensures Balanced(Apply(y, i, f))
  {
    UpdateBalances(y, i, f.conn);
  }

  /** A swap goes through only against the counter it read: at that moment the flows are
      within the budget read with it. */
  lemma ActWithinBudget(c: Conn, m: Move, flows: int, width: nat, peak: int)
    requires width >= 1
    requires c.place.Saw? ==> c.place.budget <= peak
    ensures var f := Act(c, m, flows, width);
      && f.permits <= 0 && f.flows <= 1
      && (f.flows == 1 ==> (flows + 1) * width <= Max(peak, width))
      && (f.conn.place.Saw? ==> f.conn.place.budget <= (if m.Look? then Max(peak, m.budget) else peak))
  {
  }

  lemma DoKeepsBudget(y: Sys, i: nat, m: Move)
    requires Inv(y) && i < |y.conns|
    ensures WithinBudget(DoStep(y, i, m))
  {
    var c := y.conns[i];
    var w := Width(y.limits, c.striped);
    ActWithinBudget(c, m, Flows(y, c.striped), w, y.peak);
    var f := Act(c, m, Flows(y, c.striped), w);
    var z := DoStep(y, i, m);
    assert f.flows <= 0 ==> z.striped <= y.striped && z.plain <= y.plain;
    Monotone(z.striped, y.striped, Width(y.limits, true));
  }

  lemma Monotone(a: int, b: int, w: nat)
    ensures a <= b ==> a * w <= b * w
  {
  }

  lemma DoKeepsInv(y: Sys, i: nat, m: Move)
    requires Inv(y) && i < |y.conns|
    ensures Inv(DoStep(y, i, m))
  {
    var c := y.conns[i];
    DoKeepsBudget(y, i, m);
    ActBalances(c, m, Flows(y, c.striped), Width(y.limits, c.striped));
    ApplyKeepsBalance(y, i, Act(c, m, Flows(y, c.striped), Width(y.limits, c.striped)));
    ActKeepsConnInv(c, m, Flows(y, c.striped), Width(y.limits, c.striped));
    ActWithinBudget(c, m, Flows(y, c.striped), Width(y.limits, c.striped), y.peak);
  }

  lemma AcceptKeepsInv(y: Sys, striped: bool)
    requires Inv(y)
    ensures Inv(Step(y, Accept(striped)))
  {
    SumAppend(y.conns, Accepted(striped), StreamUnits);
    SumAppend(y.conns, Accepted(striped), PlainUnits);
    SumAppend(y.conns, Accepted(striped), StripedUnits);
    SumAppend(y.conns, Accepted(striped), PermitUnits);
  }

  lemma DequeueKeepsInv(y: Sys, i: nat)
    requires Inv(y) && i < |y.conns| && y.conns[i].place.Queued? && y.parked
    ensures Inv(DequeueStep(y, i))
  {
    UpdateBalances(y, i, DequeueStep(y, i).conns[i]);
  }

  lemma SweepKeepsInv(y: Sys, i: nat)
    requires Inv(y) && i < |y.conns| && y.conns[i].place.Queued?
    ensures Inv(y.(conns := y.conns[i := y.conns[i].(place := Closing)]))
  {
    UpdateBalances(y, i, y.conns[i].(place := Closing));
  }

  lemma StepKeepsInv(y: Sys, e: Event)
    requires Inv(y)
    ensures Inv(Step(y, e))
  {
    match e
    case Accept(striped) => AcceptKeepsInv(y, striped);
    case Dequeue(i) =>
      if i < |y.conns| && y.conns[i].place.Queued? && y.parked { DequeueKeepsInv(y, i); }
    case Sweep(i) =>
      if i < |y.conns| && y.conns[i].place.Queued? { SweepKeepsInv(y, i); }
    case Do(i, m) => if i < |y.conns| { DoKeepsInv(y, i, m); }
    case _ =>
  }

  lemma {:induction false} RunKeepsInv(y: Sys, es: seq<Event>)
    requires Inv(y)
    ensures Inv(Run(y, es))
    decreases |es|
  {
    if es != [] {
      RunKeepsInv(y, es[..|es| - 1]);
      StepKeepsInv(Run(y, es[..|es| - 1]), es[|es| - 1]);
    }
  }

  // ---------------------------------------------------------------------------
  // What every run keeps
  // ---------------------------------------------------------------------------

  /** In every state of every run the counters are what the connections hold: streams the
      connections not over yet, less those the acceptor has not counted; plain and striped
      the admission slots in use; permits the workers in setup and the loop's own. The
      permits in use never exceed the capacity, and neither admission counter ever exceeds
      the largest budget read, although budgets change and swaps race. */
  lemma CountersAreConserved(l: Limits, es: seq<Event>)
    ensures var y := Run(Fresh(l), es); Balanced(y) && WithinBudget(y) && 0 <= y.plain && 0 <= y.striped
  {
    RunKeepsInv(Fresh(l), es);
    var y := Run(Fresh(l), es);
    SumAtLeast(y.conns, PlainUnits);
    SumAtLeast(y.conns, StripedUnits);
  }

  /** Every connection ends at most once, closed or handed to a pump; one handed to a pump
      has a guard that did not fire and never will. A connection that is gone gave back its
      stream unit once, its permit once if it was dequeued, refused or not, and every
      admission slot it took, however often it retried. */
  lemma EndsExactlyOnce(l: Limits, es: seq<Event>, i: nat)
    requires i < |Run(Fresh(l), es).conns|
    ensures EndsOnce(Run(Fresh(l), es).conns[i])
  {
    RunKeepsInv(Fresh(l), es);
    ConnInvEndsOnce(Run(Fresh(l), es).conns[i]);
  }

  /** Once everybody is gone and counted and the loop has left, nothing is held. */
  lemma NothingLeaks(l: Limits, es: seq<Event>)
    requires var y := Run(Fresh(l), es);
      !y.parked && forall i :: 0 <= i < |y.conns| ==> y.conns[i].place.Gone? && y.conns[i].counted
    ensures var y := Run(Fresh(l), es); y.streams == 0 && y.plain == 0 && y.striped == 0 && y.permits == 0
  {
    RunKeepsInv(Fresh(l), es);
    var y := Run(Fresh(l), es);
    SumZero(y.conns, StreamUnits);
    SumZero(y.conns, PlainUnits);
    SumZero(y.conns, StripedUnits);
    SumZero(y.conns, PermitUnits);
  }

  lemma PumpedStaysPumped(y: Sys, e: Event, i: nat)
    requires i < |y.conns| && y.conns[i].ends.pumps == 1 && !y.conns[i].place.Queued?
    ensures i < |Step(y, e).conns| && Step(y, e).conns[i].ends.pumps >= 1
  {
    if e.Do? && e.i == i {
      var c := y.conns[i];
      ActKeepsPumps(c, e.m, Flows(y, c.striped), Width(y.limits, c.striped));
    }
  }

  lemma ActKeepsPumps(c: Conn, m: Move, flows: int, width: int)
    ensures Act(c, m, flows, width).conn.ends.pumps >= c.ends.pumps
  {
  }

  /** A connection in a pump stays out of its guard's reach: whatever follows, nothing of
      setup closes it. */
  lemma {:induction false} PumpedIsSafe(y: Sys, es: seq<Event>, i: nat)
    requires Inv(y) && i < |y.conns| && y.conns[i].ends.pumps == 1
    ensures i < |Run(y, es).conns|
    ensures var c := Run(y, es).conns[i]; c.guard == Settled && c.ends == Ends(0, 1)
    decreases |es|
  {
    RunKeepsInv(y, es);
    if es != [] {
      PumpedIsSafe(y, es[..|es| - 1], i);
      RunKeepsInv(y, es[..|es| - 1]);
      PumpedStaysPumped(Run(y, es[..|es| - 1]), es[|es| - 1], i);
    }
  }

  // ---------------------------------------------------------------------------
  // What a setup comes to
  // ---------------------------------------------------------------------------

  /** What one flow takes of the budget, and which counter it is counted by. */
  lemma WidthAndCounter(y: Sys, l: Limits)
    ensures Width(l, false) == 1 && Width(l, true) == if l.legs > 1 then l.legs else 1
    ensures Flows(y, false) == y.plain && Flows(y, true) == y.striped
  {
  }

  /** The slot is taken if and only if one flow more fits the budget read; one flow always
      does. */
  lemma AdmittedExactlyWhen(l: Limits, es: seq<Event>, i: nat, budget: int)
    requires var y := Run(Fresh(l), es); i < |y.conns| && y.conns[i].place.Trying?
    ensures i < |Step(Step(Run(Fresh(l), es), Do(i, Look(budget))), Do(i, Swap)).conns|
    ensures Step(Step(Run(Fresh(l), es), Do(i, Look(budget))), Do(i, Swap)).conns[i].place.Slotted? <==>
      FitsBudget(Run(Fresh(l), es), i, budget)
  {
    NoCounterBelowZero(l, es);
    LookThenSwap(Run(Fresh(l), es), i, budget);
  }

  predicate FitsBudget(y: Sys, i: nat, budget: int)
    requires i < |y.conns|
  {
    var flows, width := Flows(y, y.conns[i].striped), Width(y.limits, y.conns[i].striped);
    (flows + 1) * width <= budget || flows == 0
  }

  lemma NoCounterBelowZero(l: Limits, es: seq<Event>)
    ensures var y := Run(Fresh(l), es); Flows(y, true) >= 0 && Flows(y, false) >= 0
  {
    CountersAreConserved(l, es);
  }

  lemma OneAlwaysFits(flows: int, width: nat, budget: int)
    requires width >= 1 && flows >= 0
    ensures (flows + 1) * width <= Max(budget, width) <==> (flows + 1) * width <= budget || flows == 0
  {
    if flows > 0 { assert (flows + 1) * width == flows * width + width && flows * width > 0; }
  }

  lemma LookThenSwap(y: Sys, i: nat, budget: int)
    requires i < |y.conns| && y.conns[i].place.Trying? && Flows(y, true) >= 0 && Flows(y, false) >= 0
    ensures var z := Step(Step(y, Do(i, Look(budget))), Do(i, Swap));
      i < |z.conns| && (z.conns[i].place.Slotted? <==> FitsBudget(y, i, budget))
  {
    OneAlwaysFits(Flows(y, y.conns[i].striped), Width(y.limits, y.conns[i].striped), budget);
  }

  /** A setup that got its streams is handed over if and only if its guard has not fired. */
  lemma HandedExactlyWhenUnfired(l: Limits, es: seq<Event>, i: nat)
    requires var y := Run(Fresh(l), es); i < |y.conns| && y.conns[i].place.Slotted?
    ensures var y := Run(Fresh(l), es); var c := Step(y, Do(i, Settle)).conns[i];
      (c.place.Handed? <==> y.conns[i].guard != Fired) && (c.place.Handed? || c.place.Lost?)
  {
  }

  /** And then flows: it goes to a pump behind its settled guard, and the permit goes back. */
  lemma HandedFlows(l: Limits, es: seq<Event>, i: nat)
    requires var y := Run(Fresh(l), es); i < |y.conns| && y.conns[i].place.Handed?
    ensures var y := Run(Fresh(l), es); var z := Step(y, Do(i, Start));
      && i < |z.conns| && z.conns[i].place.Flowing? && z.conns[i].ends == Ends(0, 1) && z.conns[i].guard == Settled
      && z.permits == y.permits - 1 && z.plain == y.plain && z.striped == y.striped && z.streams == y.streams
  {
    RunKeepsInv(Fresh(l), es);
    assert ConnInv(Run(Fresh(l), es).conns[i]);
  }

  /** A guard fires, once, while its attempt is not settled, and at no other time. */
  lemma FiresExactlyWhenUnsettled(l: Limits, es: seq<Event>, i: nat)
    requires i < |Run(Fresh(l), es).conns|
    ensures var y := Run(Fresh(l), es); var g := y.conns[i].guard; var h := Step(y, Do(i, Fire)).conns[i].guard;
      (g == Idle ==> h == Fired) && (g != Idle ==> h == g)
  {
  }

  /** The loop's permit goes with a queued connection to a worker, or, stopped, to nobody. */
  lemma DequeuedStarts(l: Limits, es: seq<Event>, i: nat)
    requires var y := Run(Fresh(l), es); i < |y.conns| && y.conns[i].place.Queued? && y.parked
    ensures var y := Run(Fresh(l), es); var z := Step(y, Dequeue(i));
      && i < |z.conns| && !z.parked && z.permits == y.permits
      && (if y.stopped then z.conns[i].place.Refused? else z.conns[i].place.Trying? && z.conns[i].guard == Idle)
  {
  }

  // Every connection can be brought to its end

  /** The move a worker has left where a connection is, if it wants no flow of it. */
  function Onward(p: Place): Move {
    match p
    case Refused => Leave
    case Trying => GiveUp
    case Saw(_, _) => Swap
    case Slotted => FreeSlot
    case Lost => FreeSlot
    case Handed => Start
    case Flowing => Uncount
    case Ending => FreeSlot
    case Dropping => Settle
    case Closing => Close
    case Uncounting => Uncount
    case _ => Leave
  }

  function Distance(p: Place): nat {
    match p
    case Gone => 0
    case Leaving => 1
    case Uncounting => 2
    case Ending => 2
    case Closing => 3
    case Flowing => 3
    case Dropping => 4
    case Refused => 4
    case Handed => 4
    case Trying => 5
    case Lost => 5
    case Slotted => 6
    case Saw(_, _) => 7
    case Queued => 8
  }

  lemma OnwardComesCloser(c: Conn, flows: int, width: int)
    requires !c.place.Queued? && !c.place.Gone?
    ensures var d := Act(c, Onward(c.place), flows, width).conn; Distance(d.place) < Distance(c.place) && !d.place.Queued?
  {
  }

  /** No setup is stuck: from any state, whatever the other connections do, a connection that
      is not in the queue any more has at most seven steps of its own worker to its end. */
  lemma {:induction false} CanAlwaysEnd(y: Sys, i: nat) returns (es: seq<Event>)
    requires i < |y.conns| && !y.conns[i].place.Queued?
    ensures |es| <= Distance(y.conns[i].place) && i < |Run(y, es).conns| && Run(y, es).conns[i].place.Gone?
    decreases Distance(y.conns[i].place)
  {
    var c := y.conns[i];
    if c.place.Gone? { return []; }
    var e := Do(i, Onward(c.place));
    OnwardComesCloser(c, Flows(y, c.striped), Width(y.limits, c.striped));
    var rest := CanAlwaysEnd(Step(y, e), i);
    es := [e] + rest;
    RunCons(y, e, rest);
  }

  lemma {:induction false} RunCons(y: Sys, e: Event, es: seq<Event>)
    ensures Run(y, [e] + es) == Run(Step(y, e), es)
    decreases |es|
  {
    var all := [e] + es;
    if es == [] {
      assert all[..0] == [] && Run(y, []) == y;
    } else {
      assert all[..|all| - 1] == [e] + es[..|es| - 1];
      RunCons(y, e, es[..|es| - 1]);
    }
  }

  /** The rest of what happens around a setup. */
  lemma EventsHappen(y: Sys, i: nat, striped: bool)
    ensures Step(y, Accept(striped)).conns == y.conns + [Accepted(striped)] && Accepted(striped).striped == striped
    ensures !y.parked && y.permits < y.limits.permits ==>
      var z := Step(y, TakePermit); z.parked && z.permits == y.permits + 1
    ensures y.parked ==> var z := Step(y, DropPermit); !z.parked && z.permits == y.permits - 1
    ensures i < |y.conns| && y.conns[i].place.Queued? && y.stopped ==> Step(y, Sweep(i)).conns[i].place.Closing?
    ensures Step(y, Stop).stopped
  {
  }

  lemma MovesHappen(y: Sys, i: nat)
    requires i < |y.conns|
    ensures !y.conns[i].counted ==> var z := Step(y, Do(i, Count)); z.conns[i].counted && z.streams == y.streams + 1
    ensures y.conns[i].place.Handed? && y.conns[i].striped ==> Step(y, Do(i, FecFails)).conns[i].place.Lost?
    ensures y.conns[i].place.Handed? && !y.conns[i].striped ==> Step(y, Do(i, FecFails)).conns[i].place.Handed?
    ensures y.conns[i].place.Slotted? ==> Step(y, Do(i, FreeSlot)).conns[i].place.Trying?
  {
  }
}
