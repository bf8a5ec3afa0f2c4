/** The control channel of the server: its loss, the grace period in which the pool is
    held, its adoption, the claim of a restart, and the restarts that replace one
    generation of workers by the next. Steps are the sections held under controlMu and
    the generation's own lock; times are seconds on a clock that does not go back. */
module Grace {

  import opened Wrappers

  const GRACE_WINDOW: nat := 30
  const MAX_HOLD: nat := 90

  type Conn = nat
  type Gen = nat

  // ---------------------------------------------------------------------------
  // What controlMu guards
  // ---------------------------------------------------------------------------

  /** `timer` is the armed grace timer, if any. */
  datatype Control = Control(
    channel: Option<Conn>, epoch: nat, timer: Option<nat>, graceStart: nat, claim: Option<Gen>)

  function Invalidated(c: Control): Control {
    c.(epoch := c.epoch + 1, timer := None)
  }

  predicate Current(c: Control, epoch: nat, stopped: bool) {
    c.epoch == epoch && c.channel.None? && !stopped
  }

  predicate ShouldHold(live: nat, held: nat) { live > 0 && held < MAX_HOLD }

  /** A channel that dies on its own; `tid` is the timer armed for the loss. */
  function LostSpec(c: Control, conn: Conn, now: nat, stopped: bool, tid: nat): Control {
    if c.channel != Some(conn) then c
    else
      var d := Invalidated(c).(channel := None, graceStart := now);
      if stopped then d else d.(timer := Some(tid))
  }

  function AdoptSpec(c: Control, g: Gen, conn: Conn, stopped: bool): (Control, bool) {
    if c.claim == Some(g) || stopped then (c, false)
    else (Invalidated(c).(channel := Some(conn)), true)
  }

  datatype Verdict = Stale | Hold | Claim

  function DecideSpec(c: Control, g: Gen, epoch: nat, stopped: bool, live: nat, held: nat, tid: nat): (Control, Verdict) {
    if !Current(c, epoch, stopped) then (c, Stale)
    else if ShouldHold(live, held) then (c.(timer := Some(tid)), Hold)
    else (Invalidated(c.(claim := Some(g))), Claim)
  }

  /** The transport's fields under controlMu, and the sections that change them. */
  class Transport {
    var channel: Option<Conn>
    var epoch: nat
    var timer: Option<nat>
    var graceStart: nat
    var claim: Option<Gen>

    function Model(): Control
      reads this
    {
      Control(channel, epoch, timer, graceStart, claim)
    }

    method Invalidate()
      modifies this`epoch, this`timer
      ensures Model() == Invalidated(old(Model()))
    {
      epoch := epoch + 1;
      timer := None;
    }

    method OnControlLost(conn: Conn, now: nat, stopped: bool, tid: nat) returns (closeOnly: bool)
      modifies this
      ensures Model() == LostSpec(old(Model()), conn, now, stopped, tid)
      ensures closeOnly == (old(channel) != Some(conn))
    {
      if channel != Some(conn) { return true; }
      channel := None;
      Invalidate();
      graceStart := now;
      if !stopped { timer := Some(tid); }
      return false;
    }

    method AdoptControl(g: Gen, conn: Conn, stopped: bool) returns (stale: Option<Conn>, ok: bool)
      modifies this
      ensures (Model(), ok) == AdoptSpec(old(Model()), g, conn, stopped)
      ensures ok <==> !stopped && claim != Some(g)
      ensures if ok then channel == Some(conn) && epoch == old(epoch) + 1 && timer == None && claim == old(claim)
              else Model() == old(Model())
      ensures stale == if ok then old(channel) else None
    {
      if claim == Some(g) || stopped { return None, false; }
      stale := channel;
      channel := Some(conn);
      Invalidate();
      return stale, true;
    }

    method Decide(g: Gen, e: nat, stopped: bool, live: nat, held: nat, tid: nat) returns (v: Verdict)
      modifies this
      ensures (Model(), v) == DecideSpec(old(Model()), g, e, stopped, live, held, tid)
      ensures v == Stale <==> stopped || old(channel) != None || old(epoch) != e
      ensures v == Hold <==> v != Stale && live > 0 && held < 90
      ensures v == Claim ==> claim == Some(g) && epoch == e + 1 && timer == None
      ensures v == Hold ==> claim == old(claim) && epoch == e && timer == Some(tid)
    {
      if !(epoch == e && channel == None && !stopped) { return Stale; }
      if ShouldHold(live, held) {
        timer := Some(tid);
        return Hold;
      }
      claim := Some(g);
      Invalidate();
      return Claim;
    }
  }

  // ---------------------------------------------------------------------------
  // Every interleaving
  // ---------------------------------------------------------------------------

  /** A timer, armed for the loss `epoch` of generation g, and its callback. */
  datatype Phase = Armed | Fired | Measured(held: nat, at: nat)
  datatype Timer = Timer(g: Gen, epoch: nat, armedAt: nat, phase: Phase)

  datatype Claimed = Claimed(g: Gen, epoch: nat)

  /** A hold extended at time `at` on the time held at `measured`. */
  datatype Rearm = Rearm(epoch: nat, lossAt: nat, held: nat, measured: nat, at: nat)

  /** `arms` counts the timers armed for the current loss. `joined` says that a restart
      has waited for the workers of the current generation. */
  datatype Sys = Sys(
    ctl: Control, now: nat, gen: Gen, stopped: set<Gen>, workers: map<Gen, nat>, joined: bool,
    timers: map<nat, Timer>, next: nat, arms: nat, claims: seq<Claimed>, rearms: seq<Rearm>)

  datatype Event =
    | Tick(d: nat)
    | Enter(g: Gen)
    | Exit(g: Gen)
    | Adopt(g: Gen, conn: Conn)
    | Lose(conn: Conn)
    | Fire(tid: nat)
    | Measure(tid: nat)
    | Decide(tid: nat, live: nat)
    | Stop
    | InvalidateGrace
    | Join
    | Publish

  function Start(): Sys {
    Sys(Control(None, 0, None, 0, None), 0, 0, {}, map[0 := 0], false, map[], 0, 0, [], [])
  }

  /** The end of an epoch stops its timer if that has not fired yet. */
  function StopTimer(y: Sys): map<nat, Timer> {
    if y.ctl.timer.Some? && y.ctl.timer.value in y.timers && y.timers[y.ctl.timer.value].phase == Armed
    then y.timers - {y.ctl.timer.value} else y.timers
  }

  predicate IsStopped(y: Sys, g: Gen) { g in y.stopped }

  function LoseStep(y: Sys, conn: Conn): Sys {
    if y.ctl.channel != Some(conn) then y
    else
      var ctl := LostSpec(y.ctl, conn, y.now, IsStopped(y, y.gen), y.next);
      if IsStopped(y, y.gen) then y.(ctl := ctl, timers := StopTimer(y), arms := 0)
      else y.(ctl := ctl, timers := StopTimer(y)[y.next := Timer(y.gen, ctl.epoch, y.now, Armed)], next := y.next + 1, arms := 1)
  }

  function DecideStep(y: Sys, tid: nat, live: nat): Sys
    requires tid in y.timers && y.timers[tid].phase.Measured?
  {
    var t := y.timers[tid];
    var (ctl, v) := DecideSpec(y.ctl, t.g, t.epoch, IsStopped(y, t.g), live, t.phase.held, y.next);
    var gone := y.timers - {tid};
    match v
    case Stale => y.(timers := gone)
    case Hold =>
      y.(ctl := ctl, timers := gone[y.next := Timer(t.g, t.epoch, y.now, Armed)], next := y.next + 1, arms := y.arms + 1,
         rearms := y.rearms + [Rearm(t.epoch, y.ctl.graceStart, t.phase.held, t.phase.at, y.now)])
    case Claim => y.(ctl := ctl, timers := StopTimer(y) - {tid}, arms := 0, claims := y.claims + [Claimed(t.g, t.epoch)])
  }

  function Step(y: Sys, e: Event): Sys {
    match e
    case Tick(d) => y.(now := y.now + d)
    case Enter(g) => if g in y.workers && !IsStopped(y, g) then y.(workers := y.workers[g := y.workers[g] + 1]) else y
    case Exit(g) => if g in y.workers && y.workers[g] > 0 then y.(workers := y.workers[g := y.workers[g] - 1]) else y
    case Adopt(g, conn) =>
      var (ctl, ok) := AdoptSpec(y.ctl, g, conn, IsStopped(y, g));
      if g !in y.workers || !ok then y else y.(ctl := ctl, timers := StopTimer(y), arms := 0)
    case Lose(conn) => LoseStep(y, conn)
    case Fire(tid) =>
      if tid in y.timers && y.timers[tid].phase == Armed && y.now >= y.timers[tid].armedAt + GRACE_WINDOW
      then y.(timers := y.timers[tid := y.timers[tid].(phase := Fired)]) else y
    case Measure(tid) =>
      if tid !in y.timers || y.timers[tid].phase != Fired then y
      else if Current(y.ctl, y.timers[tid].epoch, IsStopped(y, y.timers[tid].g)) && y.ctl.graceStart <= y.now
      then y.(timers := y.timers[tid := y.timers[tid].(phase := Measured(y.now - y.ctl.graceStart, y.now))])
      else y.(timers := y.timers - {tid})
    case Decide(tid, live) =>
      if tid !in y.timers || !y.timers[tid].phase.Measured? then y else DecideStep(y, tid, live)
    case Stop => y.(stopped := y.stopped + {y.gen})
    case InvalidateGrace => y.(ctl := Invalidated(y.ctl), timers := StopTimer(y), arms := 0)
    case Join => if IsStopped(y, y.gen) && y.gen in y.workers && y.workers[y.gen] == 0 then y.(joined := true) else y
    case Publish =>
      if !y.joined then y
      else y.(ctl := Invalidated(y.ctl).(channel := None, claim := None), timers := StopTimer(y), arms := 0,
              gen := y.gen + 1, joined := false, workers := y.workers[y.gen + 1 := 0])
  }

  function Run(y: Sys, es: seq<Event>): Sys
    decreases |es|
  {
    if es == [] then y else Step(Run(y, es[..|es| - 1]), es[|es| - 1])
  }

  // ---------------------------------------------------------------------------
  // What every step keeps
  // ---------------------------------------------------------------------------

  /** Only the current generation can still be running. */
  ghost predicate Generations(y: Sys) {
    && (forall g: Gen :: g in y.workers <==> g <= y.gen)
    && (forall g: Gen :: g < y.gen ==> g in y.stopped && y.workers[g] == 0)
    && (forall g :: g in y.stopped ==> g <= y.gen)
    && (y.joined ==> y.gen in y.stopped && y.workers[y.gen] == 0)
  }

  /** A claimed generation is the current one and has no channel. */
  predicate ClaimHolds(y: Sys) {
    && (y.ctl.claim.Some? ==> y.ctl.claim.value == y.gen && y.ctl.channel.None?)
    && (forall i :: 0 <= i < |y.claims| ==> y.claims[i].epoch < y.ctl.epoch)
    && (forall i, j :: 0 <= i < j < |y.claims| ==> y.claims[i].epoch < y.claims[j].epoch)
  }

  /** A timer of the current epoch: there is one at most, armed for the current
      generation, and late enough for the number of times the loss was held. */
  predicate TimerOk(y: Sys, tid: nat, t: Timer) {
    && tid < y.next && t.epoch <= y.ctl.epoch && t.armedAt <= y.now
    && (t.epoch == y.ctl.epoch ==>
        && y.ctl.timer == Some(tid) && t.g == y.gen && y.ctl.graceStart <= y.now
        && 1 <= y.arms && t.armedAt >= y.ctl.graceStart + GRACE_WINDOW * (y.arms - 1)
        && (t.phase != Armed ==> y.now >= y.ctl.graceStart + GRACE_WINDOW * y.arms)
        && (t.phase.Measured? ==> t.phase.held >= GRACE_WINDOW * y.arms && y.ctl.graceStart + t.phase.held == t.phase.at <= y.now))
  }

  predicate RearmOk(r: Rearm) { r.held < MAX_HOLD && r.measured == r.lossAt + r.held && r.measured <= r.at }

  predicate Timers(y: Sys) {
    && (forall tid :: tid in y.timers ==> TimerOk(y, tid, y.timers[tid]))
    && (y.ctl.timer.Some? ==> y.ctl.timer.value < y.next)
    && y.arms <= 3
    && (forall i :: 0 <= i < |y.rearms| ==> RearmOk(y.rearms[i]))
  }

  ghost predicate Inv(y: Sys) { Generations(y) && ClaimHolds(y) && Timers(y) }

  lemma EpochEndKeepsTimers(y: Sys, z: Sys)
    requires Timers(y) && z.ctl.epoch == y.ctl.epoch + 1 && z.ctl.timer.None? && z.next == y.next && z.now == y.now
    requires z.arms == 0 && z.rearms == y.rearms
    requires forall tid :: tid in z.timers ==> tid in y.timers && z.timers[tid] == y.timers[tid]
    ensures Timers(z)
  {
  }

  lemma LoseKeepsInv(y: Sys, conn: Conn)
    requires Inv(y)
    ensures Inv(LoseStep(y, conn))
  {
  }

  lemma DecideKeepsInv(y: Sys, tid: nat, live: nat)
    requires Inv(y) && tid in y.timers && y.timers[tid].phase.Measured?
    ensures Inv(DecideStep(y, tid, live))
  {
  }

  lemma WorkerStepKeepsInv(y: Sys, e: Event)
    requires Inv(y) && (e.Tick? || e.Enter? || e.Exit? || e.Stop? || e.Join?)
    ensures Inv(Step(y, e))
  {
    var z := Step(y, e);
    forall tid | tid in z.timers ensures TimerOk(z, tid, z.timers[tid]) {
      assert TimerOk(y, tid, y.timers[tid]);
    }
  }

  lemma CallbackKeepsInv(y: Sys, e: Event)
    requires Inv(y) && (e.Fire? || e.Measure?)
    ensures Inv(Step(y, e))
  {
    var z := Step(y, e);
    forall tid | tid in z.timers ensures TimerOk(z, tid, z.timers[tid]) {
      assert TimerOk(y, tid, y.timers[tid]);
    }
  }

  lemma AdoptKeepsInv(y: Sys, g: Gen, conn: Conn)
    requires Inv(y)
    ensures Inv(Step(y, Adopt(g, conn)))
  {
    var z := Step(y, Adopt(g, conn));
    if g in y.workers && AdoptSpec(y.ctl, g, conn, IsStopped(y, g)).1 {
      assert g == y.gen && y.ctl.claim.None?;
      EpochEndKeepsTimers(y, z);
      assert Generations(z) && ClaimHolds(z);
    }
  }

  lemma InvalidateKeepsInv(y: Sys)
    requires Inv(y)
    ensures Inv(Step(y, InvalidateGrace))
  {
    EpochEndKeepsTimers(y, Step(y, InvalidateGrace));
  }

  lemma PublishKeepsInv(y: Sys)
    requires Inv(y)
    ensures Inv(Step(y, Publish))
  {
    if y.joined {
      var z := Step(y, Publish);
      EpochEndKeepsTimers(y, z);
      assert Generations(z) && ClaimHolds(z);
    }
  }

  lemma StepKeepsInv(y: Sys, e: Event)
    requires Inv(y)
    ensures Inv(Step(y, e))
  {
    match e
    case Lose(conn) => LoseKeepsInv(y, conn);
    case Decide(tid, live) =>
      if tid in y.timers && y.timers[tid].phase.Measured? { DecideKeepsInv(y, tid, live); }
    case Adopt(g, conn) => AdoptKeepsInv(y, g, conn);
    case InvalidateGrace => InvalidateKeepsInv(y);
    case Publish => PublishKeepsInv(y);
    case Fire(_) => CallbackKeepsInv(y, e);
    case Measure(_) => CallbackKeepsInv(y, e);
    case _ => WorkerStepKeepsInv(y, e);
  }

  lemma {:induction false} RunKeepsInv(es: seq<Event>)
    ensures Inv(Run(Start(), es))
    decreases |es|
  {
    if es == [] {
      assert Start().workers.Keys == {0};
    } else {
      RunKeepsInv(es[..|es| - 1]);
      StepKeepsInv(Run(Start(), es[..|es| - 1]), es[|es| - 1]);
    }
  }

  // ---------------------------------------------------------------------------
  // What that means
  // ---------------------------------------------------------------------------

  /** A generation committed to a restart has no control channel and gets none, by
      whichever generation's handler it is offered; and no loss epoch is claimed twice. */
  lemma ClaimedGenerationIsRefused(es: seq<Event>, g: Gen, conn: Conn)
    ensures var y := Run(Start(), es);
      && (y.ctl.claim.Some? ==> y.ctl.channel.None? && y.ctl.claim.value == y.gen && Step(y, Adopt(g, conn)) == y)
      && (forall i, j :: 0 <= i < j < |y.claims| ==> y.claims[i].epoch != y.claims[j].epoch)
  {
    RunKeepsInv(es);
    var y := Run(Start(), es);
    if y.ctl.claim.Some? { ClaimedRefuses(y, g, conn); }
  }

  lemma ClaimedRefuses(y: Sys, g: Gen, conn: Conn)
    requires Generations(y) && ClaimHolds(y) && y.ctl.claim.Some?
    ensures Step(y, Adopt(g, conn)) == y
  {
    if g in y.workers && g != y.gen { assert g in y.stopped; }
  }

  // What is done about a loss, exactly

  /** A claim leaves no timer or callback of the current epoch. */
  predicate ClaimEndsHold(y: Sys) {
    y.ctl.claim.Some? ==> forall tid :: tid in y.timers ==> y.timers[tid].epoch < y.ctl.epoch
  }

  lemma StepKeepsClaimEndsHold(y: Sys, e: Event)
    requires Inv(y) && ClaimEndsHold(y)
    ensures ClaimEndsHold(Step(y, e))
  {
    forall tid | tid in y.timers ensures y.timers[tid].epoch <= y.ctl.epoch { assert TimerOk(y, tid, y.timers[tid]); }
    if e.Adopt? && y.ctl.claim.Some? { ClaimedRefuses(y, e.g, e.conn); }
  }

  lemma {:induction false} RunKeepsClaimEndsHold(es: seq<Event>)
    ensures ClaimEndsHold(Run(Start(), es))
    decreases |es|
  {
    if es != [] {
      RunKeepsInv(es[..|es| - 1]);
      RunKeepsClaimEndsHold(es[..|es| - 1]);
      StepKeepsClaimEndsHold(Run(Start(), es[..|es| - 1]), es[|es| - 1]);
    }
  }

  /** In every run the current generation gets the channel it is offered - in a new epoch,
      with no timer and no callback left that could act - if and only if it has not stopped
      and no restart of it is claimed. */
  lemma AdoptsExactlyWhen(es: seq<Event>, conn: Conn)
    ensures var y := Run(Start(), es); var z := Step(y, Adopt(y.gen, conn));
      (&& z.ctl.channel == Some(conn) && z.ctl.epoch == y.ctl.epoch + 1 && z.ctl.timer.None?
       && forall tid :: tid in z.timers ==> z.timers[tid].epoch < z.ctl.epoch)
      <==> y.gen !in y.stopped && y.ctl.claim.None?
  {
    RunKeepsInv(es);
    var y := Run(Start(), es);
    forall tid | tid in y.timers ensures y.timers[tid].epoch <= y.ctl.epoch { assert TimerOk(y, tid, y.timers[tid]); }
  }

  /** As long as a loss is held - a timer or callback of its epoch is left - the client can
      reattach, unless the generation was stopped for another reason. */
  lemma HeldLossCanReattach(es: seq<Event>, tid: nat, conn: Conn)
    requires var y := Run(Start(), es); tid in y.timers && y.timers[tid].epoch == y.ctl.epoch && y.gen !in y.stopped
    ensures Step(Run(Start(), es), Adopt(Run(Start(), es).gen, conn)).ctl.channel == Some(conn)
  {
    RunKeepsClaimEndsHold(es);
    AdoptsExactlyWhen(es, conn);
  }

  /** The loss of the current channel, and of no other, starts a new epoch and the clock; it
      arms one timer, unless the generation has stopped. */
  lemma LosesExactlyWhen(es: seq<Event>, conn: Conn)
    ensures var y := Run(Start(), es); var z := Step(y, Lose(conn));
      if y.ctl.channel != Some(conn) then z == y
      else
        && z.ctl.channel.None? && z.ctl.epoch == y.ctl.epoch + 1 && z.ctl.graceStart == y.now && z.ctl.claim == y.ctl.claim
        && (y.gen in y.stopped ==> forall tid :: tid in z.timers ==> z.timers[tid].epoch < z.ctl.epoch)
        && (y.gen !in y.stopped ==> y.next in z.timers && z.timers[y.next] == Timer(y.gen, z.ctl.epoch, y.now, Armed))
  {
    RunKeepsInv(es);
    var y := Run(Start(), es);
    forall tid | tid in y.timers ensures y.timers[tid].epoch <= y.ctl.epoch { assert TimerOk(y, tid, y.timers[tid]); }
  }

  /** What the callback of the current loss decides: with a session live and less than 90 s
      held when it measured, another timer; else - with no session at all, at once - the
      restart. */
  lemma DecidesExactlyWhen(es: seq<Event>, tid: nat, live: nat)
    requires var y := Run(Start(), es);
      && tid in y.timers && y.timers[tid].phase.Measured? && y.timers[tid].epoch == y.ctl.epoch
      && y.ctl.channel.None? && y.gen !in y.stopped
    ensures var y := Run(Start(), es); var t := y.timers[tid]; var z := Step(y, Decide(tid, live));
      if live > 0 && t.phase.held < 90 then
        && z.rearms == y.rearms + [Rearm(t.epoch, y.ctl.graceStart, t.phase.held, t.phase.at, y.now)]
        && z.ctl.epoch == y.ctl.epoch && z.ctl.claim.None? && z.claims == y.claims
        && y.next in z.timers && z.timers[y.next] == Timer(y.gen, t.epoch, y.now, Armed)
      else
        && z.ctl.claim == Some(y.gen) && z.claims == y.claims + [Claimed(y.gen, t.epoch)]
        && z.ctl.epoch == y.ctl.epoch + 1 && z.rearms == y.rearms
  {
    RunKeepsInv(es);
    RunKeepsClaimEndsHold(es);
    assert TimerOk(Run(Start(), es), tid, Run(Start(), es).timers[tid]);
  }

  /** A stopped generation whose workers have all ended is replaced: the next one has none,
      takes workers and a channel. */
  lemma RestartPublishes(es: seq<Event>, conn: Conn)
    requires var y := Run(Start(), es); y.gen in y.stopped && y.gen in y.workers && y.workers[y.gen] == 0
    ensures var y := Run(Start(), es); var z := Step(Step(y, Join), Publish);
      && z.gen == y.gen + 1 && z.gen in z.workers && z.workers[z.gen] == 0 && z.gen !in z.stopped
      && z.ctl.channel.None? && z.ctl.claim.None? && z.ctl.epoch == y.ctl.epoch + 1
      && Step(z, Enter(z.gen)).workers == z.workers[z.gen := 1]
      && Step(z, Adopt(z.gen, conn)).ctl.channel == Some(conn)
  {
    RunKeepsInv(es);
    NextGeneration(Run(Start(), es));
    NextGenerationServes(Step(Step(Run(Start(), es), Join), Publish), conn);
  }

  lemma NextGeneration(y: Sys)
    requires Inv(y) && y.gen in y.stopped && y.gen in y.workers && y.workers[y.gen] == 0
    ensures var z := Step(Step(y, Join), Publish);
      && z.gen == y.gen + 1 && z.gen in z.workers && z.workers[z.gen] == 0 && z.gen !in z.stopped
      && z.ctl.channel.None? && z.ctl.claim.None? && z.ctl.epoch == y.ctl.epoch + 1
  {
  }

  lemma NextGenerationServes(z: Sys, conn: Conn)
    requires z.gen in z.workers && z.workers[z.gen] == 0 && z.gen !in z.stopped && z.ctl.claim.None?
    ensures Step(z, Enter(z.gen)).workers == z.workers[z.gen := 1]
    ensures Step(z, Adopt(z.gen, conn)).ctl.channel == Some(conn)
  {
  }

  /** At most one timer or running callback belongs to the current epoch. */
  lemma OneTimerPerLoss(es: seq<Event>, a: nat, b: nat)
    requires var y := Run(Start(), es);
      a in y.timers && b in y.timers && y.timers[a].epoch == y.ctl.epoch == y.timers[b].epoch
    ensures a == b
  {
    RunKeepsInv(es);
  }

  /** A callback of an older epoch, wherever in its course it is, neither re-arms nor
      claims: all it can do is end. */
  lemma StaleCallbackIsInert(es: seq<Event>, tid: nat, live: nat)
    requires var y := Run(Start(), es); tid in y.timers && y.timers[tid].epoch != y.ctl.epoch
    ensures var y := Run(Start(), es);
      forall e :: e == Measure(tid) || e == Decide(tid, live) ==>
        Step(y, e) == y || Step(y, e) == y.(timers := y.timers - {tid})
  {
  }

  /** The hold is bounded: a loss is held by its first timer and at most two re-arms,
      each decided on less than MAX_HOLD since the loss. */
  lemma HoldIsBounded(es: seq<Event>)
    ensures var y := Run(Start(), es);
      y.arms <= 3 && forall i :: 0 <= i < |y.rearms| ==> y.rearms[i].held < MAX_HOLD
  {
    RunKeepsInv(es);
  }

  /** No callback decides more than d after it measured. */
  ghost predicate Prompt(es: seq<Event>, d: nat) {
    forall k :: 0 <= k < |es| && es[k].Decide? ==> InTime(Run(Start(), es[..k]), es[k].tid, d)
  }

  predicate InTime(y: Sys, tid: nat, d: nat) {
    tid in y.timers && y.timers[tid].phase.Measured? ==> y.now <= y.timers[tid].phase.at + d
  }

  lemma {:induction false} PromptRearms(es: seq<Event>, d: nat)
    requires Prompt(es, d)
    ensures forall i :: 0 <= i < |Run(Start(), es).rearms| ==>
      Run(Start(), es).rearms[i].at <= Run(Start(), es).rearms[i].measured + d
    decreases |es|
  {
    if es != [] {
      var n := |es| - 1;
      forall k | 0 <= k < n ensures es[..n][..k] == es[..k] {}
      PromptRearms(es[..n], d);
      var y := Run(Start(), es[..n]);
      assert es[n].Decide? ==> InTime(y, es[n].tid, d);
    }
  }

  /** All re-arms of all runs with callbacks no slower than d come before `bound` has passed
      since the loss. */
  ghost predicate RearmsWithin(d: nat, bound: nat) {
    forall es :: Prompt(es, d) ==> forall i :: 0 <= i < |Run(Start(), es).rearms| ==>
      Run(Start(), es).rearms[i].at < Run(Start(), es).rearms[i].lossAt + bound
  }

  /** How late a re-arm can come, exactly: the time held is measured before the live sessions
      are counted, so what passes in between comes on top of MAX_HOLD. In particular no hold
      is re-armed once MAX_HOLD has passed if and only if nothing passes in between. */
  lemma RearmsWithinExactly(d: nat, bound: nat)
    ensures RearmsWithin(d, bound) <==> MAX_HOLD + d <= bound
  {
    if MAX_HOLD + d <= bound {
      forall es | Prompt(es, d)
        ensures forall i :: 0 <= i < |Run(Start(), es).rearms| ==>
          Run(Start(), es).rearms[i].at < Run(Start(), es).rearms[i].lossAt + bound
      {
        PromptRearms(es, d);
        RunKeepsInv(es);
      }
    } else {
      SlowCountRearms(d);
      var late := Run(Start(), SlowCount(d)).rearms;
      assert late[0].at >= late[0].lossAt + bound;
    }
  }

  /** A loss at time 0 whose first callback comes just in time, and takes d to count the
      sessions. */
  function SlowCount(d: nat): seq<Event> {
    [Adopt(0, 5), Lose(5), Tick(MAX_HOLD - 1), Fire(0), Measure(0), Tick(d), Decide(0, 1)]
  }

  lemma RunSnoc(es: seq<Event>, n: nat)
    requires n < |es|
    ensures Run(Start(), es[..n + 1]) == Step(Run(Start(), es[..n]), es[n])
  {
    assert es[..n + 1][..n] == es[..n];
  }

  /** The control channel is lost and the callback of its timer has measured. */
  function Counting(): Sys {
    Start().(ctl := Control(None, 2, Some(0), 0, None), now := MAX_HOLD - 1, next := 1, arms := 1,
             timers := map[0 := Timer(0, 2, 0, Measured(MAX_HOLD - 1, MAX_HOLD - 1))])
  }

  function Losing(): Sys {
    Start().(ctl := Control(None, 2, Some(0), 0, None), timers := map[0 := Timer(0, 2, 0, Armed)], next := 1, arms := 1)
  }

  lemma LossArms()
    ensures Step(Step(Start(), Adopt(0, 5)), Lose(5)) == Losing()
  {
  }

  lemma CallbackMeasures()
    ensures Step(Step(Step(Losing(), Tick(MAX_HOLD - 1)), Fire(0)), Measure(0)) == Counting()
  {
    var y := Step(Step(Losing(), Tick(MAX_HOLD - 1)), Fire(0));
    assert y == Losing().(now := MAX_HOLD - 1, timers := map[0 := Timer(0, 2, 0, Fired)]);
  }

  lemma SlowCountMeasures(d: nat)
    ensures Run(Start(), SlowCount(d)[..5]) == Counting()
  {
    var es := SlowCount(d);
    RunSnoc(es, 0);
    RunSnoc(es, 1);
    LossArms();
    RunSnoc(es, 2);
    RunSnoc(es, 3);
    RunSnoc(es, 4);
    CallbackMeasures();
  }

  lemma CountingHolds(d: nat)
    ensures var y := Step(Counting(), Tick(d));
      && InTime(y, 0, d)
      && Step(y, Decide(0, 1)).rearms == [Rearm(2, 0, MAX_HOLD - 1, MAX_HOLD - 1, MAX_HOLD - 1 + d)]
  {
  }

  lemma SlowCountRearms(d: nat)
    ensures Prompt(SlowCount(d), d)
    ensures Run(Start(), SlowCount(d)).rearms == [Rearm(2, 0, MAX_HOLD - 1, MAX_HOLD - 1, MAX_HOLD - 1 + d)]
  {
    var es := SlowCount(d);
    SlowCountMeasures(d);
    RunSnoc(es, 5);
    RunSnoc(es, 6);
    assert es[..7] == es;
    CountingHolds(d);
  }

  /** Isolation: whatever restarts, join timeouts and late starts are interleaved, no
      worker of an earlier generation runs once a later one is published, and none can
      be started in it. */
  lemma GenerationsDoNotOverlap(es: seq<Event>, g: Gen)
    requires g < Run(Start(), es).gen
    ensures var y := Run(Start(), es);
      g in y.workers && y.workers[g] == 0 && Step(y, Enter(g)) == y && forall conn :: Step(y, Adopt(g, conn)) == y
  {
    RunKeepsInv(es);
  }

  /** A timer fires once half a minute has passed since it was armed, and not before. */
  lemma FiresExactlyWhenDue(es: seq<Event>, tid: nat)
    requires var y := Run(Start(), es); tid in y.timers && y.timers[tid].phase == Armed
    ensures var y := Run(Start(), es);
      Step(y, Fire(tid)).timers[tid].phase == Fired <==> y.now >= y.timers[tid].armedAt + 30
  {
  }

  /** A stop is a stop, and workers end one by one. */
  lemma GenerationsEnd(y: Sys)
    ensures y.gen in Step(y, Stop).stopped
    ensures y.gen in y.workers && y.workers[y.gen] > 0 ==>
      Step(y, Exit(y.gen)).workers == y.workers[y.gen := y.workers[y.gen] - 1]
  {
  }
}
