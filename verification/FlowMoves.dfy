/** Where a resumable flow is: the record a flow keeps of the pool sessions carrying
    its tunnel while swaps between tunnels are recorded, built, installed and settled
    by concurrent callers, in any order, and while sessions are retired under them. */
module FlowMoves {

  import opened Wrappers

  type Session = nat

  // ---------------------------------------------------------------------------
  // The record, as a value
  // ---------------------------------------------------------------------------

  /** One swap in flight: the sessions it takes the flow onto, and its place among
      the flow's swaps once its tunnel is built (0 before that). */
  datatype MoveInfo = MoveInfo(to: seq<Session>, order: nat)

  /** The lock-guarded part of a flow. `M` is the identity of a pending move: two
      moves onto the same sessions are still two moves. */
  datatype Record<M> = Record(
    sess: seq<Session>, striped: bool, moves: map<M, MoveInfo>, swaps: nat, at: nat)

  function MovingSpec<M>(r: Record<M>, m: M, to: seq<Session>): Record<M> {
    r.(moves := r.moves[m := MoveInfo(to, 0)])
  }

  function StayedSpec<M>(r: Record<M>, m: M): Record<M> {
    r.(moves := r.moves - {m})
  }

  function TookSpec<M>(r: Record<M>, m: M): Record<M>
    requires m in r.moves
  {
    r.(moves := r.moves[m := r.moves[m].(order := r.swaps + 1)], swaps := r.swaps + 1)
  }

  function MovedSpec<M>(r: Record<M>, m: M, striped: bool): Record<M>
    requires m in r.moves
  {
    var i := r.moves[m];
    var dropped := r.(moves := r.moves - {m});
    if i.order > r.at then dropped.(sess := i.to, striped := striped, at := i.order) else dropped
  }

  /** The flow counts as carried by the sessions it is on and by those of every
      pending move. */
  ghost predicate OnSpec<M>(r: Record<M>, s: Session) {
    s in r.sess || exists m :: m in r.moves && s in r.moves[m].to
  }

  // ---------------------------------------------------------------------------
  // The record, as the object the server locks
  // ---------------------------------------------------------------------------

  /** Taking out one entry of a list without repetitions leaves the others. */
  lemma Cut<T>(s: seq<T>, i: nat)
    requires i < |s| && forall j, k :: 0 <= j < k < |s| ==> s[j] != s[k]
    ensures var t := s[..i] + s[i + 1..];
      && (forall x :: x in t <==> x in s && x != s[i])
      && (forall j, k :: 0 <= j < k < |t| ==> t[j] != t[k])
  {
    var t := s[..i] + s[i + 1..];
    forall j | 0 <= j < |t| ensures t[j] == s[if j < i then j else j + 1] {}
    forall x | x in s && x != s[i] ensures x in t {
      var j :| 0 <= j < |s| && s[j] == x;
      assert t[if j < i then j else j - 1] == x;
    }
  }

  class FlowMove {
    const to: seq<Session>
    var order: nat
    constructor (to: seq<Session>)
      ensures this.to == to && order == 0
    {
      this.to, order := to, 0;
    }
  }

  class ResumableFlow {
    var sess: seq<Session>
    var striped: bool
    var moves: seq<FlowMove>
    var swaps: nat
    var at: nat

    ghost predicate Valid()
      reads this
    {
      forall i, j :: 0 <= i < j < |moves| ==> moves[i] != moves[j]
    }

    ghost function Model(): Record<FlowMove>
      reads this, moves
    {
      Record(sess, striped, map m | m in moves :: MoveInfo(m.to, m.order), swaps, at)
    }

    constructor (first: Session)
      ensures Valid() && Model() == Record([first], false, map[], 0, 0)
    {
      sess, striped, moves, swaps, at := [first], false, [], 0, 0;
    }

    method Moving(to: seq<Session>) returns (m: FlowMove)
      requires Valid()
      modifies this`moves
      ensures Valid() && fresh(m) && m in moves
      ensures Model() == MovingSpec(old(Model()), m, to)
    {
      m := new FlowMove(to);
      moves := moves + [m];
      assert forall x :: x in moves <==> x in old(moves) || x == m;
    }

    method Stayed(m: FlowMove)
      requires Valid()
      modifies this`moves
      ensures Valid() && Model() == StayedSpec(old(Model()), m)
    {
      DropMove(m);
    }

    method Took(m: FlowMove)
      requires Valid() && m in moves
      modifies this`swaps, m
      ensures Valid() && Model() == TookSpec(old(Model()), m)
    {
      swaps := swaps + 1;
      m.order := swaps;
    }

    method Moved(m: FlowMove, stripedNow: bool)
      requires Valid() && m in moves
      modifies this
      ensures Valid() && Model() == MovedSpec(old(Model()), m, stripedNow)
    {
      DropMove(m);
      if m.order > at {
        sess, striped, at := m.to, stripedNow, m.order;
      }
    }

    method IndexOf(m: FlowMove) returns (i: nat)
      ensures if i < |moves| then moves[i] == m else m !in moves
    {
      i := 0;
      while i < |moves| && moves[i] != m
        invariant 0 <= i <= |moves| && m !in moves[..i]
      {
        i := i + 1;
      }
    }

    /** Removes m's entry, and only m's, however many entries name the same sessions. */
    method DropMove(m: FlowMove)
      requires Valid()
      modifies this`moves
      ensures Valid() && Model() == StayedSpec(old(Model()), m)
    {
      var i := IndexOf(m);
      if i < |moves| {
        Cut(moves, i);
        moves := moves[..i] + moves[i + 1..];
      }
      assert Model().moves == old(Model()).moves - {m};
    }

    method On(s: Session) returns (r: bool)
      ensures r <==> OnSpec(Model(), s)
    {
      if s in sess { return true; }
      var i := 0;
      while i < |moves|
        invariant 0 <= i <= |moves|
        invariant forall k :: 0 <= k < i ==> s !in moves[k].to
      {
        if s in moves[i].to {
          assert moves[i] in Model().moves;
          return true;
        }
        i := i + 1;
      }
      return false;
    }
  }

  // ---------------------------------------------------------------------------
  // Every interleaving of swaps and their settlements
  // ---------------------------------------------------------------------------

  datatype Phase = Recorded | Built | Installed
  datatype Outcome = Pending | Went | Refused

  datatype Move = Move(to: seq<Session>, striped: bool, order: nat, phase: Phase, outcome: Outcome)

  /** One flow and its swapper. Move 0 is the flow's first placement. `tunnel` is the
      move whose tunnel the swapper runs on (None while suspended), `recId` the one the
      record describes, `newest` the highest order installed so far, and `inOrder` says
      that tunnels were installed in the order they were built. */
  datatype Flow = Flow(
    rec: Record<nat>, hist: map<nat, Move>, tunnel: Option<nat>, recId: nat, newest: nat, inOrder: bool)

  datatype Swap =
    | Begin(id: nat, to: seq<Session>, striped: bool)
    | Build(id: nat)
    | Install(id: nat)
    | Suspend
    | SettleMoved(id: nat)
    | SettleStayed(id: nat)

  function Opened(first: Session): Flow {
    Flow(Record([first], false, map[], 0, 0), map[0 := Move([first], false, 0, Installed, Went)], Some(0), 0, 0, true)
  }

  predicate CanSwap(f: Flow, e: Swap) {
    match e
    case Begin(id, _, _) => id !in f.hist
    case Build(id) => id in f.hist && f.hist[id].phase == Recorded && id in f.rec.moves
    case Install(id) => id in f.hist && f.hist[id].phase == Built && id in f.rec.moves
    case Suspend => true
    case SettleMoved(id) => id in f.hist && f.hist[id].phase == Installed && id in f.rec.moves
    // the swapper reports an error only once the flow is not on that tunnel
    case SettleStayed(id) => id in f.hist && id in f.rec.moves && f.tunnel != Some(id)
  }

  /** An event that cannot happen in a state leaves it as it is, so every list of
      events is a run. */
  function SwapStep(f: Flow, e: Swap): Flow {
    if !CanSwap(f, e) then f else
      match e
      case Begin(id, to, striped) =>
        f.(hist := f.hist[id := Move(to, striped, 0, Recorded, Pending)], rec := MovingSpec(f.rec, id, to))
      case Build(id) =>
        f.(hist := f.hist[id := f.hist[id].(phase := Built, order := f.rec.swaps + 1)], rec := TookSpec(f.rec, id))
      case Install(id) =>
        var o := f.hist[id].order;
        f.(hist := f.hist[id := f.hist[id].(phase := Installed)], tunnel := Some(id),
           inOrder := f.inOrder && o > f.newest, newest := if o > f.newest then o else f.newest)
      case Suspend => f.(tunnel := None)
      case SettleMoved(id) =>
        f.(hist := f.hist[id := f.hist[id].(outcome := Went)],
           recId := if f.rec.moves[id].order > f.rec.at then id else f.recId,
           rec := MovedSpec(f.rec, id, f.hist[id].striped))
      case SettleStayed(id) =>
        f.(hist := f.hist[id := f.hist[id].(outcome := Refused)], rec := StayedSpec(f.rec, id))
  }

  /** The record's pending moves are exactly the unsettled ones, with the sessions and
      the order the callers gave them. */
  ghost predicate Pendings(f: Flow) {
    forall id :: id in f.hist ==>
      && (id in f.rec.moves <==> f.hist[id].outcome == Pending)
      && (id in f.rec.moves ==> f.rec.moves[id] == MoveInfo(f.hist[id].to, f.hist[id].order))
  }

  ghost predicate Orders(f: Flow) {
    && (forall id :: id in f.hist ==> OrderOk(f, id, f.hist[id]))
    && (forall i, j :: i in f.hist && j in f.hist && i != j && f.hist[i].order == f.hist[j].order ==> f.hist[i].phase == Recorded || f.hist[j].phase == Recorded)
  }

  predicate OrderOk(f: Flow, id: nat, m: Move) {
    && m.order <= f.rec.swaps
    && (m.phase == Installed ==> m.order <= f.newest)
    && (m.phase != Recorded && id != 0 ==> m.order > 0)
    && (m.outcome == Went ==> m.phase == Installed && m.order <= f.rec.at)
    && (m.phase == Recorded || id == 0 ==> m.order == 0)
  }

  ghost predicate Described(f: Flow) {
    && 0 in f.hist && f.hist[0].phase == Installed
    && f.recId in f.hist
    && var m := f.hist[f.recId];
      m.phase == Installed && m.outcome == Went && f.rec.sess == m.to && f.rec.striped == m.striped && f.rec.at == m.order
  }

  ghost predicate TunnelIsNewest(f: Flow) {
    f.tunnel.Some? ==>
      && f.tunnel.value in f.hist && f.hist[f.tunnel.value].phase == Installed
      && f.hist[f.tunnel.value].outcome != Refused
      && (f.inOrder ==> f.hist[f.tunnel.value].order == f.newest)
  }

  ghost predicate FlowInv(f: Flow) {
    Pendings(f) && Orders(f) && Described(f) && TunnelIsNewest(f)
  }

  lemma BeginKeepsInv(f: Flow, id: nat, to: seq<Session>, striped: bool)
    requires FlowInv(f) && id !in f.hist
    ensures FlowInv(SwapStep(f, Begin(id, to, striped)))
  {
  }

  lemma BuildKeepsInv(f: Flow, id: nat)
    requires FlowInv(f) && CanSwap(f, Build(id))
    ensures FlowInv(SwapStep(f, Build(id)))
  {
    var g := SwapStep(f, Build(id));
    assert g.hist[id].order == g.rec.swaps && id != f.recId;
    assert forall j :: j in g.hist && j != id ==> g.hist[j] == f.hist[j] && g.hist[j].order < g.rec.swaps;
  }

  lemma InstallKeepsInv(f: Flow, id: nat)
    requires FlowInv(f) && CanSwap(f, Install(id))
    ensures FlowInv(SwapStep(f, Install(id)))
  {
    var g := SwapStep(f, Install(id));
    assert forall j :: j in g.hist && j != id ==> g.hist[j] == f.hist[j];
  }

  lemma MovedKeepsInv(f: Flow, id: nat)
    requires FlowInv(f) && CanSwap(f, SettleMoved(id))
    ensures FlowInv(SwapStep(f, SettleMoved(id)))
  {
    var g := SwapStep(f, SettleMoved(id));
    assert forall j :: j in g.hist && j != id ==> g.hist[j] == f.hist[j];
  }

  lemma StayedKeepsInv(f: Flow, id: nat)
    requires FlowInv(f) && CanSwap(f, SettleStayed(id))
    ensures FlowInv(SwapStep(f, SettleStayed(id)))
  {
    var g := SwapStep(f, SettleStayed(id));
    assert forall j :: j in g.hist && j != id ==> g.hist[j] == f.hist[j];
  }

  lemma SwapKeepsInv(f: Flow, e: Swap)
    requires FlowInv(f)
    ensures FlowInv(SwapStep(f, e))
  {
    if CanSwap(f, e) {
      match e
      case Begin(id, to, striped) => BeginKeepsInv(f, id, to, striped);
      case Build(id) => BuildKeepsInv(f, id);
      case Install(id) => InstallKeepsInv(f, id);
      case Suspend =>
      case SettleMoved(id) => MovedKeepsInv(f, id);
      case SettleStayed(id) => StayedKeepsInv(f, id);
    }
  }

  /** Coverage: whatever is pending, settled late or refused, the tunnel a live flow
      runs on is the recorded one or that of a pending move; and once nothing is
      pending the record is exactly the last tunnel installed. */
  lemma RecordCoversTunnel(f: Flow)
    requires FlowInv(f) && f.inOrder && f.tunnel.Some?
    ensures var t := f.hist[f.tunnel.value];
      && (forall s :: s in t.to ==> OnSpec(f.rec, s))
      && (f.tunnel.value !in f.rec.moves ==> f.recId == f.tunnel.value && f.rec.sess == t.to && f.rec.striped == t.striped)
  {
    var id := f.tunnel.value;
    if id in f.rec.moves {
      assert f.rec.moves[id].to == f.hist[id].to;
    } else {
      assert f.hist[f.recId].order == f.rec.at;
    }
  }

  // ---------------------------------------------------------------------------
  // ... and of retirements and lost sessions
  // ---------------------------------------------------------------------------

  /** How far a mover's look at one session of the tunnel it installed has got: it
      first asks whether the session is closed, then whether it is registered. */
  datatype Look = SawOpen | Done

  /** A flow and the pool. A session is registered once (`ever`). A retirement takes it
      out of the registry and then looks for the flow (`listed`, with the moves by which it
      finds it there); a close is noticed by a watcher, which unregisters the session and
      then looks for striped flows (`regrouped`, likewise). `follow` holds the follow-up
      moves the movers started. */
  datatype Sys = Sys(
    flow: Flow,
    ever: set<Session>, reg: set<Session>, closed: set<Session>,
    retired: set<Session>, scanned: set<Session>, listed: set<(nat, Session)>,
    watched: set<Session>, watchScanned: set<Session>, regrouped: set<(nat, Session)>,
    looks: map<(nat, Session), Look>, follow: set<(nat, Session)>)

  datatype Event =
    | Swapping(e: Swap)
    | Admit(s: Session)
    | Retire(s: Session)
    | Scan(s: Session)
    | Close(s: Session)
    | WatchUnregister(s: Session)
    | WatchScan(s: Session)
    | LookClosed(id: nat, s: Session)
    | LookRegistered(id: nat, s: Session)

  function Start(first: Session): Sys {
    Sys(Opened(first), {first}, {first}, {}, {}, {}, {}, {}, {}, {}, map[], {})
  }

  predicate Enabled(y: Sys, e: Event) {
    match e
    case Swapping(w) => w.Begin? ==> forall s :: s in w.to ==> s in y.ever
    case Admit(s) => s !in y.ever
    case Retire(s) => s in y.reg
    case Scan(s) => s in y.retired && s !in y.scanned
    case Close(s) => s in y.ever
    case WatchUnregister(s) => s in y.closed
    case WatchScan(s) => s in y.watched && s !in y.watchScanned
    case LookClosed(id, s) =>
      id != 0 && id in y.flow.hist && y.flow.hist[id].outcome == Went && s in y.flow.hist[id].to && (id, s) !in y.looks
    case LookRegistered(id, s) => (id, s) in y.looks && y.looks[(id, s)] == SawOpen
  }

  /** The moves for which a look at the record finds the flow on s: the one recorded, and
      those pending. There is one exactly when the flow is on s. */
  function Found(f: Flow, s: Session): set<(nat, Session)> {
    (set id | id in f.rec.moves && s in f.rec.moves[id].to :: (id, s)) + (if s in f.rec.sess then {(f.recId, s)} else {})
  }

  lemma FoundExactlyWhenOn(f: Flow, s: Session)
    ensures Found(f, s) != {} <==> OnSpec(f.rec, s)
  {
    if s in f.rec.sess { assert (f.recId, s) in Found(f, s); }
    if id :| id in f.rec.moves && s in f.rec.moves[id].to { assert (id, s) in Found(f, s); }
  }

  ghost function Step(y: Sys, e: Event): Sys {
    if !Enabled(y, e) then y else
      match e
      case Swapping(w) => y.(flow := SwapStep(y.flow, w))
      case Admit(s) => y.(ever := y.ever + {s}, reg := y.reg + {s})
      case Retire(s) => y.(reg := y.reg - {s}, retired := y.retired + {s})
      case Scan(s) =>
        y.(scanned := y.scanned + {s}, listed := y.listed + Found(y.flow, s))
      case Close(s) => y.(closed := y.closed + {s})
      case WatchUnregister(s) => y.(reg := y.reg - {s}, watched := y.watched + {s})
      case WatchScan(s) =>
        y.(watchScanned := y.watchScanned + {s},
           regrouped := if y.flow.rec.striped then y.regrouped + Found(y.flow, s) else y.regrouped)
      case LookClosed(id, s) =>
        if s in y.closed then
          y.(looks := y.looks[(id, s) := Done], follow := if y.flow.rec.striped then y.follow + {(id, s)} else y.follow)
        else
          y.(looks := y.looks[(id, s) := SawOpen])
      case LookRegistered(id, s) =>
        y.(looks := y.looks[(id, s) := Done], follow := if s !in y.reg then y.follow + {(id, s)} else y.follow)
  }

  ghost function Run(y: Sys, es: seq<Event>): Sys
    decreases |es|
  {
    if es == [] then y else Step(Run(y, es[..|es| - 1]), es[|es| - 1])
  }

  /** The mover of a tunnel that went through has finished looking at its session s. */
  predicate Looked(y: Sys, id: nat, s: Session) {
    (id, s) in y.looks && y.looks[(id, s)] == Done
  }

  /** s is still registered, or somebody has taken charge (or is about to look) since it
      left the registry, or it took a plain stream down with it. */
  predicate Handled(y: Sys, id: nat, s: Session)
    requires id in y.flow.hist
  {
    || s in y.reg
    || (id, s) in y.follow
    || (s in y.retired && (s !in y.scanned || (id, s) in y.listed))
    || (s in y.closed && !y.flow.hist[id].striped)
    || (s in y.watched && (s !in y.watchScanned || (id, s) in y.regrouped))
  }

  /** What the registry and the looks are in any order of things. */
  ghost predicate Registry(y: Sys) {
    && y.watched <= y.closed <= y.ever && y.retired <= y.ever && y.reg <= y.ever
    && y.reg !! y.retired && y.reg !! y.watched && y.scanned <= y.retired && y.watchScanned <= y.watched
    && (forall id, s :: (id, s) in y.looks ==>
        id in y.flow.hist && y.flow.hist[id].outcome == Went && s in y.flow.hist[id].to)
  }

  /** Every session of the tunnel that its mover has looked at is taken care of. */
  ghost predicate Covered(y: Sys) {
    y.flow.inOrder && y.flow.tunnel.Some? && y.flow.tunnel.value in y.flow.hist ==>
      forall s :: Looked(y, y.flow.tunnel.value, s) ==> Handled(y, y.flow.tunnel.value, s)
  }

  ghost predicate SysInv(y: Sys) { FlowInv(y.flow) && Registry(y) && Covered(y) }

  /** Swaps add to the history, and leave a move that went through as it is. */
  lemma SwapKeepsHistory(f: Flow, w: Swap, id: nat)
    requires FlowInv(f) && id in f.hist
    ensures var g := SwapStep(f, w); id in g.hist && (f.hist[id].outcome == Went ==> g.hist[id] == f.hist[id])
  {
  }

  /** A tunnel that went through was not installed just now. */
  lemma WentStays(f: Flow, w: Swap, id: nat)
    requires id in f.hist && f.hist[id].outcome == Went && FlowInv(f)
    requires var g := SwapStep(f, w); g.inOrder && g.tunnel == Some(id)
    ensures f.tunnel == Some(id) && f.inOrder
  {
  }

  lemma FlowStepKeepsSysInv(y: Sys, w: Swap)
    requires SysInv(y)
    ensures SysInv(Step(y, Swapping(w)))
  {
    SwapKeepsInv(y.flow, w);
    forall id | id in y.flow.hist
      ensures id in SwapStep(y.flow, w).hist
      ensures y.flow.hist[id].outcome == Went ==> SwapStep(y.flow, w).hist[id] == y.flow.hist[id]
    {
      SwapKeepsHistory(y.flow, w, id);
    }
    FlowStepKeepsCovered(y, w);
  }

  lemma FlowStepKeepsCovered(y: Sys, w: Swap)
    requires SysInv(y)
    ensures Covered(Step(y, Swapping(w)))
  {
    var z := Step(y, Swapping(w));
    if z != y && z.flow.inOrder && z.flow.tunnel.Some? {
      var id := z.flow.tunnel.value;
      forall s: Session | Looked(z, id, s) && id in z.flow.hist ensures Handled(z, id, s) {
        assert (id, s) in y.looks && Looked(y, id, s);
        WentStays(y.flow, w, id);
        SwapKeepsHistory(y.flow, w, id);
        assert Handled(y, id, s);
      }
    }
  }

  lemma RegistryStepKeepsSysInv(y: Sys, e: Event)
    requires SysInv(y) && (e.Admit? || e.Retire? || e.Close? || e.WatchUnregister?)
    ensures SysInv(Step(y, e))
  {
    var z := Step(y, e);
    if y.flow.inOrder && y.flow.tunnel.Some? {
      forall s: Session | Looked(z, y.flow.tunnel.value, s)
        ensures Handled(z, y.flow.tunnel.value, s)
      {
        assert Looked(y, y.flow.tunnel.value, s);
      }
    }
  }

  /** The record of a flow on a tunnel that went through is that tunnel. */
  lemma RecordIsTunnel(f: Flow)
    requires FlowInv(f) && f.inOrder && f.tunnel.Some? && f.hist[f.tunnel.value].outcome == Went
    ensures var t := f.hist[f.tunnel.value];
      f.recId == f.tunnel.value && f.rec.sess == t.to && f.rec.striped == t.striped
  {
    RecordCoversTunnel(f);
  }

  /** Whoever looks at the sessions of a settled tunnel finds them on record. */
  lemma LookHandles(y: Sys, e: Event, id: nat, s: Session)
    requires e.Scan? || e.WatchScan? || e.LookClosed? || e.LookRegistered?
    requires id in y.flow.hist && s in y.flow.hist[id].to
    requires y.flow.recId == id && y.flow.rec.sess == y.flow.hist[id].to && y.flow.rec.striped == y.flow.hist[id].striped
    requires y.watched <= y.closed && (Looked(y, id, s) ==> Handled(y, id, s))
    ensures var z := Step(y, e); Looked(z, id, s) ==> Handled(z, id, s)
  {
    assert (id, s) in Found(y.flow, s);
  }

  lemma LookingKeepsRegistry(y: Sys, e: Event)
    requires Registry(y) && (e.Scan? || e.WatchScan? || e.LookClosed? || e.LookRegistered?)
    ensures Registry(Step(y, e)) && Step(y, e).flow == y.flow
  {
  }

  lemma LookingStepKeepsSysInv(y: Sys, e: Event)
    requires SysInv(y) && (e.Scan? || e.WatchScan? || e.LookClosed? || e.LookRegistered?)
    ensures SysInv(Step(y, e))
  {
    LookingKeepsRegistry(y, e);
    var z := Step(y, e);
    if y.flow.inOrder && y.flow.tunnel.Some? {
      var id := y.flow.tunnel.value;
      forall s: Session | Looked(z, id, s) ensures Handled(z, id, s) {
        assert y.flow.hist[id].outcome == Went && s in y.flow.hist[id].to;
        RecordIsTunnel(y.flow);
        LookHandles(y, e, id, s);
      }
    }
  }

  lemma {:induction false} RunKeepsSysInv(first: Session, es: seq<Event>)
    ensures SysInv(Run(Start(first), es))
    decreases |es|
  {
    if es != [] {
      var before, e := Run(Start(first), es[..|es| - 1]), es[|es| - 1];
      RunKeepsSysInv(first, es[..|es| - 1]);
      match e
      case Swapping(w) => FlowStepKeepsSysInv(before, w);
      case Admit(_) => RegistryStepKeepsSysInv(before, e);
      case Retire(_) => RegistryStepKeepsSysInv(before, e);
      case Close(_) => RegistryStepKeepsSysInv(before, e);
      case WatchUnregister(_) => RegistryStepKeepsSysInv(before, e);
      case _ => LookingStepKeepsSysInv(before, e);
    }
  }

  /** In every run whose tunnels are installed in the order they were built: the
      sessions a live flow's tunnel uses are all on record at every moment, and once no
      move is pending the record names exactly that tunnel's sessions and kind. */
  lemma RecordNeverLosesFlow(first: Session, es: seq<Event>)
    ensures var f := Run(Start(first), es).flow;
      f.inOrder && f.tunnel.Some? ==>
        && f.tunnel.value in f.hist
        && (forall s :: s in f.hist[f.tunnel.value].to ==> OnSpec(f.rec, s))
        && (f.rec.moves == map[] ==>
            f.rec.sess == f.hist[f.tunnel.value].to && f.rec.striped == f.hist[f.tunnel.value].striped)
  {
    RunKeepsSysInv(first, es);
    var f := Run(Start(first), es).flow;
    if f.inOrder && f.tunnel.Some? { RecordCoversTunnel(f); }
  }

  /** No moved flow is stranded: for every interleaving, once a session under its tunnel
      has left the registry and everybody has looked, a retirement or a regrouping has
      the flow on its list or the mover has started a follow-up - unless the session was
      lost under a plain stream, which is gone with it. */
  lemma NoFlowStranded(first: Session, es: seq<Event>, s: Session)
    ensures var y := Run(Start(first), es);
      (&& y.flow.inOrder && y.flow.tunnel.Some? && Looked(y, y.flow.tunnel.value, s) && s !in y.reg
       && (s in y.retired ==> s in y.scanned) && (s in y.watched ==> s in y.watchScanned))
      ==>
      (&& y.flow.tunnel.value in y.flow.hist
       && (|| (y.flow.tunnel.value, s) in y.listed || (y.flow.tunnel.value, s) in y.regrouped || (y.flow.tunnel.value, s) in y.follow
           || (s in y.closed && !y.flow.hist[y.flow.tunnel.value].striped)))
  {
    RunKeepsSysInv(first, es);
  }

  // ---------------------------------------------------------------------------
  // Nobody moves a flow without a reason
  // ---------------------------------------------------------------------------

  /** Moves are to sessions once admitted, and only moves that were begun are on record. */
  ghost predicate Begun(y: Sys) {
    && (forall id :: id in y.flow.rec.moves ==> id in y.flow.hist)
    && (forall id, s :: id in y.flow.hist && s in y.flow.hist[id].to ==> s in y.ever)
  }

  /** Whoever is to move the flow off s looked after s left the registry or was lost, and the
      move it was found by put the flow on s. */
  ghost predicate Reasons(y: Sys) {
    && (forall id, s :: (id, s) in y.follow ==> On(y.flow, id, s) && (s !in y.reg || s in y.closed))
    && (forall id, s :: (id, s) in y.listed ==> On(y.flow, id, s) && s in y.retired)
    && (forall id, s :: (id, s) in y.regrouped ==> On(y.flow, id, s) && s in y.watched)
  }

  predicate On(f: Flow, id: nat, s: Session) { id in f.hist && s in f.hist[id].to }

  lemma SwapKeepsOn(f: Flow, w: Swap, id: nat, s: Session)
    requires On(f, id, s)
    ensures On(SwapStep(f, w), id, s)
  {
  }

  lemma FoundIsOn(f: Flow, id: nat, s: Session)
    requires FlowInv(f) && (forall i :: i in f.rec.moves ==> i in f.hist) && (id, s) in Found(f, s)
    ensures On(f, id, s)
  {
  }

  lemma SwapKeepsBegun(y: Sys, w: Swap)
    requires Begun(y) && FlowInv(y.flow)
    ensures Begun(Step(y, Swapping(w)))
  {
  }

  lemma StepKeepsBegun(y: Sys, e: Event)
    requires Begun(y) && FlowInv(y.flow)
    ensures Begun(Step(y, e))
  {
    if e.Swapping? { SwapKeepsBegun(y, e.e); }
  }

  lemma SwapKeepsReasons(y: Sys, w: Swap)
    requires Reasons(y)
    ensures Reasons(Step(y, Swapping(w)))
  {
    var z := Step(y, Swapping(w));
    forall id, s | (id, s) in y.follow + y.listed + y.regrouped ensures z == y || On(z.flow, id, s) {
      SwapKeepsOn(y.flow, w, id, s);
    }
  }

  lemma ScanKeepsReasons(y: Sys, e: Event)
    requires Reasons(y) && Begun(y) && SysInv(y) && (e.Scan? || e.WatchScan?)
    ensures Reasons(Step(y, e))
  {
    forall id | (id, e.s) in Found(y.flow, e.s) ensures On(y.flow, id, e.s) { FoundIsOn(y.flow, id, e.s); }
  }

  lemma LookKeepsReasons(y: Sys, e: Event)
    requires Reasons(y) && SysInv(y) && (e.LookClosed? || e.LookRegistered?)
    ensures Reasons(Step(y, e))
  {
  }

  lemma RegistryKeepsReasons(y: Sys, e: Event)
    requires Reasons(y) && Begun(y) && (e.Admit? || e.Retire? || e.Close? || e.WatchUnregister?)
    ensures Reasons(Step(y, e))
  {
  }

  lemma {:induction false} RunKeepsReasons(first: Session, es: seq<Event>)
    ensures Begun(Run(Start(first), es)) && Reasons(Run(Start(first), es))
    decreases |es|
  {
    if es != [] {
      var y, e := Run(Start(first), es[..|es| - 1]), es[|es| - 1];
      RunKeepsReasons(first, es[..|es| - 1]);
      RunKeepsSysInv(first, es[..|es| - 1]);
      StepKeepsBegun(y, e);
      match e
      case Swapping(w) => SwapKeepsReasons(y, w);
      case Scan(_) => ScanKeepsReasons(y, e);
      case WatchScan(_) => ScanKeepsReasons(y, e);
      case LookClosed(_, _) => LookKeepsReasons(y, e);
      case LookRegistered(_, _) => LookKeepsReasons(y, e);
      case _ => RegistryKeepsReasons(y, e);
    }
  }

  /** In every run a follow-up, a retirement's list or a regrouping names the flow only by a
      move that put it on the session, and only once that session has left the registry or
      was lost: a flow whose sessions all stay open and registered is moved by nobody. */
  lemma MovesHaveReasons(first: Session, es: seq<Event>, id: nat, s: Session)
    ensures var y := Run(Start(first), es);
      && ((id, s) in y.follow + y.listed + y.regrouped ==> id in y.flow.hist && s in y.flow.hist[id].to)
      && ((id, s) in y.follow ==> s !in y.reg || s in y.closed)
      && ((id, s) in y.listed ==> s in y.retired)
      && ((id, s) in y.regrouped ==> s in y.watched)
      && (s in y.reg && s !in y.closed ==> (id, s) !in y.follow + y.listed + y.regrouped)
  {
    RunKeepsReasons(first, es);
    RunKeepsSysInv(first, es);
  }

  /** Nothing striped ever happened to the flow. */
  predicate Plain(f: Flow) { !f.rec.striped && forall id :: id in f.hist ==> !f.hist[id].striped }

  predicate BeginsStriped(e: Event) { e.Swapping? && e.e.Begin? && e.e.striped }

  lemma SwapKeepsPlain(f: Flow, w: Swap)
    requires Plain(f) && !(w.Begin? && w.striped)
    ensures Plain(SwapStep(f, w))
  {
  }

  lemma {:induction false} RunKeepsPlain(first: Session, es: seq<Event>)
    requires forall i :: 0 <= i < |es| ==> !BeginsStriped(es[i])
    ensures var y := Run(Start(first), es);
      Plain(y.flow) && y.regrouped == {} && forall id, s :: (id, s) in y.follow ==> s !in y.reg
    decreases |es|
  {
    if es != [] {
      var y, e := Run(Start(first), es[..|es| - 1]), es[|es| - 1];
      RunKeepsPlain(first, es[..|es| - 1]);
      RunKeepsReasons(first, es[..|es| - 1]);
      if e.Swapping? { SwapKeepsPlain(y.flow, e.e); }
      PlainStep(y, e);
    }
  }

  lemma PlainStep(y: Sys, e: Event)
    requires Plain(y.flow) && Begun(y) && Reasons(y) && y.regrouped == {} && forall id, s :: (id, s) in y.follow ==> s !in y.reg
    ensures var z := Step(y, e); z.regrouped == {} && forall id, s :: (id, s) in z.follow ==> s !in z.reg
  {
  }

  /** A loss under a plain stream is not for the mover or the watcher: in every run without
      striped moves nothing is regrouped, and follow-ups are for sessions that have left the
      registry. */
  lemma PlainFlowsAreNotRegrouped(first: Session, es: seq<Event>)
    requires forall i :: 0 <= i < |es| ==> !BeginsStriped(es[i])
    ensures var y := Run(Start(first), es);
      y.regrouped == {} && forall id, s :: (id, s) in y.follow ==> s !in y.reg
  {
    RunKeepsPlain(first, es);
  }

  /** Two swaps are built one after the other and installed the other way round. */
  function TwoBuilt(): Flow {
    var f := SwapStep(SwapStep(Opened(1), Begin(7, [2], false)), Begin(8, [3], false));
    SwapStep(SwapStep(f, Build(7)), Build(8))
  }

  function Misordered(): Flow {
    var f := SwapStep(SwapStep(TwoBuilt(), Install(8)), Install(7));
    SwapStep(SwapStep(f, SettleMoved(7)), SettleMoved(8))
  }

  lemma TwoBuiltState()
    ensures var f := TwoBuilt();
      && f.rec == Record([1], false, map[7 := MoveInfo([2], 1), 8 := MoveInfo([3], 2)], 2, 0)
      && 7 in f.hist && f.hist[7] == Move([2], false, 1, Built, Pending)
      && 8 in f.hist && f.hist[8] == Move([3], false, 2, Built, Pending)
      && f.inOrder && f.newest == 0
  {
    var f := SwapStep(SwapStep(Opened(1), Begin(7, [2], false)), Begin(8, [3], false));
    assert f.rec == Record([1], false, map[7 := MoveInfo([2], 0), 8 := MoveInfo([3], 0)], 0, 0);
  }

  lemma InstalledState(f: Flow)
    requires f.rec == Record([1], false, map[7 := MoveInfo([2], 1), 8 := MoveInfo([3], 2)], 2, 0)
    requires 7 in f.hist && f.hist[7] == Move([2], false, 1, Built, Pending)
    requires 8 in f.hist && f.hist[8] == Move([3], false, 2, Built, Pending) && f.newest == 0
    ensures var g := SwapStep(SwapStep(f, Install(8)), Install(7));
      && g.rec == f.rec && !g.inOrder && g.tunnel == Some(7)
      && 7 in g.hist && g.hist[7] == Move([2], false, 1, Installed, Pending)
      && 8 in g.hist && g.hist[8] == Move([3], false, 2, Installed, Pending)
  {
  }

  lemma SettledState(f: Flow)
    requires f.rec == Record([1], false, map[7 := MoveInfo([2], 1), 8 := MoveInfo([3], 2)], 2, 0)
    requires 7 in f.hist && f.hist[7] == Move([2], false, 1, Installed, Pending)
    requires 8 in f.hist && f.hist[8] == Move([3], false, 2, Installed, Pending) && f.tunnel == Some(7)
    ensures var g := SwapStep(SwapStep(f, SettleMoved(7)), SettleMoved(8));
      && g.rec.moves == map[] && g.rec.sess == [3] && g.inOrder == f.inOrder && g.tunnel == Some(7)
      && 7 in g.hist && g.hist[7].to == [2]
  {
    var g := SwapStep(f, SettleMoved(7));
    assert g.rec == Record([2], false, map[8 := MoveInfo([3], 2)], 2, 1);
  }

  /** The order contract is what the record rests on: with it broken, nothing is pending
      and yet the record names a tunnel the flow is not on. */
  lemma OutOfOrderInstallMisplacesFlow()
    ensures var f := Misordered();
      !f.inOrder && f.rec.moves == map[] && f.tunnel == Some(7) && 7 in f.hist && f.hist[7].to == [2] && f.rec.sess == [3]
  {
    TwoBuiltState();
    InstalledState(TwoBuilt());
    SettledState(SwapStep(SwapStep(TwoBuilt(), Install(8)), Install(7)));
  }

  // ---------------------------------------------------------------------------
  // The races do happen
  // ---------------------------------------------------------------------------

  /** What happens to sessions, in every state: they are admitted once, retired, looked for by
      the retirement, lost, noticed lost, and looked for again; a flow is suspended. */
  lemma EventsHappen(y: Sys, s: Session)
    ensures s !in y.ever ==> var z := Step(y, Admit(s)); z.ever == y.ever + {s} && z.reg == y.reg + {s}
    ensures s in y.reg ==> var z := Step(y, Retire(s)); z.reg == y.reg - {s} && z.retired == y.retired + {s}
    ensures s in y.retired && s !in y.scanned ==> var z := Step(y, Scan(s)); s in z.scanned && Found(y.flow, s) <= z.listed
    ensures s in y.ever ==> s in Step(y, Close(s)).closed
    ensures s in y.closed ==> var z := Step(y, WatchUnregister(s)); z.reg == y.reg - {s} && s in z.watched
    ensures s in y.watched && s !in y.watchScanned && y.flow.rec.striped ==>
      var z := Step(y, WatchScan(s)); s in z.watchScanned && Found(y.flow, s) <= z.regrouped
    ensures Step(y, Swapping(Suspend)).flow.tunnel.None?
  {
  }

  /** Each step of a swap happens when it is due. */
  lemma SwapsHappen(f: Flow, id: nat, to: seq<Session>, striped: bool)
    ensures id !in f.hist ==> var g := SwapStep(f, Begin(id, to, striped)); id in g.hist && id in g.rec.moves && g.rec.moves[id].to == to
    ensures id in f.hist && id in f.rec.moves && f.hist[id].phase == Recorded ==>
      var g := SwapStep(f, Build(id)); g.hist[id].phase == Built && g.rec.moves[id].order == f.rec.swaps + 1
    ensures id in f.hist && id in f.rec.moves && f.hist[id].phase == Built ==> SwapStep(f, Install(id)).tunnel == Some(id)
    ensures id in f.hist && id in f.rec.moves && f.hist[id].phase == Installed ==>
      var g := SwapStep(f, SettleMoved(id)); id !in g.rec.moves && g.hist[id].outcome == Went
    ensures id in f.hist && id in f.rec.moves && f.tunnel != Some(id) ==>
      var g := SwapStep(f, SettleStayed(id)); id !in g.rec.moves && g.hist[id].outcome == Refused && g.rec.sess == f.rec.sess
  {
  }
}
