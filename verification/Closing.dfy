/** What a reader has got when it sees EOF, and exactly when that is everything. */
module Closing {

  import opened Wrappers
  import opened Shaper
  import opened Integrity
  import opened Bytes
  import W = Window

  /** A frame of the stream is still to be drawn, drawn, or in the shaper. */
  predicate UnderWay(q: Queue, x: Sid, s: Stream) {
    s.rest != [] || s.at.Drawn? || exists i :: 0 <= i < |q.heap| && DataFor(q.heap[i], x)
  }

  /** A Write is under way that has not handed all its frames to the connection. */
  predicate Writing(s: Stream) { s.rest != [] || s.at.Drawn? || s.at.Waiting? }

  /** Whoever sees EOF has read every byte the shaper took. */
  predicate EofIsComplete(y: Session, x: Sid) {
    SeesEof(y, x) ==> multiset(y.streams[x].read) == multiset(y.streams[x].accepted)
  }

  /** And has read them in order. */
  predicate EofIsExact(y: Session, x: Sid) {
    SeesEof(y, x) ==> y.streams[x].read == y.streams[x].accepted
  }

  /** Whoever sees EOF has read every byte reported written by now. */
  predicate EofCoversReports(y: Session, x: Sid) {
    SeesEof(y, x) ==> |y.streams[x].read| >= y.streams[x].reported
  }

  lemma {:induction false} RunConcat(y: Session, a: seq<Event>, b: seq<Event>)
    ensures Run(y, a + b) == Run(Run(y, a), b)
    decreases |b|
  {
    if b == [] {
      assert a + b == a;
    } else {
      assert (a + b)[..|a + b| - 1] == a + b[..|b| - 1];
      RunConcat(y, a, b[..|b| - 1]);
    }
  }

  // ---------------------------------------------------------------------------
  // Nothing under way: nothing is lost
  // ---------------------------------------------------------------------------

  /** Everything taken is written, and none of it after a FIN. */
  predicate Sealed(q: Queue, x: Sid, s: Stream) {
    && s.closed.Some? && !UnderWay(q, x, s)
    && multiset(s.accepted) == multiset(DataOf(q.log, x))
    && forall p :: 0 <= p < |q.log| && FinOf(q.log[p], x) ==> DataOf(q.log[..p], x) == DataOf(q.log, x)
  }

  /** A request that carries none of x's bytes is written. */
  lemma OtherIsWritten(q: Queue, i: nat, x: Sid)
    requires i < |q.heap| && !DataFor(q.heap[i], x)
    ensures DataOf(WriteOut(q, i).log, x) == DataOf(q.log, x)
  {
    DataOfSnoc(q.log, q.heap[i], x);
    assert DataOf(q.log, x) + [] == DataOf(q.log, x);
  }

  lemma LogPrefix(q: Queue, i: nat, p: nat)
    requires i < |q.heap| && p < |WriteOut(q, i).log|
    ensures p < |q.log| ==> WriteOut(q, i).log[p] == q.log[p] && WriteOut(q, i).log[..p] == q.log[..p]
    ensures p == |q.log| ==> WriteOut(q, i).log[..p] == q.log
  {
  }

  lemma RestHasNone(q: Queue, i: nat, x: Sid)
    requires i < |q.heap| && forall k :: 0 <= k < |q.heap| ==> !DataFor(q.heap[k], x)
    ensures forall k :: 0 <= k < |WriteOut(q, i).heap| ==> !DataFor(WriteOut(q, i).heap[k], x)
  {
    var z := WriteOut(q, i);
    forall k | 0 <= k < |z.heap| ensures !DataFor(z.heap[k], x) {
      assert z.heap[k] == q.heap[if k < i then k else k + 1];
    }
  }

  lemma WriteKeepsSealed(q: Queue, i: nat, x: Sid, s: Stream, t: Stream)
    requires i < |q.heap| && Sealed(q, x, s) && t == s.(at := t.at) && !t.at.Drawn?
    ensures Sealed(WriteOut(q, i), x, t) && DataOf(WriteOut(q, i).log, x) == DataOf(q.log, x)
  {
    var z := WriteOut(q, i);
    OtherIsWritten(q, i, x);
    RestHasNone(q, i, x);
    forall p | 0 <= p < |z.log| && FinOf(z.log[p], x) ensures DataOf(z.log[..p], x) == DataOf(z.log, x) {
      LogPrefix(q, i, p);
    }
  }

  lemma TakeKeepsSealed(q: Queue, r: Request, x: Sid, s: Stream)
    requires Sealed(q, x, s) && !DataFor(r, x)
    ensures Sealed(Take(q, r), x, s)
  {
    var z := Take(q, r);
    forall k | 0 <= k < |z.heap| ensures !DataFor(z.heap[k], x) {
      if k < |q.heap| { assert z.heap[k] == q.heap[k]; }
    }
  }

  /** A closed stream whose Write is over stays so. */
  lemma ClosedStays(y: Session, e: Event, x: Sid)
    requires x in y.streams && Enabled(y, e) && y.streams[x].closed.Some? && y.streams[x].rest == [] && !y.streams[x].at.Drawn?
    ensures var s, t := y.streams[x], StreamStep(y, e, x);
      && t.closed == s.closed && t.rest == [] && !t.at.Drawn? && t.accepted == s.accepted
      && (!s.at.Waiting? ==> (t.at == s.at || t.at.Idle?) && (t.reported == s.reported || (s.at.Sent? && t.reported == s.at.end)))
      && (e.Write? || e.TakeData? || e.TakeControl? ==> t == s.(at := t.at))
  {
  }

  lemma StepKeepsSealed(y: Session, e: Event, x: Sid)
    requires QueueOk(y.q) && x in y.streams && Sealed(y.q, x, y.streams[x]) && Enabled(y, e)
    ensures Sealed(QueueStep(y, e), x, StreamStep(y, e, x)) && DataOf(QueueStep(y, e).log, x) == DataOf(y.q.log, x)
    ensures StreamStep(y, e, x).accepted == y.streams[x].accepted
  {
    ClosedStays(y, e, x);
    if Still(e) {
      StillStep(y, e, x);
    } else if e.Write? {
      WriteKeepsSealed(y.q, e.i, x, y.streams[x], StreamStep(y, e, x));
    } else {
      TakeStepKeepsSealed(y, e, x);
    }
  }

  lemma TakeStepKeepsSealed(y: Session, e: Event, x: Sid)
    requires QueueOk(y.q) && x in y.streams && Sealed(y.q, x, y.streams[x]) && Enabled(y, e) && (e.TakeData? || e.TakeControl?)
    ensures Sealed(QueueStep(y, e), x, StreamStep(y, e, x)) && QueueStep(y, e).log == y.q.log
  {
    if e.TakeData? {
      TakeKeepsSealed(y.q, DataRequest(y.q, e.sid, y.streams[e.sid]), x, y.streams[x]);
    } else {
      assert DrawnOk(y.q, e.r);
      TakeKeepsSealed(y.q, e.r, x, y.streams[x]);
    }
  }

  lemma {:induction false} RunKeepsSealed(y: Session, es: seq<Event>, x: Sid)
    requires Inv(y) && x in y.streams && Sealed(y.q, x, y.streams[x])
    ensures var z := Run(y, es); Inv(z) && x in z.streams && Sealed(z.q, x, z.streams[x])
    ensures var z := Run(y, es); DataOf(z.q.log, x) == DataOf(y.q.log, x) && z.streams[x].accepted == y.streams[x].accepted
    decreases |es|
  {
    if es != [] {
      var z, e := Run(y, es[..|es| - 1]), es[|es| - 1];
      RunKeepsSealed(y, es[..|es| - 1], x);
      StepKeepsInv(z, e);
      if Enabled(z, e) { StepKeepsSealed(z, e, x); }
    }
  }

  lemma SealedEof(y: Session, x: Sid)
    requires Inv(y) && x in y.streams && Sealed(y.q, x, y.streams[x])
    ensures SeesEof(y, x) ==> y.streams[x].read == DataOf(y.q.log, x)
  {
    if SeesEof(y, x) {
      var s := y.streams[x];
      assert StreamOk(y.q, y.got, x, s);
      var p :| 0 <= p < y.got && FinOf(y.q.log[p], x);
      ReadPastFin(y.q, y.got, x, s, p);
      ReadIsLog(y.q, y.got, x, s);
    }
  }

  /** A drained reader that has as many bytes as were written has those. */
  lemma ReadIsLog(q: Queue, got: nat, x: Sid, s: Stream)
    requires Arrived(q, got, x, s) && s.buffered == [] && |s.read| == |DataOf(q.log, x)|
    ensures s.read == DataOf(q.log, x)
  {
    assert s.read + [] == s.read && q.log == q.log[..got] + q.log[got..];
    DataOfConcat(q.log[..got], q.log[got..], x);
  }

  lemma SealedAtClose(q: Queue, got: nat, x: Sid, s: Stream)
    requires StreamOk(q, got, x, s) && s.closed.None? && !UnderWay(q, x, s)
    ensures Sealed(q, x, s.(closed := Some(s.reported)))
  {
    DataOfNone(q.heap, x);
  }

  lemma CloseShape(y: Session, x: Sid)
    requires x in y.streams && y.streams[x].closed.None?
    ensures var z := Step(y, Close(x));
      && x in z.streams && z.streams[x] == y.streams[x].(closed := Some(y.streams[x].reported))
      && z.q.log == y.q.log && z.q.heap == y.q.heap
  {
    StepShape(y, Close(x));
  }

  lemma CloseSeals(y: Session, x: Sid)
    requires Inv(y) && x in y.streams && y.streams[x].closed.None? && !UnderWay(y.q, x, y.streams[x])
    ensures var z := Step(y, Close(x)); x in z.streams && Sealed(z.q, x, z.streams[x])
  {
    SealedAtClose(y.q, y.got, x, y.streams[x]);
    CloseShape(y, x);
  }

  lemma QuietClose(y: Session, x: Sid, later: seq<Event>)
    requires Inv(y) && x in y.streams && y.streams[x].closed.None? && !UnderWay(y.q, x, y.streams[x])
    ensures EofIsComplete(Run(Step(y, Close(x)), later), x)
  {
    CloseSeals(y, x);
    StepKeepsInv(y, Close(x));
    RunKeepsSealed(Step(y, Close(x)), later, x);
    SealedEof(Run(Step(y, Close(x)), later), x);
  }

  /** A stream closed while no frame of it is under way loses nothing. */
  lemma QuietCloseLosesNothing(sids: set<Sid>, es: seq<Event>, x: Sid, later: seq<Event>)
    requires var y := Run(Start(sids), es);
      x in y.streams && y.streams[x].closed.None? && !UnderWay(y.q, x, y.streams[x])
    ensures EofIsComplete(Run(Step(Run(Start(sids), es), Close(x)), later), x)
  {
    RunKeepsInv(sids, es);
    QuietClose(Run(Start(sids), es), x, later);
  }

  lemma QuietIsOrdered(q: Queue, got: nat, x: Sid, s: Stream)
    requires StreamOk(q, got, x, s) && !UnderWay(q, x, s) && (InSpan(q) || s.patient)
    ensures s.accepted == DataOf(q.log, x)
  {
    DataOfNone(q.heap, x);
    assert DataOf(q.log, x) + [] == DataOf(q.log, x);
  }

  lemma QuietCloseOrder(y: Session, x: Sid, later: seq<Event>)
    requires Inv(y) && x in y.streams && y.streams[x].closed.None? && !UnderWay(y.q, x, y.streams[x])
    requires InSpan(y.q) || y.streams[x].patient
    ensures EofIsExact(Run(Step(y, Close(x)), later), x)
  {
    CloseSeals(y, x);
    CloseShape(y, x);
    StepKeepsInv(y, Close(x));
    RunKeepsSealed(Step(y, Close(x)), later, x);
    SealedEof(Run(Step(y, Close(x)), later), x);
    QuietIsOrdered(y.q, y.got, x, y.streams[x]);
  }

  /** And in the span, or for a patient writer, whoever sees EOF has read it in order. */
  lemma QuietCloseIsExact(sids: set<Sid>, es: seq<Event>, x: Sid, later: seq<Event>)
    requires var y := Run(Start(sids), es);
      && x in y.streams && y.streams[x].closed.None? && !UnderWay(y.q, x, y.streams[x])
      && (InSpan(y.q) || y.streams[x].patient)
    ensures EofIsExact(Run(Step(Run(Start(sids), es), Close(x)), later), x)
  {
    RunKeepsInv(sids, es);
    QuietCloseOrder(Run(Start(sids), es), x, later);
  }

  // ---------------------------------------------------------------------------
  // No write under way: nothing reported is lost
  // ---------------------------------------------------------------------------

  /** Nothing past the first `bound` bytes will be reported, and those are ahead of a FIN. */
  predicate Settled(q: Queue, x: Sid, s: Stream, bound: nat) {
    && s.closed.Some? && !Writing(s) && s.reported <= bound && (s.at.Sent? ==> s.at.end <= bound)
    && bound <= |DataOf(q.log, x)|
    && forall p :: 0 <= p < |q.log| && FinOf(q.log[p], x) ==> bound <= |DataOf(q.log[..p], x)|
  }

  lemma WriteKeepsSettled(q: Queue, i: nat, x: Sid, s: Stream, bound: nat)
    requires i < |q.heap| && Settled(q, x, s, bound)
    ensures Settled(WriteOut(q, i), x, s, bound)
  {
    var z := WriteOut(q, i);
    DataOfSnoc(q.log, q.heap[i], x);
    forall p | 0 <= p < |z.log| && FinOf(z.log[p], x) ensures bound <= |DataOf(z.log[..p], x)| {
      if p < |q.log| { assert z.log[..p] == q.log[..p]; } else { assert z.log[..p] == q.log; }
    }
  }

  lemma StepKeepsSettled(y: Session, e: Event, x: Sid, bound: nat)
    requires x in y.streams && Settled(y.q, x, y.streams[x], bound) && Enabled(y, e)
    ensures Settled(QueueStep(y, e), x, StreamStep(y, e, x), bound)
  {
    ClosedStays(y, e, x);
    if e.Write? {
      WriteKeepsSettled(y.q, e.i, x, y.streams[x], bound);
    } else {
      LogStays(y, e);
    }
  }

  lemma {:induction false} RunKeepsSettled(y: Session, es: seq<Event>, x: Sid, bound: nat)
    requires Inv(y) && x in y.streams && Settled(y.q, x, y.streams[x], bound)
    ensures var z := Run(y, es); Inv(z) && x in z.streams && Settled(z.q, x, z.streams[x], bound)
    decreases |es|
  {
    if es != [] {
      var z, e := Run(y, es[..|es| - 1]), es[|es| - 1];
      RunKeepsSettled(y, es[..|es| - 1], x, bound);
      StepKeepsInv(z, e);
      if Enabled(z, e) { StepKeepsSettled(z, e, x, bound); }
    }
  }

  lemma CloseSettles(y: Session, x: Sid)
    requires Inv(y) && x in y.streams && y.streams[x].closed.None? && !Writing(y.streams[x])
    ensures var z := Step(y, Close(x)); x in z.streams && Settled(z.q, x, z.streams[x], |DataOf(y.q.log, x)|)
  {
    assert StreamOk(y.q, y.got, x, y.streams[x]);
    StepShape(y, Close(x));
  }

  lemma IdleClose(y: Session, x: Sid, later: seq<Event>)
    requires Inv(y) && x in y.streams && y.streams[x].closed.None? && !Writing(y.streams[x])
    ensures EofCoversReports(Run(Step(y, Close(x)), later), x)
  {
    var bound := |DataOf(y.q.log, x)|;
    CloseSettles(y, x);
    StepKeepsInv(y, Close(x));
    RunKeepsSettled(Step(y, Close(x)), later, x, bound);
    SettledEof(Run(Step(y, Close(x)), later), x, bound);
  }

  /** A stream closed while no Write of it is under way has every byte it ever reports ahead
      of its FIN - whatever frames of writes given up are still in the shaper. */
  lemma IdleCloseCoversReports(sids: set<Sid>, es: seq<Event>, x: Sid, later: seq<Event>)
    requires var y := Run(Start(sids), es); x in y.streams && y.streams[x].closed.None? && !Writing(y.streams[x])
    ensures EofCoversReports(Run(Step(Run(Start(sids), es), Close(x)), later), x)
  {
    RunKeepsInv(sids, es);
    IdleClose(Run(Start(sids), es), x, later);
  }

  lemma SettledEof(z: Session, x: Sid, bound: nat)
    requires Inv(z) && x in z.streams && Settled(z.q, x, z.streams[x], bound)
    ensures EofCoversReports(z, x)
  {
    if SeesEof(z, x) {
      assert StreamOk(z.q, z.got, x, z.streams[x]);
      var p :| 0 <= p < z.got && FinOf(z.q.log[p], x);
      ReadPastFin(z.q, z.got, x, z.streams[x], p);
    }
  }

  // ---------------------------------------------------------------------------
  // Otherwise the FIN can always overtake
  // ---------------------------------------------------------------------------

  /** In the span there is always a request the shaper may write next. */
  lemma {:induction false} FirstOf(heap: seq<Request>, n: nat) returns (i: nat)
    requires 0 < n <= |heap|
    ensures i < n && forall j :: 0 <= j < n ==> !Before(heap[j], heap[i])
    decreases n
  {
    i := 0;
    if n > 1 {
      i := FirstOf(heap, n - 1);
      if Before(heap[n - 1], heap[i]) { i := n - 1; }
    }
  }

  lemma NextToWrite(q: Queue) returns (i: nat)
    requires QueueOk(q) && InSpan(q) && q.heap != []
    ensures i < |q.heap| && Least(q.heap, i)
  {
    i := FirstOf(q.heap, |q.heap|);
    forall j | 0 <= j < |q.heap| ensures !Less(q.heap[j], q.heap[i]) {
      var a, b := q.heap[j], q.heap[i];
      assert HeapEntry(q, a) && HeapEntry(q, b) && !Before(a, b);
      if a.cls == b.cls {
        if a.order == b.order { assert W.U32(b.number - a.number) == 0; } else { LessIffWithinHalf(b, a); }
      }
    }
  }

  /** y is a state of a run that begins with es. */
  ghost predicate Reached(sids: set<Sid>, es: seq<Event>, y: Session) {
    exists later :: y == Run(Run(Start(sids), es), later)
  }

  lemma ReachedInv(sids: set<Sid>, es: seq<Event>, y: Session)
    requires Reached(sids, es, y)
    ensures Inv(y)
  {
    var later :| y == Run(Run(Start(sids), es), later);
    RunConcat(Start(sids), es, later);
    RunKeepsInv(sids, es + later);
  }

  lemma StepReached(sids: set<Sid>, es: seq<Event>, y: Session, e: Event)
    requires Reached(sids, es, y)
    ensures Reached(sids, es, Step(y, e))
  {
    var later :| y == Run(Run(Start(sids), es), later);
    RunSnoc(Run(Start(sids), es), later, e);
  }

  lemma RunSnoc(y: Session, es: seq<Event>, e: Event)
    ensures Run(y, es + [e]) == Step(Run(y, es), e)
  {
    assert (es + [e])[..|es|] == es;
  }

  lemma StreamFacts(sids: set<Sid>, es: seq<Event>, x: Sid, y: Session)
    requires Reached(sids, es, y) && x in y.streams
    ensures StreamOk(y.q, y.got, x, y.streams[x])
  {
    ReachedInv(sids, es, y);
  }

  /** What a write does to the writer of x. */
  function AtAfter(q: Queue, i: nat, x: Sid, at: WriterAt): WriterAt
    requires i < |q.heap|
  {
    if DataFor(q.heap[i], x) && at == Waiting(q.heap[i].order) then Sent(|DataOf(q.log, x)| + |BytesFor(q.heap[i], x)|) else at
  }

  lemma ControlIsNext(q: Queue, i: nat)
    requires QueueOk(q) && InSpan(q) && i < |q.heap| && Least(q.heap, i)
    ensures (exists r :: r in q.heap && r.cls == CLSCTRL) ==> q.heap[i].cls == CLSCTRL && !q.heap[i].frame.Data?
  {
    if r :| r in q.heap && r.cls == CLSCTRL {
      var j :| 0 <= j < |q.heap| && q.heap[j] == r;
      LeastIsOldest(q, i, j);
      assert HeapEntry(q, q.heap[i]);
    }
  }

  /** In the span the next request is a least one, past it any; control is there to choose in
      both. */
  lemma ChooseNext(sids: set<Sid>, es: seq<Event>, y: Session) returns (i: nat)
    requires Reached(sids, es, y) && y.q.heap != []
    ensures i < |y.q.heap| && (InSpan(y.q) ==> Least(y.q.heap, i))
    ensures (exists r :: r in y.q.heap && r.cls == CLSCTRL) ==> y.q.heap[i].cls == CLSCTRL && !y.q.heap[i].frame.Data?
  {
    ReachedInv(sids, es, y);
    if InSpan(y.q) {
      i := NextToWrite(y.q);
      ControlIsNext(y.q, i);
    } else {
      i := 0;
      if r :| r in y.q.heap && r.cls == CLSCTRL {
        i :| 0 <= i < |y.q.heap| && y.q.heap[i] == r;
        assert HeapEntry(y.q, r);
      }
    }
  }

  lemma WriteShape(y: Session, x: Sid, i: nat)
    requires x in y.streams && i < |y.q.heap| && (InSpan(y.q) ==> Least(y.q.heap, i))
    ensures var z := Step(y, Write(i, InSpan(y.q)));
      && z.q == WriteOut(y.q, i) && z.got == y.got
      && x in z.streams && z.streams[x] == y.streams[x].(at := AtAfter(y.q, i, x, y.streams[x].at))
  {
    StepShape(y, Write(i, InSpan(y.q)));
  }

  /** The shaper writes its next request, control first. */
  lemma WriteNext(sids: set<Sid>, es: seq<Event>, x: Sid, y: Session) returns (i: nat, z: Session)
    requires Reached(sids, es, y) && x in y.streams && y.q.heap != []
    ensures Reached(sids, es, z) && i < |y.q.heap| && z.q == WriteOut(y.q, i) && z.got == y.got
    ensures x in z.streams && z.streams[x] == y.streams[x].(at := AtAfter(y.q, i, x, y.streams[x].at))
    ensures (exists r :: r in y.q.heap && r.cls == CLSCTRL) ==> y.q.heap[i].cls == CLSCTRL && !y.q.heap[i].frame.Data?
  {
    i := ChooseNext(sids, es, y);
    WriteShape(y, x, i);
    StepReached(sids, es, y, Write(i, InSpan(y.q)));
    z := Step(y, Write(i, InSpan(y.q)));
  }

  /** Writes out the control requests, and nothing else. */
  lemma {:induction false} DrainControl(sids: set<Sid>, es: seq<Event>, x: Sid, y: Session) returns (z: Session)
    requires Reached(sids, es, y) && x in y.streams
    ensures Reached(sids, es, z) && z.got == y.got && x in z.streams && z.streams[x] == y.streams[x]
    ensures DataOf(z.q.log, x) == DataOf(y.q.log, x)
    ensures forall r :: r in y.q.log || (r in y.q.heap && r.cls == CLSCTRL) ==> r in z.q.log
    ensures forall r :: r in y.q.heap && r.cls == CLSDATA ==> r in z.q.heap
    decreases |y.q.heap|
  {
    z := y;
    if exists r :: r in y.q.heap && r.cls == CLSCTRL {
      var i, m := WriteNext(sids, es, x, y);
      DataOfSnoc(y.q.log, y.q.heap[i], x);
      assert DataOf(y.q.log, x) + [] == DataOf(y.q.log, x);
      RemovedKeeps(y.q.heap, i);
      z := DrainControl(sids, es, x, m);
    }
  }

  lemma RemovedKeeps(rs: seq<Request>, i: nat)
    requires i < |rs|
    ensures forall r :: r in rs ==> r == rs[i] || r in Removed(rs, i)
  {
    forall r | r in rs ensures r == rs[i] || r in Removed(rs, i) {
      var k :| 0 <= k < |rs| && rs[k] == r;
      if k < i { assert Removed(rs, i)[k] == r; }
      if k > i { assert Removed(rs, i)[k - 1] == r; }
    }
  }

  lemma ShaperFacts(sids: set<Sid>, es: seq<Event>, x: Sid, y: Session)
    requires Reached(sids, es, y) && x in y.streams
    ensures y.streams[x].at.Waiting? ==> y.q.heap != []
    ensures forall i :: 0 <= i < |y.q.heap| && DataFor(y.q.heap[i], x) ==> y.q.heap[i].frame.bytes != []
  {
    StreamFacts(sids, es, x, y);
  }

  /** Writes out everything: a waiting writer's frame with the rest. */
  lemma {:induction false} DrainAll(sids: set<Sid>, es: seq<Event>, x: Sid, y: Session) returns (z: Session)
    requires Reached(sids, es, y) && x in y.streams
    ensures Reached(sids, es, z) && z.q.heap == [] && z.got == y.got && y.q.log <= z.q.log
    ensures x in z.streams && z.streams[x] == y.streams[x].(at := z.streams[x].at)
    ensures if y.streams[x].at.Waiting? then z.streams[x].at.Sent? && z.streams[x].at.end > |DataOf(y.q.log, x)|
            else z.streams[x].at == y.streams[x].at
    decreases |y.q.heap|
  {
    z := y;
    ShaperFacts(sids, es, x, y);
    if y.q.heap != [] {
      var i, m := WriteNext(sids, es, x, y);
      DataOfSnoc(y.q.log, y.q.heap[i], x);
      z := DrainAll(sids, es, x, m);
    }
  }

  /** Everything written is received. */
  lemma {:induction false} ReceiveAll(sids: set<Sid>, es: seq<Event>, x: Sid, y: Session) returns (z: Session)
    requires Reached(sids, es, y) && x in y.streams && y.got <= |y.q.log|
    ensures Reached(sids, es, z) && z.q == y.q && z.got == |y.q.log|
    ensures x in z.streams && z.streams[x] == y.streams[x].(buffered := z.streams[x].buffered)
    decreases |y.q.log| - y.got
  {
    z := y;
    if y.got < |y.q.log| {
      StepReached(sids, es, y, Receive);
      StepShape(y, Receive);
      z := ReceiveAll(sids, es, x, Step(y, Receive));
    }
  }

  /** The reader gets and takes all there is. */
  lemma ReadAll(sids: set<Sid>, es: seq<Event>, x: Sid, y: Session) returns (z: Session)
    requires Reached(sids, es, y) && x in y.streams
    ensures Reached(sids, es, z) && z.q == y.q && z.got == |y.q.log|
    ensures x in z.streams && z.streams[x] == y.streams[x].(buffered := [], read := DataOf(y.q.log, x))
  {
    ReceivedFacts(sids, es, x, y);
    var m := ReceiveAll(sids, es, x, y);
    ReceivedFacts(sids, es, x, m);
    StepReached(sids, es, m, Read(x, |m.streams[x].buffered|));
    DrainShape(m, x);
    z := Step(m, Read(x, |m.streams[x].buffered|));
  }

  lemma ReceivedFacts(sids: set<Sid>, es: seq<Event>, x: Sid, y: Session)
    requires Reached(sids, es, y) && x in y.streams
    ensures y.got <= |y.q.log|
    ensures y.got == |y.q.log| ==> y.streams[x].read + y.streams[x].buffered == DataOf(y.q.log, x)
  {
    StreamFacts(sids, es, x, y);
    if y.got == |y.q.log| { assert y.q.log[..y.got] == y.q.log; }
  }

  lemma DrainShape(y: Session, x: Sid)
    requires x in y.streams
    ensures var s := y.streams[x]; var z := Step(y, Read(x, |s.buffered|));
      z.q == y.q && z.got == y.got && x in z.streams && z.streams[x] == s.(buffered := [], read := s.read + s.buffered)
  {
    var s := y.streams[x];
    StepShape(y, Read(x, |s.buffered|));
    assert s.buffered[..|s.buffered|] == s.buffered;
  }

  // ---------------------------------------------------------------------------
  // The close
  // ---------------------------------------------------------------------------

  /** The stream is closed, its FIN overtakes whatever data is in the shaper, and the reader
      is told EOF. */
  lemma FinOvertakes(sids: set<Sid>, es: seq<Event>, x: Sid, y: Session, fin: Request) returns (z: Session)
    requires Reached(sids, es, y) && x in y.streams
    requires fin in y.q.heap && fin.cls == CLSCTRL && FinOf(fin, x)
    ensures Reached(sids, es, z) && SeesEof(z, x)
    ensures z.streams[x] == y.streams[x].(buffered := [], read := DataOf(z.q.log, x))
    ensures forall r :: r in y.q.heap && r.cls == CLSDATA ==> r in z.q.heap
  {
    var m := DrainControl(sids, es, x, y);
    z := ReadAll(sids, es, x, m);
    assert fin in z.q.log;
    var p :| 0 <= p < |z.q.log| && z.q.log[p] == fin;
    assert FinOf(z.q.log[p], x);
  }

  function FinFor(q: Queue, x: Sid, s: Stream): Request {
    Request(CLSCTRL, W.U32(q.drawn + 1), q.drawn + 1, 0, Fin(x, s.reported))
  }

  /** Right after the close the shaper takes the FIN. */
  lemma FinIsTaken(sids: set<Sid>, es: seq<Event>, x: Sid) returns (z: Session)
    requires var y := Run(Start(sids), es); x in y.streams && y.streams[x].closed.None?
    ensures var y := Run(Start(sids), es);
      && Reached(sids, es + [Close(x)], z) && x in z.streams
      && z.streams[x] == y.streams[x].(closed := Some(y.streams[x].reported))
      && z.q.heap == y.q.heap + [FinFor(y.q, x, y.streams[x]).(accepted := y.q.drawn + 1)]
  {
    var y := Run(Start(sids), es);
    var fin := FinFor(y.q, x, y.streams[x]);
    StepShape(y, Close(x));
    var m := Step(y, Close(x));
    ClosedIsReached(sids, es, x);
    assert Enabled(m, TakeControl(fin));
    StepShape(m, TakeControl(fin));
    StepReached(sids, es + [Close(x)], m, TakeControl(fin));
    z := Step(m, TakeControl(fin));
  }

  lemma ClosedIsReached(sids: set<Sid>, es: seq<Event>, x: Sid)
    ensures Run(Start(sids), es + [Close(x)]) == Step(Run(Start(sids), es), Close(x))
    ensures Reached(sids, es + [Close(x)], Step(Run(Start(sids), es), Close(x)))
  {
    RunSnoc(Start(sids), es, Close(x));
    assert Run(Run(Start(sids), es + [Close(x)]), []) == Run(Start(sids), es + [Close(x)]);
  }

  lemma DataOfSome(rs: seq<Request>, x: Sid, r: Request)
    requires r in rs && DataFor(r, x) && r.frame.bytes != []
    ensures DataOf(rs, x) != []
  {
    var i :| 0 <= i < |rs| && rs[i] == r;
    DataOfSplit(rs, i, x);
  }

  lemma KeptLength(q: Queue, x: Sid, s: Stream)
    requires Kept(q, x, s)
    ensures |s.accepted| == |DataOf(q.log, x)| + |DataOf(q.heap, x)|
  {
    assert |multiset(s.accepted)| == |multiset(DataOf(q.log, x))| + |multiset(DataOf(q.heap, x))|;
  }

  lemma ShorterDiffers(a: seq<Byte>, b: seq<Byte>)
    requires |a| < |b|
    ensures multiset(a) != multiset(b)
  {
    assert |multiset(a)| < |multiset(b)|;
  }

  /** With a frame of x in the shaper the reader can see EOF short of it. */
  lemma OvertakenInShaper(sids: set<Sid>, es: seq<Event>, x: Sid, y: Session, r: Request)
    requires Reached(sids, es, y) && SeesEof(y, x) && y.streams[x].read == DataOf(y.q.log, x)
    requires r in y.q.heap && DataFor(r, x)
    ensures !EofIsComplete(y, x)
  {
    StreamFacts(sids, es, x, y);
    DataOfSome(y.q.heap, x, r);
    KeptLength(y.q, x, y.streams[x]);
    ShorterDiffers(y.streams[x].read, y.streams[x].accepted);
  }

  /** A Write between two frames, or about to be told that one was written, draws its next. */
  lemma NextFrameIsDrawn(sids: set<Sid>, es: seq<Event>, x: Sid, y: Session) returns (z: Session)
    requires Reached(sids, es, y) && x in y.streams && y.streams[x].rest != [] && (y.streams[x].at.Idle? || y.streams[x].at.Sent?)
    ensures Reached(sids, es, z) && z.got == y.got && z.q.log == y.q.log && z.q.heap == y.q.heap && x in z.streams
    ensures z.streams[x].at.Drawn? && z.streams[x].read == y.streams[x].read && z.streams[x].accepted == y.streams[x].accepted
    ensures z.streams[x].buffered == y.streams[x].buffered
  {
    z := y;
    if y.streams[x].at.Sent? {
      StepShape(y, Return(x));
      StepReached(sids, es, y, Return(x));
      z := Step(y, Return(x));
    }
    StepShape(z, DrawData(x, 1));
    StepReached(sids, es, z, DrawData(x, 1));
    z := Step(z, DrawData(x, 1));
  }

  /** What makes EOF come is not undone by more writing. */
  lemma EofStays(y: Session, z: Session, x: Sid)
    requires SeesEof(y, x) && y.q.log <= z.q.log && z.got == y.got && x in z.streams && z.streams[x].buffered == []
    ensures SeesEof(z, x)
  {
    var p :| 0 <= p < y.got && FinOf(y.q.log[p], x);
    assert FinOf(z.q.log[p], x);
  }

  lemma DrawnIsTaken(sids: set<Sid>, es: seq<Event>, x: Sid, y: Session) returns (z: Session)
    requires Reached(sids, es, y) && x in y.streams && y.streams[x].at.Drawn?
    ensures Reached(sids, es, z) && z.got == y.got && z.q.log == y.q.log && x in z.streams
    ensures z.streams[x].read == y.streams[x].read && z.streams[x].buffered == y.streams[x].buffered
    ensures |z.streams[x].accepted| > |y.streams[x].accepted|
  {
    DrawnIsFull(sids, es, x, y);
    StepShape(y, TakeData(x));
    StepReached(sids, es, y, TakeData(x));
    z := Step(y, TakeData(x));
  }

  lemma DrawnIsFull(sids: set<Sid>, es: seq<Event>, x: Sid, y: Session)
    requires Reached(sids, es, y) && x in y.streams && y.streams[x].at.Drawn?
    ensures y.streams[x].at.bytes != []
  {
    StreamFacts(sids, es, x, y);
  }

  /** So it can with a frame drawn, which the shaper takes afterwards. */
  lemma OvertakenDrawn(sids: set<Sid>, es: seq<Event>, x: Sid, y: Session) returns (z: Session)
    requires Reached(sids, es, y) && SeesEof(y, x) && y.streams[x].at.Drawn? && |y.streams[x].read| <= |y.streams[x].accepted|
    ensures Reached(sids, es, z) && !EofIsComplete(z, x)
  {
    z := DrawnIsTaken(sids, es, x, y);
    EofStays(y, z, x);
    ShorterDiffers(z.streams[x].read, z.streams[x].accepted);
  }

  /** And with one still to be drawn. */
  lemma OvertakenWriter(sids: set<Sid>, es: seq<Event>, x: Sid, y: Session) returns (z: Session)
    requires Reached(sids, es, y) && SeesEof(y, x) && y.streams[x].read == DataOf(y.q.log, x)
    requires Writing(y.streams[x]) && !y.streams[x].at.Waiting?
    ensures Reached(sids, es, z) && !EofIsComplete(z, x)
  {
    ReadFits(sids, es, x, y);
    var m := y;
    if !y.streams[x].at.Drawn? {
      m := NextFrameIsDrawn(sids, es, x, y);
      EofStays(y, m, x);
    }
    z := OvertakenDrawn(sids, es, x, m);
  }

  lemma ReadFits(sids: set<Sid>, es: seq<Event>, x: Sid, y: Session)
    requires Reached(sids, es, y) && x in y.streams && y.streams[x].read == DataOf(y.q.log, x)
    ensures |y.streams[x].read| <= |y.streams[x].accepted|
  {
    StreamFacts(sids, es, x, y);
    KeptLength(y.q, x, y.streams[x]);
  }

  lemma ReachedIsRun(sids: set<Sid>, es: seq<Event>, x: Sid, z: Session)
    requires Reached(sids, es + [Close(x)], z)
    ensures exists later :: z == Run(Step(Run(Start(sids), es), Close(x)), later)
  {
    ClosedIsReached(sids, es, x);
  }

  /** A Write that has a frame in the shaper has it in the heap. */
  lemma WaitingInHeap(sids: set<Sid>, es: seq<Event>, x: Sid)
    requires x in Run(Start(sids), es).streams
    ensures var y := Run(Start(sids), es);
      y.streams[x].at.Waiting? ==> exists i :: 0 <= i < |y.q.heap| && DataFor(y.q.heap[i], x)
    ensures var y := Run(Start(sids), es);
      forall i :: 0 <= i < |y.q.heap| && DataFor(y.q.heap[i], x) ==> y.q.heap[i].cls == CLSDATA
  {
    RunKeepsInv(sids, es);
    var y := Run(Start(sids), es);
    assert StreamOk(y.q, y.got, x, y.streams[x]);
    forall i | 0 <= i < |y.q.heap| && DataFor(y.q.heap[i], x) ensures y.q.heap[i].cls == CLSDATA {
      assert HeapEntry(y.q, y.q.heap[i]);
    }
  }

  lemma OvertakenUnderWay(sids: set<Sid>, es: seq<Event>, x: Sid) returns (z: Session)
    requires var y := Run(Start(sids), es); x in y.streams && y.streams[x].closed.None?
    requires var y := Run(Start(sids), es); UnderWay(y.q, x, y.streams[x])
    ensures Reached(sids, es + [Close(x)], z) && !EofIsComplete(z, x)
  {
    var y := Run(Start(sids), es);
    var fin := FinFor(y.q, x, y.streams[x]).(accepted := y.q.drawn + 1);
    var c := es + [Close(x)];
    var m := FinIsTaken(sids, es, x);
    assert m.q.heap[|y.q.heap|] == fin;
    z := FinOvertakes(sids, c, x, m, fin);
    WaitingInHeap(sids, es, x);
    if i :| 0 <= i < |y.q.heap| && DataFor(y.q.heap[i], x) {
      assert m.q.heap[i] == y.q.heap[i];
      OvertakenInShaper(sids, c, x, z, y.q.heap[i]);
    } else {
      z := OvertakenWriter(sids, c, x, z);
    }
  }

  /** Closing a stream loses nothing - whatever happens after, whoever sees EOF has read
      every byte - if and only if no frame of it is still to be drawn, drawn, or in the
      shaper at the close. */
  lemma CloseLosesNothingExactlyWhenQuiet(sids: set<Sid>, es: seq<Event>, x: Sid)
    requires var y := Run(Start(sids), es); x in y.streams && y.streams[x].closed.None?
    ensures var y := Run(Start(sids), es);
      (forall later :: EofIsComplete(Run(Step(y, Close(x)), later), x)) <==> !UnderWay(y.q, x, y.streams[x])
  {
    var y := Run(Start(sids), es);
    if UnderWay(y.q, x, y.streams[x]) {
      var z := OvertakenUnderWay(sids, es, x);
      ReachedIsRun(sids, es, x, z);
    } else {
      forall later ensures EofIsComplete(Run(Step(y, Close(x)), later), x) {
        QuietCloseLosesNothing(sids, es, x, later);
      }
    }
  }

  // ---------------------------------------------------------------------------
  // The same for what is reported
  // ---------------------------------------------------------------------------

  lemma ReturnReports(sids: set<Sid>, es: seq<Event>, x: Sid, y: Session) returns (z: Session)
    requires Reached(sids, es, y) && SeesEof(y, x) && y.streams[x].at.Sent? && y.streams[x].at.end > |y.streams[x].read|
    ensures Reached(sids, es, z) && !EofCoversReports(z, x)
  {
    StepShape(y, Return(x));
    StepReached(sids, es, y, Return(x));
    z := Step(y, Return(x));
    EofStays(y, z, x);
  }

  /** A drawn frame is taken by an empty shaper and written. */
  lemma DrawnIsSent(sids: set<Sid>, es: seq<Event>, x: Sid, y: Session) returns (z: Session)
    requires Reached(sids, es, y) && x in y.streams && y.q.heap == [] && y.streams[x].at.Drawn?
    ensures Reached(sids, es, z) && z.got == y.got && y.q.log <= z.q.log && x in z.streams
    ensures z.streams[x] == y.streams[x].(at := z.streams[x].at, accepted := z.streams[x].accepted)
    ensures z.streams[x].at.Sent? && z.streams[x].at.end > |DataOf(y.q.log, x)|
  {
    StreamFacts(sids, es, x, y);
    StepShape(y, TakeData(x));
    StepReached(sids, es, y, TakeData(x));
    var m := Step(y, TakeData(x));
    assert m.q.heap == [DataRequest(y.q, x, y.streams[x]).(accepted := y.q.drawn)];
    assert Least(m.q.heap, 0) by { assert W.U32(m.q.heap[0].number - m.q.heap[0].number) == 0; }
    WriteShape(m, x, 0);
    StepReached(sids, es, m, Write(0, InSpan(m.q)));
    z := Step(m, Write(0, InSpan(m.q)));
  }

  lemma LogGrows(a: seq<Request>, b: seq<Request>, x: Sid)
    requires a <= b
    ensures |DataOf(a, x)| <= |DataOf(b, x)|
  {
    PrefixLength(b, |a|, x);
  }

  /** With an empty shaper the Write gets a frame through. */
  lemma LateFrameIsSent(sids: set<Sid>, es: seq<Event>, x: Sid, y: Session) returns (z: Session)
    requires Reached(sids, es, y) && SeesEof(y, x) && y.q.heap == [] && Writing(y.streams[x]) && !y.streams[x].at.Waiting?
    ensures Reached(sids, es, z) && SeesEof(z, x) && z.streams[x].read == y.streams[x].read
    ensures z.streams[x].at.Sent? && z.streams[x].at.end > |DataOf(y.q.log, x)|
  {
    var m := y;
    if !y.streams[x].at.Drawn? {
      m := NextFrameIsDrawn(sids, es, x, y);
      EofStays(y, m, x);
    }
    z := DrawnIsSent(sids, es, x, m);
    EofStays(m, z, x);
  }

  /** After EOF a Write still under way goes through and is reported. */
  lemma LateWriteSucceeds(sids: set<Sid>, es: seq<Event>, x: Sid, y: Session) returns (z: Session)
    requires Reached(sids, es, y) && SeesEof(y, x) && y.streams[x].read == DataOf(y.q.log, x)
    requires Writing(y.streams[x])
    ensures Reached(sids, es, z) && !EofCoversReports(z, x)
  {
    var m := DrainAll(sids, es, x, y);
    EofStays(y, m, x);
    if !y.streams[x].at.Waiting? {
      LogGrows(y.q.log, m.q.log, x);
      m := LateFrameIsSent(sids, es, x, m);
    }
    z := ReturnReports(sids, es, x, m);
  }

  lemma OvertakenWrite(sids: set<Sid>, es: seq<Event>, x: Sid) returns (z: Session)
    requires var y := Run(Start(sids), es); x in y.streams && y.streams[x].closed.None?
    requires Writing(Run(Start(sids), es).streams[x])
    ensures Reached(sids, es + [Close(x)], z) && !EofCoversReports(z, x)
  {
    var y := Run(Start(sids), es);
    var fin := FinFor(y.q, x, y.streams[x]).(accepted := y.q.drawn + 1);
    var m := FinIsTaken(sids, es, x);
    assert m.q.heap[|y.q.heap|] == fin;
    var n := FinOvertakes(sids, es + [Close(x)], x, m, fin);
    z := LateWriteSucceeds(sids, es + [Close(x)], x, n);
  }

  /** Whoever sees EOF has read every byte that writes, however late, report - if and only
      if no Write with a frame still to be written is under way at the close. */
  lemma EofCoversReportsExactlyWhenIdle(sids: set<Sid>, es: seq<Event>, x: Sid)
    requires var y := Run(Start(sids), es); x in y.streams && y.streams[x].closed.None?
    ensures var y := Run(Start(sids), es);
      (forall later :: EofCoversReports(Run(Step(y, Close(x)), later), x)) <==> !Writing(y.streams[x])
  {
    var y := Run(Start(sids), es);
    if Writing(y.streams[x]) {
      var z := OvertakenWrite(sids, es, x);
      ReachedIsRun(sids, es, x, z);
    } else {
      forall later ensures EofCoversReports(Run(Step(y, Close(x)), later), x) {
        IdleCloseCoversReports(sids, es, x, later);
      }
    }
  }
}
