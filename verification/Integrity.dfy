/** From a write on one end of a smux session to a read on the other: requests drawn by
    many streams, ordered by the shaper, written to the connection, received, buffered
    and read. One writer per stream. */
module Integrity {
  import opened Wrappers
  import opened Numbers
  import opened Bytes
  import W = Window
  import opened Shaper

  type Sid = nat

  /** The data of stream sid in a list of requests, in order. */
  function DataOf(rs: seq<Request>, sid: Sid): seq<Byte>
    decreases |rs|
  {
    if rs == [] then [] else DataOf(rs[..|rs| - 1], sid) + BytesFor(rs[|rs| - 1], sid)
  }

  function BytesFor(r: Request, sid: Sid): seq<Byte> {
    if r.frame.Data? && r.frame.sid == sid then r.frame.bytes else []
  }

  lemma DataOfSnoc(rs: seq<Request>, r: Request, sid: Sid)
    ensures DataOf(rs + [r], sid) == DataOf(rs, sid) + BytesFor(r, sid)
  {
    assert (rs + [r])[..|rs|] == rs;
  }

  lemma {:induction false} DataOfConcat(a: seq<Request>, b: seq<Request>, sid: Sid)
    ensures DataOf(a + b, sid) == DataOf(a, sid) + DataOf(b, sid)
    decreases |b|
  {
    if b == [] {
      assert a + b == a;
    } else {
      var n := |b| - 1;
      assert a + b == (a + b[..n]) + [b[n]] && b == b[..n] + [b[n]];
      DataOfConcat(a, b[..n], sid);
      DataOfSnoc(a + b[..n], b[n], sid);
      DataOfSnoc(b[..n], b[n], sid);
    }
  }

  lemma {:induction false} DataOfNone(rs: seq<Request>, sid: Sid)
    requires forall i :: 0 <= i < |rs| ==> !(rs[i].frame.Data? && rs[i].frame.sid == sid)
    ensures DataOf(rs, sid) == []
    decreases |rs|
  {
    if rs != [] { DataOfNone(rs[..|rs| - 1], sid); }
  }

  function Removed(rs: seq<Request>, i: nat): seq<Request>
    requires i < |rs|
  {
    rs[..i] + rs[i + 1..]
  }

  predicate DataFor(r: Request, sid: Sid) { r.frame.Data? && r.frame.sid == sid }

  lemma DataOfSplit(rs: seq<Request>, i: nat, sid: Sid)
    requires i < |rs|
    ensures DataOf(rs, sid) == DataOf(rs[..i], sid) + BytesFor(rs[i], sid) + DataOf(rs[i + 1..], sid)
  {
    var a := rs[..i] + [rs[i]];
    assert rs == a + rs[i + 1..];
    DataOfConcat(a, rs[i + 1..], sid);
    DataOfSnoc(rs[..i], rs[i], sid);
  }

  /** Taking out a request that no data of the same stream precedes moves its bytes from
      the front of that stream's data, and touches no other's. */
  lemma DataOfRemoved(rs: seq<Request>, i: nat, sid: Sid)
    requires i < |rs|
    requires DataFor(rs[i], sid) ==> forall j :: 0 <= j < i ==> !DataFor(rs[j], sid)
    ensures DataOf(rs, sid) == BytesFor(rs[i], sid) + DataOf(Removed(rs, i), sid)
  {
    var a, b, c := DataOf(rs[..i], sid), BytesFor(rs[i], sid), DataOf(rs[i + 1..], sid);
    assert DataOf(rs, sid) == a + b + c by { DataOfSplit(rs, i, sid); }
    assert DataOf(Removed(rs, i), sid) == a + c by { DataOfConcat(rs[..i], rs[i + 1..], sid); }
    assert a == [] || b == [] by { if DataFor(rs[i], sid) { DataOfNone(rs[..i], sid); } }
    EmptyMiddle(a, b, c);
  }

  lemma EmptyMiddle(a: seq<Byte>, b: seq<Byte>, c: seq<Byte>)
    requires a == [] || b == []
    ensures a + b + c == b + (a + c)
  {
  }

  // ---------------------------------------------------------------------------
  // The shaper's queue
  // ---------------------------------------------------------------------------

  /** `heap` lists what the shaper holds in the order it came; `log` is everything written
      to the connection. `control` are control requests drawn but not taken yet. `longest` is
      the most requests that were drawn after one while that one waited. */
  datatype Queue = Queue(drawn: nat, control: set<Request>, heap: seq<Request>, log: seq<Request>, longest: nat)

  /** No request has waited for its turn while 2^31 others were drawn. */
  predicate InSpan(q: Queue) { q.longest < W.HALF }

  /** How many requests were drawn after the oldest of rs, with n drawn in all. */
  function Oldest(rs: seq<Request>, n: nat): (age: nat)
    ensures forall i :: 0 <= i < |rs| ==> n - rs[i].order <= age
  {
    if rs == [] then 0 else Max(Oldest(rs[1..], n), n - rs[0].order)
  }

  function Draw(q: Queue): Queue {
    q.(drawn := q.drawn + 1, longest := Max(q.longest, Oldest(q.heap, q.drawn + 1)))
  }

  function DrawControl(q: Queue, f: Frame): Queue {
    Draw(q).(control := q.control + {Request(CLSCTRL, W.U32(q.drawn + 1), q.drawn + 1, 0, f)})
  }

  function Take(q: Queue, r: Request): Queue {
    q.(control := q.control - {r}, heap := q.heap + [r.(accepted := q.drawn)], longest := Max(q.longest, q.drawn - r.order))
  }

  function WriteOut(q: Queue, i: nat): Queue
    requires i < |q.heap|
  {
    q.(heap := Removed(q.heap, i), log := q.log + [q.heap[i]])
  }

  /** No request in the heap is less than the i-th, as the code compares them. */
  predicate Least(heap: seq<Request>, i: nat)
    requires i < |heap|
  {
    forall j :: 0 <= j < |heap| ==> !Less(heap[j], heap[i])
  }

  predicate DrawnOk(q: Queue, r: Request) {
    r.number == W.U32(r.order) && 0 < r.order <= q.drawn && (r.cls == CLSDATA <==> r.frame.Data?)
  }

  predicate HeapEntry(q: Queue, r: Request) {
    DrawnOk(q, r) && r.order <= r.accepted <= q.drawn && q.drawn - r.order <= q.longest
  }

  /** Request numbers are the drawn order modulo 2^32; and a request written before
      another of its class was drawn before that one was taken. */
  ghost predicate QueueOk(q: Queue) {
    && (forall r :: r in q.control ==> DrawnOk(q, r) && r.cls == CLSCTRL)
    && (forall i :: 0 <= i < |q.heap| ==> HeapEntry(q, q.heap[i]))
    && (forall i :: 0 <= i < |q.log| ==> q.log[i].order <= q.log[i].accepted <= q.drawn)
    && (InSpan(q) ==> forall p, i :: 0 <= p < |q.log| && 0 <= i < |q.heap| ==> InTurn(q.log[p], q.heap[i]))
    && (InSpan(q) ==> forall p, i :: 0 <= p < i < |q.log| ==> InTurn(q.log[p], q.log[i]))
  }

  /** a, which goes first, was drawn before b, of the same class, was taken. */
  predicate InTurn(a: Request, b: Request) { a.cls == b.cls ==> a.order <= b.accepted }

  /** Within the span, the request the shaper writes next is the oldest of its class, and
      control goes before data. */
  lemma LeastIsOldest(q: Queue, i: nat, j: nat)
    requires QueueOk(q) && InSpan(q) && i < |q.heap| && j < |q.heap| && Least(q.heap, i)
    ensures q.heap[i].cls == q.heap[j].cls ==> q.heap[i].order <= q.heap[j].order
    ensures q.heap[j].cls == CLSCTRL ==> q.heap[i].cls == CLSCTRL
  {
    assert HeapEntry(q, q.heap[i]) && HeapEntry(q, q.heap[j]) && !Less(q.heap[j], q.heap[i]);
    if q.heap[i].cls == q.heap[j].cls && q.heap[j].order < q.heap[i].order {
      LessIffWithinHalf(q.heap[j], q.heap[i]);
    }
  }

  lemma DrawKeepsQueue(q: Queue)
    requires QueueOk(q)
    ensures QueueOk(Draw(q))
  {
    var z := Draw(q);
    forall i | 0 <= i < |z.heap| ensures HeapEntry(z, z.heap[i]) { assert HeapEntry(q, q.heap[i]); }
  }

  lemma DrawControlKeepsQueue(q: Queue, f: Frame)
    requires QueueOk(q) && !f.Data?
    ensures QueueOk(DrawControl(q, f))
  {
    DrawKeepsQueue(q);
  }

  lemma TakeKeepsQueue(q: Queue, r: Request)
    requires QueueOk(q) && DrawnOk(q, r)
    ensures QueueOk(Take(q, r))
  {
    var z := Take(q, r);
    forall i | 0 <= i < |z.heap| ensures HeapEntry(z, z.heap[i]) {
      if i < |q.heap| { assert HeapEntry(q, q.heap[i]); }
    }
  }

  lemma WriteKeepsQueue(q: Queue, i: nat)
    requires QueueOk(q) && i < |q.heap| && (InSpan(q) ==> Least(q.heap, i))
    ensures QueueOk(WriteOut(q, i))
  {
    var z := WriteOut(q, i);
    forall k | 0 <= k < |z.heap|
      ensures HeapEntry(z, z.heap[k]) && (InSpan(q) ==> InTurn(q.heap[i], z.heap[k]))
    {
      var j := if k < i then k else k + 1;
      assert z.heap[k] == q.heap[j] && HeapEntry(q, q.heap[j]);
      if InSpan(q) { LeastIsOldest(q, i, j); }
    }
    assert HeapEntry(q, q.heap[i]);
    if InSpan(q) {
      forall p, k | 0 <= p < |z.log| && 0 <= k < |z.heap| ensures InTurn(z.log[p], z.heap[k]) {
        var j := if k < i then k else k + 1;
        assert z.heap[k] == q.heap[j];
        if p < |q.log| { assert z.log[p] == q.log[p] && InTurn(q.log[p], q.heap[j]); }
      }
    }
  }

  // ---------------------------------------------------------------------------
  // The session's streams
  // ---------------------------------------------------------------------------

  /** A stream's writer: a request is drawn, taken by the shaper, and written; its write
      returns, or times out wherever it is. `end` is where the frame ends in the
      stream's data. */
  datatype WriterAt = Idle | Drawn(order: nat, bytes: seq<Byte>) | Waiting(order: nat) | Sent(end: nat)

  /** `rest` are the bytes of the Write under way that no frame was drawn for yet; the stream
      being closed is looked at when a Write starts, not between its frames. `offered` are
      the bytes of all Writes, short of what those given up had left. `accepted` are
      the bytes the shaper has taken, `reported` how far into them writes
      have returned successfully, `closed` how far that was when the stream was closed;
      `patient` says that no write was given up while its frame was in the shaper. */
  datatype Stream = Stream(
    at: WriterAt, rest: seq<Byte>, offered: seq<Byte>, patient: bool, accepted: seq<Byte>, reported: nat, closed: Option<nat>,
    read: seq<Byte>, buffered: seq<Byte>)

  /** The first `got` frames of the log have been received. */
  datatype Session = Session(q: Queue, got: nat, streams: map<Sid, Stream>)

  datatype Event =
    | StartWrite(sid: Sid, bytes: seq<Byte>)
    | DrawData(sid: Sid, n: nat) // the Write's next frame
    | TakeData(sid: Sid)
    | GiveUp(sid: Sid)        // the write times out, taken or not
    | Close(sid: Sid)         // draws the FIN
    | DrawOther(frame: Frame) // SYN, UPD, NOP, or the FIN behind a timed-out SYN
    | TakeControl(r: Request)
    | DropControl(r: Request)
    | Write(i: nat, least: bool) // the shaper hands a request to the connection
    | Return(sid: Sid)
    | Receive
    | Read(sid: Sid, n: nat)

  function Start(sids: set<Sid>): Session {
    Session(Queue(0, {}, [], [], 0), 0, map sid | sid in sids :: Stream(Idle, [], [], true, [], 0, None, [], []))
  }

  predicate Enabled(y: Session, e: Event) {
    match e
    case StartWrite(sid, bytes) =>
      sid in y.streams && y.streams[sid].at.Idle? && y.streams[sid].rest == [] && y.streams[sid].closed.None? && bytes != []
    case DrawData(sid, n) => sid in y.streams && y.streams[sid].at.Idle? && 1 <= n <= |y.streams[sid].rest|
    case TakeData(sid) => sid in y.streams && y.streams[sid].at.Drawn?
    case GiveUp(sid) => sid in y.streams
    case Close(sid) => sid in y.streams && y.streams[sid].closed.None?
    case DrawOther(f) => f.Syn? || f.Other? || (f.Fin? && f.mark == 0 && f.sid !in y.streams)
    case TakeControl(r) => r in y.q.control
    case DropControl(r) => r in y.q.control
    // past the span the heap's order is not one, and it may hand out any request
    case Write(i, least) => i < |y.q.heap| && if least then Least(y.q.heap, i) else !InSpan(y.q)
    case Return(sid) => sid in y.streams && y.streams[sid].at.Sent?
    case Receive => y.got < |y.q.log|
    case Read(sid, n) => sid in y.streams && n <= |y.streams[sid].buffered|
  }

  function DataRequest(q: Queue, sid: Sid, s: Stream): Request
    requires s.at.Drawn?
  {
    Request(CLSDATA, W.U32(s.at.order), s.at.order, 0, Data(sid, s.at.bytes))
  }

  function QueueStep(y: Session, e: Event): Queue
    requires Enabled(y, e)
  {
    match e
    case DrawData(_, _) => Draw(y.q)
    case Close(sid) => DrawControl(y.q, Fin(sid, y.streams[sid].reported))
    case DrawOther(f) => DrawControl(y.q, f)
    case TakeData(sid) => Take(y.q, DataRequest(y.q, sid, y.streams[sid]))
    case TakeControl(r) => Take(y.q, r)
    case DropControl(r) => y.q.(control := y.q.control - {r})
    case Write(i, _) => WriteOut(y.q, i)
    case _ => y.q
  }

  /** What the event does to stream x. */
  function StreamStep(y: Session, e: Event, x: Sid): Stream
    requires Enabled(y, e) && x in y.streams
  {
    var s := y.streams[x];
    match e
    case StartWrite(sid, bytes) => if sid == x then s.(rest := bytes, offered := s.offered + bytes) else s
    case DrawData(sid, n) => if sid == x then s.(at := Drawn(y.q.drawn + 1, s.rest[..n]), rest := s.rest[n..]) else s
    case TakeData(sid) => if sid == x then s.(at := Waiting(s.at.order), accepted := s.accepted + s.at.bytes) else s
    case GiveUp(sid) => if sid == x then s.(at := Idle, rest := [], offered := s.accepted, patient := s.patient && !s.at.Waiting?) else s
    case Close(sid) => if sid == x then s.(closed := Some(s.reported)) else s
    case Write(i, _) =>
      var r := y.q.heap[i];
      if DataFor(r, x) && s.at == Waiting(r.order) then s.(at := Sent(|DataOf(y.q.log, x)| + |BytesFor(r, x)|)) else s
    case Return(sid) => if sid == x then s.(at := Idle, reported := s.at.end) else s
    case Receive => s.(buffered := s.buffered + BytesFor(y.q.log[y.got], x))
    case Read(sid, n) => if sid == x then s.(read := s.read + s.buffered[..n], buffered := s.buffered[n..]) else s
    case _ => s
  }

  /** An event that cannot happen in a state leaves it as it is, so every list of
      events is a run. */
  function Step(y: Session, e: Event): Session {
    if !Enabled(y, e) then y else
      Session(QueueStep(y, e), if e.Receive? then y.got + 1 else y.got, map x | x in y.streams :: StreamStep(y, e, x))
  }

  function Run(y: Session, es: seq<Event>): Session
    decreases |es|
  {
    if es == [] then y else Step(Run(y, es[..|es| - 1]), es[|es| - 1])
  }

  // ---------------------------------------------------------------------------
  // What every step keeps
  // ---------------------------------------------------------------------------

  /** The one writer of a stream draws a request only after its last one was taken. */
  predicate Serial(q: Queue, x: Sid, s: Stream) {
    && (s.at.Drawn? ==> 0 < s.at.order <= q.drawn)
    && (forall i, j :: 0 <= i < j < |q.heap| && DataFor(q.heap[i], x) && DataFor(q.heap[j], x) ==> q.heap[i].order < q.heap[j].order)
    && (forall i :: 0 <= i < |q.heap| && DataFor(q.heap[i], x) && s.at.Drawn? ==> q.heap[i].order < s.at.order)
  }

  /** Frames are not empty, a waiting writer's is in the shaper, and a patient writer has no
      other there. */
  predicate Queued(q: Queue, x: Sid, s: Stream) {
    && (s.at.Drawn? ==> s.at.bytes != [])
    && (forall i :: 0 <= i < |q.heap| && DataFor(q.heap[i], x) ==> q.heap[i].frame.bytes != [])
    && (s.at.Waiting? ==> InShaper(q.heap, x, s.at.order))
    && (s.patient ==> forall i :: 0 <= i < |q.heap| && DataFor(q.heap[i], x) ==> s.at == Waiting(q.heap[i].order))
  }

  predicate InShaper(heap: seq<Request>, x: Sid, order: nat) {
    exists i :: 0 <= i < |heap| && DataFor(heap[i], x) && heap[i].order == order
  }

  /** Received bytes are read or buffered, in the order written, and what was reported is
      written. */
  predicate Arrived(q: Queue, got: nat, x: Sid, s: Stream) {
    && got <= |q.log|
    && s.read + s.buffered == DataOf(q.log[..got], x)
    && s.reported <= |DataOf(q.log, x)|
    && (s.at.Sent? ==> s.at.end <= |DataOf(q.log, x)|)
  }

  /** Accepted bytes are written or in the shaper. */
  predicate Kept(q: Queue, x: Sid, s: Stream) {
    multiset(s.accepted) == multiset(DataOf(q.log, x)) + multiset(DataOf(q.heap, x))
  }

  /** They are so in order. */
  predicate Ordered(q: Queue, x: Sid, s: Stream) { s.accepted == DataOf(q.log, x) + DataOf(q.heap, x) }

  /** A FIN of the stream, wherever it is, has what was reported before the close ahead
      of it. */
  ghost predicate FinsLast(q: Queue, x: Sid, s: Stream) {
    && (s.closed.Some? ==> s.closed.value <= |DataOf(q.log, x)|)
    && (forall r :: r in q.control && FinOf(r, x) ==> s.closed == Some(r.frame.mark))
    && (forall i :: 0 <= i < |q.heap| && FinOf(q.heap[i], x) ==> s.closed == Some(q.heap[i].frame.mark))
    && (forall p :: 0 <= p < |q.log| && FinOf(q.log[p], x) ==>
        s.closed == Some(q.log[p].frame.mark) && q.log[p].frame.mark <= |DataOf(q.log[..p], x)|)
  }

  predicate FinOf(r: Request, x: Sid) { r.frame.Fin? && r.frame.sid == x }

  ghost predicate StreamOk(q: Queue, got: nat, x: Sid, s: Stream) {
    && Serial(q, x, s) && Queued(q, x, s) && Arrived(q, got, x, s) && Kept(q, x, s) && FinsLast(q, x, s)
    && (InSpan(q) || s.patient ==> Ordered(q, x, s))
  }

  ghost predicate Inv(y: Session) {
    QueueOk(y.q) && forall x :: x in y.streams ==> StreamOk(y.q, y.got, x, y.streams[x])
  }

  lemma StepKeepsQueue(y: Session, e: Event)
    requires Enabled(y, e) && Inv(y)
    ensures QueueOk(QueueStep(y, e))
  {
    match e
    case DrawData(_, _) => DrawKeepsQueue(y.q);
    case Close(sid) => DrawControlKeepsQueue(y.q, Fin(sid, y.streams[sid].reported));
    case DrawOther(f) => DrawControlKeepsQueue(y.q, f);
    case TakeData(sid) =>
      assert StreamOk(y.q, y.got, sid, y.streams[sid]);
      TakeKeepsQueue(y.q, DataRequest(y.q, sid, y.streams[sid]));
    case TakeControl(r) => TakeKeepsQueue(y.q, r);
    case Write(i, _) => WriteKeepsQueue(y.q, i);
    case _ =>
  }

  lemma DrawKeepsSerial(y: Session, e: Event, x: Sid)
    requires Enabled(y, e) && QueueOk(y.q) && x in y.streams && Serial(y.q, x, y.streams[x]) && e.DrawData?
    ensures Serial(Draw(y.q), x, StreamStep(y, e, x))
  {
    forall i | 0 <= i < |y.q.heap| ensures y.q.heap[i].order <= y.q.drawn { assert HeapEntry(y.q, y.q.heap[i]); }
  }

  lemma TakeKeepsSerial(y: Session, sid: Sid, x: Sid)
    requires Enabled(y, TakeData(sid)) && x in y.streams && Serial(y.q, x, y.streams[x])
    ensures Serial(QueueStep(y, TakeData(sid)), x, StreamStep(y, TakeData(sid), x))
  {
    var q := QueueStep(y, TakeData(sid));
    assert forall k :: 0 <= k < |y.q.heap| ==> q.heap[k] == y.q.heap[k];
    assert DataFor(q.heap[|y.q.heap|], x) <==> sid == x;
  }

  lemma WriteKeepsSerial(q: Queue, i: nat, x: Sid, s: Stream, t: Stream)
    requires i < |q.heap| && Serial(q, x, s) && (t == s || t.at.Sent?)
    ensures Serial(WriteOut(q, i), x, t)
  {
    var z := WriteOut(q, i);
    forall k | 0 <= k < |z.heap| ensures z.heap[k] == q.heap[if k < i then k else k + 1] {}
  }

  lemma ControlKeepsSerial(q: Queue, z: Queue, x: Sid, s: Stream, t: Stream)
    requires Serial(q, x, s) && z.drawn >= q.drawn && (t.at == s.at || !t.at.Drawn?)
    requires q.heap == z.heap || (|z.heap| == |q.heap| + 1 && z.heap[..|q.heap|] == q.heap && !DataFor(z.heap[|q.heap|], x))
    ensures Serial(z, x, t)
  {
    assert forall k :: 0 <= k < |q.heap| ==> z.heap[k] == q.heap[k];
  }

  lemma StepKeepsSerial(y: Session, e: Event, x: Sid)
    requires Enabled(y, e) && QueueOk(y.q) && x in y.streams && Serial(y.q, x, y.streams[x])
    ensures Serial(QueueStep(y, e), x, StreamStep(y, e, x))
  {
    match e
    case DrawData(_, _) => DrawKeepsSerial(y, e, x);
    case TakeData(sid) => TakeKeepsSerial(y, sid, x);
    case Write(i, _) => WriteKeepsSerial(y.q, i, x, y.streams[x], StreamStep(y, e, x));
    case _ => ControlKeepsSerial(y.q, QueueStep(y, e), x, y.streams[x], StreamStep(y, e, x));
  }

  lemma WriteKeepsQueued(q: Queue, i: nat, x: Sid, s: Stream, t: Stream)
    requires i < |q.heap| && Serial(q, x, s) && Queued(q, x, s)
    requires if DataFor(q.heap[i], x) && s.at == Waiting(q.heap[i].order) then t.at.Sent? && t.patient == s.patient else t == s
    ensures Queued(WriteOut(q, i), x, t)
  {
    var z := WriteOut(q, i);
    forall k | 0 <= k < |z.heap| ensures z.heap[k] == q.heap[if k < i then k else k + 1] {}
    if t.at.Waiting? {
      var j :| 0 <= j < |q.heap| && DataFor(q.heap[j], x) && q.heap[j].order == s.at.order;
      assert z.heap[if j < i then j else j - 1] == q.heap[j];
    }
    if t.patient && DataFor(q.heap[i], x) {
      forall k | 0 <= k < |z.heap| ensures !DataFor(z.heap[k], x) {
        var j := if k < i then k else k + 1;
        assert z.heap[k] == q.heap[j] && j != i;
      }
    }
  }

  lemma TakeKeepsQueued(q: Queue, r: Request, x: Sid, s: Stream, t: Stream)
    requires Queued(q, x, s) && t.patient == s.patient
    requires if DataFor(r, x) then s.at == Drawn(r.order, r.frame.bytes) && t.at == Waiting(r.order) else t.at == s.at
    ensures Queued(Take(q, r), x, t)
  {
    var z := Take(q, r);
    forall k | 0 <= k < |q.heap| ensures z.heap[k] == q.heap[k] {}
    if DataFor(r, x) {
      assert z.heap[|q.heap|].order == r.order && DataFor(z.heap[|q.heap|], x);
    }
    if s.at.Waiting? {
      var j :| 0 <= j < |q.heap| && DataFor(q.heap[j], x) && q.heap[j].order == s.at.order;
      assert z.heap[j] == q.heap[j];
    }
  }

  lemma StepKeepsQueued(y: Session, e: Event, x: Sid)
    requires Enabled(y, e) && QueueOk(y.q) && x in y.streams
    requires Serial(y.q, x, y.streams[x]) && Queued(y.q, x, y.streams[x])
    ensures Queued(QueueStep(y, e), x, StreamStep(y, e, x))
  {
    match e
    case Write(i, _) => WriteKeepsQueued(y.q, i, x, y.streams[x], StreamStep(y, e, x));
    case TakeData(sid) => TakeKeepsQueued(y.q, DataRequest(y.q, sid, y.streams[sid]), x, y.streams[x], StreamStep(y, e, x));
    case TakeControl(r) =>
      assert DrawnOk(y.q, r);
      TakeKeepsQueued(y.q, r, x, y.streams[x], y.streams[x]);
    case _ =>
  }

  lemma StepKeepsArrived(y: Session, e: Event, x: Sid)
    requires Enabled(y, e) && x in y.streams && Arrived(y.q, y.got, x, y.streams[x])
    ensures Arrived(QueueStep(y, e), if e.Receive? then y.got + 1 else y.got, x, StreamStep(y, e, x))
  {
    var s, t := y.streams[x], StreamStep(y, e, x);
    if e.Write? {
      WriteKeepsArrived(y.q, e.i, y.got, x, s, t);
    } else if e.Receive? {
      ReceiveKeepsArrived(y.q, y.got, x, s);
    } else {
      ArrivedStays(y, e, x);
    }
  }

  /** Without a write or a receive, nothing is written and nothing arrives. */
  lemma ArrivedStays(y: Session, e: Event, x: Sid)
    requires Enabled(y, e) && x in y.streams && Arrived(y.q, y.got, x, y.streams[x]) && !e.Write? && !e.Receive?
    ensures Arrived(QueueStep(y, e), y.got, x, StreamStep(y, e, x))
  {
    LogStays(y, e);
    ReaderStays(y, e, x);
  }

  lemma LogStays(y: Session, e: Event)
    requires Enabled(y, e) && !e.Write?
    ensures QueueStep(y, e).log == y.q.log
  {
  }

  lemma ReaderStays(y: Session, e: Event, x: Sid)
    requires Enabled(y, e) && x in y.streams && !e.Write? && !e.Receive?
    ensures var s, t := y.streams[x], StreamStep(y, e, x);
      && t.read + t.buffered == s.read + s.buffered
      && (t.at.Sent? ==> t.at == s.at)
      && (t.reported == s.reported || (s.at.Sent? && t.reported == s.at.end))
  {
    if e.Read? && e.sid == x {
      var s := y.streams[x];
      assert (s.read + s.buffered[..e.n]) + s.buffered[e.n..] == s.read + s.buffered;
    }
  }

  lemma WriteKeepsArrived(q: Queue, i: nat, got: nat, x: Sid, s: Stream, t: Stream)
    requires i < |q.heap| && Arrived(q, got, x, s) && t == s.(at := t.at)
    requires t == s || t.at == Sent(|DataOf(q.log, x)| + |BytesFor(q.heap[i], x)|)
    ensures Arrived(WriteOut(q, i), got, x, t)
  {
    DataOfSnoc(q.log, q.heap[i], x);
    assert WriteOut(q, i).log[..got] == q.log[..got];
  }

  lemma ReceiveKeepsArrived(q: Queue, got: nat, x: Sid, s: Stream)
    requires Arrived(q, got, x, s) && got < |q.log|
    ensures Arrived(q, got + 1, x, s.(buffered := s.buffered + BytesFor(q.log[got], x)))
  {
    assert q.log[..got + 1] == q.log[..got] + [q.log[got]];
    DataOfSnoc(q.log[..got], q.log[got], x);
    Reassociate(s.read, s.buffered, BytesFor(q.log[got], x));
  }

  lemma Reassociate(a: seq<Byte>, b: seq<Byte>, c: seq<Byte>)
    ensures a + (b + c) == (a + b) + c
  {
  }

  lemma WriteKeepsKept(q: Queue, i: nat, x: Sid, s: Stream)
    requires i < |q.heap| && Kept(q, x, s)
    ensures Kept(WriteOut(q, i), x, s)
  {
    var a, b, c := DataOf(q.heap[..i], x), BytesFor(q.heap[i], x), DataOf(q.heap[i + 1..], x);
    DataOfSplit(q.heap, i, x);
    DataOfConcat(q.heap[..i], q.heap[i + 1..], x);
    DataOfSnoc(q.log, q.heap[i], x);
    Union3(a, b, c);
    Union(DataOf(q.log, x), b);
    Union(a, c);
  }

  lemma Union(a: seq<Byte>, b: seq<Byte>)
    ensures multiset(a + b) == multiset(a) + multiset(b)
  {
  }

  lemma Union3(a: seq<Byte>, b: seq<Byte>, c: seq<Byte>)
    ensures multiset(a + b + c) == multiset(a) + multiset(b) + multiset(c)
  {
    Union(a + b, c);
    Union(a, b);
  }

  lemma TakeKeepsKept(q: Queue, r: Request, x: Sid, s: Stream, t: Stream)
    requires Kept(q, x, s) && t.accepted == s.accepted + BytesFor(r, x)
    ensures Kept(Take(q, r), x, t)
  {
    DataOfSnoc(q.heap, r.(accepted := q.drawn), x);
    Union(DataOf(q.heap, x), BytesFor(r, x));
    Union(s.accepted, BytesFor(r, x));
  }

  /** Neither taken nor written. */
  predicate Still(e: Event) { !e.Write? && !e.TakeData? && !e.TakeControl? }

  lemma StillStep(y: Session, e: Event, x: Sid)
    requires Enabled(y, e) && x in y.streams && Still(e)
    ensures QueueStep(y, e).log == y.q.log && QueueStep(y, e).heap == y.q.heap
    ensures StreamStep(y, e, x).accepted == y.streams[x].accepted
  {
  }

  lemma TakeStep(y: Session, e: Event, x: Sid) returns (r: Request)
    requires Enabled(y, e) && QueueOk(y.q) && x in y.streams && (e.TakeData? || e.TakeControl?)
    ensures QueueStep(y, e) == Take(y.q, r) && StreamStep(y, e, x).accepted == y.streams[x].accepted + BytesFor(r, x)
  {
    if e.TakeData? {
      r := DataRequest(y.q, e.sid, y.streams[e.sid]);
    } else {
      r := e.r;
      assert DrawnOk(y.q, r) && BytesFor(r, x) == [];
    }
  }

  lemma StepKeepsKept(y: Session, e: Event, x: Sid)
    requires Enabled(y, e) && QueueOk(y.q) && x in y.streams && Kept(y.q, x, y.streams[x])
    ensures Kept(QueueStep(y, e), x, StreamStep(y, e, x))
  {
    if Still(e) {
      StillStep(y, e, x);
    } else if e.Write? {
      WriteKeepsKept(y.q, e.i, x, y.streams[x]);
    } else {
      var r := TakeStep(y, e, x);
      TakeKeepsKept(y.q, r, x, y.streams[x], StreamStep(y, e, x));
    }
  }

  /** What goes out has no data of its stream ahead of it: in the span it is the oldest, and
      of a patient writer there is no other. */
  lemma NoneAhead(q: Queue, i: nat, x: Sid, s: Stream, j: nat)
    requires QueueOk(q) && Serial(q, x, s) && Queued(q, x, s) && (InSpan(q) || s.patient)
    requires j < i < |q.heap| && (InSpan(q) ==> Least(q.heap, i)) && DataFor(q.heap[i], x)
    ensures !DataFor(q.heap[j], x)
  {
    assert HeapEntry(q, q.heap[j]) && HeapEntry(q, q.heap[i]);
    if InSpan(q) { LeastIsOldest(q, i, j); }
  }

  lemma WriteKeepsOrdered(q: Queue, i: nat, x: Sid, s: Stream, t: Stream)
    requires QueueOk(q) && Serial(q, x, s) && Queued(q, x, s) && (InSpan(q) || s.patient)
    requires i < |q.heap| && (InSpan(q) ==> Least(q.heap, i)) && Ordered(q, x, s) && t.accepted == s.accepted
    ensures Ordered(WriteOut(q, i), x, t)
  {
    var r, z := q.heap[i], WriteOut(q, i);
    if DataFor(r, x) {
      forall j | 0 <= j < i ensures !DataFor(q.heap[j], x) { NoneAhead(q, i, x, s, j); }
    }
    DataOfRemoved(q.heap, i, x);
    DataOfSnoc(q.log, r, x);
    Reassociate(DataOf(q.log, x), BytesFor(r, x), DataOf(z.heap, x));
  }

  lemma TakeKeepsOrdered(q: Queue, r: Request, x: Sid, s: Stream, t: Stream)
    requires Ordered(q, x, s) && t.accepted == s.accepted + BytesFor(r, x)
    ensures Ordered(Take(q, r), x, t)
  {
    DataOfSnoc(q.heap, r.(accepted := q.drawn), x);
    Reassociate(DataOf(q.log, x), DataOf(q.heap, x), BytesFor(r, x));
  }

  lemma StepKeepsOrdered(y: Session, e: Event, x: Sid)
    requires Enabled(y, e) && QueueOk(y.q) && x in y.streams && StreamOk(y.q, y.got, x, y.streams[x])
    requires InSpan(QueueStep(y, e)) || StreamStep(y, e, x).patient
    ensures Ordered(QueueStep(y, e), x, StreamStep(y, e, x))
  {
    OrderOnlyShrinks(y, e, x);
    if Still(e) {
      StillStep(y, e, x);
    } else if e.Write? {
      WriteKeepsOrdered(y.q, e.i, x, y.streams[x], StreamStep(y, e, x));
    } else {
      var r := TakeStep(y, e, x);
      TakeKeepsOrdered(y.q, r, x, y.streams[x], StreamStep(y, e, x));
    }
  }

  lemma OrderOnlyShrinks(y: Session, e: Event, x: Sid)
    requires Enabled(y, e) && x in y.streams && (InSpan(QueueStep(y, e)) || StreamStep(y, e, x).patient)
    ensures InSpan(y.q) || y.streams[x].patient
  {
    if InSpan(QueueStep(y, e)) { SpanOnlyShrinks(y, e); }
  }

  lemma WriteKeepsFins(q: Queue, i: nat, x: Sid, s: Stream, t: Stream)
    requires i < |q.heap| && FinsLast(q, x, s) && t.closed == s.closed
    ensures FinsLast(WriteOut(q, i), x, t)
  {
    var z := WriteOut(q, i);
    DataOfSnoc(q.log, q.heap[i], x);
    forall k | 0 <= k < |z.heap| ensures z.heap[k] == q.heap[if k < i then k else k + 1] {}
    forall p | 0 <= p < |z.log| && FinOf(z.log[p], x)
      ensures s.closed == Some(z.log[p].frame.mark) && z.log[p].frame.mark <= |DataOf(z.log[..p], x)|
    {
      if p < |q.log| { assert z.log[p] == q.log[p] && z.log[..p] == q.log[..p]; }
      else { assert z.log[..p] == q.log; }
    }
  }

  lemma DrawKeepsFins(q: Queue, f: Frame, x: Sid, s: Stream, t: Stream)
    requires FinsLast(q, x, s) && !f.Data?
    requires if f.Fin? && f.sid == x then s.closed.None? && t.closed == Some(f.mark) && f.mark <= |DataOf(q.log, x)| else t.closed == s.closed
    ensures FinsLast(DrawControl(q, f), x, t)
  {
  }

  lemma TakeKeepsFins(q: Queue, r: Request, x: Sid, s: Stream, t: Stream)
    requires FinsLast(q, x, s) && t.closed == s.closed && (r in q.control || r.frame.Data?)
    ensures FinsLast(Take(q, r), x, t)
  {
    var z := Take(q, r);
    assert forall k :: 0 <= k < |q.heap| ==> z.heap[k] == q.heap[k];
  }

  lemma StepKeepsFins(y: Session, e: Event, x: Sid)
    requires Enabled(y, e) && x in y.streams && FinsLast(y.q, x, y.streams[x])
    requires y.streams[x].reported <= |DataOf(y.q.log, x)|
    ensures FinsLast(QueueStep(y, e), x, StreamStep(y, e, x))
  {
    var s, t := y.streams[x], StreamStep(y, e, x);
    match e
    case Write(i, _) => WriteKeepsFins(y.q, i, x, s, t);
    case Close(sid) => DrawKeepsFins(y.q, Fin(sid, y.streams[sid].reported), x, s, t);
    case DrawOther(f) => DrawKeepsFins(y.q, f, x, s, t);
    case TakeData(sid) => TakeKeepsFins(y.q, DataRequest(y.q, sid, y.streams[sid]), x, s, t);
    case TakeControl(r) => TakeKeepsFins(y.q, r, x, s, t);
    case _ =>
  }

  lemma StepKeepsStream(y: Session, e: Event, x: Sid)
    requires Inv(y) && Enabled(y, e) && x in y.streams
    ensures StreamOk(QueueStep(y, e), if e.Receive? then y.got + 1 else y.got, x, StreamStep(y, e, x))
  {
    assert StreamOk(y.q, y.got, x, y.streams[x]);
    StepKeepsSerial(y, e, x);
    StepKeepsQueued(y, e, x);
    StepKeepsArrived(y, e, x);
    StepKeepsKept(y, e, x);
    StepKeepsFins(y, e, x);
    if InSpan(QueueStep(y, e)) || StreamStep(y, e, x).patient { StepKeepsOrdered(y, e, x); }
  }

  lemma SpanOnlyShrinks(y: Session, e: Event)
    requires Enabled(y, e) && InSpan(QueueStep(y, e))
    ensures InSpan(y.q)
  {
  }

  lemma StepKeepsInv(y: Session, e: Event)
    requires Inv(y)
    ensures Inv(Step(y, e))
  {
    if Enabled(y, e) {
      StepKeepsQueue(y, e);
      forall x | x in y.streams
        ensures StreamOk(QueueStep(y, e), if e.Receive? then y.got + 1 else y.got, x, StreamStep(y, e, x))
      {
        StepKeepsStream(y, e, x);
      }
      StepShape(y, e);
    }
  }

  lemma StepShape(y: Session, e: Event)
    requires Enabled(y, e)
    ensures var z := Step(y, e);
      z.q == QueueStep(y, e) && z.got == (if e.Receive? then y.got + 1 else y.got) && z.streams.Keys == y.streams.Keys
    ensures forall x :: x in y.streams ==> Step(y, e).streams[x] == StreamStep(y, e, x)
  {
  }

  lemma StartInv(sids: set<Sid>)
    ensures Inv(Start(sids))
  {
    var y := Start(sids);
    forall x | x in y.streams
      ensures StreamOk(y.q, y.got, x, y.streams[x])
    {
    }
  }

  lemma {:induction false} RunKeepsInv(sids: set<Sid>, es: seq<Event>)
    ensures Inv(Run(Start(sids), es))
    decreases |es|
  {
    if es == [] {
      StartInv(sids);
    } else {
      RunKeepsInv(sids, es[..|es| - 1]);
      StepKeepsInv(Run(Start(sids), es[..|es| - 1]), es[|es| - 1]);
    }
  }

  // ---------------------------------------------------------------------------
  // What that means
  // ---------------------------------------------------------------------------

  lemma ReceivedIsPrefix(q: Queue, got: nat, x: Sid, s: Stream)
    requires Arrived(q, got, x, s) && Ordered(q, x, s)
    ensures s.read <= s.accepted
    ensures q.heap == [] && got == |q.log| && s.buffered == [] ==> s.read == s.accepted
  {
    var written := DataOf(q.log, x);
    assert written == (s.read + s.buffered) + DataOf(q.log[got..], x) by {
      assert q.log == q.log[..got] + q.log[got..];
      DataOfConcat(q.log[..got], q.log[got..], x);
    }
    Lead(s.read, s.buffered, DataOf(q.log[got..], x), DataOf(q.heap, x));
    if q.heap == [] && got == |q.log| && s.buffered == [] {
      assert q.log[..got] == q.log;
      assert written + [] == written && s.read + [] == s.read;
    }
  }

  lemma Lead(a: seq<Byte>, b: seq<Byte>, c: seq<Byte>, d: seq<Byte>)
    ensures a <= ((a + b) + c) + d
  {
  }

  /** What the writer has not handed over yet. */
  function Withheld(s: Stream): seq<Byte> { (if s.at.Drawn? then s.at.bytes else []) + s.rest }

  lemma StepKeepsOffered(y: Session, e: Event, x: Sid)
    requires Enabled(y, e) && x in y.streams && y.streams[x].offered == y.streams[x].accepted + Withheld(y.streams[x])
    ensures var t := StreamStep(y, e, x); t.offered == t.accepted + Withheld(t)
  {
    var s, t := y.streams[x], StreamStep(y, e, x);
    match e
    case StartWrite(sid, bytes) => if sid == x { Offers(s.accepted, [], bytes); }
    case DrawData(sid, n) => if sid == x { assert s.rest[..n] + s.rest[n..] == s.rest; }
    case TakeData(sid) => if sid == x { Offers(s.accepted, s.at.bytes, s.rest); }
    case GiveUp(sid) => if sid == x { Offers(s.accepted, [], []); }
    case _ =>
  }

  lemma Offers(a: seq<Byte>, b: seq<Byte>, c: seq<Byte>)
    ensures a + (b + c) == (a + b) + c && [] + c == c && a + [] == a
  {
  }

  lemma {:induction false} RunKeepsOffered(sids: set<Sid>, es: seq<Event>, x: Sid)
    ensures var y := Run(Start(sids), es); x in y.streams ==> y.streams[x].offered == y.streams[x].accepted + Withheld(y.streams[x])
    decreases |es|
  {
    if es != [] {
      var y, e := Run(Start(sids), es[..|es| - 1]), es[|es| - 1];
      RunKeepsOffered(sids, es[..|es| - 1], x);
      if Enabled(y, e) {
        StepShape(y, e);
        if x in y.streams { StepKeepsOffered(y, e, x); }
      }
    }
  }

  /** Stream integrity: for every interleaving of any number of streams through the
      shaper, what a reader has read is a prefix of what was written - and all of it once no
      Write is under way and the shaper, the connection and the buffers are empty. For a
      writer that gives no frame up in the shaper this needs nothing else; for the others,
      that no request waits while 2^31 others are drawn. */
  lemma ReadIsPrefixOfWritten(sids: set<Sid>, es: seq<Event>, x: Sid)
    ensures var y := Run(Start(sids), es);
      x in y.streams && (InSpan(y.q) || y.streams[x].patient) ==>
        && y.streams[x].read <= y.streams[x].accepted <= y.streams[x].offered
        && (y.q.heap == [] && y.got == |y.q.log| && y.streams[x].buffered == [] ==> y.streams[x].read == y.streams[x].accepted)
        && (!y.streams[x].at.Drawn? && y.streams[x].rest == [] ==> y.streams[x].accepted == y.streams[x].offered)
  {
    RunKeepsInv(sids, es);
    RunKeepsOffered(sids, es, x);
    var y := Run(Start(sids), es);
    if x in y.streams && (InSpan(y.q) || y.streams[x].patient) {
      assert StreamOk(y.q, y.got, x, y.streams[x]);
      ReceivedIsPrefix(y.q, y.got, x, y.streams[x]);
    }
  }

  /** The reader is told EOF once the peer's FIN has arrived and its buffers are empty. */
  predicate SeesEof(y: Session, x: Sid) {
    && x in y.streams && y.streams[x].buffered == [] && y.got <= |y.q.log|
    && exists p :: 0 <= p < y.got && FinOf(y.q.log[p], x)
  }

  lemma {:induction false} PrefixLength(log: seq<Request>, p: nat, x: Sid)
    requires p <= |log|
    ensures |DataOf(log[..p], x)| <= |DataOf(log, x)|
  {
    assert log == log[..p] + log[p..];
    DataOfConcat(log[..p], log[p..], x);
  }

  /** Whoever has drained its buffers after a FIN has read what was written before it. */
  lemma ReadPastFin(q: Queue, got: nat, x: Sid, s: Stream, p: nat)
    requires Arrived(q, got, x, s) && p < got && s.buffered == []
    ensures |DataOf(q.log[..p], x)| <= |s.read| <= |DataOf(q.log, x)|
  {
    var log := q.log[..got];
    assert s.read + [] == s.read && log[..p] == q.log[..p];
    PrefixLength(log, p, x);
    PrefixLength(q.log, got, x);
  }

  /** EOF comes after every Byte reported written before the peer closed. */
  lemma EofAfterReportedWrites(sids: set<Sid>, es: seq<Event>, x: Sid)
    ensures var y := Run(Start(sids), es);
      SeesEof(y, x) ==> y.streams[x].closed.Some? && |y.streams[x].read| >= y.streams[x].closed.value
  {
    RunKeepsInv(sids, es);
    var y := Run(Start(sids), es);
    if SeesEof(y, x) {
      assert StreamOk(y.q, y.got, x, y.streams[x]);
      var p :| 0 <= p < y.got && FinOf(y.q.log[p], x);
      ReadPastFin(y.q, y.got, x, y.streams[x], p);
    }
  }

  /** Two requests of one class, the first taken before the second was drawn - a SYN that
      was queued and the FIN sent after it timed out, say - are written in that order. */
  lemma QueuedBeforeDrawnGoesFirst(sids: set<Sid>, es: seq<Event>, p: nat, i: nat)
    ensures var q := Run(Start(sids), es).q;
      InSpan(q) && p < |q.log| && i < |q.log| && q.log[p].cls == q.log[i].cls && q.log[p].accepted < q.log[i].order ==> p < i
  {
    RunKeepsInv(sids, es);
    var q := Run(Start(sids), es).q;
    if InSpan(q) && i <= p < |q.log| { assert i < p ==> InTurn(q.log[i], q.log[p]); }
  }

  /** A frame is in the shaper when its stream is closed and the FIN taken. */
  function ClosedUnderWrite(): Session {
    var y2 := Step(Step(Step(Start({1}), StartWrite(1, [9])), DrawData(1, 1)), TakeData(1));
    Step(Step(y2, Close(1)), TakeControl(Request(CLSCTRL, 2, 2, 0, Fin(1, 0))))
  }

  const LATE := Request(CLSDATA, 1, 1, 1, Data(1, [9]))
  const FIN := Request(CLSCTRL, 2, 2, 2, Fin(1, 0))

  lemma FrameIsTaken()
    ensures var y := Step(Step(Step(Start({1}), StartWrite(1, [9])), DrawData(1, 1)), TakeData(1));
      && y.q == Queue(1, {}, [LATE], [], 0) && y.got == 0
      && y.streams == map[1 := Stream(Waiting(1), [], [9], true, [9], 0, None, [], [])]
  {
    var y1 := Step(Step(Start({1}), StartWrite(1, [9])), DrawData(1, 1));
    assert [] + [9] == [9] && [9][..1] == [9] && [9][1..] == [] && Oldest([], 1) == 0;
    assert y1.q == Queue(1, {}, [], [], 0);
    assert y1.streams == map[1 := Stream(Drawn(1, [9]), [], [9], true, [], 0, None, [], [])];
    var y2 := Step(y1, TakeData(1));
    assert y2.q.control == {};
    assert [] + [9] == [9] && y2.streams[1].accepted == [9];
  }

  lemma CloseIsTaken(y: Session)
    requires y.q == Queue(1, {}, [LATE], [], 0) && y.got == 0
    requires y.streams == map[1 := Stream(Waiting(1), [], [9], true, [9], 0, None, [], [])]
    ensures var z := Step(Step(y, Close(1)), TakeControl(Request(CLSCTRL, 2, 2, 0, Fin(1, 0))));
      && z.q == Queue(2, {}, [LATE, FIN], [], 1) && z.got == 0
      && z.streams == map[1 := Stream(Waiting(1), [], [9], true, [9], 0, Some(0), [], [])]
  {
    var fin := Request(CLSCTRL, 2, 2, 0, Fin(1, 0));
    assert [LATE][1..] == [] && Oldest([], 2) == 0 && Oldest([LATE], 2) == 1;
    var y3 := Step(y, Close(1));
    assert y3.q == Queue(2, {fin}, [LATE], [], 1);
    var y4 := Step(y3, TakeControl(fin));
    assert y4.q.control == {};
  }

  lemma ClosedUnderWriteState()
    ensures ClosedUnderWrite().q == Queue(2, {}, [LATE, FIN], [], 1) && ClosedUnderWrite().got == 0
    ensures ClosedUnderWrite().streams == map[1 := Stream(Waiting(1), [], [9], true, [9], 0, Some(0), [], [])]
  {
    FrameIsTaken();
    CloseIsTaken(Step(Step(Step(Start({1}), StartWrite(1, [9])), DrawData(1, 1)), TakeData(1)));
  }

  lemma FinIsWritten(y: Session)
    requires y.q == Queue(2, {}, [LATE, FIN], [], 1) && y.streams == map[1 := Stream(Waiting(1), [], [9], true, [9], 0, Some(0), [], [])]
    ensures var z := Step(y, Write(1, true)); z.q == Queue(2, {}, [LATE], [FIN], 1) && z.got == y.got && z.streams == y.streams
  {
    assert Least(y.q.heap, 1);
    assert Removed([LATE, FIN], 1) == [LATE];
  }

  lemma FinIsReceived(y: Session)
    requires y.q == Queue(2, {}, [LATE], [FIN], 1) && y.got == 0
    requires y.streams == map[1 := Stream(Waiting(1), [], [9], true, [9], 0, Some(0), [], [])]
    ensures var z := Step(y, Receive); z.q == y.q && z.got == 1 && z.streams == y.streams
  {
    assert BytesFor(FIN, 1) == [];
  }

  lemma FinGoesFirst()
    ensures var y := Step(Step(ClosedUnderWrite(), Write(1, true)), Receive);
      && y.q == Queue(2, {}, [LATE], [FIN], 1) && y.got == 1
      && y.streams == map[1 := Stream(Waiting(1), [], [9], true, [9], 0, Some(0), [], [])]
  {
    ClosedUnderWriteState();
    FinIsWritten(ClosedUnderWrite());
    FinIsReceived(Step(ClosedUnderWrite(), Write(1, true)));
  }

  /** A write that is still under way when its stream is closed has no such promise: the
      FIN overtakes its frame, the reader sees EOF with nothing read, and the write then
      succeeds. */
  lemma FinOvertakesConcurrentWrite()
    ensures var y := Step(Step(ClosedUnderWrite(), Write(1, true)), Receive);
      var z := Step(Step(y, Write(0, true)), Return(1));
      SeesEof(y, 1) && y.streams[1].read == [] && 1 in z.streams && z.streams[1].reported == 1
  {
    FinGoesFirst();
    var y := Step(Step(ClosedUnderWrite(), Write(1, true)), Receive);
    assert FinOf(y.q.log[0], 1) && SeesEof(y, 1);
    LateFrameIsReported(y);
  }

  lemma LateFrameIsReported(y: Session)
    requires y.q == Queue(2, {}, [LATE], [FIN], 1) && y.streams == map[1 := Stream(Waiting(1), [], [9], true, [9], 0, Some(0), [], [])]
    ensures var z := Step(Step(y, Write(0, true)), Return(1)); 1 in z.streams && z.streams[1].reported == 1
  {
    assert Least(y.q.heap, 0) by { assert W.U32(LATE.number - LATE.number) == 0; }
    DataOfNone(y.q.log, 1);
    assert BytesFor(LATE, 1) == [9];
    var y6 := Step(y, Write(0, true));
    assert y6.streams[1].at == Sent(1);
  }

  /** Control requests of every kind are drawn, among them the FIN behind a timed-out SYN, and
      taken or given up. */
  lemma ControlHappens(y: Session, f: Frame, r: Request)
    ensures f.Syn? || f.Other? || (f.Fin? && f.mark == 0 && f.sid !in y.streams) ==>
      var q := Step(y, DrawOther(f)).q; q.drawn == y.q.drawn + 1 && exists c :: c in q.control && c.frame == f && c.order == q.drawn
    ensures r in y.q.control ==> r !in Step(y, DropControl(r)).q.control
    ensures r in y.q.control ==> r.(accepted := y.q.drawn) in Step(y, TakeControl(r)).q.heap
  {
    var c := Request(CLSCTRL, W.U32(y.q.drawn + 1), y.q.drawn + 1, 0, f);
    assert c in DrawControl(y.q, f).control;
    assert r.(accepted := y.q.drawn) in Take(y.q, r).heap;
  }
}
