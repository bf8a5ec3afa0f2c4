/** The receive buffer of a smux session: a token bucket that the receive loop debits for
    every byte it files under a stream, and that readers and closes credit back. */
module Tokens {

  import opened Numbers
  import W = Window

  const MAX_FRAME := 65535

  type Sid = nat

  /** The value an int32 keeps of x. */
  function Int32(x: int): int {
    W.Int32(W.U32(x))
  }

  /** The bytes buffered on all registered streams. */
  ghost function Total(m: map<Sid, seq<nat>>): nat
    decreases |m|
  {
    if m == map[] then 0 else
      var k :| k in m;
      Sum(m[k]) + Total(m - {k})
  }

  lemma {:induction false} TotalWithout(m: map<Sid, seq<nat>>, k: Sid)
    requires k in m
    ensures Total(m) == Sum(m[k]) + Total(m - {k})
    decreases |m|
  {
    var p :| p in m && Total(m) == Sum(m[p]) + Total(m - {p});
    if p != k {
      TotalWithout(m - {p}, k);
      TotalWithout(m - {k}, p);
      assert (m - {p}) - {k} == (m - {k}) - {p};
    }
  }

  lemma TotalUpdate(m: map<Sid, seq<nat>>, k: Sid, v: seq<nat>)
    ensures Total(m[k := v]) == Total(m) - (if k in m then Sum(m[k]) else 0) + Sum(v)
  {
    TotalWithout(m[k := v], k);
    assert m[k := v] - {k} == m - {k};
    if k in m { TotalWithout(m, k); } else { assert m - {k} == m; }
  }

  // ---------------------------------------------------------------------------
  // The session's fields and the sections that change them
  // ---------------------------------------------------------------------------

  /** `streams` maps each registered stream to the lengths of its unread buffers. */
  datatype State = State(bucket: int, streams: map<Sid, seq<nat>>)

  function PushSpec(s: State, sid: Sid, n: nat): State {
    if sid in s.streams then s.(streams := s.streams[sid := s.streams[sid] + [n]]) else s
  }

  /** k bytes leave the front buffer. */
  function TakeSpec(s: State, sid: Sid, k: nat): State
    requires sid in s.streams && s.streams[sid] != [] && k <= s.streams[sid][0]
  {
    var b := s.streams[sid];
    s.(streams := s.streams[sid := if k == b[0] then b[1..] else [b[0] - k] + b[1..]])
  }

  function CreditSpec(s: State, n: int): State { s.(bucket := Int32(s.bucket + n)) }

  function UnregisterSpec(s: State, sid: Sid): State { s.(streams := s.streams - {sid}) }

  class Session {
    var bucket: int
    var streams: map<Sid, seq<nat>>

    function Model(): State
      reads this
    {
      State(bucket, streams)
    }

    constructor (maxReceiveBuffer: nat)
      ensures Model() == State(Int32(maxReceiveBuffer), map[])
    {
      bucket, streams := Int32(maxReceiveBuffer), map[];
    }

    method PushBytes(sid: Sid, n: nat) returns (filed: bool)
      modifies this
      ensures Model() == PushSpec(old(Model()), sid, n) && filed == (sid in old(streams))
    {
      filed := sid in streams;
      if filed { streams := streams[sid := streams[sid] + [n]]; }
    }

    /** Read into a buffer of `room` bytes; n is what it takes. */
    method TakeFront(sid: Sid, room: nat) returns (n: nat)
      requires sid in streams
      modifies this
      ensures old(streams)[sid] == [] ==> n == 0 && Model() == old(Model())
      ensures old(streams)[sid] != [] ==>
        n == (if room < old(streams)[sid][0] then room else old(streams)[sid][0]) && Model() == TakeSpec(old(Model()), sid, n)
    {
      if streams[sid] == [] { return 0; }
      var b := streams[sid];
      n := if room < b[0] then room else b[0];
      streams := streams[sid := if n == b[0] then b[1..] else [b[0] - n] + b[1..]];
    }

    method ReturnTokens(n: int) returns (notify: bool)
      modifies this
      ensures Model() == CreditSpec(old(Model()), n) && notify == (bucket > 0)
    {
      bucket := Int32(bucket + n);
      notify := bucket > 0;
    }

    /** The stream is gone from the map, and every byte still buffered on it is to be
        returned. */
    method Unregister(sid: Sid) returns (n: nat)
      modifies this
      ensures Model() == UnregisterSpec(old(Model()), sid)
      ensures n == if sid in old(streams) then Sum(old(streams)[sid]) else 0
    {
      n := 0;
      if sid in streams {
        var b := streams[sid];
        var k := 0;
        while k < |b|
          invariant 0 <= k <= |b| && Model() == old(Model())
          invariant n + Sum(b[k..]) == Sum(b)
        {
          assert b[k..][1..] == b[k + 1..];
          n := n + b[k];
          k := k + 1;
        }
      }
      streams := streams - {sid};
    }
  }

  // ---------------------------------------------------------------------------
  // The receive loop, readers and closes, interleaved
  // ---------------------------------------------------------------------------

  /** `taken` are bytes out of the buffers whose tokens are not returned yet, `debit` a
      frame filed but not debited yet, `go` that the receive loop has passed its gate. */
  datatype Sys = Sys(s: State, taken: nat, debit: nat, go: bool, closed: bool)

  datatype Event =
    | Syn(sid: Sid)
    | Gate                    // the loop finds tokens left, or the session closed
    | Push(sid: Sid, n: nat)  // a data frame of n bytes
    | Debit
    | Take(sid: Sid, k: nat)  // Read, and WriteTo with k the whole front buffer
    | Return(n: nat)
    | CloseStream(sid: Sid)
    | CloseSession

  function Start(max: nat): Sys { Sys(State(Int32(max), map[]), 0, 0, false, false) }

  predicate Enabled(y: Sys, e: Event) {
    match e
    case Syn(sid) => sid !in y.s.streams && y.debit == 0
    case Gate => y.debit == 0 && (y.s.bucket > 0 || y.closed)
    case Push(_, n) => y.go && y.debit == 0 && 1 <= n <= MAX_FRAME
    case Debit => y.debit > 0
    case Take(sid, k) => sid in y.s.streams && y.s.streams[sid] != [] && 1 <= k <= y.s.streams[sid][0]
    case Return(n) => 1 <= n <= y.taken
    case CloseStream(sid) => sid in y.s.streams && y.debit == 0
    case CloseSession => true
  }

  function Step(y: Sys, e: Event): Sys {
    if !Enabled(y, e) then y else
      match e
      case Syn(sid) => y.(s := y.s.(streams := y.s.streams[sid := []]))
      case Gate => y.(go := true)
      case Push(sid, n) => y.(s := PushSpec(y.s, sid, n), debit := if sid in y.s.streams then n else 0, go := false)
      case Debit => y.(s := CreditSpec(y.s, 0 - y.debit), debit := 0)
      case Take(sid, k) => y.(s := TakeSpec(y.s, sid, k), taken := y.taken + k)
      case Return(n) => y.(s := CreditSpec(y.s, n), taken := y.taken - n)
      case CloseStream(sid) => y.(s := UnregisterSpec(y.s, sid), taken := y.taken + Sum(y.s.streams[sid]))
      case CloseSession => y.(closed := true)
  }

  function Run(y: Sys, es: seq<Event>): Sys
    decreases |es|
  {
    if es == [] then y else Step(Run(y, es[..|es| - 1]), es[|es| - 1])
  }

  ghost function Held(y: Sys): nat { Total(y.s.streams) + y.taken }

  /** What the bucket would be with unbounded integers. */
  ghost function Free(max: nat, y: Sys): int { max + y.debit - Held(y) }

  /** The bucket is that number to 32 bits, and while the session is open a frame is only
      filed against a token. (A closed session's loop may file what still arrives
      without looking at the bucket.) */
  ghost predicate Inv(max: nat, y: Sys) {
    && y.s.bucket == Int32(Free(max, y))
    && y.debit <= MAX_FRAME && (y.go ==> y.debit == 0)
    && (max < W.HALF && !y.closed ==> Free(max, y) > -MAX_FRAME && (y.go || y.debit > 0 ==> Free(max, y) > 0))
  }

  lemma Int32Absorbs(a: int, b: int)
    ensures Int32(Int32(a) + b) == Int32(a + b)
    ensures -W.HALF <= a < W.HALF ==> Int32(a) == a
  {
    var k := if a % W.MOD < W.HALF then a / W.MOD else a / W.MOD + 1;
    assert Int32(a) + b + k * W.MOD == a + b;
    ModShift(Int32(a) + b, k);
  }

  lemma ModShift(a: int, k: int)
    ensures (a + k * W.MOD) % W.MOD == a % W.MOD
  {
    assert a + k * W.MOD == a % W.MOD + (a / W.MOD + k) * W.MOD;
  }

  lemma CreditKeepsInv(max: nat, y: Sys, e: Event)
    requires Inv(max, y) && (e.Debit? || e.Return?)
    ensures Inv(max, Step(y, e))
  {
    if Enabled(y, e) {
      Int32Absorbs(Free(max, y), if e.Debit? then 0 - y.debit else e.n);
    }
  }

  /** What is filed, taken or closed moves between the buffers and the rest. */
  lemma SynHeld(y: Sys, sid: Sid)
    requires Enabled(y, Syn(sid))
    ensures Held(Step(y, Syn(sid))) == Held(y)
  {
    TotalUpdate(y.s.streams, sid, []);
  }

  lemma PushHeld(y: Sys, sid: Sid, n: nat)
    requires Enabled(y, Push(sid, n))
    ensures Held(Step(y, Push(sid, n))) == Held(y) + if sid in y.s.streams then n else 0
  {
    if sid in y.s.streams {
      SumAppend(y.s.streams[sid], n);
      TotalUpdate(y.s.streams, sid, y.s.streams[sid] + [n]);
    }
  }

  lemma TakeHeld(y: Sys, sid: Sid, k: nat)
    requires Enabled(y, Take(sid, k))
    ensures Held(Step(y, Take(sid, k))) == Held(y)
  {
    var b := y.s.streams[sid];
    TotalUpdate(y.s.streams, sid, TakeSpec(y.s, sid, k).streams[sid]);
    assert ([b[0] - k] + b[1..])[1..] == b[1..];
  }

  lemma CloseHeld(y: Sys, sid: Sid)
    requires Enabled(y, CloseStream(sid))
    ensures Held(Step(y, CloseStream(sid))) == Held(y)
  {
    TotalWithout(y.s.streams, sid);
  }

  lemma BufferStepKeepsInv(max: nat, y: Sys, e: Event)
    requires Inv(max, y) && !e.Debit? && !e.Return? && Enabled(y, e)
    ensures Inv(max, Step(y, e))
  {
    match e
    case Syn(sid) => SynHeld(y, sid);
    case Gate => Int32Absorbs(Free(max, y), 0);
    case Push(sid, n) => PushHeld(y, sid, n);
    case Take(sid, k) => TakeHeld(y, sid, k);
    case CloseStream(sid) => CloseHeld(y, sid);
    case CloseSession =>
  }

  lemma {:induction false} RunKeepsInv(max: nat, es: seq<Event>)
    ensures Inv(max, Run(Start(max), es))
    decreases |es|
  {
    if es == [] {
      assert Total(map[]) == 0;
    } else {
      var e, y := es[|es| - 1], Run(Start(max), es[..|es| - 1]);
      RunKeepsInv(max, es[..|es| - 1]);
      if e.Debit? || e.Return? { CreditKeepsInv(max, y, e); } else if Enabled(y, e) { BufferStepKeepsInv(max, y, e); }
    }
  }

  /** Conservation, for every size of the bucket and open or closed, whatever pushes, partial
      reads, returns and closes are interleaved: to 32 bits, bucket + buffered + taken is
      MaxReceiveBuffer and what is being debited; it is so exactly, once nothing is being
      debited, if and only if what is left of MaxReceiveBuffer fits an int32. An open session
      whose MaxReceiveBuffer does keeps to that, and never holds more than
      MaxReceiveBuffer + 65534 bytes. */
  lemma TokensAreConserved(max: nat, es: seq<Event>)
    ensures var y := Run(Start(max), es);
      && y.s.bucket == Int32(max + y.debit - Held(y))
      && (y.debit == 0 ==> (y.s.bucket + Held(y) == max <==> -W.HALF <= max - Held(y) < W.HALF))
      && (max < W.HALF && !y.closed ==>
            && (y.debit == 0 ==> y.s.bucket + Held(y) == max)
            && Held(y) <= max + 65534)
  {
    RunKeepsInv(max, es);
    var y := Run(Start(max), es);
    Int32Absorbs(Free(max, y), 0);
  }

  /** A closed session with a stream to file under, and nothing being debited. */
  predicate Overfull(y: Sys) { y.closed && y.debit == 0 && 0 in y.s.streams }

  /** Its loop files a frame of the largest size, whatever the bucket. */
  lemma FileOne(y: Sys)
    requires Overfull(y)
    ensures var z := Step(Step(Step(y, Gate), Push(0, MAX_FRAME)), Debit);
      Overfull(z) && Held(z) == Held(y) + MAX_FRAME
  {
    SumAppend(y.s.streams[0], MAX_FRAME);
    TotalUpdate(y.s.streams, 0, y.s.streams[0] + [MAX_FRAME]);
  }

  /** Closed, the session has no bound: for every bucket and every amount there is a run in
      which it holds more. */
  lemma {:induction false} ClosedSessionOverfills(max: nat, n: nat) returns (es: seq<Event>)
    ensures var y := Run(Start(max), es); Overfull(y) && Held(y) == n * 65535
  {
    if n == 0 {
      es := [Syn(0)] + [CloseSession];
      assert es[..1] == [Syn(0)] && [Syn(0)][..0] == [];
      assert Run(Start(max), [Syn(0)]) == Step(Start(max), Syn(0));
      TotalUpdate(map[], 0, []);
    } else {
      var before := ClosedSessionOverfills(max, n - 1);
      FileOne(Run(Start(max), before));
      es := ((before + [Gate]) + [Push(0, MAX_FRAME)]) + [Debit];
      RunSnoc(max, before, Gate);
      RunSnoc(max, before + [Gate], Push(0, MAX_FRAME));
      RunSnoc(max, (before + [Gate]) + [Push(0, MAX_FRAME)], Debit);
    }
  }

  lemma RunSnoc(max: nat, es: seq<Event>, e: Event)
    ensures Run(Start(max), es + [e]) == Step(Run(Start(max), es), e)
  {
    assert (es + [e])[..|es|] == es;
  }

  /** The configuration check bounds MaxReceiveBuffer from below only. The bucket starts
      at it exactly when it fits 31 bits; past that the loop may find no token ever. */
  lemma BucketStartsFull(max: nat)
    ensures Start(max).s.bucket == max <==> max < W.HALF
    ensures W.HALF <= max <= W.MOD ==> !Enabled(Start(max), Gate)
  {
  }

  /** Whether the receive loop of an open session reads another frame, exactly: as long as
      fewer than MaxReceiveBuffer bytes are held. */
  lemma LoopRunsExactlyBelowMax(max: nat, es: seq<Event>)
    requires max < W.HALF
    ensures var y := Run(Start(max), es);
      !y.closed && y.debit == 0 && !y.go ==> (Step(y, Gate).go <==> Held(y) < max)
  {
    TokensAreConserved(max, es);
  }

  /** A frame that the loop reads for a registered stream is filed and then debited in full. */
  lemma FrameIsFiled(max: nat, es: seq<Event>, sid: Sid, n: nat)
    requires max < W.HALF && 1 <= n <= MAX_FRAME
    requires var y := Run(Start(max), es); y.go && sid in y.s.streams
    ensures var y := Run(Start(max), es); var z := Step(Step(y, Push(sid, n)), Debit);
      && sid in z.s.streams && z.s.streams[sid] == y.s.streams[sid] + [n] && Held(z) == Held(y) + n
      && z.s.bucket == Int32(y.s.bucket - n)
  {
    RunKeepsInv(max, es);
    PushHeld(Run(Start(max), es), sid, n);
  }

  /** Bytes taken off the front buffer, any number of them, come back as tokens. */
  lemma ReadBytesComeBack(max: nat, es: seq<Event>, sid: Sid, k: nat)
    requires var y := Run(Start(max), es); sid in y.s.streams && y.s.streams[sid] != [] && 1 <= k <= y.s.streams[sid][0]
    ensures var y := Run(Start(max), es); var z := Step(Step(y, Take(sid, k)), Return(k));
      Held(z) == Held(y) - k && z.s.bucket == Int32(y.s.bucket + k)
  {
    TakeHeld(Run(Start(max), es), sid, k);
  }

  /** So do the bytes still buffered on a stream that closes. */
  lemma ClosedStreamsComeBack(max: nat, es: seq<Event>, sid: Sid)
    requires var y := Run(Start(max), es); sid in y.s.streams && Sum(y.s.streams[sid]) > 0 && y.debit == 0
    ensures var y := Run(Start(max), es); var n := Sum(y.s.streams[sid]);
      var z := Step(Step(y, CloseStream(sid)), Return(n));
      sid !in z.s.streams && Held(z) == Held(y) - n && z.s.bucket == Int32(y.s.bucket + n)
  {
    CloseHeld(Run(Start(max), es), sid);
  }

  /** Any stream can be opened, once. */
  lemma StreamsOpen(y: Sys, sid: Sid)
    requires sid !in y.s.streams && y.debit == 0
    ensures Step(y, Syn(sid)).s.streams == y.s.streams[sid := []]
  {
  }
}
