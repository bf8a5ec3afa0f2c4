/** Where the sliding window stalls and where it is overrun: which states the two ends can
    reach, and so exactly which windows reopen and which writes keep to them. */
module WindowStalls {

  import opened Wrappers
  import opened Numbers
  import opened Window

  // ---------------------------------------------------------------------------
  // Reachable states
  // ---------------------------------------------------------------------------

  predicate Resizes(e: Event) { e.AtReceiver? && e.v.SwapWindow? }

  /** The states of all runs, and of those that leave the receive window alone. */
  ghost function Reachable(c: Config): iset<Sys> {
    iset es: seq<Event> :: Run(c, Start(), es)
  }

  ghost function Unresized(c: Config): iset<Sys> {
    iset es: seq<Event> | (forall i :: 0 <= i < |es| ==> !Resizes(es[i])) :: Run(c, Start(), es)
  }

  /** A set of states that runs do not leave but by a change of the window. */
  ghost predicate Closed(c: Config, all: iset<Sys>) {
    forall y, e :: y in all && !Resizes(e) ==> Step(c, y, e) in all
  }

  lemma RunSnoc(c: Config, es: seq<Event>, e: Event)
    ensures Run(c, Start(), es + [e]) == Step(c, Run(c, Start(), es), e)
  {
    assert (es + [e])[..|es|] == es;
  }

  lemma ReachableStep(c: Config, y: Sys, e: Event)
    requires y in Reachable(c)
    ensures Step(c, y, e) in Reachable(c)
  {
    var es :| Run(c, Start(), es) == y;
    RunSnoc(c, es, e);
  }

  lemma ReachableIsClosed(c: Config)
    ensures Start() in Reachable(c) && Closed(c, Reachable(c))
  {
    assert Run(c, Start(), []) == Start();
    forall y, e | y in Reachable(c) ensures Step(c, y, e) in Reachable(c) { ReachableStep(c, y, e); }
  }

  lemma UnresizedIsClosed(c: Config)
    ensures Start() in Unresized(c) && Closed(c, Unresized(c))
  {
    assert Run(c, Start(), []) == Start();
    forall y, e | y in Unresized(c) && !Resizes(e) ensures Step(c, y, e) in Unresized(c) {
      var es :| (forall i :: 0 <= i < |es| ==> !Resizes(es[i])) && Run(c, Start(), es) == y;
      RunSnoc(c, es, e);
      assert forall i :: 0 <= i < |es + [e]| ==> !Resizes((es + [e])[i]);
    }
  }

  /** Left alone, the window in force is MaxStreamBuffer. */
  lemma {:induction false} UnresizedWindow(c: Config, es: seq<Event>)
    requires forall i :: 0 <= i < |es| ==> !Resizes(es[i])
    ensures Run(c, Start(), es).v.r.rcvWindow == 0
    decreases |es|
  {
    if es != [] { UnresizedWindow(c, es[..|es| - 1]); }
  }

  lemma SenderReaches(c: Config, all: iset<Sys>, y: Sys, e: SenderEvent)
    requires Closed(c, all) && y in all && CanSend(c, y.s, e)
    ensures y.(s := SenderStep(c, y.s, e), wire := if e.Send? then y.wire + [e.size] else y.wire) in all
  {
    assert Step(c, y, AtSender(e)) in all;
  }

  lemma ReceiverReaches(c: Config, all: iset<Sys>, y: Sys, e: ReceiverEvent)
    requires Closed(c, all) && y in all && CanReceive(y.v, e) && e != SendUpdate(true) && !e.SwapWindow?
    ensures y.(v := ReceiverStep(c, y.v, e)) in all
  {
    assert Step(c, y, AtReceiver(e)) in all;
  }

  /** The one owed update is sent and delivered. */
  lemma UpdateReaches(c: Config, all: iset<Sys>, y: Sys) returns (z: Sys)
    requires Closed(c, all) && y in all && y.v.owed == 1 && y.v.holder.None? && y.updates == [] && y.s.storing.None?
    ensures z in all && z.updates == [] && z.wire == y.wire
    ensures z.v == y.v.(owed := 0, silent := 0, sent := y.v.read, lastWindow := Some(ReceiveWindow(y.v.r, c.maxBuf)))
    ensures z.s == y.s.(acked := y.v.read, w := y.s.w.(peerConsumed := U32(y.v.read), peerWindow := ReceiveWindow(y.v.r, c.maxBuf)))
  {
    ReceiverReaches(c, all, y, TakeUpdLock);
    var y1 := y.(v := ReceiverStep(c, y.v, TakeUpdLock));
    var y2 := Step(c, y1, AtReceiver(SendUpdate(true)));
    assert y2.updates == [Update(U32(y.v.read), ReceiveWindow(y.v.r, c.maxBuf), y.v.read)];
    var y3 := Step(c, y2, DeliverConsumed);
    z := Step(c, y3, DeliverWindow);
  }

  /** The writer, at rest with room for n bytes, takes its window for them. */
  lemma BatchReaches(c: Config, all: iset<Sys>, y: Sys, n: nat)
    requires Closed(c, all) && y in all && y.s.at.Idle? && Inflight(y.s.w) >= 0
    requires 0 < n <= SendWindow(y.s.w) && n <= c.maxWrite
    ensures y.(s := y.s.(at := Batch(n))) in all
  {
    SenderReaches(c, all, y, LoadCounters);
    var y1 := y.(s := y.s.(at := Loaded(Inflight(y.s.w))));
    SenderReaches(c, all, y1, LoadWindow(n));
  }

  /** A frame that is the whole of what is left to send goes out. */
  lemma FrameReaches(c: Config, all: iset<Sys>, y: Sys, n: nat)
    requires Closed(c, all) && y in all && y.s.at == Batch(n) && 0 < n <= c.maxFrame
    ensures y.(wire := y.wire + [n],
               s := y.s.(at := Idle, written := y.s.written + n, w := y.s.w.(numWritten := U32(y.s.w.numWritten + n)))) in all
  {
    SenderReaches(c, all, y, Send(n));
    var y1 := y.(s := y.s.(at := Framing(n, n)), wire := y.wire + [n]);
    SenderReaches(c, all, y1, SendReturns(true));
  }

  /** y with n bytes more written, in one frame that is in the reader's buffers. */
  function Arrived(y: Sys, n: nat): Sys {
    y.(v := y.v.(buffered := [n]),
       s := y.s.(written := y.s.written + n, w := y.s.w.(numWritten := U32(y.s.w.numWritten + n))))
  }

  lemma WriteReaches(c: Config, all: iset<Sys>, y: Sys, n: nat)
    requires Closed(c, all) && y in all && y.s.at.Idle? && y.wire == [] && y.v.buffered == []
    requires Inflight(y.s.w) >= 0 && 0 < n <= SendWindow(y.s.w) && n <= c.LongestFrame()
    ensures Arrived(y, n) in all
  {
    BatchReaches(c, all, y, n);
    FrameReaches(c, all, y.(s := y.s.(at := Batch(n))), n);
    var z := Arrived(y, n).(wire := [n], v := y.v);
    assert [] + [n] == [n] && z in all;
    assert Step(c, z, Deliver) == Arrived(y, n);
  }

  // ---------------------------------------------------------------------------
  // Windows that stall
  // ---------------------------------------------------------------------------

  /** t bytes have been written, read and acknowledged; rcv is the reader's window field and
      win the window the writer was told. */
  predicate Balanced(y: Sys, t: nat, rcv: u32, win: u32) {
    && AtRest(y) && y.v.read == t && y.v.r == Reader(U32(t), 0, rcv) && y.s.w == Writer(U32(t), U32(t), win)
  }

  /** A frame read whole brings an update if it is a threshold's worth, or the first, and
      does not end at a wrap. */
  lemma ReadWhole(c: Config, v: Receiver, t: nat, n: nat)
    requires v.buffered == [n] && n > 0 && v.read == t && v.r == Reader(U32(t), 0, v.r.rcvWindow) && t + n < MOD
    requires t == 0 || n >= Threshold(c, v)
    ensures ReadStep(c, v, n) == v.(r := Reader(U32(t + n), 0, v.r.rcvWindow), read := t + n, buffered := [],
                                    owed := v.owed + 1, silent := 0)
  {
    assert Rest([n], n) == [];
    BelowWrap(t, n);
  }

  lemma BalanceStep(c: Config, all: iset<Sys>, y: Sys, t: nat, rcv: u32, win: u32, n: nat) returns (z: Sys)
    requires Closed(c, all) && y in all && Balanced(y, t, rcv, win) && win < HALF
    requires 0 < n <= win && n <= c.LongestFrame() && t + n < MOD && (t == 0 || n >= Threshold(c, y.v))
    ensures z in all && Balanced(z, t + n, rcv, ReceiveWindow(y.v.r, c.maxBuf))
  {
    assert Inflight(y.s.w) == 0 && SendWindow(y.s.w) == win;
    WriteReaches(c, all, y, n);
    var y1 := Arrived(y, n);
    ReadWhole(c, y1.v, t, n);
    ReceiverReaches(c, all, y1, Read(n));
    z := UpdateReaches(c, all, y1.(v := ReadStep(c, y1.v, n)));
  }

  /** The least step that brings an update. */
  function Stride(window: nat): nat { Max(window / UPDATE_DIVISOR, 1) }

  /** From a start at rest every count below the wrap is reached at rest, if two strides fit
      a frame and the windows. */
  lemma {:induction false} BalanceReaches(c: Config, all: iset<Sys>, y: Sys, rcv: u32, win: u32, t: nat) returns (z: Sys)
    requires Closed(c, all) && y in all && Balanced(y, 0, rcv, win) && win < HALF
    requires var w := ReceiveWindow(y.v.r, c.maxBuf);
      w < HALF && 2 * Stride(w) - 1 <= Min(c.LongestFrame(), Min(win, w)) && Stride(w) <= t < MOD
    ensures z in all && Balanced(z, t, rcv, ReceiveWindow(y.v.r, c.maxBuf))
    decreases t
  {
    var w := ReceiveWindow(y.v.r, c.maxBuf);
    if t < 2 * Stride(w) {
      z := BalanceStep(c, all, y, 0, rcv, win, t);
    } else {
      z := BalanceReaches(c, all, y, rcv, win, t - Stride(w));
      z := BalanceStep(c, all, z, t - Stride(w), rcv, w, Stride(w));
    }
  }

  /** The last window before the wrap: what stays below the threshold in one frame, the rest
      in another. */
  lemma QuietRead(c: Config, v: Receiver, t: nat, n: nat)
    requires v.buffered == [n] && 0 < n < t && v.read == t && v.r == Reader(U32(t), 0, v.r.rcvWindow) && t + n < MOD
    requires n < Threshold(c, v)
    ensures ReadStep(c, v, n) == v.(r := Reader(U32(t + n), n, v.r.rcvWindow), read := t + n, buffered := [])
  {
    assert Rest([n], n) == [];
    BelowWrap(t, n);
  }

  lemma BelowWrap(t: nat, n: nat)
    requires t + n < MOD
    ensures U32(t) == t && U32(n) == n && U32(U32(t) + n) == t + n && U32(t + n) == t + n
  {
  }

  lemma WrapRead(c: Config, v: Receiver, a: nat, n: nat)
    requires v.buffered == [n] && 0 < n < MOD && a + n < MOD && v.read == MOD - n && v.r == Reader(MOD - n, a, v.r.rcvWindow)
    requires a + n >= Threshold(c, v)
    ensures ReadStep(c, v, n) == v.(r := Reader(0, 0, v.r.rcvWindow), read := MOD, buffered := [], silent := v.silent + a + n)
  {
    assert Rest([n], n) == [];
  }

  lemma ReadBelow(c: Config, all: iset<Sys>, y: Sys, rcv: u32, w: nat, n: nat) returns (z: Sys)
    requires Closed(c, all) && y in all && w < HALF && Balanced(y, MOD - w, rcv, w) && w == ReceiveWindow(y.v.r, c.maxBuf)
    requires n < w && (n == 0 || (n < w / UPDATE_DIVISOR && n <= c.LongestFrame()))
    ensures z in all && AtRest(z) && z.v.read == MOD - w + n && z.v.r == Reader(MOD - w + n, n, rcv)
    ensures z.s.w == Writer(MOD - w + n, MOD - w, w) && z.v.silent == y.v.silent
  {
    z := y;
    if n > 0 {
      assert Inflight(y.s.w) == 0 && SendWindow(y.s.w) == w;
      WriteReaches(c, all, y, n);
      z := Arrived(y, n);
      QuietRead(c, z.v, MOD - w, n);
      ReceiverReaches(c, all, z, Read(n));
      z := z.(v := ReadStep(c, z.v, n));
    }
  }

  lemma WrapReaches(c: Config, all: iset<Sys>, y: Sys, rcv: u32, w: nat, a: nat) returns (z: Sys)
    requires Closed(c, all) && y in all && AtRest(y) && a < w < HALF && w == ReceiveWindow(y.v.r, c.maxBuf)
    requires y.v.read == MOD - w + a && y.v.r == Reader(MOD - w + a, a, rcv) && y.s.w == Writer(MOD - w + a, MOD - w, w)
    requires w - a <= c.LongestFrame()
    ensures z in all && AtRest(z) && z.v.read == MOD && z.v.r == Reader(0, 0, rcv) && z.s.w == Writer(0, MOD - w, w)
  {
    var n := w - a;
    assert Inflight(y.s.w) == a && SendWindow(y.s.w) == n;
    WriteReaches(c, all, y, n);
    var y1 := Arrived(y, n);
    WrapRead(c, y1.v, a, n);
    ReceiverReaches(c, all, y1, Read(n));
    z := y1.(v := ReadStep(c, y1.v, n));
  }

  /** The writer has no room, nothing is on its way in either direction, and the count
      of bytes read stands at a multiple of 2^32. */
  predicate Stuck(y: Sys) {
    && (y.s.at.Idle? || (y.s.at.Loaded? && y.s.at.inflight >= Int32(y.s.w.peerWindow)))
    && y.wire == [] && y.updates == [] && y.s.storing.None? && y.v.buffered == []
    && y.v.owed == 0 && y.v.swapped == 0 && y.v.holder.None?
    && y.v.r.numRead == 0 && y.v.r.incr == 0
    && SendWindow(y.s.w) <= 0 && Inflight(y.s.w) >= 0
  }

  /** A window that is not roomy is little more than a frame: two strides fit it, and what a
      frame does not fill stays below the threshold. */
  lemma TightWindow(c: Config, w: nat)
    requires c.Ok() && 1 <= w <= c.maxBuf && !Roomy(c, w)
    ensures 2 * Stride(w) - 1 <= Min(c.LongestFrame(), Min(INITIAL_PEER_WINDOW, w)) && Stride(w) <= MOD - w
    ensures var a := w - Min(c.LongestFrame(), w); a < w && (a == 0 || (a < w / UPDATE_DIVISOR && a <= c.LongestFrame()))
  {
  }

  /** A window that is not roomy stalls: the read that takes the count to exactly 2^32
      announces its update by the count 0 and so sends none, with the whole window unreported. */
  lemma WrapToZeroStalls(c: Config, all: iset<Sys>, y: Sys, rcv: u32, win: u32) returns (z: Sys)
    requires c.Ok() && Closed(c, all) && y in all && Balanced(y, 0, rcv, win)
    requires var w := ReceiveWindow(y.v.r, c.maxBuf); 1 <= w <= c.maxBuf && (win == w || win == INITIAL_PEER_WINDOW) && !Roomy(c, w)
    ensures z in all && AtRest(z) && Stuck(z) && z.v.read == MOD && z.v.r.rcvWindow == rcv
  {
    var w := ReceiveWindow(y.v.r, c.maxBuf);
    TightWindow(c, w);
    z := BalanceReaches(c, all, y, rcv, win, MOD - w);
    z := LastWindowReaches(c, all, z, rcv, w);
    assert SendWindow(z.s.w) == 0 && Inflight(z.s.w) == w;
  }

  /** From a window before the wrap, at rest, to the wrap. */
  lemma LastWindowReaches(c: Config, all: iset<Sys>, y: Sys, rcv: u32, w: nat) returns (z: Sys)
    requires c.Ok() && Closed(c, all) && y in all && 1 <= w <= c.maxBuf && Balanced(y, MOD - w, rcv, w)
    requires w == ReceiveWindow(y.v.r, c.maxBuf) && !Roomy(c, w)
    ensures z in all && AtRest(z) && z.v.read == MOD && z.v.r == Reader(0, 0, rcv) && z.s.w == Writer(0, MOD - w, w)
  {
    TightWindow(c, w);
    var a := w - Min(c.LongestFrame(), w);
    z := ReadBelow(c, all, y, rcv, w, a);
    z := WrapReaches(c, all, z, rcv, w, a);
  }

  /** With the window left alone, the writer has room again in every state at rest of every
      run if and only if the window is roomy. */
  lemma ReopensExactlyWhenRoomy(c: Config)
    requires c.Ok()
    ensures (forall y :: y in Unresized(c) && AtRest(y) ==> SendWindow(y.s.w) > 0) <==>
      c.LongestFrame() + Max(c.maxBuf / 8, 1) - 1 < c.maxBuf
  {
    if Roomy(c, c.maxBuf) {
      forall y | y in Unresized(c) && AtRest(y) ensures SendWindow(y.s.w) > 0 {
        var es :| (forall i :: 0 <= i < |es| ==> !Resizes(es[i])) && Run(c, Start(), es) == y;
        UnresizedWindow(c, es);
        WindowReopens(c, es);
      }
    } else {
      UnresizedIsClosed(c);
      var z := WrapToZeroStalls(c, Unresized(c), Start(), 0, INITIAL_PEER_WINDOW);
    }
  }

  /** The reader sets its window to w before anything is read, and reports that. */
  lemma ResizeReaches(c: Config, w: nat) returns (z: Sys)
    requires c.Ok() && 1 <= w <= c.maxBuf
    ensures z in Reachable(c) && Balanced(z, 0, w, w)
  {
    ReachableIsClosed(c);
    var e := AtReceiver(SwapWindow(w));
    ReachableStep(c, Start(), e);
    var y1 := Start().(v := Start().v.(r := Reader(0, 0, w), swapped := 1));
    assert Step(c, Start(), e) == y1;
    ReceiverReaches(c, Reachable(c), y1, ClearIncr);
    z := UpdateReaches(c, Reachable(c), y1.(v := ReceiverStep(c, y1.v, ClearIncr)));
  }

  /** The same for each window a reader may set: in every state at rest in which it is in
      force the writer has room, if and only if it is roomy. */
  lemma ResizedReopensExactlyWhenRoomy(c: Config, w: nat)
    requires c.Ok() && 1 <= w <= c.maxBuf
    ensures (forall y :: y in Reachable(c) && AtRest(y) && ReceiveWindow(y.v.r, c.maxBuf) == w ==> SendWindow(y.s.w) > 0) <==>
            c.LongestFrame() + Max(w / 8, 1) - 1 < w
  {
    if Roomy(c, w) {
      forall y | y in Reachable(c) && AtRest(y) && ReceiveWindow(y.v.r, c.maxBuf) == w ensures SendWindow(y.s.w) > 0 {
        var es :| Run(c, Start(), es) == y;
        WindowReopens(c, es);
      }
    } else {
      ReachableIsClosed(c);
      var y := ResizeReaches(c, w);
      var z := WrapToZeroStalls(c, Reachable(c), y, w, w);
    }
  }

  lemma StuckStep(c: Config, y: Sys, e: Event)
    requires Stuck(y) && !Resizes(e)
    ensures var z := Step(c, y, e); Stuck(z) && z.s.written == y.s.written && z.v.read == y.v.read
  {
    if e.AtReceiver? && e.v.Read? && CanReceive(y.v, e.v) {
      assert ReadStep(c, y.v, 0).r == y.v.r;
    }
  }

  /** From there nothing but another change of the receive window helps. */
  lemma {:induction false} StuckForever(c: Config, y: Sys, es: seq<Event>)
    requires Stuck(y) && forall i :: 0 <= i < |es| ==> !Resizes(es[i])
    ensures var z := Run(c, y, es); Stuck(z) && z.s.written == y.s.written && z.v.read == y.v.read
    decreases |es|
  {
    if es != [] {
      StuckForever(c, y, es[..|es| - 1]);
      StuckStep(c, Run(c, y, es[..|es| - 1]), es[|es| - 1]);
    }
  }

  /** A write given up before its frame is queued is counted all the same. With a
      window of one byte nothing can ever be sent again. */
  lemma UnqueuedWriteStalls(c: Config) returns (z: Sys)
    requires c.Ok()
    ensures z in Reachable(c) && Quiet(z) && z.s.unqueued == 1 && SendWindow(z.s.w) <= 0
  {
    ReachableIsClosed(c);
    var y := ResizeReaches(c, 1);
    OneByteWindow(y.s.w);
    z := UnqueuedWriteReaches(c, Reachable(c), y);
  }

  lemma UnqueuedWriteReaches(c: Config, all: iset<Sys>, y: Sys) returns (z: Sys)
    requires c.Ok() && Closed(c, all) && y in all && AtRest(y) && Inflight(y.s.w) == 0 && SendWindow(y.s.w) == 1
    ensures z in all && Quiet(z) && z.s.unqueued == 1 && z.s.w == y.s.w.(numWritten := U32(y.s.w.numWritten + 1))
  {
    BatchReaches(c, all, y, 1);
    z := UnqueuedReaches(c, all, y.(s := y.s.(at := Batch(1))));
  }

  lemma OneByteWindow(w: Writer)
    requires w == Writer(U32(0), U32(0), 1)
    ensures Inflight(w) == 0 && SendWindow(w) == 1 && SendWindow(w.(numWritten := U32(w.numWritten + 1))) == 0
  {
  }

  lemma UnqueuedReaches(c: Config, all: iset<Sys>, y: Sys) returns (z: Sys)
    requires c.Ok() && Closed(c, all) && y in all && y.s.at == Batch(1)
    ensures z in all && z == y.(s := y.s.(at := Idle, unqueued := y.s.unqueued + 1, written := y.s.written + 1, w := z.s.w))
    ensures z.s.w == y.s.w.(numWritten := U32(y.s.w.numWritten + 1))
  {
    SenderReaches(c, all, y, SendTimesOut(1));
    var y1 := y.(s := y.s.(at := Framing(1, 1), unqueued := y.s.unqueued + 1));
    SenderReaches(c, all, y1, SendReturns(false));
    z := y1.(s := SenderStep(c, y1.s, SendReturns(false)));
  }

  // ---------------------------------------------------------------------------
  // Writes that overrun the window
  // ---------------------------------------------------------------------------

  /** The writer takes no more than its window exactly when what is left of the write fits
      it, or is no less than it also as an int32 - so always for writes below 2^31 bytes. */
  lemma BatchKeepsToWindow(c: Config, s: Sender, want: nat)
    requires CanSend(c, s, LoadWindow(want)) && Int32(s.w.peerWindow) - s.at.inflight > 0
    ensures var win := Int32(s.w.peerWindow) - s.at.inflight; var at := SenderStep(c, s, LoadWindow(want)).at;
      && at.Batch?
      && (at.left <= win <==> want <= win || Int32(U32(want)) >= win)
      && (want < HALF ==> at.left == if want < win then want else win)
  {
  }

  /** A batch goes out byte by byte, without another look at the window. */
  lemma {:induction false} BytesReach(c: Config, all: iset<Sys>, y: Sys, k: nat) returns (z: Sys)
    requires c.Verified() && Closed(c, all) && y in all && y.s.at.Batch? && k <= y.s.at.left
    ensures z in all && z.s == y.s.(at := if k < y.s.at.left then Batch(y.s.at.left - k) else if k == 0 then y.s.at else Idle,
                                    written := y.s.written + k, w := z.s.w)
    ensures k > 0 ==> z.s.w == y.s.w.(numWritten := U32(y.s.w.numWritten + k))
    ensures k == 0 ==> z.s.w == y.s.w
    decreases k
  {
    z := y;
    if k > 0 {
      z := BytesReach(c, all, y, k - 1);
      SenderReaches(c, all, z, Send(1));
      z := z.(s := SenderStep(c, z.s, Send(1)), wire := z.wire + [1]);
      SenderReaches(c, all, z, SendReturns(true));
      z := z.(s := SenderStep(c, z.s, SendReturns(true)));
      ModAdd(y.s.w.numWritten + (k - 1), 1);
    }
  }

  /** A write of 2^31 bytes counts as negative and goes out as a whole, whatever the window;
      the next look at the counters then takes the peer for one that has consumed too much. */
  lemma HugeWriteOverruns(c: Config) returns (y: Sys, z: Sys)
    requires c.Verified() && c.maxWrite >= HALF
    ensures y in Reachable(c) && y.s.written > y.s.acked + Cap(c)
    ensures z in Reachable(c) && z.s.at.ErrConsumed?
  {
    var all := Reachable(c);
    ReachableIsClosed(c);
    SenderReaches(c, all, Start(), LoadCounters);
    var y1 := Start().(s := Start().s.(at := Loaded(0)));
    SenderReaches(c, all, y1, LoadWindow(HALF));
    assert Int32(U32(HALF)) == -HALF;
    y := BytesReach(c, all, y1.(s := y1.s.(at := Batch(HALF))), HALF);
    assert y.s.w.numWritten == HALF;
    SenderReaches(c, all, y, LoadCounters);
    z := y.(s := SenderStep(c, y.s, LoadCounters));
  }

  /** The bound on unacknowledged bytes and the absence of ErrConsumed, in all runs, hold if
      and only if callers write less than 2^31 bytes at a time. */
  lemma ExactExactlyBelowHalf(c: Config)
    requires c.Verified() && c.maxWrite >= 1
    ensures (forall y :: y in Reachable(c) ==> y.s.written <= y.s.acked + Cap(c)) <==> c.maxWrite < HALF
    ensures (forall y :: y in Reachable(c) ==> !y.s.at.ErrConsumed?) <==> c.maxWrite < HALF
  {
    if c.maxWrite < HALF {
      forall y | y in Reachable(c) ensures !y.s.at.ErrConsumed? && y.s.written <= y.s.acked + Cap(c) {
        var es :| Run(c, Start(), es) == y;
        ModularExactness(c, es);
      }
    } else {
      var y, z := HugeWriteOverruns(c);
    }
  }

  /** An update write that fails is remembered as such, and sends nothing. */
  lemma FailedUpdateSendsNothing(c: Config, y: Sys)
    requires y.v.holder.Some?
    ensures var z := Step(c, y, AtReceiver(SendUpdate(false)));
      z.v.updateFailed && z.v.holder.None? && z.updates == y.updates && z.v.sent == y.v.sent
  {
  }
}
