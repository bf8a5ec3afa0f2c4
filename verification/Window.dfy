/** The version-2 sliding window of a smux stream: a writer that computes its window
    from wrapping 32-bit counters, a reader that reports what it consumed, and a receive
    window that can change in mid-stream. Steps are the code's lock-held sections and
    single atomic accesses; the channel between the two ends keeps frames in order. */
module Window {

  import opened Wrappers
  import opened Numbers

  const MOD := 0x1_0000_0000
  const HALF := 0x8000_0000
  const INITIAL_PEER_WINDOW := 262144
  const UPDATE_DIVISOR := 8

  type u32 = x: int | 0 <= x < MOD

  function U32(x: int): u32 { x % MOD }

  /** The two's complement reading of 32 bits. */
  function Int32(x: u32): int { if x < HALF then x else x - MOD }

  /** int32(uint32(a) - uint32(b)) is the true difference while that fits 31 bits,
      whatever the counters have wrapped to. */
  lemma ModularDifference(a: nat, b: nat)
    requires -HALF <= a - b < HALF
    ensures Int32(U32(U32(a) - U32(b))) == a - b
  {
    ModSub(a, b);
    assert U32(U32(a) - U32(b)) == U32(a - b);
    if a < b {
      assert (a - b) % MOD == a - b + MOD;
    }
  }

  lemma ModSub(a: int, b: int)
    ensures (a % MOD - b % MOD) % MOD == (a - b) % MOD
  {
    var q := (a / MOD) - (b / MOD);
    assert a - b == (a % MOD - b % MOD) + q * MOD;
  }

  lemma ModAdd(a: int, n: int)
    ensures U32(U32(a) + n) == U32(a + n)
  {
    assert a + n == (a % MOD + n) + (a / MOD) * MOD;
  }

  // ---------------------------------------------------------------------------
  // The two ends' fields and the sections that change them
  // ---------------------------------------------------------------------------

  /** rcvWindow 0 stands for the session's MaxStreamBuffer. */
  datatype Reader = Reader(numRead: u32, incr: u32, rcvWindow: u32)

  function ReceiveWindow(r: Reader, maxBuf: u32): u32 {
    if r.rcvWindow != 0 then r.rcvWindow else maxBuf
  }

  /** n bytes have been taken from the buffers: count them, and decide whether an update
      is due. `notify` is the count the update is announced by; 0 announces none. */
  function Consume(r: Reader, n: nat, maxBuf: u32): (res: (Reader, u32))
    ensures res.1 > 0 ==> res.1 == res.0.numRead && res.0.incr == 0
  {
    var numRead, incr := U32(r.numRead + n), U32(r.incr + n);
    if incr >= ReceiveWindow(r, maxBuf) / UPDATE_DIVISOR || numRead == U32(n) then
      (r.(numRead := numRead, incr := 0), numRead)
    else
      (r.(numRead := numRead, incr := incr), 0)
  }

  datatype Writer = Writer(numWritten: u32, peerConsumed: u32, peerWindow: u32)

  function Inflight(w: Writer): int { Int32(U32(w.numWritten - w.peerConsumed)) }

  function SendWindow(w: Writer): int { Int32(w.peerWindow) - Inflight(w) }

  // ---------------------------------------------------------------------------
  // The writing end
  // ---------------------------------------------------------------------------

  /** VerifyConfig: 1 <= MaxStreamBuffer <= 2^31 - 1, 1 <= MaxFrameSize <= 65535; and the
      most bytes a caller passes to one Write, which the code compares with the window as
      an int32. */
  datatype Config = Config(maxBuf: u32, maxFrame: nat, maxWrite: nat) {
    predicate Verified() { 1 <= maxBuf < HALF && 1 <= maxFrame <= 65535 }
    predicate Ok() { Verified() && 1 <= maxWrite < HALF }

    /** The longest frame of a Write. */
    function LongestFrame(): nat { if maxFrame < maxWrite then maxFrame else maxWrite }
  }

  /** Where the one writer is: it loads the counters, then the window, then sends at
      most that many bytes frame by frame; a frame is counted when its write returns. */
  datatype WriterAt =
    | Idle
    | Loaded(inflight: int)
    | Batch(left: nat)
    | Framing(size: nat, left: nat)
    | ErrConsumed

  /** `storing` is a window whose update has stored its first half. `written` and `acked`
      are the true counts behind the 32-bit ones; `unqueued` are the bytes counted as
      written whose frame was never queued. */
  datatype Sender = Sender(
    w: Writer, at: WriterAt, storing: Option<u32>, written: nat, acked: nat, unqueued: nat)

  datatype SenderEvent =
    | LoadCounters
    | LoadWindow(want: nat)   // the caller has `want` bytes left
    | Send(size: nat)         // the frame is queued
    | SendTimesOut(size: nat) // the deadline passes before the frame is queued
    | SendReturns(ok: bool)

  predicate CanSend(c: Config, s: Sender, e: SenderEvent) {
    match e
    case LoadCounters => s.at.Idle?
    case LoadWindow(want) => s.at.Loaded? && 0 < want <= c.maxWrite
    case Send(size) => s.at.Batch? && 1 <= size <= c.maxFrame && size <= s.at.left
    case SendTimesOut(size) => s.at.Batch? && 1 <= size <= c.maxFrame && size <= s.at.left
    case SendReturns(_) => s.at.Framing?
  }

  function SenderStep(c: Config, s: Sender, e: SenderEvent): Sender
    requires CanSend(c, s, e)
  {
    match e
    case LoadCounters => s.(at := if Inflight(s.w) < 0 then ErrConsumed else Loaded(Inflight(s.w)))
    case LoadWindow(want) =>
      var win := Int32(s.w.peerWindow) - s.at.inflight;
      s.(at := if win <= 0 then Idle else if win > Int32(U32(want)) then Batch(want) else Batch(win))
    case Send(size) => s.(at := Framing(size, s.at.left))
    case SendTimesOut(size) => s.(at := Framing(size, s.at.left), unqueued := s.unqueued + size)
    case SendReturns(ok) =>
      s.(w := s.w.(numWritten := U32(s.w.numWritten + s.at.size)), written := s.written + s.at.size,
         at := if ok && s.at.size < s.at.left then Batch(s.at.left - s.at.size) else Idle)
  }

  function Cap(c: Config): nat { if c.maxBuf > INITIAL_PEER_WINDOW then c.maxBuf else INITIAL_PEER_WINDOW }

  /** Bytes queued but not counted yet. */
  function Uncounted(s: Sender): nat { if s.at.Framing? then s.at.size else 0 }

  predicate SenderExact(c: Config, s: Sender) {
    && s.w.numWritten == U32(s.written) && s.w.peerConsumed == U32(s.acked)
    && 1 <= s.w.peerWindow <= Cap(c)
    && (s.storing.Some? ==> 1 <= s.storing.value <= Cap(c))
    && s.acked <= s.written + Uncounted(s)
    && match s.at
      case Idle => s.written - s.acked <= Cap(c)
      case Loaded(i) => s.written - s.acked <= i <= Cap(c)
      case Batch(left) => 0 < left <= c.maxWrite && s.written + left - s.acked <= Cap(c)
      case Framing(size, left) => 0 < size <= left <= c.maxWrite && s.written + left - s.acked <= Cap(c)
      case ErrConsumed => false
  }

  lemma InflightIsTrue(c: Config, s: Sender)
    requires c.Ok() && SenderExact(c, s) && !s.at.Framing?
    ensures Inflight(s.w) == s.written - s.acked
    ensures SendWindow(s.w) == s.w.peerWindow - (s.written - s.acked)
  {
    ModularDifference(s.written, s.acked);
  }

  lemma SenderStepExact(c: Config, s: Sender, e: SenderEvent)
    requires c.Ok() && SenderExact(c, s) && CanSend(c, s, e)
    ensures SenderExact(c, SenderStep(c, s, e))
  {
    match e
    case LoadCounters => InflightIsTrue(c, s);
    case SendReturns(_) => ModAdd(s.written, s.at.size);
    case _ =>
  }

  // ---------------------------------------------------------------------------
  // The reading end
  // ---------------------------------------------------------------------------

  /** `buffered` are the lengths of the unread buffers: one a frame, and what a read has left
      of the first. `owed` threads owe an update, `swapped` are between the swap of the window and the
      reset of incr, and `holder` is the count read by the thread in updLock. `sent` is
      the count last reported, with `lastWindow`; `silent` are bytes an incr reset forgot
      without an update being due. */
  datatype Receiver = Receiver(
    r: Reader, buffered: seq<nat>, owed: nat, swapped: nat, holder: Option<nat>,
    read: nat, sent: nat, silent: nat, lastWindow: Option<u32>, updateFailed: bool)

  datatype ReceiverEvent =
    | Read(n: nat)
    | SwapWindow(to: int)
    | ClearIncr
    | TakeUpdLock
    | SendUpdate(ok: bool)

  function Clamp(n: int, maxBuf: u32): int {
    var lower := if n < maxBuf then n else maxBuf;
    if lower < 1 then 1 else lower
  }

  predicate CanReceive(v: Receiver, e: ReceiverEvent) {
    match e
    case Read(n) => if v.buffered == [] then n == 0 else 1 <= n <= v.buffered[0]
    case SwapWindow(_) => true
    case ClearIncr => v.swapped > 0
    case TakeUpdLock => v.owed > 0 && v.holder.None?
    case SendUpdate(_) => v.holder.Some?
  }

  /** What a read of n bytes, which come from the first buffer, leaves. */
  function Rest(b: seq<nat>, n: nat): seq<nat> {
    if b == [] || n >= b[0] then b[Min(|b|, 1)..] else [b[0] - n] + b[1..]
  }

  lemma RestSum(b: seq<nat>, n: nat)
    requires if b == [] then n == 0 else 1 <= n <= b[0]
    ensures Sum(Rest(b, n)) == Sum(b) - n
  {
    if b != [] && n < b[0] { assert ([b[0] - n] + b[1..])[1..] == b[1..]; }
  }

  /** A read takes bytes from the first buffer only. */
  function ReadStep(c: Config, v: Receiver, n: nat): Receiver
    requires CanReceive(v, Read(n))
  {
    var (r, notify) := Consume(v.r, n, c.maxBuf);
    var due := n > 0 && notify > 0;
    v.(r := r, read := v.read + n, buffered := Rest(v.buffered, n),
       owed := if due then v.owed + 1 else v.owed,
       silent := if due then 0 else if r.incr == 0 then v.silent + U32(v.r.incr + n) else v.silent)
  }

  function ReceiverStep(c: Config, v: Receiver, e: ReceiverEvent): Receiver
    requires CanReceive(v, e)
  {
    match e
    case Read(n) => ReadStep(c, v, n)
    case SwapWindow(n) =>
      if v.r.rcvWindow == Clamp(n, c.maxBuf) then v
      else v.(r := v.r.(rcvWindow := U32(Clamp(n, c.maxBuf))), swapped := v.swapped + 1)
    case ClearIncr => v.(r := v.r.(incr := 0), swapped := v.swapped - 1, owed := v.owed + 1, silent := 0)
    case TakeUpdLock => v.(owed := v.owed - 1, holder := Some(v.read), silent := 0)
    case SendUpdate(ok) =>
      if ok then v.(holder := None, sent := v.holder.value, lastWindow := Some(ReceiveWindow(v.r, c.maxBuf)))
      else v.(holder := None, updateFailed := true)
  }

  predicate ReceiverExact(c: Config, v: Receiver) {
    && v.r.numRead == U32(v.read) && v.r.rcvWindow <= c.maxBuf && v.r.incr < HALF
    && v.sent <= v.read && (v.holder.Some? ==> v.sent <= v.holder.value <= v.read)
  }

  lemma ReceiverStepExact(c: Config, v: Receiver, e: ReceiverEvent)
    requires c.Ok() && ReceiverExact(c, v) && Sum(v.buffered) < HALF && CanReceive(v, e)
    ensures ReceiverExact(c, ReceiverStep(c, v, e))
  {
    if e.Read? { ModAdd(v.read, e.n); }
  }

  // ---------------------------------------------------------------------------
  // Both ends and what is between them
  // ---------------------------------------------------------------------------

  /** An update on the wire; `read` is the true count its 32 bits stand for. */
  datatype Update = Update(consumed: u32, window: u32, read: nat)

  /** `wire` are the lengths of the frames on their way. */
  datatype Sys = Sys(s: Sender, wire: seq<nat>, updates: seq<Update>, v: Receiver)

  datatype Event =
    | AtSender(s: SenderEvent)
    | AtReceiver(v: ReceiverEvent)
    | Deliver         // the next frame
    | DeliverConsumed // the first store of update()
    | DeliverWindow   // the second

  function Start(): Sys {
    Sys(Sender(Writer(0, 0, INITIAL_PEER_WINDOW), Idle, None, 0, 0, 0), [], [],
        Receiver(Reader(0, 0, 0), [], 0, 0, None, 0, 0, 0, None, false))
  }

  predicate Enabled(c: Config, y: Sys, e: Event) {
    match e
    case AtSender(se) => CanSend(c, y.s, se)
    case AtReceiver(re) => CanReceive(y.v, re)
    case Deliver => y.wire != []
    case DeliverConsumed => y.s.storing.None? && y.updates != []
    case DeliverWindow => y.s.storing.Some?
  }

  /** An event that cannot happen in a state leaves it as it is, so every list of
      events is a run. */
  function Step(c: Config, y: Sys, e: Event): Sys {
    if !Enabled(c, y, e) then y else
      match e
      case AtSender(se) => y.(s := SenderStep(c, y.s, se), wire := if se.Send? then y.wire + [se.size] else y.wire)
      case AtReceiver(re) =>
        var v := ReceiverStep(c, y.v, re);
        y.(v := v, updates := if re == SendUpdate(true) then y.updates + [Update(U32(v.sent), v.lastWindow.value, v.sent)] else y.updates)
      case Deliver => y.(wire := y.wire[1..], v := y.v.(buffered := y.v.buffered + [y.wire[0]]))
      case DeliverConsumed =>
        var u := y.updates[0];
        y.(s := y.s.(w := y.s.w.(peerConsumed := u.consumed), acked := u.read, storing := Some(u.window)), updates := y.updates[1..])
      case DeliverWindow => y.(s := y.s.(w := y.s.w.(peerWindow := y.s.storing.value), storing := None))
  }

  function Run(c: Config, y: Sys, es: seq<Event>): Sys
    decreases |es|
  {
    if es == [] then y else Step(c, Run(c, y, es[..|es| - 1]), es[|es| - 1])
  }

  // ---------------------------------------------------------------------------
  // Modular exactness
  // ---------------------------------------------------------------------------

  /** The updates between the last acknowledged count and the last one sent. */
  predicate InFlight(c: Config, us: seq<Update>, acked: nat, sent: nat) {
    && acked <= sent
    && (forall i :: 0 <= i < |us| ==>
        us[i].consumed == U32(us[i].read) && 1 <= us[i].window <= Cap(c) && acked <= us[i].read <= sent)
    && (forall i, j :: 0 <= i < j < |us| ==> us[i].read <= us[j].read)
    && (if us == [] then acked == sent else us[|us| - 1].read == sent)
  }

  /** Every byte counted as written is read, buffered, on the wire or was never queued. */
  predicate Conserved(y: Sys) {
    y.v.read + Sum(y.v.buffered) + Sum(y.wire) + y.s.unqueued == y.s.written + Uncounted(y.s)
  }

  /** Frames are not empty and no longer than a frame can be. */
  predicate Frames(c: Config, ns: seq<nat>) { forall i :: 0 <= i < |ns| ==> 1 <= ns[i] <= c.LongestFrame() }

  predicate Exact(c: Config, y: Sys) {
    && SenderExact(c, y.s) && ReceiverExact(c, y.v) && InFlight(c, y.updates, y.s.acked, y.v.sent) && Conserved(y)
    && Frames(c, y.wire) && Frames(c, y.v.buffered)
  }

  lemma BufferedFits(c: Config, y: Sys)
    requires c.Ok() && Exact(c, y)
    ensures Sum(y.v.buffered) <= Cap(c) < HALF
  {
  }

  lemma SendStepExact(c: Config, y: Sys, e: SenderEvent)
    requires c.Ok() && Exact(c, y) && CanSend(c, y.s, e)
    ensures Exact(c, Step(c, y, AtSender(e)))
  {
    SenderStepExact(c, y.s, e);
    if e.Send? { SumAppend(y.wire, e.size); }
  }

  lemma ReadStepExact(c: Config, y: Sys, n: nat)
    requires c.Ok() && Exact(c, y) && CanReceive(y.v, Read(n))
    ensures Exact(c, Step(c, y, AtReceiver(Read(n))))
  {
    BufferedFits(c, y);
    ReceiverStepExact(c, y.v, Read(n));
    RestSum(y.v.buffered, n);
    RestFrames(c, y.v.buffered, n);
  }

  lemma RestFrames(c: Config, b: seq<nat>, n: nat)
    requires Frames(c, b)
    ensures Frames(c, Rest(b, n))
  {
  }

  lemma ReceiveStepExact(c: Config, y: Sys, e: ReceiverEvent)
    requires c.Ok() && Exact(c, y) && CanReceive(y.v, e) && !e.Read?
    ensures Exact(c, Step(c, y, AtReceiver(e)))
  {
    BufferedFits(c, y);
    ReceiverStepExact(c, y.v, e);
  }

  lemma DeliverExact(c: Config, y: Sys)
    requires c.Ok() && Exact(c, y) && y.wire != []
    ensures Exact(c, Step(c, y, Deliver))
  {
    SumAppend(y.v.buffered, y.wire[0]);
  }

  lemma DeliverConsumedExact(c: Config, y: Sys)
    requires c.Ok() && Exact(c, y) && Enabled(c, y, DeliverConsumed)
    ensures Exact(c, Step(c, y, DeliverConsumed))
  {
    var us := y.updates;
    assert forall i :: 0 <= i < |us[1..]| ==> us[1..][i] == us[i + 1];
    assert InFlight(c, us[1..], us[0].read, y.v.sent);
  }

  lemma StepExact(c: Config, y: Sys, e: Event)
    requires c.Ok() && Exact(c, y)
    ensures Exact(c, Step(c, y, e))
  {
    if Enabled(c, y, e) {
      match e
      case AtSender(se) => SendStepExact(c, y, se);
      case AtReceiver(re) => if re.Read? { ReadStepExact(c, y, re.n); } else { ReceiveStepExact(c, y, re); }
      case Deliver => DeliverExact(c, y);
      case DeliverConsumed => DeliverConsumedExact(c, y);
      case DeliverWindow =>
    }
  }

  lemma {:induction false} RunExact(c: Config, es: seq<Event>)
    requires c.Ok()
    ensures Exact(c, Run(c, Start(), es))
    decreases |es|
  {
    if es != [] {
      RunExact(c, es[..|es| - 1]);
      StepExact(c, Run(c, Start(), es[..|es| - 1]), es[|es| - 1]);
    }
  }

  /** In every run of writes below 2^31 bytes - failed updates, timed-out writes, resized
      windows and any number of wraps included - the unacknowledged bytes stay within max(262144, MaxStreamBuffer),
      the 32-bit difference is the true one, and ErrConsumed is never raised. */
  lemma ModularExactness(c: Config, es: seq<Event>)
    requires c.Ok()
    ensures var s := Run(c, Start(), es).s;
      && !s.at.ErrConsumed?
      && s.written <= s.acked + Cap(c)
      && s.written <= s.acked + (if c.maxBuf > 262144 then c.maxBuf else 262144)
      && (!s.at.Framing? ==> 0 <= Inflight(s.w) == s.written - s.acked)
  {
    RunExact(c, es);
    var s := Run(c, Start(), es).s;
    if !s.at.Framing? { InflightIsTrue(c, s); }
  }

  // ---------------------------------------------------------------------------
  // Whether the window reopens
  // ---------------------------------------------------------------------------

  function Threshold(c: Config, v: Receiver): nat { ReceiveWindow(v.r, c.maxBuf) / UPDATE_DIVISOR }

  /** The most that is read and not reported: less than the threshold, or at least one byte,
      and then the frame that brings the count to a wrap. */
  function Unreported(c: Config, window: nat): nat { c.LongestFrame() + Max(window / UPDATE_DIVISOR, 1) - 1 }

  /** While no update write has failed: once nobody is between changing the window and
      resetting incr, what is unreported is in incr (or was forgotten at a wrap to zero),
      and incr is below the update threshold. */
  predicate Reporting(c: Config, v: Receiver) {
    !v.updateFailed ==>
      && (v.swapped == 0 ==> v.r.incr == 0 || v.r.incr < Threshold(c, v))
      && (v.swapped == 0 && v.silent > 0 ==> v.read > 0 && U32(v.read) == 0)
      && (v.swapped == 0 ==> v.r.incr + v.silent <= Unreported(c, ReceiveWindow(v.r, c.maxBuf)))
      && (v.swapped == 0 && v.owed == 0 ==>
          v.read - (if v.holder.Some? then v.holder.value else v.sent) <= v.r.incr + v.silent)
      && (v.swapped == 0 && v.owed == 0 && v.holder.None? ==>
          v.lastWindow == Some(ReceiveWindow(v.r, c.maxBuf)) || (v.lastWindow.None? && v.r.rcvWindow == 0 && v.read == 0))
      && (v.read == 0 ==> v.r.incr == 0)
  }

  /** The newest window on its way to, or at, the writing end. */
  predicate WindowArrives(y: Sys) {
    var last := if y.updates != [] then y.updates[|y.updates| - 1].window
                else if y.s.storing.Some? then y.s.storing.value else y.s.w.peerWindow;
    last == (if y.v.lastWindow.Some? then y.v.lastWindow.value else INITIAL_PEER_WINDOW)
  }

  lemma SmallMod(x: nat, n: nat)
    requires U32(x) == 0 && n < MOD
    ensures U32(x + n) == n
  {
  }

  /** A read in plain numbers: it counts without an update, or resets incr, and then owes an
      update unless the count is at zero. */
  lemma ReadCounts(c: Config, v: Receiver, n: nat)
    requires ReceiverExact(c, v) && CanReceive(v, Read(n)) && n < HALF
    ensures var z := ReadStep(c, v, n); var count := U32(v.read + n); var incr := v.r.incr + n;
      && z.read == v.read + n && z.r.rcvWindow == v.r.rcvWindow && z.swapped == v.swapped && z.holder == v.holder
      && z.sent == v.sent && z.lastWindow == v.lastWindow && z.updateFailed == v.updateFailed
      && if incr < Threshold(c, v) && count != n then z.r.incr == incr && z.owed == v.owed && z.silent == (if incr == 0 then v.silent + incr else v.silent)
         else if n > 0 && count > 0 then z.r.incr == 0 && z.owed == v.owed + 1 && z.silent == 0
         else z.r.incr == 0 && z.owed == v.owed && z.silent == v.silent + incr
  {
    ModAdd(v.read, n);
    assert U32(v.r.incr + n) == v.r.incr + n && U32(n) == n;
  }

  lemma ReadReports(c: Config, v: Receiver, n: nat)
    requires c.Ok() && ReceiverExact(c, v) && Reporting(c, v) && CanReceive(v, Read(n)) && n <= c.LongestFrame()
    ensures Reporting(c, ReadStep(c, v, n))
  {
    ReadCounts(c, v, n);
    if U32(v.read) == 0 { SmallMod(v.read, n); }
  }

  lemma ReceiverStepReports(c: Config, v: Receiver, e: ReceiverEvent)
    requires c.Ok() && ReceiverExact(c, v) && Reporting(c, v) && Frames(c, v.buffered) && CanReceive(v, e)
    ensures Reporting(c, ReceiverStep(c, v, e))
  {
    if e.Read? { ReadReports(c, v, e.n); }
  }

  lemma StepReports(c: Config, y: Sys, e: Event)
    requires c.Ok() && Exact(c, y) && Reporting(c, y.v)
    ensures Reporting(c, Step(c, y, e).v)
  {
    if e.AtReceiver? && CanReceive(y.v, e.v) { ReceiverStepReports(c, y.v, e.v); }
  }

  lemma StepArrives(c: Config, y: Sys, e: Event)
    requires WindowArrives(y)
    ensures WindowArrives(Step(c, y, e))
  {
  }

  lemma {:induction false} RunReports(c: Config, es: seq<Event>)
    requires c.Ok()
    ensures var y := Run(c, Start(), es); Reporting(c, y.v) && WindowArrives(y)
    decreases |es|
  {
    if es != [] {
      RunReports(c, es[..|es| - 1]);
      RunExact(c, es[..|es| - 1]);
      StepReports(c, Run(c, Start(), es[..|es| - 1]), es[|es| - 1]);
      StepArrives(c, Run(c, Start(), es[..|es| - 1]), es[|es| - 1]);
    }
  }

  /** The reader has drained everything, every update has been delivered, nobody is
      about to send one, and the writer is between writes. */
  predicate Quiet(y: Sys) {
    && y.s.at.Idle? && y.s.storing.None? && y.wire == [] && y.updates == []
    && y.v.buffered == [] && y.v.owed == 0 && y.v.swapped == 0 && y.v.holder.None? && !y.v.updateFailed
  }

  /** At rest, and every byte counted as written was queued. */
  predicate AtRest(y: Sys) { Quiet(y) && y.s.unqueued == 0 }

  /** The window at rest, exactly: the receive window - or, as long as no update was sent,
      the initial one - less the bytes counted but never queued, less what was read and not
      reported. */
  lemma WindowAtRest(c: Config, es: seq<Event>)
    requires c.Ok()
    ensures var y := Run(c, Start(), es);
      Quiet(y) ==>
        var window := if y.v.lastWindow.Some? then ReceiveWindow(y.v.r, c.maxBuf) else 262144;
        SendWindow(y.s.w) == window - y.s.unqueued - (y.v.read - y.v.sent)
  {
    RunExact(c, es);
    RunReports(c, es);
    var y := Run(c, Start(), es);
    if Quiet(y) { InflightIsTrue(c, y.s); }
  }

  /** A window that what may be left unreported at a wrap does not fill. */
  predicate Roomy(c: Config, window: nat) { Unreported(c, window) < window }

  /** No window deadlock, for any interleaving of reads and resizes: at rest the writer has
      room whenever the window in force is roomy, and whatever it is unless the count of
      bytes read stands at a multiple of 2^32. */
  lemma WindowReopens(c: Config, es: seq<Event>)
    requires c.Ok()
    ensures var y := Run(c, Start(), es);
      AtRest(y) && (Roomy(c, ReceiveWindow(y.v.r, c.maxBuf)) || y.v.read == 0 || y.v.r.numRead != 0) ==> SendWindow(y.s.w) > 0
  {
    RunExact(c, es);
    RunReports(c, es);
    WindowAtRest(c, es);
  }

  /** What is on its way can always be delivered, in order and whole: n deliveries move the
      first n frames into the reader's buffer and do nothing else. */
  lemma {:induction false} FramesArrive(c: Config, y: Sys, n: nat)
    requires n <= |y.wire|
    ensures Run(c, y, seq(n, _ => Deliver)) == y.(wire := y.wire[n..], v := y.v.(buffered := y.v.buffered + y.wire[..n]))
  {
    if n == 0 {
      assert y.wire[n..] == y.wire && y.v.buffered + y.wire[..n] == y.v.buffered;
    } else {
      FramesArrive(c, y, n - 1);
      assert seq(n, _ => Deliver)[..n - 1] == seq(n - 1, _ => Deliver);
      assert y.wire[n - 1..][1..] == y.wire[n..];
      assert y.v.buffered + y.wire[..n - 1] + [y.wire[n - 1]] == y.v.buffered + y.wire[..n];
    }
  }
}
