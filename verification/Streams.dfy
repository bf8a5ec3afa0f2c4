/** The sequential algorithms of one smux stream: the buffers a reader takes from, the
    counters behind its window updates, and the splitting of a write into frames. */
module Streams {
  import opened Numbers
  import opened Window
  import opened Bytes

  function Flatten(bs: seq<seq<Byte>>): seq<Byte> {
    if bs == [] then [] else bs[0] + Flatten(bs[1..])
  }

  lemma FlattenAppend(bs: seq<seq<Byte>>, b: seq<Byte>)
    ensures Flatten(bs + [b]) == Flatten(bs) + b
  {
    if bs == [] {
      assert [b][1..] == [];
      assert Flatten([b]) == b;
    } else {
      assert (bs + [b])[1..] == bs[1..] + [b];
      FlattenAppend(bs[1..], b);
    }
  }

  /** Taking n bytes off the first buffer takes them off the whole. */
  lemma FlattenFront(bs: seq<seq<Byte>>, n: nat)
    requires bs != [] && n <= |bs[0]|
    ensures var rest := bs[0][n..];
      bs[0][..n] + Flatten((if rest == [] then [] else [rest]) + bs[1..]) == Flatten(bs)
  {
    var taken, rest, more := bs[0][..n], bs[0][n..], bs[1..];
    assert bs[0] == taken + rest;
    assert bs == [taken + rest] + more;
    FlattenCons(taken + rest, more);
    FlattenCons(rest, more);
    assert taken + rest + Flatten(more) == taken + (rest + Flatten(more));
    assert [] + more == more;
  }

  lemma FlattenCons(b: seq<Byte>, bs: seq<seq<Byte>>)
    ensures Flatten([b] + bs) == b + Flatten(bs)
  {
    assert ([b] + bs)[1..] == bs;
  }

  class Stream {
    const maxBuf: u32
    const frameSize: nat
    var buffers: seq<seq<Byte>>
    var numRead: u32
    var incr: u32
    var rcvWindow: u32
    var numWritten: u32
    var peerConsumed: u32
    var peerWindow: u32

    constructor (maxBuf: u32, frameSize: nat)
      requires frameSize > 0
      ensures Valid() && Content() == [] && this.maxBuf == maxBuf && this.frameSize == frameSize
      ensures ReaderState() == Start().v.r && WriterState() == Start().s.w
    {
      this.maxBuf, this.frameSize, buffers := maxBuf, frameSize, [];
      numRead, incr, rcvWindow := 0, 0, 0;
      numWritten, peerConsumed, peerWindow := 0, 0, INITIAL_PEER_WINDOW;
    }

    /** A pushed buffer is never empty, and a buffer read empty is removed at once. */
    ghost predicate Valid()
      reads this
    {
      frameSize > 0 && forall i :: 0 <= i < |buffers| ==> buffers[i] != []
    }

    ghost function Content(): seq<Byte>
      reads this
    {
      Flatten(buffers)
    }

    function ReaderState(): Reader
      reads this
    {
      Reader(numRead, incr, rcvWindow)
    }

    function WriterState(): Writer
      reads this
    {
      Writer(numWritten, peerConsumed, peerWindow)
    }

    method PushBytes(buf: seq<Byte>)
      requires Valid() && buf != []
      modifies this`buffers
      ensures Valid() && Content() == old(Content()) + buf
    {
      FlattenAppend(buffers, buf);
      buffers := buffers + [buf];
    }

    /** The lock-held part of a version-2 read: bytes come out in order from the front,
        none is lost or repeated, and the counters move as Consume says. Nothing is
        taken only when there is nothing to take. */
    method TryRead(b: array<Byte>) returns (n: nat, notify: u32)
      requires Valid()
      modifies this`buffers, this`numRead, this`incr, b
      ensures Valid() && n <= b.Length && b[..n] + Content() == old(Content()) && b[n..] == old(b[n..])
      ensures n == 0 <==> b.Length == 0 || old(Content()) == []
      ensures b.Length == 0 ==> unchanged(this) && notify == 0
      ensures b.Length > 0 ==> (ReaderState(), notify) == Consume(old(ReaderState()), n, maxBuf)
    {
      n, notify := 0, 0;
      if b.Length == 0 { return; }
      if |buffers| > 0 {
        var head := buffers[0];
        n := if b.Length < |head| then b.Length else |head|;
        CopyInto(head[..n], b);
        var rest := head[n..];
        FlattenFront(buffers, n);
        buffers := (if rest == [] then [] else [rest]) + buffers[1..];
      }
      numRead, incr := U32(numRead + n), U32(incr + n);
      var window := if rcvWindow != 0 then rcvWindow else maxBuf;
      if incr >= window / UPDATE_DIVISOR || numRead == U32(n) {
        notify := numRead;
        incr := 0;
      }
    }

    static method CopyInto(src: seq<Byte>, b: array<Byte>)
      requires |src| <= b.Length
      modifies b
      ensures b[..|src|] == src && b[|src|..] == old(b[|src|..])
    {
      var i := 0;
      while i < |src|
        invariant 0 <= i <= |src|
        invariant b[..i] == src[..i] && b[|src|..] == old(b[|src|..])
      {
        b[i] := src[i];
        assert b[..i + 1] == b[..i] + [src[i]];
        i := i + 1;
      }
    }

    /** What is still buffered when the stream closes goes back as that many tokens. */
    method RecycleTokens() returns (n: nat)
      requires Valid()
      modifies this`buffers
      ensures Valid() && n == |old(Content())| && Content() == []
    {
      n := 0;
      var k := 0;
      while k < |buffers|
        invariant 0 <= k <= |buffers| && buffers == old(buffers)
        invariant n + |Flatten(buffers[k..])| == |Flatten(buffers)|
      {
        assert buffers[k..][1..] == buffers[k + 1..];
        n := n + |buffers[k]|;
        k := k + 1;
      }
      buffers := [];
    }

    /** The swap of a new receive window; false when it is the window already. */
    method SwapReceiveWindow(n: int) returns (changed: bool)
      requires 1 <= maxBuf
      modifies this`rcvWindow
      ensures rcvWindow == Clamp(n, maxBuf) && changed == (old(rcvWindow) != rcvWindow)
      ensures rcvWindow == if n < 1 then 1 else if n > maxBuf then maxBuf else n
    {
      var w: u32 := Clamp(n, maxBuf);
      changed := rcvWindow != w;
      rcvWindow := w;
    }

    method UpdateFromPeer(consumed: u32, window: u32)
      modifies this`peerConsumed, this`peerWindow
      ensures WriterState() == old(WriterState()).(peerConsumed := consumed, peerWindow := window)
    {
      peerConsumed := consumed;
      peerWindow := window;
    }

    /** Frames of the full size, the last shorter at most once there is no more. */
    ghost predicate Cut(frames: seq<seq<Byte>>, more: bool) reads this {
      && (forall i :: 0 <= i < |frames| ==> 1 <= |frames[i]| <= frameSize)
      && (forall i :: 0 <= i < |frames| && (more || i < |frames| - 1) ==> |frames[i]| == frameSize)
    }

    lemma CutAppend(frames: seq<seq<Byte>>, frame: seq<Byte>, more: bool)
      requires Cut(frames, true) && 1 <= |frame| <= frameSize && (more ==> |frame| == frameSize)
      ensures Cut(frames + [frame], more)
    {
    }

    /** Cuts bts into frames and hands them out one by one until a write fails: that of the
        frame numbered failAt, of which `part` bytes then count as sent. Every frame handed
        out is counted in numWritten, the failed one with the others. */
    method SendFrames(bts: seq<Byte>, failAt: nat, part: nat) returns (frames: seq<seq<Byte>>, sent: nat, failed: bool)
      requires Valid()
      modifies this`numWritten
      ensures Flatten(frames) <= bts
      ensures forall i :: 0 <= i < |frames| ==> 1 <= |frames[i]| <= frameSize
      ensures forall i :: 0 <= i < |frames| - 1 ==> |frames[i]| == frameSize
      ensures numWritten == U32(old(numWritten) + |Flatten(frames)|)
      ensures failed <==> |frames| == failAt + 1
      ensures !failed ==> Flatten(frames) == bts && |frames| <= failAt && sent == |bts|
      ensures failed ==> sent == |Flatten(frames[..failAt])| + part
    {
      frames, sent, failed := [], 0, false;
      var done := 0;
      while done < |bts| && !failed
        invariant 0 <= done <= |bts|
        invariant Flatten(frames) == bts[..done]
        invariant Cut(frames, done < |bts|)
        invariant numWritten == U32(old(numWritten) + done)
        invariant if failed then |frames| == failAt + 1 else |frames| <= failAt
        invariant sent == if failed then |Flatten(frames[..failAt])| + part else done
        decreases |bts| - done
      {
        var size := if |bts| - done > frameSize then frameSize else |bts| - done;
        var frame := bts[done..done + size];
        FlattenAppend(frames, frame);
        CutAppend(frames, frame, done + size < |bts|);
        ModAdd(old(numWritten) + done, size);
        assert bts[..done + size] == bts[..done] + frame;
        failed := |frames| == failAt;
        assert failed ==> (frames + [frame])[..failAt] == frames;
        frames := frames + [frame];
        numWritten := U32(numWritten + size);
        sent := sent + if failed then part else size;
        done := done + size;
      }
      assert bts[..done] == bts || failed;
    }

    /** One round of a write: as much of b as the window allows, cut into frames. The
        frames are, in order, exactly the bytes taken from b; none is empty or longer
        than the frame size; together with what is in flight they fit the window, and
        unless a write fails nothing that fits is held back - if b has less than 2^31
        bytes: its length is compared as an int32. */
    method WriteRound(b: seq<Byte>, failAt: nat, part: nat)
      returns (frames: seq<seq<Byte>>, rest: seq<Byte>, consumedTooMuch: bool, failed: bool)
      requires Valid()
      modifies this`numWritten
      ensures consumedTooMuch <==> Inflight(old(WriterState())) < 0
      ensures Flatten(frames) <= b && (!failed ==> Flatten(frames) + rest == b && |frames| <= failAt)
      ensures failed <==> |frames| == failAt + 1
      ensures forall i :: 0 <= i < |frames| ==> 1 <= |frames[i]| <= frameSize
      ensures forall i :: 0 <= i < |frames| - 1 ==> |frames[i]| == frameSize
      ensures consumedTooMuch || SendWindow(old(WriterState())) <= 0 ==> frames == [] && rest == b
      ensures !consumedTooMuch && SendWindow(old(WriterState())) > 0 && |b| < HALF ==>
        |Flatten(frames)| <= SendWindow(old(WriterState()))
      ensures !failed && !consumedTooMuch && SendWindow(old(WriterState())) > 0 && |b| < HALF ==>
        |Flatten(frames)| == Min(|b|, SendWindow(old(WriterState())))
      ensures !failed && !consumedTooMuch && SendWindow(old(WriterState())) > 0 ==>
        |Flatten(frames)| == if SendWindow(old(WriterState())) > Int32(U32(|b|)) then |b| else SendWindow(old(WriterState()))
      ensures numWritten == U32(old(numWritten) + |Flatten(frames)|)
    {
      frames, rest, consumedTooMuch, failed := [], b, false, false;
      var inflight := Int32(U32(numWritten - peerConsumed));
      if inflight < 0 { consumedTooMuch := true; return; }
      var win := Int32(peerWindow) - inflight;
      if win > 0 {
        var all := win > Int32(U32(|b|));
        var bts := if all then b else b[..win];
        rest := if all then [] else b[win..];
        assert bts + rest == b;
        var sent;
        frames, sent, failed := SendFrames(bts, failAt, part);
      }
    }
  }
}
