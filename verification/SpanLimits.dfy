/** How long a request may wait in the shaper before the order of a stream's bytes is lost. */
module SpanLimits {

  import opened Wrappers
  import opened Numbers
  import opened Shaper
  import opened Integrity
  import W = Window

  /** Every request written was the least by the code's own comparison. */
  predicate Compared(es: seq<Event>) { forall i :: 0 <= i < |es| && es[i].Write? ==> es[i].least }

  ghost predicate ReadsPrefixes(y: Session) {
    forall x :: x in y.streams ==> y.streams[x].read <= y.streams[x].accepted
  }

  /** In all runs in which no request waits while d others are drawn, reads are prefixes of
      what was written, on every stream. */
  ghost predicate PrefixesWithin(d: nat) {
    forall sids, es :: Compared(es) && Run(Start(sids), es).q.longest < d ==> ReadsPrefixes(Run(Start(sids), es))
  }

  // ---------------------------------------------------------------------------
  // The run that goes past the span
  // ---------------------------------------------------------------------------

  /** A state of a run of one stream, numbered 1. */
  ghost predicate Reached(y: Session) { exists es :: Compared(es) && y == Run(Start({1}), es) }

  lemma StepReached(y: Session, e: Event)
    requires Reached(y) && (e.Write? ==> e.least)
    ensures Reached(Step(y, e))
  {
    var es :| Compared(es) && y == Run(Start({1}), es);
    assert (es + [e])[..|es|] == es && Compared(es + [e]);
  }

  function Old(): Request { Request(CLSDATA, 1, 1, 1, Data(1, [1])) }

  function New(): Request {
    Request(CLSDATA, W.U32(W.HALF + 1), W.HALF + 1, W.HALF + 1, Data(1, [2]))
  }

  /** The first frame is in the shaper, its write given up, and n requests are drawn in all;
      none of the others was taken. */
  predicate GivenUp(y: Session, n: nat) {
    && y.q == Queue(n, {}, [Old()], [], y.q.longest) && n >= 1 && y.q.longest == n - 1 && y.got == 0
    && 1 in y.streams && y.streams[1] == Stream(Idle, [], [1], false, [1], 0, None, [], [])
  }

  lemma StartShape()
    ensures Reached(Start({1})) && 1 in Start({1}).streams
    ensures Start({1}).q == Queue(0, {}, [], [], 0) && Start({1}).got == 0
    ensures Start({1}).streams[1] == Stream(Idle, [], [], true, [], 0, None, [], [])
  {
    assert Compared([]) && Run(Start({1}), []) == Start({1});
  }

  /** A write of one byte b has its frame drawn. */
  lemma DrawByte(y: Session, b: nat) returns (z: Session)
    requires Reached(y) && 1 in y.streams && y.streams[1].at.Idle? && y.streams[1].rest == [] && y.streams[1].closed.None?
    requires b < 256
    ensures Reached(z) && 1 in z.streams && z.got == y.got && z.q == Draw(y.q)
    ensures z.streams[1] == y.streams[1].(at := Drawn(y.q.drawn + 1, [b]), offered := y.streams[1].offered + [b])
  {
    StepShape(y, StartWrite(1, [b]));
    StepReached(y, StartWrite(1, [b]));
    var m := Step(y, StartWrite(1, [b]));
    assert [b][..1] == [b] && [b][1..] == [];
    StepShape(m, DrawData(1, 1));
    StepReached(m, DrawData(1, 1));
    z := Step(m, DrawData(1, 1));
  }

  /** And the shaper takes it. */
  lemma WriteByte(y: Session, b: nat) returns (z: Session)
    requires Reached(y) && 1 in y.streams && y.streams[1].at.Idle? && y.streams[1].rest == [] && y.streams[1].closed.None?
    requires b < 256
    ensures Reached(z) && 1 in z.streams && z.got == y.got && z.q == Take(Draw(y.q), Frame1(y.q, b))
    ensures z.streams[1] == y.streams[1].(at := Waiting(y.q.drawn + 1), offered := y.streams[1].offered + [b], accepted := y.streams[1].accepted + [b])
  {
    var m := DrawByte(y, b);
    StepShape(m, TakeData(1));
    StepReached(m, TakeData(1));
    z := Step(m, TakeData(1));
  }

  function Frame1(q: Queue, b: nat): Request
    requires b < 256
  {
    Request(CLSDATA, W.U32(q.drawn + 1), q.drawn + 1, 0, Data(1, [b]))
  }

  lemma FirstGivenUp() returns (z: Session)
    ensures Reached(z) && GivenUp(z, 1)
  {
    StartShape();
    var y := WriteByte(Start({1}), 1);
    assert y.q == Queue(1, {}, [Old()], [], 0);
    StepShape(y, GiveUp(1));
    StepReached(y, GiveUp(1));
    z := Step(y, GiveUp(1));
    assert [] + [1] == [1];
  }

  lemma OldestOne(n: nat)
    requires n >= 1
    ensures Oldest([Old()], n) == n - 1
  {
    assert [Old()][1..] == [];
  }

  /** Another request is drawn, and given up before the shaper takes it. */
  lemma OneMoreDrawn(y: Session, n: nat) returns (z: Session)
    requires Reached(y) && GivenUp(y, n)
    ensures Reached(z) && GivenUp(z, n + 1)
  {
    var nop := Request(CLSCTRL, W.U32(n + 1), n + 1, 0, Other);
    OldestOne(n + 1);
    StepShape(y, DrawOther(Other));
    StepReached(y, DrawOther(Other));
    var m := Step(y, DrawOther(Other));
    assert m.q == Queue(n + 1, {nop}, [Old()], [], n);
    StepShape(m, DropControl(nop));
    StepReached(m, DropControl(nop));
    z := Step(m, DropControl(nop));
  }

  lemma {:induction false} ManyDrawn(n: nat) returns (z: Session)
    requires n >= 1
    ensures Reached(z) && GivenUp(z, n)
    decreases n
  {
    if n == 1 {
      z := FirstGivenUp();
    } else {
      z := ManyDrawn(n - 1);
      z := OneMoreDrawn(z, n - 1);
    }
  }

  /** 2^31 apart, neither number is before the other. */
  lemma HalfApart()
    ensures Least([Old(), New()], 1)
  {
    assert W.U32(New().number - Old().number) == W.HALF && W.U32(New().number - New().number) == 0;
  }

  /** The second frame is taken 2^31 requests after the first, and may be written first. */
  lemma SecondIsTaken() returns (z: Session)
    ensures Reached(z) && z.q == Queue(W.HALF + 1, {}, [Old(), New()], [], W.HALF) && z.got == 0
    ensures 1 in z.streams && z.streams[1] == Stream(Waiting(W.HALF + 1), [], [1, 2], false, [1, 2], 0, None, [], [])
  {
    var y := ManyDrawn(W.HALF);
    z := WriteByte(y, 2);
    OldestOne(W.HALF + 1);
    assert [1] + [2] == [1, 2] && [Old()] + [New()] == [Old(), New()];
  }

  lemma SecondIsWritten(y: Session) returns (z: Session)
    requires Reached(y) && y.q == Queue(W.HALF + 1, {}, [Old(), New()], [], W.HALF) && y.got == 0 && 1 in y.streams
    ensures Reached(z) && z.q.log == [New()] && z.q.longest == W.HALF && z.got == 0
    ensures 1 in z.streams && z.streams[1] == y.streams[1].(at := z.streams[1].at)
  {
    HalfApart();
    StepShape(y, Write(1, true));
    StepReached(y, Write(1, true));
    z := Step(y, Write(1, true));
  }

  /** The one frame written is received and read. */
  lemma SecondIsRead(y: Session) returns (z: Session)
    requires Reached(y) && y.q.log == [New()] && y.got == 0
    requires 1 in y.streams && y.streams[1].read == [] && y.streams[1].buffered == []
    ensures Reached(z) && z.q == y.q && 1 in z.streams
    ensures z.streams[1].read == [2] && z.streams[1].accepted == y.streams[1].accepted
  {
    StepShape(y, Receive);
    StepReached(y, Receive);
    var m := Step(y, Receive);
    assert BytesFor(New(), 1) == [2] && m.streams[1].buffered == [2];
    assert [2][..1] == [2];
    StepShape(m, Read(1, 1));
    StepReached(m, Read(1, 1));
    z := Step(m, Read(1, 1));
  }

  /** A frame given up in the shaper, 2^31 requests drawn, and the next frame of its stream
      is read without it. */
  lemma LateFrameIsOvertaken() returns (z: Session)
    ensures Reached(z) && z.q.longest == W.HALF && 1 in z.streams
    ensures z.streams[1].read == [2] && z.streams[1].accepted == [1, 2]
  {
    z := SecondIsTaken();
    z := SecondIsWritten(z);
    z := SecondIsRead(z);
  }

  /** Reads are prefixes in all runs in which no request waits while d others are drawn, if
      and only if d is at most 2^31. */
  lemma PrefixesExactlyWithinSpan(d: nat)
    ensures PrefixesWithin(d) <==> d <= W.HALF
  {
    if d <= W.HALF {
      forall sids, es | Compared(es) && Run(Start(sids), es).q.longest < d ensures ReadsPrefixes(Run(Start(sids), es)) {
        forall x | x in Run(Start(sids), es).streams
          ensures Run(Start(sids), es).streams[x].read <= Run(Start(sids), es).streams[x].accepted
        {
          ReadIsPrefixOfWritten(sids, es, x);
        }
      }
    } else {
      var z := LateFrameIsOvertaken();
      var es :| Compared(es) && z == Run(Start({1}), es);
      assert !ReadsPrefixes(Run(Start({1}), es)) by { assert z.streams[1].read[0] != z.streams[1].accepted[0]; }
    }
  }
}
