/** The highest rate of the recent past, kept in two numbers: the maximum of the current
    bucket of time and that of the one before it. */
module PeakRate {

  import opened Wrappers

  /** Five minutes, in nanoseconds. */
  const BUCKET := 300_000_000_000

  datatype Peak = Peak(cur: real, prev: real, start: Option<nat>)

  function RollSpec(p: Peak, now: nat): Peak {
    match p.start
    case None => p.(start := Some(now))
    case Some(s) =>
      if now - s >= 2 * BUCKET then Peak(0.0, 0.0, Some(now))
      else if now - s >= BUCKET then Peak(0.0, p.cur, Some(s + BUCKET))
      else p
  }

  function AddSpec(p: Peak, now: nat, v: real): Peak {
    var q := RollSpec(p, now);
    if v > q.cur then q.(cur := v) else q
  }

  function Higher(a: real, b: real): real { if a < b then b else a }

  function GetSpec(p: Peak, now: nat): (Peak, real) {
    var q := RollSpec(p, now);
    (q, Higher(q.cur, q.prev))
  }

  class Rate {
    var cur: real
    var prev: real
    var start: Option<nat>

    ghost function Model(): Peak
      reads this
    {
      Peak(cur, prev, start)
    }

    constructor ()
      ensures Model() == Fresh()
    {
      cur, prev, start := 0.0, 0.0, None;
    }

    method Roll(now: nat)
      modifies this
      ensures Model() == RollSpec(old(Model()), now)
    {
      match start {
        case None => start := Some(now);
        case Some(s) =>
          var age := now - s;
          if age >= 2 * BUCKET {
            cur, prev, start := 0.0, 0.0, Some(now);
          } else if age >= BUCKET {
            prev, cur, start := cur, 0.0, Some(s + BUCKET);
          }
      }
    }

    method Add(now: nat, v: real)
      modifies this
      ensures Model() == AddSpec(old(Model()), now, v)
    {
      Roll(now);
      if v > cur { cur := v; }
    }

    method Get(now: nat) returns (r: real)
      modifies this
      ensures (Model(), r) == GetSpec(old(Model()), now)
    {
      Roll(now);
      r := Higher(cur, prev);
    }
  }

  // ---------------------------------------------------------------------------
  // Runs
  // ---------------------------------------------------------------------------

  function Fresh(): Peak { Peak(0.0, 0.0, None) }

  datatype Sample = Sample(at: nat, rate: real)

  datatype Event = Add(at: nat, rate: real) | Get(at: nat)

  /** `log` is every sample ever added, `now` the time of the last call. */
  datatype Sys = Sys(peak: Peak, log: seq<Sample>, now: nat)

  /** Time does not go back. */
  function Step(y: Sys, e: Event): Sys {
    if e.at < y.now then y
    else
      match e
      case Add(t, v) => Sys(AddSpec(y.peak, t, v), y.log + [Sample(t, v)], t)
      case Get(t) => Sys(GetSpec(y.peak, t).0, y.log, t)
  }

  function Run(es: seq<Event>): Sys
    decreases |es|
  {
    if es == [] then Sys(Fresh(), [], 0) else Step(Run(es[..|es| - 1]), es[|es| - 1])
  }

  /** The highest of the samples taken from a until before b, or 0 without any. */
  function Highest(log: seq<Sample>, a: int, b: int): real
    decreases |log|
  {
    if log == [] then 0.0
    else
      var s := log[|log| - 1];
      var rest := Highest(log[..|log| - 1], a, b);
      if a <= s.at < b then Higher(rest, s.rate) else rest
  }

  lemma {:induction false} HighestNone(log: seq<Sample>, a: int, b: int)
    requires forall i :: 0 <= i < |log| ==> !(a <= log[i].at < b)
    ensures Highest(log, a, b) == 0.0
    decreases |log|
  {
    if log != [] { HighestNone(log[..|log| - 1], a, b); }
  }

  /** A wider window has no lower peak; windows without samples between them have the same. */
  lemma {:induction false} HighestWider(log: seq<Sample>, a: int, b: int, c: int, d: int)
    requires a <= b && c <= d
    ensures Highest(log, b, c) <= Highest(log, a, d)
    ensures (forall i :: 0 <= i < |log| ==> log[i].at < c) ==> Highest(log, b, c) == Highest(log, b, d)
    decreases |log|
  {
    if log != [] { HighestWider(log[..|log| - 1], a, b, c, d); }
  }

  lemma {:induction false} HighestSplit(log: seq<Sample>, a: int, b: int, c: int)
    requires a <= b <= c
    ensures Highest(log, a, c) == Higher(Highest(log, a, b), Highest(log, b, c))
    decreases |log|
  {
    if log != [] { HighestSplit(log[..|log| - 1], a, b, c); }
  }

  lemma HighestAdd(log: seq<Sample>, s: Sample, a: int, b: int)
    ensures Highest(log + [s], a, b) ==
            if a <= s.at < b then Higher(Highest(log, a, b), s.rate) else Highest(log, a, b)
  {
    assert (log + [s])[..|log|] == log;
  }

  /** No sample is later than now. */
  predicate Past(log: seq<Sample>, now: int) { forall i :: 0 <= i < |log| ==> log[i].at <= now }

  /** The two numbers are the peaks of the two buckets, and the current one is not over. */
  predicate Tracks(p: Peak, log: seq<Sample>, now: nat) {
    match p.start
    case None => p == Fresh() && log == []
    case Some(s) =>
      && s <= now < s + BUCKET
      && p.cur == Highest(log, s, now + 1)
      && p.prev == Highest(log, s - BUCKET, s)
  }

  predicate Inv(y: Sys) { Past(y.log, y.now) && Tracks(y.peak, y.log, y.now) }

  lemma RollTracks(p: Peak, log: seq<Sample>, now: nat, t: nat)
    requires Past(log, now) && Tracks(p, log, now) && now <= t
    ensures Tracks(RollSpec(p, t), log, t) && RollSpec(p, t).start.Some?
  {
    if p.start.Some? {
      var s := p.start.value;
      if t - s >= 2 * BUCKET {
        HighestNone(log, t, t + 1);
        HighestNone(log, t - BUCKET, t);
      } else if t - s >= BUCKET {
        HighestWider(log, s, s, now + 1, s + BUCKET);
        HighestNone(log, s + BUCKET, t + 1);
      } else {
        HighestWider(log, s, s, now + 1, t + 1);
      }
    }
  }

  lemma StepKeepsInv(y: Sys, e: Event)
    requires Inv(y)
    ensures Inv(Step(y, e))
  {
    if e.at >= y.now {
      RollTracks(y.peak, y.log, y.now, e.at);
      if e.Add? { AddTracks(RollSpec(y.peak, e.at), y.log, e.at, e.rate); }
    }
  }

  /** A sample taken now belongs to the current bucket. */
  lemma AddTracks(p: Peak, log: seq<Sample>, t: nat, v: real)
    requires Tracks(p, log, t) && p.start.Some?
    ensures Tracks(if v > p.cur then p.(cur := v) else p, log + [Sample(t, v)], t)
  {
    var s := p.start.value;
    HighestAdd(log, Sample(t, v), s, t + 1);
    HighestAdd(log, Sample(t, v), s - BUCKET, s);
  }

  lemma {:induction false} RunKeepsInv(es: seq<Event>)
    ensures Inv(Run(es))
    decreases |es|
  {
    if es != [] {
      RunKeepsInv(es[..|es| - 1]);
      StepKeepsInv(Run(es[..|es| - 1]), es[|es| - 1]);
    }
  }

  /** What is reported is the peak of one window, from a on. */
  lemma PeakIsOfAWindow(y: Sys, now: nat) returns (a: int)
    requires Inv(y) && y.now <= now
    ensures now - 2 * BUCKET < a <= now - BUCKET
    ensures GetSpec(y.peak, now).1 == Highest(y.log, a, now + 1)
  {
    RollTracks(y.peak, y.log, y.now, now);
    var s := RollSpec(y.peak, now).start.value;
    HighestSplit(y.log, s - BUCKET, s, now + 1);
    a := s - BUCKET;
  }

  /** For any calls at times that do not go back, asking at a time gives at least the
      highest sample of the last bucket, and at most the highest of the last two. */
  lemma PeakOfLastBuckets(es: seq<Event>, now: nat)
    requires Run(es).now <= now
    ensures var r := GetSpec(Run(es).peak, now).1;
      && Highest(Run(es).log, now - BUCKET, now + 1) <= r
      && r <= Highest(Run(es).log, now - 2 * BUCKET + 1, now + 1)
  {
    RunKeepsInv(es);
    var log := Run(es).log;
    var a := PeakIsOfAWindow(Run(es), now);
    HighestWider(log, a, now - BUCKET, now + 1, now + 1);
    HighestWider(log, now - 2 * BUCKET + 1, a, now + 1, now + 1);
  }

  /** In numbers: the first sample counts until its bucket of five minutes and the next are
      over, to the nanosecond. */
  lemma FirstSampleCountsTenMinutes(t: nat, v: real, d: nat)
    requires v > 0.0
    ensures d < 600_000_000_000 ==> GetSpec(AddSpec(Fresh(), t, v), t + d).1 == v
    ensures d >= 600_000_000_000 ==> GetSpec(AddSpec(Fresh(), t, v), t + d).1 == 0.0
  {
  }
}
