/** What a generation owns: the sockets and sessions registered with it, released by
    their users, or closed when it stops. */
module Ownership {

  type Closer = nat

  /** `closing` are the closers a stop has taken and not closed yet, `refusing` those an
      own has found too late and not closed yet; `passed` is everything ever passed to
      own. */
  datatype Owner = Owner(
    stopped: bool, owned: set<Closer>,
    closing: set<Closer>, refusing: set<Closer>, closed: set<Closer>, released: set<Closer>, passed: set<Closer>)

  function OwnSpec(o: Owner, c: Closer): (Owner, bool) {
    if o.stopped then (o.(refusing := o.refusing + {c}, passed := o.passed + {c}), false)
    else (o.(owned := o.owned + {c}, passed := o.passed + {c}), true)
  }

  function ReleaseSpec(o: Owner, c: Closer): Owner {
    if c in o.owned then o.(owned := o.owned - {c}, released := o.released + {c}) else o
  }

  function StopSpec(o: Owner): Owner {
    o.(stopped := true, owned := {}, closing := o.closing + o.owned)
  }

  /** The generation's lock-guarded fields; the ghost fields say what became of the
      closers it no longer holds. */
  class Generation {
    var stopped: bool
    var owned: set<Closer>
    var workers: nat
    ghost var rest: Owner

    ghost function Model(): Owner
      reads this
    {
      rest.(stopped := stopped, owned := owned)
    }

    constructor ()
      ensures Model() == Fresh() && workers == 0
    {
      stopped, owned, workers, rest := false, {}, 0, Fresh();
    }

    method Enter() returns (ok: bool)
      modifies this`workers
      ensures ok == !stopped && workers == old(workers) + if ok then 1 else 0
    {
      if stopped { return false; }
      workers := workers + 1;
      return true;
    }

    method Own(c: Closer) returns (ok: bool)
      modifies this
      ensures (Model(), ok) == OwnSpec(old(Model()), c) && workers == old(workers)
    {
      if stopped {
        rest := rest.(refusing := rest.refusing + {c}, passed := rest.passed + {c});
        return false;
      }
      owned := owned + {c};
      rest := rest.(passed := rest.passed + {c});
      return true;
    }

    method Release(c: Closer)
      modifies this
      ensures Model() == ReleaseSpec(old(Model()), c) && workers == old(workers)
    {
      if c in owned { rest := rest.(released := rest.released + {c}); }
      owned := owned - {c};
    }

    /** The lock-held part of a stop; taken is what it then closes. Idempotent. */
    method Stop() returns (taken: set<Closer>)
      modifies this
      ensures Model() == StopSpec(old(Model())) && taken == old(owned) && workers == old(workers)
    {
      taken := owned;
      rest := rest.(closing := rest.closing + owned);
      stopped, owned := true, {};
    }
  }

  datatype Event =
    | Own(c: Closer)
    | Release(c: Closer)
    | Stop
    | CloseTaken(c: Closer)   // by a stop
    | CloseRefused(c: Closer) // by an own that came too late

  function Fresh(): Owner { Owner(false, {}, {}, {}, {}, {}, {}) }

  function Step(o: Owner, e: Event): Owner {
    match e
    case Own(c) => OwnSpec(o, c).0
    case Release(c) => ReleaseSpec(o, c)
    case Stop => StopSpec(o)
    case CloseTaken(c) => if c in o.closing then o.(closing := o.closing - {c}, closed := o.closed + {c}) else o
    case CloseRefused(c) => if c in o.refusing then o.(refusing := o.refusing - {c}, closed := o.closed + {c}) else o
  }

  function Run(o: Owner, es: seq<Event>): Owner
    decreases |es|
  {
    if es == [] then o else Step(Run(o, es[..|es| - 1]), es[|es| - 1])
  }

  predicate Inv(o: Owner) {
    && o.passed == o.owned + o.closing + o.refusing + o.closed + o.released
    && (o.stopped ==> o.owned == {})
    && (!o.stopped ==> o.closing == {} && o.refusing == {} && o.closed == {})
  }

  /** Every closer ever passed to own is owned, released, closed or about to be closed by
      a stop or by the own itself, and a stopped generation owns none - so once nobody is
      closing any more, everything not released by its own user is closed. */
  lemma {:induction false} NoCloserIsLost(es: seq<Event>)
    ensures var o := Run(Fresh(), es);
      && Inv(o)
      && (o.stopped && o.closing == {} && o.refusing == {} ==> o.passed == o.closed + o.released)
    decreases |es|
  {
    if es != [] {
      NoCloserIsLost(es[..|es| - 1]);
    }
  }

  /** What a stop took is beyond the reach of a release, and of any later own. */
  lemma {:induction false} StopIsFinal(o: Owner, es: seq<Event>, c: Closer)
    requires o.stopped && o.owned == {} && c in o.closing + o.closed
    ensures var p := Run(o, es); p.stopped && p.owned == {} && c in p.closing + p.closed && p.released == o.released
    decreases |es|
  {
    if es != [] {
      StopIsFinal(o, es[..|es| - 1], c);
    }
  }

  /** What its user released is the user's: no stop closes it, unless it is owned again. */
  lemma {:induction false} ReleasedIsLeftAlone(es: seq<Event>, c: Closer, later: seq<Event>)
    requires var o := Run(Fresh(), es); c in o.owned
    requires forall i :: 0 <= i < |later| ==> later[i] != Own(c)
    ensures var p := Run(Step(Run(Fresh(), es), Release(c)), later);
      c !in p.owned + p.closing + p.refusing + p.closed && c in p.released
    decreases |later|
  {
    NoCloserIsLost(es);
    if later != [] { ReleasedIsLeftAlone(es, c, later[..|later| - 1]); }
  }

  /** A stop closes what is owned, and an own that comes too late closes what it was passed:
      both are there to be closed, and closing them does it. */
  lemma StopCloses(es: seq<Event>, c: Closer)
    ensures var o := Run(Fresh(), es);
      && (c in o.owned ==> c in Step(o, Stop).closing && c in Step(Step(o, Stop), CloseTaken(c)).closed)
      && (o.stopped ==> c in Step(o, Own(c)).refusing && c in Step(Step(o, Own(c)), CloseRefused(c)).closed)
      && (!o.stopped ==> c in Step(o, Own(c)).owned)
  {
  }
}
