// Atomic maxima under every interleaving: the load and compare-and-swap loop, and the request peak built on it.

module PeakCounters {

  // ---- the loop, one atomic access at a time ----

  datatype Phase = Fresh | Loaded(seen: nat) | Done

  /** A thread that runs the loop with its candidate. */
  datatype Thread = Thread(candidate: nat, phase: Phase)

  datatype Maximum = Maximum(value: nat, threads: seq<Thread>)

  datatype Access = Begin(candidate: nat) | Load(i: nat) | Swap(i: nat)

  predicate Enabled(m: Maximum, a: Access) {
    match a
    case Begin(_) => true
    case Load(i) => i < |m.threads| && m.threads[i].phase.Fresh?
    case Swap(i) => i < |m.threads| && m.threads[i].phase.Loaded?
  }

  /** Swap is the loop condition: stop if the candidate is not larger, else try to exchange; a failed
      exchange goes back to loading. */
  function Apply(m: Maximum, a: Access): Maximum
    requires Enabled(m, a)
  {
    match a
    case Begin(c) => m.(threads := m.threads + [Thread(c, Fresh)])
    case Load(i) => m.(threads := m.threads[i := m.threads[i].(phase := Loaded(m.value))])
    case Swap(i) =>
      var t := m.threads[i];
      if t.candidate <= t.phase.seen then m.(threads := m.threads[i := t.(phase := Done)])
      else if m.value == t.phase.seen then Maximum(t.candidate, m.threads[i := t.(phase := Done)])
      else m.(threads := m.threads[i := t.(phase := Fresh)])
  }

  predicate IsRun(m: Maximum, run: seq<Access>)
    decreases |run|, 0
  {
    run == [] || (IsRun(m, run[..|run| - 1]) && Enabled(After(m, run[..|run| - 1]), run[|run| - 1]))
  }

  function After(m: Maximum, run: seq<Access>): Maximum
    requires IsRun(m, run)
    decreases |run|, 1
  {
    if run == [] then m else Apply(After(m, run[..|run| - 1]), run[|run| - 1])
  }

  function Larger(a: nat, b: nat): nat {
    if a < b then b else a
  }

  /** The largest of the first value and all candidates offered. */
  function Highest(first: nat, threads: seq<Thread>): nat {
    if threads == [] then first else Larger(Highest(first, threads[..|threads| - 1]), threads[|threads| - 1].candidate)
  }

  predicate Quiet(m: Maximum) {
    forall i :: 0 <= i < |m.threads| ==> m.threads[i].phase.Done?
  }

  predicate Inv(first: nat, m: Maximum) {
    && first <= m.value <= Highest(first, m.threads)
    && forall i :: 0 <= i < |m.threads| ==>
         (m.threads[i].phase.Loaded? ==> m.threads[i].phase.seen <= m.value)
         && (m.threads[i].phase.Done? ==> m.threads[i].candidate <= m.value)
  }

  lemma {:induction false} HighestBounds(first: nat, threads: seq<Thread>)
    ensures first <= Highest(first, threads)
    ensures forall i :: 0 <= i < |threads| ==> threads[i].candidate <= Highest(first, threads)
  {
    if threads != [] {
      HighestBounds(first, threads[..|threads| - 1]);
      assert forall i :: 0 <= i < |threads| - 1 ==> threads[..|threads| - 1][i] == threads[i];
    }
  }

  /** The highest value is bounded by every bound on the first value and the candidates. */
  lemma {:induction false} HighestLeast(first: nat, threads: seq<Thread>, bound: nat)
    requires first <= bound && forall i :: 0 <= i < |threads| ==> threads[i].candidate <= bound
    ensures Highest(first, threads) <= bound
  {
    if threads != [] {
      HighestLeast(first, threads[..|threads| - 1], bound);
    }
  }

  lemma {:induction false} HighestIgnoresPhase(first: nat, threads: seq<Thread>, i: nat, t: Thread)
    requires i < |threads| && t.candidate == threads[i].candidate
    ensures Highest(first, threads[i := t]) == Highest(first, threads)
  {
    var front := threads[..|threads| - 1];
    if i == |threads| - 1 {
      assert threads[i := t][..|threads| - 1] == front;
    } else {
      HighestIgnoresPhase(first, front, i, t);
      assert threads[i := t][..|threads| - 1] == front[i := t];
    }
  }

  lemma AccessKeepsInv(first: nat, m: Maximum, a: Access)
    requires Inv(first, m) && Enabled(m, a)
    ensures Inv(first, Apply(m, a)) && m.value <= Apply(m, a).value
  {
    match a {
      case Begin(c) => assert (m.threads + [Thread(c, Fresh)])[..|m.threads|] == m.threads;
      case Load(i) => HighestIgnoresPhase(first, m.threads, i, m.threads[i].(phase := Loaded(m.value)));
      case Swap(i) =>
        HighestBounds(first, m.threads);
        HighestIgnoresPhase(first, m.threads, i, m.threads[i].(phase := Done));
        HighestIgnoresPhase(first, m.threads, i, m.threads[i].(phase := Fresh));
    }
  }

  lemma {:induction false} RunKeepsInv(first: nat, m: Maximum, run: seq<Access>)
    requires Inv(first, m) && IsRun(m, run)
    ensures Inv(first, After(m, run)) && m.value <= After(m, run).value
  {
    if run != [] {
      RunKeepsInv(first, m, run[..|run| - 1]);
      AccessKeepsInv(first, After(m, run[..|run| - 1]), run[|run| - 1]);
    }
  }

  /** However the threads interleave, the value only grows, and once all of them are through it is exactly the
      maximum of the first value and all candidates. */
  lemma MaximumReached(first: nat, run: seq<Access>)
    requires IsRun(Maximum(first, []), run)
    ensures var m := After(Maximum(first, []), run);
            first <= m.value && (Quiet(m) ==> m.value == Highest(first, m.threads))
  {
    var start, m := Maximum(first, []), After(Maximum(first, []), run);
    assert Inv(first, start);
    RunKeepsInv(first, start, run);
    if Quiet(m) {
      HighestLeast(first, m.threads, m.value);
    }
  }

  /** An exchange fails only if somebody raised the value since the load: a thread that runs alone is through
      after one load and one exchange. */
  lemma FailureMeansProgress(first: nat, m: Maximum, i: nat)
    requires Inv(first, m) && Enabled(m, Swap(i))
    ensures Apply(m, Swap(i)).threads[i].phase.Fresh? ==> m.threads[i].phase.seen < m.value
    ensures m.threads[i].phase.seen == m.value ==> Apply(m, Swap(i)).threads[i].phase.Done?
  {
  }

  // ---- the loop as written ----

  predicate By(a: Access, thread: nat) {
    match a
    case Begin(_) => false
    case Load(i) => i == thread
    case Swap(i) => i == thread
  }

  lemma OwnStateIsOwn(m: Maximum, a: Access, me: nat)
    requires Enabled(m, a) && !By(a, me) && me < |m.threads|
    ensures me < |Apply(m, a).threads| && Apply(m, a).threads[me] == m.threads[me]
  {
  }

  class AtomicUint64 {
    ghost const first: nat
    ghost var run: seq<Access>
    var m: Maximum
    /** Bounds what the other threads still do, so that the loop is finite. */
    var budget: nat

    ghost predicate Valid()
      reads this
    {
      IsRun(Maximum(first, []), run) && m == After(Maximum(first, []), run) && Inv(first, m)
    }

    constructor (first: nat, budget: nat)
      ensures Valid() && this.first == first && m == Maximum(first, []) && run == []
    {
      this.first, this.budget, run, m := first, budget, [], Maximum(first, []);
    }

    method Do(a: Access)
      requires Valid() && Enabled(m, a)
      modifies this`m, this`run
      ensures Valid() && m == Apply(old(m), a) && old(run) <= run && old(m.value) <= m.value
    {
      hide Apply, Inv;
      AccessKeepsInv(first, m, a);
      assert (run + [a])[..|run + [a]| - 1] == run;
      m, run := Apply(m, a), run + [a];
    }

    /** Any number of accesses of the other threads; this thread's own state is untouched. */
    method Others(me: nat)
      requires Valid() && me < |m.threads|
      modifies this
      ensures Valid() && me < |m.threads| && m.threads[me] == old(m.threads[me]) && budget <= old(budget)
      ensures old(m.value) <= m.value && old(run) <= run
      ensures budget == old(budget) ==> m == old(m)
    {
      hide Apply, Inv, IsRun, After, Enabled;
      var stop: bool := *;
      while budget > 0 && !stop
        invariant Valid() && me < |m.threads| && m.threads[me] == old(m.threads[me]) && budget <= old(budget)
        invariant old(m.value) <= m.value && old(run) <= run
        invariant budget == old(budget) ==> m == old(m)
      {
        var a: Access := *;
        if Enabled(m, a) && !By(a, me) {
          OwnStateIsOwn(m, a, me);
          Do(a);
        }
        budget := budget - 1;
        stop := *;
      }
    }

    /** A new thread runs updateAtomicMax while others go on. */
    method UpdateAtomicMax(candidate: nat) returns (ghost me: nat)
      requires Valid()
      modifies this
      ensures Valid() && me < |m.threads| && m.threads[me] == Thread(candidate, Done)
      ensures old(run) <= run && m.value >= candidate && m.value >= old(m.value)
    {
      var self := |m.threads|;
      me := self;
      Do(Begin(candidate));
      while !m.threads[self].phase.Done?
        invariant Valid() && self < |m.threads|
        invariant !m.threads[self].phase.Loaded? && m.threads[self].candidate == candidate
        invariant old(run) <= run && old(m.value) <= m.value
        decreases budget, m.threads[self].phase.Fresh?
      {
        Do(Load(self));
        Others(self);
        Do(Swap(self));
      }
    }
  }

  // ---- requests in flight ----

  const TWO_64: nat := 0x1_0000_0000_0000_0000

  function Add64(a: nat, b: nat): nat {
    (a + b) % TWO_64
  }

  /** `open[i]` while request i is being served; request i is thread i of the maximum. */
  datatype Server = Server(inFlight: nat, total: nat, open: seq<bool>, peak: Maximum)

  datatype Event = Enter | Count(a: Access) | Leave(i: nat)

  function Serving(open: seq<bool>): nat {
    if open == [] then 0 else Serving(open[..|open| - 1]) + if open[|open| - 1] then 1 else 0
  }

  predicate Happens(s: Server, e: Event) {
    match e
    case Enter => true
    case Count(a) => !a.Begin? && Enabled(s.peak, a)
    case Leave(i) => i < |s.open| && i < |s.peak.threads| && s.open[i] && s.peak.threads[i].phase.Done?
  }

  /** Leaving adds 2^64 - 1, which is how the source takes one away. */
  function Next(s: Server, e: Event): Server
    requires Happens(s, e)
  {
    match e
    case Enter =>
      var current := Add64(s.inFlight, 1);
      Server(current, Add64(s.total, 1), s.open + [true], Apply(s.peak, Begin(current)))
    case Count(a) => s.(peak := Apply(s.peak, a))
    case Leave(i) => s.(inFlight := Add64(s.inFlight, TWO_64 - 1), open := s.open[i := false])
  }

  const IDLE_SERVER := Server(0, 0, [], Maximum(0, []))

  predicate Served(events: seq<Event>)
    decreases |events|, 0
  {
    events == [] || (Served(events[..|events| - 1]) && Happens(Now(events[..|events| - 1]), events[|events| - 1]))
  }

  function Now(events: seq<Event>): Server
    requires Served(events)
    decreases |events|, 1
  {
    if events == [] then IDLE_SERVER else Next(Now(events[..|events| - 1]), events[|events| - 1])
  }

  /** The most requests ever being served at once. */
  function HighWater(events: seq<Event>): nat
    requires Served(events)
  {
    if events == [] then 0 else Larger(HighWater(events[..|events| - 1]), Serving(Now(events).open))
  }

  predicate ServerOK(s: Server, highWater: nat) {
    && |s.open| == |s.peak.threads| && Inv(0, s.peak)
    && s.inFlight == Serving(s.open) && s.total == |s.open|
    && highWater == Highest(0, s.peak.threads)
  }

  lemma {:induction false} ServingBound(open: seq<bool>)
    ensures Serving(open) <= |open|
    ensures (exists i :: 0 <= i < |open| && open[i]) ==> Serving(open) > 0
  {
    if open != [] {
      ServingBound(open[..|open| - 1]);
      if i :| 0 <= i < |open| && open[i] {
        assert i < |open| - 1 ==> open[..|open| - 1][i];
      }
    }
  }

  lemma {:induction false} OneLeaves(open: seq<bool>, i: nat)
    requires i < |open| && open[i]
    ensures Serving(open[i := false]) == Serving(open) - 1
  {
    var front := open[..|open| - 1];
    if i == |open| - 1 {
      assert open[i := false][..|open| - 1] == front;
    } else {
      OneLeaves(front, i);
      assert open[i := false][..|open| - 1] == front[i := false];
    }
  }

  lemma EnterKeepsOK(s: Server, highWater: nat)
    requires ServerOK(s, highWater) && |s.open| + 1 < TWO_64
    ensures ServerOK(Next(s, Enter), Larger(highWater, Serving(Next(s, Enter).open)))
  {
    var next := Next(s, Enter);
    ServingBound(s.open);
    AccessKeepsInv(0, s.peak, Begin(Add64(s.inFlight, 1)));
    assert next.open[..|s.open|] == s.open;
    assert next.peak.threads[..|s.open|] == s.peak.threads;
  }

  lemma CountKeepsOK(s: Server, highWater: nat, a: Access)
    requires ServerOK(s, highWater) && Happens(s, Count(a))
    ensures ServerOK(Next(s, Count(a)), highWater)
  {
    AccessKeepsInv(0, s.peak, a);
    hide Inv, Serving;
    var next := Apply(s.peak, a);
    assert next.threads == s.peak.threads[a.i := next.threads[a.i]];
    HighestIgnoresPhase(0, s.peak.threads, a.i, next.threads[a.i]);
  }

  lemma LeaveKeepsOK(s: Server, highWater: nat, i: nat)
    requires ServerOK(s, highWater) && Happens(s, Leave(i)) && |s.open| < TWO_64
    ensures ServerOK(Next(s, Leave(i)), highWater) && Serving(Next(s, Leave(i)).open) < Serving(s.open)
  {
    ServingBound(s.open);
    OneLeaves(s.open, i);
    hide Inv, Serving;
    assert s.inFlight + (TWO_64 - 1) == TWO_64 + (s.inFlight - 1);
  }

  lemma EventKeepsOK(s: Server, highWater: nat, e: Event)
    requires ServerOK(s, highWater) && Serving(s.open) <= highWater
    requires Happens(s, e) && |Next(s, e).open| < TWO_64
    ensures ServerOK(Next(s, e), Larger(highWater, Serving(Next(s, e).open)))
  {
    hide ServerOK, Serving;
    match e {
      case Enter => EnterKeepsOK(s, highWater);
      case Count(a) => CountKeepsOK(s, highWater, a);
      case Leave(i) => LeaveKeepsOK(s, highWater, i);
    }
  }

  lemma {:induction false} ServerInv(events: seq<Event>)
    requires Served(events) && |Now(events).open| < TWO_64
    ensures ServerOK(Now(events), HighWater(events)) && Serving(Now(events).open) <= HighWater(events)
  {
    if events != [] {
      var front := events[..|events| - 1];
      ServerInv(front);
      EventKeepsOK(Now(front), HighWater(front), events[|events| - 1]);
    }
  }

  /** Below 2^64 requests, the gauge is the number of requests being served and never wraps below zero, and
      whenever no loop is running the recorded maximum is the true peak. */
  lemma PeakIsHighWater(events: seq<Event>)
    requires Served(events) && |Now(events).open| < TWO_64
    ensures var s := Now(events);
            && s.inFlight == Serving(s.open) && s.total == |s.open|
            && s.peak.value <= HighWater(events)
            && (Quiet(s.peak) ==> s.peak.value == HighWater(events))
  {
    ServerInv(events);
    var s := Now(events);
    if Quiet(s.peak) {
      HighestLeast(0, s.peak.threads, s.peak.value);
    }
  }
}
