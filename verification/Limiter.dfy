// The sliding-window limit on password attempts, with its in-place filtering and its pruning of other keys.

module Limiter {
  import opened Models

  /** 15 minutes */
  const WINDOW: int := 900_000_000_000
  const MAX_FAILURES: nat := 5
  const MAX_KEYS: nat := 100000
  const PRUNE_KEYS: nat := 10000
  const PRUNE_EVERY: nat := 256

  /** The attempts after a cutoff, in order. */
  function Since(xs: seq<Time>, cutoff: Time): seq<Time> {
    if xs == [] then []
    else
      var front, x := Since(xs[..|xs| - 1], cutoff), xs[|xs| - 1];
      if x > cutoff then front + [x] else front
  }

  lemma SinceSnoc(xs: seq<Time>, x: Time, cutoff: Time)
    ensures Since(xs + [x], cutoff) == if x > cutoff then Since(xs, cutoff) + [x] else Since(xs, cutoff)
  {
    assert (xs + [x])[..|xs|] == xs;
  }

  /** Filtering with an earlier cutoff first changes nothing. */
  lemma {:induction false} SinceTwice(xs: seq<Time>, earlier: Time, cutoff: Time)
    requires earlier <= cutoff
    ensures Since(Since(xs, earlier), cutoff) == Since(xs, cutoff)
  {
    if xs != [] {
      var front, x := xs[..|xs| - 1], xs[|xs| - 1];
      SinceTwice(front, earlier, cutoff);
      SinceSnoc(Since(front, earlier), x, cutoff);
    }
  }

  /** Compacts the first n elements of the array to those after the cutoff. */
  method FilterInPlace(a: array<Time>, n: nat, cutoff: Time) returns (kept: nat)
    requires n <= a.Length
    modifies a
    ensures kept <= n && a[..kept] == Since(old(a[..n]), cutoff)
    ensures forall j :: n <= j < a.Length ==> a[j] == old(a[j])
  {
    kept := 0;
    ghost var was, out := a[..n], Since([], cutoff);
    assert was[..0] == [];
    for i := 0 to n
      invariant kept == |out| <= i && out == Since(was[..i], cutoff)
      invariant forall j :: 0 <= j < kept ==> a[j] == out[j]
      invariant forall j :: i <= j < a.Length ==> a[j] == old(a[j])
    {
      SinceSnoc(was[..i], was[i], cutoff);
      assert was[..i + 1] == was[..i] + [was[i]];
      hide Since;
      if a[i] > cutoff {
        a[kept] := a[i];
        kept, out := kept + 1, out + [was[i]];
      }
    }
    assert was[..n] == was && a[..kept] == out;
  }

  predicate Ordered(xs: seq<Time>) {
    forall i, j :: 0 <= i < j < |xs| ==> xs[i] <= xs[j]
  }

  /** Any six attempts in a row span at least the window. */
  predicate Spread(xs: seq<Time>) {
    forall i :: 0 <= i < |xs| - MAX_FAILURES ==> xs[i + MAX_FAILURES] - xs[i] >= WINDOW
  }

  /** In a spread history fewer than 15 minutes never see more than five attempts. */
  lemma FiveAtMost(xs: seq<Time>, i: nat, j: nat)
    requires Ordered(xs) && Spread(xs) && i <= j < |xs| && xs[j] - xs[i] < WINDOW
    ensures j - i + 1 <= MAX_FAILURES
  {
    var k := if i + MAX_FAILURES <= j then i + MAX_FAILURES else j;
    assert xs[k] <= xs[j];
  }

  lemma {:induction false} TailIsSince(xs: seq<Time>, m: nat, cutoff: Time)
    requires Ordered(xs) && m < |xs| && xs[m] > cutoff
    ensures |Since(xs, cutoff)| >= |xs| - m
  {
    var front := xs[..|xs| - 1];
    if m < |front| {
      TailIsSince(front, m, cutoff);
    }
  }

  /** A failure let through by a gate that counted fewer than five keeps the history spread. */
  lemma FailureKeepsSpread(xs: seq<Time>, gate: Time, t: Time)
    requires Ordered(xs) && Spread(xs) && gate <= t && forall i :: 0 <= i < |xs| ==> xs[i] <= t
    requires |Since(xs, gate - WINDOW)| < MAX_FAILURES
    ensures Ordered(xs + [t]) && Spread(xs + [t])
  {
    if |xs| >= MAX_FAILURES {
      var m := |xs| - MAX_FAILURES;
      if xs[m] > gate - WINDOW {
        TailIsSince(xs, m, gate - WINDOW);
      }
    }
  }

  /** What is stored for a key agrees with its complete history on the last 15 minutes. */
  predicate KeyOK(stored: seq<Time>, history: seq<Time>, now: Time) {
    && Ordered(history) && Spread(history) && (forall i :: 0 <= i < |history| ==> history[i] <= now)
    && Since(stored, now - WINDOW) == Since(history, now - WINDOW)
  }

  lemma KeyAgrees(stored: seq<Time>, history: seq<Time>, now: Time)
    requires KeyOK(stored, history, now)
    ensures Since(stored, now - WINDOW) == Since(history, now - WINDOW)
  {
  }

  lemma EmptyKey(now: Time)
    ensures KeyOK([], [], now)
  {
  }

  lemma KeyLater(stored: seq<Time>, history: seq<Time>, now: Time, later: Time)
    requires KeyOK(stored, history, now) && now <= later
    ensures KeyOK(stored, history, later)
  {
    SinceTwice(stored, now - WINDOW, later - WINDOW);
    SinceTwice(history, now - WINDOW, later - WINDOW);
  }

  lemma KeyPruned(stored: seq<Time>, history: seq<Time>, now: Time)
    requires KeyOK(stored, history, now)
    ensures KeyOK(Since(stored, now - WINDOW), history, now)
  {
    SinceTwice(stored, now - WINDOW, now - WINDOW);
  }

  lemma KeyFails(stored: seq<Time>, history: seq<Time>, gate: Time, now: Time)
    requires KeyOK(stored, history, now) && gate <= now && |Since(history, gate - WINDOW)| < MAX_FAILURES
    ensures KeyOK(stored + [now], history + [now], now)
  {
    FailureKeepsSpread(history, gate, now);
    SinceSnoc(stored, now, now - WINDOW);
    SinceSnoc(history, now, now - WINDOW);
  }

  function Of(m: map<string, seq<Time>>, key: string): seq<Time> {
    if key in m then m[key] else []
  }

  lemma OfWithout(m: map<string, seq<Time>>, key: string, other: string)
    ensures Of(m - {key}, other) == if other == key then [] else Of(m, other)
  {
  }

  /** Filters one slice in place. */
  method Filter(slice: seq<Time>, cutoff: Time) returns (kept: seq<Time>)
    ensures kept == Since(slice, cutoff)
  {
    var a := new Time[|slice|](i requires 0 <= i < |slice| => slice[i]);
    assert a[..|slice|] == slice;
    var k := FilterInPlace(a, |slice|, cutoff);
    kept := a[..k];
  }

  lemma KeysBound(a: map<string, seq<Time>>, b: map<string, seq<Time>>)
    requires a.Keys <= b.Keys
    ensures |a| <= |b|
  {
    var more := b.Keys - a.Keys;
    assert b.Keys == a.Keys + more;
  }

  /** Filters every key's attempts and deletes the keys that are left without any. */
  method PruneKeys(all: map<string, seq<Time>>, cutoff: Time) returns (kept: map<string, seq<Time>>)
    ensures kept.Keys <= all.Keys && |kept| <= |all|
    ensures forall key :: key in all ==> Of(kept, key) == Since(all[key], cutoff)
    ensures forall key :: key in kept ==> kept[key] != []
  {
    hide Since;
    kept := all;
    var todo := all.Keys;
    while todo != {}
      invariant todo <= kept.Keys <= all.Keys
      invariant forall key :: key in todo ==> kept[key] == all[key]
      invariant forall key :: key in all && key !in todo ==> Of(kept, key) == Since(all[key], cutoff)
      invariant forall key :: key in kept && key !in todo ==> kept[key] != []
      decreases |todo|
    {
      var key :| key in todo;
      todo := todo - {key};
      var recent := Filter(kept[key], cutoff);
      if |recent| == 0 {
        kept := kept - {key};
      } else {
        kept := kept[key := recent];
      }
    }
    KeysBound(kept, all);
  }

  class Limiter {
    var attempts: map<string, seq<Time>>
    var ops: nat
    var now: Time
    /** Every failure of every key since that key was last cleared. */
    ghost var history: map<string, seq<Time>>

    constructor (now: Time)
      ensures Valid() && attempts == map[] && history == map[]
    {
      attempts, ops, this.now, history := map[], 0, now, map[];
    }

    ghost predicate Valid()
      reads this
    {
      |attempts| <= MAX_KEYS && forall key: string :: KeyOK(Of(attempts, key), Of(history, key), now)
    }

    /** The failures of a key in the last 15 minutes, in the complete history. */
    ghost function Recent(key: string): seq<Time>
      reads this
    {
      Since(Of(history, key), now - WINDOW)
    }

    /** Clocks do not run backwards. */
    method Tick()
      requires Valid()
      modifies this`now
      ensures Valid() && old(now) <= now
    {
      hide KeyOK;
      var passed: int := *;
      if passed > 0 {
        forall key: string ensures KeyOK(Of(attempts, key), Of(history, key), now + passed) {
          KeyLater(Of(attempts, key), Of(history, key), now, now + passed);
        }
        now := now + passed;
      }
    }

    /** Every 256 operations, or from 10000 keys on: drop what is too old, and keys left without attempts. */
    method Prune()
      requires Valid()
      modifies this`attempts, this`now
      ensures Valid() && old(now) <= now && attempts.Keys <= old(attempts.Keys)
      ensures |attempts| >= PRUNE_KEYS ==> forall key :: key in attempts ==> attempts[key] != []
    {
      hide KeyOK;
      if ops % PRUNE_EVERY != 0 && |attempts| < PRUNE_KEYS {
        return;
      }
      Tick();
      ghost var was := attempts;
      attempts := PruneKeys(attempts, now - WINDOW);
      forall key: string ensures KeyOK(Of(attempts, key), Of(history, key), now) {
        KeyPruned(Of(was, key), Of(history, key), now);
      }
    }

    /** Below the cap the answer is exactly: five failures in the last 15 minutes of the complete history.
        At the cap, keys without recent attempts are blocked as well. */
    method TooManyAttempts(key: string) returns (blocked: bool)
      requires Valid()
      modifies this`attempts, this`ops, this`now
      ensures Valid() && old(now) <= now
      ensures blocked <==> |Recent(key)| >= MAX_FAILURES || key !in attempts
      ensures key !in attempts ==> |attempts| == MAX_KEYS && Recent(key) == []
    {
      hide KeyOK;
      ops := ops + 1;
      Prune();
      if |attempts| >= MAX_KEYS && Of(attempts, key) == [] {
        KeyAgrees(Of(attempts, key), Of(history, key), now);
        return true;
      }
      Tick();
      KeyAgrees(Of(attempts, key), Of(history, key), now);
      var kept := Filter(Of(attempts, key), now - WINDOW);
      KeyPruned(Of(attempts, key), Of(history, key), now);
      OneKey(attempts, key, kept);
      attempts := attempts[key := kept];
      blocked := |kept| >= MAX_FAILURES;
    }

    lemma OneKey(m: map<string, seq<Time>>, key: string, value: seq<Time>)
      ensures |m[key := value]| == |m| + if key in m then 0 else 1
    {
      assert m[key := value].Keys == m.Keys + {key};
    }

    /** A failure that was let through: it is recorded, and the history stays spread. */
    method AddAttempt(key: string, ghost gate: Time)
      requires Valid() && key in attempts && gate <= now
      requires |Since(Of(history, key), gate - WINDOW)| < MAX_FAILURES
      modifies this`attempts, this`now, this`history
      ensures Valid() && old(now) <= now && attempts.Keys == old(attempts.Keys)
      ensures history == old(history)[key := Of(old(history), key) + [now]]
    {
      hide KeyOK;
      Tick();
      OneKey(attempts, key, attempts[key] + [now]);
      KeyFails(Of(attempts, key), Of(history, key), gate, now);
      ghost var a, h := attempts, history;
      attempts := attempts[key := attempts[key] + [now]];
      history := history[key := Of(history, key) + [now]];
      forall k: string ensures KeyOK(Of(attempts, k), Of(history, k), now) {
        assert KeyOK(Of(a, k), Of(h, k), now);
      }
    }

    method ClearAttempts(key: string)
      requires Valid()
      modifies this`attempts, this`history
      ensures Valid() && attempts == old(attempts) - {key} && history == old(history) - {key}
    {
      hide KeyOK;
      EmptyKey(now);
      KeysBound(attempts - {key}, attempts);
      forall k: string ensures KeyOK(Of(attempts - {key}, k), Of(history - {key}, k), now) {
        OfWithout(attempts, key, k);
        OfWithout(history, key, k);
      }
      attempts, history := attempts - {key}, history - {key};
    }

    /** One submitted password: blocked, accepted (which clears the key), or recorded as a failure. */
    method Gate(key: string, correct: bool) returns (blocked: bool, admitted: bool, ghost gate: Time)
      requires Valid()
      modifies this
      ensures Valid() && old(now) <= now && admitted == (!blocked && correct)
      ensures blocked ==> history == old(history)
      ensures blocked ==> |Recent(key)| >= MAX_FAILURES || (key !in attempts && |attempts| == MAX_KEYS)
      ensures old(now) <= gate <= now
      ensures !blocked ==> |Since(Of(old(history), key), gate - WINDOW)| < MAX_FAILURES
      ensures admitted ==> history == old(history) - {key}
      ensures !blocked && !correct ==>
        exists t :: old(now) <= t <= now && history == old(history)[key := Of(old(history), key) + [t]]
    {
      blocked := TooManyAttempts(key);
      gate, admitted := now, false;
      if blocked {
        return;
      }
      Tick();
      if correct {
        ClearAttempts(key);
        admitted := true;
      } else {
        AddAttempt(key, gate);
      }
    }
  }
}
