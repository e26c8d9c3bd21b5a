/** `wasi:io/poll#poll`: which indices are reported ready, and the deadline that
    execution time and shutdown requests merge into. */
module Polling {

  /** The ready positions of a list of pollables, in order. */
  ghost predicate IsReadyList(flags: seq<bool>, ready: seq<nat>) {
    && (forall a, b | 0 <= a < b < |ready| :: ready[a] < ready[b])
    && (forall i | i in ready :: i < |flags| && flags[i])
    && (forall i: nat | i < |flags| && flags[i] :: i in ready)
  }

  /** One pass over the pollables. */
  method CollectReady(flags: seq<bool>) returns (ready: seq<nat>)
    ensures IsReadyList(flags, ready)
    ensures ready == [] <==> forall i | 0 <= i < |flags| :: !flags[i]
  {
    ready := [];
    for i := 0 to |flags|
      invariant forall a, b | 0 <= a < b < |ready| :: ready[a] < ready[b]
      invariant forall k | k in ready :: k < i && flags[k]
      invariant forall k: nat | k < i && flags[k] :: k in ready
    {
      if flags[i] {
        forall a | 0 <= a < |ready| ensures ready[a] < i {
          assert ready[a] in ready;
        }
        ready := ready + [i];
      }
    }
    if ready != [] {
      assert ready[0] in ready;
    }
  }

  // ---------------------------------------------------------------- deadline

  /** The deadline of a context; zero stands for none. */
  class Deadline {
    var deadline: nat

    constructor (initial: nat)
      ensures deadline == initial
    {
      deadline := initial;
    }

    /** Takes a shutdown request, if there is one, into account. */
    method Observe(shutdown: nat)
      modifies this
      ensures deadline == Merge(old(deadline), shutdown)
    {
      if deadline != 0 && shutdown != 0 {
        deadline := if shutdown < deadline then shutdown else deadline;
      } else if deadline == 0 {
        deadline := shutdown;
      }
    }

    /** Whether execution ends in `poll` at this time. */
    method Expired(now: nat) returns (r: bool)
      ensures r <==> deadline != 0 && deadline <= now
    {
      r := deadline > 0 && deadline <= now;
    }
  }

  function Merge(deadline: nat, shutdown: nat): nat {
    if deadline != 0 && shutdown != 0 then (if shutdown < deadline then shutdown else deadline)
    else if deadline == 0 then shutdown
    else deadline
  }

  function MergeAll(deadline: nat, observed: seq<nat>): nat
    decreases |observed|
  {
    if observed == [] then deadline else MergeAll(Merge(deadline, observed[0]), observed[1..])
  }

  /** d is the earliest of the given times, of which zero does not count. */
  ghost predicate Earliest(d: nat, times: seq<nat>) {
    && (forall t | t in times :: t != 0 ==> 0 < d <= t)
    && (d != 0 ==> d in times)
  }

  lemma EarliestMerge(d: nat, t: nat, rest: seq<nat>, e: nat)
    requires Earliest(e, [Merge(d, t)] + rest)
    ensures Earliest(e, [d, t] + rest)
  {
    assert Merge(d, t) in [Merge(d, t)] + rest;
    forall x | x in [d, t] + rest && x != 0 ensures 0 < e <= x {
      if x in rest {
        assert x in [Merge(d, t)] + rest;
      }
    }
    if e != 0 {
      assert e == Merge(d, t) || e in rest;
      assert Merge(d, t) == d || Merge(d, t) == t;
      assert d in [d, t] + rest && t in [d, t] + rest;
    }
  }

  /** After any number of passes, whatever shutdown values they saw and in whatever
      order, the deadline is the earliest one there is. */
  lemma {:induction false} DeadlineIsEarliest(deadline: nat, observed: seq<nat>)
    ensures Earliest(MergeAll(deadline, observed), [deadline] + observed)
    decreases |observed|
  {
    if observed != [] {
      DeadlineIsEarliest(Merge(deadline, observed[0]), observed[1..]);
      EarliestMerge(deadline, observed[0], observed[1..], MergeAll(deadline, observed));
      assert [deadline, observed[0]] + observed[1..] == [deadline] + observed;
    }
  }

  lemma EarliestUnique(d: nat, e: nat, s: seq<nat>, t: seq<nat>)
    requires Earliest(d, s) && Earliest(e, t) && forall x :: x in s <==> x in t
    ensures d == e
  {
  }

  /** So a deadline does not depend on the order in which requests were seen, nor on
      seeing one of them again. */
  lemma DeadlineOrderIrrelevant(deadline: nat, seen: seq<nat>, again: seq<nat>)
    requires forall x :: x in seen <==> x in again
    ensures MergeAll(deadline, seen) == MergeAll(deadline, again)
  {
    DeadlineIsEarliest(deadline, seen);
    DeadlineIsEarliest(deadline, again);
    EarliestUnique(MergeAll(deadline, seen), MergeAll(deadline, again), [deadline] + seen, [deadline] + again);
  }
}
