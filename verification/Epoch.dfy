/** The epoch-deadline callback of a store: execution time is granted to the guest
    in slices, out of a budget, until a shutdown deadline takes over. */
module Epoch {
  import opened Wrappers
  import opened Numbers

  /** The largest number of ticks granted at a time. */
  const SLICE: nat := 100

  /** What the callback finds on the shutdown channel. */
  datatype Shutdown = Quiet | Requested(deadline: nat) | ChannelClosed

  datatype TrapReason = BudgetExhausted | ShutdownExhausted | ForcedShutdown

  datatype Outcome = Grant(ticks: nat) | Trap(reason: TrapReason)

  /** One callback: the shutdown channel and the clock it reads. */
  datatype Observation = Observation(shutdown: Shutdown, now: nat)

  /** The ticks granted when the store is created. */
  function FirstGrant(budget: Option<nat>): nat {
    if budget.Some? then Min(SLICE, budget.value) else SLICE
  }

  /** The budget after granting a slice of it. */
  function Spend(budget: Option<nat>): Option<nat> {
    if budget.Some? then Some(Monus(budget.value, SLICE)) else None
  }

  /** Outcome of a callback and the budget after it. */
  function Tick(budget: Option<nat>, o: Observation): (Outcome, Option<nat>) {
    if budget == Some(0) then (Trap(BudgetExhausted), budget)
    else
      match o.shutdown
      case Quiet => (Grant(FirstGrant(budget)), Spend(budget))
      case ChannelClosed => (Trap(ForcedShutdown), Spend(budget))
      case Requested(deadline) =>
        var left := Monus(deadline, o.now);
        if left == 0 then (Trap(ShutdownExhausted), Spend(budget))
        else (Grant(Min(SLICE, left)), Some(Monus(left, SLICE)))
  }

  class Timer {
    /** The epoch deadline the store starts with, and the budget left for callbacks. */
    var granted: nat
    var budget: Option<nat>

    constructor (total: Option<nat>)
      ensures granted == FirstGrant(total) && budget == Spend(total)
    {
      var n, rest := SLICE, total;
      if total.Some? {
        if total.value >= SLICE {
          rest := Some(total.value - SLICE);
        } else {
          n, rest := total.value, Some(0);
        }
      }
      granted, budget := n, rest;
    }

    method Callback(shutdown: Shutdown, now: nat) returns (r: Outcome)
      modifies this`budget
      ensures (r, budget) == Tick(old(budget), Observation(shutdown, now))
    {
      var n := SLICE;
      match budget {
        case Some(b) =>
          if b == 0 {
            return Trap(BudgetExhausted);
          }
          if b >= SLICE {
            budget := Some(b - SLICE);
          } else {
            n := b;
            budget := Some(0);
          }
        case None =>
      }
      match shutdown {
        case Quiet =>
          r := Grant(n);
        case ChannelClosed =>
          r := Trap(ForcedShutdown);
        case Requested(deadline) =>
          var left := if now < deadline then deadline - now else 0;
          if left == 0 {
            return Trap(ShutdownExhausted);
          }
          if left >= SLICE {
            budget := Some(left - SLICE);
            r := Grant(SLICE);
          } else {
            budget := Some(0);
            r := Grant(left);
          }
      }
    }
  }

  // -------------------------------------------------------------------- runs

  /** The outcomes of successive callbacks, up to and including the first trap. */
  function Outcomes(budget: Option<nat>, obs: seq<Observation>): seq<Outcome>
    decreases |obs|
  {
    if obs == [] then []
    else
      var (r, budget') := Tick(budget, obs[0]);
      if r.Trap? then [r] else [r] + Outcomes(budget', obs[1..])
  }

  /** The ticks granted by callbacks. */
  function Granted(rs: seq<Outcome>): nat {
    if rs == [] then 0 else (if rs[0].Grant? then rs[0].ticks else 0) + Granted(rs[1..])
  }

  function Slices(n: nat): nat {
    (n + SLICE - 1) / SLICE
  }

  predicate AllQuiet(obs: seq<Observation>) {
    forall i | 0 <= i < |obs| :: obs[i].shutdown == Quiet
  }

  /** What a budget that is spent without a shutdown looks like: full slices, at most
      one smaller one at the end, then the trap. */
  ghost predicate SpentInSlices(rs: seq<Outcome>, budget: nat) {
    && |rs| == Slices(budget) + 1
    && rs[|rs| - 1] == Trap(BudgetExhausted)
    && (forall i | 0 <= i < |rs| - 1 :: rs[i].Grant? && 0 < rs[i].ticks <= SLICE)
    && (forall i | 0 <= i < |rs| - 2 :: rs[i] == Grant(SLICE))
    && Granted(rs) == budget
  }

  lemma {:induction false} RemainderSpentInSlices(budget: nat, obs: seq<Observation>)
    requires AllQuiet(obs) && |obs| > Slices(budget)
    ensures SpentInSlices(Outcomes(Some(budget), obs), budget)
    decreases budget
  {
    var rs := Outcomes(Some(budget), obs);
    if budget > 0 {
      var rest := Outcomes(Spend(Some(budget)), obs[1..]);
      assert rs == [Grant(Min(SLICE, budget))] + rest;
      assert Slices(budget) == Slices(Monus(budget, SLICE)) + 1;
      RemainderSpentInSlices(Monus(budget, SLICE), obs[1..]);
      assert forall i | 0 < i < |rs| :: rs[i] == rest[i - 1];
      assert budget < SLICE ==> |rest| == 1;
    }
  }

  /** With no shutdown, a budget of B ticks is granted exactly, in slices of which all
      but the last are 100, and the guest is trapped by callback max(1, ceil(B / 100)). */
  lemma BudgetIsExact(budget: nat, obs: seq<Observation>)
    requires AllQuiet(obs) && |obs| > Slices(budget)
    ensures var rs := Outcomes(Spend(Some(budget)), obs);
            && |rs| == (if budget == 0 then 1 else (budget + 99) / 100)
            && rs[|rs| - 1] == Trap(BudgetExhausted)
            && (forall i | 0 <= i < |rs| - 1 :: rs[i].Grant? && rs[i].ticks <= 100)
            && (|rs| > 1 ==> FirstGrant(Some(budget)) == 100 && forall i | 0 <= i < |rs| - 2 :: rs[i] == Grant(100))
            && FirstGrant(Some(budget)) + Granted(rs) == budget
  {
    RemainderSpentInSlices(Monus(budget, SLICE), obs);
    assert budget > 0 ==> Slices(budget) == Slices(Monus(budget, SLICE)) + 1;
    assert FirstGrant(Some(budget)) + Monus(budget, SLICE) == budget;
  }

  /** Without a budget and without a shutdown, every slice is 100 and none is the last. */
  lemma {:induction false} NoBudgetNeverTraps(obs: seq<Observation>)
    requires AllQuiet(obs)
    ensures FirstGrant(None) == 100 && Spend(None) == None
    ensures Outcomes(None, obs) == seq(|obs|, i => Grant(100))
    decreases |obs|
  {
    if obs != [] {
      NoBudgetNeverTraps(obs[1..]);
    }
  }

  /** A trap tells its cause: an empty budget first, then a closed channel, then a
      deadline that has passed. Nothing else traps, and no budget makes a guest immune. */
  lemma TrapTellsCause(budget: Option<nat>, o: Observation)
    ensures var r := Tick(budget, o).0;
            && (r == Trap(BudgetExhausted) <==> budget == Some(0))
            && (r == Trap(ForcedShutdown) <==> budget != Some(0) && o.shutdown == ChannelClosed)
            && (r == Trap(ShutdownExhausted) <==>
                  budget != Some(0) && o.shutdown.Requested? && o.shutdown.deadline <= o.now)
            && (r.Grant? ==> 0 < r.ticks <= 100)
  {
  }

  // ---------------------------------------------------------------- shutdown

  predicate AllRequested(obs: seq<Observation>, deadline: nat) {
    forall i | 0 <= i < |obs| :: obs[i].shutdown == Requested(deadline)
  }

  /** What callbacks can find once a shutdown has been requested: the deadline, or a
      channel that was closed since. */
  predicate AfterRequest(obs: seq<Observation>, deadline: nat) {
    forall i | 0 <= i < |obs| :: obs[i].shutdown == Requested(deadline) || obs[i].shutdown == ChannelClosed
  }

  /** No grant reaches past the shutdown deadline, and from it on every callback
      traps, whatever budget was left. */
  lemma {:induction false} GrantsEndByDeadline(budget: Option<nat>, obs: seq<Observation>, deadline: nat, i: nat)
    requires AfterRequest(obs, deadline) && i < |Outcomes(budget, obs)|
    ensures i < |obs|
    ensures Outcomes(budget, obs)[i].Grant? ==> 0 < Outcomes(budget, obs)[i].ticks && obs[i].now + Outcomes(budget, obs)[i].ticks <= deadline
    ensures obs[i].now >= deadline ==> Outcomes(budget, obs)[i].Trap?
    decreases |obs|
  {
    if i > 0 {
      GrantsEndByDeadline(Tick(budget, obs[0]).1, obs[1..], deadline, i - 1);
    }
  }

  /** The clock advances by at least what was granted before the next callback. */
  ghost predicate TimePasses(budget: Option<nat>, obs: seq<Observation>) {
    forall i | 0 <= i < |Outcomes(budget, obs)| && i + 1 < |obs| && Outcomes(budget, obs)[i].Grant? ::
      obs[i].now + Outcomes(budget, obs)[i].ticks <= obs[i + 1].now
  }

  lemma TimePassesTail(budget: Option<nat>, obs: seq<Observation>)
    requires obs != [] && TimePasses(budget, obs) && Tick(budget, obs[0]).0.Grant?
    ensures TimePasses(Tick(budget, obs[0]).1, obs[1..])
    ensures |obs| > 1 ==> obs[0].now + Tick(budget, obs[0]).0.ticks <= obs[1].now
  {
    var rs, rest := Outcomes(budget, obs), Outcomes(Tick(budget, obs[0]).1, obs[1..]);
    assert rs == [Tick(budget, obs[0]).0] + rest;
    forall i | 0 <= i < |rest| && i + 1 < |obs[1..]| && rest[i].Grant?
      ensures obs[1..][i].now + rest[i].ticks <= obs[1..][i + 1].now
    {
      assert rs[i + 1] == rest[i];
    }
  }

  /** Once a shutdown is seen with t ticks to its deadline, the guest gets at most
      ceil(t / 100) more slices before it is trapped. */
  lemma {:induction false} ShutdownIsPrompt(budget: Option<nat>, obs: seq<Observation>, deadline: nat)
    requires AfterRequest(obs, deadline) && TimePasses(budget, obs) && obs != []
    requires |obs| > Slices(Monus(deadline, obs[0].now))
    ensures var rs := Outcomes(budget, obs);
            && rs != [] && rs[|rs| - 1].Trap?
            && |rs| <= Slices(Monus(deadline, obs[0].now)) + 1
    decreases |obs|
  {
    var left := Monus(deadline, obs[0].now);
    var (r, budget') := Tick(budget, obs[0]);
    if r.Grant? {
      TimePassesTail(budget, obs);
      assert Slices(left) == Slices(Monus(left, SLICE)) + 1;
      SlicesMonotone(Monus(deadline, obs[1].now), Monus(left, SLICE));
      ShutdownIsPrompt(budget', obs[1..], deadline);
    }
  }

  lemma SlicesMonotone(a: nat, b: nat)
    requires a <= b
    ensures Slices(a) <= Slices(b)
  {
  }

  /** The clock advances by exactly what was granted. */
  ghost predicate TimeIsExact(budget: Option<nat>, obs: seq<Observation>) {
    forall i | 0 <= i < |Outcomes(budget, obs)| && i + 1 < |obs| && Outcomes(budget, obs)[i].Grant? ::
      obs[i].now + Outcomes(budget, obs)[i].ticks == obs[i + 1].now
  }

  lemma TimeIsExactTail(budget: Option<nat>, obs: seq<Observation>)
    requires obs != [] && TimeIsExact(budget, obs) && Tick(budget, obs[0]).0.Grant?
    ensures TimeIsExact(Tick(budget, obs[0]).1, obs[1..])
    ensures |obs| > 1 ==> obs[0].now + Tick(budget, obs[0]).0.ticks == obs[1].now
  {
    var rs, rest := Outcomes(budget, obs), Outcomes(Tick(budget, obs[0]).1, obs[1..]);
    assert rs == [Tick(budget, obs[0]).0] + rest;
    forall i | 0 <= i < |rest| && i + 1 < |obs[1..]| && rest[i].Grant?
      ensures obs[1..][i].now + rest[i].ticks == obs[1..][i + 1].now
    {
      assert rs[i + 1] == rest[i];
    }
  }

  /** A shutdown replaces what was left of the budget: a guest that runs through is
      granted the whole time to the deadline, no more and no less. */
  lemma {:induction false} ShutdownGrantsTimeLeft(budget: Option<nat>, obs: seq<Observation>, deadline: nat)
    requires AllRequested(obs, deadline) && TimeIsExact(budget, obs) && obs != []
    requires budget != Some(0) && |obs| > Slices(Monus(deadline, obs[0].now))
    ensures Granted(Outcomes(budget, obs)) == Monus(deadline, obs[0].now)
    decreases |obs|
  {
    var left := Monus(deadline, obs[0].now);
    var (r, budget') := Tick(budget, obs[0]);
    if r.Grant? {
      TimeIsExactTail(budget, obs);
      assert Slices(left) == Slices(Monus(left, SLICE)) + 1;
      assert Outcomes(budget, obs)[1..] == Outcomes(budget', obs[1..]);
      assert Monus(deadline, obs[1].now) == Monus(left, SLICE);
      if budget' != Some(0) {
        ShutdownGrantsTimeLeft(budget', obs[1..], deadline);
      } else {
        assert Outcomes(budget', obs[1..]) == [Trap(BudgetExhausted)];
        assert Granted([Trap(BudgetExhausted)]) == 0;
      }
    }
  }

  /** On any clock that keeps up with the grants, no more than that is granted. */
  lemma {:induction false} ShutdownGrantsNoMore(budget: Option<nat>, obs: seq<Observation>, deadline: nat)
    requires AfterRequest(obs, deadline) && TimePasses(budget, obs) && obs != []
    ensures Granted(Outcomes(budget, obs)) <= Monus(deadline, obs[0].now)
    decreases |obs|
  {
    var (r, budget') := Tick(budget, obs[0]);
    if r.Grant? {
      TimePassesTail(budget, obs);
      assert Outcomes(budget, obs)[1..] == Outcomes(budget', obs[1..]);
      if |obs| > 1 {
        ShutdownGrantsNoMore(budget', obs[1..], deadline);
      }
    }
  }

  /** n callbacks after the shutdown request, each as soon as its grant has run out. */
  function ExactClock(deadline: nat, now: nat, n: nat): (obs: seq<Observation>)
    ensures |obs| == n && (n > 0 ==> obs[0].now == now) && AllRequested(obs, deadline)
    decreases n
  {
    if n == 0 then []
    else [Observation(Requested(deadline), now)] + ExactClock(deadline, now + Min(SLICE, Monus(deadline, now)), n - 1)
  }

  lemma {:induction false} ExactClockIsExact(budget: Option<nat>, deadline: nat, now: nat, n: nat)
    ensures TimeIsExact(budget, ExactClock(deadline, now, n)) && TimePasses(budget, ExactClock(deadline, now, n))
    decreases n
  {
    var obs, rs := ExactClock(deadline, now, n), Outcomes(budget, ExactClock(deadline, now, n));
    if n > 0 {
      var (r, budget') := Tick(budget, obs[0]);
      var later := now + Min(SLICE, Monus(deadline, now));
      assert obs[1..] == ExactClock(deadline, later, n - 1);
      if r.Grant? {
        ExactClockIsExact(budget', deadline, later, n - 1);
        var rest := Outcomes(budget', obs[1..]);
        assert rs == [r] + rest;
        forall i | 0 <= i < |rs| && i + 1 < |obs| && rs[i].Grant? ensures obs[i].now + rs[i].ticks == obs[i + 1].now {
          if i > 0 {
            assert rs[i] == rest[i - 1] && obs[i] == obs[1..][i - 1] && obs[i + 1] == obs[1..][i];
          }
        }
      }
    }
  }

  /** So what is left of an execution budget when a shutdown is seen holds on every
      clock exactly when the deadline is no further away than that, or nothing is left. */
  lemma {:induction false} BudgetHoldsThroughShutdown(left: nat, now: nat, deadline: nat)
    ensures (forall obs: seq<Observation> | obs != [] && obs[0].now == now && AfterRequest(obs, deadline) && TimePasses(Some(left), obs) ::
               Granted(Outcomes(Some(left), obs)) <= left)
            <==> left == 0 || Monus(deadline, now) <= left
  {
    forall obs: seq<Observation> | obs != [] && obs[0].now == now && AfterRequest(obs, deadline) && TimePasses(Some(left), obs)
      ensures Granted(Outcomes(Some(left), obs)) <= Monus(deadline, now)
    {
      ShutdownGrantsNoMore(Some(left), obs, deadline);
    }
    var worst := ExactClock(deadline, now, Slices(Monus(deadline, now)) + 1);
    ExactClockIsExact(Some(left), deadline, now, |worst|);
    if left > 0 {
      ShutdownGrantsTimeLeft(Some(left), worst, deadline);
    }
  }

  /** With one tick of budget left and a deadline 150 ticks away, 150 are granted. */
  lemma {:induction false} BudgetCanBeExceeded()
    ensures Granted(Outcomes(Some(1), [Observation(Requested(150), 0), Observation(Requested(150), 100),
                                       Observation(Requested(150), 150)])) == 150
  {
    var obs := [Observation(Requested(150), 0), Observation(Requested(150), 100), Observation(Requested(150), 150)];
    assert obs[1..] == [obs[1], obs[2]] && obs[1..][1..] == [obs[2]];
    assert Outcomes(Some(0), [obs[2]]) == [Trap(BudgetExhausted)];
    assert Outcomes(Some(50), obs[1..]) == [Grant(50), Trap(BudgetExhausted)];
    assert Outcomes(Some(1), obs) == [Grant(100), Grant(50), Trap(BudgetExhausted)];
    assert Granted([Grant(50), Trap(BudgetExhausted)]) == 50;
    assert [Grant(100), Grant(50), Trap(BudgetExhausted)][1..] == [Grant(50), Trap(BudgetExhausted)];
  }
}
