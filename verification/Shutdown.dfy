/** Winding down the workload threads of a replaced engine state, once the state
    and its services have dropped their senders. Node k of the graph is a thread,
    an edge from h to k a sender to k's channel in h's linker. */
module Shutdown {
  import opened Graph
  import opened Manifest

  /** The live threads and the number of invocations queued for each. */
  datatype State = State(live: set<nat>, queue: seq<nat>)

  datatype Step =
    | Send(from: nat, to: nat)
    | Recv(thread: nat)
    | Exit(thread: nat)

  ghost predicate Valid(g: Digraph, cap: seq<nat>, s: State) {
    && Closed(g)
    && |cap| == |g| == |s.queue|
    && (forall k | k in s.live :: k < |g|)
    && (forall k | 0 <= k < |g| :: s.queue[k] <= cap[k])
  }

  /** No live thread holds a sender to k. */
  ghost predicate SendersGone(g: Digraph, s: State, k: nat) {
    forall h | h in s.live && h < |g| :: k !in g[h]
  }

  ghost predicate Enabled(g: Digraph, cap: seq<nat>, s: State, step: Step)
    requires Valid(g, cap, s)
  {
    match step
    case Send(from, to) => from in s.live && to in s.live && to in g[from] && s.queue[to] < cap[to]
    case Recv(k) => k in s.live && s.queue[k] > 0
    case Exit(k) => k in s.live && s.queue[k] == 0 && SendersGone(g, s, k)
  }

  ghost function Next(g: Digraph, cap: seq<nat>, s: State, step: Step): (s': State)
    requires Valid(g, cap, s) && Enabled(g, cap, s, step)
    ensures Valid(g, cap, s')
  {
    match step
    case Send(_, to) => s.(queue := s.queue[to := s.queue[to] + 1])
    case Recv(k) => s.(queue := s.queue[k := s.queue[k] - 1])
    case Exit(k) => s.(live := s.live - {k})
  }

  /** A step on a channel nobody can send to any more. */
  ghost predicate Drains(g: Digraph, s: State, step: Step) {
    match step
    case Send(_, _) => false
    case Recv(k) => SendersGone(g, s, k)
    case Exit(_) => true
  }

  ghost predicate IsRun(g: Digraph, cap: seq<nat>, s: State, steps: seq<Step>)
    requires Valid(g, cap, s)
    decreases |steps|
  {
    steps != [] ==> Enabled(g, cap, s, steps[0]) && IsRun(g, cap, Next(g, cap, s, steps[0]), steps[1..])
  }

  ghost function RunEnd(g: Digraph, cap: seq<nat>, s: State, steps: seq<Step>): (s': State)
    requires Valid(g, cap, s) && IsRun(g, cap, s, steps)
    ensures Valid(g, cap, s')
    decreases |steps|
  {
    if steps == [] then s else RunEnd(g, cap, Next(g, cap, s, steps[0]), steps[1..])
  }

  ghost function DrainSteps(g: Digraph, cap: seq<nat>, s: State, steps: seq<Step>): nat
    requires Valid(g, cap, s) && IsRun(g, cap, s, steps)
    decreases |steps|
  {
    if steps == [] then 0
    else
      (if Drains(g, s, steps[0]) then 1 else 0) + DrainSteps(g, cap, Next(g, cap, s, steps[0]), steps[1..])
  }

  // ---------------------------------------------------------------- progress

  ghost function Reverse(g: Digraph): (r: Digraph)
    ensures |r| == |g|
    ensures forall k, h: nat | 0 <= k < |g| :: h in r[k] <==> h < |g| && k in g[h]
  {
    seq(|g|, k requires 0 <= k < |g| => set h: nat | h < |g| && k in g[h])
  }

  lemma ReverseCycle(g: Digraph, c: seq<nat>)
    requires Closed(g) && IsCycle(Reverse(g), c)
    ensures IsCycle(g, seq(|c|, i requires 0 <= i < |c| => c[|c| - 1 - i]))
  {
    var d := seq(|c|, i requires 0 <= i < |c| => c[|c| - 1 - i]);
    forall k, m | 0 <= k && m == k + 1 < |d| ensures d[m] in g[d[k]] {
      assert c[|c| - 1 - k] in Reverse(g)[c[|c| - 1 - m]];
    }
  }

  lemma StuckSendersCycle(g: Digraph, live: set<nat>)
    requires Closed(g) && Stuck(Reverse(g), live)
    ensures !Acyclic(g)
  {
    StuckHasCycle(Reverse(g), live);
    var c :| IsCycle(Reverse(g), c);
    ReverseCycle(g, c);
  }

  /** With no import cycle, some live thread can no longer be sent to. */
  lemma SomeSendersGone(g: Digraph, cap: seq<nat>, s: State) returns (k: nat)
    requires Valid(g, cap, s) && Acyclic(g) && s.live != {}
    ensures k in s.live && SendersGone(g, s, k)
  {
    var rest := s.live;
    while rest != {}
      invariant rest <= s.live
      invariant forall i | i in s.live - rest :: LeadsInto(Reverse(g), i, s.live)
    {
      k :| k in rest;
      if SendersGone(g, s, k) {
        return;
      }
      HeldFromLive(g, cap, s, k);
      rest := rest - {k};
    }
    k :| k in s.live;
    StuckSendersCycle(g, s.live);
  }

  lemma HeldFromLive(g: Digraph, cap: seq<nat>, s: State, k: nat)
    requires Valid(g, cap, s) && k in s.live
    ensures SendersGone(g, s, k) || LeadsInto(Reverse(g), k, s.live)
  {
    if !SendersGone(g, s, k) {
      var h :| h in s.live && h < |g| && k in g[h];
      assert h in Reverse(g)[k];
    }
  }

  /** Shutdown is never deadlocked: while a thread lives, a draining step is enabled. */
  lemma DrainEnabled(g: Digraph, cap: seq<nat>, s: State) returns (step: Step)
    requires Valid(g, cap, s) && Acyclic(g) && s.live != {}
    ensures Enabled(g, cap, s, step) && Drains(g, s, step)
  {
    var k := SomeSendersGone(g, cap, s);
    step := if s.queue[k] == 0 then Exit(k) else Recv(k);
  }

  // ------------------------------------------------------------------- bound

  /** The draining steps thread k can still need. */
  ghost function Weight(g: Digraph, cap: seq<nat>, s: State, k: nat): nat
    requires Valid(g, cap, s) && k < |g|
  {
    if k !in s.live then 0 else if SendersGone(g, s, k) then s.queue[k] + 1 else cap[k] + 1
  }

  ghost function Potential(g: Digraph, cap: seq<nat>, s: State, n: nat): nat
    requires Valid(g, cap, s) && n <= |g|
  {
    if n == 0 then 0 else Potential(g, cap, s, n - 1) + Weight(g, cap, s, n - 1)
  }

  ghost function Capacity(cap: seq<nat>): nat {
    if cap == [] then 0 else Capacity(cap[..|cap| - 1]) + cap[|cap| - 1] + 1
  }

  lemma {:induction false} PotentialFalls(g: Digraph, cap: seq<nat>, s: State, s': State, n: nat, k: int)
    requires Valid(g, cap, s) && Valid(g, cap, s') && n <= |g| && k < |g|
    requires forall i: nat | i < |g| && i != k :: Weight(g, cap, s', i) <= Weight(g, cap, s, i)
    requires 0 <= k ==> Weight(g, cap, s', k) < Weight(g, cap, s, k)
    ensures Potential(g, cap, s', n) <= Potential(g, cap, s, n)
    ensures 0 <= k < n ==> Potential(g, cap, s', n) < Potential(g, cap, s, n)
  {
    if n > 0 {
      PotentialFalls(g, cap, s, s', n - 1, k);
    }
  }

  lemma StepPotential(g: Digraph, cap: seq<nat>, s: State, step: Step)
    requires Valid(g, cap, s) && Enabled(g, cap, s, step)
    ensures Potential(g, cap, Next(g, cap, s, step), |g|) + (if Drains(g, s, step) then 1 else 0) <= Potential(g, cap, s, |g|)
  {
    var s' := Next(g, cap, s, step);
    match step
    case Send(from, to) =>
      assert !SendersGone(g, s, to) && !SendersGone(g, s', to);
      PotentialFalls(g, cap, s, s', |g|, -1);
    case Recv(k) =>
      PotentialFalls(g, cap, s, s', |g|, if Drains(g, s, step) then k else -1);
    case Exit(k) =>
      assert forall i | SendersGone(g, s, i) :: SendersGone(g, s', i);
      PotentialFalls(g, cap, s, s', |g|, k);
  }

  lemma {:induction false} PotentialWithinCapacity(g: Digraph, cap: seq<nat>, s: State, n: nat)
    requires Valid(g, cap, s) && n <= |g|
    ensures Potential(g, cap, s, n) <= Capacity(cap[..n])
  {
    if n > 0 {
      PotentialWithinCapacity(g, cap, s, n - 1);
      assert cap[..n][..n - 1] == cap[..n - 1];
    }
  }

  /** However the threads are scheduled, at most one draining step for each thread
      and each queue place is ever taken. */
  lemma {:induction false} DrainStepsBounded(g: Digraph, cap: seq<nat>, s: State, steps: seq<Step>)
    requires Valid(g, cap, s) && IsRun(g, cap, s, steps)
    ensures Potential(g, cap, RunEnd(g, cap, s, steps), |g|) + DrainSteps(g, cap, s, steps) <= Potential(g, cap, s, |g|)
    ensures DrainSteps(g, cap, s, steps) <= Capacity(cap)
    decreases |steps|
  {
    PotentialWithinCapacity(g, cap, s, |g|);
    assert cap[..|g|] == cap;
    if steps != [] {
      StepPotential(g, cap, s, steps[0]);
      DrainStepsBounded(g, cap, Next(g, cap, s, steps[0]), steps[1..]);
    }
  }

  /** From every state of an acyclic system all threads can exit, by draining
      steps only, in no more of them than there are threads and queue places. */
  lemma {:induction false} AllCanExit(g: Digraph, cap: seq<nat>, s: State) returns (steps: seq<Step>)
    requires Valid(g, cap, s) && Acyclic(g)
    ensures IsRun(g, cap, s, steps) && RunEnd(g, cap, s, steps).live == {}
    ensures |steps| <= Capacity(cap)
    ensures DrainSteps(g, cap, s, steps) == |steps|
    decreases Potential(g, cap, s, |g|)
  {
    if s.live == {} {
      steps := [];
    } else {
      var step := DrainEnabled(g, cap, s);
      StepPotential(g, cap, s, step);
      var rest := AllCanExit(g, cap, Next(g, cap, s, step));
      steps := [step] + rest;
      assert steps[1..] == rest;
    }
    DrainStepsBounded(g, cap, s, steps);
  }

  /** Threads that hold senders to each other in a circle never exit. */
  lemma {:induction false} CycleNeverExits(g: Digraph, cap: seq<nat>, s: State, steps: seq<Step>, c: seq<nat>)
    requires Valid(g, cap, s) && IsRun(g, cap, s, steps)
    requires IsCycle(g, c) && forall k | 0 <= k < |c| :: c[k] in s.live
    ensures forall k | 0 <= k < |c| :: c[k] in RunEnd(g, cap, s, steps).live
    decreases |steps|
  {
    if steps != [] {
      var s' := Next(g, cap, s, steps[0]);
      forall k | 0 <= k < |c| ensures c[k] in s'.live {
        var before := if k > 0 then k - 1 else |c| - 2;
        var at := if k > 0 then k else |c| - 1;
        assert c[at] in g[c[before]];
        assert c[before] in s.live;
      }
      CycleNeverExits(g, cap, s', steps[1..], c);
    }
  }

  ghost predicate CanFinish(g: Digraph, cap: seq<nat>, s: State)
    requires Valid(g, cap, s)
  {
    exists steps :: IsRun(g, cap, s, steps) && RunEnd(g, cap, s, steps).live == {}
  }

  /** With every thread live, shutdown can finish exactly when nothing imports
      itself through others. */
  lemma FinishesIffAcyclic(g: Digraph, cap: seq<nat>, s: State)
    requires Valid(g, cap, s) && s.live == Nodes(|g|)
    ensures CanFinish(g, cap, s) <==> Acyclic(g)
  {
    if Acyclic(g) {
      var steps := AllCanExit(g, cap, s);
    } else {
      var c :| IsCycle(g, c);
      forall steps | IsRun(g, cap, s, steps) ensures RunEnd(g, cap, s, steps).live != {} {
        CycleNeverExits(g, cap, s, steps, c);
        assert c[0] in RunEnd(g, cap, s, steps).live;
      }
    }
  }

  // ------------------------------------------------------- what is left behind

  function Sent(steps: seq<Step>, k: nat): nat {
    if steps == [] then 0 else (if steps[0].Send? && steps[0].to == k then 1 else 0) + Sent(steps[1..], k)
  }

  function Received(steps: seq<Step>, k: nat): nat {
    if steps == [] then 0 else (if steps[0] == Recv(k) then 1 else 0) + Received(steps[1..], k)
  }

  /** Every invocation that was queued or sent is received or still queued; and a thread
      that has exited has received all of its own. */
  lemma {:induction false} NoInvocationLost(g: Digraph, cap: seq<nat>, s: State, steps: seq<Step>, k: nat)
    requires Valid(g, cap, s) && IsRun(g, cap, s, steps) && k < |g|
    ensures s.queue[k] + Sent(steps, k) == RunEnd(g, cap, s, steps).queue[k] + Received(steps, k)
    ensures k !in RunEnd(g, cap, s, steps).live && (k in s.live || s.queue[k] == 0) ==>
              RunEnd(g, cap, s, steps).queue[k] == 0
    decreases |steps|
  {
    if steps != [] {
      NoInvocationLost(g, cap, Next(g, cap, s, steps[0]), steps[1..], k);
    }
  }

  /** A live thread takes what is queued for it, whether or not more can come. */
  lemma QueuedIsTaken(g: Digraph, cap: seq<nat>, s: State, k: nat)
    requires Valid(g, cap, s) && k in s.live && s.queue[k] > 0
    ensures Enabled(g, cap, s, Recv(k)) && Next(g, cap, s, Recv(k)) == s.(queue := s.queue[k := s.queue[k] - 1])
  {
  }

  /** While threads h and k live, h can fill the channel of any k it imports. */
  lemma {:induction false} ImporterCanFill(g: Digraph, cap: seq<nat>, s: State, h: nat, k: nat) returns (steps: seq<Step>)
    requires Valid(g, cap, s) && h in s.live && k in s.live && k in g[h]
    ensures IsRun(g, cap, s, steps)
    ensures RunEnd(g, cap, s, steps) == s.(queue := s.queue[k := cap[k]])
    decreases cap[k] - s.queue[k]
  {
    if s.queue[k] == cap[k] {
      steps := [];
      assert s.queue[k := cap[k]] == s.queue;
    } else {
      var s' := Next(g, cap, s, Send(h, k));
      var rest := ImporterCanFill(g, cap, s', h, k);
      steps := [Send(h, k)] + rest;
      assert steps[1..] == rest;
      assert s'.queue[k := cap[k]] == s.queue[k := cap[k]];
    }
  }

  // ------------------------------------------- the threads of a real manifest

  /** The senders each started thread holds. */
  ghost function Held(threads: seq<Thread>): (g: Digraph)
    ensures |g| == |threads|
    ensures forall c: nat, d: nat | c < |threads| ::
              d in g[c] <==> exists k :: k in threads[c].linker && threads[c].linker[k] == ToChannel(d)
  {
    seq(|threads|, c requires 0 <= c < |threads| =>
      set k | k in threads[c].linker && threads[c].linker[k].ToChannel? :: threads[c].linker[k].channel)
  }

  /** The threads of an applied manifest can always be wound down. */
  lemma AppliedManifestWindsDown(ws: seq<WorkloadSpec>, plan: Plan, plugins: set<string>, engineMax: nat,
                                 cap: seq<nat>, s: State)
    returns (steps: seq<Step>)
    requires PlanOk(ws, plan, plugins, engineMax)
    requires |cap| == |plan.threads| && forall c | 0 <= c < |cap| :: cap[c] == plan.threads[c].maxInstances
    requires |s.queue| == |cap| && forall c | 0 <= c < |cap| :: s.queue[c] <= cap[c]
    requires forall k | k in s.live :: k < |cap|
    ensures Valid(Held(plan.threads), cap, s) && Acyclic(Held(plan.threads))
    ensures IsRun(Held(plan.threads), cap, s, steps) && RunEnd(Held(plan.threads), cap, s, steps).live == {}
    ensures |steps| <= Capacity(cap)
  {
    var g := Held(plan.threads);
    var rank := seq(|g|, c requires 0 <= c < |g| => c);
    forall c: nat, d | c < |g| && d in g[c] ensures d < c {
      assert ThreadOk(ws, plan.threads, c, plugins, engineMax);
    }
    RankedIsAcyclic(g, rank);
    steps := AllCanExit(g, cap, s);
  }
}
