/** The accept loop of a workload thread, its instance pool and the two semaphores:
    permits and stores over every interleaving of any number of calls. */
module Pool {
  import opened Wrappers
  import opened Handoff
  import Manifest

  /** Where the accept loop is between two invocations, and for which kind of call. */
  datatype Loop = Idle | HasInvocation(dynamic: bool) | HasPermit(dynamic: bool)

  datatype Workload = Workload(
    max: nat, poolSize: nat, free: nat, loop: Loop, pool: seq<Pooled>, calls: seq<Call>, nextStore: nat)

  datatype LoopAct =
    | Receive(dynamic: bool)
    | AcquireWorkload
    | Spawn(callerAlive: bool)

  datatype WorkloadAct = OfLoop(a: LoopAct) | OfCall(c: nat, act: Act)

  function RunningCount(calls: seq<Call>): nat {
    if calls == [] then 0
    else RunningCount(calls[..|calls| - 1]) + (if Running(calls[|calls| - 1]) then 1 else 0)
  }

  function LoopPermits(w: Workload): nat {
    if w.loop.HasPermit? then 1 else 0
  }

  predicate WEnabled(w: Workload, engineFree: nat, a: WorkloadAct) {
    match a
    case OfLoop(Receive(_)) => w.loop.Idle?
    case OfLoop(AcquireWorkload) => w.loop.HasInvocation? && w.free > 0
    case OfLoop(Spawn(_)) => w.loop.HasPermit? && engineFree > 0
    case OfCall(c, act) => c < |w.calls| && Enabled(w.calls[c], act)
  }

  /** `try_send` into the bounded pool: a full pool drops the instance and its store. */
  function TrySend(pool: seq<Pooled>, poolSize: nat, p: Option<Pooled>): seq<Pooled> {
    if p.Some? && |pool| < poolSize then pool + [p.value] else pool
  }

  /** The workload and the engine's free permits after a step. */
  function WNext(w: Workload, engineFree: nat, a: WorkloadAct): (Workload, nat)
    requires WEnabled(w, engineFree, a)
  {
    match a
    case OfLoop(Receive(dynamic)) => (w.(loop := HasInvocation(dynamic)), engineFree)
    case OfLoop(AcquireWorkload) => (w.(loop := HasPermit(w.loop.dynamic), free := w.free - 1), engineFree)
    case OfLoop(Spawn(alive)) =>
      var dynamic := w.loop.dynamic;
      if w.pool != [] then
        var p := w.pool[0];
        var call := NewCall(dynamic, alive, Start(dynamic, p.store, p.instance), p.store);
        (w.(loop := Idle, pool := w.pool[1..], calls := w.calls + [call]), engineFree - 1)
      else
        var call := NewCall(dynamic, alive, Instantiating(w.nextStore), w.nextStore);
        (w.(loop := Idle, calls := w.calls + [call], nextStore := w.nextStore + 1), engineFree - 1)
    case OfCall(c, act) =>
      var (call, pooled) := Handoff.Next(w.calls[c], act);
      var done := Running(w.calls[c]) && !Running(call);
      (w.(calls := w.calls[c := call], pool := TrySend(w.pool, w.poolSize, pooled), free := if done then w.free + 1 else w.free),
       if done then engineFree + 1 else engineFree)
  }

  // --------------------------------------------------------------- invariant

  ghost predicate StoresOk(w: Workload) {
    && (forall c | 0 <= c < |w.calls| :: CallOk(w.calls[c]) && w.calls[c].sid < w.nextStore)
    && (forall k | 0 <= k < |w.pool| :: w.pool[k].instance == Instance(w.pool[k].store) && w.pool[k].store < w.nextStore)
    && (forall j, k | 0 <= j < k < |w.pool| :: w.pool[j].store != w.pool[k].store)
    && (forall c, d | 0 <= c < d < |w.calls| && Holders(w.calls[c]) == 1 && Holders(w.calls[d]) == 1 ::
          w.calls[c].sid != w.calls[d].sid)
    && (forall c, k | 0 <= c < |w.calls| && 0 <= k < |w.pool| && Holders(w.calls[c]) == 1 ::
          w.calls[c].sid != w.pool[k].store)
  }

  /** What every reachable state of a workload satisfies. */
  ghost predicate Inv(w: Workload) {
    && StoresOk(w)
    && |w.pool| <= w.poolSize <= w.max
    && w.free + RunningCount(w.calls) + LoopPermits(w) == w.max
  }

  function InitWorkload(max: nat, poolSize: nat): Workload {
    Workload(max, poolSize, max, Idle, [], [], 0)
  }

  lemma {:induction false} RunningCountUpdate(calls: seq<Call>, c: nat, call: Call)
    requires c < |calls|
    ensures RunningCount(calls[c := call]) + (if Running(calls[c]) then 1 else 0)
            == RunningCount(calls) + (if Running(call) then 1 else 0)
  {
    var n := |calls| - 1;
    if c == n {
      assert calls[c := call][..n] == calls[..n];
    } else {
      RunningCountUpdate(calls[..n], c, call);
      assert calls[c := call][..n] == calls[..n][c := call];
    }
  }

  lemma RunningCountSnoc(calls: seq<Call>, call: Call)
    ensures RunningCount(calls + [call]) == RunningCount(calls) + (if Running(call) then 1 else 0)
  {
    assert (calls + [call])[..|calls|] == calls;
  }

  /** Taking a pooled instance moves its store from the pool to the new call. */
  lemma ReuseKeepsStores(w: Workload, call: Call)
    requires StoresOk(w) && w.pool != []
    requires CallOk(call) && Holders(call) == 1 && call.sid == w.pool[0].store
    ensures StoresOk(w.(loop := Idle, pool := w.pool[1..], calls := w.calls + [call]))
  {
    var pool, calls := w.pool[1..], w.calls + [call];
    assert forall k | 0 <= k < |pool| :: pool[k] == w.pool[k + 1];
    assert forall c | 0 <= c < |w.calls| :: calls[c] == w.calls[c];
  }

  /** A new instance comes with a store that nobody has. */
  lemma FreshKeepsStores(w: Workload, call: Call)
    requires StoresOk(w) && CallOk(call) && Holders(call) == 1 && call.sid == w.nextStore
    ensures StoresOk(w.(loop := Idle, calls := w.calls + [call], nextStore := w.nextStore + 1))
  {
    var calls := w.calls + [call];
    assert forall c | 0 <= c < |w.calls| :: calls[c] == w.calls[c];
  }

  lemma SpawnKeepsStores(w: Workload, engineFree: nat, alive: bool)
    requires StoresOk(w) && WEnabled(w, engineFree, OfLoop(Spawn(alive)))
    ensures StoresOk(WNext(w, engineFree, OfLoop(Spawn(alive))).0)
  {
    var dynamic := w.loop.dynamic;
    if w.pool != [] {
      var p := w.pool[0];
      ReuseKeepsStores(w, NewCall(dynamic, alive, Start(dynamic, p.store, p.instance), p.store));
    } else {
      FreshKeepsStores(w, NewCall(dynamic, alive, Instantiating(w.nextStore), w.nextStore));
    }
  }

  lemma CallStepKeepsStores(w: Workload, engineFree: nat, c: nat, act: Act)
    requires StoresOk(w) && WEnabled(w, engineFree, OfCall(c, act))
    ensures StoresOk(WNext(w, engineFree, OfCall(c, act)).0)
  {
    StepKeepsCallOk(w.calls[c], act);
  }

  lemma SpawnKeepsInv(w: Workload, engineFree: nat, alive: bool)
    requires Inv(w) && WEnabled(w, engineFree, OfLoop(Spawn(alive)))
    ensures var (w', free') := WNext(w, engineFree, OfLoop(Spawn(alive)));
            && Inv(w')
            && free' + RunningCount(w'.calls) == engineFree + RunningCount(w.calls)
  {
    SpawnKeepsStores(w, engineFree, alive);
    var w' := WNext(w, engineFree, OfLoop(Spawn(alive))).0;
    RunningCountSnoc(w.calls, w'.calls[|w.calls|]);
    assert w'.calls == w.calls + [w'.calls[|w.calls|]];
  }

  lemma CallStepKeepsInv(w: Workload, engineFree: nat, c: nat, act: Act)
    requires Inv(w) && WEnabled(w, engineFree, OfCall(c, act))
    ensures var (w', free') := WNext(w, engineFree, OfCall(c, act));
            && Inv(w')
            && free' + RunningCount(w'.calls) == engineFree + RunningCount(w.calls)
  {
    CallStepKeepsStores(w, engineFree, c, act);
    StepLowersRank(w.calls[c], act);
    RunningCountUpdate(w.calls, c, Handoff.Next(w.calls[c], act).0);
  }

  /** Every step of the loop or of a call keeps the invariant and moves engine
      permits only as the number of running tasks changes. */
  lemma StepKeepsInv(w: Workload, engineFree: nat, a: WorkloadAct)
    requires Inv(w) && WEnabled(w, engineFree, a)
    ensures var (w', free') := WNext(w, engineFree, a);
            && Inv(w')
            && w'.max == w.max && w'.poolSize == w.poolSize
            && free' + RunningCount(w'.calls) == engineFree + RunningCount(w.calls)
  {
    match a
    case OfLoop(Spawn(alive)) => SpawnKeepsInv(w, engineFree, alive);
    case OfCall(c, act) => CallStepKeepsInv(w, engineFree, c, act);
    case _ =>
  }

  // --------------------------------------------------------------- ownership

  /** Everything that can own a store. */
  datatype Owner = InPool(k: nat) | OfCallAt(c: nat, p: Place)

  predicate Owns(w: Workload, o: Owner, s: nat) {
    match o
    case InPool(k) => k < |w.pool| && w.pool[k].store == s
    case OfCallAt(c, p) => c < |w.calls| && Held(w.calls[c], p) == Some(s)
  }

  /** A store has one owner. */
  lemma OneOwner(w: Workload, s: nat, o1: Owner, o2: Owner)
    requires Inv(w) && Owns(w, o1, s) && Owns(w, o2, s)
    ensures o1 == o2
  {
    match (o1, o2)
    case (OfCallAt(c, p), OfCallAt(d, q)) =>
      OnePlace(w.calls[c], p, p);
      OnePlace(w.calls[d], q, q);
      if c == d {
        OnePlace(w.calls[c], p, q);
      }
    case (OfCallAt(c, p), InPool(_)) =>
      OnePlace(w.calls[c], p, p);
    case (InPool(_), OfCallAt(d, q)) =>
      OnePlace(w.calls[d], q, q);
    case (InPool(_), InPool(_)) =>
  }

  // ------------------------------------------------------------------ engine

  /** The engine: one semaphore shared by all workloads and by the services, each of
      which keeps one permit for as long as it runs. */
  datatype Engine = Engine(max: nat, free: nat, services: nat, workloads: seq<Workload>)

  datatype EngineAct = ServiceStarts | ServiceEnds | InWorkload(i: nat, a: WorkloadAct)

  predicate EEnabled(e: Engine, a: EngineAct) {
    match a
    case ServiceStarts => e.free > 0
    case ServiceEnds => e.services > 0
    case InWorkload(i, b) => i < |e.workloads| && WEnabled(e.workloads[i], e.free, b)
  }

  function ENext(e: Engine, a: EngineAct): Engine
    requires EEnabled(e, a)
  {
    match a
    case ServiceStarts => e.(free := e.free - 1, services := e.services + 1)
    case ServiceEnds => e.(free := e.free + 1, services := e.services - 1)
    case InWorkload(i, b) =>
      var (w, free) := WNext(e.workloads[i], e.free, b);
      e.(free := free, workloads := e.workloads[i := w])
  }

  function TasksOf(ws: seq<Workload>): nat {
    if ws == [] then 0 else TasksOf(ws[..|ws| - 1]) + RunningCount(ws[|ws| - 1].calls)
  }

  ghost predicate EngineInv(e: Engine) {
    && (forall i | 0 <= i < |e.workloads| :: Inv(e.workloads[i]))
    && e.free + e.services + TasksOf(e.workloads) == e.max
  }

  lemma {:induction false} TasksUpdate(ws: seq<Workload>, i: nat, w: Workload)
    requires i < |ws|
    ensures TasksOf(ws[i := w]) + RunningCount(ws[i].calls) == TasksOf(ws) + RunningCount(w.calls)
  {
    var n := |ws| - 1;
    if i == n {
      assert ws[i := w][..n] == ws[..n];
    } else {
      TasksUpdate(ws[..n], i, w);
      assert ws[i := w][..n] == ws[..n][i := w];
    }
  }

  lemma EngineStepKeepsInv(e: Engine, a: EngineAct)
    requires EngineInv(e) && EEnabled(e, a)
    ensures EngineInv(ENext(e, a)) && ENext(e, a).max == e.max
  {
    if a.InWorkload? {
      StepKeepsInv(e.workloads[a.i], e.free, a.a);
      TasksUpdate(e.workloads, a.i, WNext(e.workloads[a.i], e.free, a.a).0);
    }
  }

  ghost predicate IsRun(e: Engine, run: seq<EngineAct>)
    decreases |run|
  {
    run != [] ==> EEnabled(e, run[0]) && IsRun(ENext(e, run[0]), run[1..])
  }

  ghost function RunEnd(e: Engine, run: seq<EngineAct>): Engine
    requires IsRun(e, run)
    decreases |run|
  {
    if run == [] then e else RunEnd(ENext(e, run[0]), run[1..])
  }

  lemma {:induction false} RunKeepsInv(e: Engine, run: seq<EngineAct>)
    requires EngineInv(e) && IsRun(e, run)
    ensures EngineInv(RunEnd(e, run)) && RunEnd(e, run).max == e.max
    decreases |run|
  {
    if run != [] {
      EngineStepKeepsInv(e, run[0]);
      RunKeepsInv(ENext(e, run[0]), run[1..]);
    }
  }

  /** An engine as it starts: no tasks, empty pools no larger than their workloads. */
  predicate Initial(e: Engine) {
    && e.free == e.max && e.services == 0
    && forall i | 0 <= i < |e.workloads| ::
         && e.workloads[i] == InitWorkload(e.workloads[i].max, e.workloads[i].poolSize)
         && e.workloads[i].poolSize <= e.workloads[i].max
  }

  lemma {:induction false} InitialInv(e: Engine, n: nat)
    requires Initial(e) && n <= |e.workloads|
    ensures TasksOf(e.workloads[..n]) == 0
    ensures n == |e.workloads| ==> EngineInv(e)
  {
    if n > 0 {
      InitialInv(e, n - 1);
      assert e.workloads[..n][..n - 1] == e.workloads[..n - 1];
    }
    if n == |e.workloads| {
      assert e.workloads[..n] == e.workloads;
    }
  }

  /** In every interleaving from the start: no store has two owners, pooled instances
      sit with the store they were created in, pools stay within their size, and both
      kinds of permit are conserved. */
  lemma EveryRunIsSafe(e: Engine, run: seq<EngineAct>, i: nat)
    requires Initial(e) && IsRun(e, run) && i < |RunEnd(e, run).workloads|
    ensures var e', w := RunEnd(e, run), RunEnd(e, run).workloads[i];
            && (forall s, o1, o2 | Owns(w, o1, s) && Owns(w, o2, s) :: o1 == o2)
            && (forall k | 0 <= k < |w.pool| :: w.pool[k].instance == Instance(w.pool[k].store))
            && |w.pool| <= w.poolSize <= w.max
            && w.free + RunningCount(w.calls) + LoopPermits(w) == w.max
            && e'.free + e'.services + TasksOf(e'.workloads) == e.max
  {
    InitialInv(e, |e.workloads|);
    RunKeepsInv(e, run);
    var w := RunEnd(e, run).workloads[i];
    forall s, o1, o2 | Owns(w, o1, s) && Owns(w, o2, s) ensures o1 == o2 {
      OneOwner(w, s, o1, o2);
    }
  }

  /** The engine that runs the threads of a plan. */
  function Deployed(plan: Manifest.Plan, engineMax: nat): Engine {
    Engine(engineMax, engineMax, 0,
           seq(|plan.threads|, c requires 0 <= c < |plan.threads| =>
             InitWorkload(plan.threads[c].maxInstances, plan.threads[c].poolSize)))
  }

  /** So every run of a deployed manifest is safe, and each of its workloads keeps within
      its own configured sizes. */
  lemma DeployedIsSafe(ws: seq<Manifest.WorkloadSpec>, plan: Manifest.Plan, plugins: set<string>, engineMax: nat,
                       run: seq<EngineAct>, c: nat)
    requires Manifest.PlanOk(ws, plan, plugins, engineMax) && c < |plan.threads|
    requires IsRun(Deployed(plan, engineMax), run)
    ensures Initial(Deployed(plan, engineMax))
    ensures var e, spec := RunEnd(Deployed(plan, engineMax), run), ws[plan.threads[c].index];
            && c < |e.workloads|
            && var w := e.workloads[c];
               && w.max == plan.threads[c].maxInstances && w.poolSize == plan.threads[c].poolSize
               && (forall s, o1, o2 | Owns(w, o1, s) && Owns(w, o2, s) :: o1 == o2)
               && |w.pool| <= spec.pool
               && |w.pool| <= w.max && RunningCount(w.calls) <= w.max <= engineMax
               && (spec.limit.Some? ==> RunningCount(w.calls) <= spec.limit.value)
               && e.free + e.services + TasksOf(e.workloads) == engineMax
  {
    var start := Deployed(plan, engineMax);
    forall i | 0 <= i < |plan.threads|
      ensures plan.threads[i].poolSize <= plan.threads[i].maxInstances
    {
      Manifest.SizesWithinLimits(ws, plan, plugins, engineMax, i);
    }
    Manifest.SizesWithinLimits(ws, plan, plugins, engineMax, c);
    SizesStay(start, run, c);
    EveryRunIsSafe(start, run, c);
  }

  lemma {:induction false} SizesStay(e: Engine, run: seq<EngineAct>, c: nat)
    requires IsRun(e, run) && c < |e.workloads|
    ensures |RunEnd(e, run).workloads| == |e.workloads|
    ensures RunEnd(e, run).workloads[c].max == e.workloads[c].max
    ensures RunEnd(e, run).workloads[c].poolSize == e.workloads[c].poolSize
    decreases |run|
  {
    if run != [] {
      SizesStay(ENext(e, run[0]), run[1..], c);
    }
  }

  // ------------------------------------------------------------------- reuse

  /** With permits free, an idle loop takes an invocation of either kind all the way to a
      running call, for a caller that is still there or is not. */
  lemma AcceptsInvocation(w: Workload, engineFree: nat, dynamic: bool, alive: bool)
    requires w.loop.Idle? && w.free > 0 && engineFree > 0
    ensures var run := [OfLoop(Receive(dynamic)), OfLoop(AcquireWorkload), OfLoop(Spawn(alive))];
            && IsWRun(w, engineFree, run)
            && var (w', free') := WRunEnd(w, engineFree, run);
               && free' == engineFree - 1 && w'.free == w.free - 1 && w'.loop.Idle?
               && |w'.calls| == |w.calls| + 1 && w'.calls[..|w.calls|] == w.calls
               && var call := w'.calls[|w.calls|];
                  && call.dynamic == dynamic && Running(call)
                  && call.caller == (if dynamic && alive then AwaitOffer else Returned(false))
                  && call.offer.None? && call.invocation.None? && call.reply.None? && call.handback.None?
                  && Held(call, AtCallee) == Some(call.sid)
  {
    var run := [OfLoop(Receive(dynamic)), OfLoop(AcquireWorkload), OfLoop(Spawn(alive))];
    var (w1, f1) := WNext(w, engineFree, run[0]);
    var (w2, f2) := WNext(w1, f1, run[1]);
    var (w3, f3) := WNext(w2, f2, run[2]);
    assert run[1..] == [OfLoop(AcquireWorkload), OfLoop(Spawn(alive))] && run[1..][1..] == [OfLoop(Spawn(alive))];
    assert IsWRun(w2, f2, run[1..][1..]) && WRunEnd(w2, f2, run[1..][1..]) == (w3, f3);
    assert IsWRun(w1, f1, run[1..]) && WRunEnd(w1, f1, run[1..]) == (w3, f3);
  }

  /** A new call runs on the instance that has been in the pool longest, and only if
      there is none on a new store. */
  lemma SpawnReuses(w: Workload, engineFree: nat, alive: bool)
    requires StoresOk(w) && WEnabled(w, engineFree, OfLoop(Spawn(alive)))
    ensures var w' := WNext(w, engineFree, OfLoop(Spawn(alive))).0;
            && |w'.calls| == |w.calls| + 1
            && var call := w'.calls[|w.calls|];
               if w.pool != [] then
                 && w.pool == [Pooled(Instance(call.sid), call.sid)] + w'.pool && w'.nextStore == w.nextStore
                 && call.callee == (if w.loop.dynamic then Offering(call.sid, Some(Instance(call.sid)))
                                    else Serving(call.sid, Some(Instance(call.sid))))
               else
                 && w'.pool == [] && call.callee == Instantiating(call.sid)
                 && (forall c | 0 <= c < |w.calls| :: w.calls[c].sid != call.sid)
  {
    if w.pool != [] {
      assert w.pool == [w.pool[0]] + w.pool[1..];
    }
  }

  /** A service takes one of the engine's permits for as long as it runs. */
  lemma ServiceHoldsPermit(e: Engine)
    requires e.free > 0
    ensures ENext(e, ServiceStarts) == e.(free := e.free - 1, services := e.services + 1)
    ensures ENext(ENext(e, ServiceStarts), ServiceEnds) == e
  {
  }

  /** What a call offers is the last entry of the pool from then on, if there is room,
      and dropped if there is not; nothing else a call does touches the pool. */
  lemma OfferedIsPooled(w: Workload, engineFree: nat, c: nat, act: Act)
    requires Inv(w) && WEnabled(w, engineFree, OfCall(c, act))
    ensures var w', offered := WNext(w, engineFree, OfCall(c, act)).0, Handoff.Next(w.calls[c], act).1;
            && w'.calls == w.calls[c := Handoff.Next(w.calls[c], act).0]
            && (offered.Some? && |w.pool| < w.poolSize ==>
                  w'.pool == w.pool + [Pooled(Instance(w.calls[c].sid), w.calls[c].sid)])
            && (offered.None? || |w.pool| == w.poolSize ==> w'.pool == w.pool)
  {
    StepKeepsCallOk(w.calls[c], act);
  }

  // --------------------------------------------------------------- exhaustion

  ghost function TotalRank(calls: seq<Call>): nat {
    if calls == [] then 0 else TotalRank(calls[..|calls| - 1]) + Rank(calls[|calls| - 1])
  }

  lemma {:induction false} TotalRankUpdate(calls: seq<Call>, c: nat, call: Call)
    requires c < |calls|
    ensures TotalRank(calls[c := call]) + Rank(calls[c]) == TotalRank(calls) + Rank(call)
  {
    var n := |calls| - 1;
    if c == n {
      assert calls[c := call][..n] == calls[..n];
    } else {
      TotalRankUpdate(calls[..n], c, call);
      assert calls[c := call][..n] == calls[..n][c := call];
    }
  }

  lemma {:induction false} NoneRunning(calls: seq<Call>)
    requires forall c | 0 <= c < |calls| :: !Running(calls[c])
    ensures RunningCount(calls) == 0
  {
    if calls != [] {
      NoneRunning(calls[..|calls| - 1]);
    }
  }

  ghost predicate IsWRun(w: Workload, engineFree: nat, run: seq<WorkloadAct>)
    decreases |run|
  {
    run != [] ==>
      WEnabled(w, engineFree, run[0]) &&
      var (w', free') := WNext(w, engineFree, run[0]);
      IsWRun(w', free', run[1..])
  }

  ghost function WRunEnd(w: Workload, engineFree: nat, run: seq<WorkloadAct>): (Workload, nat)
    requires IsWRun(w, engineFree, run)
    decreases |run|
  {
    if run == [] then (w, engineFree)
    else var (w', free') := WNext(w, engineFree, run[0]); WRunEnd(w', free', run[1..])
  }

  /** While the loop accepts nothing new, the calls under way finish by themselves,
      with no drop or abort, and every permit they hold comes back. */
  lemma {:induction false} CallsFinish(w: Workload, engineFree: nat) returns (run: seq<WorkloadAct>)
    requires Inv(w)
    ensures IsWRun(w, engineFree, run)
    ensures forall a | a in run :: a.OfCall? && !a.act.CallerDrops? && !a.act.CalleeAborts?
    ensures var (w', free') := WRunEnd(w, engineFree, run);
            && w'.free + LoopPermits(w) == w.max
            && free' == engineFree + RunningCount(w.calls)
            && forall c | 0 <= c < |w'.calls| :: Over(w'.calls[c])
    decreases TotalRank(w.calls)
  {
    if c: nat :| c < |w.calls| && !Over(w.calls[c]) {
      CallProgress(w.calls[c]);
      var act :| Enabled(w.calls[c], act) && !act.CallerDrops? && !act.CalleeAborts?;
      var a := OfCall(c, act);
      StepKeepsInv(w, engineFree, a);
      StepLowersRank(w.calls[c], act);
      TotalRankUpdate(w.calls, c, Handoff.Next(w.calls[c], act).0);
      var (w', free') := WNext(w, engineFree, a);
      var rest := CallsFinish(w', free');
      run := [a] + rest;
      assert run[1..] == rest;
    } else {
      run := [];
      NoneRunning(w.calls);
    }
  }
}
