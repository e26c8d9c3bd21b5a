# Verified model of the wasmlet engine

wasmlet hosts WebAssembly components. A manifest names workloads, services and
plugins; each workload runs in a thread of its own, and components import each
other's instances through channels. This project models the parts of the engine
whose correctness rests on the engine's own code, and proves what those parts are
for. `dafny verify dfyconfig.toml` checks all of it.

| file | about |
|---|---|
| `Graph.dfy`, `Names.dfy` | cycles, paths and pigeonhole; sorted name tables and binary search |
| `Manifest.dfy`, `Engine.dfy` | import resolution over many rounds; applying a manifest to a running engine |
| `Shutdown.dfy` | winding down the threads of a replaced engine state |
| `Transfer.dfy`, `TransferLaws.dfy` | moving values and resources between two stores |
| `Handoff.dfy`, `HandoffRuns.dfy`, `Pool.dfy` | the call protocol that lends a store to a caller; what comes of calls; pools and permits |
| `Epoch.dfy`, `Polling.dfy` | execution budgets, shutdown deadlines, polling |
| `OutgoingBody.dfy`, `HttpHost.dfy` | the guest's side of a response body |
| `BodyFlow.dfy`, `Streams.dfy`, `ContentLength.dfy` | flow control, byte budgets, declared lengths |
| `Delivery.dfy`, `DeliveryLaws.dfy`, `DeliveryRuns.dfy` | bodies, streams and channels together, from the guest's writes to what a connection receives |
| `Tcp.dfy` | the TCP socket state machine |
| `Wrappers.dfy`, `Numbers.dfy`, `Tables.dfy` | options, results, arithmetic, resource tables |

Where the source updates fields or arrays in place, so does the model: the slots of
a manifest's workloads are an array, and stores, sockets, timers, bodies, streams and
the engine state are classes. Each of their methods is proved equal to a function of
the old state; the laws are lemmas about that function, over all inputs and all runs.
A concurrent protocol (a call between workloads, an engine with its pools, a body's
channel, a shutdown) is a set of steps, and its properties hold in every interleaving.

## What is proved

* **Resolution** succeeds exactly when nothing a workload uses is missing or refused
  and the graph of effective imports has no cycle. A round that changes nothing is
  turned into a cycle by pigeonhole; a workload in a cycle is never started; each
  round's list is the last one or shorter, and the number of rounds is bounded by an
  import chain. The two corruption checks, the `Taken` arm of later rounds and the
  check for unresolved service imports never fire. On an error the running state is
  unchanged.
* **Shutdown** does not deadlock: some live thread has no sender left as long as any
  thread lives. It can finish if and only if the graph is acyclic, and every resolved
  manifest's is.
* **Transfer**: lifting and lowering back is the identity on every value, up to the
  index of host resources, and restores the caller's table. Success is characterised
  exactly. Host resources are neither lost nor doubled, on failure part-way either,
  unless the handle at which it fails is owned and of another type than its entry, a
  host resource: then exactly that resource is lost (`TransferLaws.MistypedHandleLoses`).
* **Stores** have one owner in every interleaving, whoever drops out at whatever
  message; pools hold instances with their own stores; permits are conserved. A call
  without faults succeeds exactly if its instance was made and its function did well, and
  the pool is offered the instance, once, exactly if it was made.
* **Budgets** of execution time are granted exactly while no shutdown is seen. After
  one is seen the deadline replaces the budget, so a guest can then be granted more
  than its budget. `Epoch.BudgetCanBeExceeded` is such a run, and
  `Epoch.BudgetHoldsThroughShutdown` says exactly when the budget still holds.
* **Bodies**: no run of guest calls reaches a bail about a dropped, finished,
  corrupted or already set body, although `set` does leave dead bodies corrupted.
  Writing before or after `set` comes to the same. Free permits, permits held by a
  waiting write and queued bytes add up to 65535. A successful `check_write` permits
  one write whatever the connection does in between. In any run of a guest and its
  connections, each response carries exactly the bytes that the streams of its own body
  accepted, in order, and ends with the trailers that were given to that body.
* **Sockets**: the buffered connection and the system's queue behave as one queue, a
  socket changes state at most five times, and streams are given out at most once.

## Model

| member | source | states |
|---|---|---|
| Names.BinarySearch | crates/wasmlet/src/engine/mod.rs:373-375 | an index returned holds the target name, and no index is returned only if the name is in no position |
| Names.FirstDifferenceDecides | crates/wasmlet/src/engine/mod.rs:373-375 | names are compared by their first difference, and come after their prefixes |
| Graph.StuckHasCycle | crates/wasmlet/src/engine/mod.rs:1079-1082 | a set of nodes each of which has an edge into the set contains a cycle; why an unchanged round is reported as one |
| Graph.CycleIsStuck | crates/wasmlet/src/engine/mod.rs:1079-1082 | conversely, the nodes of a cycle are such a set |
| Graph.AcyclicPathBound | crates/wasmlet/src/engine/mod.rs:1021-1084 | without cycles no path visits more nodes than there are, which bounds the rounds |
| Manifest.ResolveImports | crates/wasmlet/src/engine/mod.rs:347-417 | used imports are split, each once, between the linker (bound to the configured plugin or to the target's channel) and a pending list of targets not yet started; unused ones are skipped; an error names the import that causes it: its missing target or plugin, its failed link, or a target whose slot is taken |
| Manifest.ResumeImports | crates/wasmlet/src/engine/mod.rs:1031-1064 | the same split after a later round; what stays pending was pending and still waits for an unstarted target |
| Manifest.Instantiate | crates/wasmlet/src/engine/mod.rs:684-738 | the started thread is added last, with its linker and sizes, and only when the component can be instantiated |
| Manifest.Settle | crates/wasmlet/src/engine/mod.rs:1065-1077 | a workload with pending imports is stored as unresolved, one without is started; only its own slot changes and every invariant is kept |
| Manifest.ResolveOne | crates/wasmlet/src/engine/mod.rs:993-1019 | the first pass over one workload keeps the invariants; the corrupted-list arm is not taken; a cycle is reported only for a workload that imports itself |
| Manifest.FirstRound | crates/wasmlet/src/engine/mod.rs:992-1020 | after the first pass the pending list names exactly the unresolved slots, each of which starts an import chain of two |
| Manifest.ResumeOne | crates/wasmlet/src/engine/mod.rs:1023-1077 | a later pass over one workload; one that stays unresolved imports an unresolved workload; neither the corrupted arm nor the taken arm is reached |
| Manifest.RoundStep | crates/wasmlet/src/engine/mod.rs:1023-1077 | one step of a round keeps the invariants and the account of what stays pending |
| Manifest.Round | crates/wasmlet/src/engine/mod.rs:1021-1084 | the next pending list is the last one or shorter, and each member still imports a member of the last list |
| Manifest.StuckRoundIsCycle | crates/wasmlet/src/engine/mod.rs:1079-1082 | a non-empty list each member of which still imports a member means the import graph has a cycle |
| Manifest.ResolveWorkloads | crates/wasmlet/src/engine/mod.rs:930-1084 | succeeds if and only if all that is used is present and linkable and the effective import graph is acyclic; an error is a cycle there is, or names a workload or import that causes it, and is never a corrupted one; the later rounds are fewer than the workloads and one less than the length of some import chain |
| Manifest.ErrorExcludesSuccess | crates/wasmlet/src/engine/mod.rs:992-1084 | each reported error contradicts the condition for success |
| Manifest.BlameMeansNotFine | crates/wasmlet/src/engine/mod.rs:373-413 | a named import or workload really stands in the way |
| Manifest.ImportsStartFirst | crates/wasmlet/src/engine/mod.rs:377-397 | at any point of resolution a started workload's imports were started before it and it holds their channels |
| Manifest.CycleNeverStarts | crates/wasmlet/src/engine/mod.rs:992-1084 | at no point of any resolution has a workload on a cycle been started |
| Manifest.PlanMeansFine | crates/wasmlet/src/engine/mod.rs:1021-1084 | when every slot is resolved the manifest was complete and its graph acyclic |
| Manifest.PlanImportFine | crates/wasmlet/src/engine/mod.rs:361-413 | a started workload was instantiable, and each import it uses could be linked to a target that exists |
| Manifest.BoundAsConfigured | crates/wasmlet/src/engine/mod.rs:369-411 | exactly the used imports are bound, each to its plugin or to the channel of the workload its target names |
| Manifest.OneThreadPerName | crates/wasmlet/src/engine/mod.rs:726-732 | every name of the manifest has exactly one thread and no other thread exists |
| Manifest.SizesWithinLimits | crates/wasmlet/src/engine/mod.rs:972-987 | each thread's instance limit is the smaller of its own, if it has one, and the engine's, and its pool the smaller of its own and that limit |
| Engine.ResolveServices | crates/wasmlet/src/engine/mod.rs:1085-1116 | succeeds if and only if every service's imports are present and linkable and it can be instantiated; an error names a service or import that causes it; its check for unresolved imports never fires |
| Engine.BoundImportsFine | crates/wasmlet/src/engine/mod.rs:1096-1108 | fully bound imports were all present and linkable |
| Engine.EngineState.ApplyManifest | crates/wasmlet/src/engine/mod.rs:908-1145 | succeeds if and only if the manifest is applicable; on an error state and shutdown channel are unchanged; on success the old channel carries the deadline, the old threads are retired, and the new state has exactly one thread for each name, bound as configured |
| Engine.ByWorkload | crates/wasmlet/src/engine/mod.rs:726-732 | the state's map has exactly the manifest's names, each with the thread of its slot |
| Engine.ByService | crates/wasmlet/src/engine/mod.rs:897-904 | the same for services |
| Shutdown.SomeSendersGone | crates/wasmlet/src/engine/mod.rs:1122-1142 | with an acyclic graph some live thread's channel has no sender left |
| Shutdown.DrainEnabled | crates/wasmlet/src/engine/mod.rs:534-537 | so shutdown is never deadlocked: a live thread can take an invocation off a closed channel or exit |
| Shutdown.StepPotential | crates/wasmlet/src/engine/mod.rs:534-537 | draining steps lower a potential that no other step raises |
| Shutdown.DrainStepsBounded | crates/wasmlet/src/engine/mod.rs:1122-1142 | in any schedule the draining steps are at most the threads plus the places in their channels |
| Shutdown.AllCanExit | crates/wasmlet/src/engine/mod.rs:1122-1142 | from every state of an acyclic system all threads can exit within that bound |
| Shutdown.NoInvocationLost | crates/wasmlet/src/engine/mod.rs:534-537 | every invocation queued or sent is received or still queued, and a thread that has exited has left none |
| Shutdown.ImporterCanFill | crates/wasmlet/src/engine/mod.rs:181-187 | a live importer can fill the channel of a live target |
| Shutdown.QueuedIsTaken | crates/wasmlet/src/engine/mod.rs:534-537 | a live thread takes what is queued |
| Shutdown.CycleNeverExits | crates/wasmlet/src/engine/mod.rs:534-537 | threads holding each other's senders in a circle stay live in every run |
| Shutdown.FinishesIffAcyclic | crates/wasmlet/src/engine/mod.rs:1118-1142 | with all threads live, shutdown can finish if and only if the graph is acyclic |
| Shutdown.AppliedManifestWindsDown | crates/wasmlet/src/engine/mod.rs:223-236 | the senders held by the threads of any resolved manifest form an acyclic graph, so its threads can all exit |
| Transfer.Lower | crates/wasmlet/src/engine/workload/value.rs:8-163 | lowering any value is moving its handles in order from the caller's table to the callee's, up to the first failure, around the same value |
| Transfer.LowerResource | crates/wasmlet/src/engine/workload/value.rs:75-160 | one handle: host resources move if owned, guest resources are unwrapped, others pass |
| Transfer.LowerAll | crates/wasmlet/src/engine/workload/value.rs:27-51 | the same for the members of a list, record or tuple, left to right |
| Transfer.Lift | crates/wasmlet/src/engine/workload/value.rs:165-315 | lifting any value is moving its handles in order from the callee's table to the caller's |
| Transfer.LiftResource | crates/wasmlet/src/engine/workload/value.rs:232-312 | one handle: owned host resources move, any other handle is wrapped in a new entry |
| Transfer.LiftAll | crates/wasmlet/src/engine/workload/value.rs:184-208 | the same for the members of a list, record or tuple |
| Transfer.MoveResource | crates/wasmlet/src/engine/workload/value.rs:77-92 | an owned host resource leaves one table for a free index of the other with its contents; a borrowed one is looked up and refused |
| Transfer.Store.Delete | crates/wasmlet/src/engine/workload/value.rs:84-84 | a present entry is removed, and returned if it has the handle's type |
| Transfer.Store.Push | crates/wasmlet/src/engine/workload/value.rs:85-85 | an entry is added at an index not in use |
| Transfer.MoveAllConcat | crates/wasmlet/src/engine/workload/value.rs:27-51 | moving two runs of handles is moving one and then, unless it failed, the other |
| Transfer.MoveValsCons | crates/wasmlet/src/engine/workload/value.rs:27-51 | moving a list of values is moving the first and then, unless it failed, the others |
| TransferLaws.PayloadMoves | crates/wasmlet/src/engine/workload/value.rs:52-85 | the payload of a variant, an option or a result, of either kind, is moved as it would be on its own, and wrapped again |
| TransferLaws.MembersMove | crates/wasmlet/src/engine/workload/value.rs:27-51 | lists, records and tuples are moved as their members are, and records keep their names |
| TransferLaws.ResourceMoves | crates/wasmlet/src/engine/workload/value.rs:87-160 | a resource value is moved as its handle is |
| TransferLaws.PlainStays | crates/wasmlet/src/engine/workload/value.rs:14-26 | any other value, and a missing payload, is passed and touches no table |
| TransferLaws.FailureTellsCause | crates/wasmlet/src/engine/workload/value.rs:77-160 | which of a missing entry, an entry of another type and a borrowed host resource an error means, and what is taken all the same; both directions look borrowed ones up in the caller's table |
| TransferLaws.ReplacingKeepsShape | crates/wasmlet/src/engine/workload/value.rs:8-163 | a value rebuilt around other handles has the shape and scalars it had |
| TransferLaws.MovingKeepsShape | crates/wasmlet/src/engine/workload/value.rs:8-315 | what is lowered or lifted keeps its shape, names and scalars |
| TransferLaws.MoveAllWhen | crates/wasmlet/src/engine/workload/value.rs:75-160 | handles can be moved if and only if each could be on its own and none names an entry an earlier owned one took |
| TransferLaws.LowerSucceedsWhen | crates/wasmlet/src/engine/workload/value.rs:75-160 | `lower` succeeds if and only if the value's handles are present with their types, owned if host resources, and not reused |
| TransferLaws.LiftSucceedsWhen | crates/wasmlet/src/engine/workload/value.rs:232-312 | `lift` succeeds if and only if that holds of the value's host resources |
| TransferLaws.EffectOfAll | crates/wasmlet/src/engine/workload/value.rs:75-312 | on success the source loses exactly the owned handles' entries, the target keeps all it had and gains exactly one new entry, with the right contents, for each handle that needs one |
| TransferLaws.UntouchedTables | crates/wasmlet/src/engine/workload/value.rs:14-26 | a value without handles into the source leaves it alone, one that needs no new entries leaves the target alone |
| TransferLaws.LiftedCanBeLowered | crates/wasmlet/src/engine/workload/value.rs:8-315 | what was lifted can be lowered, and taking its entries away leaves the caller's original table |
| TransferLaws.LiftThenLower | crates/wasmlet/src/engine/workload/value.rs:8-315 | lifting any value and lowering the result succeeds and gives the same value, the same guest resources, host resources with the same contents, the caller's original table, and the callee's other entries untouched |
| TransferLaws.GuestValueComesBack | crates/wasmlet/src/engine/workload/value.rs:306-312 | a value without host resources comes back identical and so do both tables |
| TransferLaws.HostsRemove | crates/wasmlet/src/engine/workload/value.rs:84-84 | removing an entry removes just its resource from the multiset of host resources |
| TransferLaws.MoveAllConserves | crates/wasmlet/src/engine/workload/value.rs:75-312 | the multiset of host resources over both tables is kept, on success and on failure part-way, if and only if no owned handle of another type than its host entry is reached; if one is, its entry alone is lost |
| TransferLaws.LostOfWhen | crates/wasmlet/src/engine/workload/value.rs:84-84 | something is lost exactly if some handle, all before it having moved, is such a one |
| TransferLaws.ValueConserves | crates/wasmlet/src/engine/workload/value.rs:8-315 | the same condition for lowering or lifting any value |
| TransferLaws.WellTypedConserves | crates/wasmlet/src/engine/workload/value.rs:8-315 | so a value whose handles have their entries' types loses nothing, however it fails |
| TransferLaws.MistypedHandleLoses | crates/wasmlet/src/engine/workload/value.rs:77-86 | a handle for which it fails: a pollable's handle on a socket's entry |
| Handoff.StepKeepsCallOk | crates/wasmlet/src/engine/mod.rs:592-659 | every step of caller or callee, and either dropping out, leaves the call's store in at most one place; it reaches the pool only from there, with its own instance, and never comes back |
| Handoff.StepLowersRank | crates/wasmlet/src/engine/mod.rs:592-659 | a call takes at most nine steps |
| Handoff.CallProgress | crates/wasmlet/src/engine/mod.rs:186-220 | while a call is not over some party can go on, so neither waits for a message that cannot come |
| Handoff.PooledAfterLift | crates/wasmlet/src/engine/mod.rs:214-219 | a successful call's store is pooled only when the caller has lifted all results and handed it back |
| Handoff.CallerHoldsAlone | crates/wasmlet/src/engine/mod.rs:188-216 | while the caller lowers or lifts, no channel and not the callee has the store |
| Handoff.OnePlace | crates/wasmlet/src/engine/mod.rs:150-164 | two places that have a store of the call are the same place |
| HandoffRuns.CallWithoutFaults | crates/wasmlet/src/engine/mod.rs:171-221 | in every run of a new call in which nobody drops out and values move, once both are done the caller has been told of success exactly if the instance was made and the function did well, and the pool has been offered the instance exactly once if it was made |
| HandoffRuns.FinishedCallTells | crates/wasmlet/src/engine/mod.rs:206-220 | what the caller is told, from any point of such a run |
| HandoffRuns.FinishedCallIsPooled | crates/wasmlet/src/engine/mod.rs:621-646 | what the pool is offered, from any point of such a run; a failed function does not keep its instance from it |
| HandoffRuns.SucceedsByHandingBack | crates/wasmlet/src/engine/mod.rs:214-220 | in any run, with faults too, a caller succeeds exactly if it handed the store back |
| HandoffRuns.HandsBackResultsOnly | crates/wasmlet/src/engine/mod.rs:206-216 | which it does only after the function did well and all results were lifted |
| HandoffRuns.OfferedAtMostOnce | crates/wasmlet/src/engine/mod.rs:592-659 | in any run the pool is offered at most one instance, with its own store |
| HandoffRuns.OfferedWhen | crates/wasmlet/src/engine/mod.rs:593-670 | the four occasions on which it is |
| HandoffRuns.UnclaimedIsPooled | crates/wasmlet/src/engine/mod.rs:593-598 | if nobody waits for the store any more, the instance goes to the pool unused |
| HandoffRuns.ServedIsPooled | crates/wasmlet/src/engine/mod.rs:648-670 | an instance that serves a request is offered exactly if it handled it well |
| HandoffRuns.AnythingCanFail | crates/wasmlet/src/engine/mod.rs:171-221 | either side can drop out whenever it takes part, and whatever can fail may |
| Pool.SpawnKeepsInv | crates/wasmlet/src/engine/mod.rs:562-591 | starting a task, from the pool or with a new store, keeps stores unshared and permits balanced |
| Pool.CallStepKeepsInv | crates/wasmlet/src/engine/mod.rs:592-680 | so does every step of any call; an ending task returns both permits |
| Pool.StepKeepsInv | crates/wasmlet/src/engine/mod.rs:511-680 | every step of the loop or of a call keeps: free permits plus running tasks plus the loop's permit is the maximum, pools stay in bounds, stores have one owner |
| Pool.OneOwner | crates/wasmlet/src/engine/mod.rs:562-680 | a store in a pool or in a call is nowhere else |
| Pool.EngineStepKeepsInv | crates/wasmlet/src/engine/mod.rs:492-500 | the engine's permits are conserved over all workloads and services |
| Pool.RunKeepsInv | crates/wasmlet/src/engine/mod.rs:502-680 | every run keeps all of it |
| Pool.EveryRunIsSafe | crates/wasmlet/src/engine/mod.rs:502-680 | in every interleaving from the start: one owner for each store, pooled instances with their own stores, pools within their size and the size within the maximum, both kinds of permit conserved |
| Pool.CallsFinish | crates/wasmlet/src/engine/mod.rs:675-676 | with no new invocation the calls under way can all finish without any drop, and all their permits come back |
| Pool.AcceptsInvocation | crates/wasmlet/src/engine/mod.rs:533-591 | with permits free, an idle loop takes an invocation of either kind to a running call |
| Pool.SpawnReuses | crates/wasmlet/src/engine/mod.rs:562-576 | a new call runs on the instance longest in the pool, and on a new store only if there is none |
| Pool.OfferedIsPooled | crates/wasmlet/src/engine/mod.rs:633-641 | an offered instance is in the pool from then on if there is room, and dropped if not |
| Pool.ServiceHoldsPermit | crates/wasmlet/src/engine/mod.rs:876-903 | a service takes one of the engine's permits and gives it back when it ends |
| Pool.DeployedIsSafe | crates/wasmlet/src/engine/mod.rs:972-987 | in every run of the threads of a resolved manifest all this holds, and each workload keeps within the limits it was configured with |
| Pool.SizesStay | crates/wasmlet/src/engine/mod.rs:511-514 | limits and pool sizes never change |
| Epoch.Timer.constructor | crates/wasmlet/src/engine/mod.rs:751-760 | the store starts with a slice of the budget, the rest is left for callbacks |
| Epoch.Timer.Callback | crates/wasmlet/src/engine/mod.rs:761-796 | the outcome and the new budget for each of the three states of the shutdown channel |
| Epoch.RemainderSpentInSlices | crates/wasmlet/src/engine/mod.rs:762-775 | what is left is granted exactly, in full slices but for the last, and then the guest traps |
| Epoch.BudgetIsExact | crates/wasmlet/src/engine/mod.rs:751-775 | with no shutdown seen, first grant and later ones add up to the budget, all but the last are 100, and the trap comes at callback max(1, ceil(B / 100)) |
| Epoch.NoBudgetNeverTraps | crates/wasmlet/src/engine/mod.rs:773-775 | without a budget every slice, the first too, is 100 |
| Epoch.TrapTellsCause | crates/wasmlet/src/engine/mod.rs:763-794 | which of an empty budget, a closed channel and a deadline that has passed a trap means, and that nothing else traps |
| Epoch.GrantsEndByDeadline | crates/wasmlet/src/engine/mod.rs:776-795 | once a shutdown is seen, also if the channel closes afterwards, no grant reaches past its deadline, and from the deadline on every callback traps, for any clock |
| Epoch.ShutdownIsPrompt | crates/wasmlet/src/engine/mod.rs:776-789 | if the clock keeps up with the grants, a guest seen t ticks before the deadline gets at most ceil(t / 100) more |
| Epoch.ShutdownGrantsTimeLeft | crates/wasmlet/src/engine/mod.rs:782-788 | a guest that runs through is granted exactly the time to the deadline, whatever was left of its budget |
| Epoch.ShutdownGrantsNoMore | crates/wasmlet/src/engine/mod.rs:776-789 | on any clock that keeps up with the grants, it is granted no more than that |
| Epoch.ExactClockIsExact | crates/wasmlet/src/engine/mod.rs:776-789 | a clock by which each callback comes as its grant runs out, with which the bound is reached |
| Epoch.BudgetHoldsThroughShutdown | crates/wasmlet/src/engine/mod.rs:776-789 | what is left of its budget is respected on every such clock if and only if the deadline is no further away than that or nothing was left |
| Epoch.BudgetCanBeExceeded | crates/wasmlet/src/engine/mod.rs:782-788 | a run in which one tick of budget turns into 150 |
| Polling.CollectReady | crates/wasmlet/src/engine/wasi/io/poll.rs:36-45 | the returned indices are exactly those of the ready pollables, in order |
| Polling.Deadline.Observe | crates/wasmlet/src/engine/wasi/io/poll.rs:63-68 | a shutdown request is merged into the deadline, zero meaning none |
| Polling.Deadline.Expired | crates/wasmlet/src/engine/wasi/io/poll.rs:70-78 | polling ends the execution if and only if there is a deadline and it has been reached |
| Polling.DeadlineIsEarliest | crates/wasmlet/src/engine/wasi/io/poll.rs:62-101 | after any passes the deadline is the earliest of all that were given |
| Polling.DeadlineOrderIrrelevant | crates/wasmlet/src/engine/wasi/io/poll.rs:62-101 | it does not depend on the order or number of times requests were seen |
| HttpHost.Ctx.ResponseBody | crates/wasmlet/src/engine/wasi/http/host/types.rs:951-966 | a response gives out one body, unset and linked to it |
| HttpHost.Ctx.BodyWrite | crates/wasmlet/src/engine/wasi/http/host/types.rs:198-253 | each body state's answer, its successor, and the stream handed out |
| HttpHost.Ctx.BodyFinish | crates/wasmlet/src/engine/wasi/http/host/types.rs:255-304 | trailers and body leave the table, trailers are sent if the response was |
| HttpHost.Ctx.BodyDrop | crates/wasmlet/src/engine/wasi/http/host/types.rs:306-322 | the handle is gone and the body dropped |
| HttpHost.Ctx.SetResponse | crates/wasmlet/src/engine/wasi/http/host/types.rs:360-428 | outparam and response leave the table, and the body gets the channels or passes them on |
| OutgoingBody.StepKeepsBodies | crates/wasmlet/src/engine/wasi/http/host/types.rs:197-428 | after any call every body with a handle is usable, has one handle, and its response has not been sent if it is in the table; the call bails about no body |
| OutgoingBody.NoBodyBails | crates/wasmlet/src/engine/wasi/http/host/types.rs:215-217 | so no call of any run does |
| OutgoingBody.GuestNeverTrappedByBody | crates/wasmlet/src/engine/wasi/http/host/types.rs:300-302 | a guest that starts with an empty table never meets "dropped", "finished", "corrupted" or "already set" |
| OutgoingBody.DeadBodyIsCorruptedUnseen | crates/wasmlet/src/engine/wasi/http/host/types.rs:415-416 | sending a response whose body has ended leaves the body corrupted, but nothing in the table refers to it any more |
| OutgoingBody.FirstBodyIsLinked | crates/wasmlet/src/engine/wasi/http/host/types.rs:955-965 | the first `body` of a response gives out a new, unsent body and links it; a second is refused |
| OutgoingBody.AnswerTellsCause | crates/wasmlet/src/engine/wasi/http/host/types.rs:197-428 | in every reachable state a call bails exactly if a handle it needs is missing, is refused exactly if the state of its body says so, and succeeds otherwise |
| OutgoingBody.TableEffect | crates/wasmlet/src/engine/wasi/http/host/types.rs:197-428 | a call takes off the table what it consumes, adds what it answers with, and leaves all other entries |
| OutgoingBody.EndsItsBody | crates/wasmlet/src/engine/wasi/http/host/types.rs:261-316 | dropping or finishing a body ends it and leaves nobody its sender |
| OutgoingBody.NewEntries | crates/wasmlet/src/engine/wasi/http/host/types.rs:938-949 | what a new response is |
| OutgoingBody.WrittenOnce | crates/wasmlet/src/engine/wasi/http/host/types.rs:211-214 | a second `write` is refused, before and after the response is sent |
| OutgoingBody.StepKeepsUse | crates/wasmlet/src/engine/wasi/http/host/types.rs:197-428 | after any call each trailers sender has one owner and is unused, and each event happened once |
| OutgoingBody.RunKeepsUse | crates/wasmlet/src/engine/wasi/http/host/types.rs:197-428 | so does every run |
| OutgoingBody.StreamAndTrailersOnce | crates/wasmlet/src/engine/wasi/http/host/types.rs:208-299 | in any run each body's stream is given out at most once, each response's trailers are sent at most once, and no sent sender is left in anyone's hands |
| OutgoingBody.WriteThenSet | crates/wasmlet/src/engine/wasi/http/host/types.rs:401-414 | writing and then sending leaves the body waiting for trailers and a stream which, once it looks at its channel, feeds the response under the body's limit |
| OutgoingBody.SetThenWrite | crates/wasmlet/src/engine/wasi/http/host/types.rs:395-400 | sending and then writing leads to the same |
| OutgoingBody.WriteAndSetCommute | crates/wasmlet/src/engine/wasi/io/mod.rs:366-374 | the two orders agree on bodies, events, stream and all other table entries |
| OutgoingBody.FinishSends | crates/wasmlet/src/engine/wasi/http/host/types.rs:273-299 | finishing a body that has its sender sends the trailers on it and answers by whether they were received and the connection is up |
| OutgoingBody.SetThenFinish | crates/wasmlet/src/engine/wasi/http/host/types.rs:269-299 | in all three orders that finish last, the trailers go to the response that was sent, after the stream if there was one |
| OutgoingBody.FinishBeforeSet | crates/wasmlet/src/engine/wasi/http/host/types.rs:270-272 | finishing an unsent body is refused, and the response sent later can get no trailers |
| BodyFlow.BodyChannel.SendContents | crates/wasmlet/src/engine/wasi/http/body.rs:56-109 | a chunk is queued with its permits, or refused with channel and permits as they were but for a consumed connection error, or, if blocking, waits with all free permits and the connection's lock |
| BodyFlow.BodyChannel.ResumeContents | crates/wasmlet/src/engine/wasi/http/body.rs:99-106 | a write that waited is queued, or refused and its permits returned, once it has all it needs |
| BodyFlow.BodyChannel.SendChunk | crates/wasmlet/src/engine/wasi/http/body.rs:72-75 | a chunk whose permits are taken is queued, or its permits come back |
| BodyFlow.BodyChannel.ReleasePermits | crates/wasmlet/src/engine/wasi/http/body.rs:99-99 | returned permits go to a waiting write first |
| BodyFlow.BodyChannel.PollNext | crates/wasmlet/src/host.rs:271-302 | the next frame, and the permits it gives back |
| BodyFlow.StepKeepsInv | crates/wasmlet/src/engine/wasi/http/body.rs:56-109 | every step, waiting writes included, keeps free, held and queued permits at 65535 and emitted plus queued bytes equal to what was written |
| BodyFlow.FlowIsConserved | crates/wasmlet/src/host.rs:373-374 | in every reachable state both hold, a write waits only while no permit is free, and what was emitted is a prefix of what was written even after the receiver is gone |
| BodyFlow.HistoryIsWhatWasSeen | crates/wasmlet/src/host.rs:291-296 | the two histories are the chunks of accepted writes and of data frames, in order |
| BodyFlow.EndMeansAllEmitted | crates/wasmlet/src/host.rs:291-301 | a trailers frame or a normal end comes only when every sender is gone and the data frames have carried exactly the accepted bytes; the trailers are those sent; nothing is accepted afterwards |
| BodyFlow.NoMoreWrites | crates/wasmlet/src/host.rs:292-295 | without senders nothing more is accepted |
| BodyFlow.TrailersWereSent | crates/wasmlet/src/host.rs:297-301 | waiting trailers are ones a guest has sent |
| BodyFlow.OversizedNeverAccepted | crates/wasmlet/src/engine/wasi/http/body.rs:67-104 | a chunk of more than 65535 bytes is accepted in no reachable state, and a blocking write of one is never served |
| BodyFlow.WaitIsServed | crates/wasmlet/src/engine/wasi/http/body.rs:99-101 | any other waiting write has its permits once the queue is empty |
| BodyFlow.PollingDrains | crates/wasmlet/src/host.rs:291-296 | polling until data runs out emits all that was written, gives back every permit, and serves a waiting write |
| BodyFlow.AtTheEnd | crates/wasmlet/src/host.rs:291-301 | where a channel ends, all is emitted, no sender is left, no write waits, and the frame tells the trailers sent |
| BodyFlow.SendTellsCause | crates/wasmlet/src/engine/wasi/http/body.rs:60-109 | which of a waiting write, a connection error (told once), a closed connection, too much for a u32 or for the permits, and a gone receiver the answer to a write means; all else is queued |
| BodyFlow.WaitIsAccepted | crates/wasmlet/src/engine/wasi/http/body.rs:99-106 | a blocking write that has to wait is accepted after the connection has taken what was queued |
| BodyFlow.FrameTellsCause | crates/wasmlet/src/host.rs:275-301 | an error of the handler is told once and before any data; an open empty channel is not ready; then come trailers, an end, or the news that their sender is gone |
| BodyFlow.FinishedBodyArrives | crates/wasmlet/src/host.rs:291-301 | once the guest has dropped its senders and given its trailers, polling brings each chunk and then the end |
| BodyFlow.ClosedBodyArrives | crates/wasmlet/src/host.rs:291-301 | the same from any state in which that has happened |
| BodyFlow.OperationsTell | crates/wasmlet/src/host.rs:275-301 | what a failure, a close or a departure at either end leads the other to see |
| BodyFlow.EndsActFreely | crates/wasmlet/src/engine/wasi/http/body.rs:56-109 | when each end can act |
| Streams.StreamResource.CheckWritable | crates/wasmlet/src/engine/wasi/io/mod.rs:224-300 | the checked size, under any nesting of budgets, and the switch of a pending stream whose body has been sent |
| Streams.StreamResource.CheckInner | crates/wasmlet/src/engine/wasi/io/mod.rs:266-282 | the same for the stream inside a budget |
| Streams.StreamResource.CheckConnection | crates/wasmlet/src/engine/wasi/io/mod.rs:283-297 | free permits capped to 32 bits, a connection error once, or a closed stream |
| Streams.StreamResource.WriteContents | crates/wasmlet/src/engine/wasi/io/mod.rs:302-483 | outcome of a write, blocking or not, up to where it waits |
| Streams.StreamResource.ResumeContents | crates/wasmlet/src/engine/wasi/io/mod.rs:453-477 | outcome of a write that waited, and the budgets it then pays |
| Streams.StreamResource.ResumeInner | crates/wasmlet/src/engine/wasi/io/mod.rs:460-466 | the same for the stream inside a budget |
| Streams.StreamResource.WriteInner | crates/wasmlet/src/engine/wasi/io/mod.rs:351-375 | the same for the stream inside a budget |
| Streams.StreamResource.Splice | crates/wasmlet/src/engine/wasi/io/mod.rs:572-591 | whatever the connection does between check and write: it succeeds if and only if check and read do and the connection still accepts at the write; bytes read are lost exactly if it does not; otherwise what the source lost is what the body gained |
| Streams.CheckCovers | crates/wasmlet/src/engine/wasi/io/mod.rs:266-297 | after a successful check every budget and the channel cover the checked size |
| Streams.ActKeepsCover | crates/wasmlet/src/host.rs:291-296 | nothing the connection does to the channel takes that cover away |
| Streams.RunKeepsCover | crates/wasmlet/src/engine/wasi/io/mod.rs:266-297 | nor does any run of checks, answers and channel steps without a write |
| Streams.CheckIsPermit | crates/wasmlet/src/engine/wasi/io/mod.rs:266-381 | after any such run, a write of up to the checked size, blocking or not, is refused for no budget and no permit and does not wait; it is accepted unless the connection has failed or the receiver is gone by then |
| Streams.CheckedWriteAccepted | crates/wasmlet/src/engine/wasi/io/mod.rs:266-297 | in particular right after the check only a gone receiver can refuse it |
| Streams.CheckIsTight | crates/wasmlet/src/engine/wasi/io/mod.rs:266-297 | a write of more than the checked size is not accepted |
| Streams.CheckSucceedsWhen | crates/wasmlet/src/engine/wasi/io/mod.rs:266-297 | a check succeeds if and only if no budget is spent and there is a sink, or a sent body whose connection is up and for which no write waits |
| Streams.CheckTellsCause | crates/wasmlet/src/engine/wasi/io/mod.rs:266-297 | its value is the least of the budgets and the free permits capped to 32 bits; each error has its cause |
| Streams.CheckLeaves | crates/wasmlet/src/engine/wasi/io/mod.rs:271-296 | what a check leaves: budgets as they were, a stream that has seen its body sent, a connection error that has been told |
| Streams.WriteTellsCause | crates/wasmlet/src/engine/wasi/io/mod.rs:351-375 | a write is refused by a budget, by a body not sent or never to be sent, or answered by the connection |
| Streams.ResumeTellsCause | crates/wasmlet/src/engine/wasi/io/mod.rs:468-477 | a write that waited is accepted once served, if the body is still received |
| Streams.AnswerArrives | crates/wasmlet/src/engine/wasi/io/mod.rs:271-281 | sending a body reaches the stream that waits for it |
| Streams.EventsAct | crates/wasmlet/src/engine/wasi/io/mod.rs:266-381 | the events of a run are these operations and the steps of the channel |
| Streams.WriteAcceptedWhen | crates/wasmlet/src/engine/wasi/io/mod.rs:351-375 | a write is accepted if and only if all budgets cover it, the body was sent and is received, the connection is up and permits suffice |
| Streams.BudgetsAreExact | crates/wasmlet/src/engine/wasi/io/mod.rs:351-365 | an accepted write costs each budget its length, any other write costs none anything |
| Streams.ResumeSpends | crates/wasmlet/src/engine/wasi/io/mod.rs:460-466 | so does a write that waited, when it is accepted |
| Streams.PutKeepsPaid | crates/wasmlet/src/engine/wasi/io/mod.rs:457-466 | a write that waits is within every budget, and while it waits none is spent |
| Streams.HappenSpends | crates/wasmlet/src/engine/wasi/io/mod.rs:351-365 | the same for every event a stream sees |
| Streams.BudgetsBoundRun | crates/wasmlet/src/engine/wasi/io/mod.rs:351-365 | over any run what is spent of each budget is what was accepted |
| Delivery.GuestKeepsTies | crates/wasmlet/src/engine/wasi/http/host/types.rs:197-428 | every guest call keeps each stream leading to the response its own body was sent with, and no two bodies sent with one sender |
| Delivery.SetKeepsTies | crates/wasmlet/src/engine/wasi/http/host/types.rs:392-414 | sending a response ties its body, and a pending stream of it, to the outparam's sender |
| Delivery.WriteKeepsTies | crates/wasmlet/src/engine/wasi/http/host/types.rs:208-252 | a new stream leads where its body's sender is, or waits on a channel nothing else waits on |
| Delivery.OwnedLater | crates/wasmlet/src/engine/wasi/http/host/types.rs:197-428 | no call makes anyone the owner of an old sender that had none |
| Delivery.DataLater | crates/wasmlet/src/engine/wasi/http/host/types.rs:197-428 | nor the holder of a data sender |
| DeliveryLaws.StreamStepKeeps | crates/wasmlet/src/engine/wasi/io/mod.rs:224-483 | an operation on a stream credits its body with exactly what it sent on that body's channel |
| DeliveryLaws.OutsideKeepsGood | crates/wasmlet/src/host.rs:271-302 | what connections do leaves the account of bytes and trailers as it is |
| DeliveryLaws.SetKeepsGood | crates/wasmlet/src/engine/wasi/http/host/types.rs:360-428 | when a response is sent, its channel and the streams of its body are both still empty |
| DeliveryLaws.FinishKeepsGood | crates/wasmlet/src/engine/wasi/http/host/types.rs:255-304 | finishing puts the trailers on the channel of that body's response and of no other |
| DeliveryLaws.StepKeepsGood | crates/wasmlet/src/engine/wasi/http/host/types.rs:197-428 | every step of guest and connections keeps all of it |
| DeliveryLaws.RunKeepsGood | crates/wasmlet/src/engine/wasi/http/host/types.rs:197-428 | so does every run |
| DeliveryLaws.ResponseCarriesItsBody | crates/wasmlet/src/host.rs:267-303 | in every run, received followed by queued bytes of a response are the bytes the streams of its body accepted, and no other body has that response |
| DeliveryLaws.ResponseEndsWithItsBody | crates/wasmlet/src/host.rs:291-301 | where a response ends, a finished body was sent with it, all its accepted bytes have been received, the trailers are those given to `finish`, and nobody holds a data sender |
| DeliveryLaws.NothingBeforeSent | crates/wasmlet/src/engine/wasi/io/mod.rs:271-281 | until its response is sent a body accepts nothing, and a response without a body carries nothing |
| DeliveryRuns.AnyResponseCanBeDelivered | crates/wasmlet/src/engine/wasi/http/host/types.rs:951-966 | for all contents up to the permits and all trailers there is a run in which a guest answers with them and the connection receives just these |
| DeliveryRuns.WriteReachesItsResponse | crates/wasmlet/src/engine/wasi/http/body.rs:67-73 | a write that budgets and permits cover is queued on the response of its body and counted for it |
| DeliveryRuns.WaitingWriteHoldsGuest | crates/wasmlet/src/engine/wasi/http/body.rs:99-101 | a blocking write that lacks permits suspends its guest |
| DeliveryRuns.SuspendedGuestWaits | crates/wasmlet/src/engine/wasi/http/body.rs:99-101 | which does nothing until then |
| DeliveryRuns.ServedWriteIsCredited | crates/wasmlet/src/engine/wasi/http/body.rs:102-106 | and once served it is queued, counted, and the guest goes on |
| DeliveryRuns.UnsentWriteIsRefused | crates/wasmlet/src/engine/wasi/io/mod.rs:372-373 | a write before the response is sent is told to wait while it still can be sent, and closed otherwise |
| DeliveryRuns.FinishHearsConnection | crates/wasmlet/src/engine/wasi/http/host/types.rs:285-298 | `finish` succeeds exactly if the receiver is there and the connection reports no error, which it takes |
| DeliveryRuns.WorldActsFreely | crates/wasmlet/src/engine/wasi/http/host/types.rs:197-428 | guest and connections can act whenever they are not suspended or gone |
| ContentLength.OutgoingResponseBody.Poll | crates/wasmlet/src/engine/wasi/http/body.rs:272-325 | next frame of a body with a declared length: buffer first, then the channel, then the end |
| ContentLength.OutgoingResponseBody.CountBytes | crates/wasmlet/src/engine/wasi/http/body.rs:278-289 | a frame is counted if it fits the limit and lost if not |
| ContentLength.PollStep | crates/wasmlet/src/engine/wasi/http/body.rs:276-323 | one poll takes the next bytes, or reports an error only when the whole length is wrong, or ends with the length met |
| ContentLength.PollTellsCause | crates/wasmlet/src/engine/wasi/http/body.rs:276-323 | for a source open or closed: a frame that fits is given and counted, one that does not is lost; nothing while more can come; an end that is an error if it comes short; and the end from then on |
| ContentLength.DeliversDeclaredLength | crates/wasmlet/src/engine/wasi/http/body.rs:276-323 | a body ends normally if and only if its contents have the declared length, and then all were delivered; otherwise a prefix within the limit was |
| Tcp.TcpSocket.DoPoll | crates/wasmlet/src/engine/wasi/sockets/tcp.rs:72-99 | polling fills the accept slot or the connection's outcome, or waits |
| Tcp.TcpSocket.DoStartBind | crates/wasmlet/src/engine/wasi/sockets/tcp.rs:116-141 | a fresh socket starts to bind; a refused bind leaves it fresh |
| Tcp.TcpSocket.DoFinishBind | crates/wasmlet/src/engine/wasi/sockets/tcp.rs:143-154 | completes a started bind only |
| Tcp.TcpSocket.DoStartConnect | crates/wasmlet/src/engine/wasi/sockets/tcp.rs:156-179 | from fresh, binding or bound |
| Tcp.TcpSocket.DoFinishConnect | crates/wasmlet/src/engine/wasi/sockets/tcp.rs:181-206 | yields streams, closes on a failed connection, or restores the state |
| Tcp.TcpSocket.DoStartListen | crates/wasmlet/src/engine/wasi/sockets/tcp.rs:208-239 | from binding or bound; a refusal by the system closes the socket |
| Tcp.TcpSocket.DoFinishListen | crates/wasmlet/src/engine/wasi/sockets/tcp.rs:241-255 | completes a started listen only |
| Tcp.TcpSocket.DoAccept | crates/wasmlet/src/engine/wasi/sockets/tcp.rs:257-305 | the buffered connection first, then the system's |
| Tcp.TcpSocket.PollAccept | crates/wasmlet/src/engine/wasi/sockets/tcp.rs:267-267 | the first queued connection if the system reports one |
| Tcp.AnswerKeepsQueue | crates/wasmlet/src/engine/wasi/sockets/tcp.rs:85-92 | what a call takes comes off the front of slot plus system queue, and nothing else changes that queue |
| Tcp.AcceptsAreFifo | crates/wasmlet/src/engine/wasi/sockets/tcp.rs:257-272 | under any mix of calls, what was accepted followed by what is queued is what arrived, in order |
| Tcp.ReadyMeansNoBlock | crates/wasmlet/src/engine/wasi/sockets/tcp.rs:72-99 | right after a ready poll no call would block, whatever the system answers |
| Tcp.BlockMeansNotReady | crates/wasmlet/src/engine/wasi/sockets/tcp.rs:184-192 | a call that would block changes nothing, and a poll in its place says pending |
| Tcp.PollPendsWhen | crates/wasmlet/src/engine/wasi/sockets/tcp.rs:72-99 | a poll says pending if and only if accepting, on a listening socket, or finishing, on a connecting one, would block; any other socket is ready |
| Tcp.BlocksWhen | crates/wasmlet/src/engine/wasi/sockets/tcp.rs:181-272 | which they do exactly when there is nothing for them yet |
| Tcp.ErrorTellsCause | crates/wasmlet/src/engine/wasi/sockets/tcp.rs:116-272 | which error each misuse and each failure of the system gives |
| Tcp.StartEnablesFinish | crates/wasmlet/src/engine/wasi/sockets/tcp.rs:116-255 | every start that succeeds enables its finish and what can follow it; no finish succeeds twice |
| Tcp.ConnectionFinishes | crates/wasmlet/src/engine/wasi/sockets/tcp.rs:181-206 | a started connection finishes as the system says |
| Tcp.NewSocketStarts | crates/wasmlet/src/engine/wasi/sockets/tcp.rs:126-173 | a new socket can be bound, and connected without that |
| Tcp.PollIsTransparent | crates/wasmlet/src/engine/wasi/sockets/tcp.rs:88-97 | a ready poll before `accept` or `finish_connect` does not change what they yield or leave behind |
| Tcp.KeepsItsSocket | crates/wasmlet/src/engine/wasi/sockets/tcp.rs:116-255 | in any run the system socket stays the one the socket was created with |
| Tcp.ListensWhenFinished | crates/wasmlet/src/engine/wasi/sockets/tcp.rs:241-255 | a socket listens if and only if a finish of listening has succeeded |
| Tcp.OpensInOrder | crates/wasmlet/src/engine/wasi/sockets/tcp.rs:116-255 | that succeeds only after a start of listening, and this only after a start of binding |
| Tcp.ListensExactlyAfter | crates/wasmlet/src/engine/wasi/sockets/tcp.rs:208-212 | so a new socket listens if and only if the three have succeeded in this order; finishing to bind is not needed, as listening may start from a binding socket |
| Tcp.BoundedChanges | crates/wasmlet/src/engine/wasi/sockets/tcp.rs:116-255 | a rank never falls and rises at each change of variant, so there are at most five; connected and closed are final |
| Tcp.FailureChangesNothing | crates/wasmlet/src/engine/wasi/sockets/tcp.rs:116-255 | a failed call leaves the socket as it was, except a refused listen and a failed connection, which close it |
| Tcp.StreamsStep | crates/wasmlet/src/engine/wasi/sockets/tcp.rs:181-206 | streams come only out of a started connection and leave the socket connected |
| Tcp.StreamsAtMostOnce | crates/wasmlet/src/engine/wasi/sockets/tcp.rs:156-206 | in any run streams are given out at most once, never after an accept, and only after a successful start |

## Left out

Assumed or simplified:

- Manifest.Instantiate: does not model the steps of pre-instantiating a component, building its runtime and starting its thread, because they are foreign code; `instantiable` says whether they succeed.
- Engine.EngineState.ApplyManifest: does not model component compilation and plugin loading, which can fail before anything starts, nor the joining of old threads beyond naming them; linking is the fact `linkable` of each import, and `used` whether it takes place.
- An import instance is bound as a whole, not function by function, so that one without functions counts as a held sender.
- A limit of zero instances, for which the source creates a channel of capacity zero, is not modelled as a failure.
- Engine.ResolveServices: does not model the wait for an engine permit when a service is started, because the wait may be forever if none is free.
- The service threads' own loop is not modelled.
- Shutdown.DrainEnabled: does not model a workload thread that waits for a permit after taking an invocation, because the source lets nested calls exhaust permits; a thread's own tasks are dropped when it exits.
- Shutdown.AllCanExit: does not model that wait either, for the same reason.
- Shutdown.AppliedManifestWindsDown: does not model that wait either, for the same reason.
- Pool.CallsFinish: says that calls can finish, not that a guest ever returns.
- Pool steps end with the tasks of a loop; that a workload thread drops its pool and tasks when it exits is not modelled.
- A failed dynamic call puts its instance back into the pool, as the source does; nothing is claimed about the state of that instance.
- Resource handles are type, index and ownership. wasmtime's own checks of whether a handle is live or lent are not part of this model; neither are child entries of a table or a table that is full.
- A table gives out the first free index; the proofs use only that it is not in use.
- Removing an entry of the wrong type removes it all the same in `Transfer`, as the table of wasmtime does; the debug assertions on other types are not modelled, so in `lower` such handles pass through.
- In `OutgoingBody` a handle of another type is not in the table; bodies shared under a lock are positions in a list.
- A body's `limit` is modelled although `body` always creates it without one.
- HTTP outparams are created by the host call that hands a request to a guest; here that is a step that may happen at any time.
- HttpHost.Ctx.BodyFinish: does not model a contended or poisoned lock nor trailers that cannot be unwrapped, because one guest runs at a time and unwrapping is foreign code.
- HttpHost.Ctx.SetResponse: does not model such a lock nor headers that cannot be unwrapped, for the same reason.
- OutgoingBody.FinishSends: does not model a contended connection lock, because only a waiting write holds it and the guest is then suspended.
- Streams.StreamResource.WriteContents: does not model waking; a write that waits goes on at any time after it has been served, and a guest that gives up waiting never runs again.
- A write whose size exceeds free permits traps the guest when not blocking, as in the source.
- In `Delivery` a sender is gone at some time after its last holder, and streams are not moved to other guests.
- The clock and the shutdown channel are what each callback observes; ticks are the clock's unit.
- Polling.Deadline.Expired: does not model the sleep that ends the wait nor a closed shutdown channel, because they are the runtime's.
- Polling.CollectReady: models one pass over the pollables, not the sleeping and waking between passes, nor the limit on the list's length and the refusal of an empty list.
- What the system answers to a socket call is an input; address validation is one bit, and system errors are numbers kept apart from the codes the state machine itself gives.

Not modelled:

- Streams over TCP, UDP and standard output, `flush`, `subscribe`, `blocking_splice`, and short writes under a budget.
- Socket options, `shutdown`, addresses, UDP, name lookup, the filesystem, clocks and random bytes.
- Incoming bodies, outgoing requests (unfinished in the source), HTTP serving, the command line, the Kubernetes controller, configuration parsing, the Redis example.
