/** Import resolution of a deployment manifest: the slots a manifest's workloads
    go through, the first pass over them, and the rounds that follow. */
module Manifest {
  import opened Wrappers
  import opened Graph
  import Names

  // ---------------------------------------------------------------- manifest

  datatype ImportKind = Workload | Plugin

  /** One entry of a component's import table. `used` tells whether the component
      really imports the instance; `linkable` whether defining it succeeds. */
  datatype Import = Import(instance: string, kind: ImportKind, target: string, used: bool, linkable: bool)

  /** A workload of the manifest. `instantiable` tells whether pre-instantiating it
      and starting its thread succeed. */
  datatype WorkloadSpec = WorkloadSpec(
    name: string, imports: seq<Import>, pool: nat, limit: Option<nat>, instantiable: bool)

  // ------------------------------------------------------------------- state

  /** What an import is bound to in a linker: a workload's channel or a plugin. */
  datatype Binding = ToChannel(channel: nat) | ToPlugin(plugin: string)

  /** Linker contents, keyed by position in the import table. */
  type Linker = map<nat, Binding>

  datatype PendingImport = PendingImport(position: nat, target: string, targetIdx: nat)

  datatype Compiled = Compiled(linker: Linker, poolSize: nat, maxInstances: nat)

  datatype Slot =
    | Taken
    | Ready(workload: Compiled)
    | Unresolved(workload: Compiled, pending: seq<PendingImport>)
    | Resolved(channel: nat)

  /** A started workload thread; its channel is its position in start order. */
  datatype Thread = Thread(index: nat, name: string, linker: Linker, poolSize: nat, maxInstances: nat)

  datatype Pass = FirstPass | LaterPass | StuckRound

  datatype Error =
    | TargetNotFound(target: string)
    | PluginNotFound(target: string)
    | LinkFailed(instance: string)
    | InstantiateFailed(name: string)
    | Cycle(pass: Pass)
    | Corrupted
    | ServiceUnresolved(name: string)

  datatype Imports = Imports(linker: Linker, pending: seq<PendingImport>)

  // ----------------------------------------------------------- specification

  function NameTable(ws: seq<WorkloadSpec>): seq<string> {
    seq(|ws|, i requires 0 <= i < |ws| => ws[i].name)
  }

  /** Workload i has an effective import whose target is workload j. */
  ghost predicate DependsOn(ws: seq<WorkloadSpec>, i: nat, j: nat)
    requires i < |ws| && j < |ws|
  {
    exists k :: 0 <= k < |ws[i].imports| && EffectiveTarget(ws[i].imports[k], ws[j].name)
  }

  predicate EffectiveTarget(imp: Import, name: string) {
    imp.used && imp.kind == Workload && imp.target == name
  }

  /** The effective import graph of the manifest's workloads. */
  ghost function ImportGraph(ws: seq<WorkloadSpec>): (g: Digraph)
    ensures |g| == |ws|
    ensures forall i, j: nat | 0 <= i < |g| :: j in g[i] <==> j < |ws| && DependsOn(ws, i, j)
  {
    seq(|ws|, i requires 0 <= i < |ws| => set j: nat | j < |ws| && DependsOn(ws, i, j))
  }

  predicate ImportFine(imp: Import, names: seq<string>, plugins: set<string>) {
    imp.used ==> imp.linkable && (if imp.kind == Workload then imp.target in names else imp.target in plugins)
  }

  predicate ImportsFine(imports: seq<Import>, names: seq<string>, plugins: set<string>) {
    forall k | 0 <= k < |imports| :: ImportFine(imports[k], names, plugins)
  }

  /** Everything a manifest needs besides the shape of its import graph. */
  predicate WorkloadsFine(ws: seq<WorkloadSpec>, plugins: set<string>) {
    forall i | 0 <= i < |ws| :: ws[i].instantiable && ImportsFine(ws[i].imports, NameTable(ws), plugins)
  }

  /** An import is the cause of an error: a target that is missing, or, its target being
      there, a definition that fails. */
  predicate Causes(imp: Import, names: seq<string>, plugins: set<string>, e: Error) {
    && imp.used
    && match e
       case TargetNotFound(target) => imp.kind == Workload && imp.target == target && target !in names
       case PluginNotFound(target) => imp.kind == Plugin && imp.target == target && target !in plugins
       case LinkFailed(instance) =>
         && imp.instance == instance && !imp.linkable
         && (if imp.kind == Workload then imp.target in names else imp.target in plugins)
       case _ => false
  }

  ghost predicate ImportsBlamed(imports: seq<Import>, names: seq<string>, plugins: set<string>, e: Error) {
    exists k :: 0 <= k < |imports| && Causes(imports[k], names, plugins, e)
  }

  /** A workload is the cause of an error, by an import or by not starting. */
  ghost predicate Blamed(ws: seq<WorkloadSpec>, plugins: set<string>, e: Error) {
    exists i :: 0 <= i < |ws| && WorkloadBlamed(ws[i], NameTable(ws), plugins, e)
  }

  ghost predicate WorkloadBlamed(spec: WorkloadSpec, names: seq<string>, plugins: set<string>, e: Error) {
    ImportsBlamed(spec.imports, names, plugins, e) || (e == InstantiateFailed(spec.name) && !spec.instantiable)
  }

  lemma BlamedIsNotFine(imports: seq<Import>, names: seq<string>, plugins: set<string>, e: Error)
    requires ImportsBlamed(imports, names, plugins, e)
    ensures !ImportsFine(imports, names, plugins)
  {
    var k :| 0 <= k < |imports| && Causes(imports[k], names, plugins, e);
    assert !ImportFine(imports[k], names, plugins);
  }

  lemma BlameMeansNotFine(ws: seq<WorkloadSpec>, plugins: set<string>, e: Error)
    requires Blamed(ws, plugins, e)
    ensures !WorkloadsFine(ws, plugins)
  {
    var i :| 0 <= i < |ws| && WorkloadBlamed(ws[i], NameTable(ws), plugins, e);
    if ImportsBlamed(ws[i].imports, NameTable(ws), plugins, e) {
      BlamedIsNotFine(ws[i].imports, NameTable(ws), plugins, e);
    }
  }

  ghost function UsedBelow(imports: seq<Import>, n: nat): set<nat>
    requires n <= |imports|
  {
    set k: nat | k < n && imports[k].used
  }

  ghost function Used(imports: seq<Import>): set<nat> {
    UsedBelow(imports, |imports|)
  }

  ghost function Positions(pending: seq<PendingImport>): set<nat> {
    set p | p in pending :: p.position
  }

  ghost predicate NoDup(pending: seq<PendingImport>) {
    forall a, b | 0 <= a < b < |pending| :: pending[a].position != pending[b].position
  }

  /** Import k is bound to what its configuration names; channels are below `bound`. */
  ghost predicate BindingOk(imp: Import, b: Binding, threads: seq<Thread>, bound: nat, plugins: set<string>) {
    && imp.used && imp.linkable
    && match b
       case ToChannel(c) => imp.kind == Workload && c < bound && c < |threads| && threads[c].name == imp.target
       case ToPlugin(p) => imp.kind == Plugin && p == imp.target && p in plugins
  }

  ghost predicate LinkerOk(imports: seq<Import>, linker: Linker, threads: seq<Thread>, bound: nat, plugins: set<string>) {
    forall k | k in linker :: k < |imports| && BindingOk(imports[k], linker[k], threads, bound, plugins)
  }

  ghost predicate PendingOk(imports: seq<Import>, p: PendingImport, names: seq<string>) {
    && p.position < |imports|
    && p.targetIdx < |names|
    && names[p.targetIdx] == p.target
    && EffectiveTarget(imports[p.position], p.target)
  }

  /** The used imports below n are split between the linker and the pending list. */
  ghost predicate Splits(imports: seq<Import>, n: nat, linker: Linker, pending: seq<PendingImport>)
    requires n <= |imports|
  {
    && linker.Keys + Positions(pending) == UsedBelow(imports, n)
    && linker.Keys !! Positions(pending)
    && NoDup(pending)
  }

  ghost predicate ChannelsOk(slots: seq<Slot>, names: seq<string>, threads: seq<Thread>) {
    && |slots| == |names|
    && forall i | 0 <= i < |slots| && slots[i].Resolved? ::
         slots[i].channel < |threads| && threads[slots[i].channel].name == names[i]
  }

  // --------------------------------------------------------- resolve_imports

  lemma PositionsSnoc(pending: seq<PendingImport>, p: PendingImport)
    ensures Positions(pending + [p]) == Positions(pending) + {p.position}
  {
    forall q | q in Positions(pending) + {p.position} ensures q in Positions(pending + [p]) {
      if q == p.position {
        assert p in pending + [p];
      } else {
        var r :| r in pending && r.position == q;
        assert r in pending + [p];
      }
    }
  }

  lemma PositionsCons(pending: seq<PendingImport>)
    requires pending != [] && NoDup(pending)
    ensures Positions(pending) == {pending[0].position} + Positions(pending[1..])
    ensures pending[0].position !in Positions(pending[1..])
  {
    assert pending == [pending[0]] + pending[1..];
  }

  lemma UsedStep(imports: seq<Import>, n: nat)
    requires n < |imports|
    ensures UsedBelow(imports, n + 1) == UsedBelow(imports, n) + (if imports[n].used then {n} else {})
    ensures n !in UsedBelow(imports, n)
  {
  }

  /** Binds the imports whose targets are started, and returns the others. */
  method ResolveImports(imports: seq<Import>, slots: seq<Slot>, names: seq<string>, plugins: set<string>,
                        ghost threads: seq<Thread>)
    returns (r: Result<Imports, Error>)
    requires Names.StrictlySorted(names) && ChannelsOk(slots, names, threads)
    ensures r.Ok? ==>
              && Splits(imports, |imports|, r.value.linker, r.value.pending)
              && LinkerOk(imports, r.value.linker, threads, |threads|, plugins)
              && forall p | p in r.value.pending ::
                   PendingOk(imports, p, names) && (slots[p.targetIdx].Ready? || slots[p.targetIdx].Unresolved?)
    ensures r.Err? && !r.error.Cycle? ==> ImportsBlamed(imports, names, plugins, r.error)
    ensures r.Err? && r.error.Cycle? ==>
              && r.error.pass == FirstPass
              && exists j :: 0 <= j < |slots| && slots[j].Taken? &&
                   exists k :: 0 <= k < |imports| && EffectiveTarget(imports[k], names[j])
  {
    var linker: Linker := map[];
    var pending := [];
    for k := 0 to |imports|
      invariant Splits(imports, k, linker, pending)
      invariant LinkerOk(imports, linker, threads, |threads|, plugins)
      invariant forall p | p in pending ::
          PendingOk(imports, p, names) && (slots[p.targetIdx].Ready? || slots[p.targetIdx].Unresolved?)
    {
      var imp := imports[k];
      UsedStep(imports, k);
      if !imp.used {
        continue;
      }
      match imp.kind {
      case Workload =>
        var found := Names.BinarySearch(names, imp.target);
        if found.None? {
          assert Causes(imports[k], names, plugins, TargetNotFound(imp.target));
          return Err(TargetNotFound(imp.target));
        }
        match slots[found.value] {
        case Ready(_) | Unresolved(_, _) =>
          var p := PendingImport(k, imp.target, found.value);
          PositionsSnoc(pending, p);
          forall a | 0 <= a < |pending| ensures pending[a].position != k {
            assert pending[a] in pending && pending[a].position in Positions(pending);
          }
          pending := pending + [p];
        case Resolved(c) =>
          if !imp.linkable {
            assert Causes(imports[k], names, plugins, LinkFailed(imp.instance));
            return Err(LinkFailed(imp.instance));
          }
          linker := linker[k := ToChannel(c)];
        case Taken =>
          assert EffectiveTarget(imports[k], names[found.value]);
          return Err(Cycle(FirstPass));
        }
      case Plugin =>
        if imp.target !in plugins {
          assert Causes(imports[k], names, plugins, PluginNotFound(imp.target));
          return Err(PluginNotFound(imp.target));
        }
        if !imp.linkable {
          assert Causes(imports[k], names, plugins, LinkFailed(imp.instance));
          return Err(LinkFailed(imp.instance));
        }
        linker := linker[k := ToPlugin(imp.target)];
      }
    }
    r := Ok(Imports(linker, pending));
  }

  /** A later round's work on one workload: binds what has since been started. */
  method ResumeImports(imports: seq<Import>, linker0: Linker, pending0: seq<PendingImport>, slots: seq<Slot>,
                       ghost names: seq<string>, ghost plugins: set<string>, ghost threads: seq<Thread>)
    returns (r: Result<Imports, Error>)
    requires ChannelsOk(slots, names, threads)
    requires Splits(imports, |imports|, linker0, pending0)
    requires LinkerOk(imports, linker0, threads, |threads|, plugins)
    requires forall p | p in pending0 :: PendingOk(imports, p, names)
    ensures r.Ok? ==>
              && Splits(imports, |imports|, r.value.linker, r.value.pending)
              && LinkerOk(imports, r.value.linker, threads, |threads|, plugins)
              && forall p | p in r.value.pending ::
                   p in pending0 && p.targetIdx < |slots| && (slots[p.targetIdx].Ready? || slots[p.targetIdx].Unresolved?)
    ensures r.Err? && !r.error.Cycle? ==> r.error.LinkFailed? && ImportsBlamed(imports, names, plugins, r.error)
    ensures r.Err? && r.error.Cycle? ==> exists p :: p in pending0 && p.targetIdx < |slots| && slots[p.targetIdx].Taken?
  {
    var linker, pending := linker0, [];
    for m := 0 to |pending0|
      invariant linker.Keys + Positions(pending) + Positions(pending0[m..]) == Used(imports)
      invariant linker.Keys !! Positions(pending) !! Positions(pending0[m..])
      invariant NoDup(pending)
      invariant LinkerOk(imports, linker, threads, |threads|, plugins)
      invariant forall p | p in pending :: p in pending0 && p.targetIdx < |slots| && (slots[p.targetIdx].Ready? || slots[p.targetIdx].Unresolved?)
    {
      var p := pending0[m];
      assert p in pending0;
      assert NoDup(pending0[m..]);
      PositionsCons(pending0[m..]);
      assert pending0[m..][1..] == pending0[m + 1..];
      match slots[p.targetIdx]
      case Ready(_) | Unresolved(_, _) =>
        PositionsSnoc(pending, p);
        forall a | 0 <= a < |pending| ensures pending[a].position != p.position {
          assert pending[a] in pending && pending[a].position in Positions(pending);
        }
        pending := pending + [p];
      case Resolved(c) =>
        if !imports[p.position].linkable {
          assert Causes(imports[p.position], names, plugins, LinkFailed(imports[p.position].instance));
          return Err(LinkFailed(imports[p.position].instance));
        }
        linker := linker[p.position := ToChannel(c)];
      case Taken =>
        return Err(Cycle(LaterPass));
    }
    assert Positions(pending0[|pending0|..]) == {};
    r := Ok(Imports(linker, pending));
  }

  // ----------------------------------------------------- state of resolution

  function InstanceLimit(spec: WorkloadSpec, engineMax: nat): nat {
    match spec.limit
    case Some(max) => if max < engineMax then max else engineMax
    case None => engineMax
  }

  function PoolSize(spec: WorkloadSpec, engineMax: nat): nat {
    var max := InstanceLimit(spec, engineMax);
    if spec.pool < max then spec.pool else max
  }

  function Compile(spec: WorkloadSpec, engineMax: nat): Compiled {
    Compiled(map[], PoolSize(spec, engineMax), InstanceLimit(spec, engineMax))
  }

  ghost predicate SizesOk(spec: WorkloadSpec, poolSize: nat, maxInstances: nat, engineMax: nat) {
    poolSize == PoolSize(spec, engineMax) && maxInstances == InstanceLimit(spec, engineMax)
  }

  /** Thread c runs the workload it is named after, with every used import bound,
      and holds channels of threads started before it only. */
  ghost predicate ThreadOk(ws: seq<WorkloadSpec>, threads: seq<Thread>, c: nat, plugins: set<string>, engineMax: nat)
    requires c < |threads|
  {
    var t := threads[c];
    && t.index < |ws|
    && ws[t.index].instantiable
    && t.name == ws[t.index].name
    && t.linker.Keys == Used(ws[t.index].imports)
    && LinkerOk(ws[t.index].imports, t.linker, threads, c, plugins)
    && SizesOk(ws[t.index], t.poolSize, t.maxInstances, engineMax)
  }

  ghost predicate ThreadsOk(ws: seq<WorkloadSpec>, threads: seq<Thread>, plugins: set<string>, engineMax: nat) {
    forall c | 0 <= c < |threads| :: ThreadOk(ws, threads, c, plugins, engineMax)
  }

  ghost predicate SlotOk(ws: seq<WorkloadSpec>, i: nat, slot: Slot, threads: seq<Thread>, plugins: set<string>, engineMax: nat)
    requires i < |ws|
  {
    match slot
    case Taken => false
    case Ready(w) => w == Compile(ws[i], engineMax)
    case Unresolved(w, pending) =>
      && pending != []
      && SizesOk(ws[i], w.poolSize, w.maxInstances, engineMax)
      && Splits(ws[i].imports, |ws[i].imports|, w.linker, pending)
      && LinkerOk(ws[i].imports, w.linker, threads, |threads|, plugins)
      && (forall p | p in pending :: PendingOk(ws[i].imports, p, NameTable(ws)) && p.targetIdx != i)
    case Resolved(c) => c < |threads| && threads[c].index == i
  }

  /** What every step of resolution keeps; slot `hole` may be taken. */
  ghost predicate Consistent(ws: seq<WorkloadSpec>, slots: seq<Slot>, threads: seq<Thread>, plugins: set<string>,
                             engineMax: nat, hole: int) {
    && |slots| == |ws|
    && ThreadsOk(ws, threads, plugins, engineMax)
    && (forall c | 0 <= c < |threads| :: threads[c].index < |slots| && slots[threads[c].index] == Resolved(c))
    && (forall i | 0 <= i < |slots| && i != hole :: SlotOk(ws, i, slots[i], threads, plugins, engineMax))
    && (0 <= hole < |slots| ==> slots[hole].Taken?)
  }

  ghost predicate Increasing(s: seq<nat>) {
    forall a, b | 0 <= a < b < |s| :: s[a] < s[b]
  }

  /** The pending list names exactly the unresolved slots; no slot is left unread. */
  ghost predicate Lists(slots: seq<Slot>, unresolved: seq<nat>) {
    && Increasing(unresolved)
    && (forall i | i in unresolved :: i < |slots|)
    && (forall i: nat | i < |slots| :: if i in unresolved then slots[i].Unresolved? else slots[i].Resolved?)
  }

  ghost predicate ErrorOk(ws: seq<WorkloadSpec>, plugins: set<string>, e: Error) {
    match e
    case Cycle(pass) => pass != LaterPass && !Acyclic(ImportGraph(ws))
    case Corrupted => false
    case ServiceUnresolved(_) => false
    case _ => Blamed(ws, plugins, e)
  }

  /** A chain of imports of n nodes starts at workload i. */
  ghost predicate ChainFrom(ws: seq<WorkloadSpec>, i: nat, n: nat) {
    exists p :: IsPath(ImportGraph(ws), p) && p[0] == i && |p| == n
  }

  lemma ChainCons(ws: seq<WorkloadSpec>, i: nat, j: nat, n: nat)
    requires i < |ws| && j in ImportGraph(ws)[i] && ChainFrom(ws, j, n)
    ensures ChainFrom(ws, i, n + 1)
  {
    var q :| IsPath(ImportGraph(ws), q) && q[0] == j && |q| == n;
    var p := PathCons(ImportGraph(ws), i, q);
  }

  lemma ChainOfOne(ws: seq<WorkloadSpec>, i: nat)
    requires i < |ws|
    ensures ChainFrom(ws, i, 1)
  {
    assert IsPath(ImportGraph(ws), [i]);
  }

  lemma PendingIsEdge(ws: seq<WorkloadSpec>, i: nat, p: PendingImport)
    requires i < |ws| && PendingOk(ws[i].imports, p, NameTable(ws))
    ensures p.targetIdx in ImportGraph(ws)[i]
  {
    assert EffectiveTarget(ws[i].imports[p.position], ws[p.targetIdx].name);
  }

  lemma ConsistentChannels(ws: seq<WorkloadSpec>, slots: seq<Slot>, threads: seq<Thread>, plugins: set<string>,
                           engineMax: nat, hole: int)
    requires Consistent(ws, slots, threads, plugins, engineMax, hole)
    ensures ChannelsOk(slots, NameTable(ws), threads)
  {
    forall i | 0 <= i < |slots| && slots[i].Resolved?
      ensures slots[i].channel < |threads| && threads[slots[i].channel].name == NameTable(ws)[i]
    {
      assert SlotOk(ws, i, slots[i], threads, plugins, engineMax);
      assert ThreadOk(ws, threads, slots[i].channel, plugins, engineMax);
    }
  }

  // -------------------------------------------------- instantiate_workload

  method Instantiate(spec: WorkloadSpec, index: nat, w: Compiled, threads: seq<Thread>)
    returns (r: Result<seq<Thread>, Error>)
    ensures r.Ok? <==> spec.instantiable
    ensures r.Ok? ==> r.value == threads + [Thread(index, spec.name, w.linker, w.poolSize, w.maxInstances)]
    ensures r.Err? ==> r.error == InstantiateFailed(spec.name)
  {
    if !spec.instantiable {
      return Err(InstantiateFailed(spec.name));
    }
    r := Ok(threads + [Thread(index, spec.name, w.linker, w.poolSize, w.maxInstances)]);
  }

  lemma MoreThreads(imports: seq<Import>, linker: Linker, threads: seq<Thread>, t: Thread, bound: nat, plugins: set<string>)
    requires LinkerOk(imports, linker, threads, bound, plugins)
    ensures LinkerOk(imports, linker, threads + [t], bound, plugins)
    ensures bound <= |threads| ==> LinkerOk(imports, linker, threads + [t], |threads| + 1, plugins)
  {
  }

  /** Starting a fully bound workload fills the hole. */
  lemma FillHole(ws: seq<WorkloadSpec>, slots: seq<Slot>, threads: seq<Thread>, plugins: set<string>, engineMax: nat,
                 i: nat, w: Compiled)
    requires i < |ws| && Consistent(ws, slots, threads, plugins, engineMax, i)
    requires ws[i].instantiable && SizesOk(ws[i], w.poolSize, w.maxInstances, engineMax)
    requires Splits(ws[i].imports, |ws[i].imports|, w.linker, [])
    requires LinkerOk(ws[i].imports, w.linker, threads, |threads|, plugins)
    ensures Consistent(ws, slots[i := Resolved(|threads|)],
                       threads + [Thread(i, ws[i].name, w.linker, w.poolSize, w.maxInstances)], plugins, engineMax, -1)
  {
    var t := Thread(i, ws[i].name, w.linker, w.poolSize, w.maxInstances);
    var threads' := threads + [t];
    var slots' := slots[i := Resolved(|threads|)];
    assert Positions([]) == {};
    forall c | 0 <= c < |threads'| ensures ThreadOk(ws, threads', c, plugins, engineMax) {
      if c < |threads| {
        assert ThreadOk(ws, threads, c, plugins, engineMax);
        MoreThreads(ws[threads[c].index].imports, threads[c].linker, threads, t, c, plugins);
      } else {
        MoreThreads(ws[i].imports, w.linker, threads, t, |threads|, plugins);
      }
    }
    forall k | 0 <= k < |slots'| ensures SlotOk(ws, k, slots'[k], threads', plugins, engineMax) {
      if k != i {
        assert SlotOk(ws, k, slots[k], threads, plugins, engineMax);
        if slots[k].Unresolved? {
          MoreThreads(ws[k].imports, slots[k].workload.linker, threads, t, |threads|, plugins);
        }
      }
    }
  }

  // -------------------------------------------------------------- first pass

  /** What the passes hand to each other: the pending list and the started threads. */
  datatype Progress = Progress(unresolved: seq<nat>, threads: seq<Thread>)

  ghost predicate PassOk(ws: seq<WorkloadSpec>, slots: seq<Slot>, p: Progress, plugins: set<string>, engineMax: nat) {
    && Consistent(ws, slots, p.threads, plugins, engineMax, -1)
    && Lists(slots, p.unresolved)
  }

  lemma TakeSlot(ws: seq<WorkloadSpec>, slots: seq<Slot>, threads: seq<Thread>, plugins: set<string>, engineMax: nat, i: nat)
    requires Consistent(ws, slots, threads, plugins, engineMax, -1)
    requires i < |slots| && !slots[i].Resolved?
    ensures Consistent(ws, slots[i := Taken], threads, plugins, engineMax, i)
    ensures ChannelsOk(slots[i := Taken], NameTable(ws), threads)
  {
    ConsistentChannels(ws, slots[i := Taken], threads, plugins, engineMax, i);
  }

  lemma RestoreSlot(ws: seq<WorkloadSpec>, slots: seq<Slot>, threads: seq<Thread>, plugins: set<string>, engineMax: nat,
                    i: nat, slot: Slot)
    requires i < |ws| && Consistent(ws, slots, threads, plugins, engineMax, i)
    requires slot.Unresolved? && SlotOk(ws, i, slot, threads, plugins, engineMax)
    ensures Consistent(ws, slots[i := slot], threads, plugins, engineMax, -1)
  {
  }

  /** The end of either pass's work on one workload: store what is still pending,
      or start the workload. */
  method Settle(ws: seq<WorkloadSpec>, ghost plugins: set<string>, ghost engineMax: nat, slots: array<Slot>, idx: nat,
                workload: Compiled, pending: seq<PendingImport>, threads: seq<Thread>)
    returns (r: Result<seq<Thread>, Error>)
    requires idx < |ws| && Consistent(ws, slots[..], threads, plugins, engineMax, idx)
    requires SizesOk(ws[idx], workload.poolSize, workload.maxInstances, engineMax)
    requires Splits(ws[idx].imports, |ws[idx].imports|, workload.linker, pending)
    requires LinkerOk(ws[idx].imports, workload.linker, threads, |threads|, plugins)
    requires forall p | p in pending :: PendingOk(ws[idx].imports, p, NameTable(ws)) && p.targetIdx != idx
    modifies slots
    ensures r.Ok? ==>
              && Consistent(ws, slots[..], r.value, plugins, engineMax, -1)
              && slots[..] == old(slots[..])[idx := slots[idx]]
              && (if pending != [] then slots[idx].Unresolved? else slots[idx].Resolved?)
    ensures r.Err? ==> r.error == InstantiateFailed(ws[idx].name) && !ws[idx].instantiable
  {
    ghost var before := slots[..];
    if pending != [] {
      slots[idx] := Unresolved(workload, pending);
      RestoreSlot(ws, before, threads, plugins, engineMax, idx, Unresolved(workload, pending));
      assert slots[..] == before[idx := slots[idx]];
      return Ok(threads);
    }
    var started := Instantiate(ws[idx], idx, workload, threads);
    if started.Err? {
      return Err(started.error);
    }
    slots[idx] := Resolved(|threads|);
    FillHole(ws, before, threads, plugins, engineMax, idx, workload);
    assert slots[..] == before[idx := slots[idx]];
    r := Ok(started.value);
  }

  /** The first pass over one workload. */
  method ResolveOne(ws: seq<WorkloadSpec>, names: seq<string>, plugins: set<string>, ghost engineMax: nat,
                    slots: array<Slot>, idx: nat, threads: seq<Thread>)
    returns (r: Result<seq<Thread>, Error>)
    requires names == NameTable(ws) && Names.StrictlySorted(names)
    requires Consistent(ws, slots[..], threads, plugins, engineMax, -1)
    requires idx < |ws| && slots[idx] == Ready(Compile(ws[idx], engineMax))
    modifies slots
    ensures r.Ok? ==>
              && Consistent(ws, slots[..], r.value, plugins, engineMax, -1)
              && slots[..] == old(slots[..])[idx := slots[idx]]
              && (slots[idx].Unresolved? || slots[idx].Resolved?)
              && (slots[idx].Unresolved? ==> ChainFrom(ws, idx, 2))
    ensures r.Err? ==> ErrorOk(ws, plugins, r.error)
  {
    ghost var before := slots[..];
    if !slots[idx].Ready? {
      return Err(Corrupted);
    }
    var workload := slots[idx].workload;
    slots[idx] := Taken;
    assert slots[..] == before[idx := Taken];
    TakeSlot(ws, before, threads, plugins, engineMax, idx);
    var imports := ResolveImports(ws[idx].imports, slots[..], names, plugins, threads);
    if imports.Err? {
      if imports.error.Cycle? {
        SelfImportIsCycle(ws, slots[..], idx);
      }
      assert !imports.error.Cycle? ==> WorkloadBlamed(ws[idx], NameTable(ws), plugins, imports.error);
      return Err(imports.error);
    }
    if imports.value.pending != [] {
      FirstPendingIsEdge(ws, idx, imports.value.pending);
      ChainOfOne(ws, imports.value.pending[0].targetIdx);
      ChainCons(ws, idx, imports.value.pending[0].targetIdx, 1);
    }
    r := Settle(ws, plugins, engineMax, slots, idx, workload.(linker := imports.value.linker), imports.value.pending, threads);
    assert r.Err? ==> WorkloadBlamed(ws[idx], NameTable(ws), plugins, r.error);
  }

  lemma FirstPendingIsEdge(ws: seq<WorkloadSpec>, i: nat, pending: seq<PendingImport>)
    requires i < |ws| && pending != []
    requires forall p | p in pending :: PendingOk(ws[i].imports, p, NameTable(ws))
    ensures pending[0] in pending && pending[0].targetIdx in ImportGraph(ws)[i]
  {
    PendingIsEdge(ws, i, pending[0]);
  }

  lemma IncreasingSnoc(s: seq<nat>, x: nat)
    requires Increasing(s) && forall i | i in s :: i < x
    ensures Increasing(s + [x])
  {
    forall a | 0 <= a < |s| ensures s[a] < x {
      assert s[a] in s;
    }
  }

  method FirstRound(ws: seq<WorkloadSpec>, names: seq<string>, plugins: set<string>, ghost engineMax: nat, slots: array<Slot>)
    returns (r: Result<Progress, Error>)
    requires names == NameTable(ws) && Names.StrictlySorted(names)
    requires slots.Length == |ws|
    requires forall i | 0 <= i < |ws| :: slots[i] == Ready(Compile(ws[i], engineMax))
    modifies slots
    ensures r.Ok? ==> PassOk(ws, slots[..], r.value, plugins, engineMax)
    ensures r.Ok? ==> forall i | i in r.value.unresolved :: ChainFrom(ws, i, 2)
    ensures r.Err? ==> ErrorOk(ws, plugins, r.error)
  {
    var unresolved: seq<nat>, threads: seq<Thread> := [], [];
    for idx := 0 to |ws|
      invariant Consistent(ws, slots[..], threads, plugins, engineMax, -1)
      invariant forall i | idx <= i < |ws| :: slots[i] == Ready(Compile(ws[i], engineMax))
      invariant forall i: nat | i < idx :: if i in unresolved then slots[i].Unresolved? else slots[i].Resolved?
      invariant Increasing(unresolved) && forall i | i in unresolved :: i < idx
      invariant forall i | i in unresolved :: ChainFrom(ws, i, 2)
    {
      ghost var before := slots[..];
      var started := ResolveOne(ws, names, plugins, engineMax, slots, idx, threads);
      if started.Err? {
        return Err(started.error);
      }
      threads := started.value;
      assert forall i | 0 <= i < |ws| && i != idx :: slots[..][i] == before[i];
      if slots[idx].Unresolved? {
        IncreasingSnoc(unresolved, idx);
        unresolved := unresolved + [idx];
      }
    }
    r := Ok(Progress(unresolved, threads));
  }

  lemma SelfImportIsCycle(ws: seq<WorkloadSpec>, slots: seq<Slot>, idx: nat)
    requires idx < |ws| == |slots|
    requires forall i | 0 <= i < |slots| && slots[i].Taken? :: i == idx
    requires exists j :: 0 <= j < |slots| && slots[j].Taken? &&
               exists k :: 0 <= k < |ws[idx].imports| && EffectiveTarget(ws[idx].imports[k], NameTable(ws)[j])
    ensures !Acyclic(ImportGraph(ws))
  {
    assert DependsOn(ws, idx, idx);
    assert IsCycle(ImportGraph(ws), [idx, idx]);
  }

  // ------------------------------------------------------------ later rounds

  /** A later round's work on one pending workload. */
  method ResumeOne(ws: seq<WorkloadSpec>, ghost plugins: set<string>, ghost engineMax: nat, slots: array<Slot>, idx: nat,
                   threads: seq<Thread>)
    returns (r: Result<seq<Thread>, Error>)
    requires Consistent(ws, slots[..], threads, plugins, engineMax, -1)
    requires idx < |ws| && slots[idx].Unresolved?
    requires forall i | 0 <= i < |ws| :: !slots[i].Ready?
    modifies slots
    ensures r.Ok? ==>
              && Consistent(ws, slots[..], r.value, plugins, engineMax, -1)
              && slots[..] == old(slots[..])[idx := slots[idx]]
              && (slots[idx].Unresolved? || slots[idx].Resolved?)
              && (slots[idx].Unresolved? ==>
                    exists t :: t in ImportGraph(ws)[idx] && t < |ws| && old(slots[..])[t].Unresolved?)
    ensures r.Err? ==> ErrorOk(ws, plugins, r.error)
  {
    ghost var before := slots[..];
    if !slots[idx].Unresolved? {
      return Err(Corrupted);
    }
    var workload, pending := slots[idx].workload, slots[idx].pending;
    assert SlotOk(ws, idx, before[idx], threads, plugins, engineMax);
    slots[idx] := Taken;
    assert slots[..] == before[idx := Taken];
    TakeSlot(ws, before, threads, plugins, engineMax, idx);
    var imports := ResumeImports(ws[idx].imports, workload.linker, pending, slots[..], NameTable(ws), plugins, threads);
    if imports.Err? {
      assert !imports.error.Cycle? ==> WorkloadBlamed(ws[idx], NameTable(ws), plugins, imports.error);
      return Err(imports.error);
    }
    if imports.value.pending != [] {
      FirstPendingIsEdge(ws, idx, imports.value.pending);
      assert before[imports.value.pending[0].targetIdx].Unresolved?;
    }
    r := Settle(ws, plugins, engineMax, slots, idx, workload.(linker := imports.value.linker), imports.value.pending, threads);
    assert r.Err? ==> WorkloadBlamed(ws[idx], NameTable(ws), plugins, r.error);
  }

  ghost predicate StillWaits(ws: seq<WorkloadSpec>, i: nat, unresolved: seq<nat>) {
    i < |ws| && exists t :: t in unresolved && t in ImportGraph(ws)[i]
  }

  /** Part-way through a round: `next` is what stays pending of done, `rest` is to come. */
  ghost predicate Walked(ws: seq<WorkloadSpec>, slots: seq<Slot>, unresolved: seq<nat>, k: nat, next: seq<nat>)
    requires k <= |unresolved|
  {
    && Increasing(next) && |next| <= k && (|next| == k ==> next == unresolved[..k])
    && (forall i | i in next :: i in unresolved[..k] && StillWaits(ws, i, unresolved))
    && (forall i: nat | i < |slots| :: if i in next || i in unresolved[k..] then slots[i].Unresolved? else slots[i].Resolved?)
  }

  lemma WalkOne(ws: seq<WorkloadSpec>, slots: seq<Slot>, slots': seq<Slot>, unresolved: seq<nat>, k: nat, next: seq<nat>)
    requires Increasing(unresolved) && k < |unresolved| && unresolved[k] < |slots|
    requires Walked(ws, slots, unresolved, k, next)
    requires |slots'| == |slots|
    requires slots' == slots[unresolved[k] := slots'[unresolved[k]]]
    requires slots'[unresolved[k]].Unresolved? || slots'[unresolved[k]].Resolved?
    requires slots'[unresolved[k]].Unresolved? ==> StillWaits(ws, unresolved[k], unresolved)
    ensures Walked(ws, slots', unresolved, k + 1,
                   if slots'[unresolved[k]].Unresolved? then next + [unresolved[k]] else next)
  {
    SplitAt(unresolved, k);
    IncreasingSnoc(next, unresolved[k]);
  }

  /** One step of a round: resumes the k-th pending workload. */
  method RoundStep(ws: seq<WorkloadSpec>, ghost plugins: set<string>, ghost engineMax: nat, slots: array<Slot>,
                   unresolved: seq<nat>, k: nat, next: seq<nat>, threads: seq<Thread>)
    returns (r: Result<Progress, Error>)
    requires Increasing(unresolved) && k < |unresolved| && unresolved[k] < |ws|
    requires Consistent(ws, slots[..], threads, plugins, engineMax, -1)
    requires Walked(ws, slots[..], unresolved, k, next)
    modifies slots
    ensures r.Ok? ==>
              && Consistent(ws, slots[..], r.value.threads, plugins, engineMax, -1)
              && Walked(ws, slots[..], unresolved, k + 1, r.value.unresolved)
    ensures r.Err? ==> ErrorOk(ws, plugins, r.error)
  {
    ghost var before := slots[..];
    var idx := unresolved[k];
    SplitAt(unresolved, k);
    var started := ResumeOne(ws, plugins, engineMax, slots, idx, threads);
    if started.Err? {
      return Err(started.error);
    }
    if slots[idx].Unresolved? {
      WaitsOnList(ws, before, unresolved, k, next);
    }
    WalkOne(ws, before, slots[..], unresolved, k, next);
    r := Ok(Progress(if slots[idx].Unresolved? then next + [idx] else next, started.value));
  }

  /** One pass over the pending list. What stays pending is a subsequence of it,
      each member of which still imports a member of the list. */
  method Round(ws: seq<WorkloadSpec>, ghost plugins: set<string>, ghost engineMax: nat, slots: array<Slot>, start: Progress)
    returns (r: Result<Progress, Error>)
    requires PassOk(ws, slots[..], start, plugins, engineMax)
    modifies slots
    ensures r.Ok? ==> PassOk(ws, slots[..], r.value, plugins, engineMax)
    ensures r.Ok? ==> r.value.unresolved == start.unresolved || |r.value.unresolved| < |start.unresolved|
    ensures r.Ok? ==> forall i | i in r.value.unresolved :: i in start.unresolved && StillWaits(ws, i, start.unresolved)
    ensures r.Err? ==> ErrorOk(ws, plugins, r.error)
  {
    var unresolved := start.unresolved;
    var next: seq<nat>, threads := [], start.threads;
    WalkStarts(ws, slots[..], unresolved);
    for k := 0 to |unresolved|
      invariant Consistent(ws, slots[..], threads, plugins, engineMax, -1)
      invariant Walked(ws, slots[..], unresolved, k, next)
    {
      assert unresolved[k] in unresolved;
      var step := RoundStep(ws, plugins, engineMax, slots, unresolved, k, next, threads);
      if step.Err? {
        return Err(step.error);
      }
      next, threads := step.value.unresolved, step.value.threads;
    }
    WalkEnds(ws, slots[..], unresolved, next);
    r := Ok(Progress(next, threads));
  }

  lemma WalkStarts(ws: seq<WorkloadSpec>, slots: seq<Slot>, unresolved: seq<nat>)
    requires Lists(slots, unresolved)
    ensures Walked(ws, slots, unresolved, 0, [])
  {
  }

  lemma WalkEnds(ws: seq<WorkloadSpec>, slots: seq<Slot>, unresolved: seq<nat>, next: seq<nat>)
    requires Walked(ws, slots, unresolved, |unresolved|, next)
    requires forall i | i in unresolved :: i < |slots|
    ensures Lists(slots, next)
    ensures next == unresolved || |next| < |unresolved|
    ensures forall i | i in next :: i in unresolved && StillWaits(ws, i, unresolved)
  {
    assert unresolved[..|unresolved|] == unresolved && unresolved[|unresolved|..] == [];
  }

  lemma WaitsOnList(ws: seq<WorkloadSpec>, slots: seq<Slot>, unresolved: seq<nat>, k: nat, next: seq<nat>)
    requires k < |unresolved| && unresolved[k] < |ws| == |slots|
    requires Walked(ws, slots, unresolved, k, next)
    requires exists t :: t in ImportGraph(ws)[unresolved[k]] && t < |ws| && slots[t].Unresolved?
    ensures StillWaits(ws, unresolved[k], unresolved)
  {
    var t :| t in ImportGraph(ws)[unresolved[k]] && t < |ws| && slots[t].Unresolved?;
    assert unresolved == unresolved[..k] + unresolved[k..];
  }

  lemma SplitAt(s: seq<nat>, k: nat)
    requires Increasing(s) && k < |s|
    ensures s[k] in s && s[k] in s[k..] && s[k] !in s[..k] && s[k] !in s[k + 1..]
    ensures s[..k + 1] == s[..k] + [s[k]]
    ensures forall i | i in s[..k] :: i < s[k] && i in s
    ensures forall i :: i in s[k..] <==> i == s[k] || i in s[k + 1..]
    ensures forall i | i in s[k..] :: i in s
  {
    assert s[k..] == [s[k]] + s[k + 1..];
  }

  // ------------------------------------------------------------- whole thing

  /** The started threads, the final slots and the number of later rounds. */
  datatype Plan = Plan(threads: seq<Thread>, slots: seq<Slot>, rounds: nat)

  /** Every workload runs in exactly one thread, started after those it imports. */
  ghost predicate PlanOk(ws: seq<WorkloadSpec>, plan: Plan, plugins: set<string>, engineMax: nat) {
    && Consistent(ws, plan.slots, plan.threads, plugins, engineMax, -1)
    && (forall i | 0 <= i < |ws| :: plan.slots[i].Resolved?)
  }

  method ResolveWorkloads(ws: seq<WorkloadSpec>, plugins: set<string>, engineMax: nat) returns (r: Result<Plan, Error>)
    requires Names.StrictlySorted(NameTable(ws))
    ensures r.Ok? <==> WorkloadsFine(ws, plugins) && Acyclic(ImportGraph(ws))
    ensures r.Err? ==> ErrorOk(ws, plugins, r.error)
    ensures r.Ok? ==> PlanOk(ws, r.value, plugins, engineMax)
    ensures r.Ok? && r.value.rounds > 0 ==> exists p :: IsPath(ImportGraph(ws), p) && |p| == r.value.rounds + 1
    ensures r.Ok? && r.value.rounds > 0 ==> r.value.rounds < |ws|
  {
    var names, compiled: seq<Slot> := [], [];
    for i := 0 to |ws|
      invariant names == NameTable(ws)[..i]
      invariant |compiled| == i && forall k | 0 <= k < i :: compiled[k] == Ready(Compile(ws[k], engineMax))
    {
      names := names + [ws[i].name];
      compiled := compiled + [Ready(Compile(ws[i], engineMax))];
    }
    assert names == NameTable(ws);
    var slots := new Slot[|ws|](i requires 0 <= i < |compiled| => compiled[i]);
    var first := FirstRound(ws, names, plugins, engineMax, slots);
    if first.Err? {
      ErrorExcludesSuccess(ws, plugins, first.error);
      return Err(first.error);
    }
    var progress, rounds := first.value, 0;
    while progress.unresolved != []
      invariant PassOk(ws, slots[..], progress, plugins, engineMax)
      invariant forall i | i in progress.unresolved :: ChainFrom(ws, i, rounds + 2)
      invariant rounds > 0 ==> exists p :: IsPath(ImportGraph(ws), p) && |p| == rounds + 1
      decreases |progress.unresolved|
    {
      var i0 := progress.unresolved[0];
      assert i0 in progress.unresolved;
      var next := Round(ws, plugins, engineMax, slots, progress);
      if next.Err? {
        ErrorExcludesSuccess(ws, plugins, next.error);
        return Err(next.error);
      }
      if progress.unresolved == next.value.unresolved {
        StuckRoundIsCycle(ws, progress.unresolved);
        ErrorExcludesSuccess(ws, plugins, Cycle(StuckRound));
        return Err(Cycle(StuckRound));
      }
      forall i | i in next.value.unresolved ensures ChainFrom(ws, i, rounds + 3) {
        var t :| t in progress.unresolved && t in ImportGraph(ws)[i];
        ChainCons(ws, i, t, rounds + 2);
      }
      progress, rounds := next.value, rounds + 1;
    }
    var plan := Plan(progress.threads, slots[..], rounds);
    PlanMeansFine(ws, plan, plugins, engineMax);
    if rounds > 0 {
      ghost var p :| IsPath(ImportGraph(ws), p) && |p| == rounds + 1;
      AcyclicPathBound(ImportGraph(ws), p);
    }
    r := Ok(plan);
  }

  lemma ErrorExcludesSuccess(ws: seq<WorkloadSpec>, plugins: set<string>, e: Error)
    requires ErrorOk(ws, plugins, e)
    ensures !(WorkloadsFine(ws, plugins) && Acyclic(ImportGraph(ws)))
  {
    if !e.Cycle? {
      BlameMeansNotFine(ws, plugins, e);
    }
  }

  lemma StuckRoundIsCycle(ws: seq<WorkloadSpec>, unresolved: seq<nat>)
    requires unresolved != []
    requires forall i | i in unresolved :: StillWaits(ws, i, unresolved)
    ensures !Acyclic(ImportGraph(ws))
  {
    var g, s := ImportGraph(ws), set i | i in unresolved;
    assert unresolved[0] in s;
    forall i | i in s ensures LeadsInto(g, i, s) {
      assert StillWaits(ws, i, unresolved);
      var t :| t in unresolved && t in g[i];
      assert t in s;
    }
    StuckHasCycle(g, s);
  }

  /** Start order ranks the import graph, so a finished plan has no cycle. */
  lemma PlanMeansFine(ws: seq<WorkloadSpec>, plan: Plan, plugins: set<string>, engineMax: nat)
    requires PlanOk(ws, plan, plugins, engineMax) && Names.StrictlySorted(NameTable(ws))
    ensures WorkloadsFine(ws, plugins) && Acyclic(ImportGraph(ws))
  {
    forall i | 0 <= i < |ws| ensures ws[i].instantiable && ImportsFine(ws[i].imports, NameTable(ws), plugins) {
      PlanImportFine(ws, plan, plugins, engineMax, i);
    }
    var rank := seq(|ws|, i requires 0 <= i < |ws| => plan.slots[i].channel);
    forall i, j | 0 <= i < |ws| && j in ImportGraph(ws)[i] && j < |ws| ensures rank[j] < rank[i] {
      ImportsStartFirst(ws, plan.slots, plan.threads, plugins, engineMax, -1, i, j);
    }
    RankedIsAcyclic(ImportGraph(ws), rank);
  }

  lemma PlanImportFine(ws: seq<WorkloadSpec>, plan: Plan, plugins: set<string>, engineMax: nat, i: nat)
    requires PlanOk(ws, plan, plugins, engineMax) && i < |ws|
    ensures ws[i].instantiable && ImportsFine(ws[i].imports, NameTable(ws), plugins)
  {
    assert SlotOk(ws, i, plan.slots[i], plan.threads, plugins, engineMax);
    var c := plan.slots[i].channel;
    assert ThreadOk(ws, plan.threads, c, plugins, engineMax);
    forall k | 0 <= k < |ws[i].imports| ensures ImportFine(ws[i].imports[k], NameTable(ws), plugins) {
      var imp := ws[i].imports[k];
      if imp.used {
        assert k in Used(ws[i].imports);
        var b := plan.threads[c].linker[k];
        if b.ToChannel? {
          assert ThreadOk(ws, plan.threads, b.channel, plugins, engineMax);
          assert NameTable(ws)[plan.threads[b.channel].index] == imp.target;
        }
      }
    }
  }

  /** Once i is started, so is every j it imports: before i, and i holds its channel. */
  lemma ImportsStartFirst(ws: seq<WorkloadSpec>, slots: seq<Slot>, threads: seq<Thread>, plugins: set<string>,
                          engineMax: nat, hole: int, i: nat, j: nat)
    requires Consistent(ws, slots, threads, plugins, engineMax, hole) && Names.StrictlySorted(NameTable(ws))
    requires i < |ws| && j < |ws| && DependsOn(ws, i, j) && slots[i].Resolved?
    ensures slots[j].Resolved? && slots[j].channel < slots[i].channel < |threads|
    ensures exists k :: k in threads[slots[i].channel].linker &&
              threads[slots[i].channel].linker[k] == ToChannel(slots[j].channel)
  {
    var k :| 0 <= k < |ws[i].imports| && EffectiveTarget(ws[i].imports[k], ws[j].name);
    assert SlotOk(ws, i, slots[i], threads, plugins, engineMax);
    var c := slots[i].channel;
    assert ThreadOk(ws, threads, c, plugins, engineMax);
    assert k in Used(ws[i].imports);
    var b := threads[c].linker[k];
    assert ThreadOk(ws, threads, b.channel, plugins, engineMax);
    var target := threads[b.channel].index;
    assert NameTable(ws)[target] == NameTable(ws)[j];
    Names.SortedNamesDistinct(NameTable(ws), target, j);
  }

  /** At no point of any resolution has a workload been started that is stuck in a
      cycle: it would have had to be started before itself. */
  lemma CycleNeverStarts(ws: seq<WorkloadSpec>, slots: seq<Slot>, threads: seq<Thread>, plugins: set<string>,
                         engineMax: nat, hole: int, c: seq<nat>, k: nat)
    requires Consistent(ws, slots, threads, plugins, engineMax, hole) && Names.StrictlySorted(NameTable(ws))
    requires IsCycle(ImportGraph(ws), c) && k < |c|
    ensures !slots[c[k]].Resolved?
  {
    var s := set m | 0 <= m < |c| :: c[m];
    CycleIsStuck(ImportGraph(ws), c);
    StuckNeverStarts(ws, slots, threads, plugins, engineMax, hole, s, c[k]);
  }

  lemma {:induction false} StuckNeverStarts(ws: seq<WorkloadSpec>, slots: seq<Slot>, threads: seq<Thread>,
                                            plugins: set<string>, engineMax: nat, hole: int, s: set<nat>, i: nat)
    requires Consistent(ws, slots, threads, plugins, engineMax, hole) && Names.StrictlySorted(NameTable(ws))
    requires Stuck(ImportGraph(ws), s) && i in s
    ensures i < |ws| && !slots[i].Resolved?
    decreases if i < |slots| && slots[i].Resolved? then slots[i].channel + 1 else 0
  {
    assert LeadsInto(ImportGraph(ws), i, s);
    if slots[i].Resolved? {
      var j :| j in ImportGraph(ws)[i] && j in s;
      ImportsStartFirst(ws, slots, threads, plugins, engineMax, hole, i, j);
      StuckNeverStarts(ws, slots, threads, plugins, engineMax, hole, s, j);
    }
  }

  /** Each used import of each workload is bound, once, to what its configuration
      names: a plugin, or the channel of the one thread that runs the target. */
  lemma BoundAsConfigured(ws: seq<WorkloadSpec>, plan: Plan, plugins: set<string>, engineMax: nat, i: nat, k: nat)
    requires PlanOk(ws, plan, plugins, engineMax) && Names.StrictlySorted(NameTable(ws))
    requires i < |ws| && k < |ws[i].imports|
    ensures var imp, linker := ws[i].imports[k], plan.threads[plan.slots[i].channel].linker;
            && (k in linker <==> imp.used)
            && (imp.used && imp.kind == Plugin ==> linker[k] == ToPlugin(imp.target))
            && (imp.used && imp.kind == Workload ==>
                  exists j :: 0 <= j < |ws| && ws[j].name == imp.target && linker[k] == ToChannel(plan.slots[j].channel))
  {
    assert SlotOk(ws, i, plan.slots[i], plan.threads, plugins, engineMax);
    var c := plan.slots[i].channel;
    assert ThreadOk(ws, plan.threads, c, plugins, engineMax);
    assert k in Used(ws[i].imports) <==> ws[i].imports[k].used;
    if ws[i].imports[k].used && ws[i].imports[k].kind == Workload {
      var b := plan.threads[c].linker[k];
      assert ThreadOk(ws, plan.threads, b.channel, plugins, engineMax);
      assert ws[plan.threads[b.channel].index].name == ws[i].imports[k].target;
    }
  }

  /** The sizes of each thread: the instance limit is the smaller of its own, if it has
      one, and the engine's, and the pool the smaller of its own and that limit. */
  lemma SizesWithinLimits(ws: seq<WorkloadSpec>, plan: Plan, plugins: set<string>, engineMax: nat, c: nat)
    requires PlanOk(ws, plan, plugins, engineMax) && c < |plan.threads|
    ensures var t := plan.threads[c];
            && t.index < |ws|
            && var spec := ws[t.index];
               && t.maxInstances <= engineMax
               && (spec.limit.Some? ==> t.maxInstances <= spec.limit.value)
               && (t.maxInstances == engineMax || Some(t.maxInstances) == spec.limit)
               && t.poolSize <= t.maxInstances && t.poolSize <= spec.pool
               && (t.poolSize == t.maxInstances || t.poolSize == spec.pool)
  {
    assert ThreadOk(ws, plan.threads, c, plugins, engineMax);
  }

  /** No two threads run the same workload, and every workload has a thread. */
  lemma OneThreadPerName(ws: seq<WorkloadSpec>, plan: Plan, plugins: set<string>, engineMax: nat, name: string)
    requires PlanOk(ws, plan, plugins, engineMax) && Names.StrictlySorted(NameTable(ws))
    ensures name in NameTable(ws) <==> exists c :: 0 <= c < |plan.threads| && plan.threads[c].name == name
    ensures forall c, d | 0 <= c < |plan.threads| && 0 <= d < |plan.threads| &&
                          plan.threads[c].name == name && plan.threads[d].name == name :: c == d
  {
    forall c | 0 <= c < |plan.threads|
      ensures plan.threads[c].name == NameTable(ws)[plan.threads[c].index]
    {
      assert ThreadOk(ws, plan.threads, c, plugins, engineMax);
    }
    if name in NameTable(ws) {
      var i :| 0 <= i < |ws| && NameTable(ws)[i] == name;
      assert SlotOk(ws, i, plan.slots[i], plan.threads, plugins, engineMax);
      assert plan.threads[plan.slots[i].channel].name == name;
    }
    forall c, d | 0 <= c < |plan.threads| && 0 <= d < |plan.threads| &&
                  plan.threads[c].name == name && plan.threads[d].name == name
      ensures c == d
    {
      Names.SortedNamesDistinct(NameTable(ws), plan.threads[c].index, plan.threads[d].index);
    }
  }
}
