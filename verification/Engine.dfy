/** Applying a manifest to a running engine: build the next state, and only then
    retire the old one. */
module Engine {
  import opened Wrappers
  import opened Graph
  import opened Manifest
  import Names

  datatype ServiceSpec = ServiceSpec(name: string, imports: seq<Import>, instantiable: bool)

  datatype ManifestSpec = ManifestSpec(plugins: set<string>, workloads: seq<WorkloadSpec>, services: seq<ServiceSpec>)

  datatype ServiceThread = ServiceThread(name: string, linker: Linker)

  /** The names of the threads an applied manifest has stopped and joined. */
  datatype Retired = Retired(services: set<string>, workloads: set<string>)

  /** The shutdown channel shared by an engine state and the stores it created. */
  class Watch {
    var deadline: nat

    constructor ()
      ensures deadline == 0
    {
      deadline := 0;
    }

    method SendReplace(value: nat)
      modifies this
      ensures deadline == value
    {
      deadline := value;
    }
  }

  predicate ServicesFine(services: seq<ServiceSpec>, names: seq<string>, plugins: set<string>) {
    forall s | s in services :: s.instantiable && ImportsFine(s.imports, names, plugins)
  }

  /** A manifest can be applied: nothing it needs is missing and its workloads
      do not import each other in a circle. */
  ghost predicate Applicable(m: ManifestSpec) {
    && WorkloadsFine(m.workloads, m.plugins)
    && ServicesFine(m.services, NameTable(m.workloads), m.plugins)
    && Acyclic(ImportGraph(m.workloads))
  }

  /** A service is the cause of an error, by an import or by not starting. */
  ghost predicate ServicesBlamed(services: seq<ServiceSpec>, names: seq<string>, plugins: set<string>, e: Error) {
    exists i :: 0 <= i < |services| && ServiceBlamed(services[i], names, plugins, e)
  }

  ghost predicate ServiceBlamed(spec: ServiceSpec, names: seq<string>, plugins: set<string>, e: Error) {
    ImportsBlamed(spec.imports, names, plugins, e) || (e == InstantiateFailed(spec.name) && !spec.instantiable)
  }

  ghost predicate ServiceOk(spec: ServiceSpec, linker: Linker, threads: seq<Thread>, plugins: set<string>) {
    && linker.Keys == Used(spec.imports)
    && LinkerOk(spec.imports, linker, threads, |threads|, plugins)
  }

  /** Resolves and starts the services of a manifest whose workloads have started. */
  method ResolveServices(services: seq<ServiceSpec>, ws: seq<WorkloadSpec>, plan: Plan, plugins: set<string>,
                         ghost engineMax: nat)
    returns (r: Result<seq<ServiceThread>, Error>)
    requires PlanOk(ws, plan, plugins, engineMax) && Names.StrictlySorted(NameTable(ws))
    ensures r.Ok? <==> ServicesFine(services, NameTable(ws), plugins)
    ensures r.Ok? ==> |r.value| == |services|
    ensures r.Ok? ==> forall i | 0 <= i < |services| ::
                r.value[i].name == services[i].name && ServiceOk(services[i], r.value[i].linker, plan.threads, plugins)
    ensures r.Err? ==> ServicesBlamed(services, NameTable(ws), plugins, r.error)
    ensures r.Err? ==> !r.error.ServiceUnresolved? && !r.error.Cycle? && !r.error.Corrupted?
  {
    ConsistentChannels(ws, plan.slots, plan.threads, plugins, engineMax, -1);
    var started: seq<ServiceThread> := [];
    for i := 0 to |services|
      invariant |started| == i && ServicesFine(services[..i], NameTable(ws), plugins)
      invariant forall k | 0 <= k < i ::
          started[k].name == services[k].name && ServiceOk(services[k], started[k].linker, plan.threads, plugins)
    {
      var spec := services[i];
      assert spec in services && services[..i + 1] == services[..i] + [spec];
      var imports := ResolveImports(spec.imports, plan.slots, NameTable(ws), plugins, plan.threads);
      if imports.Err? {
        assert ServiceBlamed(services[i], NameTable(ws), plugins, imports.error);
        BlamedIsNotFine(spec.imports, NameTable(ws), plugins, imports.error);
        return Err(imports.error);
      }
      NothingPending(imports.value.pending, plan.slots);
      if imports.value.pending != [] {
        return Err(ServiceUnresolved(spec.name));
      }
      assert Positions([]) == {};
      if !spec.instantiable {
        assert ServiceBlamed(services[i], NameTable(ws), plugins, InstantiateFailed(spec.name));
        return Err(InstantiateFailed(spec.name));
      }
      BoundImportsFine(spec.imports, imports.value.linker, ws, plan, plugins, engineMax);
      started := started + [ServiceThread(spec.name, imports.value.linker)];
    }
    assert services[..|services|] == services;
    r := Ok(started);
  }

  lemma MemberAt(pending: seq<PendingImport>, k: nat)
    requires k < |pending|
    ensures pending[k] in pending
  {
  }

  lemma NothingPending(pending: seq<PendingImport>, slots: seq<Slot>)
    requires forall i | 0 <= i < |slots| :: slots[i].Resolved?
    requires forall p | p in pending :: p.targetIdx < |slots| && (slots[p.targetIdx].Ready? || slots[p.targetIdx].Unresolved?)
    ensures pending == []
  {
    if |pending| > 0 {
      MemberAt(pending, 0);
      assert false;
    }
  }

  lemma BoundImportsFine(imports: seq<Import>, linker: Linker, ws: seq<WorkloadSpec>, plan: Plan, plugins: set<string>,
                         engineMax: nat)
    requires PlanOk(ws, plan, plugins, engineMax)
    requires linker.Keys == Used(imports) && LinkerOk(imports, linker, plan.threads, |plan.threads|, plugins)
    ensures ImportsFine(imports, NameTable(ws), plugins)
  {
    forall k | 0 <= k < |imports| ensures ImportFine(imports[k], NameTable(ws), plugins) {
      if imports[k].used {
        assert k in linker;
        if linker[k].ToChannel? {
          var c := linker[k].channel;
          assert ThreadOk(ws, plan.threads, c, plugins, engineMax);
          assert NameTable(ws)[plan.threads[c].index] == imports[k].target;
        }
      }
    }
  }

  class EngineState {
    var plugins: set<string>
    var services: map<string, ServiceThread>
    var workloads: map<string, Thread>
    var shutdown: Watch

    constructor ()
      ensures plugins == {} && services == map[] && workloads == map[]
      ensures fresh(shutdown) && shutdown.deadline == 0
    {
      plugins, services, workloads := {}, map[], map[];
      shutdown := new Watch();
    }

    /** Applies a manifest. On an error nothing about this state changes; otherwise
        the old threads see the deadline and are joined before it is replaced. */
    method ApplyManifest(deadline: nat, m: ManifestSpec, engineMax: nat) returns (r: Result<Retired, Error>)
      requires Names.StrictlySorted(NameTable(m.workloads))
      requires forall i, j | 0 <= i < j < |m.services| :: m.services[i].name != m.services[j].name
      modifies this, shutdown
      ensures r.Ok? <==> Applicable(m)
      ensures r.Err? ==> unchanged(this) && unchanged(shutdown)
      ensures r.Err? && r.error.Cycle? ==> !Acyclic(ImportGraph(m.workloads))
      ensures r.Err? ==> !r.error.Corrupted? && !r.error.ServiceUnresolved?
      ensures r.Err? && !r.error.Cycle? ==>
                || Blamed(m.workloads, m.plugins, r.error)
                || ServicesBlamed(m.services, NameTable(m.workloads), m.plugins, r.error)
      ensures r.Ok? ==>
                && r.value == Retired(old(services.Keys), old(workloads.Keys))
                && old(shutdown).deadline == deadline
                && fresh(shutdown) && shutdown.deadline == 0
                && plugins == m.plugins
      ensures r.Ok? ==>
                && workloads.Keys == (set name | name in NameTable(m.workloads))
                && services.Keys == (set s | s in m.services :: s.name)
      ensures r.Ok? ==> exists plan ::
                && PlanOk(m.workloads, plan, m.plugins, engineMax)
                && (forall i | 0 <= i < |m.workloads| ::
                      m.workloads[i].name in workloads &&
                      workloads[m.workloads[i].name] == plan.threads[plan.slots[i].channel])
                && (forall i | 0 <= i < |m.services| ::
                      m.services[i].name in services &&
                      ServiceOk(m.services[i], services[m.services[i].name].linker, plan.threads, m.plugins))
    {
      var next := new EngineState();
      next.plugins := m.plugins;
      var plan := ResolveWorkloads(m.workloads, m.plugins, engineMax);
      if plan.Err? {
        return Err(plan.error);
      }
      var started := ResolveServices(m.services, m.workloads, plan.value, m.plugins, engineMax);
      if started.Err? {
        return Err(started.error);
      }
      next.workloads := ByWorkload(m.workloads, plan.value, m.plugins, engineMax);
      next.services := ByService(m.services, started.value);
      shutdown.SendReplace(deadline);
      var retired := Retired(services.Keys, workloads.Keys);
      services, workloads := map[], map[];
      plugins, services, workloads, shutdown := next.plugins, next.services, next.workloads, next.shutdown;
      r := Ok(retired);
    }
  }

  /** The name table of the started threads. */
  method ByWorkload(ws: seq<WorkloadSpec>, plan: Plan, ghost plugins: set<string>, ghost engineMax: nat)
    returns (byName: map<string, Thread>)
    requires PlanOk(ws, plan, plugins, engineMax) && Names.StrictlySorted(NameTable(ws))
    ensures byName.Keys == set name | name in NameTable(ws)
    ensures forall i | 0 <= i < |ws| :: ws[i].name in byName && byName[ws[i].name] == plan.threads[plan.slots[i].channel]
  {
    byName := map[];
    for c := 0 to |plan.threads|
      invariant forall d | 0 <= d < c :: plan.threads[d].name in byName && byName[plan.threads[d].name] == plan.threads[d]
      invariant forall name | name in byName :: name in NameTable(ws)
    {
      OneThreadPerName(ws, plan, plugins, engineMax, plan.threads[c].name);
      byName := byName[plan.threads[c].name := plan.threads[c]];
    }
    forall i | 0 <= i < |ws|
      ensures NameTable(ws)[i] in byName && byName[ws[i].name] == plan.threads[plan.slots[i].channel]
    {
      assert SlotOk(ws, i, plan.slots[i], plan.threads, plugins, engineMax);
      assert ThreadOk(ws, plan.threads, plan.slots[i].channel, plugins, engineMax);
    }
  }

  method ByService(services: seq<ServiceSpec>, started: seq<ServiceThread>) returns (byName: map<string, ServiceThread>)
    requires |started| == |services|
    requires forall i | 0 <= i < |services| :: started[i].name == services[i].name
    requires forall i, j | 0 <= i < j < |services| :: services[i].name != services[j].name
    ensures byName.Keys == set s | s in services :: s.name
    ensures forall i | 0 <= i < |services| :: services[i].name in byName && byName[services[i].name] == started[i]
  {
    byName := map[];
    for i := 0 to |services|
      invariant byName.Keys == set s | s in services[..i] :: s.name
      invariant forall k | 0 <= k < i :: services[k].name in byName && byName[services[k].name] == started[k]
    {
      assert services[..i + 1] == services[..i] + [services[i]];
      byName := byName[started[i].name := started[i]];
    }
    assert services[..|services|] == services;
  }
}
