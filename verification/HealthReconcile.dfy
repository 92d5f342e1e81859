/** Reconciling the probes with what was discovered. */
module HealthReconcile {
  import opened HealthStore
  import opened HealthProber
  import opened HealthInvariants
  import opened HealthSamples

  function Inserting(m: ManagerPc): set<Cluster> { if m.MInsert? then {m.c} else {} }

  /** What is discovered is in the map or about to be; what is in the map is discovered or about
      to be removed; and between reconciles nothing is pending. */
  predicate PlanOk(y: Sys) {
    && y.plan.removes !! y.plan.disc && y.plan.adds <= y.plan.disc && Inserting(y.mgr) <= y.plan.disc
    && y.plan.disc <= y.probes.Keys + y.plan.adds + Inserting(y.mgr)
    && y.probes.Keys <= y.plan.disc + y.plan.removes
    && (y.plan.phase == Stopping ==> y.plan.disc == {} && !y.mgr.MNew? && !y.mgr.MIdle? && !y.mgr.MExited?)
    && (!y.mgr.MLoop? && !y.mgr.MInsert? && !y.mgr.MAdd? && !y.mgr.MRemove? ==> y.plan.adds == {} && y.plan.removes == {})
    && (y.mgr.MStopProducer? || y.mgr.MDone? ==> y.plan.phase == Stopping)
  }

  /** Converged: the map holds exactly what the last nonempty discovery listed. */
  lemma IdleConverged(y: Sys)
    requires PlanOk(y) && y.mgr.MIdle?
    ensures y.probes.Keys == y.plan.disc
  {
  }

  /** At the end of Shutdown no probe is left in the map. */
  lemma StoppedEmpty(y: Sys)
    requires PlanOk(y) && (y.mgr.MStopProducer? || y.mgr.MDone?)
    ensures y.probes.Keys == {}
  {
  }

  lemma PlanStep(y: Sys, a: Action)
    requires ManagerOk(y) && PlanOk(y) && Next(y, a).Some?
    ensures PlanOk(Next(y, a).value)
  {
    if a.Manage? { ManagePlan(y, a.m); } else { OtherActorsKeepPlan(y, a); }
  }

  lemma ManagePlan(y: Sys, a: ManageAct)
    requires ManagerOk(y) && PlanOk(y) && DoManage(y, a).Some?
    ensures PlanOk(DoManage(y, a).value)
  {
    if !a.RootCancel? {
      match y.mgr
      case MAdd(pid, _) => AddPlan(y, pid, a);
      case MRemove(pid, _) => RemoveIsMoves(y, pid, a);
      case MLoop => LoopPlan(y, a);
      case MInsert(c) => assert DoManage(y, a).value.probes.Keys == y.probes.Keys + {c};
      case MStopProducer =>
      case _ => LifecyclePlan(y, a);
    }
  }

  lemma AddPlan(y: Sys, pid: Pid, a: ManageAct)
    requires PlanOk(y) && y.mgr.MAdd? && DoAdd(y, pid, a).Some?
    ensures PlanOk(DoAdd(y, pid, a).value)
  {
    AddKeepsRest(y, pid, a);
  }

  lemma LifecyclePlan(y: Sys, a: ManageAct)
    requires PlanOk(y) && (y.mgr.MNew? || y.mgr.MIdle? || y.mgr.MExited? || y.mgr.MDone?) && DoLifecycle(y, a).Some?
    ensures PlanOk(DoLifecycle(y, a).value)
  {
    match a
    case Reconcile(disc) => ReconcilePlan(y, disc);
    case Shutdown => ShutdownPlan(y);
    case _ =>
  }

  lemma ReconcilePlan(y: Sys, disc: set<Cluster>)
    requires PlanOk(y) && DoLifecycle(y, Reconcile(disc)).Some?
    ensures PlanOk(DoLifecycle(y, Reconcile(disc)).value)
  {
  }

  lemma ShutdownPlan(y: Sys)
    requires PlanOk(y) && DoLifecycle(y, Shutdown).Some?
    ensures PlanOk(DoLifecycle(y, Shutdown).value)
  {
  }

  lemma LoopPlan(y: Sys, a: ManageAct)
    requires PlanOk(y) && y.mgr.MLoop? && DoLoop(y, a).Some?
    ensures PlanOk(DoLoop(y, a).value)
  {
  }

  // ---- Survivors ----

  /** A probe that is in the map both before and after a step is the same probe. */
  lemma SameProbe(y: Sys, a: Action, c: Cluster)
    requires ManagerOk(y) && Next(y, a).Some? && c in y.probes && c in Next(y, a).value.probes
    ensures Next(y, a).value.probes[c] == y.probes[c]
  {
    if a.Manage? { ManageSameProbe(y, a.m, c); } else { OtherActorsKeepPlan(y, a); }
  }

  lemma ManageSameProbe(y: Sys, a: ManageAct, c: Cluster)
    requires ManagerOk(y) && DoManage(y, a).Some? && c in y.probes
    ensures var y' := DoManage(y, a).value;
            if y.mgr.MLoop? && a == PickRemove(c) then c !in y'.probes else c in y'.probes && y'.probes[c] == y.probes[c]
  {
    if !a.RootCancel? {
      match y.mgr
      case MAdd(pid, _) => AddKeepsRest(y, pid, a);
      case MRemove(pid, _) => RemoveIsMoves(y, pid, a);
      case MLoop => LoopSameProbe(y, a, c);
      case MInsert(_) =>
      case MStopProducer =>
      case _ => LifecycleSameProbe(y, a);
    }
  }

  lemma LoopSameProbe(y: Sys, a: ManageAct, c: Cluster)
    requires y.mgr.MLoop? && DoLoop(y, a).Some? && c in y.probes
    ensures var y' := DoLoop(y, a).value;
            if a == PickRemove(c) then c !in y'.probes else c in y'.probes && y'.probes[c] == y.probes[c]
  {
  }

  lemma LifecycleSameProbe(y: Sys, a: ManageAct)
    requires DoLifecycle(y, a).Some?
    ensures DoLifecycle(y, a).value.probes == y.probes
  {
    LifecycleKeepsRest(y, a);
  }

  /** Only removeProbe, called for a cluster that was not discovered, takes a probe out. */
  lemma DiscoveredStays(y: Sys, a: Action, c: Cluster)
    requires ManagerOk(y) && PlanOk(y) && Next(y, a).Some? && c in y.probes && c in y.plan.disc
    ensures c in Next(y, a).value.probes
  {
    if a.Manage? { ManageSameProbe(y, a.m, c); } else { OtherActorsKeepPlan(y, a); }
  }

  predicate CountersGrow(st: Store, st': Store, c: Cluster) {
    && (forall o: Outcome :: Get(st.produceCount, (c, o), 0) <= Get(st'.produceCount, (c, o), 0))
    && Get(st.consumeCount, c, 0) <= Get(st'.consumeCount, c, 0)
  }

  /** While a cluster has a probe its counters never decrease. */
  lemma CountersStep(s: State, a: Action, c: Cluster)
    requires Control(s.sys) && Do(s, a).Some? && c in s.sys.probes
    ensures CountersGrow(s.store, Do(s, a).value.store, c)
  {
    var e := Effect(s.sys, a);
    if e == (c, Wipe) { BusyNotWiped(s.sys, a, c); } else { WriteCounters(s.store, e.0, e.1, c); }
  }

  lemma WriteCounters(st: Store, d: Cluster, w: Write, c: Cluster)
    requires (d, w) != (c, Wipe)
    ensures CountersGrow(st, Apply(st, d, w), c)
  {
  }
}
