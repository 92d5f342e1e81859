/** What holds in every state of every run of the prober, and across runs. */
module HealthTheorems {
  import opened Bytes
  import opened HealthStore
  import opened HealthProber
  import opened HealthInvariants
  import opened HealthHistory
  import opened HealthSamples
  import opened HealthGauges
  import opened HealthReconcile
  import opened HealthOrigin

  ghost predicate Samples(s: State) {
    && (forall c: Cluster :: NoGhost(s, c) && Covered(s, c))
    && (forall c: Cluster :: Gauges(s, c) && Judged(s, c))
    && (forall pid: Pid :: SendVisible(s, pid))
    && (forall cb: Cbid :: CallbackVisible(s, cb))
    && EvalVisible(s)
    && (forall c: Cluster :: Rooted(s, c))
  }

  ghost predicate Inv(s: State) {
    Control(s.sys) && Histories(s.sys) && EvalStems(s.sys) && LifeOk(s.sys) && PlanOk(s.sys) && Samples(s)
  }

  lemma InitInv(cfg: Config, now: Time)
    ensures Inv(Init(cfg, now))
  {
    InitControl(cfg, now);
    forall c: Cluster ensures Gauges(Init(cfg, now), c) && Judged(Init(cfg, now), c) {
      assert NoGauges(EMPTY, c);
    }
  }

  lemma StepSamples(s: State, a: Action)
    requires Inv(s) && Do(s, a).Some?
    ensures Samples(Do(s, a).value)
  {
    var s' := Do(s, a).value;
    forall c: Cluster ensures NoGhost(s', c) && Covered(s', c) {
      NoGhostStep(s, a, c);
      CoveredStep(s, a, c);
    }
    forall c: Cluster ensures Gauges(s', c) && Judged(s', c) {
      GaugesStep(s, a, c);
      JudgedStep(s, a, c);
    }
    forall c: Cluster ensures Rooted(s', c) { RootedStep(s, a, c); }
    forall pid: Pid ensures SendVisible(s', pid) { SendVisibleStep(s, a, pid); }
    forall cb: Cbid ensures CallbackVisible(s', cb) { CallbackVisibleStep(s, a, cb); }
    EvalVisibleStep(s, a);
  }

  lemma StepInv(s: State, s': State)
    requires Inv(s) && Step(s, s')
    ensures Inv(s')
  {
    var a :| Do(s, a) == Some(s');
    StepControl(s.sys, a);
    StepHistories(s.sys, a);
    EvalStemsStep(s.sys, a);
    LifeStep(s.sys, a);
    PlanStep(s.sys, a);
    StepSamples(s, a);
  }

  /** The invariant holds throughout every run, whatever the interleaving. */
  lemma {:induction false} RunInv(run: seq<State>, i: nat)
    requires IsRun(run) && i < |run|
    ensures Inv(run[i])
  {
    if i == 0 {
      var cfg: Config, now: Time :| run[0] == Init(cfg, now);
      InitInv(cfg, now);
    } else {
      RunInv(run, i - 1);
      assert StepAt(run, i - 1);
      StepInv(run[i - 1], run[i]);
    }
  }

  lemma RunStep(run: seq<State>, i: nat)
    requires IsRun(run) && i + 1 < |run|
    ensures Inv(run[i]) && Step(run[i], run[i + 1])
  {
    RunInv(run, i);
    assert StepAt(run, i);
  }

  // ---- No ghost samples ----

  /** A cluster with any sample has a probe, or removeProbe is between deleting it and clearing. */
  lemma NoGhostSamples(run: seq<State>, i: nat, c: Cluster)
    requires IsRun(run) && i < |run| && c in Clusters(run[i].store)
    ensures c in run[i].sys.probes || Cleaning(run[i].sys, c)
  {
    RunInv(run, i);
    assert NoGhost(run[i], c);
  }

  /** After removeProbe has returned nothing reappears until the cluster is added again. */
  lemma {:induction false} NothingReappears(run: seq<State>, i: nat, j: nat, c: Cluster)
    requires IsRun(run) && i <= j < |run| && !Attended(run[i].sys, c)
    requires forall k :: i <= k <= j ==> c !in run[k].sys.probes
    ensures !Attended(run[j].sys, c) && c !in Clusters(run[j].store)
    decreases j
  {
    if i < j {
      NothingReappears(run, i, j - 1, c);
      StaysUnattended(run, j - 1, c);
    }
    if c in Clusters(run[j].store) { NoGhostSamples(run, j, c); }
  }

  lemma StaysUnattended(run: seq<State>, i: nat, c: Cluster)
    requires IsRun(run) && i + 1 < |run| && !Attended(run[i].sys, c)
    ensures !Cleaning(run[i + 1].sys, c)
  {
    RunStep(run, i);
    var a :| Do(run[i], a) == Some(run[i + 1]);
    NotCleaningAgain(run[i].sys, a, c);
  }

  lemma NotCleaningAgain(y: Sys, a: Action, c: Cluster)
    requires ManagerOk(y) && Next(y, a).Some? && !Attended(y, c)
    ensures !Cleaning(Next(y, a).value, c)
  {
    var y' := Next(y, a).value;
    if a.Manage? {
      ManageNotCleaning(y, a.m, c);
    } else {
      OtherActorsKeepPlan(y, a);
      if y.mgr.MRemove? { ProbeKept(y, a, y.mgr.pid); }
    }
  }

  lemma ManageNotCleaning(y: Sys, a: ManageAct, c: Cluster)
    requires ManagerOk(y) && DoManage(y, a).Some? && !Attended(y, c)
    ensures !Cleaning(DoManage(y, a).value, c)
  {
    if !a.RootCancel? {
      match y.mgr
      case MAdd(pid, _) => AddKeepsRest(y, pid, a);
      case MRemove(pid, _) => RemoveIsMoves(y, pid, a);
      case MLoop => LoopNotCleaning(y, a, c);
      case MInsert(_) =>
      case MStopProducer =>
      case _ => LifecycleNotRemoving(y, a);
    }
  }

  lemma LoopNotCleaning(y: Sys, a: ManageAct, c: Cluster)
    requires ManagerOk(y) && y.mgr.MLoop? && DoLoop(y, a).Some? && !Attended(y, c)
    ensures !Cleaning(DoLoop(y, a).value, c)
  {
  }

  lemma LifecycleNotRemoving(y: Sys, a: ManageAct)
    requires DoLifecycle(y, a).Some? && !y.mgr.MRemove?
    ensures !DoLifecycle(y, a).value.mgr.MRemove?
  {
  }

  // ---- Gauges ----

  /** Whenever evalMu is free the gauges of every cluster agree. */
  lemma GaugesAgree(run: seq<State>, i: nat, c: Cluster)
    requires IsRun(run) && i < |run| && !EvalHolds(run[i].sys.eval)
    ensures Consistent(run[i].store, c)
  {
    RunInv(run, i);
    assert Gauges(run[i], c);
  }

  /** An evaluation writes produce = 1 exactly when a recorded send is recent, and consume = 1
      only when a handled callback is; the times it counts are on the record of the probe it
      writes for. */
  lemma EvaluationRefinesHistory(run: seq<State>, i: nat)
    requires IsRun(run) && i < |run| && run[i].sys.eval.EWrite?
    ensures var e, recency := run[i].sys.eval, run[i].sys.cfg.recency;
            && e.todo != [] && e.j.pid == e.todo[0] && e.j.pid in run[i].sys.obj
            && Stems(run[i].sys, e.j, run[i].sys.obj[e.j.pid].cluster)
            && (e.j.produceOk <==> InWindow(e.j.sends, e.now, recency))
            && (e.j.consumeOk ==> InWindow(e.j.handled, e.now, recency))
            && (LastIsLargest(e.j.handled) ==> (e.j.consumeOk <==> InWindow(e.j.handled, e.now, recency)))
  {
    RunInv(run, i);
    var e, recency := run[i].sys.eval, run[i].sys.cfg.recency;
    if e.j.consumeOk { LastWitnesses(e.j.handled, e.now, recency); }
    if LastIsLargest(e.j.handled) { LastDecides(e.j.handled, e.now, recency); }
  }

  /** What an evaluation judges was the complete history of its probe at one moment of the run:
      the moment it read the probe. */
  lemma {:induction false} EvaluationReadsHistory(run: seq<State>, i: nat) returns (r: nat)
    requires IsRun(run) && i < |run| && run[i].sys.eval.EWrite?
    ensures r < i && run[r].sys.eval == ELoop(run[i].sys.eval.now, run[i].sys.eval.todo)
    ensures var j := run[i].sys.eval.j;
            j.pid in run[r].sys.obj && run[r].sys.obj[j.pid].sends == j.sends && run[r].sys.obj[j.pid].handled == j.handled
  {
    assert StepAt(run, i - 1);
    var a :| Do(run[i - 1], a) == Some(run[i]);
    WritingBefore(run[i - 1].sys, a);
    if a == Eval(ERead) { r := i - 1; } else { r := EvaluationReadsHistory(run, i - 1); }
  }

  /** An evaluation that is writing was writing before, or has just read its probe. */
  lemma WritingBefore(y: Sys, a: Action)
    requires Next(y, a).Some? && Next(y, a).value.eval.EWrite?
    ensures var e := Next(y, a).value.eval;
            if a == Eval(ERead) then
              && y.eval == ELoop(e.now, e.todo) && e.j.pid in y.obj
              && e.j.sends == y.obj[e.j.pid].sends && e.j.handled == y.obj[e.j.pid].handled
            else y.eval.EWrite? && y.eval == e.(k := y.eval.k)
  {
    if !a.Eval? { EvalSame(y, a); }
  }

  /** One timestamp answers for a history at every instant and for every window exactly when the
      last recorded time is the largest. */
  lemma TimestampSufficesIff(ts: seq<Time>)
    ensures (forall now: Time, recency: int :: Recent(Last(ts), now, recency) <==> InWindow(ts, now, recency)) <==> LastIsLargest(ts)
  {
    if LastIsLargest(ts) {
      forall now: Time, recency: int ensures Recent(Last(ts), now, recency) <==> InWindow(ts, now, recency) {
        LastDecides(ts, now, recency);
      }
    } else {
      var i :| 0 <= i < |ts| && ts[i] > ts[|ts| - 1];
      assert InWindow(ts, ts[i], 1) && !Recent(Last(ts), ts[i], 1);
    }
  }

  // ---- Consumers and the producer ----

  /** A probe never has two consumers that are not shut down. */
  lemma OneConsumer(run: seq<State>, i: nat, c1: Cid, c2: Cid)
    requires IsRun(run) && i < |run|
    requires var cons := run[i].sys.cons;
             c1 in cons && c2 in cons && cons[c1].phase != Down && cons[c2].phase != Down && cons[c1].pid == cons[c2].pid
    ensures c1 == c2
  {
    RunInv(run, i);
    assert CidOk(run[i].sys, c1) && CidOk(run[i].sys, c2);
  }

  /** Once removeProbe is done with a probe nothing of it is left running. */
  lemma RemovedProbeIsDead(run: seq<State>, i: nat, pid: Pid)
    requires IsRun(run) && i < |run| && pid in run[i].sys.obj
    requires !Mapped(run[i].sys, pid) && Removal(run[i].sys.mgr, pid) == 0
    ensures run[i].sys.obj[pid].produce.PExited? && run[i].sys.obj[pid].retry.RExited?
    ensures forall cid :: cid in run[i].sys.cons && run[i].sys.cons[cid].pid == pid ==> run[i].sys.cons[cid].phase == Down
    ensures forall cb :: cb in run[i].sys.cbs ==> !CallbackOf(run[i].sys, cb, pid)
  {
    RunInv(run, i);
    var y := run[i].sys;
    assert PidOk(y, pid);
    forall cid | cid in y.cons && y.cons[cid].pid == pid ensures y.cons[cid].phase == Down { assert CidOk(y, cid); }
    forall cb | cb in y.cbs ensures !CallbackOf(y, cb, pid) { assert CbOk(y, cb) && CidOk(y, y.cbs[cb].cid); }
  }

  predicate CallbackOf(y: Sys, cb: Cbid, pid: Pid)
    requires cb in y.cbs
  {
    y.cbs[cb].cid in y.cons && y.cons[y.cbs[cb].cid].pid == pid
  }

  /** The shared producer is stopped only after every produce loop has exited and every consumer
      is shut down. */
  lemma ProducerOutlivesLoops(run: seq<State>, i: nat)
    requires IsRun(run) && i < |run| && (run[i].sys.mgr.MStopProducer? || run[i].sys.mgr.MDone?)
    ensures forall pid :: pid in run[i].sys.obj ==> run[i].sys.obj[pid].produce.PExited?
    ensures forall cid :: cid in run[i].sys.cons ==> run[i].sys.cons[cid].phase == Down
    ensures Clusters(run[i].store) == {}
  {
    RunInv(run, i);
    var y := run[i].sys;
    StoppedEmpty(y);
    forall pid | pid in y.obj ensures y.obj[pid].produce.PExited? { assert PidOk(y, pid); }
    forall cid | cid in y.cons ensures y.cons[cid].phase == Down { assert CidOk(y, cid); }
    forall c ensures c !in Clusters(run[i].store) { assert NoGhost(run[i], c); }
  }

  // ---- /healthz ----

  /** Every cluster that has a sample is reported. */
  lemma HealthzComplete(run: seq<State>, i: nat)
    requires IsRun(run) && i < |run|
    ensures Visible(run[i].store) == Clusters(run[i].store)
  {
    RunInv(run, i);
    forall c | c in Clusters(run[i].store) ensures c in Visible(run[i].store) { assert Covered(run[i], c); }
  }

  /** A cluster is reported ok only if both of its checks were recent when its overall gauge was
      last written, by times on the record of its own probe: the one in the map, or the one that
      removeProbe has not finished with. */
  lemma HealthzHonest(run: seq<State>, i: nat, c: Cluster)
    requires IsRun(run) && i < |run| && OverallOk(run[i].store, c)
    ensures c in Visible(run[i].store) && c in run[i].judged
    ensures var j := run[i].judged[c];
            && Stems(run[i].sys, j, c) && InCharge(run[i].sys, j.pid, c)
            && InWindow(j.sends, j.now, run[i].sys.cfg.recency) && InWindow(j.handled, j.now, run[i].sys.cfg.recency)
  {
    RunInv(run, i);
    assert Judged(run[i], c) && Rooted(run[i], c);
    assert (c, Overall) in run[i].store.status;
    LastWitnesses(run[i].judged[c].handled, run[i].judged[c].now, run[i].sys.cfg.recency);
  }

  // ---- Reconciling ----

  /** Between reconciles the probes are exactly the last nonempty discovery. */
  lemma ReconcileConverges(run: seq<State>, i: nat)
    requires IsRun(run) && i < |run| && run[i].sys.mgr.MIdle?
    ensures run[i].sys.probes.Keys == run[i].sys.plan.disc
  {
    RunInv(run, i);
    IdleConverged(run[i].sys);
  }

  lemma StepSurvivor(s: State, s': State, c: Cluster)
    requires Inv(s) && Step(s, s') && c in s.sys.probes && c in s'.sys.probes
    ensures s'.sys.probes[c] == s.sys.probes[c] && CountersGrow(s.store, s'.store, c)
  {
    var a :| Do(s, a) == Some(s');
    SameProbe(s.sys, a, c);
    CountersStep(s, a, c);
  }

  /** A cluster that stays in the map keeps its probe, and its counters never decrease. */
  lemma {:induction false} SurvivorKept(run: seq<State>, i: nat, j: nat, c: Cluster)
    requires IsRun(run) && i <= j < |run| && forall k :: i <= k <= j ==> c in run[k].sys.probes
    ensures run[j].sys.probes[c] == run[i].sys.probes[c] && CountersGrow(run[i].store, run[j].store, c)
    decreases j
  {
    if i < j {
      SurvivorKept(run, i, j - 1, c);
      RunStep(run, j - 1);
      StepSurvivor(run[j - 1], run[j], c);
    }
  }

  lemma StepDiscovered(s: State, s': State, c: Cluster)
    requires Inv(s) && Step(s, s') && c in s.sys.probes && c in s.sys.plan.disc
    ensures c in s'.sys.probes
  {
    var a :| Do(s, a) == Some(s');
    DiscoveredStays(s.sys, a, c);
  }

  /** A cluster that every discovery lists is never taken out. */
  lemma {:induction false} DiscoveredSurvives(run: seq<State>, i: nat, j: nat, c: Cluster)
    requires IsRun(run) && i <= j < |run| && c in run[i].sys.probes
    requires forall k :: i <= k <= j ==> c in run[k].sys.plan.disc
    ensures forall k :: i <= k <= j ==> c in run[k].sys.probes
    decreases j
  {
    if i < j {
      DiscoveredSurvives(run, i, j - 1, c);
      RunStep(run, j - 1);
      StepDiscovered(run[j - 1], run[j], c);
    }
  }

  lemma StepIdle(s: State, s': State)
    requires Inv(s) && Step(s, s') && s.sys.mgr.MIdle? && s'.sys.mgr.MIdle?
    ensures s'.sys.probes == s.sys.probes
    ensures forall c :: c in s.sys.probes ==> CountersGrow(s.store, s'.store, c)
  {
    var a :| Do(s, a) == Some(s');
    IdleKeepsProbes(s.sys, a);
    forall c | c in s.sys.probes ensures CountersGrow(s.store, s'.store, c) { CountersStep(s, a, c); }
  }

  lemma IdleKeepsProbes(y: Sys, a: Action)
    requires Next(y, a).Some? && y.mgr.MIdle? && Next(y, a).value.mgr.MIdle?
    ensures Next(y, a).value.probes == y.probes
  {
    if !a.Manage? { OtherActorsKeepPlan(y, a); }
  }

  /** Only a nonempty discovery, or the end of the refresh loop, leaves the idle state. */
  lemma OnlyDiscoveryEndsIdle(y: Sys, a: Action)
    requires Next(y, a).Some? && y.mgr.MIdle? && !Next(y, a).value.mgr.MIdle?
    ensures a.Manage? && (a.m.RefreshStop? || (a.m.Reconcile? && a.m.disc != {}))
  {
    if !a.Manage? { OtherActorsKeepPlan(y, a); }
  }

  /** As long as discoveries fail or come back empty the manager stays idle: no probe goes, no
      counter is reset. */
  lemma {:induction false} FailedDiscoveriesHarmless(run: seq<State>, i: nat, j: nat)
    requires IsRun(run) && i <= j < |run| && forall k :: i <= k <= j ==> run[k].sys.mgr.MIdle?
    ensures run[j].sys.probes == run[i].sys.probes
    ensures forall c :: c in run[i].sys.probes ==> CountersGrow(run[i].store, run[j].store, c)
    decreases j
  {
    if i < j {
      FailedDiscoveriesHarmless(run, i, j - 1);
      RunStep(run, j - 1);
      StepIdle(run[j - 1], run[j]);
    }
  }
}
