/** What the samples say, in every state the prober can reach. */
module HealthSamples {
  import opened Bytes
  import opened HealthStore
  import opened HealthProber
  import opened HealthInvariants
  import opened HealthHistory

  // ---- What one write does ----

  lemma OwnersUpdate<X, V>(m: map<(Cluster, X), V>, k: (Cluster, X), v: V)
    ensures Owners(m[k := v]) == Owners(m) + {k.0}
  {
    var m' := m[k := v];
    forall x | x in Owners(m) + {k.0} ensures x in Owners(m') {
      if x == k.0 { assert k in m'; } else { var j :| j in m && j.0 == x; assert j in m'; }
    }
  }

  /** A write for `c` adds at most `c`, and hides nothing. */
  predicate Touches(st: Store, st': Store, c: Cluster) {
    Clusters(st') <= Clusters(st) + {c} && Visible(st) <= Visible(st') <= Visible(st) + {c}
  }

  lemma WriteTouches(st: Store, c: Cluster, w: Write)
    requires w != Wipe
    ensures Touches(st, Apply(st, c, w), c)
    ensures w.CountProduce? || w.CountConsume? || w.Status? ==> c in Visible(Apply(st, c, w))
  {
    match w
    case CountProduce(o) => OwnersUpdate(st.produceCount, (c, o), Get(st.produceCount, (c, o), 0) + 1);
    case Status(k, v) => OwnersUpdate(st.status, (c, k), v);
    case Latency(k, secs) => OwnersUpdate(st.latency, (c, k), secs);
    case LastSuccess(k, v) => OwnersUpdate(st.lastSuccess, (c, k), v);
    case LastError(k, err) => OwnersUpdate(st.lastError, (c, k), err);
    case _ =>
  }

  /** What a write for `c` can do to the entries of cluster `x`. */
  lemma WrittenAt(st: Store, c: Cluster, w: Write, x: Cluster)
    ensures var st' := Apply(st, c, w);
            && (x in Clusters(st') ==> (x in Clusters(st) && (c, w) != (x, Wipe)) || (x == c && w != Nothing && w != Wipe))
            && (x in Visible(st) && (c, w) != (x, Wipe) ==> x in Visible(st'))
  {
    if w == Wipe { ClearForgets(st, c); } else { WriteTouches(st, c, w); }
  }

  // ---- No ghost samples ----

  /** removeProbe has taken `c` out of the map and has not yet cleared its samples. */
  predicate Cleaning(y: Sys, c: Cluster) {
    y.mgr.MRemove? && !y.mgr.rem.Unlock? && y.mgr.pid in y.obj && y.obj[y.mgr.pid].cluster == c
  }

  predicate Attended(y: Sys, c: Cluster) { c in y.probes || Cleaning(y, c) }

  /** Whoever writes for a cluster, the cluster is attended. */
  lemma WriterAttended(y: Sys, a: Action)
    requires Control(y) && Next(y, a).Some? && Effect(y, a).1 != Nothing
    ensures Attended(y, Effect(y, a).0)
  {
    match a
    case Produce(pid, _) => assert PidOk(y, pid);
    case CallbackStep(cb, _, _) => assert CbOk(y, cb) && CidOk(y, y.cbs[cb].cid);
    case Eval(_) => assert PidOk(y, y.eval.todo[0]);
    case _ =>
  }

  /** `pid` is the probe of `c` that is in the map, or that removeProbe has not finished with. */
  predicate InCharge(y: Sys, pid: Pid, c: Cluster) {
    (c in y.probes && y.probes[c] == pid) || (Cleaning(y, c) && y.mgr.pid == pid)
  }

  /** The probe in charge of a cluster stays so until the cluster is cleared. */
  lemma InChargeKept(y: Sys, a: Action, pid: Pid, c: Cluster)
    requires ManagerOk(y) && Next(y, a).Some? && InCharge(y, pid, c) && Effect(y, a) != (c, Wipe)
    ensures InCharge(Next(y, a).value, pid, c)
  {
    if a.Manage? { ManageInCharge(y, a.m, pid, c); } else { OthersInCharge(y, a, pid, c); }
  }

  predicate SamePlan(y: Sys, y': Sys) {
    y'.probes == y.probes && y'.plan == y.plan && y'.mgr == y.mgr
  }

  /** The map, the plan and the manager move only by the manager's own steps. */
  lemma OtherActorsKeepPlan(y: Sys, a: Action)
    requires Next(y, a).Some? && !a.Manage?
    ensures SamePlan(y, Next(y, a).value)
  {
    match a
    case Produce(pid, p) => ProduceMoves(y, pid, p);
    case CallbackStep(cb, _, _) => CallbackMoves(y, cb);
    case Retry(pid, r) => RetryIsOneProbe(y, pid, r);
    case _ =>
  }

  lemma OthersInCharge(y: Sys, a: Action, pid: Pid, c: Cluster)
    requires Next(y, a).Some? && !a.Manage? && InCharge(y, pid, c)
    ensures InCharge(Next(y, a).value, pid, c)
  {
    ProbeKept(y, a, pid);
    OtherActorsKeepPlan(y, a);
  }

  lemma ManageInCharge(y: Sys, a: ManageAct, pid: Pid, c: Cluster)
    requires ManagerOk(y) && DoManage(y, a).Some? && InCharge(y, pid, c) && Effect(y, Manage(a)) != (c, Wipe)
    ensures InCharge(DoManage(y, a).value, pid, c)
  {
    if !a.RootCancel? {
      match y.mgr
      case MAdd(q, _) => AddKeepsRest(y, q, a);
      case MRemove(q, _) => RemoveInCharge(y, a, pid, c);
      case MLoop => LoopInCharge(y, a, pid, c);
      case MInsert(_) =>
      case MStopProducer =>
      case _ => LifecycleKeepsRest(y, a);
    }
  }

  lemma LoopInCharge(y: Sys, a: ManageAct, pid: Pid, c: Cluster)
    requires ManagerOk(y) && y.mgr.MLoop? && DoLoop(y, a).Some? && InCharge(y, pid, c)
    ensures InCharge(DoLoop(y, a).value, pid, c)
  {
  }

  lemma RemoveInCharge(y: Sys, a: ManageAct, pid: Pid, c: Cluster)
    requires ManagerOk(y) && y.mgr.MRemove? && DoRemove(y, y.mgr.pid, a).Some?
    requires InCharge(y, pid, c) && Effect(y, Manage(a)) != (c, Wipe)
    ensures InCharge(DoRemove(y, y.mgr.pid, a).value, pid, c)
  {
    RemoveIsMoves(y, y.mgr.pid, a);
  }

  lemma AttendedKept(y: Sys, a: Action, c: Cluster)
    requires ManagerOk(y) && Next(y, a).Some? && Attended(y, c) && Effect(y, a) != (c, Wipe)
    ensures Attended(Next(y, a).value, c)
  {
    InChargeKept(y, a, if c in y.probes then y.probes[c] else y.mgr.pid, c);
  }

  predicate NoGhost(s: State, c: Cluster) { c in Clusters(s.store) ==> Attended(s.sys, c) }

  lemma NoGhostStep(s: State, a: Action, c: Cluster)
    requires Control(s.sys) && NoGhost(s, c) && Do(s, a).Some?
    ensures NoGhost(Do(s, a).value, c)
  {
    var e := Effect(s.sys, a);
    WrittenAt(s.store, e.0, e.1, c);
    if c in Clusters(Apply(s.store, e.0, e.1)) {
      if e.1 != Nothing { WriterAttended(s.sys, a); }
      AttendedKept(s.sys, a, c);
    }
  }

  // ---- What stays put while somebody acts for a cluster ----

  /** Nobody acts for a cluster at the moment its samples are cleared. */
  lemma BusyNotWiped(y: Sys, a: Action, c: Cluster)
    requires Control(y) && Next(y, a).Some? && Effect(y, a) == (c, Wipe)
    ensures c !in y.probes && !EvalHolds(y.eval)
    ensures forall pid :: pid in y.obj && y.obj[pid].cluster == c ==> y.obj[pid].produce.PExited?
    ensures forall cb :: cb in y.cbs ==> CallbackCluster(y, cb) != Some(c)
  {
    forall pid | pid in y.obj && y.obj[pid].cluster == c ensures y.obj[pid].produce.PExited? { assert PidOk(y, pid); }
    forall cb | cb in y.cbs ensures CallbackCluster(y, cb) != Some(c) { assert CbOk(y, cb) && CidOk(y, y.cbs[cb].cid); }
  }

  function CallbackCluster(y: Sys, cb: Cbid): Option<Cluster>
    requires cb in y.cbs
  {
    if y.cbs[cb].cid in y.cons && y.cons[y.cbs[cb].cid].pid in y.obj
    then Some(y.obj[y.cons[y.cbs[cb].cid].pid].cluster) else None
  }

  lemma VisibleKept(s: State, a: Action, c: Cluster)
    requires Do(s, a).Some? && c in Visible(s.store) && Effect(s.sys, a) != (c, Wipe)
    ensures c in Visible(Do(s, a).value.store)
  {
    var e := Effect(s.sys, a);
    WrittenAt(s.store, e.0, e.1, c);
  }

  /** A probe keeps its cluster, and only its own produce loop moves its produce counter. */
  lemma ProbeKept(y: Sys, a: Action, pid: Pid)
    requires Next(y, a).Some?
    ensures var y' := Next(y, a).value;
            && (pid in y.obj ==> pid in y'.obj && y'.obj[pid].cluster == y.obj[pid].cluster)
            && (pid in y'.obj && !(a.Produce? && a.pid == pid) ==>
                  (pid in y.obj && y'.obj[pid].produce == y.obj[pid].produce) || !Sending(y'.obj[pid].produce))
  {
    match a
    case Produce(p, act) => ProduceMoves(y, p, act);
    case CallbackStep(cb, _, _) => CallbackMoves(y, cb);
    case Eval(_) =>
    case _ => OtherFrames(y, a, pid);
  }

  predicate Sending(p: ProducePc) { p.PSending? || p.PFailed? || p.PSent? }

  // ---- Coverage: what has any sample is visible ----

  predicate CountedSend(p: ProducePc) { p.PFailed? || p.PSent? }

  predicate SendVisible(s: State, pid: Pid) {
    pid in s.sys.obj && CountedSend(s.sys.obj[pid].produce) ==> s.sys.obj[pid].cluster in Visible(s.store)
  }

  predicate CallbackVisible(s: State, cb: Cbid) {
    cb in s.sys.cbs && !s.sys.cbs[cb].pc.CNext? && CallbackCluster(s.sys, cb).Some? ==>
      CallbackCluster(s.sys, cb).value in Visible(s.store)
  }

  predicate EvalVisible(s: State) {
    Evaluating(s.sys).Some? && s.sys.eval.k >= 1 ==> s.sys.obj[Evaluating(s.sys).value].cluster in Visible(s.store)
  }

  predicate Covered(s: State, c: Cluster) { c in Clusters(s.store) ==> c in Visible(s.store) }

  lemma SendVisibleStep(s: State, a: Action, pid: Pid)
    requires Control(s.sys) && SendVisible(s, pid) && Do(s, a).Some?
    ensures SendVisible(Do(s, a).value, pid)
  {
    var y, s', e := s.sys, Do(s, a).value, Effect(s.sys, a);
    if pid in s'.sys.obj && CountedSend(s'.sys.obj[pid].produce) {
      SendKept(y, a, pid);
      var c := y.obj[pid].cluster;
      if e == (c, Wipe) { BusyNotWiped(y, a, c); }
      if c in Visible(s.store) { VisibleKept(s, a, c); } else { WriteTouches(s.store, e.0, e.1); }
    }
  }

  /** A counted send was counted before, or by this step. */
  lemma SendKept(y: Sys, a: Action, pid: Pid)
    requires Next(y, a).Some? && pid in Next(y, a).value.obj && CountedSend(Next(y, a).value.obj[pid].produce)
    ensures pid in y.obj && Next(y, a).value.obj[pid].cluster == y.obj[pid].cluster && !y.obj[pid].produce.PExited?
    ensures CountedSend(y.obj[pid].produce) || (Effect(y, a).0 == y.obj[pid].cluster && Effect(y, a).1.CountProduce?)
  {
    ProbeKept(y, a, pid);
    if a.Produce? && a.pid == pid { ProduceMoves(y, pid, a.p); }
  }

  lemma CallbackVisibleStep(s: State, a: Action, cb: Cbid)
    requires Control(s.sys) && CallbackVisible(s, cb) && Do(s, a).Some?
    ensures CallbackVisible(Do(s, a).value, cb)
  {
    var y, s', e := s.sys, Do(s, a).value, Effect(s.sys, a);
    if cb in s'.sys.cbs && !s'.sys.cbs[cb].pc.CNext? && CallbackCluster(s'.sys, cb).Some? {
      CallbackKept(y, a, cb);
      var c := CallbackCluster(y, cb).value;
      if e == (c, Wipe) { BusyNotWiped(y, a, c); }
      if c in Visible(s.store) { VisibleKept(s, a, c); } else { WriteTouches(s.store, e.0, e.1); }
    }
  }

  /** A callback that is past its first count was already running, for the same cluster. */
  lemma CallbackKept(y: Sys, a: Action, cb: Cbid)
    requires Control(y) && Next(y, a).Some? && cb in Next(y, a).value.cbs && !Next(y, a).value.cbs[cb].pc.CNext?
    ensures cb in y.cbs && CallbackCluster(y, cb).Some?
    ensures CallbackCluster(Next(y, a).value, cb) == CallbackCluster(y, cb)
    ensures a.CallbackStep? && a.cb == cb ==> CallbackNext(y.cbs[cb].pc) == Next(y, a).value.cbs[cb].pc
    ensures !(a.CallbackStep? && a.cb == cb) ==> Next(y, a).value.cbs[cb] == y.cbs[cb]
  {
    var y' := Next(y, a).value;
    CallbacksKept(y, a, cb);
    assert CbOk(y, cb) && CidOk(y, y.cbs[cb].cid);
    OwnerKept(y, a, y.cbs[cb].cid);
    ProbeKept(y, a, y.cons[y.cbs[cb].cid].pid);
  }

  lemma CallbacksKept(y: Sys, a: Action, cb: Cbid)
    requires Next(y, a).Some? && cb in Next(y, a).value.cbs && !Next(y, a).value.cbs[cb].pc.CNext?
    ensures cb in y.cbs && Next(y, a).value.cbs[cb].cid == y.cbs[cb].cid
    ensures a.CallbackStep? && a.cb == cb ==> CallbackNext(y.cbs[cb].pc) == Next(y, a).value.cbs[cb].pc
    ensures !(a.CallbackStep? && a.cb == cb) ==> Next(y, a).value.cbs[cb] == y.cbs[cb]
  {
    if !a.CallbackStep? && !a.CallbackStart? { OthersKeepCallbacks(y, a); }
  }

  lemma OthersKeepCallbacks(y: Sys, a: Action)
    requires Next(y, a).Some? && !a.CallbackStep? && !a.CallbackStart?
    ensures Next(y, a).value.cbs == y.cbs
  {
    match a
    case Retry(pid, r) => RetryIsOneProbe(y, pid, r);
    case Manage(m) => ManageKeepsCallbacks(y, m);
    case _ =>
  }

  lemma ManageKeepsCallbacks(y: Sys, a: ManageAct)
    requires DoManage(y, a).Some?
    ensures DoManage(y, a).value.cbs == y.cbs
  {
    if !a.RootCancel? {
      match y.mgr
      case MAdd(pid, _) => AddKeepsRest(y, pid, a);
      case MRemove(pid, _) => RemoveIsMoves(y, pid, a);
      case MLoop => LoopKeepsRest(y, a);
      case MInsert(_) =>
      case MStopProducer =>
      case _ => LifecycleKeepsRest(y, a);
    }
  }

  /** A consumer belongs to one probe for good. */
  lemma OwnerKept(y: Sys, a: Action, cid: Cid)
    requires Control(y) && Next(y, a).Some? && cid in y.cons
    ensures cid in Next(y, a).value.cons && Next(y, a).value.cons[cid].pid == y.cons[cid].pid
  {
    match a
    case Retry(pid, r) =>
      assert PidOk(y, pid);
      if y.obj[pid].retry.RTry? { TryOwnerKept(y, pid, y.obj[pid].retry.t, r.a, cid); }
    case Manage(m) => if !m.RootCancel? { ManageOwnerKept(y, m, cid); }
    case _ =>
  }

  lemma TryOwnerKept(y: Sys, pid: Pid, t: TryPc, a: TryAct, cid: Cid)
    requires pid in y.obj && PidOk(y, pid) && Trying(y, pid) == Some(t) && cid in y.cons
    requires TryFlow(y, y.obj[pid].started, t, a).Some?
    ensures var cons' := TryConsumers(y.cons, pid, t, a); cid in cons' && cons'[cid].pid == y.cons[cid].pid
  {
  }

  lemma ManageOwnerKept(y: Sys, a: ManageAct, cid: Cid)
    requires Control(y) && DoManage(y, a).Some? && !a.RootCancel? && cid in y.cons
    ensures cid in DoManage(y, a).value.cons && DoManage(y, a).value.cons[cid].pid == y.cons[cid].pid
  {
    match y.mgr
    case MAdd(pid, _) => AddOwnerKept(y, pid, a, cid);
    case MRemove(pid, _) => RemoveIsMoves(y, pid, a);
    case MLoop => LoopKeepsRest(y, a);
    case MInsert(_) =>
    case MStopProducer =>
    case _ => LifecycleKeepsRest(y, a);
  }

  lemma AddOwnerKept(y: Sys, pid: Pid, a: ManageAct, cid: Cid)
    requires Control(y) && y.mgr.MAdd? && y.mgr.pid == pid && DoAdd(y, pid, a).Some? && cid in y.cons
    ensures cid in DoAdd(y, pid, a).value.cons && DoAdd(y, pid, a).value.cons[cid].pid == y.cons[cid].pid
  {
    assert PidOk(y, pid);
    if y.mgr.add.Try? { TryOwnerKept(y, pid, y.mgr.add.t, a.a, cid); }
  }

  lemma EvalVisibleStep(s: State, a: Action)
    requires Control(s.sys) && EvalVisible(s) && Do(s, a).Some?
    ensures EvalVisible(Do(s, a).value)
  {
    var y, s', e := s.sys, Do(s, a).value, Effect(s.sys, a);
    if Evaluating(s'.sys).Some? && s'.sys.eval.k >= 1 {
      EvaluatingKept(y, a);
      var c := y.obj[Evaluating(y).value].cluster;
      if e == (c, Wipe) { BusyNotWiped(y, a, c); }
      if c in Visible(s.store) { VisibleKept(s, a, c); } else { WriteTouches(s.store, e.0, e.1); }
    }
  }

  /** An evaluation past its first write was already writing for the same probe. */
  lemma EvaluatingKept(y: Sys, a: Action)
    requires Control(y) && Next(y, a).Some?
    requires Evaluating(Next(y, a).value).Some? && Next(y, a).value.eval.k >= 1
    ensures Evaluating(y) == Evaluating(Next(y, a).value)
    ensures var c := Next(y, a).value.obj[Evaluating(y).value].cluster; c == y.obj[Evaluating(y).value].cluster
    ensures if a == Eval(EPut) then Next(y, a).value.eval == y.eval.(k := y.eval.k + 1) else Next(y, a).value.eval == y.eval
  {
    var y' := Next(y, a).value;
    var pid := Evaluating(y').value;
    if !a.Eval? && !a.Produce? && !a.CallbackStep? { OtherFrames(y, a, pid); }
    assert PidOk(y, pid);
    ProbeKept(y, a, pid);
  }

  lemma CoveredStep(s: State, a: Action, c: Cluster)
    requires Control(s.sys) && Covered(s, c) && Do(s, a).Some?
    requires forall pid: Pid :: SendVisible(s, pid)
    requires forall cb: Cbid :: CallbackVisible(s, cb)
    requires EvalVisible(s)
    ensures Covered(Do(s, a).value, c)
  {
    var e := Effect(s.sys, a);
    WrittenAt(s.store, e.0, e.1, c);
    if e.0 == c && e.1 != Nothing && e.1 != Wipe {
      WriteTouches(s.store, e.0, e.1);
      match a
      case Produce(pid, _) => assert SendVisible(s, pid);
      case CallbackStep(cb, _, _) => assert CallbackVisible(s, cb);
      case _ =>
    }
  }
}
