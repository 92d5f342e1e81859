/** Who may still act for a probe: the control invariants of the prober, kept by every step. */
module HealthInvariants {
  import opened Bytes
  import opened HealthStore
  import opened HealthProber

  // ---- Where the manager is with a probe ----

  /** How far removeProbe has come with `pid`; 0 when it is not removing it. */
  function Removal(m: ManagerPc, pid: Pid): nat {
    if m.MRemove? && m.pid == pid then StageOf(m.rem) else 0
  }

  function StageOf(r: RemovePc): nat {
    match r
    case Cancel => 1
    case WaitProduce => 1
    case WaitRetry => 2
    case Take => 3
    case Shut(_) => 3
    case LockEval => 4
    case ClearStore => 5
    case Unlock => 6
  }

  predicate Adding(m: ManagerPc, pid: Pid) { m.MAdd? && m.pid == pid }

  predicate Mapped(y: Sys, pid: Pid) {
    pid in y.obj && y.obj[pid].cluster in y.probes && y.probes[y.obj[pid].cluster] == pid
  }

  /** The tryStartConsumer call in progress for a probe, wherever it runs. */
  function Trying(y: Sys, pid: Pid): Option<TryPc>
    requires pid in y.obj
  {
    if Adding(y.mgr, pid) && y.mgr.add.Try? then Some(y.mgr.add.t)
    else if y.obj[pid].retry.RTry? then Some(y.obj[pid].retry.t)
    else None
  }

  function Held(t: Option<TryPc>): Option<Cid> {
    if t.None? then None
    else
      match t.value
      case TSubscribe(cid) => Some(cid)
      case TStarting(cid) => Some(cid)
      case TFailed(cid) => Some(cid)
      case TPublish(cid) => Some(cid)
      case _ => None
  }

  /** The one consumer of a probe that may not be shut down: the published one, or the one that
      tryStartConsumer holds. */
  function Holder(y: Sys, pid: Pid): Option<Cid>
    requires pid in y.obj
  {
    if y.obj[pid].consumer.Some? then y.obj[pid].consumer else Held(Trying(y, pid))
  }

  // ---- The invariants ----

  predicate ManagerOk(y: Sys) {
    && (forall c :: c in y.probes ==> y.probes[c] in y.obj && y.obj[y.probes[c]].cluster == c)
    && (y.mgr.MInsert? ==> y.mgr.c !in y.probes)
    && (y.mgr.MAdd? ==> Mapped(y, y.mgr.pid))
    && (y.mgr.MRemove? ==>
          && y.mgr.pid in y.obj && y.obj[y.mgr.pid].cluster !in y.probes
          && (y.mgr.rem.Shut? ==> y.obj[y.mgr.pid].consumer == Some(y.mgr.rem.cid)))
    && !(EvalHolds(y.eval) && ManagerHolds(y.mgr))
  }

  predicate ProbeOk(y: Sys, pid: Pid)
    requires pid in y.obj
  {
    var o := y.obj[pid];
    var stage := Removal(y.mgr, pid);
    && (o.produce.PUnborn? ==> y.mgr == MAdd(pid, Spawn))
    && (o.retry.RUnborn? <==> Adding(y.mgr, pid))
    && (o.started <==> o.consumer.Some?)
    && (Trying(y, pid).Some? && Trying(y, pid) != Some(TCheck) ==> !o.started)
    && (!Mapped(y, pid) && stage == 0 ==> o.produce.PExited? && o.retry.RExited?)
    && (stage >= 2 ==> o.produce.PExited?)
    && (stage >= 3 ==> o.retry.RExited?)
    && (Holder(y, pid).Some? ==> Holder(y, pid).value in y.cons && y.cons[Holder(y, pid).value].pid == pid)
  }

  /** The probes the evaluator is about to write for. */
  predicate InHand(e: EvalPc, pid: Pid) { (e.ELoop? || e.EWrite?) && pid in e.todo }

  /** Between the snapshot and the last write for a probe, its samples are not cleared. */
  predicate PidOk(y: Sys, pid: Pid) {
    && (pid in y.obj ==> ProbeOk(y, pid))
    && (InHand(y.eval, pid) ==> pid in y.obj && (Mapped(y, pid) || 1 <= Removal(y.mgr, pid) <= 4))
  }

  /** A consumer that is not shut down is the one its probe accounts for, and removeProbe has not
      yet passed the point where it shuts it down. */
  predicate CidOk(y: Sys, cid: Cid) {
    cid in y.cons ==>
      var k := y.cons[cid];
      && k.pid in y.obj
      && (k.phase != Down ==> Holder(y, k.pid) == Some(cid) && (Mapped(y, k.pid) || 1 <= Removal(y.mgr, k.pid) <= 3))
  }

  predicate CbOk(y: Sys, cb: Cbid) {
    cb in y.cbs ==> y.cbs[cb].cid in y.cons && y.cons[y.cbs[cb].cid].phase == Live
  }

  ghost predicate Control(y: Sys) {
    && ManagerOk(y)
    && (forall pid: Pid :: PidOk(y, pid))
    && (forall cid: Cid :: CidOk(y, cid))
    && (forall cb: Cbid :: CbOk(y, cb))
  }

  lemma InitControl(cfg: Config, now: Time)
    ensures Control(InitSys(cfg, now))
  {
  }

  // ---- Steps of the produce loop and of callbacks ----

  /** A step that only moves one probe's produce counter, its recency fields or a callback. */
  predicate ProbeMoves(y: Sys, y': Sys, pid: Pid) {
    && pid in y.obj && y'.obj.Keys == y.obj.Keys
    && y' == y.(obj := y'.obj, cbs := y'.cbs)
    && (forall q :: q in y.obj && q != pid ==> y'.obj[q] == y.obj[q])
    && (var o, o' := y.obj[pid], y'.obj[pid];
        && o' == o.(produce := o'.produce, lastProduce := o'.lastProduce, lastConsume := o'.lastConsume,
                    sends := o'.sends, handled := o'.handled)
        && (o'.produce.PUnborn? ==> o.produce.PUnborn?) && (o.produce.PExited? ==> o'.produce.PExited?))
    && (forall cb :: cb in y'.cbs ==> cb in y.cbs && y'.cbs[cb].cid == y.cbs[cb].cid)
  }

  lemma ProduceNextMoves(o: Probe, clock: Time, rootCanceled: bool, a: ProduceAct)
    requires ProduceNext(o, clock, rootCanceled, a).Some?
    ensures var o' := ProduceNext(o, clock, rootCanceled, a).value;
            && o' == o.(produce := o'.produce, lastProduce := o'.lastProduce, sends := o'.sends)
            && !o'.produce.PUnborn? && !o.produce.PExited?
  {
  }

  lemma ProduceMoves(y: Sys, pid: Pid, a: ProduceAct)
    requires pid in y.obj && DoProduce(y, pid, a).Some?
    ensures ProbeMoves(y, DoProduce(y, pid, a).value, pid)
  {
    ProduceNextMoves(y.obj[pid], y.clock, y.rootCanceled, a);
  }

  lemma CallbackMoves(y: Sys, cb: Cbid)
    requires cb in y.cbs && DoCallback(y, cb).Some?
    ensures ProbeMoves(y, DoCallback(y, cb).value, y.cons[y.cbs[cb].cid].pid)
  {
  }

  lemma ProbeMovesPid(y: Sys, y': Sys, pid: Pid, q: Pid)
    requires ProbeMoves(y, y', pid) && PidOk(y, q)
    ensures PidOk(y', q)
  {
  }

  lemma ProbeMovesCid(y: Sys, y': Sys, pid: Pid, cid: Cid)
    requires ProbeMoves(y, y', pid) && CidOk(y, cid)
    ensures CidOk(y', cid)
  {
  }

  lemma ProbeMovesControl(y: Sys, y': Sys, pid: Pid)
    requires Control(y) && ProbeMoves(y, y', pid)
    ensures Control(y')
  {
    forall q: Pid ensures PidOk(y', q) { ProbeMovesPid(y, y', pid, q); }
    forall cid: Cid ensures CidOk(y', cid) { ProbeMovesCid(y, y', pid, cid); }
    forall cb: Cbid ensures CbOk(y', cb) { assert CbOk(y, cb); }
  }

  // ---- Steps that start a consumer ----

  /** One step of tryStartConsumer for `pid`, run by the retry loop or by addProbe. */
  predicate TryMoves(y: Sys, y': Sys, pid: Pid, t: TryPc, a: TryAct) {
    && pid in y.obj && Trying(y, pid) == Some(t)
    && TryFlow(y, y.obj[pid].started, t, a).Some?
    && y' == y.(obj := y'.obj, cons := TryConsumers(y.cons, pid, t, a), mgr := y'.mgr)
    && pid in y'.obj && y'.obj == y.obj[pid := y'.obj[pid]]
    && (var next := TryFlow(y, y.obj[pid].started, t, a).value;
        var o, o' := y.obj[pid], y'.obj[pid];
        if Adding(y.mgr, pid) then
          o' == TryProbe(o, t) && y'.mgr == MAdd(pid, if next.More? then Try(next.t) else Go)
        else
          && y'.mgr == y.mgr
          && o' == TryProbe(o, t).(retry := if next.More? then RTry(next.t) else if next.ok then RExited else RLoop))
  }

  lemma TryMovesPid(y: Sys, y': Sys, pid: Pid, t: TryPc, a: TryAct, q: Pid)
    requires ManagerOk(y) && TryMoves(y, y', pid, t, a) && PidOk(y, pid) && PidOk(y, q)
    ensures PidOk(y', q)
  {
    if q == pid { TryMovesOwn(y, y', pid, t, a); } else { TryMovesOther(y, y', pid, t, a, q); }
  }

  lemma TryMovesOther(y: Sys, y': Sys, pid: Pid, t: TryPc, a: TryAct, q: Pid)
    requires ManagerOk(y) && TryMoves(y, y', pid, t, a) && PidOk(y, pid) && PidOk(y, q) && q != pid
    ensures PidOk(y', q)
  {
    assert q in y.obj ==> y'.obj[q] == y.obj[q];
    assert Mapped(y', q) == Mapped(y, q);
  }

  lemma TryMovesOwn(y: Sys, y': Sys, pid: Pid, t: TryPc, a: TryAct)
    requires ManagerOk(y) && TryMoves(y, y', pid, t, a) && PidOk(y, pid)
    ensures PidOk(y', pid)
  {
    var next := TryFlow(y, y.obj[pid].started, t, a).value;
    assert Trying(y', pid) == if next.More? then Some(next.t) else None;
    assert Mapped(y', pid) == Mapped(y, pid);
  }

  lemma TryMovesCid(y: Sys, y': Sys, pid: Pid, t: TryPc, a: TryAct, cid: Cid)
    requires ManagerOk(y) && TryMoves(y, y', pid, t, a) && PidOk(y, pid) && CidOk(y, cid)
    ensures CidOk(y', cid)
  {
    if cid in y.cons && y.cons[cid].pid != pid {
      TryMovesOtherCid(y, y', pid, t, a, cid);
    } else {
      TryMovesOwnCid(y, y', pid, t, a, cid);
    }
  }

  lemma TryMovesOtherCid(y: Sys, y': Sys, pid: Pid, t: TryPc, a: TryAct, cid: Cid)
    requires ManagerOk(y) && TryMoves(y, y', pid, t, a) && PidOk(y, pid) && CidOk(y, cid)
    requires cid in y.cons && y.cons[cid].pid != pid
    ensures CidOk(y', cid)
  {
    assert y'.cons[cid] == y.cons[cid];
    assert Mapped(y', y.cons[cid].pid) == Mapped(y, y.cons[cid].pid);
  }

  lemma TryMovesOwnCid(y: Sys, y': Sys, pid: Pid, t: TryPc, a: TryAct, cid: Cid)
    requires ManagerOk(y) && TryMoves(y, y', pid, t, a) && PidOk(y, pid) && CidOk(y, cid)
    requires cid in y.cons ==> y.cons[cid].pid == pid
    ensures CidOk(y', cid)
  {
    assert Mapped(y', pid) == Mapped(y, pid);
  }

  lemma TryMovesCb(y: Sys, y': Sys, pid: Pid, t: TryPc, a: TryAct, cb: Cbid)
    requires TryMoves(y, y', pid, t, a) && PidOk(y, pid) && CbOk(y, cb)
    ensures CbOk(y', cb)
  {
  }

  lemma TryMovesControl(y: Sys, y': Sys, pid: Pid, t: TryPc, a: TryAct)
    requires Control(y) && TryMoves(y, y', pid, t, a)
    ensures Control(y')
  {
    assert PidOk(y, pid);
    forall q: Pid ensures PidOk(y', q) { TryMovesPid(y, y', pid, t, a, q); }
    forall cid: Cid ensures CidOk(y', cid) { TryMovesCid(y, y', pid, t, a, cid); }
    forall cb: Cbid ensures CbOk(y', cb) { TryMovesCb(y, y', pid, t, a, cb); }
  }

  // ---- The other steps of the retry loop, and the evaluator ----

  predicate RetryMoves(y: Sys, y': Sys, pid: Pid) {
    && pid in y.obj && pid in y'.obj && y' == y.(obj := y.obj[pid := y'.obj[pid]])
    && (var o, o' := y.obj[pid], y'.obj[pid];
        && o' == o.(retry := o'.retry) && (o.retry.RCheck? || o.retry.RLoop?)
        && (o'.retry.RExited? || o'.retry.RLoop? || o'.retry == RTry(TCheck)))
  }

  lemma RetryMovesControl(y: Sys, y': Sys, pid: Pid)
    requires Control(y) && RetryMoves(y, y', pid)
    ensures Control(y')
  {
    forall q: Pid ensures PidOk(y', q) { RetryMovesPid(y, y', pid, q); }
    forall cid: Cid ensures CidOk(y', cid) { RetryMovesCid(y, y', pid, cid); }
    forall cb: Cbid ensures CbOk(y', cb) { assert CbOk(y, cb); }
  }

  lemma RetryMovesPid(y: Sys, y': Sys, pid: Pid, q: Pid)
    requires RetryMoves(y, y', pid) && PidOk(y, pid) && PidOk(y, q)
    ensures PidOk(y', q)
  {
  }

  lemma RetryMovesCid(y: Sys, y': Sys, pid: Pid, cid: Cid)
    requires RetryMoves(y, y', pid) && CidOk(y, cid)
    ensures CidOk(y', cid)
  {
  }

  lemma RetryControl(y: Sys, pid: Pid, a: RetryAct)
    requires Control(y) && pid in y.obj && DoRetry(y, pid, a).Some?
    ensures Control(DoRetry(y, pid, a).value)
  {
    var y', o := DoRetry(y, pid, a).value, y.obj[pid];
    assert PidOk(y, pid);
    if o.retry.RTry? {
      TryMovesControl(y, y', pid, o.retry.t, a.a);
    } else {
      RetryMovesControl(y, y', pid);
    }
  }

  lemma EvalControl(y: Sys, a: EvalAct)
    requires Control(y) && EvalNext(y, a).Some?
    ensures Control(y.(eval := EvalNext(y, a).value))
  {
    var y' := y.(eval := EvalNext(y, a).value);
    forall q: Pid ensures PidOk(y', q) { EvalPid(y, a, q); }
    forall cid: Cid ensures CidOk(y', cid) { assert CidOk(y, cid); }
    forall cb: Cbid ensures CbOk(y', cb) { assert CbOk(y, cb); }
  }

  lemma EvalPid(y: Sys, a: EvalAct, q: Pid)
    requires ManagerOk(y) && PidOk(y, q) && EvalNext(y, a).Some?
    ensures PidOk(y.(eval := EvalNext(y, a).value), q)
  {
    if InHand(EvalNext(y, a).value, q) && y.eval.ELocked? {
      var c :| c in y.probes && y.probes[c] == q;
      assert Mapped(y, q);
    }
  }

  // ---- Manager ----

  predicate Quiet(m: ManagerPc) { !m.MAdd? && !m.MRemove? }

  /** A step that leaves every probe and consumer alone. */
  predicate QuietMoves(y: Sys, y': Sys) {
    && y' == y.(clock := y'.clock, eval := y'.eval, mgr := y'.mgr, plan := y'.plan,
                rootCanceled := y'.rootCanceled, producerUp := y'.producerUp)
    && (y'.mgr == y.mgr || (Quiet(y.mgr) && Quiet(y'.mgr) && (y'.mgr.MInsert? ==> y'.mgr.c !in y.probes)))
    && (y'.eval == y.eval || !EvalHolds(y'.eval))
  }

  lemma QuietMovesControl(y: Sys, y': Sys)
    requires Control(y) && QuietMoves(y, y')
    ensures Control(y')
  {
    forall q: Pid ensures PidOk(y', q) { QuietMovesPid(y, y', q); }
    forall cid: Cid ensures CidOk(y', cid) { QuietMovesCid(y, y', cid); }
    forall cb: Cbid ensures CbOk(y', cb) { assert CbOk(y, cb); }
  }

  lemma QuietMovesPid(y: Sys, y': Sys, q: Pid)
    requires QuietMoves(y, y') && PidOk(y, q)
    ensures PidOk(y', q)
  {
  }

  lemma QuietMovesCid(y: Sys, y': Sys, cid: Cid)
    requires QuietMoves(y, y') && CidOk(y, cid)
    ensures CidOk(y', cid)
  {
  }

  lemma LifecycleQuiet(y: Sys, a: ManageAct)
    requires Quiet(y.mgr) && !y.mgr.MInsert? && DoLifecycle(y, a).Some?
    ensures QuietMoves(y, DoLifecycle(y, a).value)
  {
    var y' := DoLifecycle(y, a).value;
    match a
    case Start(ok) => StartQuiet(y, ok);
    case Reconcile(disc) => ReconcileQuiet(y, disc);
    case _ =>
  }

  lemma StartQuiet(y: Sys, ok: bool)
    requires Quiet(y.mgr) && DoLifecycle(y, Start(ok)).Some?
    ensures QuietMoves(y, DoLifecycle(y, Start(ok)).value)
  {
  }

  lemma ReconcileQuiet(y: Sys, disc: set<Cluster>)
    requires Quiet(y.mgr) && DoLifecycle(y, Reconcile(disc)).Some?
    ensures QuietMoves(y, DoLifecycle(y, Reconcile(disc)).value)
  {
  }

  /** removeProbe takes the probe of `c` out of the map. */
  predicate Unmaps(y: Sys, y': Sys, c: Cluster) {
    c in y.probes && Quiet(y.mgr) &&
    y' == y.(probes := y.probes - {c}, mgr := MRemove(y.probes[c], Cancel), plan := y'.plan)
  }

  lemma UnmapsControl(y: Sys, y': Sys, c: Cluster)
    requires Control(y) && Unmaps(y, y', c)
    ensures Control(y')
  {
    forall q: Pid ensures PidOk(y', q) { UnmapsPid(y, y', c, q); }
    forall cid: Cid ensures CidOk(y', cid) { UnmapsCid(y, y', c, cid); }
    forall cb: Cbid ensures CbOk(y', cb) { assert CbOk(y, cb); }
  }

  lemma UnmapsPid(y: Sys, y': Sys, c: Cluster, q: Pid)
    requires ManagerOk(y) && Unmaps(y, y', c) && PidOk(y, q)
    ensures PidOk(y', q)
  {
    assert Mapped(y', q) == (Mapped(y, q) && q != y.probes[c]);
  }

  lemma UnmapsCid(y: Sys, y': Sys, c: Cluster, cid: Cid)
    requires ManagerOk(y) && Unmaps(y, y', c) && CidOk(y, cid)
    ensures CidOk(y', cid)
  {
    assert forall q :: Mapped(y', q) == (Mapped(y, q) && q != y.probes[c]);
  }

  predicate Inserts(y: Sys, y': Sys, pid: Pid) {
    && y.mgr.MInsert? && pid !in y.obj
    && y' == y.(obj := y.obj[pid := NewProbe(y.mgr.c)], probes := y.probes[y.mgr.c := pid], mgr := MAdd(pid, Spawn))
  }

  lemma InsertsControl(y: Sys, y': Sys, pid: Pid)
    requires Control(y) && Inserts(y, y', pid)
    ensures Control(y')
  {
    forall q: Pid ensures PidOk(y', q) { InsertsPid(y, y', pid, q); }
    forall cid: Cid ensures CidOk(y', cid) { InsertsCid(y, y', pid, cid); }
    forall cb: Cbid ensures CbOk(y', cb) { assert CbOk(y, cb); }
  }

  lemma InsertsPid(y: Sys, y': Sys, pid: Pid, q: Pid)
    requires ManagerOk(y) && Inserts(y, y', pid) && PidOk(y, q)
    ensures PidOk(y', q)
  {
    if q != pid && q in y.obj { assert Mapped(y', q) == Mapped(y, q); }
  }

  lemma InsertsCid(y: Sys, y': Sys, pid: Pid, cid: Cid)
    requires ManagerOk(y) && Inserts(y, y', pid) && CidOk(y, cid)
    ensures CidOk(y', cid)
  {
    if cid in y.cons { assert Mapped(y', y.cons[cid].pid) == Mapped(y, y.cons[cid].pid); }
  }

  /** addProbe starts the produce loop, or the retry loop as its last act. */
  predicate AddMoves(y: Sys, y': Sys, pid: Pid) {
    && pid in y.obj && pid in y'.obj && y' == y.(obj := y.obj[pid := y'.obj[pid]], mgr := y'.mgr)
    && (var o, o' := y.obj[pid], y'.obj[pid];
        || (y.mgr == MAdd(pid, Spawn) && y'.mgr == MAdd(pid, Try(TCheck)) && o' == o.(produce := PIdle))
        || (y.mgr == MAdd(pid, Go) && y'.mgr == MLoop && o' == o.(retry := RCheck)))
  }

  lemma AddControl(y: Sys, pid: Pid, a: ManageAct)
    requires Control(y) && y.mgr.MAdd? && y.mgr.pid == pid && DoAdd(y, pid, a).Some?
    ensures Control(DoAdd(y, pid, a).value)
  {
    var y' := DoAdd(y, pid, a).value;
    if y.mgr.add.Try? {
      assert TryMoves(y, y', pid, y.mgr.add.t, a.a);
      TryMovesControl(y, y', pid, y.mgr.add.t, a.a);
    } else {
      assert AddMoves(y, y', pid);
      AddMovesControl(y, y', pid);
    }
  }

  lemma AddKeepsRest(y: Sys, pid: Pid, a: ManageAct)
    requires y.mgr.MAdd? && DoAdd(y, pid, a).Some?
    ensures var y' := DoAdd(y, pid, a).value;
            && pid in y.obj && pid in y'.obj
            && y' == y.(obj := y.obj[pid := y'.obj[pid]], cons := y'.cons, mgr := y'.mgr)
            && (y'.mgr.MAdd? || y'.mgr.MLoop?)
  {
  }

  /** What the loops of reconcileClusters and Shutdown touch. */
  lemma LoopKeepsRest(y: Sys, a: ManageAct)
    requires DoLoop(y, a).Some?
    ensures var y' := DoLoop(y, a).value; y' == y.(probes := y'.probes, plan := y'.plan, mgr := y'.mgr)
  {
  }

  /** What Start, the refresh loop and Shutdown touch themselves. */
  lemma LifecycleKeepsRest(y: Sys, a: ManageAct)
    requires DoLifecycle(y, a).Some?
    ensures var y' := DoLifecycle(y, a).value;
            && y' == y.(plan := y'.plan, mgr := y'.mgr, eval := y'.eval, producerUp := y'.producerUp)
            && (y'.eval == y.eval || !EvalHolds(y'.eval)) && (y'.mgr == y.mgr || !y'.mgr.MRemove?)
  {
  }

  lemma AddMovesControl(y: Sys, y': Sys, pid: Pid)
    requires Control(y) && AddMoves(y, y', pid)
    ensures Control(y')
  {
    assert PidOk(y, pid);
    forall q: Pid ensures PidOk(y', q) { AddMovesPid(y, y', pid, q); }
    forall cid: Cid ensures CidOk(y', cid) { AddMovesCid(y, y', pid, cid); }
    forall cb: Cbid ensures CbOk(y', cb) { assert CbOk(y, cb); }
  }

  lemma AddMovesPid(y: Sys, y': Sys, pid: Pid, q: Pid)
    requires ManagerOk(y) && AddMoves(y, y', pid) && PidOk(y, pid) && PidOk(y, q)
    ensures PidOk(y', q)
  {
  }

  lemma AddMovesCid(y: Sys, y': Sys, pid: Pid, cid: Cid)
    requires ManagerOk(y) && AddMoves(y, y', pid) && PidOk(y, pid) && CidOk(y, cid)
    ensures CidOk(y', cid)
  {
  }

  /** A step of removeProbe past the map: the stage goes up only when its guard holds. */
  predicate RemoveMoves(y: Sys, y': Sys, pid: Pid) {
    && y.mgr.MRemove? && y.mgr.pid == pid && pid in y.obj && pid in y'.obj
    && y' == y.(obj := y.obj[pid := y'.obj[pid]], cons := y'.cons, mgr := y'.mgr)
    && y'.obj[pid] == y.obj[pid].(canceled := y'.obj[pid].canceled)
    && (if y.mgr.rem.Shut? then ShutsDown(y, y', y.mgr.rem.cid) else y'.cons == y.cons)
    && RemoveFlow(y.obj[pid], y.eval, pid, y.mgr.rem, y'.mgr)
  }

  predicate ShutsDown(y: Sys, y': Sys, cid: Cid) {
    cid in y.cons && !CallbackRuns(y, cid) && y'.cons == y.cons[cid := y.cons[cid].(phase := Down)]
  }

  predicate RemoveFlow(o: Probe, e: EvalPc, pid: Pid, r: RemovePc, m': ManagerPc) {
    match r
    case Cancel => m' == MRemove(pid, WaitProduce)
    case WaitProduce => o.produce.PExited? && m' == MRemove(pid, WaitRetry)
    case WaitRetry => o.retry.RExited? && m' == MRemove(pid, Take)
    case Take => m' == MRemove(pid, if o.consumer.Some? then Shut(o.consumer.value) else LockEval)
    case Shut(_) => m' == MRemove(pid, LockEval)
    case LockEval => !EvalHolds(e) && m' == MRemove(pid, ClearStore)
    case ClearStore => m' == MRemove(pid, Unlock)
    case Unlock => m' == MLoop
  }

  lemma RemoveIsMoves(y: Sys, pid: Pid, a: ManageAct)
    requires y.mgr.MRemove? && y.mgr.pid == pid && DoRemove(y, pid, a).Some?
    ensures RemoveMoves(y, DoRemove(y, pid, a).value, pid)
  {
    match y.mgr.rem
    case Cancel => RemoveCancels(y, pid, a);
    case Shut(_) => RemoveShuts(y, pid, a);
    case _ => RemoveGoesOn(y, pid, a);
  }

  lemma RemoveCancels(y: Sys, pid: Pid, a: ManageAct)
    requires y.mgr == MRemove(pid, Cancel) && DoRemove(y, pid, a).Some?
    ensures RemoveMoves(y, DoRemove(y, pid, a).value, pid)
  {
  }

  lemma RemoveShuts(y: Sys, pid: Pid, a: ManageAct)
    requires y.mgr.MRemove? && y.mgr.pid == pid && y.mgr.rem.Shut? && DoRemove(y, pid, a).Some?
    ensures RemoveMoves(y, DoRemove(y, pid, a).value, pid)
  {
    assert y.obj[pid := y.obj[pid]] == y.obj;
  }

  /** The stages that change nothing but the manager's own place. */
  lemma RemoveGoesOn(y: Sys, pid: Pid, a: ManageAct)
    requires y.mgr.MRemove? && y.mgr.pid == pid && !y.mgr.rem.Cancel? && !y.mgr.rem.Shut? && DoRemove(y, pid, a).Some?
    ensures RemoveMoves(y, DoRemove(y, pid, a).value, pid)
  {
    assert y.obj[pid := y.obj[pid]] == y.obj;
    assert DoRemove(y, pid, a).value == y.(mgr := DoRemove(y, pid, a).value.mgr);
  }

  lemma RemoveControl(y: Sys, y': Sys, pid: Pid)
    requires Control(y) && RemoveMoves(y, y', pid)
    ensures Control(y')
  {
    assert PidOk(y, pid);
    forall q: Pid ensures PidOk(y', q) { RemovePid(y, y', pid, q); }
    forall cid: Cid ensures CidOk(y', cid) { RemoveCid(y, y', pid, cid); }
    forall cb: Cbid ensures CbOk(y', cb) { assert CbOk(y, cb); }
  }

  lemma RemovePid(y: Sys, y': Sys, pid: Pid, q: Pid)
    requires ManagerOk(y) && RemoveMoves(y, y', pid) && PidOk(y, pid) && PidOk(y, q)
    ensures PidOk(y', q)
  {
    if q == pid { RemoveOwn(y, y', pid); }
  }

  lemma RemoveOwn(y: Sys, y': Sys, pid: Pid)
    requires ManagerOk(y) && RemoveMoves(y, y', pid) && PidOk(y, pid)
    ensures PidOk(y', pid)
  {
    assert !Mapped(y, pid) && !Mapped(y', pid);
  }

  lemma RemoveCid(y: Sys, y': Sys, pid: Pid, cid: Cid)
    requires ManagerOk(y) && RemoveMoves(y, y', pid) && PidOk(y, pid) && CidOk(y, cid)
    ensures CidOk(y', cid)
  {
    assert !Mapped(y, pid) && !Mapped(y', pid);
  }

  lemma ManageControl(y: Sys, a: ManageAct)
    requires Control(y) && DoManage(y, a).Some?
    ensures Control(DoManage(y, a).value)
  {
    var y' := DoManage(y, a).value;
    if a.RootCancel? || y.mgr.MStopProducer? {
      QuietMovesControl(y, y');
    } else {
      match y.mgr
      case MAdd(pid, _) => AddControl(y, pid, a);
      case MRemove(pid, _) => RemoveStepControl(y, pid, a);
      case MLoop => LoopControl(y, a);
      case MInsert(c) => InsertsControl(y, y', a.pid);
      case _ => LifecycleControl(y, a);
    }
  }

  lemma RemoveStepControl(y: Sys, pid: Pid, a: ManageAct)
    requires Control(y) && y.mgr.MRemove? && y.mgr.pid == pid && DoRemove(y, pid, a).Some?
    ensures Control(DoRemove(y, pid, a).value)
  {
    RemoveIsMoves(y, pid, a);
    RemoveControl(y, DoRemove(y, pid, a).value, pid);
  }

  lemma LoopControl(y: Sys, a: ManageAct)
    requires Control(y) && y.mgr.MLoop? && DoLoop(y, a).Some?
    ensures Control(DoLoop(y, a).value)
  {
    var y' := DoLoop(y, a).value;
    if a.PickRemove? && a.c in y.probes { UnmapsControl(y, y', a.c); } else { QuietMovesControl(y, y'); }
  }

  lemma LifecycleControl(y: Sys, a: ManageAct)
    requires Control(y) && Quiet(y.mgr) && !y.mgr.MInsert? && DoLifecycle(y, a).Some?
    ensures Control(DoLifecycle(y, a).value)
  {
    LifecycleQuiet(y, a);
    QuietMovesControl(y, DoLifecycle(y, a).value);
  }

  /** Every step of every actor keeps the control invariants. */
  lemma StepControl(y: Sys, a: Action)
    requires Control(y) && Next(y, a).Some?
    ensures Control(Next(y, a).value)
  {
    var y' := Next(y, a).value;
    match a
    case Tick(_) => QuietMovesControl(y, y');
    case Produce(pid, p) =>
      ProduceMoves(y, pid, p);
      ProbeMovesControl(y, y', pid);
    case Retry(pid, r) => RetryControl(y, pid, r);
    case CallbackStart(cb, cid, n) => CallbackStartControl(y, y', cb);
    case CallbackStep(cb, _, _) =>
      CallbackMoves(y, cb);
      ProbeMovesControl(y, y', y.cons[y.cbs[cb].cid].pid);
    case Eval(e) => EvalControl(y, e);
    case Manage(m) => ManageControl(y, m);
  }

  lemma CallbackStartControl(y: Sys, y': Sys, cb: Cbid)
    requires Control(y) && cb in y'.cbs && y' == y.(cbs := y.cbs[cb := y'.cbs[cb]])
    requires y'.cbs[cb].cid in y.cons && y.cons[y'.cbs[cb].cid].phase == Live
    ensures Control(y')
  {
    forall q: Pid ensures PidOk(y', q) { assert PidOk(y, q); }
    forall cid: Cid ensures CidOk(y', cid) { assert CidOk(y, cid); }
    forall b: Cbid ensures CbOk(y', b) { assert CbOk(y, b); }
  }
}
