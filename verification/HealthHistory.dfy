/** One stored timestamp stands for the whole history of a probe. */
module HealthHistory {
  import opened Bytes
  import opened HealthProber
  import opened HealthInvariants

  predicate Bounded(ts: seq<Time>, t: Time) { forall i :: 0 <= i < |ts| ==> ts[i] <= t }

  /** The last recorded time is the largest. */
  predicate LastIsLargest(ts: seq<Time>) { ts != [] ==> Bounded(ts, ts[|ts| - 1]) }

  /** Then the one timestamp that is kept decides whether any recorded time is recent. */
  lemma LastDecides(ts: seq<Time>, now: Time, recency: int)
    requires LastIsLargest(ts)
    ensures Recent(Last(ts), now, recency) <==> InWindow(ts, now, recency)
  {
    if ts != [] && Recent(Last(ts), now, recency) {
      assert now - ts[|ts| - 1] < recency;
    }
  }

  /** Whatever the order, a recent last time is a recorded time in the window. */
  lemma LastWitnesses(ts: seq<Time>, now: Time, recency: int)
    requires Recent(Last(ts), now, recency)
    ensures InWindow(ts, now, recency)
  {
    assert now - ts[|ts| - 1] < recency;
  }

  function SendTime(p: ProducePc): Option<Time> {
    match p
    case PSending(now) => Some(now)
    case PSent(now, _) => Some(now)
    case _ => None
  }

  /** The recency fields are the last entries of their histories; the produce history has one
      writer and so never goes back in time. */
  predicate HistoryOk(o: Probe, clock: Time) {
    && o.lastProduce == Last(o.sends) && o.lastConsume == Last(o.handled)
    && LastIsLargest(o.sends) && Bounded(o.sends, clock)
    && (SendTime(o.produce).Some? ==> SendTime(o.produce).value <= clock && Bounded(o.sends, SendTime(o.produce).value))
  }

  predicate PidHistory(y: Sys, pid: Pid) { pid in y.obj ==> HistoryOk(y.obj[pid], y.clock) }

  /** What an evaluation decides, in terms of everything recorded when it read the probe. */
  predicate Sound(j: Judgement, recency: int) {
    && (j.produceOk <==> InWindow(j.sends, j.now, recency))
    && (j.consumeOk <==> Recent(Last(j.handled), j.now, recency))
  }

  predicate EvalSound(y: Sys) { y.eval.EWrite? ==> Sound(y.eval.j, y.cfg.recency) && y.eval.j.now == y.eval.now }

  ghost predicate Histories(y: Sys) { (forall pid: Pid :: PidHistory(y, pid)) && EvalSound(y) }

  lemma ProduceHistory(o: Probe, clock: Time, rootCanceled: bool, a: ProduceAct)
    requires HistoryOk(o, clock) && ProduceNext(o, clock, rootCanceled, a).Some?
    ensures HistoryOk(ProduceNext(o, clock, rootCanceled, a).value, clock)
  {
    if o.produce.PSent? { SendRecorded(o.sends, o.produce.now, clock); }
  }

  lemma SendRecorded(ts: seq<Time>, t: Time, clock: Time)
    requires Bounded(ts, t) && t <= clock
    ensures LastIsLargest(ts + [t]) && Bounded(ts + [t], clock) && Last(ts + [t]) == Some(t)
  {
  }

  lemma HandledHistory(o: Probe, clock: Time, now: Time)
    requires HistoryOk(o, clock)
    ensures HistoryOk(o.(lastConsume := Some(now), handled := o.handled + [now]), clock)
  {
  }

  /** The fields that only sendOne and handleMessage write are the same, or the probe is new. */
  predicate SameRecord(y: Sys, y': Sys, q: Pid)
    requires q in y'.obj
  {
    var o' := y'.obj[q];
    if q in y.obj then
      var o := y.obj[q];
      && o'.sends == o.sends && o'.handled == o.handled
      && o'.lastProduce == o.lastProduce && o'.lastConsume == o.lastConsume
      && (o'.produce == o.produce || o'.produce == PIdle)
    else
      o'.sends == o'.handled == [] && o'.lastProduce == o'.lastConsume == None && o'.produce == PUnborn
  }

  /** A step that neither sends nor handles nor evaluates. */
  predicate Frames(y: Sys, y': Sys, q: Pid) {
    && (q in y'.obj ==> SameRecord(y, y', q))
    && (q in y.obj ==> q in y'.obj && y'.obj[q].cluster == y.obj[q].cluster)
    && y'.clock >= y.clock && y'.cfg == y.cfg && (y'.eval == y.eval || !EvalHolds(y'.eval))
  }

  /** Only one probe changes, and only in fields no history depends on. */
  predicate OneProbe(y: Sys, y': Sys, pid: Pid) {
    && pid in y.obj && pid in y'.obj
    && y' == y.(obj := y.obj[pid := y'.obj[pid]], cons := y'.cons, mgr := y'.mgr)
    && (var o, o' := y.obj[pid], y'.obj[pid];
        && o' == o.(produce := o'.produce, retry := o'.retry, consumer := o'.consumer, started := o'.started, canceled := o'.canceled)
        && (o'.produce == o.produce || o'.produce == PIdle))
  }

  lemma OneProbeFrames(y: Sys, y': Sys, pid: Pid, q: Pid)
    requires OneProbe(y, y', pid)
    ensures Frames(y, y', q)
  {
  }

  lemma RetryFrames(y: Sys, pid: Pid, a: RetryAct, q: Pid)
    requires pid in y.obj && DoRetry(y, pid, a).Some?
    ensures Frames(y, DoRetry(y, pid, a).value, q)
  {
    RetryIsOneProbe(y, pid, a);
    OneProbeFrames(y, DoRetry(y, pid, a).value, pid, q);
  }

  lemma RetryIsOneProbe(y: Sys, pid: Pid, a: RetryAct)
    requires pid in y.obj && DoRetry(y, pid, a).Some?
    ensures OneProbe(y, DoRetry(y, pid, a).value, pid)
  {
    if y.obj[pid].retry.RTry? { TryIsOneProbe(y, pid, a); }
  }

  lemma TryIsOneProbe(y: Sys, pid: Pid, a: RetryAct)
    requires pid in y.obj && y.obj[pid].retry.RTry? && DoRetry(y, pid, a).Some?
    ensures OneProbe(y, DoRetry(y, pid, a).value, pid)
  {
  }

  lemma AddFrames(y: Sys, pid: Pid, a: ManageAct, q: Pid)
    requires y.mgr.MAdd? && DoAdd(y, pid, a).Some?
    ensures Frames(y, DoAdd(y, pid, a).value, q)
  {
    OneProbeFrames(y, DoAdd(y, pid, a).value, pid, q);
  }

  lemma RemoveFrames(y: Sys, pid: Pid, a: ManageAct, q: Pid)
    requires y.mgr.MRemove? && y.mgr.pid == pid && DoRemove(y, pid, a).Some?
    ensures Frames(y, DoRemove(y, pid, a).value, q)
  {
    RemoveIsMoves(y, pid, a);
    RemoveMovesFrames(y, DoRemove(y, pid, a).value, pid, q);
  }

  lemma RemoveMovesFrames(y: Sys, y': Sys, pid: Pid, q: Pid)
    requires RemoveMoves(y, y', pid)
    ensures Frames(y, y', q)
  {
    OneProbeFrames(y, y', pid, q);
  }

  lemma LifecycleFrames(y: Sys, a: ManageAct, q: Pid)
    requires DoLifecycle(y, a).Some?
    ensures Frames(y, DoLifecycle(y, a).value, q)
  {
    LifecycleKeepsRest(y, a);
  }

  lemma LoopFrames(y: Sys, a: ManageAct, q: Pid)
    requires DoLoop(y, a).Some?
    ensures Frames(y, DoLoop(y, a).value, q)
  {
    LoopKeepsRest(y, a);
  }

  lemma ManageFrames(y: Sys, a: ManageAct, q: Pid)
    requires DoManage(y, a).Some?
    ensures Frames(y, DoManage(y, a).value, q)
  {
    if !a.RootCancel? {
      match y.mgr
      case MAdd(pid, _) => AddFrames(y, pid, a, q);
      case MRemove(pid, _) => RemoveFrames(y, pid, a, q);
      case MLoop => LoopFrames(y, a, q);
      case MInsert(_) =>
      case MStopProducer =>
      case _ => LifecycleFrames(y, a, q);
    }
  }

  lemma OtherFrames(y: Sys, a: Action, q: Pid)
    requires Next(y, a).Some? && !a.Produce? && !a.CallbackStep? && !a.Eval?
    ensures Frames(y, Next(y, a).value, q)
  {
    match a
    case Retry(pid, r) => RetryFrames(y, pid, r, q);
    case Manage(m) => ManageFrames(y, m, q);
    case _ =>
  }

  lemma StepHistory(y: Sys, a: Action, q: Pid)
    requires Next(y, a).Some? && PidHistory(y, q)
    ensures PidHistory(Next(y, a).value, q)
  {
    var y' := Next(y, a).value;
    if a.Produce? {
      if q == a.pid && q in y.obj { ProduceHistory(y.obj[q], y.clock, y.rootCanceled, a.p); }
    } else if a.CallbackStep? {
      var k := y.cbs[a.cb];
      if q == y.cons[k.cid].pid && q in y.obj { HandledHistory(y.obj[q], y.clock, k.now); }
    } else if !a.Eval? {
      OtherFrames(y, a, q);
    }
  }

  lemma EvalSoundKept(y: Sys, a: EvalAct)
    requires Histories(y) && EvalNext(y, a).Some?
    ensures EvalSound(y.(eval := EvalNext(y, a).value))
  {
    if y.eval.ELoop? && y.eval.todo != [] && y.eval.todo[0] in y.obj {
      assert PidHistory(y, y.eval.todo[0]);
      LastDecides(y.obj[y.eval.todo[0]].sends, y.eval.now, y.cfg.recency);
    }
  }

  lemma StepEvalSound(y: Sys, a: Action)
    requires Histories(y) && Next(y, a).Some?
    ensures EvalSound(Next(y, a).value)
  {
    if a.Eval? { EvalSoundKept(y, a.e); } else if !a.Produce? && !a.CallbackStep? { OtherFrames(y, a, 0); }
  }

  lemma StepHistories(y: Sys, a: Action)
    requires Histories(y) && Next(y, a).Some?
    ensures Histories(Next(y, a).value)
  {
    forall q: Pid ensures PidHistory(Next(y, a).value, q) { StepHistory(y, a, q); }
    StepEvalSound(y, a);
  }
}
