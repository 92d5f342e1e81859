/** The status gauges agree with one another and with the evaluation that wrote them. */
module HealthGauges {
  import opened HealthStore
  import opened HealthProber
  import opened HealthInvariants
  import opened HealthHistory
  import opened HealthSamples

  /** The evaluator is not started before the refresh loop is. */
  predicate LifeOk(y: Sys) {
    && (y.plan.phase == Starting ==> y.eval.EUnborn? || y.eval.EExited?)
    && (y.mgr.MNew? ==> y.plan.phase == Starting)
  }

  lemma LifeStep(y: Sys, a: Action)
    requires LifeOk(y) && Next(y, a).Some?
    ensures LifeOk(Next(y, a).value)
  {
    match a
    case Produce(pid, p) => ProduceMoves(y, pid, p);
    case CallbackStep(cb, _, _) => CallbackMoves(y, cb);
    case Manage(m) => ManageLife(y, m);
    case _ =>
  }

  lemma ManageLife(y: Sys, a: ManageAct)
    requires LifeOk(y) && DoManage(y, a).Some?
    ensures LifeOk(DoManage(y, a).value)
  {
    if !a.RootCancel? {
      match y.mgr
      case MAdd(pid, _) => AddLife(y, pid, a);
      case MRemove(pid, _) => RemoveLife(y, pid, a);
      case MLoop => LoopLife(y, a);
      case _ => LifecycleLife(y, a);
    }
  }

  lemma AddLife(y: Sys, pid: Pid, a: ManageAct)
    requires LifeOk(y) && y.mgr.MAdd? && DoAdd(y, pid, a).Some?
    ensures LifeOk(DoAdd(y, pid, a).value)
  {
    AddKeepsRest(y, pid, a);
  }

  lemma RemoveLife(y: Sys, pid: Pid, a: ManageAct)
    requires LifeOk(y) && y.mgr.MRemove? && y.mgr.pid == pid && DoRemove(y, pid, a).Some?
    ensures LifeOk(DoRemove(y, pid, a).value)
  {
    RemoveIsMoves(y, pid, a);
  }

  lemma LoopLife(y: Sys, a: ManageAct)
    requires LifeOk(y) && y.mgr.MLoop? && DoLoop(y, a).Some?
    ensures LifeOk(DoLoop(y, a).value)
  {
  }

  lemma LifecycleLife(y: Sys, a: ManageAct)
    requires LifeOk(y)
    ensures DoLifecycle(y, a).Some? ==> LifeOk(DoLifecycle(y, a).value)
  {
  }

  /** Only evalOnce ends an evaluation. */
  lemma EvalUninterrupted(y: Sys, a: Action)
    requires LifeOk(y) && Next(y, a).Some? && !a.Eval? && EvalHolds(y.eval)
    ensures Next(y, a).value.eval == y.eval
  {
    match a
    case Produce(pid, p) => ProduceMoves(y, pid, p);
    case CallbackStep(cb, _, _) => CallbackMoves(y, cb);
    case Manage(m) => ManageUninterrupted(y, m);
    case _ =>
  }

  lemma ManageUninterrupted(y: Sys, a: ManageAct)
    requires LifeOk(y) && DoManage(y, a).Some? && EvalHolds(y.eval)
    ensures DoManage(y, a).value.eval == y.eval
  {
    if !a.RootCancel? {
      match y.mgr
      case MAdd(pid, _) => AddKeepsRest(y, pid, a);
      case MRemove(pid, _) => RemoveIsMoves(y, pid, a);
      case _ =>
    }
  }

  // ---- Agreement ----

  predicate NoGauges(st: Store, c: Cluster) {
    (forall k: Check :: (c, k) !in st.status) && (c, Check.Consume) !in st.lastError
  }

  predicate AllGauges(st: Store, c: Cluster, p: bool, q: bool) {
    && (c, Check.Produce) in st.status && st.status[(c, Check.Produce)] == Flag(p)
    && (c, Check.Consume) in st.status && st.status[(c, Check.Consume)] == Flag(q)
    && (c, Overall) in st.status && st.status[(c, Overall)] == Flag(p && q)
    && (c, Check.Consume) in st.lastError && (st.lastError[(c, Check.Consume)] == "" <==> q)
  }

  /** None or all of the gauges; overall is produce AND consume; the consume error is empty
      exactly when consume is 1. */
  predicate Consistent(st: Store, c: Cluster) {
    NoGauges(st, c) || exists p: bool, q: bool :: AllGauges(st, c, p, q)
  }

  /** The first `k` gauges of an evaluation are out. */
  predicate Partial(st: Store, c: Cluster, j: Judgement, k: nat) {
    && (k >= 1 ==> (c, Check.Produce) in st.status && st.status[(c, Check.Produce)] == Flag(j.produceOk))
    && (k >= 2 ==> (c, Check.Consume) in st.status && st.status[(c, Check.Consume)] == Flag(j.consumeOk))
    && (k >= 3 ==> (c, Overall) in st.status && st.status[(c, Overall)] == Flag(j.produceOk && j.consumeOk))
  }

  predicate MidWrite(y: Sys, c: Cluster) {
    Evaluating(y).Some? && y.obj[Evaluating(y).value].cluster == c && 1 <= y.eval.k <= 3
  }

  predicate Gauges(s: State, c: Cluster) {
    if MidWrite(s.sys, c) then Partial(s.store, c, s.sys.eval.j, s.sys.eval.k) else Consistent(s.store, c)
  }

  /** The writes that touch the gauges of a cluster. */
  predicate GaugeWrite(w: Write) { w.Status? || (w.LastError? && w.k == Check.Consume) || w.Wipe? }

  predicate SameGauges(st: Store, st': Store, c: Cluster) {
    && (forall k: Check :: (c, k) in st'.status <==> (c, k) in st.status)
    && (forall k: Check :: (c, k) in st.status ==> st'.status[(c, k)] == st.status[(c, k)])
    && ((c, Check.Consume) in st'.lastError <==> (c, Check.Consume) in st.lastError)
    && ((c, Check.Consume) in st.lastError ==> st'.lastError[(c, Check.Consume)] == st.lastError[(c, Check.Consume)])
  }

  lemma OtherWritesKeepGauges(st: Store, d: Cluster, w: Write, c: Cluster)
    requires d != c || !GaugeWrite(w)
    ensures SameGauges(st, Apply(st, d, w), c)
  {
  }

  lemma SameGaugesAgree(st: Store, st': Store, c: Cluster)
    requires SameGauges(st, st', c) && Consistent(st, c)
    ensures Consistent(st', c)
  {
    if !NoGauges(st, c) {
      var p: bool, q: bool :| AllGauges(st, c, p, q);
      assert AllGauges(st', c, p, q);
    }
  }

  lemma WipeIsConsistent(st: Store, c: Cluster)
    ensures Consistent(Clear(st, c), c)
  {
  }

  lemma GaugeWriters(y: Sys, a: Action)
    requires Next(y, a).Some? && GaugeWrite(Effect(y, a).1)
    ensures Effect(y, a).1 == Wipe || (a == Eval(EPut) && Evaluating(y).Some? && y.eval.k <= 3)
  {
  }

  lemma GaugesStep(s: State, a: Action, c: Cluster)
    requires Control(s.sys) && LifeOk(s.sys) && Gauges(s, c) && Do(s, a).Some?
    ensures Gauges(Do(s, a).value, c)
  {
    var y, y', e := s.sys, Next(s.sys, a).value, Effect(s.sys, a);
    if e.0 != c || !GaugeWrite(e.1) {
      OtherGaugesStep(s, a, c);
    } else {
      GaugeWriters(y, a);
      if e.1 == Wipe {
        BusyNotWiped(y, a, c);
        WipeIsConsistent(s.store, c);
        if MidWrite(y', c) { EvaluatingKept(y, a); }
      } else {
        EvalGaugesStep(s, c);
      }
    }
  }

  /** A step that does not write the gauges of `c`. */
  lemma OtherGaugesStep(s: State, a: Action, c: Cluster)
    requires Control(s.sys) && LifeOk(s.sys) && Gauges(s, c) && Do(s, a).Some?
    requires Effect(s.sys, a).0 != c || !GaugeWrite(Effect(s.sys, a).1)
    ensures Gauges(Do(s, a).value, c)
  {
    var y, y', e := s.sys, Next(s.sys, a).value, Effect(s.sys, a);
    OtherWritesKeepGauges(s.store, e.0, e.1, c);
    if MidWrite(y', c) {
      EvaluatingKept(y, a);
    } else if MidWrite(y, c) {
      if !a.Eval? {
        EvalUninterrupted(y, a);
        ProbeKept(y, a, Evaluating(y).value);
      }
    } else {
      SameGaugesAgree(s.store, Apply(s.store, e.0, e.1), c);
    }
  }

  lemma EvalGaugesStep(s: State, c: Cluster)
    requires Gauges(s, c) && Do(s, Eval(EPut)).Some?
    requires Evaluating(s.sys).Some? && s.sys.obj[Evaluating(s.sys).value].cluster == c && s.sys.eval.k <= 3
    ensures Gauges(Do(s, Eval(EPut)).value, c)
  {
    var s' := Do(s, Eval(EPut)).value;
    if s.sys.eval.k == 3 {
      assert AllGauges(s'.store, c, s.sys.eval.j.produceOk, s.sys.eval.j.consumeOk);
    }
  }

  // ---- The judgement behind a gauge ----

  /** The overall gauge is the verdict of a recorded evaluation, and that verdict is sound. */
  predicate Judged(s: State, c: Cluster) {
    (c, Overall) in s.store.status ==>
      && c in s.judged && Sound(s.judged[c], s.sys.cfg.recency)
      && s.store.status[(c, Overall)] == Flag(s.judged[c].produceOk && s.judged[c].consumeOk)
  }

  lemma JudgedStep(s: State, a: Action, c: Cluster)
    requires EvalSound(s.sys) && Judged(s, c) && Do(s, a).Some?
    ensures Judged(Do(s, a).value, c)
  {
    var e := Effect(s.sys, a);
    SameConfig(s.sys, a);
    if e.0 == c && GaugeWrite(e.1) {
      GaugeWriters(s.sys, a);
      JudgedWrite(s, a, c);
    } else {
      OtherWritesKeepGauges(s.store, e.0, e.1, c);
      RecordedElsewhere(s.sys, s.judged, a, c);
      JudgedKept(s, Do(s, a).value, c);
    }
  }

  lemma JudgedKept(s: State, s': State, c: Cluster)
    requires Judged(s, c) && SameGauges(s.store, s'.store, c) && s'.sys.cfg == s.sys.cfg
    requires c in s.judged ==> c in s'.judged && s'.judged[c] == s.judged[c]
    ensures Judged(s', c)
  {
  }

  lemma RecordedElsewhere(y: Sys, judged: map<Cluster, Judgement>, a: Action, c: Cluster)
    requires Effect(y, a).0 != c || !GaugeWrite(Effect(y, a).1)
    ensures c in judged ==> c in Recorded(y, judged, a) && Recorded(y, judged, a)[c] == judged[c]
  {
  }

  lemma JudgedWrite(s: State, a: Action, c: Cluster)
    requires EvalSound(s.sys) && Judged(s, c) && Do(s, a).Some? && Do(s, a).value.sys.cfg == s.sys.cfg
    requires Effect(s.sys, a).0 == c
    requires Effect(s.sys, a).1 == Wipe || (a == Eval(EPut) && Evaluating(s.sys).Some? && s.sys.eval.k <= 3)
    ensures Judged(Do(s, a).value, c)
  {
  }

  lemma SameConfig(y: Sys, a: Action)
    requires Next(y, a).Some?
    ensures Next(y, a).value.cfg == y.cfg
  {
    match a
    case Produce(pid, p) => ProduceMoves(y, pid, p);
    case CallbackStep(cb, _, _) => CallbackMoves(y, cb);
    case Eval(_) =>
    case _ => OtherFrames(y, a, 0);
  }
}
