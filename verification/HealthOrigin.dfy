/** Where a verdict comes from: what an evaluation judges is on the record of the cluster's own
    probe, and stays there. */
module HealthOrigin {
  import opened HealthStore
  import opened HealthProber
  import opened HealthInvariants
  import opened HealthHistory
  import opened HealthSamples

  // ---- Histories only grow ----

  predicate Grown(y: Sys, y': Sys, q: Pid) {
    q in y.obj ==>
      && q in y'.obj && y'.obj[q].cluster == y.obj[q].cluster
      && y.obj[q].sends <= y'.obj[q].sends && y.obj[q].handled <= y'.obj[q].handled
  }

  lemma HistoryGrows(y: Sys, a: Action, q: Pid)
    requires Next(y, a).Some?
    ensures Grown(y, Next(y, a).value, q)
  {
    match a
    case Produce(pid, p) => ProduceNextMoves(y.obj[pid], y.clock, y.rootCanceled, p);
    case CallbackStep(cb, _, _) =>
    case Eval(_) =>
    case _ => OtherFrames(y, a, q);
  }

  // ---- The judgement stems from a probe ----

  /** Every time the judgement counts is on the record of its probe, a probe of `c`. */
  predicate Stems(y: Sys, j: Judgement, c: Cluster) {
    && j.pid in y.obj && y.obj[j.pid].cluster == c
    && j.sends <= y.obj[j.pid].sends && j.handled <= y.obj[j.pid].handled
  }

  /** The evaluation in progress judges the probe at the head of its list. */
  predicate EvalStems(y: Sys) {
    y.eval.EWrite? ==>
      y.eval.todo != [] && y.eval.j.pid == y.eval.todo[0] && y.eval.j.pid in y.obj && Stems(y, y.eval.j, y.obj[y.eval.j.pid].cluster)
  }

  lemma StemsKept(y: Sys, a: Action, j: Judgement, c: Cluster)
    requires Next(y, a).Some? && Stems(y, j, c)
    ensures Stems(Next(y, a).value, j, c)
  {
    HistoryGrows(y, a, j.pid);
  }

  lemma EvalStemsStep(y: Sys, a: Action)
    requires EvalStems(y) && Next(y, a).Some?
    ensures EvalStems(Next(y, a).value)
  {
    if !a.Eval? && Next(y, a).value.eval.EWrite? {
      EvalSame(y, a);
      StemsKept(y, a, y.eval.j, y.obj[y.eval.j.pid].cluster);
    }
  }

  lemma EvalSame(y: Sys, a: Action)
    requires Next(y, a).Some? && !a.Eval? && EvalHolds(Next(y, a).value.eval)
    ensures Next(y, a).value.eval == y.eval
  {
    match a
    case Produce(pid, p) => ProduceMoves(y, pid, p);
    case CallbackStep(cb, _, _) => CallbackMoves(y, cb);
    case Eval(_) =>
    case _ => OtherFrames(y, a, 0);
  }

  // ---- The verdict on display is about the probe in charge ----

  /** The overall gauge on display was judged from the record of the probe in charge. */
  predicate Rooted(s: State, c: Cluster) {
    (c, Overall) in s.store.status ==>
      c in s.judged && Stems(s.sys, s.judged[c], c) && InCharge(s.sys, s.judged[c].pid, c)
  }

  predicate WritesOverall(y: Sys, a: Action, c: Cluster) {
    a == Eval(EPut) && Evaluating(y).Some? && y.eval.k == 2 && y.obj[Evaluating(y).value].cluster == c
  }

  lemma OverallApplied(st: Store, d: Cluster, w: Write, c: Cluster)
    requires (c, Overall) in Apply(st, d, w).status && !(d == c && w.Status? && w.k == Overall)
    ensures (c, Overall) in st.status && (d, w) != (c, Wipe)
  {
  }

  lemma OverallWriter(y: Sys, a: Action, c: Cluster)
    requires Next(y, a).Some?
    ensures Effect(y, a).0 == c && Effect(y, a).1.Status? && Effect(y, a).1.k == Overall ==> WritesOverall(y, a, c)
  {
  }

  /** Only the third write of an evaluation puts up an overall gauge, and it records itself. */
  lemma OverallWritten(s: State, a: Action, c: Cluster)
    requires Do(s, a).Some? && (c, Overall) in Do(s, a).value.store.status && !WritesOverall(s.sys, a, c)
    ensures (c, Overall) in s.store.status && Effect(s.sys, a) != (c, Wipe)
    ensures c in s.judged ==> c in Do(s, a).value.judged && Do(s, a).value.judged[c] == s.judged[c]
  {
    OverallWriter(s.sys, a, c);
    OverallApplied(s.store, Effect(s.sys, a).0, Effect(s.sys, a).1, c);
  }

  lemma RootedStep(s: State, a: Action, c: Cluster)
    requires Control(s.sys) && EvalStems(s.sys) && Rooted(s, c) && Do(s, a).Some?
    ensures Rooted(Do(s, a).value, c)
  {
    var y, s' := s.sys, Do(s, a).value;
    if WritesOverall(y, a, c) {
      assert PidOk(y, y.eval.j.pid);
      StemsKept(y, a, y.eval.j, c);
    } else if (c, Overall) in s'.store.status {
      OverallWritten(s, a, c);
      StemsKept(y, a, s.judged[c], c);
      InChargeKept(y, a, s.judged[c].pid, c);
    }
  }
}
