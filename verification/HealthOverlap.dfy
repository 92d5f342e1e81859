/** Why consume = 0 does not mean that nothing was consumed: a run in which a status of 0 is written
    although a message handled within the window is on record. */
module HealthOverlap {
  import opened Bytes
  import opened HealthStore
  import opened HealthProber

  /** A run can be prolonged by any enabled action; what it writes follows from it. */
  lemma Extend(run: seq<State>, a: Action, y': Sys) returns (longer: seq<State>)
    requires IsRun(run) && Next(run[|run| - 1].sys, a) == Some(y')
    ensures IsRun(longer) && longer[0] == run[0] && longer[|longer| - 1].sys == y'
    ensures Do(run[|run| - 1], a) == Some(longer[|longer| - 1])
  {
    var s' := Do(run[|run| - 1], a).value;
    longer := run + [s'];
    forall i: nat ensures StepAt(longer, i) {
      assert StepAt(run, i);
      if i + 1 == |run| { assert Do(run[i], a) == Some(s'); }
    }
  }

  lemma Begin(cfg: Config, now: Time) returns (run: seq<State>)
    ensures IsRun(run) && run[0] == Init(cfg, now) && run[|run| - 1].sys == InitSys(cfg, now)
  {
    run := [Init(cfg, now)];
  }

  // ---- One probe with one consumer ----

  function Only(c: Cluster): set<Cluster> { {c} }

  /** A prober with the one probe 0, in the given condition. */
  function OneProbe(cfg: Config, c: Cluster, o: Probe, cons: map<Cid, Consumer>, m: ManagerPc): Sys {
    Sys(cfg, 0, map[c := 0], map[0 := o], cons, map[], EUnborn, m, Plan(Starting, Only(c), {}, {}), false, true)
  }

  lemma Discovered(cfg: Config, c: Cluster) returns (run: seq<State>)
    ensures IsRun(run) && run[0] == Init(cfg, 0)
    ensures run[|run| - 1].sys == OneProbe(cfg, c, NewProbe(c).(produce := PIdle), map[], MAdd(0, Try(TCheck)))
  {
    run := Begin(cfg, 0);
    var y := InitSys(cfg, 0).(mgr := MIdle, producerUp := true);
    run := Extend(run, Manage(Start(true)), y);
    var plan := Plan(Starting, Only(c), Only(c), {});
    assert y.probes.Keys - Only(c) == {};
    run := Extend(run, Manage(Reconcile(Only(c))), y.(mgr := MLoop, plan := plan));
    assert plan.adds - {c} == {};
    plan := plan.(adds := {});
    run := Extend(run, Manage(PickAdd(c)), y.(mgr := MInsert(c), plan := plan));
    run := Extend(run, Manage(Insert(0)), OneProbe(cfg, c, NewProbe(c), map[], MAdd(0, Spawn)));
    var o := NewProbe(c).(produce := PIdle);
    assert map[0 := NewProbe(c)][0 := o] == map[0 := o];
    run := Extend(run, Manage(MStep), OneProbe(cfg, c, o, map[], MAdd(0, Try(TCheck))));
  }

  function Live(): map<Cid, Consumer> { map[0 := Consumer(0, ConsumerPhase.Live)] }

  function Consuming(c: Cluster): Probe {
    NewProbe(c).(produce := PIdle, consumer := Some(0), started := true)
  }

  lemma ConsumerBuilt(cfg: Config, c: Cluster) returns (run: seq<State>)
    requires cfg.hasFactory
    ensures IsRun(run) && run[0] == Init(cfg, 0)
    ensures run[|run| - 1].sys ==
      OneProbe(cfg, c, NewProbe(c).(produce := PIdle), map[0 := Consumer(0, Built)], MAdd(0, Try(TSubscribe(0))))
  {
    run := Discovered(cfg, c);
    var o := NewProbe(c).(produce := PIdle);
    assert map[0 := o][0 := o] == map[0 := o];
    run := Extend(run, Manage(MTryAct(TryStep)), OneProbe(cfg, c, o, map[], MAdd(0, Try(TBuild))));
    var built := map[0 := Consumer(0, Built)];
    run := Extend(run, Manage(MTryAct(TryBuilds(0))), OneProbe(cfg, c, o, built, MAdd(0, Try(TSubscribe(0)))));
  }

  lemma ConsumerStarted(cfg: Config, c: Cluster) returns (run: seq<State>)
    requires cfg.hasFactory
    ensures IsRun(run) && run[0] == Init(cfg, 0)
    ensures run[|run| - 1].sys == OneProbe(cfg, c, Consuming(c), Live(), MAdd(0, Go))
  {
    run := ConsumerBuilt(cfg, c);
    var o := NewProbe(c).(produce := PIdle);
    assert map[0 := o][0 := o] == map[0 := o];
    assert map[0 := Consumer(0, Built)][0 := Consumer(0, ConsumerPhase.Live)] == Live();
    run := Extend(run, Manage(MTryAct(TryStep)), OneProbe(cfg, c, o, Live(), MAdd(0, Try(TStarting(0)))));
    run := Extend(run, Manage(MTryAct(TryStep)), OneProbe(cfg, c, o, Live(), MAdd(0, Try(TPublish(0)))));
    assert map[0 := o][0 := Consuming(c)] == map[0 := Consuming(c)];
    run := Extend(run, Manage(MTryAct(TryStep)), OneProbe(cfg, c, Consuming(c), Live(), MAdd(0, Go)));
  }

  /** Up and running: the probe has handled `handled`, and callbacks `cbs` are under way. */
  function Up(cfg: Config, c: Cluster, clock: Time, handled: seq<Time>, cbs: map<Cbid, Callback>, e: EvalPc): Sys {
    Sys(cfg, clock, map[c := 0],
        map[0 := Consuming(c).(retry := RCheck, lastConsume := Last(handled), handled := handled)], Live(), cbs,
        e, MIdle, Plan(Refreshing, Only(c), {}, {}), false, true)
  }

  lemma Running(cfg: Config, c: Cluster) returns (run: seq<State>)
    requires cfg.hasFactory
    ensures IsRun(run) && run[0] == Init(cfg, 0) && run[|run| - 1].sys == Up(cfg, c, 0, [], map[], EIdle)
  {
    run := ConsumerStarted(cfg, c);
    var o := Consuming(c).(retry := RCheck);
    assert map[0 := Consuming(c)][0 := o] == map[0 := o];
    run := Extend(run, Manage(MStep), OneProbe(cfg, c, o, Live(), MLoop));
    run := Extend(run, Manage(Finish), OneProbe(cfg, c, o, Live(), MIdle));
    run := Extend(run, Manage(GoRunning), Up(cfg, c, 0, [], map[], EIdle));
  }

  // ---- Two callbacks that overlap ----

  /** Callback `cb` starts and counts its one message; only its last statement is left. */
  lemma Handles(run: seq<State>, cfg: Config, c: Cluster, clock: Time, cbs: map<Cbid, Callback>, cb: Cbid)
    returns (longer: seq<State>)
    requires IsRun(run) && run[|run| - 1].sys == Up(cfg, c, clock, [], cbs, EIdle) && cb !in cbs
    ensures IsRun(longer) && longer[0] == run[0]
    ensures longer[|longer| - 1].sys == Up(cfg, c, clock, [], cbs[cb := Callback(0, clock, CNext(0))], EIdle)
  {
    longer := Extend(run, CallbackStart(cb, 0, 1), Up(cfg, c, clock, [], cbs[cb := Callback(0, clock, CNext(1))], EIdle));
    longer := OneMore(longer, cfg, c, clock, cbs, cb, CNext(1));
    longer := OneMore(longer, cfg, c, clock, cbs, cb, CCounted(1));
    longer := OneMore(longer, cfg, c, clock, cbs, cb, CTimed(1));
  }

  lemma OneMore(run: seq<State>, cfg: Config, c: Cluster, clock: Time, cbs: map<Cbid, Callback>, cb: Cbid, pc: CallbackPc)
    returns (longer: seq<State>)
    requires IsRun(run) && pc != CNext(0)
    requires run[|run| - 1].sys == Up(cfg, c, clock, [], cbs[cb := Callback(0, clock, pc)], EIdle)
    ensures IsRun(longer) && longer[0] == run[0]
    ensures longer[|longer| - 1].sys == Up(cfg, c, clock, [], cbs[cb := Callback(0, clock, CallbackNext(pc))], EIdle)
  {
    var k := Callback(0, clock, pc);
    assert cbs[cb := k][cb := k.(pc := CallbackNext(pc))] == cbs[cb := Callback(0, clock, CallbackNext(pc))];
    longer := Extend(run, CallbackStep(cb, true, 0.0),
                     Up(cfg, c, clock, [], cbs[cb := Callback(0, clock, CallbackNext(pc))], EIdle));
  }

  /** The last statement of a callback stores the time at which it started. */
  lemma Ends(run: seq<State>, cfg: Config, c: Cluster, clock: Time, handled: seq<Time>, cbs: map<Cbid, Callback>,
             cb: Cbid, now: Time)
    returns (longer: seq<State>)
    requires IsRun(run) && cb in cbs && cbs[cb] == Callback(0, now, CNext(0))
    requires run[|run| - 1].sys == Up(cfg, c, clock, handled, cbs, EIdle)
    ensures IsRun(longer) && longer[0] == run[0]
    ensures longer[|longer| - 1].sys == Up(cfg, c, clock, handled + [now], cbs - {cb}, EIdle)
  {
    var y' := Up(cfg, c, clock, handled + [now], cbs - {cb}, EIdle);
    var y := run[|run| - 1].sys;
    assert y.obj[0 := y'.obj[0]] == y'.obj;
    longer := Extend(run, CallbackStep(cb, true, 0.0), y');
  }

  /** Callback 0 starts at time 0 and callback 1 one window later; 1 finishes first. */
  lemma Overlapped(cfg: Config, c: Cluster) returns (run: seq<State>)
    requires cfg.hasFactory && cfg.recency > 0
    ensures IsRun(run) && run[0] == Init(cfg, 0)
    ensures run[|run| - 1].sys == Up(cfg, c, cfg.recency, [cfg.recency, 0], map[], EIdle)
  {
    run := Running(cfg, c);
    run := Handles(run, cfg, c, 0, map[], 0);
    var t := cfg.recency;
    var older := map[0 := Callback(0, 0, CNext(0))];
    run := Extend(run, Tick(t), Up(cfg, c, t, [], older, EIdle));
    run := Handles(run, cfg, c, t, older, 1);
    var both := older[1 := Callback(0, t, CNext(0))];
    run := Ends(run, cfg, c, t, [], both, 1, t);
    assert both - {1} == older && [] + [t] == [t];
    run := Ends(run, cfg, c, t, [t], older, 0, 0);
    assert older - {0} == map[] && [t] + [0] == [t, 0];
  }

  /** For every window there is a run in which an evaluation has just written consume = 0 for a
      cluster although a message handled at that very instant is on its probe's record: two
      callbacks overlapped and the older one stored its time last. */
  lemma OverlapHidesMessage(cfg: Config, c: Cluster) returns (run: seq<State>)
    requires cfg.hasFactory && cfg.recency > 0
    ensures IsRun(run) && run[0] == Init(cfg, 0)
    ensures var st := run[|run| - 1].store.status; (c, Check.Consume) in st && st[(c, Check.Consume)] == 0
    ensures var y := run[|run| - 1].sys;
            && y.eval.EWrite? && y.eval.k == 2 && y.eval.j.pid in y.obj && y.obj[y.eval.j.pid].cluster == c
            && y.eval.j.handled == y.obj[y.eval.j.pid].handled
            && !y.eval.j.consumeOk && InWindow(y.eval.j.handled, y.eval.now, cfg.recency)
  {
    run := Overlapped(cfg, c);
    var t := cfg.recency;
    var y := run[|run| - 1].sys;
    run := Extend(run, Eval(ETick), y.(eval := EHasNow(t)));
    run := Extend(run, Eval(ELock), y.(eval := ELocked(t)));
    assert y.probes[c] == 0 && y.probes.Values == {0};
    run := Extend(run, Eval(ESnapshot([0])), y.(eval := ELoop(t, [0])));
    var j := Judge(0, y.obj[0], t, t);
    run := Extend(run, Eval(ERead), y.(eval := EWrite(t, [0], j, 0)));
    run := Extend(run, Eval(EPut), y.(eval := EWrite(t, [0], j, 1)));
    run := Extend(run, Eval(EPut), y.(eval := EWrite(t, [0], j, 2)));
    assert y.obj[0].handled[0] == t;
  }
}
