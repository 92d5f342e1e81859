/** The cluster health prober as a transition system. A step is one locked region, one call into
    the collector, or one return from a client library call; the actors are the evaluator, the
    manager (the thread that runs Start, then the refresh loop, then Shutdown), and per probe a
    produce loop, a consumer-retry loop and consumer callbacks.

    Assumptions built into the steps: the clock never goes back; a consumer's Shutdown returns
    only when none of its callbacks is running and none starts afterwards; Start, the refresh
    loop and Shutdown follow one another. */
module HealthProber {
  import opened Bytes
  import opened HealthStore

  type Time = int
  type Pid = nat
  type Cid = nat
  type Cbid = nat

  datatype Config = Config(recency: int, hasFactory: bool)

  // ---- Program counters ----

  /** produceLoop and sendOne. `PSent(now, k)`: the send worked and k of its writes are done. */
  datatype ProducePc = PUnborn | PIdle | PSending(now: Time) | PFailed(err: string) | PSent(now: Time, k: nat) | PExited

  /** tryStartConsumer. */
  datatype TryPc = TCheck | TBuild | TSubscribe(cid: Cid) | TStarting(cid: Cid) | TFailed(cid: Cid) | TPublish(cid: Cid)

  /** consumerRetryLoop. */
  datatype RetryPc = RUnborn | RCheck | RLoop | RTry(t: TryPc) | RExited

  /** handleMessage with `n` messages left; at CCounted the current one has been counted, at
      CTimed its latency has been written too. */
  datatype CallbackPc = CNext(n: nat) | CCounted(n: nat) | CTimed(n: nat)

  /** evalLoop, evalTick and evalOnce; evalMu is held from ELocked on. `todo` are the probes of the
      snapshot not yet done with. `EWrite` has made k of the writes of evalOnce for todo[0]. */
  datatype EvalPc =
    | EUnborn | EIdle | EHasNow(now: Time) | ELocked(now: Time)
    | ELoop(now: Time, todo: seq<Pid>)
    | EWrite(now: Time, todo: seq<Pid>, j: Judgement, k: nat)
    | EExited

  /** What one evaluation of a probe saw and decided. */
  datatype Judgement = Judgement(pid: Pid, now: Time, sends: seq<Time>, handled: seq<Time>, produceOk: bool, consumeOk: bool)

  /** The manager between steps of reconcileClusters, addProbe, removeProbe and Shutdown. */
  datatype ManagerPc =
    | MNew | MIdle | MExited | MLoop
    | MInsert(c: Cluster) | MAdd(pid: Pid, add: AddPc) | MRemove(pid: Pid, rem: RemovePc)
    | MStopProducer | MDone

  /** addProbe after the probe is in the map. */
  datatype AddPc = Spawn | Try(t: TryPc) | Go

  /** removeProbe after the probe has left the map; evalMu is held from ClearStore on. */
  datatype RemovePc = Cancel | WaitProduce | WaitRetry | Take | Shut(cid: Cid) | LockEval | ClearStore | Unlock

  datatype Phase = Starting | Refreshing | Stopping

  /** The reconcile in progress: what was discovered, what is left to add and to remove. */
  datatype Plan = Plan(phase: Phase, disc: set<Cluster>, adds: set<Cluster>, removes: set<Cluster>)

  // ---- State ----

  /** A clusterProbe. `sends` and `handled` record every value ever stored in the two recency
      fields. */
  datatype Probe = Probe(cluster: Cluster, lastProduce: Option<Time>, lastConsume: Option<Time>,
                         consumer: Option<Cid>, started: bool, canceled: bool,
                         produce: ProducePc, retry: RetryPc, sends: seq<Time>, handled: seq<Time>)

  /** Callbacks may run while a consumer is Live: from the call of Start to the return of Shutdown. */
  datatype ConsumerPhase = Built | Live | Down

  datatype Consumer = Consumer(pid: Pid, phase: ConsumerPhase)

  datatype Callback = Callback(cid: Cid, now: Time, pc: CallbackPc)

  /** Everything but the samples. The prober never reads a sample back, so the control state
      evolves on its own. */
  datatype Sys = Sys(
    cfg: Config, clock: Time,
    probes: map<Cluster, Pid>, obj: map<Pid, Probe>, cons: map<Cid, Consumer>, cbs: map<Cbid, Callback>,
    eval: EvalPc, mgr: ManagerPc, plan: Plan, rootCanceled: bool, producerUp: bool)

  /** `judged` records which evaluation last wrote each cluster's overall gauge. */
  datatype State = State(sys: Sys, store: Store, judged: map<Cluster, Judgement>)

  function InitSys(cfg: Config, now: Time): Sys {
    Sys(cfg, now, map[], map[], map[], map[], EUnborn, MNew, Plan(Starting, {}, {}, {}), false, false)
  }

  function Init(cfg: Config, now: Time): State { State(InitSys(cfg, now), EMPTY, map[]) }

  function NewProbe(c: Cluster): Probe {
    Probe(c, None, None, None, false, false, PUnborn, RUnborn, [], [])
  }

  // ---- Recency ----

  predicate Recent(last: Option<Time>, now: Time, recency: int) { last.Some? && now - last.value < recency }

  /** Some recorded time lies in the window that ends at `now`. */
  predicate InWindow(ts: seq<Time>, now: Time, recency: int) {
    exists i :: 0 <= i < |ts| && now - ts[i] < recency
  }

  function Last(ts: seq<Time>): Option<Time> { if ts == [] then None else Some(ts[|ts| - 1]) }

  function Flag(b: bool): int { if b then 1 else 0 }

  const NO_CONSUME_ERROR := "no message consumed within recency"

  // ---- Actions ----

  datatype Action =
    | Tick(t: Time)
    | Produce(pid: Pid, p: ProduceAct)
    | Retry(pid: Pid, r: RetryAct)
    | CallbackStart(cb: Cbid, cid: Cid, n: nat)
    | CallbackStep(cb: Cbid, parsed: bool, v: real)
    | Eval(e: EvalAct)
    | Manage(m: ManageAct)

  datatype ProduceAct = PTick | PStop | PFail(err: string) | PWrite(v: real)

  datatype TryAct = TryStep | TryFails | TryBuilds(cid: Cid)

  datatype RetryAct = RStep | RStop | RTryAct(a: TryAct)

  datatype EvalAct = ETick | ELock | ESnapshot(order: seq<Pid>) | ERead | EPut | EUnlock | EStop

  datatype ManageAct =
    | Start(ok: bool) | GoRunning | Reconcile(disc: set<Cluster>) | RefreshStop | RootCancel | Shutdown
    | PickAdd(c: Cluster) | Insert(pid: Pid) | MTryAct(a: TryAct) | PickRemove(c: Cluster) | MStep | Finish

  function Do(s: State, a: Action): Option<State> {
    var y := Next(s.sys, a);
    var e := Effect(s.sys, a);
    if y.None? then None else Some(State(y.value, Apply(s.store, e.0, e.1), Recorded(s.sys, s.judged, a)))
  }

  /** The control state after an action; None when the action is not enabled. */
  function Next(y: Sys, a: Action): Option<Sys> {
    match a
    case Tick(t) => if t >= y.clock then Some(y.(clock := t)) else None
    case Produce(pid, p) => if pid in y.obj then DoProduce(y, pid, p) else None
    case Retry(pid, r) => if pid in y.obj then DoRetry(y, pid, r) else None
    case CallbackStart(cb, cid, n) =>
      if cb !in y.cbs && cid in y.cons && y.cons[cid].phase == Live
      then Some(y.(cbs := y.cbs[cb := Callback(cid, y.clock, CNext(n))])) else None
    case CallbackStep(cb, _, _) => if cb in y.cbs then DoCallback(y, cb) else None
    case Eval(e) => if EvalNext(y, e).Some? then Some(y.(eval := EvalNext(y, e).value)) else None
    case Manage(m) => DoManage(y, m)
  }

  /** A call into the collector. */
  datatype Write =
    | Nothing
    | CountProduce(o: Outcome) | CountConsume
    | Status(k: Check, v: int) | Latency(k: Check, secs: real) | LastSuccess(k: Check, v: int) | LastError(k: Check, err: string)
    | Wipe

  function Apply(st: Store, c: Cluster, w: Write): Store {
    match w
    case Nothing => st
    case CountProduce(o) => AddProduce(st, c, o)
    case CountConsume => AddConsume(st, c)
    case Status(k, v) => SetStatus(st, c, k, v)
    case Latency(k, secs) => SetLatency(st, c, k, secs)
    case LastSuccess(k, v) => SetLastSuccess(st, c, k, v)
    case LastError(k, err) => SetLastError(st, c, k, err)
    case Wipe => Clear(st, c)
  }

  /** The call an action makes, and the cluster it makes it for. */
  function Effect(y: Sys, a: Action): (Cluster, Write) {
    match a
    case Produce(pid, p) => if pid in y.obj then (y.obj[pid].cluster, ProduceWrite(y.obj[pid].produce, p)) else ("", Nothing)
    case CallbackStep(cb, parsed, v) =>
      if cb in y.cbs && y.cbs[cb].cid in y.cons && y.cons[y.cbs[cb].cid].pid in y.obj
      then (y.obj[y.cons[y.cbs[cb].cid].pid].cluster, CallbackWrite(y.cbs[cb], parsed, v)) else ("", Nothing)
    case Eval(EPut) =>
      if Evaluating(y).Some? then (y.obj[Evaluating(y).value].cluster, EvalWrite(y.eval)) else ("", Nothing)
    case Manage(MStep) =>
      if y.mgr.MRemove? && y.mgr.rem.ClearStore? && y.mgr.pid in y.obj then (y.obj[y.mgr.pid].cluster, Wipe) else ("", Nothing)
    case _ => ("", Nothing)
  }

  /** The probe that evalOnce is writing for. */
  function Evaluating(y: Sys): (r: Option<Pid>)
    ensures r.Some? ==> y.eval.EWrite? && r.value in y.obj
  {
    if y.eval.EWrite? && y.eval.todo != [] && y.eval.todo[0] in y.obj then Some(y.eval.todo[0]) else None
  }

  function Recorded(y: Sys, judged: map<Cluster, Judgement>, a: Action): map<Cluster, Judgement> {
    if a == Eval(EPut) && Evaluating(y).Some? && y.eval.k == 2
    then judged[y.obj[Evaluating(y).value].cluster := y.eval.j] else judged
  }

  function WithProbe(y: Sys, pid: Pid, o: Probe): Sys { y.(obj := y.obj[pid := o]) }

  // ---- Produce loop ----

  function DoProduce(y: Sys, pid: Pid, a: ProduceAct): Option<Sys>
    requires pid in y.obj
  {
    var o := ProduceNext(y.obj[pid], y.clock, y.rootCanceled, a);
    if o.None? then None else Some(WithProbe(y, pid, o.value))
  }

  function ProduceNext(o: Probe, clock: Time, rootCanceled: bool, a: ProduceAct): Option<Probe> {
    match o.produce
    case PIdle =>
      if a.PTick? then Some(o.(produce := PSending(clock)))
      else if a.PStop? && (o.canceled || rootCanceled) then Some(o.(produce := PExited))
      else None
    case PSending(now) =>
      if a.PFail? then Some(o.(produce := PFailed(a.err)))
      else if a.PWrite? then Some(o.(produce := PSent(now, 1)))
      else None
    case PFailed(_) => if a.PWrite? then Some(o.(produce := PIdle)) else None
    case PSent(now, k) =>
      if !a.PWrite? then None
      else if k < 4 then Some(o.(produce := PSent(now, k + 1)))
      else Some(o.(produce := PIdle, lastProduce := Some(now), sends := o.sends + [now]))
    case _ => None
  }

  /** The writes of sendOne, in order. */
  function ProduceWrite(p: ProducePc, a: ProduceAct): Write {
    match p
    case PSending(_) => if a.PFail? then CountProduce(Failure) else if a.PWrite? then CountProduce(Success) else Nothing
    case PFailed(err) => if a.PWrite? then LastError(Check.Produce, err) else Nothing
    case PSent(now, k) =>
      if !a.PWrite? then Nothing
      else if k == 1 then Latency(Check.Produce, a.v)
      else if k == 2 then LastSuccess(Check.Produce, now)
      else if k == 3 then LastError(Check.Produce, "")
      else Nothing
    case _ => Nothing
  }

  // ---- Starting a consumer ----

  /** What the caller of tryStartConsumer does next: go on inside it, or return to the caller. */
  datatype TryNext = More(t: TryPc) | Over(ok: bool)

  predicate CallbackRuns(y: Sys, cid: Cid) { exists cb :: cb in y.cbs && y.cbs[cb].cid == cid }

  /** The control flow of tryStartConsumer. */
  function TryFlow(y: Sys, started: bool, t: TryPc, a: TryAct): Option<TryNext> {
    match t
    case TCheck =>
      if !a.TryStep? then None else if started || !y.cfg.hasFactory then Some(Over(true)) else Some(More(TBuild))
    case TBuild =>
      if a.TryFails? then Some(Over(false))
      else if a.TryBuilds? && a.cid !in y.cons then Some(More(TSubscribe(a.cid)))
      else None
    case TSubscribe(cid) =>
      if a.TryFails? then Some(More(TFailed(cid))) else if a.TryStep? then Some(More(TStarting(cid))) else None
    case TStarting(cid) =>
      if a.TryFails? then Some(More(TFailed(cid))) else if a.TryStep? then Some(More(TPublish(cid))) else None
    case TFailed(cid) => if a.TryStep? && !CallbackRuns(y, cid) then Some(Over(false)) else None
    case TPublish(cid) => if a.TryStep? then Some(Over(true)) else None
  }

  /** What tryStartConsumer does to the consumers and to its probe. */
  function TryConsumers(cons: map<Cid, Consumer>, pid: Pid, t: TryPc, a: TryAct): map<Cid, Consumer> {
    if t.TBuild? && a.TryBuilds? then cons[a.cid := Consumer(pid, Built)]
    else if t.TSubscribe? && a.TryStep? then cons[t.cid := Consumer(pid, Live)]
    else if t.TFailed? then cons[t.cid := Consumer(pid, Down)]
    else cons
  }

  function TryProbe(o: Probe, t: TryPc): Probe {
    if t.TPublish? then o.(consumer := Some(t.cid), started := true) else o
  }

  // ---- Consumer-retry loop ----

  function DoRetry(y: Sys, pid: Pid, a: RetryAct): Option<Sys>
    requires pid in y.obj
  {
    var o := y.obj[pid];
    match o.retry
    case RCheck =>
      if a.RStep? then Some(WithProbe(y, pid, o.(retry := if o.started then RExited else RLoop))) else None
    case RLoop =>
      if a.RStep? then Some(WithProbe(y, pid, o.(retry := RTry(TCheck))))
      else if a.RStop? && (o.canceled || y.rootCanceled) then Some(WithProbe(y, pid, o.(retry := RExited)))
      else None
    case RTry(t) =>
      if !a.RTryAct? || TryFlow(y, o.started, t, a.a).None? then None
      else
        var next := TryFlow(y, o.started, t, a.a).value;
        var retry' := if next.More? then RTry(next.t) else if next.ok then RExited else RLoop;
        Some(WithProbe(y, pid, TryProbe(o, t).(retry := retry')).(cons := TryConsumers(y.cons, pid, t, a.a)))
    case _ => None
  }

  // ---- Consumer callbacks ----

  function DoCallback(y: Sys, cb: Cbid): Option<Sys>
    requires cb in y.cbs
  {
    var k := y.cbs[cb];
    if k.cid !in y.cons || y.cons[k.cid].pid !in y.obj then None
    else if k.pc == CNext(0) then
      var pid := y.cons[k.cid].pid;
      var o := y.obj[pid];
      Some(WithProbe(y, pid, o.(lastConsume := Some(k.now), handled := o.handled + [k.now])).(cbs := y.cbs - {cb}))
    else Some(y.(cbs := y.cbs[cb := k.(pc := CallbackNext(k.pc))]))
  }

  function CallbackNext(pc: CallbackPc): CallbackPc {
    match pc
    case CNext(n) => CCounted(n)
    case CCounted(n) => CTimed(n)
    case CTimed(n) => CNext(if n > 0 then n - 1 else 0)
  }

  /** The writes of handleMessage for one message, in order. */
  function CallbackWrite(k: Callback, parsed: bool, v: real): Write {
    match k.pc
    case CNext(n) => if n > 0 then CountConsume else Nothing
    case CCounted(_) => if parsed then Latency(Check.Consume, v) else Nothing
    case CTimed(_) => LastSuccess(Check.Consume, k.now)
  }

  // ---- Evaluator ----

  predicate EvalHolds(e: EvalPc) { e.ELocked? || e.ELoop? || e.EWrite? }

  predicate ManagerHolds(m: ManagerPc) { m.MRemove? && (m.rem.ClearStore? || m.rem.Unlock?) }

  /** `order` lists the probes of the map once each. */
  predicate IsSnapshot(order: seq<Pid>, probes: map<Cluster, Pid>) {
    && NoRepeats(order)
    && (forall p :: p in order ==> p in probes.Values) && (forall p :: p in probes.Values ==> p in order)
  }

  function Judge(pid: Pid, o: Probe, now: Time, recency: int): Judgement {
    Judgement(pid, now, o.sends, o.handled, Recent(o.lastProduce, now, recency), Recent(o.lastConsume, now, recency))
  }

  function EvalNext(y: Sys, a: EvalAct): Option<EvalPc> {
    match y.eval
    case EIdle =>
      if a.ETick? then Some(EHasNow(y.clock)) else if a.EStop? && y.rootCanceled then Some(EExited) else None
    case EHasNow(now) => if a.ELock? && !ManagerHolds(y.mgr) then Some(ELocked(now)) else None
    case ELocked(now) =>
      if a.ESnapshot? && IsSnapshot(a.order, y.probes) then Some(ELoop(now, a.order)) else None
    case ELoop(now, todo) =>
      if todo == [] then (if a.EUnlock? then Some(EIdle) else None)
      else if a.ERead? && todo[0] in y.obj then Some(EWrite(now, todo, Judge(todo[0], y.obj[todo[0]], now, y.cfg.recency), 0))
      else None
    case EWrite(now, todo, j, k) =>
      if !a.EPut? || todo == [] || todo[0] !in y.obj then None
      else if k < 6 then Some(EWrite(now, todo, j, k + 1))
      else Some(ELoop(now, todo[1..]))
    case _ => None
  }

  /** The writes of evalOnce, in order. */
  function EvalWrite(e: EvalPc): Write
    requires e.EWrite?
  {
    var j := e.j;
    if e.k == 0 then Status(Check.Produce, Flag(j.produceOk))
    else if e.k == 1 then Status(Check.Consume, Flag(j.consumeOk))
    else if e.k == 2 then Status(Overall, Flag(j.produceOk && j.consumeOk))
    else if e.k == 3 then LastError(Check.Consume, if j.consumeOk then "" else NO_CONSUME_ERROR)
    else if e.k == 4 then (if j.produceOk then Nothing else Latency(Check.Produce, 0.0))
    else if e.k == 5 then (if j.consumeOk then Nothing else Latency(Check.Consume, 0.0))
    else if j.produceOk && j.consumeOk then LastSuccess(Overall, e.now)
    else Nothing
  }

  // ---- Manager ----

  function DoManage(y: Sys, a: ManageAct): Option<Sys> {
    if a.RootCancel? then (if y.mgr.MNew? then None else Some(y.(rootCanceled := true)))
    else
      match y.mgr
      case MAdd(pid, _) => DoAdd(y, pid, a)
      case MRemove(pid, _) => DoRemove(y, pid, a)
      case MLoop => DoLoop(y, a)
      case MInsert(c) =>
        if a.Insert? && a.pid !in y.obj then
          Some(WithProbe(y, a.pid, NewProbe(c)).(probes := y.probes[c := a.pid], mgr := MAdd(a.pid, Spawn)))
        else None
      case MStopProducer => if a.MStep? then Some(y.(producerUp := false, mgr := MDone)) else None
      case _ => DoLifecycle(y, a)
  }

  function DoLifecycle(y: Sys, a: ManageAct): Option<Sys> {
    match a
    case Start(ok) =>
      if !y.mgr.MNew? then None
      else if ok then Some(y.(mgr := MIdle, producerUp := true))
      else Some(y.(mgr := MExited, eval := EExited))
    case GoRunning =>
      if y.mgr.MIdle? && y.plan.phase == Starting
      then Some(y.(plan := y.plan.(phase := Refreshing), eval := EIdle)) else None
    case Reconcile(disc) =>
      if !y.mgr.MIdle? then None
      else if disc == {} then Some(y)
      else Some(y.(mgr := MLoop, plan := Plan(y.plan.phase, disc, disc, y.probes.Keys - disc)))
    case RefreshStop =>
      if y.mgr.MIdle? && y.plan.phase == Refreshing && y.rootCanceled then Some(y.(mgr := MExited)) else None
    case Shutdown =>
      if y.mgr.MExited? && y.eval.EExited?
      then Some(y.(mgr := MLoop, plan := Plan(Stopping, {}, {}, y.probes.Keys))) else None
    case _ => None
  }

  /** The two loops of reconcileClusters and the one of Shutdown. */
  function DoLoop(y: Sys, a: ManageAct): Option<Sys> {
    var plan := y.plan;
    if a.PickAdd? && a.c in plan.adds then
      Some(y.(plan := plan.(adds := plan.adds - {a.c}), mgr := if a.c in y.probes then MLoop else MInsert(a.c)))
    else if a.PickRemove? && plan.adds == {} && a.c in plan.removes then
      var plan' := plan.(removes := plan.removes - {a.c});
      if a.c in y.probes
      then Some(y.(plan := plan', probes := y.probes - {a.c}, mgr := MRemove(y.probes[a.c], Cancel)))
      else Some(y.(plan := plan'))
    else if a.Finish? && plan.adds == {} && plan.removes == {} then
      Some(y.(mgr := if plan.phase == Stopping then MStopProducer else MIdle))
    else None
  }

  function DoAdd(y: Sys, pid: Pid, a: ManageAct): Option<Sys>
    requires y.mgr.MAdd?
  {
    if pid !in y.obj then None
    else
      var o := y.obj[pid];
      match y.mgr.add
      case Spawn =>
        if a.MStep? then Some(WithProbe(y, pid, o.(produce := PIdle)).(mgr := MAdd(pid, Try(TCheck)))) else None
      case Try(t) =>
        if !a.MTryAct? || TryFlow(y, o.started, t, a.a).None? then None
        else
          var next := TryFlow(y, o.started, t, a.a).value;
          Some(WithProbe(y, pid, TryProbe(o, t)).(cons := TryConsumers(y.cons, pid, t, a.a),
                                                  mgr := MAdd(pid, if next.More? then Try(next.t) else Go)))
      case Go => if a.MStep? then Some(WithProbe(y, pid, o.(retry := RCheck)).(mgr := MLoop)) else None
  }

  function DoRemove(y: Sys, pid: Pid, a: ManageAct): Option<Sys>
    requires y.mgr.MRemove?
  {
    if !a.MStep? || pid !in y.obj then None
    else
      var o := y.obj[pid];
      match y.mgr.rem
      case Cancel => Some(WithProbe(y, pid, o.(canceled := true)).(mgr := MRemove(pid, WaitProduce)))
      case WaitProduce => if o.produce.PExited? then Some(y.(mgr := MRemove(pid, WaitRetry))) else None
      case WaitRetry => if o.retry.RExited? then Some(y.(mgr := MRemove(pid, Take))) else None
      case Take => Some(y.(mgr := MRemove(pid, if o.consumer.Some? then Shut(o.consumer.value) else LockEval)))
      case Shut(cid) =>
        if cid in y.cons && !CallbackRuns(y, cid)
        then Some(y.(cons := y.cons[cid := y.cons[cid].(phase := Down)], mgr := MRemove(pid, LockEval))) else None
      case LockEval => if !EvalHolds(y.eval) then Some(y.(mgr := MRemove(pid, ClearStore))) else None
      case ClearStore => Some(y.(mgr := MRemove(pid, Unlock)))
      case Unlock => Some(y.(mgr := MLoop))
  }

  // ---- Runs ----

  ghost predicate Step(s: State, s': State) { exists a: Action :: Do(s, a) == Some(s') }

  ghost predicate IsRun(run: seq<State>) {
    && run != []
    && (exists cfg: Config, now: Time :: run[0] == Init(cfg, now))
    && forall i: nat :: StepAt(run, i)
  }

  ghost predicate StepAt(run: seq<State>, i: nat) { i + 1 < |run| ==> Step(run[i], run[i + 1]) }
}
