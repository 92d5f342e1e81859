/** Every interleaving of submitters, workers, Start and Shutdown. A step is one region under the
    pool's mutex, or the end of a task. Tasks are named by the order in which they were accepted. */
module WorkerRuns {
  import opened Bytes
  import opened WorkerPool

  type Task = nat

  /** Ready: about to lock the mutex, freshly spawned, woken, or back from a task. Waiting: inside
      `cond.Wait`. */
  datatype Worker = Ready | Waiting | Running(t: Task) | Exited

  /** `started`, `dropped` and `finished` record what happened to the accepted tasks, in order. */
  datatype State = State(cap: nat, workers: seq<Worker>, toSpawn: nat, stopped: bool, buf: seq<Task>,
                         accepted: nat, started: seq<Task>, dropped: seq<Task>, finished: seq<Task>)

  function Init(workers: int, queue: int): State {
    State(if queue < 1 then 1 else queue, [], if workers < 1 then 1 else workers, false, [], 0, [], [], [])
  }

  datatype Action = Spawn | Submit(wake: nat) | Lock(w: nat) | Finish(w: nat) | Stop

  /** `cond.Signal` with nobody waiting does nothing; otherwise it wakes some waiting worker. */
  predicate CanWake(ws: seq<Worker>, w: nat) {
    if exists i :: 0 <= i < |ws| && ws[i].Waiting? then w < |ws| && ws[w].Waiting? else w == |ws|
  }

  function Woken(ws: seq<Worker>): (r: seq<Worker>)
    ensures |r| == |ws| && forall i :: 0 <= i < |ws| ==> r[i] == if ws[i].Waiting? then Ready else ws[i]
  {
    seq(|ws|, i requires 0 <= i < |ws| => if ws[i].Waiting? then Ready else ws[i])
  }

  function Next(s: State, a: Action): Option<State> {
    match a
    case Spawn =>
      if s.toSpawn > 0 then Some(s.(workers := s.workers + [Ready], toSpawn := s.toSpawn - 1)) else None
    case Submit(w) =>
      if s.stopped then Some(s)
      else if CanWake(s.workers, w) then Some(DoSubmit(s, w))
      else None
    case Lock(w) => if w < |s.workers| && s.workers[w].Ready? then Some(DoLock(s, w)) else None
    case Finish(w) =>
      if w < |s.workers| && s.workers[w].Running? then
        Some(s.(workers := s.workers[w := Ready], finished := s.finished + [s.workers[w].t]))
      else None
    case Stop => Some(s.(stopped := true, workers := Woken(s.workers)))
  }

  function DoSubmit(s: State, w: nat): State {
    s.(buf := DiscardOldest(s.buf, s.accepted, s.cap),
       dropped := if |s.buf| >= s.cap && s.buf != [] then s.dropped + [s.buf[0]] else s.dropped,
       accepted := s.accepted + 1,
       workers := if w < |s.workers| then s.workers[w := Ready] else s.workers)
  }

  /** The locked part of the worker loop. */
  function DoLock(s: State, w: nat): State
    requires w < |s.workers|
  {
    if s.buf == [] then s.(workers := s.workers[w := if s.stopped then Exited else Waiting])
    else s.(workers := s.workers[w := Running(s.buf[0])], buf := s.buf[1..], started := s.started + [s.buf[0]])
  }

  // ---- Counting ----

  function CountWaiting(ws: seq<Worker>): nat {
    if ws == [] then 0 else (if ws[0].Waiting? then 1 else 0) + CountWaiting(ws[1..])
  }

  /** The number of workers that are running `t`. */
  function InFlight(ws: seq<Worker>, t: Task): nat {
    if ws == [] then 0 else (if ws[0] == Running(t) then 1 else 0) + InFlight(ws[1..], t)
  }

  lemma {:induction false} CountUpdate(ws: seq<Worker>, w: nat, x: Worker)
    requires w < |ws|
    ensures CountWaiting(ws[w := x]) + (if ws[w].Waiting? then 1 else 0) == CountWaiting(ws) + (if x.Waiting? then 1 else 0)
  {
    if w == 0 {
      assert ws[w := x][1..] == ws[1..];
    } else {
      assert ws[w := x][1..] == ws[1..][w - 1 := x];
      CountUpdate(ws[1..], w - 1, x);
    }
  }

  lemma {:induction false} InFlightUpdate(ws: seq<Worker>, w: nat, x: Worker, t: Task)
    requires w < |ws|
    ensures InFlight(ws[w := x], t) + (if ws[w] == Running(t) then 1 else 0) == InFlight(ws, t) + (if x == Running(t) then 1 else 0)
  {
    if w == 0 {
      assert ws[w := x][1..] == ws[1..];
    } else {
      assert ws[w := x][1..] == ws[1..][w - 1 := x];
      InFlightUpdate(ws[1..], w - 1, x, t);
    }
  }

  lemma {:induction false} AppendReady(ws: seq<Worker>, t: Task)
    ensures CountWaiting(ws + [Ready]) == CountWaiting(ws) && InFlight(ws + [Ready], t) == InFlight(ws, t)
  {
    if ws == [] {
      assert (ws + [Ready])[1..] == [];
    } else {
      assert (ws + [Ready])[1..] == ws[1..] + [Ready];
      AppendReady(ws[1..], t);
    }
  }

  lemma {:induction false} CountNone(ws: seq<Worker>)
    ensures CountWaiting(ws) <= |ws|
    ensures CountWaiting(ws) == 0 <==> forall i :: 0 <= i < |ws| ==> !ws[i].Waiting?
  {
    if ws != [] {
      CountNone(ws[1..]);
      assert forall i :: 0 < i < |ws| ==> ws[i] == ws[1..][i - 1];
    }
  }

  lemma {:induction false} WokenCounts(ws: seq<Worker>, t: Task)
    ensures CountWaiting(Woken(ws)) == 0 && InFlight(Woken(ws), t) == InFlight(ws, t)
  {
    if ws != [] {
      assert Woken(ws)[1..] == Woken(ws[1..]);
      WokenCounts(ws[1..], t);
    }
  }

  // ---- Invariants ----

  predicate Increasing(ts: seq<Task>) { forall i, j :: 0 <= i < j < |ts| ==> ts[i] < ts[j] }

  /** The buffer is the last |buf| accepted tasks, in order. */
  predicate IsSuffix(s: State) {
    && |s.buf| <= s.cap && |s.buf| <= s.accepted && 1 <= s.cap
    && forall i :: 0 <= i < |s.buf| ==> s.buf[i] == s.accepted - |s.buf| + i
  }

  /** Every task ahead of the buffer was started or dropped, not both, in submission order. */
  predicate Partitions(s: State) {
    var lo := s.accepted - |s.buf|;
    && Increasing(s.started) && Increasing(s.dropped)
    && (forall t :: t in s.started ==> t < lo && t !in s.dropped)
    && (forall t :: t in s.dropped ==> t < lo)
    && (forall t :: 0 <= t < lo ==> t in s.started || t in s.dropped)
  }

  /** Each started task is running on one worker or has finished once. */
  predicate Accounted(s: State, t: Task) { multiset(s.started)[t] == multiset(s.finished)[t] + InFlight(s.workers, t) }

  function Min(a: int, b: int): int { if a < b then a else b }

  /** No lost wakeup: enough workers are awake for the queued tasks. */
  predicate Awake(s: State) {
    && (s.stopped ==> CountWaiting(s.workers) == 0)
    && |s.workers| - CountWaiting(s.workers) >= Min(|s.buf|, |s.workers|)
  }

  /** A worker leaves only when the pool is stopped and drained; without workers nothing leaves
      the buffer for good. */
  predicate Leaving(s: State) {
    && (forall i :: 0 <= i < |s.workers| && s.workers[i].Exited? ==> s.stopped && s.buf == [])
    && (s.workers == [] && s.accepted > 0 ==> s.buf != [])
  }

  ghost predicate Inv(s: State) {
    IsSuffix(s) && Partitions(s) && Awake(s) && Leaving(s) && forall t: Task :: Accounted(s, t)
  }

  lemma AppendIncreasing(ts: seq<Task>, x: Task)
    requires Increasing(ts) && forall t :: t in ts ==> t < x
    ensures Increasing(ts + [x]) && forall t :: t in ts + [x] <==> t in ts || t == x
  {
    assert forall i :: 0 <= i < |ts| ==> ts[i] in ts;
  }

  lemma SubmitInv(s: State, w: nat)
    requires Inv(s) && !s.stopped && CanWake(s.workers, w)
    ensures Inv(DoSubmit(s, w))
  {
    SubmitQueue(s, w);
    SubmitWakes(s, w);
    forall t: Task ensures Accounted(DoSubmit(s, w), t) {
      assert Accounted(s, t);
      if w < |s.workers| { InFlightUpdate(s.workers, w, Ready, t); }
    }
  }

  lemma SubmitQueue(s: State, w: nat)
    requires IsSuffix(s) && Partitions(s)
    ensures IsSuffix(DoSubmit(s, w)) && Partitions(DoSubmit(s, w))
  {
    if |s.buf| >= s.cap { AppendIncreasing(s.dropped, s.buf[0]); }
  }

  /** One more task is queued and, if anybody was waiting, one more worker is awake. */
  lemma SubmitWakes(s: State, w: nat)
    requires Awake(s) && Leaving(s) && !s.stopped && CanWake(s.workers, w)
    ensures Awake(DoSubmit(s, w)) && Leaving(DoSubmit(s, w))
  {
    CountNone(s.workers);
    if w < |s.workers| { CountUpdate(s.workers, w, Ready); }
  }

  lemma LockInv(s: State, w: nat)
    requires Inv(s) && w < |s.workers| && s.workers[w].Ready?
    ensures Inv(DoLock(s, w))
  {
    LockQueue(s, w);
    LockWorkers(s, w);
    forall t: Task ensures Accounted(DoLock(s, w), t) {
      assert Accounted(s, t);
      LockAccounted(s, w, t);
    }
  }

  lemma LockAccounted(s: State, w: nat, t: Task)
    requires Accounted(s, t) && w < |s.workers| && s.workers[w].Ready?
    ensures Accounted(DoLock(s, w), t)
  {
    InFlightUpdate(s.workers, w, DoLock(s, w).workers[w], t);
  }

  lemma LockQueue(s: State, w: nat)
    requires IsSuffix(s) && Partitions(s) && w < |s.workers|
    ensures IsSuffix(DoLock(s, w)) && Partitions(DoLock(s, w))
  {
    if s.buf != [] { AppendIncreasing(s.started, s.buf[0]); }
  }

  /** A worker goes to wait only when nothing is queued. */
  lemma LockWorkers(s: State, w: nat)
    requires Awake(s) && Leaving(s) && w < |s.workers| && s.workers[w].Ready?
    ensures Awake(DoLock(s, w)) && Leaving(DoLock(s, w))
  {
    CountUpdate(s.workers, w, DoLock(s, w).workers[w]);
    CountNone(DoLock(s, w).workers);
  }

  lemma FinishInv(s: State, w: nat)
    requires Inv(s) && w < |s.workers| && s.workers[w].Running?
    ensures Inv(Next(s, Finish(w)).value)
  {
    var s' := Next(s, Finish(w)).value;
    CountUpdate(s.workers, w, Ready);
    forall t: Task ensures Accounted(s', t) {
      assert Accounted(s, t);
      InFlightUpdate(s.workers, w, Ready, t);
    }
  }

  lemma SpawnInv(s: State)
    requires Inv(s) && s.toSpawn > 0
    ensures Inv(Next(s, Spawn).value)
  {
    AppendReady(s.workers, 0);
    forall t: Task ensures Accounted(Next(s, Spawn).value, t) {
      assert Accounted(s, t);
      AppendReady(s.workers, t);
    }
  }

  lemma StopInv(s: State)
    requires Inv(s)
    ensures Inv(Next(s, Stop).value)
  {
    CountNone(s.workers);
    WokenCounts(s.workers, 0);
    forall t: Task ensures Accounted(Next(s, Stop).value, t) {
      assert Accounted(s, t);
      WokenCounts(s.workers, t);
    }
  }

  lemma StepInv(s: State, a: Action)
    requires Inv(s) && Next(s, a).Some?
    ensures Inv(Next(s, a).value)
  {
    match a
    case Spawn => SpawnInv(s);
    case Submit(w) => if !s.stopped { SubmitInv(s, w); }
    case Lock(w) => LockInv(s, w);
    case Finish(w) => FinishInv(s, w);
    case Stop => StopInv(s);
  }

  // ---- Runs ----

  ghost predicate Step(s: State, s': State) { exists a: Action :: Next(s, a) == Some(s') }

  ghost predicate StepAt(run: seq<State>, i: nat) { i + 1 < |run| ==> Step(run[i], run[i + 1]) }

  ghost predicate IsRun(run: seq<State>) {
    run != [] && (exists w: int, q: int :: run[0] == Init(w, q)) && forall i: nat :: StepAt(run, i)
  }

  lemma {:induction false} RunInv(run: seq<State>, i: nat)
    requires IsRun(run) && i < |run|
    ensures Inv(run[i])
  {
    if i > 0 {
      RunInv(run, i - 1);
      assert StepAt(run, i - 1);
      var a :| Next(run[i - 1], a) == Some(run[i]);
      StepInv(run[i - 1], a);
    }
  }

  /** The queue law: the buffer is the newest accepted tasks, at most `cap` of them; the accepted
      tasks are the disjoint union of the queued, the started and the dropped; tasks start, and are
      dropped, in submission order. */
  lemma QueueLaw(run: seq<State>, i: nat, t: Task)
    requires IsRun(run) && i < |run|
    ensures |run[i].buf| <= run[i].cap && Increasing(run[i].started) && Increasing(run[i].dropped)
    ensures forall k :: 0 <= k < |run[i].buf| ==> run[i].buf[k] == run[i].accepted - |run[i].buf| + k
    ensures t in run[i].buf <==> run[i].accepted - |run[i].buf| <= t < run[i].accepted
    ensures t < run[i].accepted <==> t in run[i].buf || t in run[i].started || t in run[i].dropped
    ensures !(t in run[i].buf && t in run[i].started) && !(t in run[i].buf && t in run[i].dropped)
            && !(t in run[i].started && t in run[i].dropped)
  {
    RunInv(run, i);
    var s := run[i];
    if s.accepted - |s.buf| <= t < s.accepted { assert s.buf[t - (s.accepted - |s.buf|)] == t; }
  }

  /** A task is dropped only when the buffer is full, it is the oldest queued one, and the task that
      is accepted in its place is queued last. */
  lemma DropOnlyWhenFull(run: seq<State>, i: nat)
    requires IsRun(run) && i + 1 < |run| && run[i + 1].dropped != run[i].dropped
    ensures |run[i].buf| == run[i].cap && run[i].buf != []
    ensures run[i + 1].dropped == run[i].dropped + [run[i].buf[0]]
    ensures run[i + 1].buf == run[i].buf[1..] + [run[i].accepted] && run[i + 1].accepted == run[i].accepted + 1
  {
    RunInv(run, i);
    assert StepAt(run, i);
    var a :| Next(run[i], a) == Some(run[i + 1]);
  }

  /** No lost wakeup, in every state of every run. */
  lemma NoLostWakeup(run: seq<State>, i: nat)
    requires IsRun(run) && i < |run|
    ensures |run[i].workers| - CountWaiting(run[i].workers) >= Min(|run[i].buf|, |run[i].workers|)
  {
    RunInv(run, i);
  }

  // ---- Draining ----

  predicate AllExited(s: State) { forall i :: 0 <= i < |s.workers| ==> s.workers[i].Exited? }

  lemma {:induction false} NoneInFlight(ws: seq<Worker>, t: Task)
    requires forall i :: 0 <= i < |ws| ==> !ws[i].Running?
    ensures InFlight(ws, t) == 0
  {
    if ws != [] { NoneInFlight(ws[1..], t); }
  }

  lemma {:induction false} OnceIfIncreasing(ts: seq<Task>, t: Task)
    requires Increasing(ts)
    ensures multiset(ts)[t] == if t in ts then 1 else 0
  {
    if ts != [] {
      var init, last := ts[..|ts| - 1], ts[|ts| - 1];
      assert ts == init + [last];
      OnceIfIncreasing(init, t);
      assert last !in init;
    }
  }

  /** When Shutdown returns, every accepted task that was not dropped has finished exactly once --
      if and only if a worker was ever started or nothing was ever submitted. */
  lemma ShutdownDrainsIff(run: seq<State>, i: nat)
    requires IsRun(run) && i < |run| && run[i].stopped && AllExited(run[i])
    ensures (run[i].buf == [] && forall t: Task :: t < run[i].accepted ==>
               multiset(run[i].finished)[t] == if t in run[i].dropped then 0 else 1)
       <==> run[i].workers != [] || run[i].accepted == 0
  {
    RunInv(run, i);
    var s := run[i];
    if s.workers != [] { assert s.workers[0].Exited?; }
    forall t: Task | t < s.accepted && s.buf == []
      ensures multiset(s.finished)[t] == if t in s.dropped then 0 else 1
    {
      OnceIfIncreasing(s.started, t);
      NoneInFlight(s.workers, t);
      assert Accounted(s, t);
    }
  }

  /** A pool that is never started keeps what was submitted when Shutdown returns. */
  lemma UnstartedPoolKeepsTask(workers: int, queue: int) returns (run: seq<State>)
    ensures IsRun(run) && run[0] == Init(workers, queue)
    ensures var s := run[|run| - 1]; s.stopped && AllExited(s) && s.buf == [0] && s.finished == [] && s.dropped == []
  {
    var s0 := Init(workers, queue);
    var s1 := DoSubmit(s0, 0);
    var s2 := s1.(stopped := true, workers := Woken(s1.workers));
    run := [s0, s1, s2];
    assert Next(s0, Submit(0)) == Some(s1) && Next(s1, Stop) == Some(s2);
    forall i: nat ensures StepAt(run, i) {}
  }

  function Rank(x: Worker): nat { match x case Ready => 1 case Waiting => 0 case Running(_) => 2 case Exited => 0 }

  function Ranks(ws: seq<Worker>): nat { if ws == [] then 0 else Rank(ws[0]) + Ranks(ws[1..]) }

  lemma {:induction false} RanksUpdate(ws: seq<Worker>, w: nat, x: Worker)
    requires w < |ws|
    ensures Ranks(ws[w := x]) + Rank(ws[w]) == Ranks(ws) + Rank(x)
  {
    if w == 0 {
      assert ws[w := x][1..] == ws[1..];
    } else {
      assert ws[w := x][1..] == ws[1..][w - 1 := x];
      RanksUpdate(ws[1..], w - 1, x);
    }
  }

  /** What is left to do before the last worker exits. */
  function Remaining(s: State): nat { 2 * |s.buf| + Ranks(s.workers) }

  /** After the stop every step of a worker brings the end nearer. */
  lemma StoppedStepsDecrease(s: State, a: Action)
    requires Inv(s) && s.stopped && Next(s, a).Some? && (a.Lock? || a.Finish?)
    ensures Remaining(Next(s, a).value) < Remaining(s)
  {
    RanksUpdate(s.workers, a.w, Next(s, a).value.workers[a.w]);
  }

  /** And until all have exited some worker can take a step: the drain cannot get stuck. */
  lemma StoppedNeverStuck(run: seq<State>, i: nat)
    requires IsRun(run) && i < |run| && run[i].stopped && !AllExited(run[i])
    ensures exists w: nat :: Next(run[i], Lock(w)).Some? || Next(run[i], Finish(w)).Some?
  {
    RunInv(run, i);
    var s := run[i];
    CountNone(s.workers);
    var w :| 0 <= w < |s.workers| && !s.workers[w].Exited?;
    assert Next(s, Lock(w)).Some? || Next(s, Finish(w)).Some?;
  }
}
