/** The semaphore-bounded parallel loop and the two passes of CollectConsumerOffset over it. */
module FanOut {
  import opened Bytes
  import opened Sums

  const CONCURRENCY := 30

  /** A goroutine of `parallel`: inside fn before and after its locked region, past the semaphore,
      past `wg.Done`. */
  datatype Phase = Working | Committed | Released | Finished

  /** `tasks` are the goroutines launched so far, one per item; `sem` the tokens in the channel;
      `order` the items in the order in which their locked regions ran. */
  datatype State = State(n: nat, tasks: seq<Phase>, sem: nat, order: seq<nat>)

  function Init(n: nat): State { State(n, [], 0, []) }

  datatype Action = Launch | Commit(i: nat) | Release(i: nat) | Finish(i: nat)

  function Next(s: State, a: Action): Option<State> {
    match a
    case Launch =>
      if |s.tasks| < s.n && s.sem < CONCURRENCY
      then Some(s.(tasks := s.tasks + [Working], sem := s.sem + 1)) else None
    case Commit(i) =>
      if i < |s.tasks| && s.tasks[i].Working?
      then Some(s.(tasks := s.tasks[i := Committed], order := s.order + [i])) else None
    case Release(i) =>
      if i < |s.tasks| && s.tasks[i].Committed? && s.sem > 0
      then Some(s.(tasks := s.tasks[i := Released], sem := s.sem - 1)) else None
    case Finish(i) =>
      if i < |s.tasks| && s.tasks[i].Released? then Some(s.(tasks := s.tasks[i := Finished])) else None
  }

  /** The loop is done and `wg.Wait` returns. */
  predicate Returns(s: State) { |s.tasks| == s.n && forall i :: 0 <= i < s.n ==> s.tasks[i].Finished? }

  predicate Inside(p: Phase) { p.Working? || p.Committed? }

  /** How many goroutines are inside fn. */
  function InFn(ps: seq<Phase>): nat { if ps == [] then 0 else (if Inside(ps[0]) then 1 else 0) + InFn(ps[1..]) }

  lemma {:induction false} InFnUpdate(ps: seq<Phase>, i: nat, p: Phase)
    requires i < |ps|
    ensures InFn(ps[i := p]) + (if Inside(ps[i]) then 1 else 0) == InFn(ps) + (if Inside(p) then 1 else 0)
  {
    if i == 0 {
      assert ps[i := p][1..] == ps[1..];
    } else {
      assert ps[i := p][1..] == ps[1..][i - 1 := p];
      InFnUpdate(ps[1..], i - 1, p);
    }
  }

  lemma {:induction false} InFnAppend(ps: seq<Phase>)
    ensures InFn(ps + [Working]) == InFn(ps) + 1
  {
    if ps == [] {
      assert (ps + [Working])[1..] == [];
    } else {
      assert (ps + [Working])[1..] == ps[1..] + [Working];
      InFnAppend(ps[1..]);
    }
  }

  predicate Inv(s: State) {
    && |s.tasks| <= s.n && s.sem == InFn(s.tasks) && s.sem <= CONCURRENCY
    && NoRepeats(s.order)
    && Below(s.order, |s.tasks|)
    && (forall i: nat :: i < |s.tasks| ==> (s.tasks[i].Working? <==> i !in s.order))
  }

  lemma StepInv(s: State, a: Action)
    requires Inv(s) && Next(s, a).Some?
    ensures Inv(Next(s, a).value)
  {
    match a
    case Launch => InFnAppend(s.tasks);
    case Commit(i) => InFnUpdate(s.tasks, i, Committed);
    case Release(i) => InFnUpdate(s.tasks, i, Released);
    case Finish(i) => InFnUpdate(s.tasks, i, Finished);
  }

  ghost predicate Step(s: State, s': State) { exists a: Action :: Next(s, a) == Some(s') }

  ghost predicate StepAt(run: seq<State>, i: nat) { i + 1 < |run| ==> Step(run[i], run[i + 1]) }

  ghost predicate IsRun(run: seq<State>, n: nat) { run != [] && run[0] == Init(n) && forall i: nat :: StepAt(run, i) }

  lemma {:induction false} RunInv(run: seq<State>, n: nat, i: nat)
    requires IsRun(run, n) && i < |run|
    ensures Inv(run[i]) && run[i].n == n
  {
    if i > 0 {
      RunInv(run, n, i - 1);
      assert StepAt(run, i - 1);
      var a :| Next(run[i - 1], a) == Some(run[i]);
      StepInv(run[i - 1], a);
    }
  }

  /** `order` lists 0..n once each. */
  predicate IsPermutation(order: seq<nat>, n: nat) {
    NoRepeats(order) && Below(order, n) && forall i: nat :: i < n ==> i in order
  }

  predicate Below(order: seq<nat>, n: nat) { forall k :: 0 <= k < |order| ==> order[k] < n }

  /** At most 30 goroutines are ever inside fn, and when the loop returns fn has run exactly once for
      every item. */
  lemma ParallelRunsEachOnce(run: seq<State>, n: nat, i: nat)
    requires IsRun(run, n) && i < |run|
    ensures InFn(run[i].tasks) <= CONCURRENCY
    ensures Returns(run[i]) ==> IsPermutation(run[i].order, n)
  {
    RunInv(run, n, i);
  }

  /** Until it returns the loop can always go on. */
  lemma ParallelNeverStuck(run: seq<State>, n: nat, i: nat)
    requires IsRun(run, n) && i < |run| && !Returns(run[i])
    ensures exists a: Action :: Next(run[i], a).Some?
  {
    RunInv(run, n, i);
    var s := run[i];
    if forall j :: 0 <= j < |s.tasks| ==> s.tasks[j].Finished? {
      NoneInside(s.tasks);
      assert Next(s, Launch).Some?;
    } else {
      var j :| 0 <= j < |s.tasks| && !s.tasks[j].Finished?;
      if s.tasks[j].Committed? { SomeInside(s.tasks, j); }
      assert Next(s, Commit(j)).Some? || Next(s, Release(j)).Some? || Next(s, Finish(j)).Some?;
    }
  }

  lemma {:induction false} NoneInside(ps: seq<Phase>)
    requires forall j :: 0 <= j < |ps| ==> ps[j].Finished?
    ensures InFn(ps) == 0
  {
    if ps != [] { NoneInside(ps[1..]); }
  }

  lemma {:induction false} SomeInside(ps: seq<Phase>, j: nat)
    requires j < |ps| && Inside(ps[j])
    ensures InFn(ps) > 0
  {
    if j > 0 { SomeInside(ps[1..], j - 1); }
  }

  // ---- Pass 1: enumerating (topic, group) pairs ----

  /** A topic with the groups its lookup returned; none when the lookup failed. */
  datatype Topic = Topic(name: string, groups: seq<string>)

  predicate IsDlq(name: string) { "%DLQ%" <= name }

  function PairsOf(t: Topic): (r: seq<(string, string)>)
    ensures |r| == if IsDlq(t.name) then 0 else |t.groups|
    ensures forall i :: 0 <= i < |r| ==> r[i] == (t.name, t.groups[i])
  {
    if IsDlq(t.name) then [] else seq(|t.groups|, i requires 0 <= i < |t.groups| => (t.name, t.groups[i]))
  }

  /** The shared slice after the locked appends in the given order. */
  function Gather(topics: seq<Topic>, order: seq<nat>): seq<(string, string)>
    requires Below(order, |topics|)
  {
    if order == [] then []
    else Gather(topics, order[..|order| - 1]) + PairsOf(topics[order[|order| - 1]])
  }

  /** How often a topic lists a pair. */
  function Times(t: Topic, p: (string, string)): nat { multiset(PairsOf(t))[p] }

  ghost function Listing(p: (string, string)): Topic -> int { (t: Topic) => Times(t, p) }

  ghost function ListingAt(topics: seq<Topic>, p: (string, string)): nat -> int {
    (i: nat) => if i < |topics| then Times(topics[i], p) else 0
  }

  lemma CountAppend<T>(a: seq<T>, b: seq<T>, x: T)
    ensures multiset(a + b)[x] == multiset(a)[x] + multiset(b)[x]
  {
  }

  lemma {:induction false} GatherCounts(topics: seq<Topic>, order: seq<nat>, p: (string, string))
    requires Below(order, |topics|)
    ensures multiset(Gather(topics, order))[p] == Sum(order, ListingAt(topics, p))
  {
    if order != [] {
      var init, i := order[..|order| - 1], order[|order| - 1];
      GatherCounts(topics, init, p);
      CountAppend(Gather(topics, init), PairsOf(topics[i]), p);
      assert ListingAt(topics, p)(i) == Times(topics[i], p);
    }
  }

  function UpTo(n: nat): (r: seq<nat>)
    ensures |r| == n && forall i :: 0 <= i < n ==> r[i] == i
  {
    seq(n, i requires 0 <= i < n => i)
  }

  lemma {:induction false} InOrder(topics: seq<Topic>, n: nat, p: (string, string))
    requires n <= |topics|
    ensures Sum(UpTo(n), ListingAt(topics, p)) == Sum(topics[..n], Listing(p))
  {
    if n > 0 {
      InOrder(topics, n - 1, p);
      assert UpTo(n)[..n - 1] == UpTo(n - 1);
      assert topics[..n][..n - 1] == topics[..n - 1];
    }
  }

  lemma {:induction false} CountedOnce(order: seq<nat>, i: nat)
    requires NoRepeats(order)
    ensures multiset(order)[i] == if i in order then 1 else 0
  {
    if order != [] {
      var init, last := order[..|order| - 1], order[|order| - 1];
      assert order == init + [last];
      CountedOnce(init, i);
      assert last !in init;
    }
  }

  lemma PermutationOf(order: seq<nat>, n: nat)
    requires IsPermutation(order, n)
    ensures multiset(order) == multiset(UpTo(n))
  {
    forall i: nat ensures multiset(order)[i] == multiset(UpTo(n))[i] {
      CountedOnce(order, i);
      CountedOnce(UpTo(n), i);
      if i < n { assert UpTo(n)[i] == i; }
    }
  }

  /** Under every interleaving pass 1 yields the same pairs, as often as the non-DLQ topics list
      them. */
  lemma PassOneComplete(topics: seq<Topic>, run: seq<State>, i: nat, p: (string, string))
    requires IsRun(run, |topics|) && i < |run| && Returns(run[i])
    ensures IsPermutation(run[i].order, |topics|)
    ensures multiset(Gather(topics, run[i].order))[p] == Sum(topics, Listing(p))
  {
    ParallelRunsEachOnce(run, |topics|, i);
    GatherCounts(topics, run[i].order, p);
    PermutationOf(run[i].order, |topics|);
    SumPermuted(run[i].order, UpTo(|topics|), ListingAt(topics, p));
    InOrder(topics, |topics|, p);
    assert topics[..|topics|] == topics;
  }

  // ---- Pass 2: one submission per online group ----

  /** A pair with what its own connection lookup said. */
  datatype Member = Member(group: string, online: bool)

  /** The guarded submissions after the locked checks in the given order. */
  function Submissions(members: seq<Member>, order: seq<nat>): seq<string>
    requires Below(order, |members|)
  {
    if order == [] then []
    else
      var before := Submissions(members, order[..|order| - 1]);
      var m := members[order[|order| - 1]];
      if m.online && m.group !in before then before + [m.group] else before
  }

  lemma {:induction false} SubmissionsOnce(members: seq<Member>, order: seq<nat>)
    requires Below(order, |members|)
    ensures NoRepeats(Submissions(members, order))
    ensures forall g :: g in Submissions(members, order) <==> exists k :: 0 <= k < |order| && members[order[k]] == Member(g, true)
  {
    if order != [] {
      var init, last := order[..|order| - 1], order[|order| - 1];
      SubmissionsOnce(members, init);
      assert forall k :: 0 <= k < |init| ==> init[k] == order[k];
      assert members[order[|order| - 1]] == members[last];
    }
  }

  /** Under every interleaving each group seen online is submitted exactly once, and no other. */
  lemma PassTwoSubmitsOnce(members: seq<Member>, run: seq<State>, i: nat, g: string)
    requires IsRun(run, |members|) && i < |run| && Returns(run[i])
    ensures IsPermutation(run[i].order, |members|) && NoRepeats(Submissions(members, run[i].order))
    ensures g in Submissions(members, run[i].order) <==> Member(g, true) in members
  {
    ParallelRunsEachOnce(run, |members|, i);
    var order := run[i].order;
    SubmissionsOnce(members, order);
    if Member(g, true) in members {
      var j: nat :| j < |members| && members[j] == Member(g, true);
      assert j in order;
      var k :| 0 <= k < |order| && order[k] == j;
      assert members[order[k]] == Member(g, true);
    }
  }

  // ---- One cycle ----

  predicate Lists(t: Topic, p: (string, string)) { !IsDlq(t.name) && p.0 == t.name && p.1 in t.groups }

  lemma PairsOfLists(t: Topic, p: (string, string))
    ensures p in PairsOf(t) <==> Lists(t, p)
  {
    if Lists(t, p) {
      var i :| 0 <= i < |t.groups| && t.groups[i] == p.1;
      assert PairsOf(t)[i] == p;
    }
  }

  lemma {:induction false} GatherLists(topics: seq<Topic>, order: seq<nat>, p: (string, string))
    requires Below(order, |topics|)
    ensures p in Gather(topics, order) <==> exists k :: 0 <= k < |order| && Lists(topics[order[k]], p)
  {
    if order != [] {
      var init, last := order[..|order| - 1], |order| - 1;
      GatherLists(topics, init, p);
      PairsOfLists(topics[order[last]], p);
      assert forall k :: 0 <= k < last ==> init[k] == order[k];
    }
  }

  /** Pass 1 yields a pair exactly when some non-DLQ topic lists it. */
  lemma PassOneLists(topics: seq<Topic>, run: seq<State>, i: nat, p: (string, string))
    requires IsRun(run, |topics|) && i < |run| && Returns(run[i])
    ensures IsPermutation(run[i].order, |topics|)
    ensures p in Gather(topics, run[i].order) <==> exists t :: t in topics && Lists(t, p)
  {
    ParallelRunsEachOnce(run, |topics|, i);
    var order := run[i].order;
    GatherLists(topics, order, p);
    if t :| t in topics && Lists(t, p) {
      var j: nat :| j < |topics| && topics[j] == t;
      assert j in order;
      var k :| 0 <= k < |order| && order[k] == j;
      assert Lists(topics[order[k]], p);
    }
  }

  /** The pairs of pass 1, each with what its own lookup in pass 2 said. */
  function Members(pairs: seq<(string, string)>, online: seq<bool>): (r: seq<Member>)
    requires |online| == |pairs|
    ensures |r| == |pairs| && forall k :: 0 <= k < |pairs| ==> r[k] == Member(pairs[k].1, online[k])
  {
    seq(|pairs|, k requires 0 <= k < |pairs| => Member(pairs[k].1, online[k]))
  }

  /** The lookup for the k-th pair, of group `g` on `topic`, found the group online. */
  predicate FoundOnline(pairs: seq<(string, string)>, online: seq<bool>, topic: string, g: string, k: nat) {
    k < |pairs| && k < |online| && pairs[k] == (topic, g) && online[k]
  }

  /** One collection cycle: whatever the interleavings of the two passes and the answers to the
      lookups, no group is submitted twice, and a group is submitted if and only if some non-DLQ
      topic lists it and one of the lookups made for it found it online. */
  lemma OneCycle(topics: seq<Topic>, first: seq<State>, i: nat, online: seq<bool>, second: seq<State>, j: nat, g: string)
    requires IsRun(first, |topics|) && i < |first| && Returns(first[i]) && Below(first[i].order, |topics|)
    requires |online| == |Gather(topics, first[i].order)|
    requires IsRun(second, |online|) && j < |second| && Returns(second[j]) && Below(second[j].order, |online|)
    ensures var pairs := Gather(topics, first[i].order);
            var submitted := Submissions(Members(pairs, online), second[j].order);
            && NoRepeats(submitted)
            && (g in submitted <==>
                  exists t, k: nat :: t in topics && Lists(t, (t.name, g)) && FoundOnline(pairs, online, t.name, g, k))
  {
    var pairs := Gather(topics, first[i].order);
    var members := Members(pairs, online);
    PassTwoSubmitsOnce(members, second, j, g);
    if Member(g, true) in members {
      var k: nat :| k < |members| && members[k] == Member(g, true);
      var p := pairs[k];
      assert p in pairs;
      PassOneLists(topics, first, i, p);
      var t :| t in topics && Lists(t, p);
      assert p == (t.name, g);
      assert FoundOnline(pairs, online, t.name, g, k);
    }
    if t, k: nat :| t in topics && Lists(t, (t.name, g)) && FoundOnline(pairs, online, t.name, g, k) {
      assert members[k] == Member(g, true);
    }
  }
}
