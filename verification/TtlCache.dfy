/**
  * The metrics cache: values expire a fixed time after their last write, reads
  * show only live values, and a janitor sweeps expired ones away.
  */
module TtlCache {
  import opened Bytes

  datatype Entry<V> = Entry(value: V, at: int)

  predicate Expired<V>(e: Entry<V>, ttl: int, now: int) { now - e.at > ttl }

  /** What a read at `now` shows for a key. */
  function Read<K, V>(m: map<K, Entry<V>>, ttl: int, k: K, now: int): Option<V> {
    if k in m && !Expired(m[k], ttl, now) then Some(m[k].value) else None
  }

  function Live<K, V>(m: map<K, Entry<V>>, ttl: int, now: int): map<K, Entry<V>> {
    map k | k in m && !Expired(m[k], ttl, now) :: m[k]
  }

  class Cache<K(==), V> {
    var m: map<K, Entry<V>>
    const ttl: int

    constructor (ttl: int)
      ensures m == map[] && this.ttl == ttl
    {
      m := map[];
      this.ttl := ttl;
    }

    method Put(k: K, v: V, now: int)
      modifies this
      ensures m == Do(old(m), ttl, Write(k, v, now))
    {
      m := m[k := Entry(v, now)];
    }

    method Get(k: K, now: int) returns (r: Option<V>)
      ensures r == Read(m, ttl, k, now)
    {
      if k !in m || now - m[k].at > ttl { return None; }
      return Some(m[k].value);
    }

    method Snapshot(now: int) returns (out: seq<(K, V)>)
      ensures forall k, v :: (k, v) in out <==> Read(m, ttl, k, now) == Some(v)
      ensures forall i, j :: 0 <= i < j < |out| ==> out[i].0 != out[j].0
    {
      out := [];
      var todo := m.Keys;
      while todo != {}
        invariant todo <= m.Keys
        invariant forall k, v :: (k, v) in out <==> k !in todo && Read(m, ttl, k, now) == Some(v)
        invariant forall i, j :: 0 <= i < j < |out| ==> out[i].0 != out[j].0
        decreases todo
      {
        var k :| k in todo;
        if now - m[k].at <= ttl {
          assert forall i :: 0 <= i < |out| ==> (out[i].0, out[i].1) in out;
          out := out + [(k, m[k].value)];
        }
        todo := todo - {k};
      }
    }

    method Sweep(now: int)
      modifies this
      ensures m == Do(old(m), ttl, Swept(now))
    {
      var todo := m.Keys;
      while todo != {}
        invariant todo <= m.Keys <= old(m).Keys
        invariant forall k :: k in m ==> m[k] == old(m)[k]
        invariant forall k :: k in old(m) && k !in todo ==> (k in m <==> !Expired(old(m)[k], ttl, now))
        decreases todo
      {
        var k :| k in todo;
        if now - m[k].at > ttl { m := m - {k}; }
        todo := todo - {k};
      }
    }
  }

  // ---------------------------------------------------------------- histories

  /** The operations that change the cache, with the clock each of them read. */
  datatype Op<K, V> = Write(key: K, value: V, at: int) | Swept(at: int)

  function Do<K, V>(m: map<K, Entry<V>>, ttl: int, op: Op<K, V>): map<K, Entry<V>> {
    match op
    case Write(k, v, at) => m[k := Entry(v, at)]
    case Swept(at) => Live(m, ttl, at)
  }

  /** The cache after a history. */
  function After<K, V>(ops: seq<Op<K, V>>, ttl: int): map<K, Entry<V>> {
    if ops == [] then map[] else Do(After(ops[..|ops| - 1], ttl), ttl, ops[|ops| - 1])
  }

  /** The last write to a key, whatever was swept. */
  function Latest<K(==), V>(ops: seq<Op<K, V>>, k: K): Option<Entry<V>> {
    if ops == [] then None else
    var last := ops[|ops| - 1];
    if Writes(last, k) then Some(Entry(last.value, last.at)) else Latest(ops[..|ops| - 1], k)
  }

  predicate Writes<K(==), V>(op: Op<K, V>, k: K) { op.Write? && op.key == k }

  /** Expire-after-write as such: the last write, if it is no older than the ttl. */
  function Promised<K(==), V>(ops: seq<Op<K, V>>, ttl: int, k: K, now: int): Option<V> {
    var e := Latest(ops, k);
    if e.Some? && !Expired(e.value, ttl, now) then Some(e.value.value) else None
  }

  ghost predicate Quiet<K, V>(ops: seq<Op<K, V>>, i: nat, k: K) {
    forall j :: i <= j < |ops| ==> !Writes(ops[j], k)
  }

  ghost predicate SweptAt<K, V>(ops: seq<Op<K, V>>, ttl: int, k: K, i: nat)
    requires Latest(ops, k).Some?
  {
    i < |ops| && ops[i].Swept? && Quiet(ops, i, k) && Expired(Latest(ops, k).value, ttl, ops[i].at)
  }

  /** A sweep after the last write to `k` read a clock by which that write had expired. */
  ghost predicate SweptOut<K, V>(ops: seq<Op<K, V>>, ttl: int, k: K) {
    Latest(ops, k).Some? && exists i: nat :: SweptAt(ops, ttl, k, i)
  }

  /** The cache holds the last write of exactly the keys that were not swept out. */
  lemma {:induction false} AfterHolds<K, V>(ops: seq<Op<K, V>>, ttl: int, k: K)
    ensures k in After(ops, ttl) <==> Latest(ops, k).Some? && !SweptOut(ops, ttl, k)
    ensures k in After(ops, ttl) ==> Some(After(ops, ttl)[k]) == Latest(ops, k)
  {
    if ops != [] {
      var init, last := ops[..|ops| - 1], ops[|ops| - 1];
      AfterHolds(init, ttl, k);
      if Writes(last, k) {
        assert forall i: nat :: i < |ops| ==> !Quiet(ops, i, k);
      } else if Latest(ops, k).Some? {
        SweptOutStep(ops, ttl, k);
      }
    }
  }

  lemma SweptOutStep<K, V>(ops: seq<Op<K, V>>, ttl: int, k: K)
    requires ops != [] && Latest(ops, k).Some? && !Writes(ops[|ops| - 1], k)
    ensures SweptOut(ops, ttl, k) <==>
      || SweptOut(ops[..|ops| - 1], ttl, k)
      || (ops[|ops| - 1].Swept? && Expired(Latest(ops, k).value, ttl, ops[|ops| - 1].at))
  {
    var n := |ops| - 1;
    var init := ops[..n];
    if SweptOut(init, ttl, k) {
      var i: nat :| SweptAt(init, ttl, k, i);
      assert forall j :: i <= j < n ==> ops[j] == init[j];
      assert SweptAt(ops, ttl, k, i);
    }
    if ops[n].Swept? && Expired(Latest(ops, k).value, ttl, ops[n].at) {
      assert SweptAt(ops, ttl, k, n);
    }
    if SweptOut(ops, ttl, k) {
      var i: nat :| SweptAt(ops, ttl, k, i);
      if i < n { assert SweptAt(init, ttl, k, i); }
    }
  }

  /**
    * A read differs from expire-after-write exactly when the last write was swept
    * out although the reader's own clock still finds it live.
    */
  lemma ReadKeepsPromiseIff<K, V>(ops: seq<Op<K, V>>, ttl: int, k: K, now: int)
    ensures Read(After(ops, ttl), ttl, k, now) == Promised(ops, ttl, k, now)
       <==> !(SweptOut(ops, ttl, k) && !Expired(Latest(ops, k).value, ttl, now))
  {
    AfterHolds(ops, ttl, k);
  }

  // ---------------------------------------------------------------- clocks

  /**
    * `when[i]` is the instant at which operation `i` holds the lock. A write reads
    * the clock there; a sweep has read it before.
    */
  ghost predicate WellTimed<K, V>(ops: seq<Op<K, V>>, when: seq<int>) {
    && |when| == |ops|
    && (forall i, j :: 0 <= i < j < |when| ==> when[i] <= when[j])
    && (forall i :: 0 <= i < |ops| ==> if ops[i].Write? then ops[i].at == when[i] else ops[i].at <= when[i])
  }

  ghost predicate NotBefore(when: seq<int>, now: int) { forall i :: 0 <= i < |when| ==> when[i] <= now }

  /** `Get` reads the clock after it has looked at the map, so no sweep shows. */
  lemma GetKeepsPromise<K, V>(ops: seq<Op<K, V>>, when: seq<int>, ttl: int, k: K, now: int)
    requires WellTimed(ops, when) && NotBefore(when, now)
    ensures Read(After(ops, ttl), ttl, k, now) == Promised(ops, ttl, k, now)
  {
    ReadKeepsPromiseIff(ops, ttl, k, now);
    if SweptOut(ops, ttl, k) {
      var i: nat :| SweptAt(ops, ttl, k, i);
      assert ops[i].at <= when[i] <= now;
    }
  }

  /** Sweeping is invisible to `Get`: a history without its sweeps reads the same. */
  lemma SweepsInvisible<K, V>(ops: seq<Op<K, V>>, when: seq<int>, ttl: int, k: K, now: int)
    requires WellTimed(ops, when) && NotBefore(when, now)
    ensures Read(After(ops, ttl), ttl, k, now) == Read(After(Unswept(ops), ttl), ttl, k, now)
  {
    GetKeepsPromise(ops, when, ttl, k, now);
    LatestUnswept(ops, k);
    ReadKeepsPromiseIff(Unswept(ops), ttl, k, now);
  }

  function Unswept<K, V>(ops: seq<Op<K, V>>): (r: seq<Op<K, V>>)
    ensures forall i :: 0 <= i < |r| ==> r[i].Write?
  {
    if ops == [] then [] else
    Unswept(ops[..|ops| - 1]) + if ops[|ops| - 1].Write? then [ops[|ops| - 1]] else []
  }

  lemma {:induction false} LatestUnswept<K, V>(ops: seq<Op<K, V>>, k: K)
    ensures Latest(Unswept(ops), k) == Latest(ops, k)
  {
    if ops != [] {
      var init, last := ops[..|ops| - 1], ops[|ops| - 1];
      LatestUnswept(init, k);
      if last.Write? {
        assert Unswept(ops)[..|Unswept(ops)| - 1] == Unswept(init);
      } else {
        assert Unswept(ops) == Unswept(init);
      }
    }
  }

  /**
    * `Snapshot` reads the clock (`now`) before it locks (`held`). Each key shows
    * what was promised at one of these two instants.
    */
  lemma SnapshotBetween<K, V>(ops: seq<Op<K, V>>, when: seq<int>, ttl: int, k: K, now: int, held: int)
    requires WellTimed(ops, when) && NotBefore(when, held) && now <= held
    ensures Read(After(ops, ttl), ttl, k, now) in {Promised(ops, ttl, k, now), Promised(ops, ttl, k, held)}
  {
    ReadKeepsPromiseIff(ops, ttl, k, now);
    AfterHolds(ops, ttl, k);
    if SweptOut(ops, ttl, k) {
      var i: nat :| SweptAt(ops, ttl, k, i);
      assert ops[i].at <= when[i] <= held;
    }
  }

  /** A sweep between the clock and the lock hides a value that is live at the snapshot's clock. */
  lemma SnapshotCanMiss<K, V>(ttl: nat, k: K, v: V)
    ensures
      var ops := [Write(k, v, 0), Swept(ttl + 1)];
      && WellTimed(ops, [0, ttl + 1])
      && Promised(ops, ttl, k, ttl) == Some(v)
      && Read(After(ops, ttl), ttl, k, ttl) == None
  {
    var ops := [Write(k, v, 0), Swept(ttl + 1)];
    assert ops[..1] == [Write(k, v, 0)];
    assert Latest(ops[..1], k) == Some(Entry(v, 0));
    assert Latest(ops, k) == Some(Entry(v, 0));
    assert SweptAt(ops, ttl, k, 1);
    AfterHolds(ops, ttl, k);
  }
}
