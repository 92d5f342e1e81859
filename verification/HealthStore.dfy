/** The health samples of the collector: six maps under one lock. `Store` is their value, and
    the class is the object whose methods the prober and the HTTP handler call. */
module HealthStore {
  type Cluster = string

  datatype Check = Produce | Consume | Overall

  datatype Outcome = Success | Failure

  datatype Store = Store(
    produceCount: map<(Cluster, Outcome), int>,
    consumeCount: map<Cluster, int>,
    status: map<(Cluster, Check), int>,
    latency: map<(Cluster, Check), real>,
    lastSuccess: map<(Cluster, Check), int>,
    lastError: map<(Cluster, Check), string>)

  const EMPTY := Store(map[], map[], map[], map[], map[], map[])

  /** A Go map read: the zero value when the key is absent. */
  function Get<K, V>(m: map<K, V>, k: K, zero: V): V { if k in m then m[k] else zero }

  function AddProduce(s: Store, c: Cluster, o: Outcome): Store {
    s.(produceCount := s.produceCount[(c, o) := Get(s.produceCount, (c, o), 0) + 1])
  }

  function AddConsume(s: Store, c: Cluster): Store {
    s.(consumeCount := s.consumeCount[c := Get(s.consumeCount, c, 0) + 1])
  }

  function SetStatus(s: Store, c: Cluster, k: Check, v: int): Store { s.(status := s.status[(c, k) := v]) }

  function SetLatency(s: Store, c: Cluster, k: Check, v: real): Store { s.(latency := s.latency[(c, k) := v]) }

  function SetLastSuccess(s: Store, c: Cluster, k: Check, v: int): Store {
    s.(lastSuccess := s.lastSuccess[(c, k) := v])
  }

  function SetLastError(s: Store, c: Cluster, k: Check, v: string): Store {
    s.(lastError := s.lastError[(c, k) := v])
  }

  function Drop<X(==), V>(m: map<(Cluster, X), V>, c: Cluster): map<(Cluster, X), V> {
    map k | k in m && k.0 != c :: m[k]
  }

  function Clear(s: Store, c: Cluster): Store {
    Store(Drop(s.produceCount, c), s.consumeCount - {c}, Drop(s.status, c), Drop(s.latency, c),
          Drop(s.lastSuccess, c), Drop(s.lastError, c))
  }

  /** The clusters that own a key of `m`. */
  function Owners<X(==), V>(m: map<(Cluster, X), V>): set<Cluster> { set k | k in m :: k.0 }

  /** The clusters that /healthz reports: those with a count or a status. */
  function Visible(s: Store): set<Cluster> {
    Owners(s.produceCount) + s.consumeCount.Keys + Owners(s.status)
  }

  /** The clusters with an entry in any of the six maps. */
  function Clusters(s: Store): set<Cluster> {
    Visible(s) + Owners(s.latency) + Owners(s.lastSuccess)
    + Owners(s.lastError)
  }

  lemma ClearForgets(s: Store, c: Cluster)
    ensures Clusters(Clear(s, c)) == Clusters(s) - {c}
    ensures Visible(Clear(s, c)) == Visible(s) - {c}
  {
    ClearHides(s, c);
    DropKeys(s.latency, c);
    DropKeys(s.lastSuccess, c);
    DropKeys(s.lastError, c);
    DropUnion(Visible(s), Owners(s.latency), Owners(s.lastSuccess), Owners(s.lastError), c);
  }

  lemma DropUnion(v: set<Cluster>, a: set<Cluster>, b: set<Cluster>, d: set<Cluster>, c: Cluster)
    ensures (v - {c}) + (a - {c}) + (b - {c}) + (d - {c}) == (v + a + b + d) - {c}
  {
  }

  lemma ClearHides(s: Store, c: Cluster)
    ensures Visible(Clear(s, c)) == Visible(s) - {c}
  {
    DropKeys(s.produceCount, c);
    DropKeys(s.status, c);
  }

  lemma DropKeys<X, V>(m: map<(Cluster, X), V>, c: Cluster)
    ensures Owners(Drop(m, c)) == Owners(m) - {c}
  {
    forall x | x in Owners(m) && x != c ensures x in Owners(Drop(m, c)) {
      var k :| k in m && k.0 == x;
      assert k in Drop(m, c);
    }
  }

  // ---- The /healthz view ----

  datatype CheckHealth = CheckHealth(ok: bool, latency: real, lastSuccess: int, lastError: string)

  datatype ClusterHealth = ClusterHealth(overall: bool, produce: CheckHealth, consume: CheckHealth)

  datatype Snapshot = Snapshot(overall: bool, lastProbeAt: int, clusters: map<Cluster, ClusterHealth>)

  function CheckDetail(s: Store, c: Cluster, k: Check): CheckHealth {
    CheckHealth(Get(s.status, (c, k), 0) == 1, Get(s.latency, (c, k), 0.0), Get(s.lastSuccess, (c, k), 0),
                Get(s.lastError, (c, k), ""))
  }

  function ClusterDetail(s: Store, c: Cluster): ClusterHealth {
    ClusterHealth(Get(s.status, (c, Overall), 0) == 1, CheckDetail(s, c, Produce), CheckDetail(s, c, Consume))
  }

  function LatestSuccess(s: Store, c: Cluster): int {
    Max(Get(s.lastSuccess, (c, Produce), 0), Get(s.lastSuccess, (c, Consume), 0))
  }

  function Max(a: int, b: int): int { if a > b then a else b }

  /** `t` is the latest of the times in `cs`, never below zero. */
  ghost predicate IsLatest(s: Store, cs: set<Cluster>, t: int) {
    && t >= 0
    && (forall c :: c in cs ==> LatestSuccess(s, c) <= t)
    && (t == 0 || exists c :: c in cs && LatestSuccess(s, c) == t)
  }

  class Collector {
    var produceCount: map<(Cluster, Outcome), int>
    var consumeCount: map<Cluster, int>
    var status: map<(Cluster, Check), int>
    var latency: map<(Cluster, Check), real>
    var lastSuccess: map<(Cluster, Check), int>
    var lastError: map<(Cluster, Check), string>

    function Value(): Store
      reads this
    {
      Store(produceCount, consumeCount, status, latency, lastSuccess, lastError)
    }

    constructor ()
      ensures Value() == EMPTY
    {
      produceCount, consumeCount, status := map[], map[], map[];
      latency, lastSuccess, lastError := map[], map[], map[];
    }

    method AddHealthProduce(c: Cluster, o: Outcome)
      modifies this
      ensures Value() == AddProduce(old(Value()), c, o)
    {
      produceCount := produceCount[(c, o) := Get(produceCount, (c, o), 0) + 1];
    }

    method AddHealthConsume(c: Cluster)
      modifies this
      ensures Value() == AddConsume(old(Value()), c)
    {
      consumeCount := consumeCount[c := Get(consumeCount, c, 0) + 1];
    }

    method SetHealthStatus(c: Cluster, k: Check, v: int)
      modifies this
      ensures Value() == SetStatus(old(Value()), c, k, v)
    {
      status := status[(c, k) := v];
    }

    method SetHealthLatency(c: Cluster, k: Check, v: real)
      modifies this
      ensures Value() == SetLatency(old(Value()), c, k, v)
    {
      latency := latency[(c, k) := v];
    }

    method SetHealthLastSuccess(c: Cluster, k: Check, v: int)
      modifies this
      ensures Value() == SetLastSuccess(old(Value()), c, k, v)
    {
      lastSuccess := lastSuccess[(c, k) := v];
    }

    method SetHealthLastError(c: Cluster, k: Check, v: string)
      modifies this
      ensures Value() == SetLastError(old(Value()), c, k, v)
    {
      lastError := lastError[(c, k) := v];
    }

    /** Deleting while ranging: each key is visited once, in any order. */
    static method DeleteCluster<X(==), V>(m: map<(Cluster, X), V>, c: Cluster) returns (r: map<(Cluster, X), V>)
      ensures r == Drop(m, c)
    {
      r := m;
      var todo := m.Keys;
      while todo != {}
        invariant todo <= r.Keys <= m.Keys
        invariant forall k :: k in r ==> r[k] == m[k] && (k in todo || k.0 != c)
        invariant forall k :: k in m && k.0 != c ==> k in r
      {
        var k :| k in todo;
        if k.0 == c { r := r - {k}; }
        todo := todo - {k};
      }
    }

    method ClearHealthCluster(c: Cluster)
      modifies this
      ensures Value() == Clear(old(Value()), c)
    {
      produceCount := DeleteCluster(produceCount, c);
      consumeCount := consumeCount - {c};
      status := DeleteCluster(status, c);
      latency := DeleteCluster(latency, c);
      lastSuccess := DeleteCluster(lastSuccess, c);
      lastError := DeleteCluster(lastError, c);
    }

    /** Every visible cluster is reported from its own gauges; the whole is ok exactly when there
        is a visible cluster and all of them are ok. */
    method HealthDetail() returns (r: Snapshot)
      ensures r.clusters.Keys == Visible(Value())
      ensures forall c :: c in r.clusters ==> r.clusters[c] == ClusterDetail(Value(), c)
      ensures r.overall <==> Visible(Value()) != {} && forall c :: c in Visible(Value()) ==> OverallOk(Value(), c)
      ensures IsLatest(Value(), Visible(Value()), r.lastProbeAt)
    {
      var clusters, lastProbe := DetailOf(Value(), Visible(Value()));
      var overall := AllOk(clusters);
      r := Snapshot(overall, lastProbe, clusters);
    }
  }

  predicate OverallOk(s: Store, c: Cluster) { Get(s.status, (c, Overall), 0) == 1 }

  method DetailOf(s: Store, visible: set<Cluster>) returns (clusters: map<Cluster, ClusterHealth>, lastProbe: int)
    ensures clusters.Keys == visible && forall c :: c in clusters ==> clusters[c] == ClusterDetail(s, c)
    ensures IsLatest(s, visible, lastProbe)
  {
    var todo := visible;
    ghost var done: set<Cluster> := {};
    clusters, lastProbe := map[], 0;
    while todo != {}
      invariant clusters.Keys == done && done + todo == visible
      invariant forall c :: c in clusters ==> clusters[c] == ClusterDetail(s, c)
      invariant IsLatest(s, done, lastProbe)
      decreases todo
    {
      var c :| c in todo;
      LatestGrows(s, done, c, lastProbe);
      var d := ClusterDetail(s, c);
      clusters, lastProbe := clusters[c := d], Later(lastProbe, d);
      done, todo := done + {c}, todo - {c};
    }
  }

  /** `lastProbe` after the two comparisons made for one cluster. */
  function Later(t: int, d: ClusterHealth): int { Max(Max(t, d.produce.lastSuccess), d.consume.lastSuccess) }

  method AllOk(clusters: map<Cluster, ClusterHealth>) returns (ok: bool)
    ensures ok <==> clusters.Keys != {} && forall c :: c in clusters ==> clusters[c].overall
  {
    ok := |clusters| > 0;
    assert |clusters| == |clusters.Keys|;
    var left := clusters.Keys;
    while ok && left != {}
      invariant left <= clusters.Keys
      invariant ok <==> clusters.Keys != {} && forall c :: c in clusters && c !in left ==> clusters[c].overall
      decreases left
    {
      var c :| c in left;
      ok := clusters[c].overall;
      left := left - {c};
    }
  }

  lemma LatestGrows(s: Store, cs: set<Cluster>, c: Cluster, t: int)
    requires IsLatest(s, cs, t)
    ensures IsLatest(s, cs + {c}, Later(t, ClusterDetail(s, c)))
  {
    var t' := Later(t, ClusterDetail(s, c));
    if t' == t && t != 0 {
      var x :| x in cs && LatestSuccess(s, x) == t;
      assert x in cs + {c};
    } else {
      assert c in cs + {c};
    }
  }
}
