/**
  * What one collection round computes from the queues of a consumer group or a
  * topic: the total lag, the per-broker offsets and the per-broker latency.
  *
  * A queue's row carries what the broker answers when its message is pulled, so
  * the order in which the rows are visited (Go's map order) stays free.
  */
module Aggregation {
  import opened Bytes
  import opened Sums

  const TWO_63 := 0x8000_0000_0000_0000
  const TWO_64 := 0x1_0000_0000_0000_0000

  /** Two's complement 64-bit wrap-around of Go's `int64`. */
  function Wrap(x: int): (r: int)
    ensures -TWO_63 <= r < TWO_63
    decreases if x >= TWO_63 then x else if x < -TWO_63 then -x else 0
  {
    if x >= TWO_63 then Wrap(x - TWO_64)
    else if x < -TWO_63 then Wrap(x + TWO_64)
    else x
  }

  lemma {:induction false} WrapStep(x: int)
    ensures Wrap(x + TWO_64) == Wrap(x)
    decreases if x < -TWO_63 then -x else 0
  {
    if x < -TWO_64 - TWO_63 { WrapStep(x + TWO_64); }
  }

  lemma {:induction false} WrapShift(x: int, k: int)
    ensures Wrap(x + k * TWO_64) == Wrap(x)
    decreases if k < 0 then -k else k
  {
    if k > 0 {
      WrapShift(x, k - 1);
      WrapStep(x + (k - 1) * TWO_64);
      assert x + k * TWO_64 == x + (k - 1) * TWO_64 + TWO_64;
    } else if k < 0 {
      WrapShift(x, k + 1);
      WrapStep(x + k * TWO_64);
      assert x + (k + 1) * TWO_64 == x + k * TWO_64 + TWO_64;
    }
  }

  lemma WrapAdd(a: int, b: int)
    ensures Wrap(Wrap(a) + b) == Wrap(a + b)
  {
    var k := WrapTurns(a);
    WrapShift(a + b, k);
    assert Wrap(a) + b == a + b + k * TWO_64;
  }

  lemma {:induction false} WrapTurns(x: int) returns (k: int)
    ensures Wrap(x) == x + k * TWO_64
    decreases if x >= TWO_63 then x else if x < -TWO_63 then -x else 0
  {
    if x >= TWO_63 {
      k := WrapTurns(x - TWO_64);
      k := k - 1;
    } else if x < -TWO_63 {
      k := WrapTurns(x + TWO_64);
      k := k + 1;
    } else {
      k := 0;
    }
  }

  /** Wrapping a summand early, or replacing it by a congruent one, does not change the wrapped sum. */
  lemma WrapSum(a: int, b: int, c: int)
    requires Wrap(b) == Wrap(c)
    ensures Wrap(Wrap(a) + b) == Wrap(a + c)
  {
    WrapAdd(a, b);
    WrapAdd(b, a);
    WrapAdd(c, a);
  }

  // ---------------------------------------------------------------- rows

  datatype Pull = Failed | Found(stored: int) | Illegal | NoNew

  /**
    * One queue of a group's consume stats. `first` is the answer to pulling at
    * the consumer offset and `second` the answer to pulling at the smallest
    * offset, with the clock read after each.
    */
  datatype Row = Row(broker: string, brokerOffset: int, consumerOffset: int,
                     first: Pull, firstNow: int, second: Pull, secondNow: int)

  ghost function Brokers(rows: seq<Row>): set<string> { set r | r in rows :: r.broker }

  ghost function Consumed(): Row -> int { (r: Row) => r.consumerOffset }

  ghost function Behind(): Row -> int { (r: Row) => r.brokerOffset - r.consumerOffset }

  ghost function Stored(): Row -> int { (r: Row) => r.brokerOffset }

  ghost function ConsumedOn(b: string): Row -> int { (r: Row) => if r.broker == b then r.consumerOffset else 0 }

  ghost function ConsumedOnAny(bs: set<string>): Row -> int {
    (r: Row) => if r.broker in bs then r.consumerOffset else 0
  }

  ghost predicate IsOffsets(rows: seq<Row>, m: map<string, int>) {
    && m.Keys == Brokers(rows)
    && forall b :: b in m ==> m[b] == Wrap(Sum(rows, ConsumedOn(b)))
  }

  method TotalDiff(rows: seq<Row>) returns (diff: int)
    ensures diff == Wrap(Sum(rows, Behind()))
  {
    diff := 0;
    for i := 0 to |rows|
      invariant diff == Wrap(Sum(rows[..i], Behind()))
    {
      assert rows[..i + 1][..i] == rows[..i];
      var behind := Wrap(rows[i].brokerOffset - rows[i].consumerOffset);
      WrapSum(Sum(rows[..i], Behind()), behind, rows[i].brokerOffset - rows[i].consumerOffset);
      diff := Wrap(diff + behind);
    }
    assert rows[..|rows|] == rows;
  }

  method ConsumerOffsets(rows: seq<Row>) returns (m: map<string, int>)
    ensures IsOffsets(rows, m)
  {
    m := map[];
    for i := 0 to |rows|
      invariant IsOffsets(rows[..i], m)
    {
      OffsetsStep(rows, i, m);
      m := Added(m, rows[i].broker, rows[i].consumerOffset);
    }
    assert rows[..|rows|] == rows;
  }

  function Added(m: map<string, int>, b: string, offset: int): map<string, int> {
    m[b := Wrap((if b in m then m[b] else 0) + offset)]
  }

  lemma OffsetsStep(rows: seq<Row>, i: nat, m: map<string, int>)
    requires i < |rows| && IsOffsets(rows[..i], m)
    ensures IsOffsets(rows[..i + 1], Added(m, rows[i].broker, rows[i].consumerOffset))
  {
    var done, r := rows[..i], rows[i];
    assert rows[..i + 1] == done + [r];
    var n := Added(m, r.broker, r.consumerOffset);
    assert n.Keys == Brokers(done + [r]);
    forall b | b in n ensures n[b] == Wrap(Sum(done + [r], ConsumedOn(b))) { OffsetAt(done, r, m, b); }
  }

  lemma OffsetAt(done: seq<Row>, r: Row, m: map<string, int>, b: string)
    requires IsOffsets(done, m) && b in Added(m, r.broker, r.consumerOffset)
    ensures Added(m, r.broker, r.consumerOffset)[b] == Wrap(Sum(done + [r], ConsumedOn(b)))
  {
    assert (done + [r])[..|done|] == done;
    if b == r.broker {
      if b !in m { NoneOn(done, b); }
      WrapAdd(Sum(done, ConsumedOn(b)), r.consumerOffset);
    }
  }

  lemma {:induction false} NoneOn(rows: seq<Row>, b: string)
    requires b !in Brokers(rows)
    ensures Sum(rows, ConsumedOn(b)) == 0
  {
    if rows != [] {
      assert rows[|rows| - 1] in rows;
      assert Brokers(rows[..|rows| - 1]) <= Brokers(rows);
      NoneOn(rows[..|rows| - 1], b);
    }
  }

  // ---------------------------------------------------------------- conservation

  /** The published values of the brokers in `bs`, added up. */
  ghost function SumOver(m: map<string, int>, bs: set<string>): int
    requires bs <= m.Keys
    decreases bs
  {
    if bs == {} then 0 else m[Pick(bs)] + SumOver(m, bs - {Pick(bs)})
  }

  ghost function Pick(bs: set<string>): (b: string)
    requires bs != {}
    ensures b in bs
  {
    var b :| b in bs; b
  }

  lemma {:induction false} SumOverBrokers(rows: seq<Row>, m: map<string, int>, bs: set<string>)
    requires IsOffsets(rows, m) && bs <= m.Keys
    ensures Wrap(SumOver(m, bs)) == Wrap(Sum(rows, ConsumedOnAny(bs)))
    decreases bs
  {
    if bs == {} {
      SumOnNone(rows);
    } else {
      var b := Pick(bs);
      SumOverBrokers(rows, m, bs - {b});
      OneMoreBroker(rows, m, bs, b, SumOver(m, bs - {b}));
    }
  }

  lemma OneMoreBroker(rows: seq<Row>, m: map<string, int>, bs: set<string>, b: string, rest: int)
    requires IsOffsets(rows, m) && b in m && b in bs
    requires Wrap(rest) == Wrap(Sum(rows, ConsumedOnAny(bs - {b})))
    ensures Wrap(m[b] + rest) == Wrap(Sum(rows, ConsumedOnAny(bs)))
  {
    WrapSum(Sum(rows, ConsumedOn(b)), rest, Sum(rows, ConsumedOnAny(bs - {b})));
    SumOnOneMore(rows, bs, b);
  }

  lemma SumOnOneMore(rows: seq<Row>, bs: set<string>, b: string)
    requires b in bs
    ensures Sum(rows, ConsumedOnAny(bs)) == Sum(rows, ConsumedOn(b)) + Sum(rows, ConsumedOnAny(bs - {b}))
  {
    SumSplits(rows, ConsumedOnAny(bs), ConsumedOn(b), ConsumedOnAny(bs - {b}));
  }

  lemma {:induction false} SumOnNone(rows: seq<Row>)
    ensures Sum(rows, ConsumedOnAny({})) == 0
  {
    if rows != [] { SumOnNone(rows[..|rows| - 1]); }
  }

  /** The per-broker offsets of a group add up to the offsets of all its queues. */
  lemma OffsetsConserve(rows: seq<Row>, m: map<string, int>)
    requires IsOffsets(rows, m)
    ensures Wrap(SumOver(m, m.Keys)) == Wrap(Sum(rows, Consumed()))
  {
    SumOverBrokers(rows, m, m.Keys);
    forall i | 0 <= i < |rows| ensures ConsumedOnAny(m.Keys)(rows[i]) == Consumed()(rows[i]) {
      assert rows[i] in rows;
    }
    SumAgrees(rows, ConsumedOnAny(m.Keys), Consumed());
  }

  lemma StoredSplits(rows: seq<Row>)
    ensures Sum(rows, Stored()) == Sum(rows, Behind()) + Sum(rows, Consumed())
  {
    SumSplits(rows, Stored(), Behind(), Consumed());
  }

  /** The lag and the per-broker offsets together account for everything stored. */
  lemma DiffBalances(rows: seq<Row>, again: seq<Row>, diff: int, m: map<string, int>)
    requires multiset(rows) == multiset(again)
    requires IsOffsets(rows, m) && diff == Wrap(Sum(again, Behind()))
    ensures Wrap(diff + SumOver(m, m.Keys)) == Wrap(Sum(rows, Stored()))
  {
    SumPermuted(rows, again, Behind());
    OffsetsConserve(rows, m);
    StoredSplits(rows);
    WrapSum(Sum(rows, Behind()), SumOver(m, m.Keys), Sum(rows, Consumed()));
  }

  lemma OffsetsIgnoreOrder(rows: seq<Row>, again: seq<Row>, m: map<string, int>, n: map<string, int>)
    requires multiset(rows) == multiset(again) && IsOffsets(rows, m) && IsOffsets(again, n)
    ensures m == n
  {
    SameRows(rows, again);
    forall b | b in m ensures m[b] == n[b] { SumPermuted(rows, again, ConsumedOn(b)); }
  }

  lemma SameRows<E>(xs: seq<E>, ys: seq<E>)
    requires multiset(xs) == multiset(ys)
    ensures forall x :: x in xs <==> x in ys
  {
    forall x ensures x in xs <==> x in ys { assert x in multiset(xs) <==> x in multiset(ys); }
  }

  // ---------------------------------------------------------------- latency

  predicate Known(addrs: map<string, string>, r: Row) { r.broker in addrs && addrs[r.broker] != "" }

  /** The pull that decides about a queue failed. */
  predicate Fails(r: Row) { r.first.Failed? || (r.first.Illegal? && r.second.Failed?) }

  function Lag(r: Row): int {
    match r.first
    case Found(stored) => if r.brokerOffset == r.consumerOffset then 0 else Wrap(r.firstNow - stored)
    case Illegal => if r.second.Found? then Wrap(r.secondNow - r.second.stored) else 0
    case _ => 0
  }

  ghost predicate IsWorst(addrs: map<string, string>, rows: seq<Row>, b: string, lag: int) {
    && lag >= 0
    && (forall r :: r in rows && r.broker == b && Known(addrs, r) ==> Lag(r) <= lag)
    && (lag > 0 ==> exists r :: r in rows && r.broker == b && Known(addrs, r) && Lag(r) == lag)
  }

  ghost function Reached(addrs: map<string, string>, rows: seq<Row>): set<string> {
    set r | r in rows && Known(addrs, r) :: r.broker
  }

  ghost predicate Broken(addrs: map<string, string>, rows: seq<Row>) {
    exists r :: r in rows && Known(addrs, r) && Fails(r)
  }

  ghost predicate IsLatencyMap(addrs: map<string, string>, rows: seq<Row>, m: map<string, int>) {
    && !Broken(addrs, rows)
    && m.Keys == Reached(addrs, rows)
    && forall b :: b in m ==> IsWorst(addrs, rows, b, m[b])
  }

  ghost predicate IsLatency(addrs: map<string, string>, rows: seq<Row>, out: Option<map<string, int>>) {
    match out
    case None => Broken(addrs, rows)
    case Some(m) => IsLatencyMap(addrs, rows, m)
  }

  /** The pulls of one queue: no lag when one of them failed. */
  method PullLag(r: Row) returns (lag: Option<int>)
    ensures lag == if Fails(r) then None else Some(Lag(r))
  {
    if r.first.Failed? { return None; }
    var l := 0;
    if r.first.Found? {
      l := Wrap(r.firstNow - r.first.stored);
      if r.brokerOffset == r.consumerOffset { l := 0; }
    } else if r.first.Illegal? {
      if r.second.Failed? { return None; }
      if r.second.Found? { l := Wrap(r.secondNow - r.second.stored); }
    }
    return Some(l);
  }

  method Latency(addrs: map<string, string>, rows: seq<Row>) returns (out: Option<map<string, int>>)
    ensures IsLatency(addrs, rows, out)
  {
    var m: map<string, int> := map[];
    for i := 0 to |rows|
      invariant IsLatencyMap(addrs, rows[..i], m)
    {
      var r := rows[i];
      assert rows[..i + 1] == rows[..i] + [r];
      if !Known(addrs, r) { continue; }
      var lag := PullLag(r);
      if lag.None? {
        assert r in rows;
        return None;
      }
      LatencyStep(addrs, rows, i, m);
      if r.broker !in m {
        m := m[r.broker := if lag.value > 0 then lag.value else 0];
      } else if lag.value > m[r.broker] {
        m := m[r.broker := lag.value];
      }
    }
    assert rows[..|rows|] == rows;
    return Some(m);
  }

  function Raised(m: map<string, int>, b: string, lag: int): map<string, int> {
    if b !in m then m[b := if lag > 0 then lag else 0]
    else if lag > m[b] then m[b := lag]
    else m
  }

  lemma LatencyStep(addrs: map<string, string>, rows: seq<Row>, i: nat, m: map<string, int>)
    requires i < |rows| && IsLatencyMap(addrs, rows[..i], m) && Known(addrs, rows[i]) && !Fails(rows[i])
    ensures IsLatencyMap(addrs, rows[..i + 1], Raised(m, rows[i].broker, Lag(rows[i])))
  {
    var done, r := rows[..i], rows[i];
    var next := rows[..i + 1];
    assert next == done + [r];
    assert r in next;
    var n := Raised(m, r.broker, Lag(r));
    assert n.Keys == Reached(addrs, next);
    forall b | b in n ensures IsWorst(addrs, next, b, n[b]) { WorstStep(addrs, done, r, m, b); }
  }

  lemma WorstStep(addrs: map<string, string>, done: seq<Row>, r: Row, m: map<string, int>, b: string)
    requires IsLatencyMap(addrs, done, m) && Known(addrs, r)
    requires b in Raised(m, r.broker, Lag(r))
    ensures IsWorst(addrs, done + [r], b, Raised(m, r.broker, Lag(r))[b])
  {
    assert r in done + [r];
    forall x | x in done ensures x in done + [r] {}
    forall x | x in done && Known(addrs, x) ensures x.broker in m {
      assert x.broker in Reached(addrs, done);
    }
  }

  /** The visiting order decides neither whether latency is published nor what it is. */
  lemma LatencyIgnoresOrder(addrs: map<string, string>, rows: seq<Row>, again: seq<Row>,
                            out: Option<map<string, int>>, out': Option<map<string, int>>)
    requires multiset(rows) == multiset(again)
    requires IsLatency(addrs, rows, out) && IsLatency(addrs, again, out')
    ensures out == out'
  {
    SameRows(rows, again);
    assert Broken(addrs, rows) == Broken(addrs, again);
    if out.Some? {
      assert Reached(addrs, rows) == Reached(addrs, again);
      var m, n := out.value, out'.value;
      assert m.Keys == n.Keys;
      forall b | b in m ensures m[b] == n[b] {
        OneWorst(addrs, rows, again, b, m[b], n[b]);
        OneWorst(addrs, again, rows, b, n[b], m[b]);
      }
      assert m == n;
    }
  }

  lemma OneWorst(addrs: map<string, string>, rows: seq<Row>, again: seq<Row>, b: string, lag: int, lag': int)
    requires forall r :: r in rows ==> r in again
    requires IsWorst(addrs, rows, b, lag) && IsWorst(addrs, again, b, lag')
    ensures lag <= lag'
  {
    if lag > 0 {
      var r :| r in rows && r.broker == b && Known(addrs, r) && Lag(r) == lag;
      assert r in again;
    }
  }

  /**
    * Every broker of the stats gets a latency sample exactly when no deciding
    * pull failed and every broker has an address.
    */
  lemma AllSampledIff(addrs: map<string, string>, rows: seq<Row>, out: Option<map<string, int>>)
    requires IsLatency(addrs, rows, out)
    ensures (out.Some? && out.value.Keys == Brokers(rows))
       <==> (forall r :: r in rows ==> Known(addrs, r) && !Fails(r))
  {
    if out.Some? && out.value.Keys == Brokers(rows) {
      forall r | r in rows ensures Known(addrs, r) && !Fails(r) {
        assert r.broker in Brokers(rows);
        assert r.broker in Reached(addrs, rows);
      }
    }
    if forall r :: r in rows ==> Known(addrs, r) && !Fails(r) {
      assert Reached(addrs, rows) == Brokers(rows);
    }
  }

  /** A broker without an address is left out although its queues are in the stats. */
  lemma UnknownBrokerSkipped(r: Row)
    ensures IsLatency(map[], [r], Some(map[]))
    ensures Brokers([r]) == {r.broker}
  {
    assert Reached(map[], [r]) == {};
    assert r in [r];
  }

  // ---------------------------------------------------------------- one group

  datatype Published = Published(diff: int, offsets: map<string, int>, latency: Option<map<string, int>>)

  /**
    * What is published for one group and topic. The stats are parsed twice, the
    * second time (`again`) in an order of its own; stats that cannot be parsed
    * or hold no queue publish nothing.
    */
  method CollectGroup(addrs: map<string, string>, rows: Option<seq<Row>>, again: seq<Row>)
    returns (out: Option<Published>)
    requires rows.Some? ==> multiset(rows.value) == multiset(again)
    ensures out.Some? <==> rows.Some? && rows.value != []
    ensures out.Some? ==> IsOffsets(rows.value, out.value.offsets)
    ensures out.Some? ==> out.value.diff == Wrap(Sum(rows.value, Behind()))
    ensures out.Some? ==>
      Wrap(out.value.diff + SumOver(out.value.offsets, out.value.offsets.Keys)) == Wrap(Sum(rows.value, Stored()))
    ensures out.Some? ==> IsLatency(addrs, rows.value, out.value.latency)
  {
    if rows.None? || rows.value == [] { return None; }
    var diff := TotalDiff(again);
    var offsets := ConsumerOffsets(rows.value);
    var latency := Latency(addrs, rows.value);
    SumPermuted(rows.value, again, Behind());
    DiffBalances(rows.value, again, diff, offsets);
    return Some(Published(diff, offsets, latency));
  }

  // ---------------------------------------------------------------- topics

  datatype TopicRow = TopicRow(broker: string, maxOffset: int, updated: int)

  ghost function MaxOn(b: string): TopicRow -> int { (r: TopicRow) => if r.broker == b then r.maxOffset else 0 }

  ghost function TopicBrokers(rows: seq<TopicRow>): set<string> { set r | r in rows :: r.broker }

  function Stamp(ts: map<string, int>, b: string): int { if b in ts then ts[b] else 0 }

  /** The newest update of a broker's queues, never below the epoch. */
  ghost predicate IsNewest(rows: seq<TopicRow>, b: string, t: int) {
    && t >= 0
    && (forall r :: r in rows && r.broker == b ==> r.updated <= t)
    && (t > 0 ==> exists r :: r in rows && r.broker == b && r.updated == t)
  }

  ghost predicate IsTopicOffsets(rows: seq<TopicRow>, m: map<string, int>) {
    && m.Keys == TopicBrokers(rows)
    && forall b :: b in m ==> m[b] == Wrap(Sum(rows, MaxOn(b)))
  }

  ghost predicate IsStamps(rows: seq<TopicRow>, ts: map<string, int>) {
    forall b :: IsNewest(rows, b, Stamp(ts, b))
  }

  method TopicOffsets(rows: seq<TopicRow>) returns (offsets: map<string, int>, stamps: map<string, int>)
    ensures IsTopicOffsets(rows, offsets) && IsStamps(rows, stamps)
  {
    offsets, stamps := map[], map[];
    for i := 0 to |rows|
      invariant IsTopicOffsets(rows[..i], offsets) && IsStamps(rows[..i], stamps)
    {
      var b := rows[i].broker;
      TopicStep(rows, i, offsets);
      StampStep(rows, i, stamps);
      offsets := Added(offsets, b, rows[i].maxOffset);
      if rows[i].updated > Stamp(stamps, b) {
        stamps := stamps[b := rows[i].updated];
      }
    }
    assert rows[..|rows|] == rows;
  }

  lemma TopicStep(rows: seq<TopicRow>, i: nat, m: map<string, int>)
    requires i < |rows| && IsTopicOffsets(rows[..i], m)
    ensures IsTopicOffsets(rows[..i + 1], Added(m, rows[i].broker, rows[i].maxOffset))
  {
    var done, r := rows[..i], rows[i];
    assert rows[..i + 1] == done + [r];
    var n := Added(m, r.broker, r.maxOffset);
    assert n.Keys == TopicBrokers(done + [r]);
    forall b | b in n ensures n[b] == Wrap(Sum(done + [r], MaxOn(b))) { TopicAt(done, r, m, b); }
  }

  lemma TopicAt(done: seq<TopicRow>, r: TopicRow, m: map<string, int>, b: string)
    requires IsTopicOffsets(done, m) && b in Added(m, r.broker, r.maxOffset)
    ensures Added(m, r.broker, r.maxOffset)[b] == Wrap(Sum(done + [r], MaxOn(b)))
  {
    assert (done + [r])[..|done|] == done;
    if b == r.broker {
      if b !in m { NoTopicOn(done, b); }
      WrapAdd(Sum(done, MaxOn(b)), r.maxOffset);
    }
  }

  function Newer(ts: map<string, int>, b: string, t: int): map<string, int> {
    if t > Stamp(ts, b) then ts[b := t] else ts
  }

  lemma StampStep(rows: seq<TopicRow>, i: nat, ts: map<string, int>)
    requires i < |rows| && IsStamps(rows[..i], ts)
    ensures IsStamps(rows[..i + 1], Newer(ts, rows[i].broker, rows[i].updated))
  {
    var done, r := rows[..i], rows[i];
    assert rows[..i + 1] == done + [r];
    forall b ensures IsNewest(done + [r], b, Stamp(Newer(ts, r.broker, r.updated), b)) { NewestStep(done, r, ts, b); }
  }

  lemma NewestStep(done: seq<TopicRow>, r: TopicRow, stamps: map<string, int>, b: string)
    requires IsNewest(done, b, Stamp(stamps, b))
    ensures IsNewest(done + [r], b, Stamp(Newer(stamps, r.broker, r.updated), b))
  {
    assert r in done + [r];
    forall x | x in done ensures x in done + [r] {}
  }

  lemma {:induction false} NoTopicOn(rows: seq<TopicRow>, b: string)
    requires b !in TopicBrokers(rows)
    ensures Sum(rows, MaxOn(b)) == 0
  {
    if rows != [] {
      assert rows[|rows| - 1] in rows;
      assert TopicBrokers(rows[..|rows| - 1]) <= TopicBrokers(rows);
      NoTopicOn(rows[..|rows| - 1], b);
    }
  }

  lemma TopicIgnoresOrder(rows: seq<TopicRow>, again: seq<TopicRow>, m: map<string, int>, n: map<string, int>,
                          s: map<string, int>, t: map<string, int>)
    requires multiset(rows) == multiset(again)
    requires IsTopicOffsets(rows, m) && IsTopicOffsets(again, n) && IsStamps(rows, s) && IsStamps(again, t)
    ensures m == n && forall b :: Stamp(s, b) == Stamp(t, b)
  {
    SameRows(rows, again);
    forall b | b in m ensures m[b] == n[b] { SumPermuted(rows, again, MaxOn(b)); }
    forall b ensures Stamp(s, b) == Stamp(t, b) {
      assert IsNewest(rows, b, Stamp(s, b)) && IsNewest(again, b, Stamp(t, b));
    }
  }
}
