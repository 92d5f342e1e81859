/** The pooled remoting client as a transition system: callers of InvokeSync, connections that
    are byte streams in both directions, and a server that answers each request frame it has
    received once and in order. A step is a look-up of the pool map, a channel operation, one socket
    call, or something the server or the network does. */
module ConnPool {
  import opened Bytes
  import opened Codec
  import opened CodecLaws

  const POOL_SIZE := 32

  type Addr = string
  type Conn = nat
  type Caller = nat

  /** A pool is a channel. Shutdown drains the channels of the map and starts an empty map, so the
      channel of an address is told apart by the number of shutdowns before it was made. */
  datatype Chan = Chan(addr: Addr, epoch: nat)

  /** Where a connection is: cached in the channel of an epoch, in the hands of one caller, or closed. */
  datatype Place = InPool(epoch: nat) | HeldBy(t: Caller) | Closed

  /** `sent` are the bytes the client wrote, `served` the answers the server has produced, `wire`
      the part of them that has arrived and `read` how much of that the client has consumed.
      `reqs` records the requests written in full and `writers` the calls that wrote them. */
  datatype Stream = Stream(addr: Addr, place: Place, sent: bytes, reqs: seq<bytes>, writers: seq<Caller>,
                           served: seq<bytes>, wire: bytes, read: nat)

  /** invokeOnConn and what follows it. */
  datatype Stage = ToWrite | ToReadLength | ToReadBody(n: nat) | ToPut(resp: bytes) | Putting(resp: bytes, epoch: nat) | ToClose

  datatype CallPc =
    | Taking | TakingFrom(epoch: nat) | Dialing
    | Using(conn: Conn, pooled: bool, stage: Stage)
    | Failed
    | Done(resp: bytes, conn: Conn, k: nat)

  /** One InvokeSync: `req` is the payload of the encoded command. */
  datatype Call = Call(addr: Addr, req: bytes, pc: CallPc)

  datatype State = State(calls: map<Caller, Call>, conns: map<Conn, Stream>, pools: map<Chan, seq<Conn>>, epoch: nat)

  const INIT := State(map[], map[], map[], 0)

  datatype Action =
    | Begin(t: Caller, addr: Addr, req: bytes)
    | Take(t: Caller) | Dial(t: Caller, conn: Conn) | DialFails(t: Caller)
    | Use(t: Caller, u: UseAct)
    | Serve(conn: Conn, reply: bytes) | Deliver(conn: Conn, upTo: nat)
    | Shutdown

  /** A socket call succeeds or fails; a failed write may have got `n` bytes out, a failed read may
      have taken some; `decodes` says whether the payload decodes. */
  datatype UseAct = Succeeds(decodes: bool) | Fails(n: nat)

  function Pool(s: State, ch: Chan): seq<Conn> { if ch in s.pools then s.pools[ch] else [] }

  function Next(s: State, a: Action): Option<State> {
    match a
    case Begin(t, addr, req) =>
      if t !in s.calls && Sendable(req) then Some(s.(calls := s.calls[t := Call(addr, req, Taking)])) else None
    case Take(t) =>
      if t in s.calls && s.calls[t].pc.Taking? then Some(s.(calls := s.calls[t := s.calls[t].(pc := TakingFrom(s.epoch))]))
      else if t in s.calls && s.calls[t].pc.TakingFrom? then Some(DoTake(s, t))
      else None
    case Dial(t, conn) =>
      if t in s.calls && s.calls[t].pc.Dialing? && conn !in s.conns then
        Some(s.(conns := s.conns[conn := Stream(s.calls[t].addr, HeldBy(t), [], [], [], [], [], 0)],
                calls := s.calls[t := s.calls[t].(pc := Using(conn, false, ToWrite))]))
      else None
    case DialFails(t) =>
      if t in s.calls && s.calls[t].pc.Dialing? then Some(s.(calls := s.calls[t := s.calls[t].(pc := Failed)])) else None
    case Use(t, u) =>
      if t in s.calls && s.calls[t].pc.Using? && s.calls[t].pc.conn in s.conns then DoUse(s, t, u) else None
    case Serve(conn, reply) =>
      if conn in s.conns && Sendable(reply) && |s.conns[conn].served| < |Received(s.conns[conn].sent)|
      then Some(s.(conns := s.conns[conn := s.conns[conn].(served := s.conns[conn].served + [reply])])) else None
    case Deliver(conn, upTo) =>
      if conn in s.conns && |s.conns[conn].wire| <= upTo <= |Concat(s.conns[conn].served)|
      then Some(s.(conns := s.conns[conn := s.conns[conn].(wire := Concat(s.conns[conn].served)[..upTo])])) else None
    case Shutdown =>
      Some(s.(pools := map ch | ch in s.pools && ch.epoch != s.epoch :: s.pools[ch],
              conns := map c | c in s.conns :: CloseIfPooled(s, c), epoch := s.epoch + 1))
  }

  /** The complete request frames at the front of what the server has received. */
  function Received(s: bytes): (r: seq<bytes>)
    decreases |s|
  {
    if |s| < 4 then []
    else
      var n := Get4(s[..4]) as int;
      if n <= 0 || |s[4..]| < n then [] else [s[4..][..n]] + Received(s[4..][n..])
  }

  /** Shutdown drains every channel of the map and closes what it finds. */
  function CloseIfPooled(s: State, c: Conn): Stream
    requires c in s.conns
  {
    if c in Pool(s, Chan(s.conns[c].addr, s.epoch)) then s.conns[c].(place := Closed) else s.conns[c]
  }

  /** takeConn on the channel it looked up: the first cached connection, else a fresh dial. */
  function DoTake(s: State, t: Caller): State
    requires t in s.calls && s.calls[t].pc.TakingFrom?
  {
    var call := s.calls[t];
    var ch := Chan(call.addr, call.pc.epoch);
    var pool := Pool(s, ch);
    if pool == [] || pool[0] !in s.conns then s.(calls := s.calls[t := call.(pc := Dialing)])
    else
      var c := pool[0];
      s.(pools := s.pools[ch := pool[1..]],
         conns := s.conns[c := s.conns[c].(place := HeldBy(t))],
         calls := s.calls[t := call.(pc := Using(c, true, ToWrite))])
  }

  function DoUse(s: State, t: Caller, u: UseAct): Option<State>
    requires t in s.calls && s.calls[t].pc.Using? && s.calls[t].pc.conn in s.conns
  {
    var call := s.calls[t];
    var c := call.pc.conn;
    var r := UseConn(t, s.epoch, call.req, call.pc.stage, s.conns[c], u);
    if call.pc.stage.Putting? then Some(DoPut(s, t))
    else if call.pc.stage.ToClose? then
      Some(s.(conns := s.conns[c := s.conns[c].(place := Closed)],
              calls := s.calls[t := call.(pc := if call.pc.pooled then Dialing else Failed)]))
    else if r.None? then None
    else Some(s.(conns := s.conns[c := r.value.0], calls := s.calls[t := call.(pc := call.pc.(stage := r.value.1))]))
  }

  /** One step of invokeOnConn on the connection it owns. */
  function UseConn(t: Caller, epoch: nat, req: bytes, stage: Stage, k: Stream, u: UseAct): Option<(Stream, Stage)> {
    match stage
    case ToWrite =>
      var frame := Frame(req);
      if u.Succeeds? then Some((k.(sent := k.sent + frame, reqs := k.reqs + [req], writers := k.writers + [t]), ToReadLength))
      else if u.n < |frame| then Some((k.(sent := k.sent + frame[..u.n]), ToClose))
      else None
    case ToReadLength =>
      if u.Fails? then Some((k.(read := k.read + u.n), ToClose))
      else if |k.wire| < k.read + 4 then None
      else
        var n := Get4(k.wire[k.read..k.read + 4]) as int;
        Some((k.(read := k.read + 4), if n <= 0 then ToClose else ToReadBody(n)))
    case ToReadBody(n) =>
      if u.Fails? then Some((k.(read := k.read + u.n), ToClose))
      else if |k.wire| < k.read + n then None
      else Some((k.(read := k.read + n), if u.decodes then ToPut(k.wire[k.read..k.read + n]) else ToClose))
    case ToPut(resp) => Some((k, Putting(resp, epoch)))
    case _ => None
  }

  /** putConn on the channel it looked up: back into it, or closed if it is full. */
  function DoPut(s: State, t: Caller): State
    requires t in s.calls && s.calls[t].pc.Using? && s.calls[t].pc.stage.Putting? && s.calls[t].pc.conn in s.conns
  {
    var call := s.calls[t];
    var c := call.pc.conn;
    var ch := Chan(call.addr, call.pc.stage.epoch);
    var pool := Pool(s, ch);
    var last := if |s.conns[c].reqs| > 0 then |s.conns[c].reqs| - 1 else 0;
    var s' := s.(calls := s.calls[t := call.(pc := Done(call.pc.stage.resp, c, last))]);
    if |pool| < POOL_SIZE
    then s'.(pools := s.pools[ch := pool + [c]], conns := s.conns[c := s.conns[c].(place := InPool(ch.epoch))])
    else s'.(conns := s.conns[c := s.conns[c].(place := Closed)])
  }

  // ---- Invariants ----

  /** Nothing is outstanding: every request is answered and every answer consumed. */
  predicate Clean(k: Stream) {
    && k.sent == Concat(k.reqs) && |k.served| == |k.reqs|
    && k.wire == Concat(k.served) && k.read == |k.wire|
  }

  /** One request is outstanding, and exactly the answers to the earlier ones are consumed. */
  predicate Awaiting(k: Stream, req: bytes) {
    && k.sent == Concat(k.reqs) && k.reqs != [] && k.reqs[|k.reqs| - 1] == req
    && (|k.served| == |k.reqs| || |k.served| == |k.reqs| - 1)
    && k.wire <= Concat(k.served) && k.read == |Concat(k.served[..|k.reqs| - 1])|
  }

  predicate StageOk(k: Stream, req: bytes, stage: Stage) {
    match stage
    case ToWrite => Clean(k)
    case ToReadLength => Awaiting(k, req)
    case ToReadBody(n) =>
      && |k.served| == |k.reqs| > 0 && n == |k.served[|k.reqs| - 1]|
      && k.read >= 4 && Awaiting(k.(read := k.read - 4), req)
    case ToPut(resp) => Answered(k, req, resp)
    case Putting(resp, _) => Answered(k, req, resp)
    case ToClose => true
  }

  /** The outstanding request has been answered, and the answer consumed. */
  predicate Answered(k: Stream, req: bytes, resp: bytes) {
    Clean(k) && k.reqs != [] && k.reqs[|k.reqs| - 1] == req && k.served[|k.reqs| - 1] == resp
  }

  predicate AllSendable(p: seq<bytes>) { forall i :: 0 <= i < |p| ==> Sendable(p[i]) }

  predicate ConnOk(s: State, c: Conn) {
    c in s.conns ==>
      var k := s.conns[c];
      && AllSendable(k.served) && AllSendable(k.reqs) && Concat(k.reqs) <= k.sent
      && (k.place.InPool? ==> c in Pool(s, Chan(k.addr, k.place.epoch)) && k.place.epoch <= s.epoch && Clean(k))
      && (k.place.HeldBy? ==> k.place.t in s.calls && s.calls[k.place.t].pc.Using? && s.calls[k.place.t].pc.conn == c)
  }

  predicate CallOk(s: State, t: Caller) {
    t in s.calls ==>
      var call := s.calls[t];
      && Sendable(call.req)
      && (call.pc.TakingFrom? ==> call.pc.epoch <= s.epoch)
      && (call.pc.Using? && call.pc.stage.Putting? ==> call.pc.stage.epoch <= s.epoch)
      && (call.pc.Using? ==>
            && call.pc.conn in s.conns
            && (var k := s.conns[call.pc.conn];
                k.place == HeldBy(t) && k.addr == call.addr && StageOk(k, call.req, call.pc.stage)))
      && (call.pc.Done? ==>
            && call.pc.conn in s.conns
            && (var k := s.conns[call.pc.conn];
                && k.addr == call.addr
                && call.pc.k < |k.reqs| && k.reqs[call.pc.k] == call.req
                && call.pc.k < |k.served| && k.served[call.pc.k] == call.pc.resp))
  }

  predicate PoolOk(s: State, ch: Chan) {
    var p := Pool(s, ch);
    && |p| <= POOL_SIZE
    && (forall i, j :: 0 <= i < j < |p| ==> p[i] != p[j])
    && (forall i :: 0 <= i < |p| ==> p[i] in s.conns && s.conns[p[i]].place == InPool(ch.epoch) && s.conns[p[i]].addr == ch.addr)
  }

  ghost predicate Inv(s: State) {
    && (forall c: Conn :: ConnOk(s, c))
    && (forall t: Caller :: CallOk(s, t))
    && (forall ch: Chan :: PoolOk(s, ch))
  }

  // ---- Streams ----

  lemma {:induction false} ConcatAppend(p: seq<bytes>, x: bytes)
    ensures Concat(p + [x]) == Concat(p) + Frame(x)
  {
    if p == [] {
      assert (p + [x])[1..] == [];
    } else {
      assert (p + [x])[1..] == p[1..] + [x];
      ConcatAppend(p[1..], x);
      assert Frame(p[0]) + (Concat(p[1..]) + Frame(x)) == Frame(p[0]) + Concat(p[1..]) + Frame(x);
    }
  }

  lemma {:induction false} ReceivedPrefix(p: seq<bytes>, t: bytes)
    requires AllSendable(p)
    ensures Received(Concat(p) + t) == p + Received(t)
  {
    if p == [] {
      assert Concat(p) + t == t;
    } else {
      assert Concat(p) + t == Frame(p[0]) + (Concat(p[1..]) + t);
      ReceivedFrame(p[0], Concat(p[1..]) + t);
      ReceivedPrefix(p[1..], t);
      assert [p[0]] + (p[1..] + Received(t)) == p + Received(t);
    }
  }

  lemma ReceivedFrame(x: bytes, t: bytes)
    requires Sendable(x)
    ensures Received(Frame(x) + t) == [x] + Received(t)
  {
    ReadFrame(x, t);
  }

  lemma ReceivedConcat(p: seq<bytes>)
    requires AllSendable(p)
    ensures Received(Concat(p)) == p
  {
    ReceivedPrefix(p, []);
    assert Concat(p) + [] == Concat(p);
  }

  lemma Written(k: Stream, t: Caller, req: bytes)
    requires Clean(k)
    ensures Awaiting(k.(sent := k.sent + Frame(req), reqs := k.reqs + [req], writers := k.writers + [t]), req)
  {
    ConcatAppend(k.reqs, req);
    assert k.served[..|k.reqs|] == k.served;
  }

  lemma Whole(p: seq<bytes>)
    ensures p[..|p|] == p
  {
  }

  /** The length word that can be read is that of the answer to the outstanding request. */
  lemma LengthRead(k: Stream, req: bytes)
    requires Awaiting(k, req) && AllSendable(k.served) && |k.wire| >= k.read + 4
    ensures |k.served| == |k.reqs|
    ensures Get4(k.wire[k.read..k.read + 4]) as int == |k.served[|k.reqs| - 1]|
  {
    var n := |k.reqs| - 1;
    Whole(k.served);
    var early, answer := k.served[..n], k.served[n];
    assert k.served == early + [answer];
    ConcatAppend(early, answer);
    ReadFrame(answer, []);
    assert k.wire[k.read..k.read + 4] == Frame(answer)[..4];
    assert (Frame(answer) + [])[..4] == Frame(answer)[..4];
  }

  /** The body that is read is that answer, and nothing is left behind it. */
  lemma BodyRead(k: Stream, req: bytes, n: nat)
    requires StageOk(k, req, ToReadBody(n)) && AllSendable(k.served) && |k.wire| >= k.read + n
    ensures k.wire[k.read..k.read + n] == k.served[|k.reqs| - 1]
    ensures Clean(k.(read := k.read + n))
  {
    var m := |k.reqs| - 1;
    var early, answer := k.served[..m], k.served[m];
    assert k.served == early + [answer];
    ConcatAppend(early, answer);
    assert |Frame(answer)| == 4 + n;
    assert k.wire == Concat(k.served);
    assert Frame(answer)[4..] == answer;
    assert k.wire[k.read..k.read + n] == Frame(answer)[4..];
  }

  lemma ServedWhileAwaiting(k: Stream, req: bytes, reply: bytes)
    requires Awaiting(k, req) && AllSendable(k.reqs) && |k.served| < |Received(k.sent)|
    ensures Awaiting(k.(served := k.served + [reply]), req) && |k.served| == |k.reqs| - 1
  {
    ReceivedConcat(k.reqs);
    ConcatAppend(k.served, reply);
    assert (k.served + [reply])[..|k.reqs| - 1] == k.served[..|k.reqs| - 1];
  }

  lemma NotServedWhenClean(k: Stream)
    requires Clean(k) && AllSendable(k.reqs)
    ensures !(|k.served| < |Received(k.sent)|)
  {
    ReceivedConcat(k.reqs);
  }

  /** A step on a held connection leaves it fit for the stage that follows. */
  predicate UseKeeps(req: bytes, k: Stream, k': Stream, stage': Stage) {
    && StageOk(k', req, stage') && AllSendable(k'.reqs) && Concat(k'.reqs) <= k'.sent
    && k'.served == k.served && k.reqs <= k'.reqs && k'.addr == k.addr && k'.place == k.place
  }

  lemma UseOk(t: Caller, e: nat, req: bytes, stage: Stage, k: Stream, u: UseAct)
    requires Sendable(req) && StageOk(k, req, stage) && AllSendable(k.served) && AllSendable(k.reqs)
    requires Concat(k.reqs) <= k.sent
    requires UseConn(t, e, req, stage, k, u).Some?
    ensures var r := UseConn(t, e, req, stage, k, u).value; UseKeeps(req, k, r.0, r.1)
  {
    match stage
    case ToWrite => WriteOk(t, e, req, k, u);
    case ToReadLength => LengthOk(t, e, req, k, u);
    case ToReadBody(n) => BodyOk(t, e, req, n, k, u);
    case _ =>
  }

  lemma LengthOk(t: Caller, e: nat, req: bytes, k: Stream, u: UseAct)
    requires StageOk(k, req, ToReadLength) && AllSendable(k.served) && AllSendable(k.reqs) && Concat(k.reqs) <= k.sent
    requires UseConn(t, e, req, ToReadLength, k, u).Some?
    ensures var r := UseConn(t, e, req, ToReadLength, k, u).value; UseKeeps(req, k, r.0, r.1)
  {
    if u.Succeeds? { LengthRead(k, req); }
  }

  lemma BodyOk(t: Caller, e: nat, req: bytes, n: nat, k: Stream, u: UseAct)
    requires StageOk(k, req, ToReadBody(n)) && AllSendable(k.served) && AllSendable(k.reqs) && Concat(k.reqs) <= k.sent
    requires UseConn(t, e, req, ToReadBody(n), k, u).Some?
    ensures var r := UseConn(t, e, req, ToReadBody(n), k, u).value; UseKeeps(req, k, r.0, r.1)
  {
    if u.Succeeds? { BodyRead(k, req, n); }
  }

  lemma WriteOk(t: Caller, e: nat, req: bytes, k: Stream, u: UseAct)
    requires Sendable(req) && Clean(k) && AllSendable(k.served) && AllSendable(k.reqs)
    requires UseConn(t, e, req, ToWrite, k, u).Some?
    ensures var r := UseConn(t, e, req, ToWrite, k, u).value; UseKeeps(req, k, r.0, r.1)
  {
    if u.Succeeds? { Written(k, t, req); }
  }

  // ---- Every step keeps the invariant ----

  /** Only one call changes, and it holds no connection before or after. */
  predicate CallMoves(s: State, s': State, t: Caller) {
    && t in s'.calls && s' == s.(calls := s.calls[t := s'.calls[t]])
    && (t in s.calls ==> !s.calls[t].pc.Using? && !s.calls[t].pc.Done?)
    && !s'.calls[t].pc.Using? && !s'.calls[t].pc.Done? && Sendable(s'.calls[t].req)
    && (s'.calls[t].pc.TakingFrom? ==> s'.calls[t].pc.epoch == s.epoch)
  }

  lemma CallMovesInv(s: State, s': State, t: Caller)
    requires Inv(s) && CallMoves(s, s', t)
    ensures Inv(s')
  {
    forall c: Conn ensures ConnOk(s', c) { assert ConnOk(s, c); }
    forall u: Caller ensures CallOk(s', u) { assert CallOk(s, u); }
    forall ch: Chan ensures PoolOk(s', ch) { assert PoolOk(s, ch); }
  }

  /** The server or the network changes a stream. */
  ghost predicate StreamMoves(s: State, s': State, c: Conn) {
    && c in s.conns && c in s'.conns && s' == s.(conns := s.conns[c := s'.conns[c]])
    && (var k, k' := s.conns[c], s'.conns[c];
        && k'.addr == k.addr && k'.place == k.place && k'.reqs == k.reqs && k'.sent == k.sent && k.served <= k'.served
        && AllSendable(k'.served) && (Clean(k) ==> Clean(k'))
        && (forall req, stage :: StageOk(k, req, stage) ==> StageOk(k', req, stage)))
  }

  lemma StreamMovesInv(s: State, s': State, c: Conn)
    requires Inv(s) && StreamMoves(s, s', c)
    ensures Inv(s')
  {
    assert ConnOk(s, c);
    forall d: Conn ensures ConnOk(s', d) { assert ConnOk(s, d); }
    forall u: Caller ensures CallOk(s', u) { assert CallOk(s, u); }
    forall ch: Chan ensures PoolOk(s', ch) { assert PoolOk(s, ch); }
  }

  lemma ServeMoves(s: State, c: Conn, reply: bytes)
    requires ConnOk(s, c) && Next(s, Serve(c, reply)).Some?
    ensures StreamMoves(s, Next(s, Serve(c, reply)).value, c)
  {
    var k := s.conns[c];
    var k' := k.(served := k.served + [reply]);
    if Clean(k) { NotServedWhenClean(k); }
    forall req, stage | StageOk(k, req, stage) ensures StageOk(k', req, stage) {
      match stage
      case ToWrite => NotServedWhenClean(k);
      case ToReadLength => ServedWhileAwaiting(k, req, reply);
      case ToReadBody(n) => ServedWhileAwaiting(k.(read := k.read - 4), req, reply);
      case ToPut(resp) => NotServedWhenClean(k);
      case Putting(resp, _) => NotServedWhenClean(k);
      case ToClose =>
    }
  }

  lemma DeliverMoves(s: State, c: Conn, upTo: nat)
    requires ConnOk(s, c) && Next(s, Deliver(c, upTo)).Some?
    ensures StreamMoves(s, Next(s, Deliver(c, upTo)).value, c)
  {
    var k := s.conns[c];
    assert Clean(k) ==> Concat(k.served)[..upTo] == k.wire;
  }

  /** A call works on the connection it holds; nobody else sees it. */
  predicate HolderMoves(s: State, s': State, t: Caller, c: Conn) {
    && t in s.calls && t in s'.calls && c in s.conns && c in s'.conns
    && s' == s.(calls := s.calls[t := s'.calls[t]], conns := s.conns[c := s'.conns[c]])
    && s.calls[t].pc.Using? && s.calls[t].pc.conn == c
    && (var k, k' := s.conns[c], s'.conns[c];
        && k'.addr == k.addr && k.reqs <= k'.reqs && k'.served == k.served
        && AllSendable(k'.reqs) && Concat(k'.reqs) <= k'.sent
        && s'.calls[t] == s.calls[t].(pc := s'.calls[t].pc)
        && if k'.place == Closed then !s'.calls[t].pc.Using? && !s'.calls[t].pc.Done? && !s'.calls[t].pc.TakingFrom?
           else && k'.place == k.place && s'.calls[t].pc.Using? && s'.calls[t].pc.conn == c
                && StageOk(k', s.calls[t].req, s'.calls[t].pc.stage)
                && (s'.calls[t].pc.stage.Putting? ==> s'.calls[t].pc.stage.epoch == s.epoch))
  }

  lemma HolderMovesInv(s: State, s': State, t: Caller, c: Conn)
    requires Inv(s) && HolderMoves(s, s', t, c)
    ensures Inv(s')
  {
    assert CallOk(s, t) && ConnOk(s, c);
    forall d: Conn ensures ConnOk(s', d) { assert ConnOk(s, d); }
    forall u: Caller ensures CallOk(s', u) { HolderMovesCall(s, s', t, c, u); }
    forall ch: Chan ensures PoolOk(s', ch) { assert PoolOk(s, ch); }
  }

  lemma HolderMovesCall(s: State, s': State, t: Caller, c: Conn, u: Caller)
    requires HolderMoves(s, s', t, c) && CallOk(s, t) && ConnOk(s, c) && CallOk(s, u)
    ensures CallOk(s', u)
  {
  }

  lemma UseMoves(s: State, t: Caller, u: UseAct)
    requires t in s.calls && s.calls[t].pc.Using? && s.calls[t].pc.conn in s.conns && !s.calls[t].pc.stage.Putting?
    requires CallOk(s, t) && ConnOk(s, s.calls[t].pc.conn) && DoUse(s, t, u).Some?
    ensures HolderMoves(s, DoUse(s, t, u).value, t, s.calls[t].pc.conn)
  {
    var call := s.calls[t];
    if !call.pc.stage.ToClose? { UseOk(t, s.epoch, call.req, call.pc.stage, s.conns[call.pc.conn], u); }
  }

  lemma DialInv(s: State, s': State, t: Caller, c: Conn)
    requires Inv(s) && Next(s, Dial(t, c)) == Some(s')
    ensures Inv(s')
  {
    assert CallOk(s, t);
    forall d: Conn ensures ConnOk(s', d) { assert ConnOk(s, d); }
    forall u: Caller ensures CallOk(s', u) { assert CallOk(s, u); }
    forall ch: Chan ensures PoolOk(s', ch) { assert PoolOk(s, ch); }
  }

  /** A cached connection passes from its channel to one caller. */
  predicate Takes(s: State, s': State, t: Caller, c: Conn, ch: Chan) {
    && t in s.calls && s.calls[t].pc.TakingFrom? && ch == Chan(s.calls[t].addr, s.calls[t].pc.epoch)
    && Pool(s, ch) != [] && Pool(s, ch)[0] == c && c in s.conns
    && s' == State(s.calls[t := s.calls[t].(pc := Using(c, true, ToWrite))],
                   s.conns[c := s.conns[c].(place := HeldBy(t))],
                   s.pools[ch := Pool(s, ch)[1..]], s.epoch)
  }

  lemma TakesInv(s: State, s': State, t: Caller, c: Conn, ch: Chan)
    requires Inv(s) && Takes(s, s', t, c, ch)
    ensures Inv(s')
  {
    assert PoolOk(s, ch) && CallOk(s, t) && ConnOk(s, c);
    forall d: Conn ensures ConnOk(s', d) { TakesConn(s, s', t, c, ch, d); }
    forall u: Caller ensures CallOk(s', u) { assert CallOk(s, u); }
    forall h: Chan ensures PoolOk(s', h) { TakesPool(s, s', t, c, ch, h); }
  }

  lemma TakesConn(s: State, s': State, t: Caller, c: Conn, ch: Chan, d: Conn)
    requires Takes(s, s', t, c, ch) && ConnOk(s, d) && PoolOk(s, ch)
    ensures ConnOk(s', d)
  {
    if d in s.conns && d != c && s.conns[d].place.InPool? && Chan(s.conns[d].addr, s.conns[d].place.epoch) == ch {
      var p := Pool(s, ch);
      var i :| 0 <= i < |p| && p[i] == d;
      assert p[1..][i - 1] == d;
    }
  }

  lemma TakesPool(s: State, s': State, t: Caller, c: Conn, ch: Chan, h: Chan)
    requires Takes(s, s', t, c, ch) && PoolOk(s, h) && PoolOk(s, ch)
    ensures PoolOk(s', h)
  {
  }

  lemma PutInv(s: State, t: Caller)
    requires Inv(s) && t in s.calls && s.calls[t].pc.Using? && s.calls[t].pc.stage.Putting? && s.calls[t].pc.conn in s.conns
    ensures Inv(DoPut(s, t))
  {
    var s', c := DoPut(s, t), s.calls[t].pc.conn;
    assert CallOk(s, t) && ConnOk(s, c) && PoolOk(s, Chan(s.calls[t].addr, s.calls[t].pc.stage.epoch));
    forall d: Conn ensures ConnOk(s', d) {
      assert ConnOk(s, d);
      PutConn(s, t, d);
    }
    forall u: Caller ensures CallOk(s', u) { PutCall(s, t, u); }
    forall ch: Chan ensures PoolOk(s', ch) { PutPool(s, t, ch); }
  }

  lemma PutConn(s: State, t: Caller, d: Conn)
    requires t in s.calls && s.calls[t].pc.Using? && s.calls[t].pc.stage.Putting? && s.calls[t].pc.conn in s.conns
    requires CallOk(s, t) && ConnOk(s, s.calls[t].pc.conn) && ConnOk(s, d)
    ensures ConnOk(DoPut(s, t), d)
  {
  }

  lemma PutCall(s: State, t: Caller, u: Caller)
    requires t in s.calls && s.calls[t].pc.Using? && s.calls[t].pc.stage.Putting? && s.calls[t].pc.conn in s.conns
    requires CallOk(s, t) && CallOk(s, u)
    ensures CallOk(DoPut(s, t), u)
  {
  }

  lemma PutPool(s: State, t: Caller, ch: Chan)
    requires t in s.calls && s.calls[t].pc.Using? && s.calls[t].pc.stage.Putting? && s.calls[t].pc.conn in s.conns
    requires CallOk(s, t) && PoolOk(s, ch)
    ensures PoolOk(DoPut(s, t), ch)
  {
  }

  lemma ShutdownInv(s: State, s': State)
    requires Inv(s) && Next(s, Shutdown) == Some(s')
    ensures Inv(s')
  {
    forall c: Conn ensures ConnOk(s', c) { ShutdownConn(s, s', c); }
    forall u: Caller ensures CallOk(s', u) { ShutdownCall(s, s', u); }
    forall ch: Chan ensures PoolOk(s', ch) { ShutdownPool(s, s', ch); }
  }

  /** Shutdown closes exactly what the channels of its map hold. */
  lemma ShutdownConn(s: State, s': State, c: Conn)
    requires Inv(s) && Next(s, Shutdown) == Some(s')
    ensures ConnOk(s', c)
    ensures c in s'.conns <==> c in s.conns
    ensures c in s.conns ==>
      s'.conns[c] == if s.conns[c].place == InPool(s.epoch) then s.conns[c].(place := Closed) else s.conns[c]
  {
    assert ConnOk(s, c);
    if c in s.conns { assert PoolOk(s, Chan(s.conns[c].addr, s.epoch)); }
  }

  lemma ShutdownCall(s: State, s': State, u: Caller)
    requires Inv(s) && Next(s, Shutdown) == Some(s')
    ensures CallOk(s', u)
  {
    assert CallOk(s, u);
    if u in s.calls && (s.calls[u].pc.Using? || s.calls[u].pc.Done?) { ShutdownConn(s, s', s.calls[u].pc.conn); }
  }

  lemma ShutdownPool(s: State, s': State, ch: Chan)
    requires Inv(s) && Next(s, Shutdown) == Some(s')
    ensures PoolOk(s', ch)
  {
    assert PoolOk(s, ch);
    var p := Pool(s', ch);
    forall i | 0 <= i < |p| ensures p[i] in s'.conns && s'.conns[p[i]].place == InPool(ch.epoch) && s'.conns[p[i]].addr == ch.addr {
      ShutdownConn(s, s', p[i]);
    }
  }

  lemma TakeInv(s: State, t: Caller)
    requires Inv(s) && t in s.calls && s.calls[t].pc.TakingFrom?
    ensures Inv(DoTake(s, t))
  {
    var ch := Chan(s.calls[t].addr, s.calls[t].pc.epoch);
    assert CallOk(s, t) && PoolOk(s, ch);
    if Pool(s, ch) == [] { CallMovesInv(s, DoTake(s, t), t); } else { TakesInv(s, DoTake(s, t), t, Pool(s, ch)[0], ch); }
  }

  lemma StepInv(s: State, a: Action)
    requires Inv(s) && Next(s, a).Some?
    ensures Inv(Next(s, a).value)
  {
    var s' := Next(s, a).value;
    match a
    case Begin(t, _, _) => CallMovesInv(s, s', t);
    case Take(t) =>
      assert CallOk(s, t);
      if s.calls[t].pc.Taking? { CallMovesInv(s, s', t); } else { TakeInv(s, t); }
    case Dial(t, c) => DialInv(s, s', t, c);
    case DialFails(t) =>
      assert CallOk(s, t);
      CallMovesInv(s, s', t);
    case Use(t, u) =>
      if s.calls[t].pc.stage.Putting? {
        PutInv(s, t);
      } else {
        assert CallOk(s, t) && ConnOk(s, s.calls[t].pc.conn);
        UseMoves(s, t, u);
        HolderMovesInv(s, s', t, s.calls[t].pc.conn);
      }
    case Serve(c, reply) =>
      assert ConnOk(s, c);
      ServeMoves(s, c, reply);
      StreamMovesInv(s, s', c);
    case Deliver(c, upTo) =>
      assert ConnOk(s, c);
      DeliverMoves(s, c, upTo);
      StreamMovesInv(s, s', c);
    case Shutdown => ShutdownInv(s, s');
  }

  // ---- Every answer has one owner ----

  predicate Reading(stage: Stage) { stage.ToReadLength? || stage.ToReadBody? || stage.ToPut? || stage.Putting? }

  predicate WritersOk(s: State, c: Conn) { c in s.conns ==> |s.conns[c].writers| == |s.conns[c].reqs| }

  /** The outstanding request of a connection is its holder's, and the request behind the answer a
      call returned is that call's. */
  predicate OwnerOk(s: State, t: Caller) {
    t in s.calls ==>
      var pc := s.calls[t].pc;
      && (pc.Using? && Reading(pc.stage) ==>
            && pc.conn in s.conns
            && (var w := s.conns[pc.conn].writers; w != [] && w[|w| - 1] == t))
      && (pc.Done? ==>
            && pc.conn in s.conns && pc.k < |s.conns[pc.conn].writers| && s.conns[pc.conn].writers[pc.k] == t)
  }

  ghost predicate Owned(s: State) {
    (forall c: Conn :: WritersOk(s, c)) && (forall t: Caller :: OwnerOk(s, t))
  }

  /** What a step does to a connection's record: nothing, or the holder adds its own request. */
  predicate RecordMoves(s: State, s': State, c: Conn, t: Caller) {
    c in s.conns ==>
      && c in s'.conns
      && (var k, k' := s.conns[c], s'.conns[c];
          || (k'.reqs == k.reqs && k'.writers == k.writers)
          || (&& t in s.calls && s.calls[t].pc.Using? && s.calls[t].pc.conn == c
              && k'.reqs == k.reqs + [s.calls[t].req] && k'.writers == k.writers + [t]))
  }

  function Actor(a: Action): Option<Caller> {
    match a
    case Begin(t, _, _) => Some(t)
    case Take(t) => Some(t)
    case Dial(t, _) => Some(t)
    case DialFails(t) => Some(t)
    case Use(t, _) => Some(t)
    case _ => None
  }

  /** Only its own actions move a call. */
  lemma OthersStay(s: State, a: Action, u: Caller)
    requires Next(s, a).Some? && Actor(a) != Some(u)
    ensures var s' := Next(s, a).value; (u in s'.calls <==> u in s.calls) && (u in s.calls ==> s'.calls[u] == s.calls[u])
  {
  }

  lemma RecordStep(s: State, a: Action, c: Conn)
    requires Next(s, a).Some?
    ensures RecordMoves(s, Next(s, a).value, c, if a.Use? then a.t else 0)
    ensures c !in s.conns && c in Next(s, a).value.conns ==>
      Next(s, a).value.conns[c].reqs == [] && Next(s, a).value.conns[c].writers == []
  {
  }

  lemma OwnerStays(s: State, a: Action, u: Caller)
    requires Inv(s) && OwnerOk(s, u) && Next(s, a).Some? && Actor(a) != Some(u)
    ensures OwnerOk(Next(s, a).value, u)
  {
    OthersStay(s, a, u);
    if u in s.calls && (s.calls[u].pc.Using? || s.calls[u].pc.Done?) {
      var c := s.calls[u].pc.conn;
      assert CallOk(s, u);
      RecordStep(s, a, c);
      if a.Use? { assert CallOk(s, a.t); }
    }
  }

  lemma OwnerMoves(s: State, a: Action, t: Caller)
    requires Inv(s) && Owned(s) && Next(s, a).Some? && Actor(a) == Some(t)
    ensures OwnerOk(Next(s, a).value, t)
  {
    if a.Use? {
      assert CallOk(s, t) && OwnerOk(s, t) && WritersOk(s, s.calls[t].pc.conn);
      if s.calls[t].pc.stage.Putting? { OwnerPuts(s, t); } else { OwnerUses(s, t, a.u); }
    }
  }

  lemma OwnerPuts(s: State, t: Caller)
    requires t in s.calls && s.calls[t].pc.Using? && s.calls[t].pc.stage.Putting? && s.calls[t].pc.conn in s.conns
    requires CallOk(s, t) && OwnerOk(s, t) && WritersOk(s, s.calls[t].pc.conn)
    ensures OwnerOk(DoPut(s, t), t)
  {
  }

  lemma OwnerUses(s: State, t: Caller, u: UseAct)
    requires t in s.calls && s.calls[t].pc.Using? && !s.calls[t].pc.stage.Putting? && s.calls[t].pc.conn in s.conns
    requires OwnerOk(s, t) && DoUse(s, t, u).Some?
    ensures OwnerOk(DoUse(s, t, u).value, t)
  {
  }

  lemma StepOwned(s: State, a: Action)
    requires Inv(s) && Owned(s) && Next(s, a).Some?
    ensures Owned(Next(s, a).value)
  {
    var s' := Next(s, a).value;
    forall c: Conn ensures WritersOk(s', c) {
      assert WritersOk(s, c);
      RecordStep(s, a, c);
    }
    forall t: Caller ensures OwnerOk(s', t) {
      assert OwnerOk(s, t);
      if Actor(a) == Some(t) { OwnerMoves(s, a, t); } else { OwnerStays(s, a, t); }
    }
  }

  // ---- Runs ----

  ghost predicate Step(s: State, s': State) { exists a: Action :: Next(s, a) == Some(s') }

  ghost predicate StepAt(run: seq<State>, i: nat) { i + 1 < |run| ==> Step(run[i], run[i + 1]) }

  ghost predicate IsRun(run: seq<State>) { run != [] && run[0] == INIT && forall i: nat :: StepAt(run, i) }

  lemma {:induction false} RunInv(run: seq<State>, i: nat)
    requires IsRun(run) && i < |run|
    ensures Inv(run[i]) && Owned(run[i])
  {
    if i > 0 {
      RunInv(run, i - 1);
      assert StepAt(run, i - 1);
      var a :| Next(run[i - 1], a) == Some(run[i]);
      StepInv(run[i - 1], a);
      StepOwned(run[i - 1], a);
    }
  }

  /** Every successful call returned the answer to its own request: on the connection it used, the
      k-th frame the server received is its request, written by this very call, and the response is
      the k-th answer. */
  lemma ResponseIsOwn(run: seq<State>, i: nat, t: Caller)
    requires IsRun(run) && i < |run| && t in run[i].calls && run[i].calls[t].pc.Done?
    ensures var call := run[i].calls[t];
            && call.pc.conn in run[i].conns
            && var k := run[i].conns[call.pc.conn];
            && k.addr == call.addr
            && call.pc.k < |Received(k.sent)| && Received(k.sent)[call.pc.k] == call.req
            && |k.writers| == |k.reqs| <= |Received(k.sent)| && k.reqs == Received(k.sent)[..|k.reqs|]
            && call.pc.k < |k.writers| && k.writers[call.pc.k] == t
            && call.pc.k < |k.served| && k.served[call.pc.k] == call.pc.resp
  {
    RunInv(run, i);
    assert CallOk(run[i], t) && OwnerOk(run[i], t) && WritersOk(run[i], run[i].calls[t].pc.conn);
    var k := run[i].conns[run[i].calls[t].pc.conn];
    assert ConnOk(run[i], run[i].calls[t].pc.conn);
    var junk := k.sent[|Concat(k.reqs)|..];
    assert k.sent == Concat(k.reqs) + junk;
    ReceivedPrefix(k.reqs, junk);
  }

  /** No two successful calls share an answer, however alike their requests. */
  lemma AnswersNotShared(run: seq<State>, i: nat, t: Caller, u: Caller)
    requires IsRun(run) && i < |run| && t in run[i].calls && u in run[i].calls && t != u
    requires run[i].calls[t].pc.Done? && run[i].calls[u].pc.Done? && run[i].calls[t].pc.conn == run[i].calls[u].pc.conn
    ensures run[i].calls[t].pc.k != run[i].calls[u].pc.k
  {
    ResponseIsOwn(run, i, t);
    ResponseIsOwn(run, i, u);
  }

  /** A connection serves one caller at a time, and never one while it is cached. */
  lemma ExclusiveConnection(run: seq<State>, i: nat, t1: Caller, t2: Caller)
    requires IsRun(run) && i < |run| && t1 in run[i].calls && t2 in run[i].calls
    requires run[i].calls[t1].pc.Using? && run[i].calls[t2].pc.Using? && run[i].calls[t1].pc.conn == run[i].calls[t2].pc.conn
    ensures t1 == t2 && forall ch: Chan :: run[i].calls[t1].pc.conn !in Pool(run[i], ch)
  {
    RunInv(run, i);
    assert CallOk(run[i], t1) && CallOk(run[i], t2);
    forall ch: Chan ensures run[i].calls[t1].pc.conn !in Pool(run[i], ch) { assert PoolOk(run[i], ch); }
  }

  /** A cached connection is open, belongs to its address, sits in the pool once and has nothing
      outstanding; a pool caches at most 32. */
  lemma PooledConnectionsIdle(run: seq<State>, i: nat, ch: Chan, n: nat)
    requires IsRun(run) && i < |run| && n < |Pool(run[i], ch)|
    ensures |Pool(run[i], ch)| <= POOL_SIZE
    ensures var p, c := Pool(run[i], ch), Pool(run[i], ch)[n];
            && c in run[i].conns && run[i].conns[c].place == InPool(ch.epoch) && run[i].conns[c].addr == ch.addr
            && Clean(run[i].conns[c])
            && forall m :: 0 <= m < |p| && p[m] == c ==> m == n
  {
    RunInv(run, i);
    assert PoolOk(run[i], ch) && ConnOk(run[i], Pool(run[i], ch)[n]);
  }

  predicate AllClosed(s: State) { forall c :: c in s.conns ==> s.conns[c].place == Closed }

  /** After a shutdown every connection is closed if and only if before it none was in the hands of a
      call and none was in a channel that an earlier shutdown had already abandoned. */
  lemma ShutdownClosesIff(run: seq<State>, i: nat)
    requires IsRun(run) && i < |run|
    ensures AllClosed(Next(run[i], Shutdown).value)
       <==> forall c :: c in run[i].conns ==> run[i].conns[c].place in {Closed, InPool(run[i].epoch)}
  {
    RunInv(run, i);
    var s, s' := run[i], Next(run[i], Shutdown).value;
    forall c: Conn ensures c in s'.conns <==> c in s.conns
      ensures c in s.conns ==> (s'.conns[c].place == Closed <==> s.conns[c].place in {Closed, InPool(s.epoch)})
    {
      ShutdownConn(s, s', c);
    }
  }

  /** For the first shutdown that means: if and only if no call held a connection. */
  lemma FirstShutdownClosesIff(run: seq<State>, i: nat)
    requires IsRun(run) && i < |run| && run[i].epoch == 0
    ensures AllClosed(Next(run[i], Shutdown).value) <==> forall t :: t in run[i].calls ==> !run[i].calls[t].pc.Using?
  {
    RunInv(run, i);
    ShutdownClosesIff(run, i);
    var s := run[i];
    forall c | c in s.conns ensures s.conns[c].place.InPool? ==> s.conns[c].place == InPool(s.epoch) { assert ConnOk(s, c); }
    forall c | c in s.conns && s.conns[c].place.HeldBy?
      ensures s.conns[c].place.t in s.calls && s.calls[s.conns[c].place.t].pc.Using?
    {
      assert ConnOk(s, c);
    }
    forall t | t in s.calls && s.calls[t].pc.Using? ensures s.calls[t].pc.conn in s.conns && s.conns[s.calls[t].pc.conn].place == HeldBy(t) {
      assert CallOk(s, t);
    }
  }

  /** A closed connection stays closed. */
  lemma {:induction false} ClosedForGood(run: seq<State>, i: nat, j: nat, c: Conn)
    requires IsRun(run) && i <= j < |run| && c in run[i].conns && run[i].conns[c].place == Closed
    ensures c in run[j].conns && run[j].conns[c].place == Closed
    decreases j
  {
    if i < j {
      ClosedForGood(run, i, j - 1, c);
      RunInv(run, j - 1);
      assert StepAt(run, j - 1);
      var a :| Next(run[j - 1], a) == Some(run[j]);
      StaysClosed(run[j - 1], a, c);
    }
  }

  predicate ToBeClosed(s: State, t: Caller, c: Conn) {
    t in s.calls && s.calls[t].pc.Using? && s.calls[t].pc.conn == c && s.calls[t].pc.stage.ToClose?
  }

  predicate Spent(s: State, t: Caller, c: Conn) {
    ToBeClosed(s, t, c) || (c in s.conns && s.conns[c].place == Closed)
  }

  /** A connection on which a call has failed is never cached again: from then on it is in no pool,
      and either its call is about to close it or it is closed. */
  lemma {:induction false} FailedNeverPooled(run: seq<State>, i: nat, j: nat, t: Caller, c: Conn)
    requires IsRun(run) && i <= j < |run| && ToBeClosed(run[i], t, c)
    ensures Spent(run[j], t, c) && forall ch: Chan :: c !in Pool(run[j], ch)
    decreases j
  {
    if i < j {
      FailedNeverPooled(run, i, j - 1, t, c);
      RunInv(run, j - 1);
      assert StepAt(run, j - 1);
      var a :| Next(run[j - 1], a) == Some(run[j]);
      StaysSpent(run[j - 1], a, t, c);
    }
    RunInv(run, j);
    SpentNotPooled(run[j], t, c);
  }

  lemma SpentNotPooled(s: State, t: Caller, c: Conn)
    requires Inv(s) && Spent(s, t, c)
    ensures forall ch: Chan :: c !in Pool(s, ch)
  {
    assert CallOk(s, t);
    forall ch: Chan ensures c !in Pool(s, ch) { assert PoolOk(s, ch); }
  }

  lemma StaysSpent(s: State, a: Action, t: Caller, c: Conn)
    requires Inv(s) && Next(s, a).Some? && Spent(s, t, c)
    ensures Spent(Next(s, a).value, t, c)
  {
    assert CallOk(s, t);
    if !ToBeClosed(s, t, c) { StaysClosed(s, a, c); } else if Actor(a) != Some(t) { OthersStay(s, a, t); }
  }

  lemma StaysClosed(s: State, a: Action, c: Conn)
    requires Inv(s) && Next(s, a).Some? && c in s.conns && s.conns[c].place == Closed
    ensures c in Next(s, a).value.conns && Next(s, a).value.conns[c].place == Closed
  {
    match a
    case Take(t) => if s.calls[t].pc.TakingFrom? { assert PoolOk(s, Chan(s.calls[t].addr, s.calls[t].pc.epoch)); }
    case Use(t, u) =>
      assert CallOk(s, t);
    case _ =>
  }

  // ---- In-flight calls are not bounded ----

  /** takeConn never waits: it dials exactly when the channel of the address holds no connection. */
  lemma TakeDialsIff(run: seq<State>, i: nat, t: Caller)
    requires IsRun(run) && i < |run| && t in run[i].calls && run[i].calls[t].pc.TakingFrom?
    ensures var s' := Next(run[i], Take(t));
            && s'.Some?
            && (s'.value.calls[t].pc == Dialing <==> Pool(run[i], Chan(run[i].calls[t].addr, run[i].calls[t].pc.epoch)) == [])
  {
    RunInv(run, i);
    assert PoolOk(run[i], Chan(run[i].calls[t].addr, run[i].calls[t].pc.epoch));
  }

  /** `n` calls to one address, each with a connection of its own. */
  function Crowd(n: nat): State {
    State(map t: Caller | 0 <= t < n :: Call("broker", [0], Using(t, false, ToWrite)),
          map c: Conn | 0 <= c < n :: Stream("broker", HeldBy(c), [], [], [], [], [], 0),
          map[], 0)
  }

  /** The comment on the pool size promises that it also bounds the RPCs in flight to one address,
      the rest waiting for a free connection. It does not: a caller that finds no cached connection
      dials, so any number of calls can be in flight. */
  lemma {:induction false} InFlightUnbounded(n: nat) returns (run: seq<State>)
    ensures IsRun(run) && run[|run| - 1] == Crowd(n)
    ensures forall t :: 0 <= t < n ==> t in Crowd(n).calls && Crowd(n).calls[t].pc.Using? && Crowd(n).calls[t].addr == "broker"
  {
    if n == 0 {
      run := [INIT];
      NoCrowd();
    } else {
      var before := InFlightUnbounded(n - 1);
      run := Joins(before, Crowd(n - 1), n - 1);
      CrowdGrows(n);
      run := Extend(run, Dial(n - 1, n - 1), Crowd(n));
    }
  }

  /** One more call finds no cached connection and turns to dialing. */
  lemma Joins(before: seq<State>, s: State, t: Caller) returns (run: seq<State>)
    requires IsRun(before) && before[|before| - 1] == s && t !in s.calls && s.pools == map[]
    ensures IsRun(run) && run[|run| - 1] == s.(calls := s.calls[t := Call("broker", [0], Dialing)])
  {
    var s1 := s.(calls := s.calls[t := Call("broker", [0], Taking)]);
    var s2 := s.(calls := s.calls[t := Call("broker", [0], TakingFrom(s.epoch))]);
    var s3 := s.(calls := s.calls[t := Call("broker", [0], Dialing)]);
    assert s1.calls[t := Call("broker", [0], TakingFrom(s.epoch))] == s2.calls;
    assert s2.calls[t := Call("broker", [0], Dialing)] == s3.calls;
    run := Extend(before, Begin(t, "broker", [0]), s1);
    run := Extend(run, Take(t), s2);
    run := Extend(run, Take(t), s3);
  }

  /** With a call in flight a shutdown leaves its connection open. */
  lemma ShutdownLeavesHeldOpen() returns (run: seq<State>)
    ensures IsRun(run) && 0 in Next(run[|run| - 1], Shutdown).value.conns
    ensures Next(run[|run| - 1], Shutdown).value.conns[0].place == HeldBy(0)
  {
    run := InFlightUnbounded(1);
  }

  lemma NoCrowd()
    ensures Crowd(0) == INIT
  {
    assert Crowd(0).calls == map[] && Crowd(0).conns == map[];
  }

  lemma CrowdGrows(n: nat)
    requires n > 0
    ensures var s, t := Crowd(n - 1), n - 1;
            Next(s.(calls := s.calls[t := Call("broker", [0], Dialing)]), Dial(t, t)) == Some(Crowd(n))
  {
    var s, t := Crowd(n - 1), n - 1;
    assert s.calls[t := Call("broker", [0], Dialing)][t := Call("broker", [0], Using(t, false, ToWrite))] == Crowd(n).calls;
    assert s.conns[t := Stream("broker", HeldBy(t), [], [], [], [], [], 0)] == Crowd(n).conns;
  }

  lemma Extend(run: seq<State>, a: Action, s': State) returns (longer: seq<State>)
    requires IsRun(run) && Next(run[|run| - 1], a) == Some(s')
    ensures IsRun(longer) && longer[|longer| - 1] == s'
  {
    longer := run + [s'];
    forall i: nat ensures StepAt(longer, i) {
      assert StepAt(run, i);
      if i + 1 == |run| { assert Step(run[i], s'); }
    }
  }
}
