/**
 From SendMsg on one side to handlers on the other (knet/connection.go,
 knet/msgHandler.go): the write queue, the writer, a network that delivers the
 stream in pieces of any size, the reader with its decoder, and the worker pool
 that all connections of the receiving side share.

 The system is stated for any incremental codec, both ends using the same one.
 `TlvMessagesArriveInOrder` instantiates it with the TLV codec in either byte order.
 */
module Pipeline {
  import opened Common
  import opened Codec
  import opened Reader
  import Pool = WorkerPool

  datatype Link = Link(
    decode: Decoder,
    pack: Message -> seq<Byte>,
    conn: nat,             // the receiving connection's id
    queueSize: nat,        // capacity of the write queue
    pool: Pool.Config)

  /** The sending side and the wire; `consumed` records every byte the reader has decoded. */
  datatype Net = Net(
    sent: seq<Message>,    // what SendMsg accepted, in queue order
    queue: seq<seq<Byte>>,
    writing: seq<Byte>,    // rest of the frame the writer is writing
    writerUp: bool,
    wire: seq<Byte>,
    consumed: seq<Byte>)

  /** The receiving connection; `outbox` holds messages of the current read not yet dispatched. */
  datatype Recv = Recv(buffer: seq<Byte>, decoded: seq<Message>, outbox: seq<Message>, up: bool)

  datatype State = State(net: Net, recv: Recv, pool: Pool.State)

  datatype Label =
    | Send(id: UInt32, data: seq<Byte>)
    | SendToIdleWriter(id: UInt32, data: seq<Byte>)
    | WriterTakes | WriterPushes(n: nat) | WriterStops
    | Read(n: nat) | ReadRejected(n: nat) | ReaderStops
    | Dispatch
    | PoolActs(l: Pool.Label)

  function Init(started: Pool.State): State {
    State(Net([], [], [], true, [], []), Recv([], [], [], true), started)
  }

  predicate CanRead(k: Link, s: State, n: nat) {
    && s.recv.up && s.recv.outbox == [] && k.conn !in s.pool.senders
    && 0 < n <= |s.net.wire| && n <= READ_CHUNK_SIZE
  }

  /** How many messages the reader has handed on. */
  function Handed(recv: Recv): nat {
    if |recv.outbox| <= |recv.decoded| then |recv.decoded| - |recv.outbox| else 0
  }

  /** The request the reader dispatches next. */
  function Next(k: Link, s: State): Pool.Req
    requires s.recv.outbox != []
  {
    Pool.Req(k.conn, s.recv.outbox[0], Handed(s.recv))
  }

  predicate Enabled(k: Link, s: State, l: Label) {
    match l
    case Send(_, _) => |s.net.queue| < k.queueSize
    case SendToIdleWriter(_, _) => s.net.writerUp && s.net.writing == [] && s.net.queue == []
    case WriterTakes => s.net.writerUp && s.net.writing == [] && s.net.queue != []
    case WriterPushes(n) => s.net.writerUp && 0 < n <= |s.net.writing|
    case WriterStops => true
    case Read(n) => CanRead(k, s, n) && k.decode(s.recv.buffer + s.net.wire[..n]).ok
    case ReadRejected(n) => CanRead(k, s, n) && !k.decode(s.recv.buffer + s.net.wire[..n]).ok
    case ReaderStops => true
    case Dispatch => s.recv.outbox != [] && Pool.Enabled(k.pool, s.pool, Pool.Submit(Next(k, s)))
    case PoolActs(l) => Pool.Enabled(k.pool, s.pool, l) && (l.Submit? ==> l.req.conn != k.conn)
  }

  function NetStep(k: Link, net: Net, l: Label): Net {
    match l
    case Send(id, data) =>
      var m := NewMessage(id, data);
      net.(sent := net.sent + [m], queue := net.queue + [k.pack(m)])
    case SendToIdleWriter(id, data) =>
      var m := NewMessage(id, data);
      net.(sent := net.sent + [m], writing := k.pack(m))
    case WriterTakes => if net.queue == [] then net else net.(writing := net.queue[0], queue := net.queue[1..])
    case WriterPushes(n) =>
      if n > |net.writing| then net
      else net.(wire := net.wire + net.writing[..n], writing := net.writing[n..])
    case WriterStops => net.(writerUp := false)
    case Read(n) =>
      if n > |net.wire| then net
      else net.(consumed := net.consumed + net.wire[..n], wire := net.wire[n..])
    case _ => net
  }

  function RecvStep(k: Link, s: State, l: Label): Recv
    requires Enabled(k, s, l)
  {
    match l
    case Read(n) =>
      var p := k.decode(s.recv.buffer + s.net.wire[..n]);
      Recv(p.rest, s.recv.decoded + p.msgs, p.msgs, true)
    case ReadRejected(_) => s.recv.(up := false)
    case ReaderStops => s.recv.(up := false)
    case Dispatch => s.recv.(outbox := s.recv.outbox[1..])
    case _ => s.recv
  }

  function PoolStep(k: Link, s: State, l: Label): Pool.State
    requires Enabled(k, s, l)
  {
    match l
    case Dispatch => Pool.Step(k.pool, s.pool, Pool.Submit(Next(k, s)))
    case PoolActs(l) => Pool.Step(k.pool, s.pool, l)
    case _ => s.pool
  }

  function Step(k: Link, s: State, l: Label): State
    requires Enabled(k, s, l)
  {
    State(NetStep(k, s.net, l), RecvStep(k, s, l), PoolStep(k, s, l))
  }

  function Machine(k: Link): (State, Label) -> Option<State> {
    (s, l) => if Enabled(k, s, l) then Some(Step(k, s, l)) else None
  }

  function After(k: Link, s: State, run: seq<Label>): Option<State> { Run(Machine(k), s, run) }

  // --------------------------------------------------- bytes are never lost

  function Wire(k: Link, ms: seq<Message>): seq<Byte> {
    if ms == [] then [] else Wire(k, ms[..|ms| - 1]) + k.pack(ms[|ms| - 1])
  }

  /** What was read, what is on the wire, what is being written and what is queued is what was sent. */
  predicate BytesConserved(k: Link, net: Net) {
    net.consumed + net.wire + net.writing + Flatten(net.queue) == Wire(k, net.sent)
  }

  lemma WireSnoc(k: Link, ms: seq<Message>, m: Message)
    ensures Wire(k, ms + [m]) == Wire(k, ms) + k.pack(m)
  {
    assert (ms + [m])[..|ms|] == ms;
  }

  lemma FlattenOne(s: seq<Byte>)
    ensures Flatten([s]) == s
  {
    assert [s][1..] == [];
  }

  lemma SendConserves(k: Link, net: Net, id: UInt32, data: seq<Byte>)
    requires BytesConserved(k, net)
    ensures BytesConserved(k, NetStep(k, net, Send(id, data)))
    ensures net.writing == [] && net.queue == [] ==> BytesConserved(k, NetStep(k, net, SendToIdleWriter(id, data)))
  {
    var m := NewMessage(id, data);
    WireSnoc(k, net.sent, m);
    FlattenAppend(net.queue, [k.pack(m)]);
    FlattenOne(k.pack(m));
    var before := net.consumed + net.wire + net.writing;
    assert before + (Flatten(net.queue) + k.pack(m)) == before + Flatten(net.queue) + k.pack(m);
  }

  lemma NetStepConserves(k: Link, s: State, l: Label)
    requires BytesConserved(k, s.net) && Enabled(k, s, l)
    ensures BytesConserved(k, NetStep(k, s.net, l))
  {
    var net, t := s.net, NetStep(k, s.net, l);
    Regroup(net.consumed, net.wire, net.writing, Flatten(net.queue));
    Regroup(t.consumed, t.wire, t.writing, Flatten(t.queue));
    match l
    case Send(id, data) => SendConserves(k, net, id, data);
    case SendToIdleWriter(id, data) => SendConserves(k, net, id, data);
    case WriterTakes => assert net.writing + Flatten(net.queue) == t.writing + Flatten(t.queue);
    case WriterPushes(n) => assert net.wire + net.writing == t.wire + t.writing;
    case Read(n) => assert net.consumed + net.wire == t.consumed + t.wire;
    case _ =>
  }

  // ------------------------------------------------------ the decoder's state

  /** The reader has decoded exactly the bytes consumed so far, without an error. */
  predicate DecodesConsumed(k: Link, s: State) {
    k.decode(s.net.consumed) == Parsed(s.recv.decoded, s.recv.buffer, true)
  }

  lemma StepKeepsDecoding(k: Link, s: State, l: Label)
    requires Incremental(k.decode) && DecodesConsumed(k, s) && Enabled(k, s, l)
    ensures DecodesConsumed(k, Step(k, s, l))
  {
    if l.Read? {
      assert AppendLaw(k.decode, s.net.consumed, s.net.wire[..l.n]);
    }
  }

  // ---------------------------------------------- dispatch into the shared pool

  /** The requests made of messages number `n` and following. */
  function Tag(conn: nat, n: nat, ms: seq<Message>): (rs: seq<Pool.Req>)
    ensures |rs| == |ms|
    ensures forall i :: 0 <= i < |ms| ==> rs[i] == Pool.Req(conn, ms[i], n + i)
    decreases |ms|
  {
    if ms == [] then [] else [Pool.Req(conn, ms[0], n)] + Tag(conn, n + 1, ms[1..])
  }

  /** The requests made of everything decoded. */
  function Decoded(k: Link, s: State): seq<Pool.Req> { Tag(k.conn, 0, s.recv.decoded) }

  /** Those the reader still holds. */
  function Held(k: Link, s: State): seq<Pool.Req> { Tag(k.conn, Handed(s.recv), s.recv.outbox) }

  /** Dispatched through the pool, then dispatched after its stop, then waiting in the reader: all decoded. */
  predicate DispatchedInOrder(k: Link, s: State) {
    && s.pool.ctx && (s.pool.active ==> s.pool.direct == [])
    && |s.recv.outbox| <= |s.recv.decoded|
    && Pool.Proj(s.pool.submitted, k.conn) + Pool.Proj(s.pool.direct, k.conn) + Held(k, s) == Decoded(k, s)
    && (k.conn in s.pool.senders ==> Pool.Proj(s.pool.direct, k.conn) == [])
  }

  /** A pool action of another connection leaves this connection's submissions alone. */
  lemma PoolActKeepsLogs(cfg: Pool.Config, p: Pool.State, l: Pool.Label, c: nat)
    requires Pool.Enabled(cfg, p, l) && (l.Submit? ==> l.req.conn != c) && p.ctx
    ensures var q := Pool.Step(cfg, p, l);
            && q.ctx && (q.active ==> p.active && q.direct == p.direct)
            && Pool.Proj(q.submitted, c) == Pool.Proj(p.submitted, c)
            && Pool.Proj(q.direct, c) == Pool.Proj(p.direct, c)
            && (c in q.senders ==> c in p.senders)
  {
    if l.Submit? {
      Pool.ProjSnoc(p.submitted, l.req, c);
      Pool.ProjSnoc(p.direct, l.req, c);
    }
  }

  lemma MoveOne(sub: seq<Pool.Req>, direct: seq<Pool.Req>, r: Pool.Req, rest: seq<Pool.Req>)
    ensures direct == [] ==> sub + direct + ([r] + rest) == (sub + [r]) + direct + rest
    ensures sub + direct + ([r] + rest) == sub + (direct + [r]) + rest
  {
  }

  lemma DispatchKeepsOrder(k: Link, s: State)
    requires DispatchedInOrder(k, s) && Enabled(k, s, Dispatch)
    ensures DispatchedInOrder(k, Step(k, s, Dispatch))
  {
    var c, p := k.conn, s.pool;
    var r, t := Next(k, s), Step(k, s, Dispatch);
    var q := t.pool;
    assert Held(k, s) == [r] + Held(k, t);
    MoveOne(Pool.Proj(p.submitted, c), Pool.Proj(p.direct, c), r, Held(k, t));
    if p.active {
      Pool.ProjSnoc(p.submitted, r, c);
      assert Pool.Proj(q.submitted, c) == Pool.Proj(p.submitted, c) + [r] && q.direct == p.direct;
    } else {
      Pool.ProjSnoc(p.direct, r, c);
      assert Pool.Proj(q.direct, c) == Pool.Proj(p.direct, c) + [r] && q.submitted == p.submitted;
    }
  }

  lemma TagAppend(c: nat, n: nat, a: seq<Message>, b: seq<Message>)
    ensures Tag(c, n, a + b) == Tag(c, n, a) + Tag(c, n + |a|, b)
  {
  }

  lemma ReadKeepsOrder(k: Link, s: State, n: nat)
    requires DispatchedInOrder(k, s) && Enabled(k, s, Read(n))
    ensures DispatchedInOrder(k, Step(k, s, Read(n)))
  {
    var msgs := k.decode(s.recv.buffer + s.net.wire[..n]).msgs;
    var t := Step(k, s, Read(n));
    assert t.pool == s.pool && t.recv.outbox == msgs && t.recv.decoded == s.recv.decoded + msgs;
    ReadTags(k.conn, s.recv.decoded, msgs, Pool.Proj(s.pool.submitted, k.conn) + Pool.Proj(s.pool.direct, k.conn));
  }

  lemma ReadTags(c: nat, decoded: seq<Message>, msgs: seq<Message>, done: seq<Pool.Req>)
    requires done + Tag(c, |decoded|, []) == Tag(c, 0, decoded)
    ensures done + Tag(c, |decoded|, msgs) == Tag(c, 0, decoded + msgs)
  {
    TagAppend(c, 0, decoded, msgs);
    assert done + [] == done;
  }

  lemma PoolActKeepsOrder(k: Link, s: State, a: Pool.Label)
    requires DispatchedInOrder(k, s) && Enabled(k, s, PoolActs(a))
    ensures DispatchedInOrder(k, Step(k, s, PoolActs(a)))
  {
    PoolActKeepsLogs(k.pool, s.pool, a, k.conn);
    assert Step(k, s, PoolActs(a)).recv == s.recv;
  }

  lemma StepKeepsDispatchOrder(k: Link, s: State, l: Label)
    requires DispatchedInOrder(k, s) && Enabled(k, s, l)
    ensures DispatchedInOrder(k, Step(k, s, l))
  {
    match l
    case Dispatch => DispatchKeepsOrder(k, s);
    case PoolActs(a) => PoolActKeepsOrder(k, s, a);
    case Read(n) => ReadKeepsOrder(k, s, n);
    case _ =>
      var t := Step(k, s, l);
      assert t.pool == s.pool && t.recv.outbox == s.recv.outbox && t.recv.decoded == s.recv.decoded;
  }

  // ------------------------------------------------------------- whole system

  ghost predicate Inv(k: Link, s: State) {
    && BytesConserved(k, s.net) && DecodesConsumed(k, s) && DispatchedInOrder(k, s) && Pool.Inv(k.pool, s.pool)
    && Pool.WorkerBeginsOk(k.pool, s.pool, k.conn) && Pool.DirectBeginsOk(s.pool, k.conn)
  }

  /** What the pool does in a step, if anything. */
  function OnPool(k: Link, s: State, l: Label): Option<Pool.Label>
    requires Enabled(k, s, l)
  {
    match l
    case Dispatch => Some(Pool.Submit(Next(k, s)))
    case PoolActs(a) => Some(a)
    case _ => None
  }

  lemma PoolKeepsInv(k: Link, p: Pool.State, a: Pool.Label)
    requires p.ctx && Pool.Enabled(k.pool, p, a)
    requires Pool.Inv(k.pool, p) && Pool.WorkerBeginsOk(k.pool, p, k.conn) && Pool.DirectBeginsOk(p, k.conn)
    ensures var q := Pool.Step(k.pool, p, a);
            Pool.Inv(k.pool, q) && Pool.WorkerBeginsOk(k.pool, q, k.conn) && Pool.DirectBeginsOk(q, k.conn)
  {
    Pool.StepKeepsInv(k.pool, p, a);
    Pool.StepKeepsWorkerBegins(k.pool, p, a, k.conn);
    Pool.StepKeepsDirectBegins(k.pool, p, a, k.conn);
  }

  lemma StepKeepsInv(k: Link, s: State, l: Label)
    requires Incremental(k.decode) && Inv(k, s) && Enabled(k, s, l)
    ensures Inv(k, Step(k, s, l))
  {
    NetStepConserves(k, s, l);
    StepKeepsDecoding(k, s, l);
    StepKeepsDispatchOrder(k, s, l);
    var a := OnPool(k, s, l);
    if a.Some? {
      PoolKeepsInv(k, s.pool, a.value);
    }
  }

  lemma {:induction false} RunKeepsInv(k: Link, s: State, run: seq<Label>)
    requires Incremental(k.decode) && Inv(k, s) && After(k, s, run).Some?
    ensures Inv(k, After(k, s, run).value)
    decreases |run|
  {
    if run != [] {
      StepKeepsInv(k, s, run[0]);
      RunKeepsInv(k, Step(k, s, run[0]), run[1..]);
    }
  }

  /** The pool right after StartWorkerPool, before any connection exists. */
  function StartedPool(cfg: Pool.Config): Pool.State
    requires cfg.size > 0
  {
    Pool.Step(cfg, Pool.INIT, Pool.Start)
  }

  lemma InitInv(k: Link)
    requires Incremental(k.decode) && k.pool.size > 0
    ensures Inv(k, Init(StartedPool(k.pool)))
  {
    Pool.InitInv(k.pool);
    Pool.StepKeepsInv(k.pool, Pool.INIT, Pool.Start);
    var none: seq<Byte> := [];
    assert SplitLaw(k.decode, none) && none[..0] == none;
  }

  /** Requests of this connection whose handlers have begun on a worker, in the order they began. */
  function BegunOnWorker(k: Link, s: State): seq<Pool.Req>
    requires Pool.Sized(k.pool, s.pool)
  {
    Pool.Proj(s.pool.executed, k.conn) + Pool.InFlight(k.pool, s.pool, k.conn)
  }

  /** All requests of this connection whose handlers have begun, in the order they began. */
  function Begun(k: Link, s: State): seq<Pool.Req> { Pool.Begins(s.pool.begun, k.conn) }

  /** Waiting for their worker: in the queue or with their sender. */
  function Pooled(k: Link, s: State): seq<Pool.Req>
    requires Pool.Sized(k.pool, s.pool)
  {
    Pool.Queued(k.pool, s.pool, k.conn) + Pool.Waiting(s.pool, k.conn)
  }

  /** Waiting in goroutines of their own. */
  function Ready(k: Link, s: State): seq<Pool.Req> { Pool.Proj(s.pool.ready, k.conn) }

  /** Everything decoded, by where it stands. */
  lemma DecodedByPlace(k: Link, s: State)
    requires Pool.Sized(k.pool, s.pool) && Pool.Conserved(k.pool, s.pool, k.conn) && DispatchedInOrder(k, s)
    ensures BegunOnWorker(k, s) + Pooled(k, s) + Pool.Proj(s.pool.direct, k.conn) + Held(k, s) == Decoded(k, s)
  {
    Regroup(Pool.Proj(s.pool.executed, k.conn), Pool.InFlight(k.pool, s.pool, k.conn),
            Pool.Queued(k.pool, s.pool, k.conn), Pool.Waiting(s.pool, k.conn));
  }

  lemma CountFive(a: seq<Pool.Req>, b: seq<Pool.Req>, own: seq<Pool.Req>, ready: seq<Pool.Req>, c: seq<Pool.Req>,
                  d: seq<Pool.Req>)
    requires multiset(own) + multiset(ready) == multiset(c)
    ensures multiset(a) + multiset(own) + multiset(b) + multiset(ready) + multiset(d) == multiset(a + b + c + d)
    ensures |own| + |ready| == |c|
  {
    assert |multiset(own) + multiset(ready)| == |multiset(c)|;
  }

  /** Every decoded message has begun, waits for its worker, is ready, or is with the reader: exactly one of these. */
  lemma AllAccounted(k: Link, s: State)
    requires Inv(k, s)
    ensures multiset(Begun(k, s)) + multiset(Pooled(k, s)) + multiset(Ready(k, s)) + multiset(Held(k, s))
         == multiset(Decoded(k, s))
    ensures |Begun(k, s)| + |Pooled(k, s)| + |Ready(k, s)| + |s.recv.outbox| == |s.recv.decoded|
    ensures |BegunOnWorker(k, s)| <= |Begun(k, s)|
  {
    assert Pool.Conserved(k.pool, s.pool, k.conn);
    DecodedByPlace(k, s);
    var own := Pool.On(s.pool.begun, k.conn, false);
    Pool.BeginsAreAll(s.pool.begun, k.conn);
    CountFive(BegunOnWorker(k, s), Pooled(k, s), own, Ready(k, s), Pool.Proj(s.pool.direct, k.conn), Held(k, s));
    assert |multiset(Begun(k, s))| == |multiset(BegunOnWorker(k, s)) + multiset(own)|;
  }

  /** The codec delivers these messages: same number, ids and payloads. */
  ghost predicate Delivers(k: Link, ms: seq<Message>) {
    var p := k.decode(Wire(k, ms));
    && p.ok && |p.msgs| == |ms|
    && forall i :: 0 <= i < |ms| ==> p.msgs[i].id == ms[i].id && p.msgs[i].data == ms[i].data
  }

  lemma DecodedIsPrefix(k: Link, s: State)
    requires Incremental(k.decode) && BytesConserved(k, s.net) && DecodesConsumed(k, s)
    ensures s.recv.decoded <= k.decode(Wire(k, s.net.sent)).msgs
    ensures k.decode(Wire(k, s.net.sent)).ok ==>
              forall n :: 0 <= n <= |s.net.wire| ==> k.decode(s.recv.buffer + s.net.wire[..n]).ok
  {
    var c, later := s.net.consumed, s.net.wire + s.net.writing + Flatten(s.net.queue);
    assert Wire(k, s.net.sent) == c + later;
    assert AppendLaw(k.decode, c, later);
    if k.decode(Wire(k, s.net.sent)).ok {
      forall n | 0 <= n <= |s.net.wire| ensures k.decode(s.recv.buffer + s.net.wire[..n]).ok {
        var chunk := s.net.wire[..n];
        assert c + later == c + chunk + (s.net.wire[n..] + s.net.writing + Flatten(s.net.queue));
        assert AppendLaw(k.decode, c, chunk);
        assert AppendLaw(k.decode, c + chunk, s.net.wire[n..] + s.net.writing + Flatten(s.net.queue));
      }
    }
  }

  lemma FirstIsAPrefix(a: seq<Pool.Req>, b: seq<Pool.Req>, c: seq<Pool.Req>, d: seq<Pool.Req>)
    ensures a <= a + b + c + d
  {
  }

  /** What has begun on a worker is in order, always; and nothing else has begun while the pool is running. */
  lemma BegunIsPrefix(k: Link, s: State)
    requires Inv(k, s)
    ensures BegunOnWorker(k, s) <= Decoded(k, s)
    ensures s.pool.active ==> Begun(k, s) == BegunOnWorker(k, s)
  {
    assert Pool.Conserved(k.pool, s.pool, k.conn);
    DecodedByPlace(k, s);
    FirstIsAPrefix(BegunOnWorker(k, s), Pooled(k, s), Pool.Proj(s.pool.direct, k.conn), Held(k, s));
    Pool.BeginsAreAll(s.pool.begun, k.conn);
    CountFive([], [], Pool.On(s.pool.begun, k.conn, false), Ready(k, s), Pool.Proj(s.pool.direct, k.conn), []);
  }

  // ------------------------------------------------------- what SendMsg was called with

  /** The arguments of a call of SendMsg that enqueues. */
  datatype Call = Call(id: UInt32, data: seq<Byte>)

  function CallOf(l: Label): seq<Call> {
    match l
    case Send(id, data) => [Call(id, data)]
    case SendToIdleWriter(id, data) => [Call(id, data)]
    case _ => []
  }

  /** The calls of SendMsg in a run, in order. */
  function Calls(run: seq<Label>): seq<Call> {
    if run == [] then [] else CallOf(run[0]) + Calls(run[1..])
  }

  function Messages(calls: seq<Call>): (ms: seq<Message>)
    ensures |ms| == |calls|
    ensures forall i :: 0 <= i < |calls| ==> ms[i] == NewMessage(calls[i].id, calls[i].data)
  {
    if calls == [] then [] else [NewMessage(calls[0].id, calls[0].data)] + Messages(calls[1..])
  }

  lemma SentGrows(k: Link, s: State, l: Label)
    requires Enabled(k, s, l)
    ensures Step(k, s, l).net.sent == s.net.sent + Messages(CallOf(l))
  {
  }

  lemma MessagesAppend(a: seq<Call>, b: seq<Call>)
    ensures Messages(a + b) == Messages(a) + Messages(b)
  {
  }

  /** What is recorded as sent is what SendMsg was called with. */
  lemma {:induction false} SentIsCalled(k: Link, s: State, run: seq<Label>)
    requires After(k, s, run).Some?
    ensures After(k, s, run).value.net.sent == s.net.sent + Messages(Calls(run))
    decreases |run|
  {
    if run == [] {
      assert s.net.sent + Messages(Calls(run)) == s.net.sent;
    } else {
      SentGrows(k, s, run[0]);
      SentIsCalled(k, Step(k, s, run[0]), run[1..]);
      MessagesAppend(CallOf(run[0]), Calls(run[1..]));
      Assoc(s.net.sent, Messages(CallOf(run[0])), Messages(Calls(run[1..])));
    }
  }

  /** The requests carry, in order, the ids and payloads of the first calls. */
  predicate Carries(conn: nat, rs: seq<Pool.Req>, calls: seq<Call>) {
    && |rs| <= |calls|
    && forall i :: 0 <= i < |rs| ==>
         rs[i].conn == conn && rs[i].msg.id == calls[i].id && rs[i].msg.data == calls[i].data
  }

  /** Each request is that of one of the calls, and none begins twice. */
  ghost predicate EachAtMostOnce(conn: nat, rs: seq<Pool.Req>, calls: seq<Call>) {
    && (forall r :: r in rs ==>
          r.conn == conn && r.no < |calls| && r.msg.id == calls[r.no].id && r.msg.data == calls[r.no].data)
    && (forall i, j :: 0 <= i < j < |rs| ==> rs[i].no != rs[j].no)
  }

  /** Messages as received, against calls of SendMsg. */
  predicate SameContents(received: seq<Message>, calls: seq<Call>) {
    |received| <= |calls|
    && forall i :: 0 <= i < |received| ==> received[i].id == calls[i].id && received[i].data == calls[i].data
  }

  lemma TaggedPrefixCarries(conn: nat, rs: seq<Pool.Req>, decoded: seq<Message>, calls: seq<Call>)
    requires rs <= Tag(conn, 0, decoded) && SameContents(decoded, calls)
    ensures Carries(conn, rs, calls)
  {
    forall i | 0 <= i < |rs|
      ensures rs[i].conn == conn && rs[i].msg.id == calls[i].id && rs[i].msg.data == calls[i].data
    {
      assert rs[i] == Tag(conn, 0, decoded)[i];
    }
  }

  lemma TaggedOnce(conn: nat, rs: seq<Pool.Req>, decoded: seq<Message>, calls: seq<Call>)
    requires multiset(rs) <= multiset(Tag(conn, 0, decoded)) && SameContents(decoded, calls)
    ensures EachAtMostOnce(conn, rs, calls)
  {
    var all := Tag(conn, 0, decoded);
    forall r | r in rs
      ensures r in all && r.no < |all| && all[r.no] == r
    {
      assert r in multiset(rs);
      assert r in multiset(all);
      var i :| 0 <= i < |all| && all[i] == r;
    }
    forall i, j | 0 <= i < j < |rs| ensures rs[i].no != rs[j].no {
      assert rs[i] in rs && rs[j] in rs;
      if rs[i].no == rs[j].no {
        TwiceIsTwice(rs, i, j);
        OnceInTag(conn, 0, decoded, rs[i]);
      }
    }
  }

  lemma TwiceIsTwice(rs: seq<Pool.Req>, i: nat, j: nat)
    requires i < j < |rs| && rs[i] == rs[j]
    ensures multiset(rs)[rs[i]] >= 2
  {
    assert rs == rs[..j] + [rs[j]] + rs[j + 1..];
    assert rs[..j][i] == rs[i] && rs[i] in multiset(rs[..j]);
  }

  lemma {:induction false} OnceInTag(conn: nat, n: nat, ms: seq<Message>, r: Pool.Req)
    ensures multiset(Tag(conn, n, ms))[r] <= 1
    decreases |ms|
  {
    if ms != [] {
      var rest := Tag(conn, n + 1, ms[1..]);
      OnceInTag(conn, n + 1, ms[1..], r);
      assert Tag(conn, n, ms) == [Pool.Req(conn, ms[0], n)] + rest;
      assert r in rest ==> r.no > n;
      assert r.no <= n ==> multiset(rest)[r] == 0;
    }
  }

  lemma DecodedHasContents(k: Link, s: State, calls: seq<Call>)
    requires Incremental(k.decode) && BytesConserved(k, s.net) && DecodesConsumed(k, s)
    requires s.net.sent == Messages(calls) && Delivers(k, s.net.sent)
    ensures SameContents(s.recv.decoded, calls)
  {
    DecodedIsPrefix(k, s);
    var received := k.decode(Wire(k, s.net.sent)).msgs;
    assert forall i :: 0 <= i < |s.recv.decoded| ==> s.recv.decoded[i] == received[i];
  }

  lemma NoRejection(k: Link, s: State)
    requires Incremental(k.decode) && BytesConserved(k, s.net) && DecodesConsumed(k, s) && Delivers(k, s.net.sent)
    ensures forall n :: !Enabled(k, s, ReadRejected(n))
  {
    DecodedIsPrefix(k, s);
  }

  lemma ArrivalsMatch(k: Link, s: State, calls: seq<Call>)
    requires Incremental(k.decode) && Inv(k, s) && s.net.sent == Messages(calls) && Delivers(k, s.net.sent)
    ensures Carries(k.conn, BegunOnWorker(k, s), calls)
    ensures s.pool.active ==> Carries(k.conn, Begun(k, s), calls)
    ensures EachAtMostOnce(k.conn, Begun(k, s), calls)
  {
    DecodedHasContents(k, s, calls);
    BegunIsPrefix(k, s);
    TaggedPrefixCarries(k.conn, BegunOnWorker(k, s), s.recv.decoded, calls);
    AllAccounted(k, s);
    TaggedOnce(k.conn, Begun(k, s), s.recv.decoded, calls);
  }

  lemma NothingBefore(none: seq<Message>, ms: seq<Message>)
    requires none == []
    ensures none + ms == ms
  {
  }

  /** Everything a run from the beginning has sent, as calls. */
  lemma RunSends(k: Link, pool: Pool.State, run: seq<Label>)
    requires After(k, Init(pool), run).Some?
    ensures After(k, Init(pool), run).value.net.sent == Messages(Calls(run))
  {
    var init := Init(pool);
    SentIsCalled(k, init, run);
    NothingBefore(init.net.sent, Messages(Calls(run)));
  }

  /**
   End to end, for every run from a started pool in which the codec delivers what was
   sent: as long as the pool has not been stopped, the handlers begun for the connection
   are, in order, those of the first calls of SendMsg, with the ids and payloads these were
   given. Whatever happens, that holds of the handlers begun on a worker, every handler
   begun is that of one call and of no other's, and the reader meets no decode error.
   Other connections may use the pool meanwhile, and the writer and the reader may stop at
   any point. (`StopOrder` says when a stopped pool keeps the order.)
   */
  lemma MessagesArriveInOrder(k: Link, run: seq<Label>)
    requires Incremental(k.decode) && k.pool.size > 0
    requires After(k, Init(StartedPool(k.pool)), run).Some?
    requires Delivers(k, After(k, Init(StartedPool(k.pool)), run).value.net.sent)
    ensures var s := After(k, Init(StartedPool(k.pool)), run).value;
            && Pool.Sized(k.pool, s.pool)
            && (s.pool.active ==> Carries(k.conn, Begun(k, s), Calls(run)))
            && Carries(k.conn, BegunOnWorker(k, s), Calls(run))
            && EachAtMostOnce(k.conn, Begun(k, s), Calls(run))
            && (forall n :: !Enabled(k, s, ReadRejected(n)))
  {
    InitInv(k);
    RunKeepsInv(k, Init(StartedPool(k.pool)), run);
    var s := After(k, Init(StartedPool(k.pool)), run).value;
    RunSends(k, StartedPool(k.pool), run);
    ArrivalsMatch(k, s, Calls(run));
    NoRejection(k, s);
  }

  /** Nothing of this connection is left anywhere between SendMsg and the beginning of its handler. */
  predicate Idle(k: Link, s: State)
    requires Pool.Sized(k.pool, s.pool)
  {
    && s.net.queue == [] && s.net.writing == [] && s.net.wire == [] && s.recv.outbox == []
    && Pooled(k, s) == [] && Ready(k, s) == []
  }

  lemma IdleMeansAllDecoded(k: Link, s: State)
    requires Inv(k, s) && Idle(k, s)
    ensures s.recv.decoded == k.decode(Wire(k, s.net.sent)).msgs
  {
    assert s.net.consumed + [] + [] + Flatten([]) == s.net.consumed;
  }

  /**
   No message is lost on the way, whether or not the pool was stopped: when everything in
   between is empty, as many handlers have begun as SendMsg was called, one for each call.
   */
  lemma NothingIsLost(k: Link, run: seq<Label>)
    requires Incremental(k.decode) && k.pool.size > 0
    requires After(k, Init(StartedPool(k.pool)), run).Some?
    requires Delivers(k, After(k, Init(StartedPool(k.pool)), run).value.net.sent)
    ensures var s := After(k, Init(StartedPool(k.pool)), run).value;
            && Pool.Sized(k.pool, s.pool)
            && (Idle(k, s) ==> |Begun(k, s)| == |Calls(run)| && EachAtMostOnce(k.conn, Begun(k, s), Calls(run)))
  {
    InitInv(k);
    RunKeepsInv(k, Init(StartedPool(k.pool)), run);
    var s := After(k, Init(StartedPool(k.pool)), run).value;
    RunSends(k, StartedPool(k.pool), run);
    ArrivalsMatch(k, s, Calls(run));
    if Idle(k, s) {
      IdleMeansAllDecoded(k, s);
      AllAccounted(k, s);
    }
  }

  // -------------------------------------------------------- with the TLV codec

  function TlvLink(order: ByteOrder, max: UInt32, conn: nat, queueSize: nat, pool: Pool.Config): Link {
    Link(TlvDecoder(order, max), m => Pack(order, m), conn, queueSize, pool)
  }

  function AllReceived(order: ByteOrder, ms: seq<Message>): (rs: seq<Message>)
    ensures |rs| == |ms|
    ensures forall i :: 0 <= i < |ms| ==> rs[i] == Received(order, ms[i])
  {
    if ms == [] then [] else AllReceived(order, ms[..|ms| - 1]) + [Received(order, ms[|ms| - 1])]
  }

  lemma PackAllFirst(order: ByteOrder, m: Message, ms: seq<Message>)
    ensures PackAll(order, [m] + ms) == Pack(order, m) + PackAll(order, ms)
  {
    PackAllCons(order, m, ms, []);
    assert PackAll(order, [m] + ms) + [] == PackAll(order, [m] + ms) && PackAll(order, ms) + [] == PackAll(order, ms);
  }

  lemma {:induction false} PackAllSnoc(order: ByteOrder, ms: seq<Message>, m: Message)
    ensures PackAll(order, ms + [m]) == PackAll(order, ms) + Pack(order, m)
    decreases |ms|
  {
    if ms == [] {
      PackAllFirst(order, m, []);
      assert ms + [m] == [m] + [];
    } else {
      var first, rest := ms[0], ms[1..];
      PackAllSnoc(order, rest, m);
      PackAllFirst(order, first, rest);
      PackAllFirst(order, first, rest + [m]);
      assert ms == [first] + rest && ms + [m] == [first] + (rest + [m]);
      Assoc(Pack(order, first), PackAll(order, rest), Pack(order, m));
    }
  }

  lemma {:induction false} WireIsPackAll(k: Link, order: ByteOrder, ms: seq<Message>)
    requires forall m :: k.pack(m) == Pack(order, m)
    ensures Wire(k, ms) == PackAll(order, AllReceived(order, ms))
    decreases |ms|
  {
    if ms != [] {
      var front, last := ms[..|ms| - 1], ms[|ms| - 1];
      WireIsPackAll(k, order, front);
      PackAllSnoc(order, AllReceived(order, front), Received(order, last));
    }
  }

  /** NewMessage's claim fits the wire and the receiver's limit. */
  predicate Fits(max: UInt32, m: Message) {
    m.dataLen == |m.data| && WithinLimit(max, m.dataLen)
  }

  lemma TlvDelivers(order: ByteOrder, max: UInt32, k: Link, ms: seq<Message>)
    requires k.decode == TlvDecoder(order, max) && forall m :: k.pack(m) == Pack(order, m)
    requires forall i :: 0 <= i < |ms| ==> Fits(max, ms[i])
    ensures Delivers(k, ms)
  {
    var rs := AllReceived(order, ms);
    WireIsPackAll(k, order, ms);
    ParseIsUnique(order, max, rs, []);
    assert PackAll(order, rs) + [] == PackAll(order, rs);
  }

  /** A payload that fits the wire format and the receiver's limit. */
  predicate CallFits(max: UInt32, c: Call) {
    |c.data| < 0x1_0000_0000 && (max == 0 || |c.data| <= max)
  }

  lemma FittingCallFits(max: UInt32, c: Call)
    requires CallFits(max, c)
    ensures Fits(max, NewMessage(c.id, c.data))
  {
  }

  lemma FittingCallsFit(max: UInt32, calls: seq<Call>)
    requires forall i :: 0 <= i < |calls| ==> CallFits(max, calls[i])
    ensures forall i :: 0 <= i < |calls| ==> Fits(max, Messages(calls)[i])
  {
    forall i | 0 <= i < |calls| ensures Fits(max, Messages(calls)[i]) {
      FittingCallFits(max, calls[i]);
    }
  }

  lemma TlvDeliversCalls(order: ByteOrder, max: UInt32, k: Link, calls: seq<Call>)
    requires k.decode == TlvDecoder(order, max) && forall m :: k.pack(m) == Pack(order, m)
    requires forall i :: 0 <= i < |calls| ==> CallFits(max, calls[i])
    ensures Delivers(k, Messages(calls))
  {
    var ms := Messages(calls);
    FittingCallsFit(max, calls);
    TlvDelivers(order, max, k, ms);
  }

  /**
   The TLV instance: with both ends on the same byte order and every payload given to
   SendMsg shorter than 2^32 bytes and within the receiver's limit, handlers begin in the
   order of the calls, with their ids and payloads.
   */
  lemma TlvMessagesArriveInOrder(order: ByteOrder, max: UInt32, conn: nat, queueSize: nat, pool: Pool.Config,
                                 run: seq<Label>)
    requires pool.size > 0
    requires After(TlvLink(order, max, conn, queueSize, pool), Init(StartedPool(pool)), run).Some?
    requires forall i :: 0 <= i < |Calls(run)| ==> CallFits(max, Calls(run)[i])
    ensures var k := TlvLink(order, max, conn, queueSize, pool);
            var s := After(k, Init(StartedPool(pool)), run).value;
            && Pool.Sized(pool, s.pool)
            && (s.pool.active ==> Carries(conn, Begun(k, s), Calls(run)))
            && Carries(conn, BegunOnWorker(k, s), Calls(run))
            && EachAtMostOnce(conn, Begun(k, s), Calls(run))
  {
    var k := TlvLink(order, max, conn, queueSize, pool);
    TlvIsIncremental(order, max);
    RunSends(k, StartedPool(pool), run);
    TlvDeliversCalls(order, max, k, Calls(run));
    MessagesArriveInOrder(k, run);
  }
}
