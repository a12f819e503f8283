/**
 What stopping the worker pool does to the order of handlers (knet/msgHandler.go:156-180).
 Once the pool is inactive each request runs in a goroutine of its own, and such
 goroutines begin in any order. The main theorem says exactly in which states of a
 connection the order is still sure, whatever is read, sent or stopped from then on.
 */
module StopOrder {
  import opened Common
  import opened Codec
  import opened Reader
  import Pool = WorkerPool
  import opened Pipeline

  /** Handlers have begun in the order of the messages, without a gap. */
  predicate InOrder(k: Link, s: State) { Begun(k, s) <= Decoded(k, s) }

  /** In every continuation handlers begin in order. */
  ghost predicate OrderIsSure(k: Link, s: State) {
    forall run :: After(k, s, run).Some? ==> InOrder(k, After(k, s, run).value)
  }

  predicate Sending(k: Link, s: State) { k.conn in s.pool.senders }

  predicate Started(k: Link, s: State) { k.pool.size > 0 && s.pool.ctx && Pool.Sized(k.pool, s.pool) }

  function Lane(k: Link): nat
    requires k.pool.size > 0
  {
    Pool.Shard(k.pool, k.conn)
  }

  /**
   How many messages the reader can still get: none once it has stopped, any number while
   the writer is up (two are enough to be overtaken), and what is on the wire otherwise.
   */
  function Obtainable(k: Link, s: State): nat {
    if !s.recv.up then 0
    else if s.net.writerUp then 2
    else |k.decode(s.recv.buffer + s.net.wire).msgs|
  }

  /** Messages the reader has yet to hand on: those in its hands and those it can still get. */
  function Due(k: Link, s: State): nat { |s.recv.outbox| + Obtainable(k, s) }

  /** The reader's pending enqueue can be accepted with something overtaking it afterwards. */
  predicate SenderCanBePassed(k: Link, s: State)
    requires Started(k, s)
  {
    if s.pool.workers[Lane(k)].Exited? then Pool.HasRoom(k.pool, s.pool, Lane(k))
    else k.pool.cap > 0 || Due(k, s) >= 2
  }

  /**
   Some request is, or can come to be, in a goroutine of its own while another one that
   precedes or follows it there has yet to begin.
   */
  predicate CanReorder(k: Link, s: State)
    requires Started(k, s)
  {
    && |Ready(k, s)| + Due(k, s) >= 1
    && if Sending(k, s) then SenderCanBePassed(k, s)
       else |Pooled(k, s)| + |Ready(k, s)| + Due(k, s) >= 2
  }

  // ------------------------------------------------------ positions in the order

  lemma Numbered(k: Link, s: State, r: Pool.Req)
    requires r in Decoded(k, s)
    ensures r.no < |s.recv.decoded| && Decoded(k, s)[r.no] == r
  {
  }

  /** A request that stands at one of two places stands at one only. */
  lemma CountedTwice(r: Pool.Req, a: multiset<Pool.Req>, b: multiset<Pool.Req>, c: multiset<Pool.Req>,
                     d: multiset<Pool.Req>, all: multiset<Pool.Req>)
    requires a + b + c + d == all && all[r] <= 1 && (r in b || r in c)
    ensures r in all && r !in a
  {
    assert all[r] == a[r] + b[r] + c[r] + d[r];
  }

  lemma BehindPrefix(begun: seq<Pool.Req>, b: seq<Pool.Req>, c: seq<Pool.Req>, d: seq<Pool.Req>, all: seq<Pool.Req>,
                     r: Pool.Req)
    requires multiset(begun) + multiset(b) + multiset(c) + multiset(d) == multiset(all) && multiset(all)[r] <= 1
    requires begun <= all && (forall i :: 0 <= i < |all| ==> all[i].no == i) && (r in b || r in c)
    ensures r in all && |begun| <= r.no < |all|
  {
    CountedTwice(r, multiset(begun), multiset(b), multiset(c), multiset(d), multiset(all));
    assert r in multiset(all) && r !in multiset(begun);
    var i :| 0 <= i < |all| && all[i] == r;
    assert forall j :: 0 <= j < |begun| ==> begun[j] in multiset(begun);
  }

  /** In an orderly state whatever waits comes after everything begun. */
  lemma WaitsBehind(k: Link, s: State, r: Pool.Req)
    requires Inv(k, s) && InOrder(k, s) && (r in Pooled(k, s) || r in Ready(k, s))
    ensures r in Decoded(k, s) && |Begun(k, s)| <= r.no < |s.recv.decoded|
  {
    AllAccounted(k, s);
    WaitsBehindBegun(k, s, r);
  }

  lemma WaitsBehindBegun(k: Link, s: State, r: Pool.Req)
    requires Pool.Sized(k.pool, s.pool) && InOrder(k, s) && (r in Pooled(k, s) || r in Ready(k, s))
    requires multiset(Begun(k, s)) + multiset(Pooled(k, s)) + multiset(Ready(k, s)) + multiset(Held(k, s))
          == multiset(Decoded(k, s))
    ensures r in Decoded(k, s) && |Begun(k, s)| <= r.no < |s.recv.decoded|
  {
    OnceInTag(k.conn, 0, s.recv.decoded, r);
    BehindPrefix(Begun(k, s), Pooled(k, s), Ready(k, s), Held(k, s), Decoded(k, s), r);
  }

  lemma Places(all: seq<Pool.Req>, a: seq<Pool.Req>, b: seq<Pool.Req>, c: seq<Pool.Req>, d: seq<Pool.Req>)
    requires all == a + b + c + d && forall i :: 0 <= i < |all| ==> all[i].no == i
    ensures forall i :: 0 <= i < |b| ==> b[i].no == |a| + i
    ensures forall i :: 0 <= i < |c| ==> c[i].no == |a| + |b| + i
  {
    forall i | 0 <= i < |b| ensures b[i].no == |a| + i {
      assert b[i] == all[|a| + i];
    }
    forall i | 0 <= i < |c| ensures c[i].no == |a| + |b| + i {
      assert c[i] == all[|a| + |b| + i];
    }
  }

  /** What waits for a worker is in order, right behind what the worker has begun. */
  lemma PooledPlaces(k: Link, s: State)
    requires Inv(k, s)
    ensures forall i :: 0 <= i < |Pooled(k, s)| ==> Pooled(k, s)[i].no == |BegunOnWorker(k, s)| + i
    ensures forall r :: r in Ready(k, s) ==> r.no >= |BegunOnWorker(k, s)| + |Pooled(k, s)|
  {
    assert Pool.Conserved(k.pool, s.pool, k.conn);
    DecodedByPlace(k, s);
    var direct := Pool.Proj(s.pool.direct, k.conn);
    Places(Decoded(k, s), BegunOnWorker(k, s), Pooled(k, s), direct, Held(k, s));
    forall r | r in Ready(k, s) ensures r in direct {
      assert r in multiset(Ready(k, s));
      assert r in multiset(direct);
    }
  }

  lemma NextPooled(k: Link, s: State)
    requires Inv(k, s) && InOrder(k, s) && Pooled(k, s) != []
    ensures Pooled(k, s)[0] in Decoded(k, s) && Pooled(k, s)[0].no == |Begun(k, s)|
  {
    PooledPlaces(k, s);
    WaitsBehind(k, s, Pooled(k, s)[0]);
    AllAccounted(k, s);
  }

  lemma LastReady(k: Link, s: State, z: Pool.Req)
    requires Inv(k, s) && InOrder(k, s) && z in Ready(k, s)
    requires |Pooled(k, s)| + |Ready(k, s)| + |s.recv.outbox| <= 1
    ensures z in Decoded(k, s) && z.no == |Begun(k, s)|
  {
    AllAccounted(k, s);
    WaitsBehind(k, s, z);
  }

  lemma Extends(k: Link, s: State, r: Pool.Req)
    requires InOrder(k, s) && r in Decoded(k, s) && r.no == |Begun(k, s)|
    ensures Begun(k, s) + [r] <= Decoded(k, s)
  {
    Numbered(k, s, r);
  }

  lemma Breaks(k: Link, s: State, r: Pool.Req)
    requires r.no != |Begun(k, s)|
    ensures !(Begun(k, s) + [r] <= Decoded(k, s))
  {
    assert (Begun(k, s) + [r])[|Begun(k, s)|] == r;
  }

  // ------------------------------------------------------- orderly states stay so

  lemma SendingHasNoneReady(k: Link, s: State)
    requires Inv(k, s) && Sending(k, s)
    ensures Ready(k, s) == []
  {
    CountFive([], [], Pool.On(s.pool.begun, k.conn, false), Ready(k, s), Pool.Proj(s.pool.direct, k.conn), []);
  }

  lemma ProjHead(q: seq<Pool.Req>, c: nat)
    requires q != [] && q[0].conn == c
    ensures Pool.Proj(q, c) != [] && Pool.Proj(q, c)[0] == q[0]
  {
  }

  lemma {:induction false} ProjMember(q: seq<Pool.Req>, c: nat, r: Pool.Req)
    ensures r in Pool.Proj(q, c) <==> r in q && r.conn == c
    decreases |q|
  {
    if q != [] {
      ProjMember(q[1..], c, r);
      assert q == [q[0]] + q[1..];
    }
  }

  /** The request, if it is one of this connection's, is the next to begin. */
  predicate IsNext(k: Link, s: State, r: Pool.Req) {
    r.conn == k.conn ==> r in Decoded(k, s) && r.no == |Begun(k, s)|
  }

  /** What can begin at a worker, or in a goroutine of its own, is the next one. */
  predicate OnlyNextWaits(k: Link, s: State)
    requires Pool.Sized(k.pool, s.pool)
  {
    && (Pooled(k, s) != [] ==> IsNext(k, s, Pooled(k, s)[0]))
    && (forall r :: r in Ready(k, s) ==> IsNext(k, s, r))
  }

  lemma NextWaits(k: Link, s: State)
    requires Inv(k, s) && Started(k, s) && InOrder(k, s) && !CanReorder(k, s)
    ensures OnlyNextWaits(k, s)
  {
    if Pooled(k, s) != [] { NextPooled(k, s); }
    if Sending(k, s) { SendingHasNoneReady(k, s); }
    forall r | r in Ready(k, s) ensures IsNext(k, s, r) {
      LastReady(k, s, r);
    }
  }

  lemma HeadIsQueued(cfg: Pool.Config, p: Pool.State, w: nat)
    requires cfg.size > 0 && p.ctx && Pool.Shape(cfg, p) && w < |p.queues| && p.queues[w] != []
    ensures var r := p.queues[w][0];
            Pool.Queued(cfg, p, r.conn) != [] && Pool.Queued(cfg, p, r.conn)[0] == r
  {
    assert Pool.WorkerOk(cfg, p, w);
    assert Pool.Shard(cfg, p.queues[w][0].conn) == w;
    ProjHead(p.queues[w], p.queues[w][0].conn);
  }

  lemma SenderIsPooled(cfg: Pool.Config, p: Pool.State, d: nat)
    requires cfg.size > 0 && p.ctx && Pool.Shape(cfg, p) && Pool.Enabled(cfg, p, Pool.Handoff(d))
    ensures p.senders[d].req.conn == d && Pool.Queued(cfg, p, d) == [] && Pool.Waiting(p, d) == [p.senders[d].req]
  {
  }

  /** A request that begins is the next one. */
  lemma BeginsNext(k: Link, s: State, a: Pool.Label)
    requires Started(k, s) && Pool.Shape(k.pool, s.pool) && OnlyNextWaits(k, s) && Pool.Enabled(k.pool, s.pool, a)
    ensures forall b :: b in Pool.Starting(k.pool, s.pool, a) ==> IsNext(k, s, b.req)
  {
    match a
    case Take(w) => HeadIsQueued(k.pool, s.pool, w);
    case Handoff(d) => SenderIsPooled(k.pool, s.pool, d);
    case BeginDirect(i) => ProjMember(s.pool.ready, k.conn, s.pool.ready[i]);
    case _ =>
  }

  lemma ActKeepsInOrder(k: Link, s: State, a: Pool.Label)
    requires Inv(k, s) && Started(k, s) && InOrder(k, s) && !CanReorder(k, s) && Enabled(k, s, PoolActs(a))
    ensures InOrder(k, Step(k, s, PoolActs(a)))
  {
    NextWaits(k, s);
    BeginsNext(k, s, a);
    Pool.BegunGrows(k.pool, s.pool, a);
    LogKeepsOrder(k, s, Pool.Starting(k.pool, s.pool, a));
  }

  lemma LogKeepsOrder(k: Link, s: State, starting: seq<Pool.Began>)
    requires InOrder(k, s) && |starting| <= 1 && forall b :: b in starting ==> IsNext(k, s, b.req)
    ensures Pool.Begins(s.pool.begun + starting, k.conn) <= Decoded(k, s)
  {
    if starting == [] {
      assert s.pool.begun + starting == s.pool.begun;
    } else {
      var b := starting[0];
      assert starting == [b] && b in starting;
      Pool.LogSnoc(s.pool.begun, b, k.conn, true);
      if b.req.conn == k.conn {
        Extends(k, s, b.req);
      } else {
        assert Begun(k, s) + [] == Begun(k, s);
      }
    }
  }

  lemma StepKeepsInOrder(k: Link, s: State, l: Label)
    requires Inv(k, s) && Started(k, s) && InOrder(k, s) && !CanReorder(k, s) && Enabled(k, s, l)
    ensures InOrder(k, Step(k, s, l))
  {
    var t := Step(k, s, l);
    if l.PoolActs? {
      ActKeepsInOrder(k, s, l.l);
    } else if l.Read? {
      TagAppend(k.conn, 0, s.recv.decoded, t.recv.outbox);
      assert t.pool == s.pool && Decoded(k, s) <= Decoded(k, t);
    } else {
      assert t.recv.decoded == s.recv.decoded && t.pool.begun == s.pool.begun;
    }
  }

  /** What pool actions other than its own submissions do to the requests of a connection that is not sending. */
  lemma FreeLaneShrinks(cfg: Pool.Config, p: Pool.State, a: Pool.Label, c: nat)
    requires cfg.size > 0 && p.ctx && Pool.Shape(cfg, p) && Pool.Enabled(cfg, p, a) && c !in p.senders
    requires a.Submit? ==> a.req.conn != c
    ensures var q := Pool.Step(cfg, p, a);
            && Pool.Sized(cfg, q) && c !in q.senders
            && |Pool.Queued(cfg, q, c)| <= |Pool.Queued(cfg, p, c)|
  {
    Pool.StepKeepsShape(cfg, p, a);
    match a
    case Enqueue(d) =>
      Pool.ProjSnoc(p.queues[Pool.Shard(cfg, d)], p.senders[d].req, c);
    case Take(w) =>
      Pool.ProjOne(p.queues[w][0], c);
    case _ =>
  }

  lemma ReadyShrinks(cfg: Pool.Config, p: Pool.State, a: Pool.Label, c: nat)
    requires Pool.Enabled(cfg, p, a) && (a.Submit? ==> a.req.conn != c)
    ensures |Pool.Proj(Pool.Step(cfg, p, a).ready, c)| <= |Pool.Proj(p.ready, c)|
  {
    if a.Submit? {
      Pool.ProjSnoc(p.ready, a.req, c);
    } else if a.BeginDirect? {
      Pool.ProjWithout(p.ready, a.i, c);
      assert |multiset(Pool.Proj(p.ready, c))| == |Pool.Proj(p.ready, c)|;
    }
  }

  /** What they do to one that is sending. */
  lemma SendingLane(cfg: Pool.Config, p: Pool.State, a: Pool.Label, c: nat)
    requires cfg.size > 0 && p.ctx && Pool.Shape(cfg, p) && Pool.Enabled(cfg, p, a) && c in p.senders
    ensures var q, w := Pool.Step(cfg, p, a), Pool.Shard(cfg, c);
            && Pool.Sized(cfg, q) && q.ctx
            && (c !in q.senders ==>
                  || a == Pool.Enqueue(c)
                  || (a == Pool.Handoff(c) && !p.workers[w].Exited? && Pool.Queued(cfg, q, c) == []))
            && (p.workers[w].Exited? ==>
                  q.workers[w].Exited? && (Pool.HasRoom(cfg, q, w) ==> Pool.HasRoom(cfg, p, w)))
  {
    Pool.StepKeepsShape(cfg, p, a);
  }

  lemma SendingStaysOrderly(k: Link, s: State, a: Pool.Label)
    requires Inv(k, s) && Started(k, s) && Sending(k, s) && !CanReorder(k, s) && Enabled(k, s, PoolActs(a))
    ensures Started(k, Step(k, s, PoolActs(a))) && !CanReorder(k, Step(k, s, PoolActs(a)))
  {
    var t := Step(k, s, PoolActs(a));
    ReadyShrinks(k.pool, s.pool, a, k.conn);
    SendingHasNoneReady(k, s);
    SendingLane(k.pool, s.pool, a, k.conn);
    assert Ready(k, t) == [] && Due(k, t) == Due(k, s);
    if !Sending(k, t) && a == Pool.Handoff(k.conn) {
      assert Pooled(k, t) == [];
    }
  }

  lemma FreeStaysOrderly(k: Link, s: State, a: Pool.Label)
    requires Pool.Shape(k.pool, s.pool) && Started(k, s) && !Sending(k, s) && !CanReorder(k, s)
    requires Enabled(k, s, PoolActs(a))
    ensures Started(k, Step(k, s, PoolActs(a))) && !CanReorder(k, Step(k, s, PoolActs(a)))
  {
    ReadyShrinks(k.pool, s.pool, a, k.conn);
    FreeLaneShrinks(k.pool, s.pool, a, k.conn);
    assert Due(k, Step(k, s, PoolActs(a))) == Due(k, s);
    assert |Pooled(k, Step(k, s, PoolActs(a)))| <= |Pooled(k, s)|;
  }

  lemma DispatchStaysOrderly(k: Link, s: State)
    requires Started(k, s) && !CanReorder(k, s) && Enabled(k, s, Dispatch)
    ensures Started(k, Step(k, s, Dispatch)) && !CanReorder(k, Step(k, s, Dispatch))
  {
    var t := Step(k, s, Dispatch);
    assert Obtainable(k, t) == Obtainable(k, s);
    assert !Sending(k, s) && |s.recv.outbox| == 1 && t.recv.outbox == [];
    Pool.ProjSnoc(s.pool.ready, Next(k, s), k.conn);
    assert Ready(k, s) == [] && Pooled(k, s) == [];
  }

  /** Reading on, with the writer down, takes what was obtainable into the reader's hands. */
  lemma ReadKeepsDue(k: Link, s: State, n: nat)
    requires Incremental(k.decode) && Enabled(k, s, Read(n)) && !s.net.writerUp
    ensures Due(k, Step(k, s, Read(n))) == Due(k, s)
  {
    var t, chunk := Step(k, s, Read(n)), s.net.wire[..n];
    assert AppendLaw(k.decode, s.recv.buffer + chunk, t.net.wire);
    assert s.recv.buffer + chunk + t.net.wire == s.recv.buffer + s.net.wire;
  }

  /** A step of the network or the reader that leaves the pool alone adds nothing that was not due. */
  lemma OtherwiseNotMoreDue(k: Link, s: State, l: Label)
    requires Enabled(k, s, l) && !l.PoolActs? && !l.Dispatch? && !l.Read?
    requires l.WriterStops? && s.recv.up ==> !s.net.writerUp
    ensures var t := Step(k, s, l); t.pool == s.pool && Due(k, t) <= Due(k, s)
  {
  }

  lemma LessDue(k: Link, s: State, t: State)
    requires Started(k, s) && t.pool == s.pool && Due(k, t) <= Due(k, s)
    ensures Started(k, t) && (CanReorder(k, t) ==> CanReorder(k, s))
  {
  }

  /** A reader that waits for a full queue nobody empties gets nothing any more. */
  predicate Stuck(k: Link, s: State)
    requires Started(k, s)
  {
    Sending(k, s) && s.pool.workers[Lane(k)].Exited? && !Pool.HasRoom(k.pool, s.pool, Lane(k))
  }

  lemma NetStaysOrderly(k: Link, s: State, l: Label)
    requires Incremental(k.decode) && Started(k, s) && !CanReorder(k, s) && Enabled(k, s, l)
    requires !l.PoolActs? && !l.Dispatch?
    ensures Started(k, Step(k, s, l)) && !CanReorder(k, Step(k, s, l))
  {
    var t := Step(k, s, l);
    if s.recv.up && s.net.writerUp {
      assert Stuck(k, s) && t.pool == s.pool;
    } else if l.Read? {
      ReadKeepsDue(k, s, l.n);
      LessDue(k, s, t);
    } else {
      OtherwiseNotMoreDue(k, s, l);
      LessDue(k, s, t);
    }
  }

  lemma StepStaysOrderly(k: Link, s: State, l: Label)
    requires Incremental(k.decode) && Inv(k, s) && Started(k, s) && !CanReorder(k, s) && Enabled(k, s, l)
    ensures Started(k, Step(k, s, l)) && !CanReorder(k, Step(k, s, l))
  {
    if l.PoolActs? {
      if Sending(k, s) { SendingStaysOrderly(k, s, l.l); } else { FreeStaysOrderly(k, s, l.l); }
    } else if l.Dispatch? {
      DispatchStaysOrderly(k, s);
    } else {
      NetStaysOrderly(k, s, l);
    }
  }

  lemma {:induction false} OrderStays(k: Link, s: State, run: seq<Label>)
    requires Incremental(k.decode) && Inv(k, s) && Started(k, s) && InOrder(k, s) && !CanReorder(k, s)
    requires After(k, s, run).Some?
    ensures InOrder(k, After(k, s, run).value)
    decreases |run|
  {
    if run != [] {
      StepKeepsInv(k, s, run[0]);
      StepKeepsInOrder(k, s, run[0]);
      StepStaysOrderly(k, s, run[0]);
      OrderStays(k, Step(k, s, run[0]), run[1..]);
    }
  }

  // ----------------------------------------------------- how the order is broken

  /** `run` is possible and breaks the order. */
  predicate Breaking(k: Link, s: State, run: seq<Label>) {
    After(k, s, run).Some? && !InOrder(k, After(k, s, run).value)
  }

  lemma BreakLater(k: Link, s: State, l: Label, run: seq<Label>)
    requires Enabled(k, s, l) && Breaking(k, Step(k, s, l), run)
    ensures Breaking(k, s, [l] + run)
  {
    RunCons(Machine(k), s, l, run);
  }

  /** Two requests waiting in goroutines of their own are not both the next one. */
  lemma ReadyDiffer(k: Link, s: State)
    requires Inv(k, s) && InOrder(k, s) && |Ready(k, s)| >= 2
    ensures Ready(k, s)[0].no != Ready(k, s)[1].no
  {
    var y, z := Ready(k, s)[0], Ready(k, s)[1];
    WaitsBehind(k, s, y);
    WaitsBehind(k, s, z);
    Numbered(k, s, y);
    Numbered(k, s, z);
    if y == z {
      TwiceIsTwice(Ready(k, s), 0, 1);
      OnceInTag(k.conn, 0, s.recv.decoded, y);
      AllAccounted(k, s);
      assert false;
    }
  }

  /** Among two or more that wait, one is in a goroutine of its own without being the next. */
  lemma SomeoneOvertakes(k: Link, s: State) returns (z: Pool.Req)
    requires Inv(k, s) && InOrder(k, s) && |Ready(k, s)| >= 1 && |Pooled(k, s)| + |Ready(k, s)| >= 2
    ensures z in Ready(k, s) && z.no != |Begun(k, s)|
  {
    z := Ready(k, s)[0];
    if |Pooled(k, s)| >= 1 {
      PooledPlaces(k, s);
      AllAccounted(k, s);
      WaitsBehind(k, s, Pooled(k, s)[0]);
    } else if z.no == |Begun(k, s)| {
      ReadyDiffer(k, s);
      z := Ready(k, s)[1];
    }
  }

  lemma Overtake(k: Link, s: State, i: nat)
    requires i < |s.pool.ready| && s.pool.ready[i].conn == k.conn && s.pool.ready[i].no != |Begun(k, s)|
    ensures Breaking(k, s, [PoolActs(Pool.BeginDirect(i))] + [])
  {
    var l := PoolActs(Pool.BeginDirect(i));
    var t := Step(k, s, l);
    Pool.LogSnoc(s.pool.begun, Pool.Began(s.pool.ready[i], false), k.conn, false);
    Breaks(k, s, s.pool.ready[i]);
    assert Decoded(k, t) == Decoded(k, s);
    BreakLater(k, s, l, []);
  }

  lemma BreakNow(k: Link, s: State) returns (run: seq<Label>)
    requires Inv(k, s) && |Ready(k, s)| >= 1 && |Pooled(k, s)| + |Ready(k, s)| >= 2
    ensures Breaking(k, s, run)
  {
    if InOrder(k, s) {
      var z := SomeoneOvertakes(k, s);
      ProjMember(s.pool.ready, k.conn, z);
      var i :| 0 <= i < |s.pool.ready| && s.pool.ready[i] == z;
      Overtake(k, s, i);
      run := [PoolActs(Pool.BeginDirect(i))] + [];
    } else {
      run := [];
    }
  }

  /** With the pool stopped, handing a message on puts it into a goroutine of its own. */
  lemma DispatchMakesReady(k: Link, s: State)
    requires Started(k, s) && !s.pool.active && !Sending(k, s) && s.recv.outbox != []
    ensures Enabled(k, s, Dispatch)
    ensures var t := Step(k, s, Dispatch);
            && Started(k, t) && !t.pool.active && !Sending(k, t)
            && t.recv.outbox == s.recv.outbox[1..] && t.net == s.net && Due(k, t) + 1 == Due(k, s)
            && |Ready(k, t)| == |Ready(k, s)| + 1 && Pooled(k, t) == Pooled(k, s)
  {
    Pool.ProjSnoc(s.pool.ready, Next(k, s), k.conn);
  }

  /** A byte that gives an error completes no message. */
  lemma BadByteBringsNothing(f: Decoder, buf: seq<Byte>, wire: seq<Byte>)
    requires Incremental(f) && f(buf) == Parsed([], buf, true) && wire != [] && !f(buf + wire[..1]).ok
    ensures f(buf + wire).msgs == []
  {
    var s := buf + wire[..1];
    FreshIsStuck(f);
    assert SplitLaw(f, s);
    var n := |s| - |f(s).rest|;
    assert n <= |buf|;
    assert buf[..n] == s[..n] && buf == buf[..n] + buf[n..];
    assert AppendLaw(f, buf[..n], buf[n..]);
    assert AppendLaw(f, s, wire[1..]);
    assert s + wire[1..] == buf + wire;
  }

  lemma BufferIsStuck(k: Link, s: State)
    requires Incremental(k.decode) && DecodesConsumed(k, s)
    ensures k.decode(s.recv.buffer) == Parsed([], s.recv.buffer, true)
  {
    assert SplitLaw(k.decode, s.net.consumed);
  }

  /** As long as something is obtainable from the wire, the next byte can be read. */
  lemma NextByteIsGood(k: Link, s: State)
    requires Incremental(k.decode) && DecodesConsumed(k, s) && s.recv.up && !s.net.writerUp
    requires Obtainable(k, s) > 0 && s.recv.outbox == [] && !Sending(k, s)
    ensures Enabled(k, s, Read(1))
  {
    BufferIsStuck(k, s);
    assert s.recv.buffer + [] == s.recv.buffer;
    if s.net.wire != [] && !k.decode(s.recv.buffer + s.net.wire[..1]).ok {
      BadByteBringsNothing(k.decode, s.recv.buffer, s.net.wire);
    }
  }

  /** With the pool stopped and nothing more coming, everything is read and handed on, and then overtaken. */
  lemma {:induction false} BreakStopped(k: Link, s: State) returns (run: seq<Label>)
    requires Incremental(k.decode) && Inv(k, s) && Started(k, s) && !s.pool.active && !Sending(k, s)
    requires (s.recv.up ==> !s.net.writerUp) && CanReorder(k, s)
    ensures Breaking(k, s, run)
    decreases |s.net.wire|, |s.recv.outbox|
  {
    if Due(k, s) == 0 {
      run := BreakNow(k, s);
    } else {
      var l := if s.recv.outbox != [] then Dispatch else Read(1);
      if s.recv.outbox != [] {
        DispatchMakesReady(k, s);
      } else {
        NextByteIsGood(k, s);
        ReadKeepsDue(k, s, 1);
      }
      StepKeepsInv(k, s, l);
      var rest := BreakStopped(k, Step(k, s, l));
      BreakLater(k, s, l, rest);
      run := [l] + rest;
    }
  }

  /** Two more messages get across behind what was sent. */
  ghost predicate Talks(k: Link, ms: seq<Message>) {
    var e := NewMessage(0, []);
    |k.decode(Wire(k, ms + [e] + [e])).msgs| >= |k.decode(Wire(k, ms)).msgs| + 2
  }

  /** Sent as it is now: nothing is on its way to the wire. */
  predicate Flushed(net: Net) { net.writing == [] && net.queue == [] }

  lemma BreakSent(k: Link, s: State) returns (run: seq<Label>)
    requires Incremental(k.decode) && Inv(k, s) && Started(k, s) && !s.pool.active && !Sending(k, s)
    requires s.recv.up && s.net.writerUp && Flushed(s.net)
    requires |k.decode(Wire(k, s.net.sent)).msgs| >= |s.recv.decoded| + 2
    ensures Breaking(k, s, run)
  {
    StepKeepsInv(k, s, WriterStops);
    var t := Step(k, s, WriterStops);
    assert Wire(k, s.net.sent) == s.net.consumed + s.net.wire;
    assert AppendLaw(k.decode, s.net.consumed, s.net.wire);
    assert Obtainable(k, t) >= 2;
    var rest := BreakStopped(k, t);
    BreakLater(k, s, WriterStops, rest);
    run := [WriterStops] + rest;
  }

  /** The writer's next step towards an empty queue, sending what is left of `ms` when there. */
  function NextOfWriter(s: State, ms: seq<Message>): Label
    requires ms != [] || !Flushed(s.net)
  {
    if s.net.writing != [] then WriterPushes(|s.net.writing|)
    else if s.net.queue != [] then WriterTakes
    else SendToIdleWriter(ms[0].id, ms[0].data)
  }

  function WriterRank(s: State): nat { 2 * |s.net.queue| + if s.net.writing != [] then 1 else 0 }

  /** The writer flushes, the messages `ms` are sent and flushed too, and then the order is broken. */
  lemma {:induction false} BreakSending(k: Link, s: State, ms: seq<Message>) returns (run: seq<Label>)
    requires Incremental(k.decode) && Inv(k, s) && Started(k, s) && !s.pool.active && !Sending(k, s)
    requires s.recv.up && s.net.writerUp && forall m :: m in ms ==> m == NewMessage(m.id, m.data)
    requires |k.decode(Wire(k, s.net.sent + ms)).msgs| >= |s.recv.decoded| + 2
    ensures Breaking(k, s, run)
    decreases |ms|, WriterRank(s)
  {
    if ms == [] && Flushed(s.net) {
      assert s.net.sent + ms == s.net.sent;
      run := BreakSent(k, s);
    } else {
      var l := NextOfWriter(s, ms);
      StepKeepsInv(k, s, l);
      var rest;
      if l.SendToIdleWriter? {
        assert ms[0] in ms && s.net.sent + ms == s.net.sent + [ms[0]] + ms[1..];
        rest := BreakSending(k, Step(k, s, l), ms[1..]);
      } else {
        rest := BreakSending(k, Step(k, s, l), ms);
      }
      BreakLater(k, s, l, rest);
      run := [l] + rest;
    }
  }

  lemma BreakInactive(k: Link, s: State) returns (run: seq<Label>)
    requires Incremental(k.decode) && Inv(k, s) && Started(k, s) && !s.pool.active && !Sending(k, s)
    requires CanReorder(k, s) && (s.recv.up && s.net.writerUp ==> Talks(k, s.net.sent))
    ensures Breaking(k, s, run)
  {
    if s.recv.up && s.net.writerUp {
      DecodedIsPrefix(k, s);
      var e := NewMessage(0, []);
      assert s.net.sent + [e] + [e] == s.net.sent + [e, e];
      run := BreakSending(k, s, [e, e]);
    } else {
      run := BreakStopped(k, s);
    }
  }

  lemma StopKeepsReorder(k: Link, s: State)
    requires Started(k, s) && !Sending(k, s) && CanReorder(k, s) && s.pool.active
    ensures Enabled(k, s, PoolActs(Pool.Deactivate))
    ensures var t := Step(k, s, PoolActs(Pool.Deactivate));
            && Started(k, t) && !t.pool.active && !Sending(k, t) && CanReorder(k, t)
            && t.recv == s.recv && t.net == s.net
  {
    var t := Step(k, s, PoolActs(Pool.Deactivate));
    assert Pooled(k, t) == Pooled(k, s) && Ready(k, t) == Ready(k, s) && Due(k, t) == Due(k, s);
  }

  lemma BreakFree(k: Link, s: State) returns (run: seq<Label>)
    requires Incremental(k.decode) && Inv(k, s) && Started(k, s) && !Sending(k, s) && CanReorder(k, s)
    requires s.recv.up && s.net.writerUp ==> Talks(k, s.net.sent)
    ensures Breaking(k, s, run)
  {
    if s.pool.active {
      var l := PoolActs(Pool.Deactivate);
      StopKeepsReorder(k, s);
      StepKeepsInv(k, s, l);
      var rest := BreakInactive(k, Step(k, s, l));
      BreakLater(k, s, l, rest);
      run := [l] + rest;
    } else {
      run := BreakInactive(k, s);
    }
  }

  /** What brings a sender past its enqueue. */
  function NextOfSender(k: Link, p: Pool.State): Pool.Label
    requires k.pool.size > 0
  {
    var w := Lane(k);
    if Pool.HasRoom(k.pool, p, w) then Pool.Enqueue(k.conn)
    else if w < |p.workers| && Pool.Held(p.workers[w]) != [] then Pool.Finish(w)
    else if Pool.CanHandOff(p, w) then Pool.Handoff(k.conn)
    else Pool.Take(w)
  }

  function SenderRank(k: Link, p: Pool.State): nat
    requires k.pool.size > 0
  {
    var w := Lane(k);
    if Pool.HasRoom(k.pool, p, w) then 0
    else if w < |p.workers| && Pool.Held(p.workers[w]) != [] then 2 else 1
  }

  lemma SenderAdvances(k: Link, p: Pool.State, x: nat)
    requires k.pool.size > 0 && p.ctx && Pool.Shape(k.pool, p) && k.conn in p.senders && x >= 1
    requires if p.workers[Lane(k)].Exited? then Pool.HasRoom(k.pool, p, Lane(k)) else k.pool.cap > 0 || x >= 2
    ensures var a := NextOfSender(k, p);
            && Pool.Enabled(k.pool, p, a)
            && var q := Pool.Step(k.pool, p, a);
            && q.ctx && Pool.Sized(k.pool, q)
            && (k.conn in q.senders ==>
                  && SenderRank(k, q) < SenderRank(k, p)
                  && (if q.workers[Lane(k)].Exited? then Pool.HasRoom(k.pool, q, Lane(k))
                      else k.pool.cap > 0 || x >= 2))
            && (k.conn !in q.senders ==> x >= 2 || Pool.Queued(k.pool, q, k.conn) != [])
  {
    var a, w := NextOfSender(k, p), Lane(k);
    assert Pool.WorkerOk(k.pool, p, w);
    Pool.StepKeepsShape(k.pool, p, a);
    if a == Pool.Enqueue(k.conn) {
      Pool.ProjSnoc(p.queues[w], p.senders[k.conn].req, k.conn);
    }
  }

  lemma SenderStep(k: Link, s: State)
    requires Started(k, s) && Pool.Shape(k.pool, s.pool) && Sending(k, s) && CanReorder(k, s) && Ready(k, s) == []
    ensures var l := PoolActs(NextOfSender(k, s.pool));
            && Enabled(k, s, l)
            && var t := Step(k, s, l);
            && Started(k, t) && CanReorder(k, t)
            && (Sending(k, t) ==> SenderRank(k, t.pool) < SenderRank(k, s.pool))
  {
    SenderAdvances(k, s.pool, Due(k, s));
    var t := Step(k, s, PoolActs(NextOfSender(k, s.pool)));
    assert t.recv == s.recv && t.net == s.net && Due(k, t) == Due(k, s);
    assert !Sending(k, t) ==> |Pooled(k, t)| + Due(k, s) >= 2;
  }

  lemma {:induction false} BreakOrder(k: Link, s: State) returns (run: seq<Label>)
    requires Incremental(k.decode) && Inv(k, s) && Started(k, s) && CanReorder(k, s)
    requires s.recv.up && s.net.writerUp ==> Talks(k, s.net.sent)
    ensures Breaking(k, s, run)
    decreases if Sending(k, s) then 1 + SenderRank(k, s.pool) else 0
  {
    if !Sending(k, s) {
      run := BreakFree(k, s);
    } else {
      SendingHasNoneReady(k, s);
      SenderStep(k, s);
      var l := PoolActs(NextOfSender(k, s.pool));
      StepKeepsInv(k, s, l);
      var rest := BreakOrder(k, Step(k, s, l));
      BreakLater(k, s, l, rest);
      run := [l] + rest;
    }
  }

  /**
   Exactly when the order is sure, for every reachable state of a connection beside a
   started pool, running or stopped: in all continuations, whatever is read, sent or
   stopped, handlers begin in the order of the messages if and only if they have so far
   and no request can be overtaken. With the writer up, the codec is taken to get two more
   messages across. While the pool is running this is a question of a stop to come;
   `Pipeline.MessagesArriveInOrder` covers the runs without one.
   */
  lemma OrderIsSureIff(k: Link, run: seq<Label>)
    requires Incremental(k.decode) && k.pool.size > 0
    requires After(k, Init(StartedPool(k.pool)), run).Some?
    requires var s := After(k, Init(StartedPool(k.pool)), run).value;
             s.recv.up && s.net.writerUp ==> Talks(k, s.net.sent)
    ensures var s := After(k, Init(StartedPool(k.pool)), run).value;
            Started(k, s) && (OrderIsSure(k, s) <==> InOrder(k, s) && !CanReorder(k, s))
  {
    InitInv(k);
    RunKeepsInv(k, Init(StartedPool(k.pool)), run);
    var s := After(k, Init(StartedPool(k.pool)), run).value;
    SureIff(k, s);
  }

  lemma SureIff(k: Link, s: State)
    requires Incremental(k.decode) && Inv(k, s) && Started(k, s)
    requires s.recv.up && s.net.writerUp ==> Talks(k, s.net.sent)
    ensures OrderIsSure(k, s) <==> InOrder(k, s) && !CanReorder(k, s)
  {
    if !InOrder(k, s) {
      assert Breaking(k, s, []);
    } else if CanReorder(k, s) {
      var bad := BreakOrder(k, s);
      assert Breaking(k, s, bad);
    } else {
      forall later | After(k, s, later).Some? ensures InOrder(k, After(k, s, later).value) {
        OrderStays(k, s, later);
      }
    }
  }

  lemma TlvTalks(order: ByteOrder, max: UInt32, k: Link, ms: seq<Message>)
    requires k.decode == TlvDecoder(order, max) && forall m :: k.pack(m) == Pack(order, m)
    requires forall i :: 0 <= i < |ms| ==> Fits(max, ms[i])
    ensures Talks(k, ms)
  {
    var e := NewMessage(0, []);
    TlvDelivers(order, max, k, ms);
    TlvDelivers(order, max, k, ms + [e] + [e]);
  }

  /** The TLV codec always gets two more messages across, as long as everything sent was within the limit. */
  lemma TlvOrderIsSureIff(order: ByteOrder, max: UInt32, conn: nat, queueSize: nat, pool: Pool.Config, run: seq<Label>)
    requires pool.size > 0
    requires After(TlvLink(order, max, conn, queueSize, pool), Init(StartedPool(pool)), run).Some?
    requires forall i :: 0 <= i < |Calls(run)| ==> CallFits(max, Calls(run)[i])
    ensures var k := TlvLink(order, max, conn, queueSize, pool);
            var s := After(k, Init(StartedPool(pool)), run).value;
            Started(k, s) && (OrderIsSure(k, s) <==> InOrder(k, s) && !CanReorder(k, s))
  {
    var k := TlvLink(order, max, conn, queueSize, pool);
    TlvIsIncremental(order, max);
    RunSends(k, StartedPool(pool), run);
    TlvTalks(order, max, k, Messages(Calls(run)));
    OrderIsSureIff(k, run);
  }

  // ------------------------------------------------------------------- a witness

  /** One more label for a run from the beginning. */
  lemma Extend(k: Link, init: State, run: seq<Label>, s: State, l: Label, t: State) returns (longer: seq<Label>)
    requires After(k, init, run) == Some(s) && Enabled(k, s, l) && Step(k, s, l) == t
    ensures After(k, init, longer) == Some(t)
  {
    RunSnoc(Machine(k), init, run, s, l);
    longer := run + [l];
  }

  /** A message is sent and written to the wire. */
  lemma SendOne(k: Link, init: State, run: seq<Label>, s: State, m: Message) returns (longer: seq<Label>, t: State)
    requires After(k, init, run) == Some(s) && s.net.writerUp && s.net.writing == [] && s.net.queue == []
    requires m == NewMessage(m.id, m.data) && k.pack(m) != []
    ensures After(k, init, longer) == Some(t)
    ensures t.recv == s.recv && t.pool == s.pool && t.net.consumed == s.net.consumed
    ensures t.net.writerUp && t.net.writing == [] && t.net.queue == []
    ensures t.net.sent == s.net.sent + [m] && t.net.wire == s.net.wire + k.pack(m)
  {
    var l := SendToIdleWriter(m.id, m.data);
    var u := Step(k, s, l);
    longer := Extend(k, init, run, s, l, u);
    var n := |k.pack(m)|;
    assert k.pack(m)[..n] == k.pack(m);
    t := Step(k, u, WriterPushes(n));
    longer := Extend(k, init, longer, u, WriterPushes(n), t);
  }

  lemma TwoPacked(k: Link, a: Message, b: Message)
    ensures Wire(k, [a, b]) == k.pack(a) + k.pack(b)
  {
    WireSnoc(k, [], a);
    WireSnoc(k, [a], b);
    assert [] + [a] == [a] && [a] + [b] == [a, b] && [] + k.pack(a) == k.pack(a);
  }

  /** Two messages are sent and arrive in the reader's last read. */
  lemma TwoArrive(k: Link, pool: Pool.State, a: Message, b: Message) returns (run: seq<Label>, s: State)
    requires a == NewMessage(a.id, a.data) && b == NewMessage(b.id, b.data) && Incremental(k.decode)
    requires Delivers(k, [a, b]) && k.pack(a) != [] && k.pack(b) != [] && |k.pack(a)| + |k.pack(b)| <= READ_CHUNK_SIZE
    requires k.conn !in pool.senders
    ensures After(k, Init(pool), run) == Some(s) && s.pool == pool && |s.recv.outbox| == 2 && !s.recv.up
  {
    run, s := SendOne(k, Init(pool), [], Init(pool), a);
    run, s := SendOne(k, Init(pool), run, s, b);
    TwoPacked(k, a, b);
    var wire := k.pack(a) + k.pack(b);
    assert [] + k.pack(a) == k.pack(a);
    assert s.net.wire == wire && s.recv.buffer + wire[..|wire|] == wire;
    var t := Step(k, s, Read(|wire|));
    run := Extend(k, Init(pool), run, s, Read(|wire|), t);
    s := Step(k, t, ReaderStops);
    run := Extend(k, Init(pool), run, t, ReaderStops, s);
  }

  /**
   The order really breaks, for every started pool: two messages arrive together, the pool
   is stopped before they are handed on, and the second handler begins first.
   */
  lemma StopCanReorder(k: Link, a: Message, b: Message) returns (before: seq<Label>, run: seq<Label>)
    requires k.pool.size > 0 && Incremental(k.decode)
    requires a == NewMessage(a.id, a.data) && b == NewMessage(b.id, b.data)
    requires Delivers(k, [a, b]) && k.pack(a) != [] && k.pack(b) != [] && |k.pack(a)| + |k.pack(b)| <= READ_CHUNK_SIZE
    ensures After(k, Init(StartedPool(k.pool)), before).Some?
    ensures Breaking(k, After(k, Init(StartedPool(k.pool)), before).value, run)
  {
    var s;
    before, s := TwoArrive(k, StartedPool(k.pool), a, b);
    InitInv(k);
    RunKeepsInv(k, Init(StartedPool(k.pool)), before);
    run := BreakOrder(k, s);
  }

  /** The TLV codec provides such messages, whatever the limit. */
  lemma TlvStopCanReorder(order: ByteOrder, max: UInt32, conn: nat, queueSize: nat, pool: Pool.Config)
    returns (before: seq<Label>, run: seq<Label>)
    requires pool.size > 0
    ensures var k := TlvLink(order, max, conn, queueSize, pool);
            && After(k, Init(StartedPool(pool)), before).Some?
            && Breaking(k, After(k, Init(StartedPool(pool)), before).value, run)
  {
    var k, m := TlvLink(order, max, conn, queueSize, pool), NewMessage(0, []);
    TlvIsIncremental(order, max);
    TlvDelivers(order, max, k, [m, m]);
    assert |k.pack(m)| == 8;
    before, run := StopCanReorder(k, m, m);
  }
}
