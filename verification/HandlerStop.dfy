/**
 Stop under load: one connection (`Lifecycle`) together with the worker pool that runs
 its handlers (`WorkerPool`). The reader can block in SendMsgToTaskQueue, and a handler
 on a worker can call Stop on the connection and thereby wait for that very reader.
 Here the reader's enqueue is not taken for granted: the theorems say exactly when
 Stop still returns.
 */
module HandlerStop {
  import opened Common
  import Codec
  import L = Lifecycle
  import P = WorkerPool

  /** The pool's configuration and the connection's id. */
  datatype Env = Env(cfg: P.Config, conn: nat)

  datatype State = State(
    c: L.Conn,
    outbox: seq<Codec.Message>,   // messages of the current read not yet handed over
    pool: P.State,
    stoppers: map<nat, nat>)      // worker whose handler is calling Stop -> its index among the callers

  datatype Label =
    | Life(l: L.Label)
    | Receive(msgs: seq<Codec.Message>)
    | HandOver                    // SendMsgToTaskQueue, up to the test for "active"
    | ReadOn                      // everything is handed over
    | Pool(a: P.Label)
    | HandlerStops(w: nat)        // the handler running on worker w calls Stop

  /** A new connection beside a pool that is already in use. */
  function Begin(pool: P.State): State { State(L.FRESH, [], pool, map[]) }

  /** The handler on worker `w` is inside Stop. */
  predicate InStop(s: State, w: nat) {
    w in s.stoppers && s.stoppers[w] < |s.c.callers| && !s.c.callers[s.stoppers[w]].Returned?
  }

  predicate Enabled(e: Env, s: State, l: Label) {
    match l
    case Life(l) => L.Enabled(s.c, l) && l != L.Receive && (l == L.ReaderStep ==> s.c.reader != L.Dispatching)
    case Receive(_) => L.Enabled(s.c, L.Receive)
    case HandOver => s.c.reader == L.Dispatching && s.outbox != [] && e.conn !in s.pool.senders
    case ReadOn => s.c.reader == L.Dispatching && s.outbox == [] && e.conn !in s.pool.senders
    case Pool(a) =>
      && P.Enabled(e.cfg, s.pool, a)
      && (a.Submit? ==> a.req.conn != e.conn)
      && (a.Finish? ==> !InStop(s, a.w))
    case HandlerStops(w) => w < |s.pool.workers| && P.Held(s.pool.workers[w]) != [] && !InStop(s, w)
  }

  /** What the connection does in a step, if anything. */
  function OnConn(l: Label): Option<L.Label> {
    match l
    case Life(l) => Some(l)
    case Receive(_) => Some(L.Receive)
    case ReadOn => Some(L.ReaderStep)
    case HandlerStops(_) => Some(L.CallStop)
    case _ => None
  }

  /** What the pool does in a step, if anything. */
  function OnPool(e: Env, s: State, l: Label): Option<P.Label> {
    match l
    case HandOver => if s.outbox == [] then None else Some(P.Submit(P.Req(e.conn, s.outbox[0], 0)))
    case Pool(a) => Some(a)
    case _ => None
  }

  function Step(e: Env, s: State, l: Label): State
    requires Enabled(e, s, l)
  {
    var c, p := OnConn(l), OnPool(e, s, l);
    State(if c.Some? then L.Step(s.c, c.value) else s.c,
          if l.Receive? then l.msgs else if l == HandOver then s.outbox[1..] else s.outbox,
          if p.Some? then P.Step(e.cfg, s.pool, p.value) else s.pool,
          if l.HandlerStops? then s.stoppers[l.w := |s.c.callers|]
          else if l.Pool? && l.a.Finish? then s.stoppers - {l.a.w}
          else s.stoppers)
  }

  function Machine(e: Env): (State, Label) -> Option<State> {
    (s, l) => if Enabled(e, s, l) then Some(Step(e, s, l)) else None
  }

  function After(e: Env, s: State, run: seq<Label>): Option<State> { Run(Machine(e), s, run) }

  // ---------------------------------------------------------------- invariant

  predicate ReaderBusy(e: Env, s: State) {
    s.outbox != [] || e.conn in s.pool.senders ==> s.c.reader == L.Dispatching
  }

  predicate StopperOk(s: State, w: nat)
    requires w in s.stoppers
  {
    w < |s.pool.workers| && P.Held(s.pool.workers[w]) != [] && s.stoppers[w] < |s.c.callers|
  }

  predicate StoppersOk(s: State) {
    forall w :: w in s.stoppers ==> StopperOk(s, w)
  }

  ghost predicate Inv(e: Env, s: State) {
    L.Inv(s.c) && P.Inv(e.cfg, s.pool) && ReaderBusy(e, s) && StoppersOk(s)
  }

  lemma OnlyReaderMoves(c: L.Conn, l: L.Label)
    requires L.Enabled(c, l) && L.LocalInv(c) && c.reader == L.Dispatching && l != L.ReaderStep
    ensures L.Step(c, l).reader == L.Dispatching
  {
  }

  lemma CallersStay(c: L.Conn, l: L.Label)
    requires L.Enabled(c, l)
    ensures |c.callers| <= |L.Step(c, l).callers|
  {
  }

  lemma StepKeepsReaderBusy(e: Env, s: State, l: Label)
    requires L.LocalInv(s.c) && ReaderBusy(e, s) && Enabled(e, s, l)
    ensures ReaderBusy(e, Step(e, s, l))
  {
    var t := Step(e, s, l);
    if l.Life? && s.c.reader == L.Dispatching {
      OnlyReaderMoves(s.c, l.l);
    } else if l.Pool? {
      assert e.conn in t.pool.senders ==> e.conn in s.pool.senders;
    }
  }

  /** A worker keeps its request until it finishes it. */
  lemma HoldsOn(cfg: P.Config, p: P.State, a: P.Label, w: nat)
    requires P.Enabled(cfg, p, a) && a != P.Finish(w)
    requires w < |p.workers| && P.Held(p.workers[w]) != [] && p.ctx
    ensures w < |P.Step(cfg, p, a).workers| && P.Step(cfg, p, a).workers[w] == p.workers[w]
  {
  }

  lemma StepKeepsStopper(e: Env, s: State, l: Label, w: nat)
    requires P.Sized(e.cfg, s.pool) && Enabled(e, s, l)
    requires w in s.stoppers && StopperOk(s, w) && w in Step(e, s, l).stoppers
    ensures StopperOk(Step(e, s, l), w)
  {
    var c, p := OnConn(l), OnPool(e, s, l);
    if c.Some? { CallersStay(s.c, c.value); }
    if p.Some? { HoldsOn(e.cfg, s.pool, p.value, w); }
  }

  lemma StepKeepsStoppersOk(e: Env, s: State, l: Label)
    requires P.Sized(e.cfg, s.pool) && StoppersOk(s) && Enabled(e, s, l)
    ensures StoppersOk(Step(e, s, l))
  {
    var t := Step(e, s, l);
    forall w | w in t.stoppers ensures StopperOk(t, w) {
      if w in s.stoppers {
        StepKeepsStopper(e, s, l, w);
      }
    }
  }

  lemma StepKeepsInv(e: Env, s: State, l: Label)
    requires Inv(e, s) && Enabled(e, s, l)
    ensures Inv(e, Step(e, s, l))
  {
    var c, p := OnConn(l), OnPool(e, s, l);
    if c.Some? { L.StepKeepsInv(s.c, c.value); }
    if p.Some? { P.StepKeepsInv(e.cfg, s.pool, p.value); }
    StepKeepsReaderBusy(e, s, l);
    StepKeepsStoppersOk(e, s, l);
  }

  lemma {:induction false} RunKeepsInv(e: Env, s: State, run: seq<Label>)
    requires Inv(e, s) && After(e, s, run).Some?
    ensures Inv(e, After(e, s, run).value)
    decreases |run|
  {
    if run != [] {
      StepKeepsInv(e, s, run[0]);
      RunKeepsInv(e, Step(e, s, run[0]), run[1..]);
    }
  }

  lemma BeginInv(e: Env, pool: P.State)
    requires P.Inv(e.cfg, pool) && e.conn !in pool.senders
    ensures Inv(e, Begin(pool))
  {
  }

  // -------------------------------------------------------------- blocked readers

  /**
   The reader waits for a place in a full queue whose worker has left, or is itself
   inside Stop on this connection.
   */
  predicate Blocked(e: Env, s: State) {
    && e.cfg.size > 0 && e.conn in s.pool.senders
    && var w := P.Shard(e.cfg, e.conn);
       && w < |s.pool.workers| && w < |s.pool.queues|
       && !P.HasRoom(e.cfg, s.pool, w)
       && (s.pool.workers[w].Exited? || InStop(s, w))
  }

  /** With a reader that is not gone, no Stop can return any more. */
  lemma NobodyReturns(c: L.Conn, l: L.Label, i: nat)
    requires L.LocalInv(c) && c.reader == L.Dispatching && L.Enabled(c, l)
    requires i < |c.callers| && L.CallerOk(c, i)
    ensures i < |L.Step(c, l).callers| && (L.Step(c, l).callers[i].Returned? <==> c.callers[i].Returned?)
  {
    assert c.started && c.wg > 0;
  }

  /** The queue of a worker that cannot take stays full, and its sender stays in front of it. */
  lemma QueueStaysFull(e: Env, p: P.State, a: P.Label)
    requires P.Sized(e.cfg, p) && p.ctx && P.Enabled(e.cfg, p, a) && e.conn in p.senders && e.cfg.size > 0
    requires var w := P.Shard(e.cfg, e.conn);
             !P.HasRoom(e.cfg, p, w) && (p.workers[w].Exited? || (P.Held(p.workers[w]) != [] && a != P.Finish(w)))
    ensures var w, q := P.Shard(e.cfg, e.conn), P.Step(e.cfg, p, a);
            && e.conn in q.senders && w < |q.workers| && w < |q.queues|
            && !P.HasRoom(e.cfg, q, w) && q.workers[w] == p.workers[w]
  {
    var w := P.Shard(e.cfg, e.conn);
    assert a.Enqueue? ==> P.Shard(e.cfg, a.conn) != w;
    assert a.Handoff? ==> P.Shard(e.cfg, a.conn) != w;
  }

  /** The same calls of Stop have returned. */
  predicate SameReturns(c: L.Conn, d: L.Conn) {
    |c.callers| <= |d.callers|
    && forall i :: 0 <= i < |c.callers| ==> (d.callers[i].Returned? <==> c.callers[i].Returned?)
  }

  lemma SameReturnsTransitive(c: L.Conn, d: L.Conn, e: L.Conn)
    requires SameReturns(c, d) && SameReturns(d, e)
    ensures SameReturns(c, e)
  {
  }

  lemma ConnBlocks(c: L.Conn, l: L.Label)
    requires L.Inv(c) && c.reader == L.Dispatching && L.Enabled(c, l)
    ensures SameReturns(c, L.Step(c, l))
  {
    CallersStay(c, l);
    forall i | 0 <= i < |c.callers| ensures L.Step(c, l).callers[i].Returned? <==> c.callers[i].Returned? {
      NobodyReturns(c, l, i);
    }
  }

  lemma BlockedStep(e: Env, s: State, l: Label)
    requires Inv(e, s) && Blocked(e, s) && Enabled(e, s, l)
    ensures Blocked(e, Step(e, s, l)) && SameReturns(s.c, Step(e, s, l).c)
  {
    var w, c, p := P.Shard(e.cfg, e.conn), OnConn(l), OnPool(e, s, l);
    if c.Some? { ConnBlocks(s.c, c.value); }
    assert w in s.stoppers ==> StopperOk(s, w);
    if p.Some? { QueueStaysFull(e, s.pool, p.value); }
  }

  /**
   A blocked reader is a deadlock: in every continuation, whatever anybody does, the
   reader stays blocked and no call of Stop returns that has not already.
   */
  lemma {:induction false} BlockedForEver(e: Env, s: State, run: seq<Label>)
    requires Inv(e, s) && Blocked(e, s) && After(e, s, run).Some?
    ensures Blocked(e, After(e, s, run).value) && SameReturns(s.c, After(e, s, run).value.c)
    decreases |run|
  {
    if run != [] {
      var t := Step(e, s, run[0]);
      StepKeepsInv(e, s, run[0]);
      BlockedStep(e, s, run[0]);
      BlockedForEver(e, t, run[1..]);
      SameReturnsTransitive(s.c, t.c, After(e, t, run[1..]).value.c);
    }
  }

  // -------------------------------------------- otherwise every Stop returns

  /** What goroutines do by themselves: no new calls, messages or submissions of other connections. */
  predicate Internal(l: Label) {
    match l
    case Life(l) => L.Internal(l)
    case HandOver => true
    case ReadOn => true
    case Pool(a) => P.IsForward(a) || a.BeginDirect?
    case _ => false
  }

  /** The next step towards emptying the reader's hands. */
  function NextOfReader(e: Env, s: State): Label
    requires e.cfg.size > 0
  {
    var w := P.Shard(e.cfg, e.conn);
    if e.conn !in s.pool.senders then if s.outbox == [] then ReadOn else HandOver
    else if P.HasRoom(e.cfg, s.pool, w) then Pool(P.Enqueue(e.conn))
    else if P.CanHandOff(s.pool, w) then Pool(P.Handoff(e.conn))
    else if w < |s.pool.queues| && s.pool.queues[w] != [] && w < |s.pool.workers| && P.Held(s.pool.workers[w]) == []
         then Pool(P.Take(w))
    else Pool(P.Finish(w))
  }

  lemma ReaderProgress(e: Env, s: State)
    requires Inv(e, s) && s.c.reader == L.Dispatching && !Blocked(e, s)
    ensures exists l :: Internal(l) && Enabled(e, s, l)
  {
    if e.conn !in s.pool.senders {
      var l := if s.outbox == [] then ReadOn else HandOver;
      assert Internal(l) && Enabled(e, s, l);
    } else {
      assert P.Sized(e.cfg, s.pool);
      var l := NextOfReader(e, s);
      assert Internal(l) && Enabled(e, s, l);
    }
  }

  /** Unless its reader is blocked, a connection with a waiting Stop caller never stands still. */
  lemma Progress(e: Env, s: State, i: nat)
    requires Inv(e, s) && i < |s.c.callers| && !s.c.callers[i].Returned? && !Blocked(e, s)
    ensures exists l :: Internal(l) && Enabled(e, s, l)
  {
    if s.c.reader == L.Dispatching {
      ReaderProgress(e, s);
    } else {
      L.NoDeadlock(s.c, i);
      var l :| L.Internal(l) && L.Enabled(s.c, l);
      assert Internal(Life(l)) && Enabled(e, s, Life(l));
    }
  }

  function Measure(e: Env, s: State): nat
    requires P.Sized(e.cfg, s.pool)
  {
    L.Measure(s.c) + P.PoolMeasure(e.cfg, s.pool) + |s.pool.ready| + 8 * |s.outbox|
  }

  lemma HandOverDecreases(e: Env, s: State)
    requires Inv(e, s) && Enabled(e, s, HandOver)
    ensures P.Sized(e.cfg, Step(e, s, HandOver).pool) && Measure(e, Step(e, s, HandOver)) < Measure(e, s)
  {
    var r := P.Req(e.conn, s.outbox[0], 0);
    P.StepKeepsShape(e.cfg, s.pool, P.Submit(r));
    P.SenderComes(s.pool.senders, e.conn, if e.cfg.metrics then P.Trying(r) else P.Blocking(r));
  }

  lemma PoolStepDecreases(cfg: P.Config, p: P.State, a: P.Label)
    requires P.Shape(cfg, p) && P.Enabled(cfg, p, a) && (P.IsForward(a) || a.BeginDirect?)
    ensures var q := P.Step(cfg, p, a);
            P.Sized(cfg, q) && P.PoolMeasure(cfg, q) + |q.ready| < P.PoolMeasure(cfg, p) + |p.ready|
  {
    if P.IsForward(a) {
      P.ForwardStepDecreases(cfg, p, a);
      assert P.Step(cfg, p, a).ready == p.ready;
    }
  }

  lemma InternalStepDecreases(e: Env, s: State, l: Label)
    requires Inv(e, s) && Internal(l) && Enabled(e, s, l)
    ensures P.Sized(e.cfg, Step(e, s, l).pool) && Measure(e, Step(e, s, l)) < Measure(e, s)
  {
    match l
    case Life(k) => L.InternalStepDecreases(s.c, k);
    case ReadOn => L.InternalStepDecreases(s.c, L.ReaderStep);
    case HandOver => HandOverDecreases(e, s);
    case Pool(a) => PoolStepDecreases(e.cfg, s.pool, a);
  }

  /**
   From any reachable state, whatever the goroutines do among themselves, they come to
   rest after at most `Measure` steps; and then every call of Stop has returned, unless
   the reader is blocked, in which case (`BlockedForEver`) it never will.
   */
  lemma {:induction false} StopReturnsUnlessBlocked(e: Env, s: State, run: seq<Label>)
    requires Inv(e, s) && After(e, s, run).Some?
    requires forall k :: 0 <= k < |run| ==> Internal(run[k])
    ensures |run| <= Measure(e, s)
    ensures var t := After(e, s, run).value;
            (forall l :: Internal(l) ==> !Enabled(e, t, l)) ==>
              Blocked(e, t) || forall i :: 0 <= i < |t.c.callers| ==> t.c.callers[i].Returned?
    decreases |run|
  {
    if run == [] {
      if (forall l :: Internal(l) ==> !Enabled(e, s, l)) && !Blocked(e, s) {
        forall i | 0 <= i < |s.c.callers| ensures s.c.callers[i].Returned? {
          if !s.c.callers[i].Returned? { Progress(e, s, i); }
        }
      }
    } else {
      StepKeepsInv(e, s, run[0]);
      InternalStepDecreases(e, s, run[0]);
      StopReturnsUnlessBlocked(e, Step(e, s, run[0]), run[1..]);
    }
  }

  // -------------------------------------- exactly when Stop in a handler is safe

  /** The reader can still get data: it is there or will be launched, and the socket is open. */
  predicate MayRead(c: L.Conn) {
    && c.open
    && (|| c.reader == L.Reading || c.reader == L.Dispatching
        || (c.reader == L.NoReader && (c.core.start == L.Uncalled ==> c.core.phase == L.Created)))
  }

  /** The reader has, or can still get, something to hand over. */
  predicate CanHandOver(e: Env, s: State) {
    s.outbox != [] || e.conn in s.pool.senders || MayRead(s.c)
  }

  ghost predicate NeverBlocked(e: Env, s: State) {
    forall run :: After(e, s, run).Some? ==> !Blocked(e, After(e, s, run).value)
  }

  lemma SealIsKept(c: L.Conn, l: L.Label)
    requires L.HbInv(c.core) && L.LocalInv(c) && L.Enabled(c, l) && !MayRead(c)
    ensures !MayRead(L.Step(c, l))
  {
    L.StepOnCore(c, l);
  }

  lemma SealedStep(e: Env, s: State, l: Label)
    requires Inv(e, s) && !CanHandOver(e, s) && Enabled(e, s, l)
    ensures !CanHandOver(e, Step(e, s, l))
  {
    var c := OnConn(l);
    if c.Some? { SealIsKept(s.c, c.value); }
    assert !l.Receive?;
    if l.Pool? {
      assert e.conn !in P.Step(e.cfg, s.pool, l.a).senders;
    }
  }

  lemma {:induction false} SealedForEver(e: Env, s: State, run: seq<Label>)
    requires Inv(e, s) && !CanHandOver(e, s) && After(e, s, run).Some?
    ensures !CanHandOver(e, After(e, s, run).value)
    decreases |run|
  {
    if run != [] {
      StepKeepsInv(e, s, run[0]);
      SealedStep(e, s, run[0]);
      SealedForEver(e, Step(e, s, run[0]), run[1..]);
    }
  }

  /** The worker of this connection is inside Stop on it, and the pool is running. */
  ghost predicate Waiting(e: Env, s: State, w: nat) {
    Inv(e, s) && e.cfg.size > 0 && w == P.Shard(e.cfg, e.conn) && InStop(s, w) && s.pool.active
  }

  /** Another connection on the same worker. */
  function Neighbour(e: Env): nat { e.conn + e.cfg.size }

  /** The neighbour's reader puts another request into the queue. */
  function NextOfNeighbour(e: Env, s: State): Label
    requires e.conn in s.pool.senders
  {
    if Neighbour(e) in s.pool.senders then Pool(P.Enqueue(Neighbour(e)))
    else Pool(P.Submit(P.Req(Neighbour(e), s.pool.senders[e.conn].req.msg, 0)))
  }

  function Room(e: Env, s: State, w: nat): nat {
    if P.HasRoom(e.cfg, s.pool, w) then e.cfg.cap - |s.pool.queues[w]| else 0
  }

  lemma NeighbourStep(e: Env, s: State, w: nat)
    requires Waiting(e, s, w) && e.conn in s.pool.senders && P.HasRoom(e.cfg, s.pool, w)
    ensures var l := NextOfNeighbour(e, s);
            && Enabled(e, s, l)
            && var t := Step(e, s, l);
            && Waiting(e, t, w) && e.conn in t.pool.senders
            && Room(e, t, w) == Room(e, s, w) - (if l.a.Enqueue? then 1 else 0)
            && (l.a.Enqueue? || Neighbour(e) in t.pool.senders)
  {
    P.ShardRepeats(e.cfg, e.conn);
    var l := NextOfNeighbour(e, s);
    StepKeepsInv(e, s, l);
  }

  /** Neighbours can fill the queue in front of a reader that has tested "active". */
  lemma {:induction false} FillUp(e: Env, s: State, w: nat) returns (run: seq<Label>)
    requires Waiting(e, s, w) && e.conn in s.pool.senders
    ensures After(e, s, run).Some? && Blocked(e, After(e, s, run).value) && InStop(After(e, s, run).value, w)
    decreases Room(e, s, w), if Neighbour(e) in s.pool.senders then 0 else 1
  {
    if P.HasRoom(e.cfg, s.pool, w) {
      var l := NextOfNeighbour(e, s);
      NeighbourStep(e, s, w);
      var rest := FillUp(e, Step(e, s, l), w);
      RunCons(Machine(e), s, l, rest);
      run := [l] + rest;
    } else {
      run := [];
      assert StopperOk(s, w);
    }
  }

  /** What brings a reader that is not yet there to its first read. */
  function NextOfLaunch(c: L.Conn): L.Label {
    if c.core.start == L.Uncalled then L.CallStart(false)
    else if L.StartReady(c.core) then L.StartStep else L.BodyStep
  }

  function LaunchRank(c: L.Conn): nat {
    if c.reader == L.NoReader then 22 - L.StartPos(c.core.start) - L.OncePos(c.core.once) else 0
  }

  lemma LaunchStep(c: L.Conn)
    requires L.HbInv(c.core) && L.LocalInv(c) && c.reader == L.NoReader && MayRead(c)
    ensures var l := NextOfLaunch(c);
            && L.Enabled(c, l) && l != L.Receive && l != L.ReaderStep
            && var d := L.Step(c, l);
            && d.callers == c.callers && MayRead(d) && LaunchRank(d) < LaunchRank(c)
            && (d.reader == L.NoReader || d.reader == L.Reading)
  {
    var l := NextOfLaunch(c);
    assert L.Enabled(c, l);
    L.StepOnCore(c, l);
    if l == L.StartStep { L.StartKeepsHbInv(c.core); }
    if l == L.BodyStep { L.BodyKeepsHbInv(c.core); }
  }

  /** The next step of a reader on its way to handing something over. */
  function NextOfApproach(s: State): Label {
    if s.outbox != [] then HandOver
    else if s.c.reader == L.Reading then Receive([Codec.NewMessage(0, [])])
    else if s.c.reader == L.Dispatching then ReadOn
    else Life(NextOfLaunch(s.c))
  }

  function ApproachRank(s: State): nat {
    if s.outbox != [] then 1
    else if s.c.reader == L.Reading then 2
    else if s.c.reader == L.Dispatching then 3
    else 4 + LaunchRank(s.c)
  }

  lemma ApproachStep(e: Env, s: State, w: nat)
    requires Waiting(e, s, w) && CanHandOver(e, s) && e.conn !in s.pool.senders
    ensures var l := NextOfApproach(s);
            && Enabled(e, s, l)
            && var t := Step(e, s, l);
            && Waiting(e, t, w) && CanHandOver(e, t)
            && (e.conn in t.pool.senders || ApproachRank(t) < ApproachRank(s))
  {
    var l := NextOfApproach(s);
    if s.outbox == [] && s.c.reader == L.NoReader {
      LaunchStep(s.c);
    }
    StepKeepsInv(e, s, l);
  }

  lemma {:induction false} GetsBlocked(e: Env, s: State, w: nat) returns (run: seq<Label>)
    requires Waiting(e, s, w) && CanHandOver(e, s)
    ensures After(e, s, run).Some? && Blocked(e, After(e, s, run).value) && InStop(After(e, s, run).value, w)
    decreases if e.conn in s.pool.senders then 0 else ApproachRank(s)
  {
    if e.conn in s.pool.senders {
      run := FillUp(e, s, w);
    } else {
      var l := NextOfApproach(s);
      ApproachStep(e, s, w);
      var rest := GetsBlocked(e, Step(e, s, l), w);
      RunCons(Machine(e), s, l, rest);
      run := [l] + rest;
    }
  }

  /** A running pool whose worker for this connection is about to get a handler that calls Stop. */
  ghost predicate Running(e: Env, s: State, w: nat) {
    Inv(e, s) && e.cfg.size > 0 && w == P.Shard(e.cfg, e.conn) && s.pool.active && CanHandOver(e, s)
  }

  function ToyRequest(e: Env): P.Req { P.Req(Neighbour(e), Codec.NewMessage(0, []), 0) }

  /** What gives that worker a request, and then makes the handler call Stop. */
  function NextOfLure(e: Env, s: State, w: nat): Label {
    if w < |s.pool.workers| && P.Held(s.pool.workers[w]) != [] then HandlerStops(w)
    else if w < |s.pool.queues| && s.pool.queues[w] != [] then Pool(P.Take(w))
    else if Neighbour(e) in s.pool.senders then Pool(P.Handoff(Neighbour(e)))
    else Pool(P.Submit(ToyRequest(e)))
  }

  function LureRank(e: Env, s: State, w: nat): nat {
    if w < |s.pool.workers| && P.Held(s.pool.workers[w]) != [] then 1
    else if w < |s.pool.queues| && s.pool.queues[w] != [] then 2
    else if Neighbour(e) in s.pool.senders then 2
    else 3
  }

  lemma PoolLure(e: Env, p: P.State, w: nat)
    requires e.cfg.size > 0 && w == P.Shard(e.cfg, e.conn) && p.active && p.ctx && P.Shape(e.cfg, p)
    requires P.Held(p.workers[w]) == []
    ensures p.workers[w].Selecting?
  {
    assert P.WorkerOk(e.cfg, p, w);
  }

  /** The worker, waiting for a request, takes one or the neighbour submits one. */
  lemma PoolLured(e: Env, p: P.State, w: nat, a: P.Label)
    requires e.cfg.size > 0 && w == P.Shard(e.cfg, e.conn) == P.Shard(e.cfg, Neighbour(e)) && p.active && p.ctx
    requires P.Sized(e.cfg, p) && p.workers[w].Selecting?
    requires || (a == P.Take(w) && p.queues[w] != [])
             || (a == P.Handoff(Neighbour(e)) && p.queues[w] == [] && Neighbour(e) in p.senders)
             || (a == P.Submit(ToyRequest(e)) && Neighbour(e) !in p.senders)
    ensures P.Enabled(e.cfg, p, a)
    ensures var q := P.Step(e.cfg, p, a);
            && q.active && (e.conn in q.senders <==> e.conn in p.senders)
            && w < |q.workers| && |q.queues| == |p.queues|
            && if a.Submit? then q.queues == p.queues && Neighbour(e) in q.senders else P.Held(q.workers[w]) != []
  {
  }

  lemma LureCall(e: Env, s: State, w: nat)
    requires Running(e, s, w) && !InStop(s, w) && P.Held(s.pool.workers[w]) != []
    ensures Enabled(e, s, HandlerStops(w))
    ensures Running(e, Step(e, s, HandlerStops(w)), w) && InStop(Step(e, s, HandlerStops(w)), w)
  {
    StepKeepsInv(e, s, HandlerStops(w));
    var t := Step(e, s, HandlerStops(w));
    assert t.pool == s.pool && t.outbox == s.outbox;
    assert t.c.callers == s.c.callers + [L.Entering];
  }

  lemma LurePool(e: Env, s: State, w: nat)
    requires Running(e, s, w) && P.Held(s.pool.workers[w]) == []
    ensures var l := NextOfLure(e, s, w);
            && l.Pool? && Enabled(e, s, l)
            && var t := Step(e, s, l);
            && Running(e, t, w) && LureRank(e, t, w) < LureRank(e, s, w)
  {
    P.ShardRepeats(e.cfg, e.conn);
    PoolLure(e, s.pool, w);
    var l := NextOfLure(e, s, w);
    PoolLured(e, s.pool, w, l.a);
    StepKeepsInv(e, s, l);
    assert Step(e, s, l).c == s.c && Step(e, s, l).outbox == s.outbox;
  }

  lemma LureStep(e: Env, s: State, w: nat)
    requires Running(e, s, w) && !InStop(s, w)
    ensures var l := NextOfLure(e, s, w);
            && Enabled(e, s, l)
            && var t := Step(e, s, l);
            && Running(e, t, w) && (InStop(t, w) || LureRank(e, t, w) < LureRank(e, s, w))
  {
    if P.Held(s.pool.workers[w]) == [] { LurePool(e, s, w); } else { LureCall(e, s, w); }
  }

  /** As long as the pool is running and the reader has something to hand over, it can get blocked. */
  lemma {:induction false} CanGetBlocked(e: Env, s: State, w: nat) returns (run: seq<Label>)
    requires Running(e, s, w)
    ensures After(e, s, run).Some? && Blocked(e, After(e, s, run).value)
    decreases LureRank(e, s, w)
  {
    if InStop(s, w) {
      run := GetsBlocked(e, s, w);
    } else {
      var l := NextOfLure(e, s, w);
      LureStep(e, s, w);
      var t := Step(e, s, l);
      var rest;
      if InStop(t, w) { rest := GetsBlocked(e, t, w); } else { rest := CanGetBlocked(e, t, w); }
      RunCons(Machine(e), s, l, rest);
      run := [l] + rest;
    }
  }

  // ------------------------------------------------- beside a pool that was stopped

  /** The other senders on the worker of connection `c`. */
  function Others(cfg: P.Config, p: P.State, c: nat): set<nat>
    requires cfg.size > 0
  {
    set d | d in p.senders && d != c && P.Shard(cfg, d) == P.Shard(cfg, c)
  }

  /** The worker waits for a request. */
  predicate IsFree(pc: P.Worker) { pc.Selecting? || pc.Draining? }

  /**
   How many requests can stand in the way of connection `c`: those queued on its worker
   and those other senders hold for it, less one if the worker is free to take one.
   */
  function Load(cfg: P.Config, p: P.State, c: nat): nat
    requires cfg.size > 0 && p.ctx && P.Sized(cfg, p)
  {
    var w := P.Shard(cfg, c);
    |Others(cfg, p, c)| + |p.queues[w]| - if IsFree(p.workers[w]) && p.queues[w] != [] then 1 else 0
  }

  lemma OtherLeaves(cfg: P.Config, p: P.State, q: P.State, c: nat, d: nat)
    requires cfg.size > 0 && d in p.senders && d != c && q.senders == p.senders - {d}
    ensures |Others(cfg, q, c)| == |Others(cfg, p, c)| - if P.Shard(cfg, d) == P.Shard(cfg, c) then 1 else 0
  {
    if P.Shard(cfg, d) == P.Shard(cfg, c) {
      assert Others(cfg, q, c) == Others(cfg, p, c) - {d} && d in Others(cfg, p, c);
    } else {
      assert Others(cfg, q, c) == Others(cfg, p, c);
    }
  }

  /** With the pool stopped nothing more comes, so the load never grows. */
  lemma LoadStep(cfg: P.Config, p: P.State, a: P.Label, c: nat)
    requires cfg.size > 0 && p.ctx && !p.active && P.Shape(cfg, p) && c in p.senders && P.Enabled(cfg, p, a)
    ensures var q := P.Step(cfg, p, a);
            && P.Sized(cfg, q) && q.ctx && !q.active
            && (c in q.senders ==> Load(cfg, q, c) <= Load(cfg, p, c))
  {
    P.StepKeepsShape(cfg, p, a);
    var q := P.Step(cfg, p, a);
    if (a.Enqueue? || a.Handoff?) && a.conn != c {
      OtherLeaves(cfg, p, q, c, a.conn);
    } else if c in q.senders {
      assert Others(cfg, q, c) == Others(cfg, p, c);
    }
  }

  /** Beside a stopped pool, the reader is not in the pool's hands or has room for certain. */
  predicate HasRoomForCertain(e: Env, s: State) {
    && e.cfg.size > 0 && s.pool.ctx && !s.pool.active && P.Sized(e.cfg, s.pool)
    && (e.conn in s.pool.senders ==> Load(e.cfg, s.pool, e.conn) < e.cfg.cap)
  }

  lemma CertainStep(e: Env, s: State, l: Label)
    requires Inv(e, s) && HasRoomForCertain(e, s) && Enabled(e, s, l)
    ensures HasRoomForCertain(e, Step(e, s, l))
  {
    var a := OnPool(e, s, l);
    if a.Some? {
      P.StepKeepsShape(e.cfg, s.pool, a.value);
      if e.conn in s.pool.senders {
        LoadStep(e.cfg, s.pool, a.value, e.conn);
      }
    }
  }

  lemma CertainIsNotBlocked(e: Env, s: State)
    requires StoppersOk(s) && HasRoomForCertain(e, s)
    ensures !Blocked(e, s)
  {
    var w := P.Shard(e.cfg, e.conn);
    assert w in s.stoppers ==> StopperOk(s, w);
  }

  lemma {:induction false} CertainForEver(e: Env, s: State, run: seq<Label>)
    requires Inv(e, s) && HasRoomForCertain(e, s) && After(e, s, run).Some?
    ensures !Blocked(e, After(e, s, run).value)
    decreases |run|
  {
    CertainIsNotBlocked(e, s);
    if run != [] {
      StepKeepsInv(e, s, run[0]);
      CertainStep(e, s, run[0]);
      CertainForEver(e, Step(e, s, run[0]), run[1..]);
    }
  }

  /** A sender beside a stopped pool whose load reaches the capacity. */
  ghost predicate Crowded(e: Env, s: State, w: nat) {
    && Inv(e, s) && e.cfg.size > 0 && w == P.Shard(e.cfg, e.conn)
    && s.pool.ctx && !s.pool.active && e.conn in s.pool.senders
    && Load(e.cfg, s.pool, e.conn) >= e.cfg.cap
  }

  lemma OtherEnqueues(e: Env, s: State, w: nat, d: nat)
    requires Crowded(e, s, w) && !IsFree(s.pool.workers[w]) && P.HasRoom(e.cfg, s.pool, w)
    requires d in Others(e.cfg, s.pool, e.conn)
    ensures Enabled(e, s, Pool(P.Enqueue(d)))
    ensures var t := Step(e, s, Pool(P.Enqueue(d)));
            && Crowded(e, t, w) && t.pool.workers == s.pool.workers && t.stoppers == s.stoppers && t.c == s.c
            && |Others(e.cfg, t.pool, e.conn)| == |Others(e.cfg, s.pool, e.conn)| - 1
  {
    StepKeepsInv(e, s, Pool(P.Enqueue(d)));
    OtherLeaves(e.cfg, s.pool, Step(e, s, Pool(P.Enqueue(d))).pool, e.conn, d);
  }

  /** In front of a worker that takes nothing, the others can fill the queue. */
  lemma {:induction false} OthersFillUp(e: Env, s: State, w: nat) returns (run: seq<Label>)
    requires Crowded(e, s, w) && (s.pool.workers[w].Exited? || InStop(s, w))
    ensures After(e, s, run).Some?
    ensures Blocked(e, After(e, s, run).value) && After(e, s, run).value.stoppers == s.stoppers
    decreases |Others(e.cfg, s.pool, e.conn)|
  {
    assert w in s.stoppers ==> StopperOk(s, w);
    if P.HasRoom(e.cfg, s.pool, w) {
      var others := Others(e.cfg, s.pool, e.conn);
      assert |others| > 0;
      var d :| d in others;
      OtherEnqueues(e, s, w, d);
      var rest := OthersFillUp(e, Step(e, s, Pool(P.Enqueue(d))), w);
      RunCons(Machine(e), s, Pool(P.Enqueue(d)), rest);
      run := [Pool(P.Enqueue(d))] + rest;
    } else {
      run := [];
    }
  }

  /** How a free worker with an empty queue gets out of the way for good. */
  function NextOfLeaving(s: State, w: nat): P.Label
    requires w < |s.pool.workers|
  {
    if s.pool.workers[w].Draining? then P.DrainExit(w) else if s.pool.cancelled then P.SeeCancel(w) else P.Cancel
  }

  function LeavingRank(s: State, w: nat): nat
    requires w < |s.pool.workers|
  {
    if s.pool.workers[w].Draining? then 1 else if s.pool.cancelled then 2 else 3
  }

  lemma LeavingStep(e: Env, s: State, w: nat)
    requires Crowded(e, s, w) && IsFree(s.pool.workers[w]) && s.pool.queues[w] == []
    ensures var l := Pool(NextOfLeaving(s, w));
            && Enabled(e, s, l)
            && var t := Step(e, s, l);
            && Crowded(e, t, w) && t.stoppers == s.stoppers
            && (t.pool.workers[w].Exited?
                || (IsFree(t.pool.workers[w]) && t.pool.queues[w] == [] && LeavingRank(t, w) < LeavingRank(s, w)))
  {
    var l := Pool(NextOfLeaving(s, w));
    StepKeepsInv(e, s, l);
    assert Others(e.cfg, Step(e, s, l).pool, e.conn) == Others(e.cfg, s.pool, e.conn);
  }

  /** Without any handler calling Stop: the worker leaves, and then the others fill the queue. */
  lemma {:induction false} LeaveAndFillUp(e: Env, s: State, w: nat) returns (run: seq<Label>)
    requires Crowded(e, s, w) && IsFree(s.pool.workers[w]) && s.pool.queues[w] == []
    ensures After(e, s, run).Some?
    ensures Blocked(e, After(e, s, run).value) && After(e, s, run).value.stoppers == s.stoppers
    decreases LeavingRank(s, w)
  {
    var l := Pool(NextOfLeaving(s, w));
    LeavingStep(e, s, w);
    var t := Step(e, s, l);
    var rest;
    if t.pool.workers[w].Exited? { rest := OthersFillUp(e, t, w); } else { rest := LeaveAndFillUp(e, t, w); }
    RunCons(Machine(e), s, l, rest);
    run := [l] + rest;
  }

  lemma CrowdedHandlerStops(e: Env, s: State, w: nat) returns (run: seq<Label>)
    requires Crowded(e, s, w) && P.Held(s.pool.workers[w]) != [] && !InStop(s, w)
    ensures After(e, s, run).Some? && Blocked(e, After(e, s, run).value)
  {
    var l := HandlerStops(w);
    StepKeepsInv(e, s, l);
    var t := Step(e, s, l);
    assert InStop(t, w) && t.pool == s.pool;
    var rest := OthersFillUp(e, t, w);
    RunCons(Machine(e), s, l, rest);
    run := [l] + rest;
  }

  lemma TakeKeepsLoad(cfg: P.Config, p: P.State, w: nat, c: nat)
    requires cfg.size > 0 && p.ctx && P.Sized(cfg, p) && w == P.Shard(cfg, c)
    requires IsFree(p.workers[w]) && p.queues[w] != []
    ensures P.Enabled(cfg, p, P.Take(w))
    ensures var q := P.Step(cfg, p, P.Take(w));
            P.Sized(cfg, q) && q.ctx && Load(cfg, q, c) == Load(cfg, p, c) && P.Held(q.workers[w]) != []
  {
    assert Others(cfg, P.Step(cfg, p, P.Take(w)), c) == Others(cfg, p, c);
  }

  lemma CrowdedTake(e: Env, s: State, w: nat)
    requires Crowded(e, s, w) && IsFree(s.pool.workers[w]) && s.pool.queues[w] != []
    ensures Enabled(e, s, Pool(P.Take(w)))
    ensures var t := Step(e, s, Pool(P.Take(w)));
            Crowded(e, t, w) && P.Held(t.pool.workers[w]) != [] && !InStop(t, w)
  {
    TakeKeepsLoad(e.cfg, s.pool, w, e.conn);
    StepKeepsInv(e, s, Pool(P.Take(w)));
    assert w in s.stoppers ==> StopperOk(s, w);
  }

  lemma CrowdedGetsBlocked(e: Env, s: State, w: nat) returns (run: seq<Label>)
    requires Crowded(e, s, w)
    ensures After(e, s, run).Some? && Blocked(e, After(e, s, run).value)
  {
    var pc := s.pool.workers[w];
    if pc.Exited? || InStop(s, w) {
      run := OthersFillUp(e, s, w);
    } else if !IsFree(pc) {
      run := CrowdedHandlerStops(e, s, w);
    } else if s.pool.queues[w] == [] {
      run := LeaveAndFillUp(e, s, w);
    } else {
      CrowdedTake(e, s, w);
      var rest := CrowdedHandlerStops(e, Step(e, s, Pool(P.Take(w))), w);
      RunCons(Machine(e), s, Pool(P.Take(w)), rest);
      run := [Pool(P.Take(w))] + rest;
    }
  }

  // ---------------------------------------------------------- the exact condition

  /** The pool has been stopped; one that was never started can still be. */
  predicate IsStopped(p: P.State) { p.ctx && !p.active }

  /** The reader is safe from blocking for good, whatever happens. */
  predicate IsSafe(e: Env, s: State)
    requires e.cfg.size > 0 && P.Sized(e.cfg, s.pool)
  {
    if IsStopped(s.pool) then e.conn in s.pool.senders ==> Load(e.cfg, s.pool, e.conn) < e.cfg.cap
    else !CanHandOver(e, s)
  }

  lemma SafeIsNeverBlocked(e: Env, s: State)
    requires Inv(e, s) && e.cfg.size > 0 && IsSafe(e, s)
    ensures NeverBlocked(e, s)
  {
    forall run | After(e, s, run).Some? ensures !Blocked(e, After(e, s, run).value) {
      if IsStopped(s.pool) {
        CertainForEver(e, s, run);
      } else {
        SealedForEver(e, s, run);
      }
    }
  }

  lemma UnsafeGetsBlocked(e: Env, s: State) returns (run: seq<Label>)
    requires Inv(e, s) && e.cfg.size > 0 && !IsSafe(e, s)
    ensures After(e, s, run).Some? && Blocked(e, After(e, s, run).value)
  {
    var w := P.Shard(e.cfg, e.conn);
    if IsStopped(s.pool) {
      run := CrowdedGetsBlocked(e, s, w);
    } else if s.pool.active {
      run := CanGetBlocked(e, s, w);
    } else {
      var l := Pool(P.Start);
      StepKeepsInv(e, s, l);
      var rest := CanGetBlocked(e, Step(e, s, l), w);
      RunCons(Machine(e), s, l, rest);
      run := [l] + rest;
    }
  }

  /**
   Exactly when a connection is safe from the deadlock, for every reachable state and
   every pool with workers. Unless the pool has been stopped: no continuation ever blocks
   the reader if and only if it has nothing in its hands and can get nothing more, being on
   its way out or facing a closed socket. Once the pool has been stopped: if and only if the
   reader is not waiting to enqueue, or the requests that can get in its way are fewer than
   the queue has places.
   */
  lemma NeverBlockedIff(e: Env, pool: P.State, run: seq<Label>)
    requires P.Inv(e.cfg, pool) && e.conn !in pool.senders && e.cfg.size > 0
    requires After(e, Begin(pool), run).Some?
    ensures var s := After(e, Begin(pool), run).value;
            P.Sized(e.cfg, s.pool) && (NeverBlocked(e, s) <==> IsSafe(e, s))
  {
    var s := After(e, Begin(pool), run).value;
    BeginInv(e, pool);
    RunKeepsInv(e, Begin(pool), run);
    if IsSafe(e, s) {
      SafeIsNeverBlocked(e, s);
    } else {
      var later := UnsafeGetsBlocked(e, s);
    }
  }

  /** Without workers every request runs in a goroutine of its own and no reader blocks. */
  lemma NoPoolNeverBlocks(e: Env, s: State)
    requires e.cfg.size == 0
    ensures NeverBlocked(e, s)
  {
  }

  /** A connection whose Start is under way, with the given goroutines and Stop callers. */
  function Starting(pc: L.StartPc, reader: L.ReaderPc, callers: seq<L.CallerPc>): L.Conn {
    L.Conn(L.Core(L.Running, false, false, L.Free, pc, L.NotRun), reader, L.NoWriter, callers, 2,
           pc != L.MarkStarted, true, false, 0, [])
  }

  /** One more label for a run from a new connection. */
  lemma Extend(e: Env, pool: P.State, run: seq<Label>, s: State, l: Label, t: State) returns (longer: seq<Label>)
    requires After(e, Begin(pool), run) == Some(s) && Enabled(e, s, l) && Step(e, s, l) == t
    ensures After(e, Begin(pool), longer) == Some(t)
  {
    RunSnoc(Machine(e), Begin(pool), run, s, l);
    longer := run + [l];
  }

  lemma LaunchSteps()
    ensures L.Enabled(L.FRESH, L.CallStart(false))
         && L.Step(L.FRESH, L.CallStart(false)) == Starting(L.MarkStarted, L.NoReader, [])
    ensures L.Enabled(Starting(L.MarkStarted, L.NoReader, []), L.StartStep)
         && L.Step(Starting(L.MarkStarted, L.NoReader, []), L.StartStep) == Starting(L.GoReader, L.NoReader, [])
    ensures L.Enabled(Starting(L.GoReader, L.NoReader, []), L.StartStep)
         && L.Step(Starting(L.GoReader, L.NoReader, []), L.StartStep) == Starting(L.GoWriter, L.Reading, [])
  {
  }

  /** A step of the connection alone. */
  lemma ExtendLife(e: Env, pool: P.State, run: seq<Label>, c: L.Conn, l: L.Label, d: L.Conn)
    returns (longer: seq<Label>)
    requires After(e, Begin(pool), run) == Some(State(c, [], pool, map[]))
    requires L.Enabled(c, l) && L.Step(c, l) == d && l != L.Receive && l != L.ReaderStep
    ensures After(e, Begin(pool), longer) == Some(State(d, [], pool, map[]))
  {
    longer := Extend(e, pool, run, State(c, [], pool, map[]), Life(l), State(d, [], pool, map[]));
  }

  lemma ThreeSteps(e: Env, pool: P.State, c1: L.Conn, c2: L.Conn, c3: L.Conn) returns (run: seq<Label>)
    requires L.Enabled(L.FRESH, L.CallStart(false)) && L.Step(L.FRESH, L.CallStart(false)) == c1
    requires L.Enabled(c1, L.StartStep) && L.Step(c1, L.StartStep) == c2
    requires L.Enabled(c2, L.StartStep) && L.Step(c2, L.StartStep) == c3
    ensures After(e, Begin(pool), run) == Some(State(c3, [], pool, map[]))
  {
    run := ExtendLife(e, pool, [], L.FRESH, L.CallStart(false), c1);
    run := ExtendLife(e, pool, run, c1, L.StartStep, c2);
    run := ExtendLife(e, pool, run, c2, L.StartStep, c3);
  }

  /** A connection is started, its reader launched, and a message read. */
  lemma Launch(e: Env, pool: P.State, m: Codec.Message) returns (run: seq<Label>)
    ensures After(e, Begin(pool), run) == Some(State(Starting(L.GoWriter, L.Dispatching, []), [m], pool, map[]))
  {
    LaunchSteps();
    var c3 := Starting(L.GoWriter, L.Reading, []);
    run := ThreeSteps(e, pool, Starting(L.MarkStarted, L.NoReader, []), Starting(L.GoReader, L.NoReader, []), c3);
    run := Extend(e, pool, run, State(c3, [], pool, map[]), Receive([m]),
                  State(Starting(L.GoWriter, L.Dispatching, []), [m], pool, map[]));
  }

  /** An idle worker takes a request straight from its sender. */
  lemma IdleWorkerTakes(e: Env, p: P.State, r: P.Req)
    requires e.cfg.size > 0 && P.Sized(e.cfg, p) && p.ctx && p.active && p.senders == map[] && r.conn == e.conn
    requires var w := P.Shard(e.cfg, e.conn); p.workers[w] == P.Selecting && p.queues[w] == []
    ensures var w := P.Shard(e.cfg, e.conn);
            var q := P.Step(e.cfg, p, P.Submit(r));
            && P.Enabled(e.cfg, q, P.Handoff(e.conn))
            && var q' := P.Step(e.cfg, q, P.Handoff(e.conn));
            && q'.active && w < |q'.workers| && P.Held(q'.workers[w]) != []
  {
  }

  /** The worker of a new connection runs one of its requests. */
  lemma OneRequestRuns(e: Env, pool: P.State, m: Codec.Message, q: P.State, q': P.State) returns (run: seq<Label>)
    requires P.Enabled(e.cfg, pool, P.Submit(P.Req(e.conn, m, 0)))
    requires P.Step(e.cfg, pool, P.Submit(P.Req(e.conn, m, 0))) == q
    requires P.Enabled(e.cfg, q, P.Handoff(e.conn)) && P.Step(e.cfg, q, P.Handoff(e.conn)) == q'
    ensures After(e, Begin(pool), run) == Some(State(Starting(L.GoWriter, L.Dispatching, []), [], q', map[]))
  {
    var c := Starting(L.GoWriter, L.Dispatching, []);
    run := Launch(e, pool, m);
    run := Extend(e, pool, run, State(c, [m], pool, map[]), HandOver, State(c, [], q, map[]));
    run := Extend(e, pool, run, State(c, [], q, map[]), Pool(P.Handoff(e.conn)), State(c, [], q', map[]));
  }

  lemma StopCalled(pc: L.StartPc, reader: L.ReaderPc)
    ensures L.Step(Starting(pc, reader, []), L.CallStop) == Starting(pc, reader, [L.Entering])
  {
    assert [] + [L.Entering] == [L.Entering];
  }

  /** A handler calls Stop. */
  lemma HandlerCalls(e: Env, pool: P.State, run: seq<Label>, q: P.State, w: nat) returns (longer: seq<Label>)
    requires After(e, Begin(pool), run) == Some(State(Starting(L.GoWriter, L.Dispatching, []), [], q, map[]))
    requires w < |q.workers| && P.Held(q.workers[w]) != []
    ensures After(e, Begin(pool), longer)
         == Some(State(Starting(L.GoWriter, L.Dispatching, [L.Entering]), [], q, map[w := 0]))
  {
    var c, d := Starting(L.GoWriter, L.Dispatching, []), Starting(L.GoWriter, L.Dispatching, [L.Entering]);
    StopCalled(L.GoWriter, L.Dispatching);
    longer := Extend(e, pool, run, State(c, [], q, map[]), HandlerStops(w), State(d, [], q, map[w := 0]));
  }

  lemma StopFromHandler(e: Env, pool: P.State, m: Codec.Message) returns (run: seq<Label>)
    requires e.cfg.size > 0 && pool == P.Step(e.cfg, P.INIT, P.Start)
    ensures After(e, Begin(pool), run).Some?
    ensures var s, w := After(e, Begin(pool), run).value, P.Shard(e.cfg, e.conn);
            s.c == Starting(L.GoWriter, L.Dispatching, [L.Entering]) && s.stoppers == map[w := 0] && s.pool.active
  {
    var w, r := P.Shard(e.cfg, e.conn), P.Req(e.conn, m, 0);
    IdleWorkerTakes(e, pool, r);
    var q := P.Step(e.cfg, pool, P.Submit(r));
    var q' := P.Step(e.cfg, q, P.Handoff(e.conn));
    run := OneRequestRuns(e, pool, m, q, q');
    run := HandlerCalls(e, pool, run, q', w);
  }

  /**
   The deadlock is real, for every pool: a handler that calls Stop on its own connection
   while the reader still has something to hand over can wait for ever (`BlockedForEver`).
   */
  lemma HandlerStopCanBlock(e: Env) returns (pool: P.State, before: seq<Label>, run: seq<Label>)
    requires e.cfg.size > 0
    ensures P.Inv(e.cfg, pool) && e.conn !in pool.senders && After(e, Begin(pool), before).Some?
    ensures var s, w := After(e, Begin(pool), before).value, P.Shard(e.cfg, e.conn);
            && InStop(s, w) && After(e, s, run).Some?
            && Blocked(e, After(e, s, run).value) && InStop(After(e, s, run).value, w)
  {
    P.InitInv(e.cfg);
    P.StepKeepsInv(e.cfg, P.INIT, P.Start);
    pool := P.Step(e.cfg, P.INIT, P.Start);
    BeginInv(e, pool);
    before := StopFromHandler(e, pool, Codec.NewMessage(0, []));
    RunKeepsInv(e, Begin(pool), before);
    run := GetsBlocked(e, After(e, Begin(pool), before).value, P.Shard(e.cfg, e.conn));
  }

  /** The `i`th other connection on the same worker. */
  function NeighbourNo(e: Env, i: nat): nat { e.conn + i * e.cfg.size }

  lemma {:induction false} NeighboursShareWorker(e: Env, i: nat)
    requires e.cfg.size > 0
    ensures P.Shard(e.cfg, NeighbourNo(e, i)) == P.Shard(e.cfg, e.conn)
    decreases i
  {
    if i > 0 {
      NeighboursShareWorker(e, i - 1);
      P.ShardRepeats(e.cfg, NeighbourNo(e, i - 1));
      assert i * e.cfg.size == (i - 1) * e.cfg.size + e.cfg.size;
    }
  }

  /** The reader and `n` neighbours have all tested "active" and not yet enqueued. */
  ghost predicate Queueing(e: Env, s: State, n: nat) {
    && Inv(e, s) && e.cfg.size > 0 && s.pool.active && e.conn in s.pool.senders
    && s.pool.workers[P.Shard(e.cfg, e.conn)].Selecting? && s.pool.queues[P.Shard(e.cfg, e.conn)] == []
    && |Others(e.cfg, s.pool, e.conn)| >= n
    && (forall d :: d in s.pool.senders ==> d <= NeighbourNo(e, n))
    && s.stoppers == map[]
  }

  lemma OneMoreQueues(e: Env, s: State, n: nat, l: Label)
    requires Queueing(e, s, n) && l == Pool(P.Submit(P.Req(NeighbourNo(e, n + 1), Codec.NewMessage(0, []), 0)))
    ensures Enabled(e, s, l) && Queueing(e, Step(e, s, l), n + 1)
  {
    var d := NeighbourNo(e, n + 1);
    NeighboursShareWorker(e, n + 1);
    assert d == NeighbourNo(e, n) + e.cfg.size by {
      assert (n + 1) * e.cfg.size == n * e.cfg.size + e.cfg.size;
    }
    assert NeighbourNo(e, n) >= e.conn;
    StepKeepsInv(e, s, l);
    assert Others(e.cfg, Step(e, s, l).pool, e.conn) == Others(e.cfg, s.pool, e.conn) + {d};
  }

  lemma {:induction false} MoreQueue(e: Env, pool: P.State, run: seq<Label>, s: State, n: nat, goal: nat)
    returns (longer: seq<Label>, t: State)
    requires After(e, Begin(pool), run) == Some(s) && Queueing(e, s, n) && n <= goal
    ensures After(e, Begin(pool), longer) == Some(t) && Queueing(e, t, goal)
    decreases goal - n
  {
    longer, t := run, s;
    if n < goal {
      var l := Pool(P.Submit(P.Req(NeighbourNo(e, n + 1), Codec.NewMessage(0, []), 0)));
      OneMoreQueues(e, s, n, l);
      longer := Extend(e, pool, run, s, l, Step(e, s, l));
      longer, t := MoreQueue(e, pool, longer, Step(e, s, l), n + 1, goal);
    }
  }

  lemma StopWhileQueueing(e: Env, s: State, n: nat) returns (run: seq<Label>)
    requires Queueing(e, s, n) && n >= e.cfg.cap
    ensures After(e, s, run).Some?
    ensures Blocked(e, After(e, s, run).value) && After(e, s, run).value.stoppers == map[]
  {
    var l := Pool(P.Deactivate);
    StepKeepsInv(e, s, l);
    var t := Step(e, s, l);
    assert Others(e.cfg, t.pool, e.conn) == Others(e.cfg, s.pool, e.conn);
    var rest := LeaveAndFillUp(e, t, P.Shard(e.cfg, e.conn));
    RunCons(Machine(e), s, l, rest);
    run := [l] + rest;
  }

  lemma ReaderQueues(e: Env, pool: P.State, m: Codec.Message) returns (run: seq<Label>, s: State)
    requires e.cfg.size > 0 && pool == P.Step(e.cfg, P.INIT, P.Start)
    ensures After(e, Begin(pool), run) == Some(s) && Queueing(e, s, 0)
  {
    P.InitInv(e.cfg);
    P.StepKeepsInv(e.cfg, P.INIT, P.Start);
    BeginInv(e, pool);
    var c, r := Starting(L.GoWriter, L.Dispatching, []), P.Req(e.conn, m, 0);
    s := State(c, [], P.Step(e.cfg, pool, P.Submit(r)), map[]);
    run := Launch(e, pool, m);
    run := Extend(e, pool, run, State(c, [m], pool, map[]), HandOver, s);
    RunKeepsInv(e, Begin(pool), run);
    assert s.pool.senders.Keys == {e.conn};
  }

  /**
   The same deadlock with no handler inside Stop, for every pool: the reader and as many
   neighbours as the queue has places are about to enqueue, the pool is stopped, their
   worker drains and leaves, and the neighbours fill the queue. Any Stop on the connection
   then waits for ever (`BlockedForEver`).
   */
  lemma StoppedPoolCanBlock(e: Env) returns (pool: P.State, before: seq<Label>, run: seq<Label>)
    requires e.cfg.size > 0
    ensures P.Inv(e.cfg, pool) && e.conn !in pool.senders && After(e, Begin(pool), before).Some?
    ensures var s := After(e, Begin(pool), before).value;
            && After(e, s, run).Some?
            && Blocked(e, After(e, s, run).value) && After(e, s, run).value.stoppers == map[]
  {
    P.InitInv(e.cfg);
    P.StepKeepsInv(e.cfg, P.INIT, P.Start);
    pool := P.Step(e.cfg, P.INIT, P.Start);
    var s;
    before, s := ReaderQueues(e, pool, Codec.NewMessage(0, []));
    before, s := MoreQueue(e, pool, before, s, 0, e.cfg.cap);
    run := StopWhileQueueing(e, s, e.cfg.cap);
  }
}
