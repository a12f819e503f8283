/**
 The worker pool of knet/msgHandler.go as a transition system: bounded queues
 sharded by connection id, one worker goroutine per queue, senders that test
 "active" under the lock and enqueue after releasing it, and a stop that first
 deactivates the pool, then cancels the workers, which drain and exit.

 A label names one atomic action of one goroutine; a run is any sequence of
 enabled labels, so the theorems quantify over every interleaving.
 */
module WorkerPool {
  import opened Common
  import Codec

  /** `no` tells which of its connection's messages this is; the code never looks at it. */
  datatype Req = Req(conn: nat, msg: Codec.Message, no: nat)

  /** poolSize, maxWorkerTaskLen, and whether dispatch metrics are wired. */
  datatype Config = Config(size: nat, cap: nat, metrics: bool)

  datatype Worker = Selecting | Running(req: Req) | Draining | DrainRunning(req: Req) | Exited

  /**
   A sender that saw the pool active and has not enqueued yet: before its first attempt,
   before its blocking send, or parked in it because the queue was full.
   */
  datatype Sender = Trying(req: Req) | Blocking(req: Req) | Parked(req: Req)

  /** A handler that has begun, on a worker or in a goroutine of its own. */
  datatype Began = Began(req: Req, onWorker: bool)

  datatype State = State(
    ctx: bool,                  // workerCtx != nil
    active: bool,               // workerCancel != nil
    cancelled: bool,            // workerCtx is done
    queues: seq<seq<Req>>,
    workers: seq<Worker>,
    senders: map<nat, Sender>,  // at most one producer per connection: its reader
    submitted: seq<Req>,        // requests whose sender saw the pool active
    executed: seq<Req>,         // requests whose handlers a worker has finished
    late: seq<Req>,             // requests enqueued after their worker had exited
    direct: seq<Req>,           // requests given to a goroutine of their own
    ready: seq<Req>,            // those of them whose goroutine has not begun
    begun: seq<Began>)          // every handler that has begun, in the order they did

  datatype Label =
    | Start | Deactivate | Cancel
    | Submit(req: Req)
    | Enqueue(conn: nat) | TryFail(conn: nat) | Park(conn: nat) | Handoff(conn: nat)
    | BeginDirect(i: nat)       // any of the goroutines that are ready
    | Take(w: nat) | Finish(w: nat) | SeeCancel(w: nat) | DrainExit(w: nat)

  const INIT := State(false, false, false, [], [], map[], [], [], [], [], [], [])

  function Shard(cfg: Config, conn: nat): (w: nat)
    requires cfg.size > 0
    ensures w < cfg.size
  {
    conn % cfg.size
  }

  /** The first connections get workers of their own, one after the other. */
  lemma ShardSpreads(cfg: Config, c: nat)
    requires c < cfg.size
    ensures Shard(cfg, c) == c
  {
  }

  /** From then on the workers take turns. */
  lemma ShardRepeats(cfg: Config, c: nat)
    requires cfg.size > 0
    ensures Shard(cfg, c + cfg.size) == Shard(cfg, c)
  {
    var n, q := cfg.size, c / cfg.size;
    assert c == n * q + c % n;
    assert c + n == n * (q + 1) + c % n;
    DivisionIsUnique(c + n, n, q + 1, c % n);
  }

  lemma DivisionIsUnique(x: int, n: nat, q: int, r: nat)
    requires n > 0 && r < n && x == n * q + r
    ensures x % n == r
  {
    var d := x / n - q;
    assert x == n * (x / n) + x % n;
    assert n * (x / n) == n * q + n * d;
    assert r - x % n == n * d;
    assert d >= 1 ==> n * d >= n;
    assert d <= -1 ==> n * d <= n * -1;
  }

  predicate HasRoom(cfg: Config, s: State, w: nat) {
    w < |s.queues| && |s.queues[w]| < cfg.cap
  }

  /** A receive that is offered while the queue is empty can take a request straight from a sender. */
  predicate CanHandOff(s: State, w: nat) {
    && w < |s.queues| && w < |s.workers|
    && s.queues[w] == [] && (s.workers[w].Selecting? || s.workers[w].Draining?)
  }

  predicate Enabled(cfg: Config, s: State, l: Label) {
    match l
    case Start => !s.ctx && cfg.size > 0
    case Deactivate => s.active
    case Cancel => s.ctx && !s.active && !s.cancelled
    case Submit(r) => r.conn !in s.senders
    case Enqueue(c) => c in s.senders && cfg.size > 0 && HasRoom(cfg, s, Shard(cfg, c))
    case TryFail(c) => c in s.senders && s.senders[c].Trying? && cfg.size > 0 && !HasRoom(cfg, s, Shard(cfg, c))
    case Park(c) =>
      && c in s.senders && s.senders[c].Blocking? && cfg.size > 0
      && !HasRoom(cfg, s, Shard(cfg, c)) && !CanHandOff(s, Shard(cfg, c))
    case Handoff(c) => c in s.senders && cfg.size > 0 && CanHandOff(s, Shard(cfg, c))
    case BeginDirect(i) => i < |s.ready|
    case Take(w) =>
      && w < |s.queues| && w < |s.workers|
      && s.queues[w] != [] && (s.workers[w].Selecting? || s.workers[w].Draining?)
    case Finish(w) => w < |s.workers| && (s.workers[w].Running? || s.workers[w].DrainRunning?)
    case SeeCancel(w) => s.cancelled && w < |s.workers| && s.workers[w].Selecting?
    case DrainExit(w) => w < |s.workers| && w < |s.queues| && s.workers[w].Draining? && s.queues[w] == []
  }

  function Begin(pc: Worker, r: Req): Worker {
    if pc.Draining? then DrainRunning(r) else Running(r)
  }

  function Step(cfg: Config, s: State, l: Label): State
    requires Enabled(cfg, s, l)
  {
    match l
    case Start =>
      s.(ctx := true, active := true,
         queues := seq(cfg.size, _ => []), workers := seq(cfg.size, _ => Selecting))
    case Deactivate => s.(active := false)
    case Cancel => s.(cancelled := true)
    case Submit(r) =>
      if s.active then
        s.(senders := s.senders[r.conn := if cfg.metrics then Trying(r) else Blocking(r)],
           submitted := s.submitted + [r])
      else s.(direct := s.direct + [r], ready := s.ready + [r])
    case Enqueue(c) =>
      var w, r := Shard(cfg, c), s.senders[c].req;
      s.(queues := s.queues[w := s.queues[w] + [r]], senders := s.senders - {c},
         late := if w < |s.workers| && s.workers[w].Exited? then s.late + [r] else s.late)
    case TryFail(c) =>
      s.(senders := s.senders[c := Blocking(s.senders[c].req)])
    case Park(c) =>
      s.(senders := s.senders[c := Parked(s.senders[c].req)])
    case Handoff(c) =>
      var w, r := Shard(cfg, c), s.senders[c].req;
      s.(workers := s.workers[w := Begin(s.workers[w], r)], senders := s.senders - {c},
         begun := s.begun + [Began(r, true)])
    case BeginDirect(i) =>
      s.(ready := s.ready[..i] + s.ready[i + 1..], begun := s.begun + [Began(s.ready[i], false)])
    case Take(w) =>
      s.(queues := s.queues[w := s.queues[w][1..]],
         workers := s.workers[w := Begin(s.workers[w], s.queues[w][0])],
         begun := s.begun + [Began(s.queues[w][0], true)])
    case Finish(w) =>
      s.(workers := s.workers[w := if s.workers[w].Running? then Selecting else Draining],
         executed := s.executed + [s.workers[w].req])
    case SeeCancel(w) => s.(workers := s.workers[w := Draining])
    case DrainExit(w) => s.(workers := s.workers[w := Exited])
  }

  function Machine(cfg: Config): (State, Label) -> Option<State> {
    (s, l) => if Enabled(cfg, s, l) then Some(Step(cfg, s, l)) else None
  }

  /** The state after a run, or None when some label was not enabled. */
  function After(cfg: Config, s: State, run: seq<Label>): Option<State> { Run(Machine(cfg), s, run) }

  // -------------------------------------------------------------- projections

  function Proj(s: seq<Req>, c: nat): seq<Req> {
    if s == [] then [] else (if s[0].conn == c then [s[0]] else []) + Proj(s[1..], c)
  }

  lemma {:induction false} ProjAppend(a: seq<Req>, b: seq<Req>, c: nat)
    ensures Proj(a + b, c) == Proj(a, c) + Proj(b, c)
    decreases |a|
  {
    if a == [] {
      assert a + b == b;
    } else {
      ProjAppend(a[1..], b, c);
      assert (a + b)[1..] == a[1..] + b;
      var first := if a[0].conn == c then [a[0]] else [];
      assert first + (Proj(a[1..], c) + Proj(b, c)) == first + Proj(a[1..], c) + Proj(b, c);
    }
  }

  lemma ProjOne(r: Req, c: nat)
    ensures Proj([r], c) == if r.conn == c then [r] else []
  {
    assert [r][1..] == [];
  }

  lemma ProjSnoc(a: seq<Req>, r: Req, c: nat)
    ensures Proj(a + [r], c) == Proj(a, c) + if r.conn == c then [r] else []
  {
    ProjAppend(a, [r], c);
    ProjOne(r, c);
  }

  lemma {:induction false} ProjCount(s: seq<Req>, r: Req)
    ensures multiset(s)[r] == multiset(Proj(s, r.conn))[r]
    decreases |s|
  {
    if s != [] {
      ProjCount(s[1..], r);
      assert s == [s[0]] + s[1..];
      assert s[0].conn == r.conn ==> Proj(s, r.conn) == [s[0]] + Proj(s[1..], r.conn);
    }
  }

  /** Sequences with the same requests of every connection, in the same order, hold the same requests. */
  lemma SameProjectionsSameRequests(a: seq<Req>, b: seq<Req>)
    requires forall c: nat :: Proj(a, c) == Proj(b, c)
    ensures multiset(a) == multiset(b)
  {
    forall r ensures multiset(a)[r] == multiset(b)[r] {
      ProjCount(a, r);
      ProjCount(b, r);
      assert Proj(a, r.conn) == Proj(b, r.conn);
    }
  }

  // ---------------------------------------------------------------- invariant

  function Held(pc: Worker): seq<Req> {
    if pc.Running? || pc.DrainRunning? then [pc.req] else []
  }

  predicate WorkerOk(cfg: Config, s: State, w: nat)
    requires cfg.size > 0 && w < |s.queues| && w < |s.workers|
  {
    && |s.queues[w]| <= cfg.cap
    && (forall i :: 0 <= i < |s.queues[w]| ==> Shard(cfg, s.queues[w][i].conn) == w)
    && (forall r :: r in Held(s.workers[w]) ==> Shard(cfg, r.conn) == w)
    && (s.workers[w].Draining? || s.workers[w].DrainRunning? || s.workers[w].Exited? ==> s.cancelled)
  }

  predicate Sized(cfg: Config, s: State) {
    && (s.ctx ==> cfg.size > 0 && |s.queues| == cfg.size && |s.workers| == cfg.size)
    && (!s.ctx ==> s.queues == [] && s.workers == [] && s.senders == map[])
  }

  /** Sizes, routing, capacities and the order of the three stop phases. */
  predicate Shape(cfg: Config, s: State) {
    && Sized(cfg, s)
    && (!s.ctx ==> !s.active && !s.cancelled)
    && (s.active ==> !s.cancelled)
    && (forall c :: c in s.senders ==> s.senders[c].req.conn == c)
    && (s.ctx ==> forall w :: 0 <= w < cfg.size ==> WorkerOk(cfg, s, w))
  }

  function InFlight(cfg: Config, s: State, c: nat): seq<Req>
    requires Sized(cfg, s)
  {
    if s.ctx then Proj(Held(s.workers[Shard(cfg, c)]), c) else []
  }

  function Queued(cfg: Config, s: State, c: nat): seq<Req>
    requires Sized(cfg, s)
  {
    if s.ctx then Proj(s.queues[Shard(cfg, c)], c) else []
  }

  function Waiting(s: State, c: nat): seq<Req> {
    if c in s.senders then [s.senders[c].req] else []
  }

  /** Executed, in flight, queued and still waiting, in this order, are what was submitted. */
  predicate Conserved(cfg: Config, s: State, c: nat)
    requires Sized(cfg, s)
  {
    Proj(s.executed, c) + InFlight(cfg, s, c) + Queued(cfg, s, c) + Waiting(s, c) == Proj(s.submitted, c)
  }

  /** A worker that has exited leaves exactly the late requests behind. */
  predicate LateOk(cfg: Config, s: State, c: nat)
    requires Sized(cfg, s)
  {
    if s.ctx && s.workers[Shard(cfg, c)].Exited? then Queued(cfg, s, c) == Proj(s.late, c)
    else Proj(s.late, c) == []
  }

  ghost predicate Inv(cfg: Config, s: State) {
    && Shape(cfg, s)
    && (forall c: nat :: Conserved(cfg, s, c))
    && (forall c: nat :: LateOk(cfg, s, c))
  }

  lemma StepKeepsShape(cfg: Config, s: State, l: Label)
    requires Shape(cfg, s) && Enabled(cfg, s, l)
    ensures Shape(cfg, Step(cfg, s, l))
  {
    var t := Step(cfg, s, l);
    if t.ctx {
      forall w | 0 <= w < cfg.size ensures WorkerOk(cfg, t, w) {
        if s.ctx {
          assert WorkerOk(cfg, s, w);
        }
      }
    }
  }

  lemma SubmitConserves(cfg: Config, s: State, r: Req, c: nat)
    requires Sized(cfg, s) && s.ctx && s.active && Enabled(cfg, s, Submit(r))
    requires Conserved(cfg, s, c)
    ensures Conserved(cfg, Step(cfg, s, Submit(r)), c)
  {
    ProjSnoc(s.submitted, r, c);
  }

  lemma EnqueueConserves(cfg: Config, s: State, d: nat, c: nat)
    requires Sized(cfg, s) && Enabled(cfg, s, Enqueue(d)) && s.senders[d].req.conn == d
    requires Conserved(cfg, s, c)
    ensures Conserved(cfg, Step(cfg, s, Enqueue(d)), c)
  {
    var t := Step(cfg, s, Enqueue(d));
    ProjSnoc(s.queues[Shard(cfg, d)], s.senders[d].req, c);
    assert Queued(cfg, t, c) + Waiting(t, c) == Queued(cfg, s, c) + Waiting(s, c);
    assert InFlight(cfg, t, c) == InFlight(cfg, s, c);
    Regroup(Proj(s.executed, c), InFlight(cfg, s, c), Queued(cfg, s, c), Waiting(s, c));
    Regroup(Proj(s.executed, c), InFlight(cfg, s, c), Queued(cfg, t, c), Waiting(t, c));
  }

  lemma HandoffLeavesOthers(cfg: Config, s: State, d: nat, c: nat)
    requires Sized(cfg, s) && Enabled(cfg, s, Handoff(d)) && s.senders[d].req.conn == d && c != d
    ensures var t := Step(cfg, s, Handoff(d));
            InFlight(cfg, t, c) == InFlight(cfg, s, c) && Queued(cfg, t, c) == Queued(cfg, s, c)
            && Waiting(t, c) == Waiting(s, c)
  {
    ProjOne(s.senders[d].req, c);
  }

  lemma HandoffMoves(cfg: Config, s: State, d: nat)
    requires Sized(cfg, s) && Enabled(cfg, s, Handoff(d)) && s.senders[d].req.conn == d
    ensures var t, r := Step(cfg, s, Handoff(d)), s.senders[d].req;
            && InFlight(cfg, s, d) == [] && Queued(cfg, s, d) == [] && Waiting(s, d) == [r]
            && InFlight(cfg, t, d) == [r] && Queued(cfg, t, d) == [] && Waiting(t, d) == []
  {
    ProjOne(s.senders[d].req, d);
  }

  lemma HandoffConserves(cfg: Config, s: State, d: nat, c: nat)
    requires Sized(cfg, s) && Enabled(cfg, s, Handoff(d)) && s.senders[d].req.conn == d
    requires Conserved(cfg, s, c)
    ensures Conserved(cfg, Step(cfg, s, Handoff(d)), c)
  {
    if c == d {
      HandoffMoves(cfg, s, d);
      var e, r := Proj(s.executed, c), s.senders[d].req;
      assert e + [] + [] + [r] == e + [r] + [] + [];
    } else {
      HandoffLeavesOthers(cfg, s, d, c);
    }
  }

  lemma TakeConserves(cfg: Config, s: State, w: nat, c: nat)
    requires Sized(cfg, s) && Enabled(cfg, s, Take(w))
    requires Conserved(cfg, s, c)
    ensures Conserved(cfg, Step(cfg, s, Take(w)), c)
  {
    var t := Step(cfg, s, Take(w));
    var q := s.queues[w];
    ProjOne(q[0], c);
    assert InFlight(cfg, t, c) + Queued(cfg, t, c) == InFlight(cfg, s, c) + Queued(cfg, s, c);
    assert Waiting(t, c) == Waiting(s, c);
    Regroup(Proj(s.executed, c), InFlight(cfg, s, c), Queued(cfg, s, c), Waiting(s, c));
    Regroup(Proj(s.executed, c), InFlight(cfg, t, c), Queued(cfg, t, c), Waiting(s, c));
  }

  lemma FinishConserves(cfg: Config, s: State, w: nat, c: nat)
    requires Sized(cfg, s) && s.ctx && Enabled(cfg, s, Finish(w)) && Shard(cfg, s.workers[w].req.conn) == w
    requires Conserved(cfg, s, c)
    ensures Conserved(cfg, Step(cfg, s, Finish(w)), c)
  {
    var t := Step(cfg, s, Finish(w));
    var r, e := s.workers[w].req, Proj(s.executed, c);
    assert Held(s.workers[w]) == [r] && Held(t.workers[w]) == [];
    ProjSnoc(s.executed, r, c);
    ProjOne(r, c);
    assert Queued(cfg, t, c) == Queued(cfg, s, c) && Waiting(t, c) == Waiting(s, c);
    if c == r.conn {
      assert InFlight(cfg, s, c) == [r] && InFlight(cfg, t, c) == [];
      assert Proj(t.executed, c) == e + [r] && e + [r] + [] == e + [r];
    } else {
      assert InFlight(cfg, t, c) == InFlight(cfg, s, c);
      assert Proj(t.executed, c) == e;
    }
  }

  /** The facts about senders and workers that a step's conservation rests on. */
  predicate Routed(cfg: Config, s: State, l: Label)
    requires Enabled(cfg, s, l)
  {
    match l
    case Submit(_) => s.active ==> s.ctx
    case Enqueue(d) => s.senders[d].req.conn == d
    case TryFail(d) => s.ctx
    case Park(d) => s.ctx
    case Handoff(d) => s.senders[d].req.conn == d
    case Finish(w) => s.ctx && cfg.size > 0 && Shard(cfg, s.workers[w].req.conn) == w
    case _ => true
  }

  lemma ShapeRoutes(cfg: Config, s: State, l: Label)
    requires Shape(cfg, s) && Enabled(cfg, s, l)
    ensures Routed(cfg, s, l)
  {
    if l.Finish? {
      assert WorkerOk(cfg, s, l.w) && s.workers[l.w].req in Held(s.workers[l.w]);
    }
  }

  lemma QuietStepConserves(cfg: Config, s: State, l: Label, c: nat)
    requires Sized(cfg, s) && Enabled(cfg, s, l) && Routed(cfg, s, l)
    requires || l.Start? || l.Deactivate? || l.Cancel? || l.TryFail? || l.Park? || l.SeeCancel? || l.DrainExit?
             || l.BeginDirect?
    requires Conserved(cfg, s, c)
    ensures Sized(cfg, Step(cfg, s, l)) && Conserved(cfg, Step(cfg, s, l), c)
  {
    var t := Step(cfg, s, l);
    assert InFlight(cfg, t, c) == InFlight(cfg, s, c);
    assert Queued(cfg, t, c) == Queued(cfg, s, c);
    assert Waiting(t, c) == Waiting(s, c);
  }

  lemma StepConserves(cfg: Config, s: State, l: Label, c: nat)
    requires Sized(cfg, s) && Enabled(cfg, s, l) && Routed(cfg, s, l)
    requires Conserved(cfg, s, c)
    ensures Sized(cfg, Step(cfg, s, l)) && Conserved(cfg, Step(cfg, s, l), c)
  {
    match l
    case Submit(r) => if s.active { SubmitConserves(cfg, s, r, c); }
    case Enqueue(d) => EnqueueConserves(cfg, s, d, c);
    case Handoff(d) => HandoffConserves(cfg, s, d, c);
    case Take(w) => TakeConserves(cfg, s, w, c);
    case Finish(w) => FinishConserves(cfg, s, w, c);
    case _ => QuietStepConserves(cfg, s, l, c);
  }

  lemma EnqueueKeepsLate(cfg: Config, s: State, d: nat, c: nat)
    requires Sized(cfg, s) && Enabled(cfg, s, Enqueue(d)) && s.senders[d].req.conn == d
    requires LateOk(cfg, s, c)
    ensures LateOk(cfg, Step(cfg, s, Enqueue(d)), c)
  {
    var t, w, r := Step(cfg, s, Enqueue(d)), Shard(cfg, d), s.senders[d].req;
    ProjSnoc(s.late, r, c);
    if c == d {
      ProjSnoc(s.queues[w], r, c);
    } else {
      assert Proj(t.late, c) == Proj(s.late, c);
      if Shard(cfg, c) == w {
        ProjSnoc(s.queues[w], r, c);
        assert Proj(s.queues[w], c) + [] == Proj(s.queues[w], c);
      }
      assert Queued(cfg, t, c) == Queued(cfg, s, c);
    }
  }

  lemma StepKeepsLate(cfg: Config, s: State, l: Label, c: nat)
    requires Shape(cfg, s) && Enabled(cfg, s, l) && Routed(cfg, s, l)
    requires LateOk(cfg, s, c)
    ensures Sized(cfg, Step(cfg, s, l)) && LateOk(cfg, Step(cfg, s, l), c)
  {
    match l
    case Enqueue(d) =>
      EnqueueKeepsLate(cfg, s, d, c);
    case DrainExit(w) =>
      assert s.ctx && s.queues[w] == [];
    case Start =>
    case _ =>
      var t := Step(cfg, s, l);
      assert t.late == s.late;
      if s.ctx {
        var w := Shard(cfg, c);
        assert t.workers[w].Exited? <==> s.workers[w].Exited?;
        assert s.workers[w].Exited? ==> t.queues[w] == s.queues[w];
      }
  }

  lemma StepKeepsInv(cfg: Config, s: State, l: Label)
    requires Inv(cfg, s) && Enabled(cfg, s, l)
    ensures Inv(cfg, Step(cfg, s, l))
  {
    StepKeepsShape(cfg, s, l);
    ShapeRoutes(cfg, s, l);
    forall c: nat ensures Conserved(cfg, Step(cfg, s, l), c) {
      StepConserves(cfg, s, l, c);
    }
    forall c: nat ensures LateOk(cfg, Step(cfg, s, l), c) {
      StepKeepsLate(cfg, s, l, c);
    }
  }

  lemma {:induction false} RunKeepsInv(cfg: Config, s: State, run: seq<Label>)
    requires Inv(cfg, s) && After(cfg, s, run).Some?
    ensures Inv(cfg, After(cfg, s, run).value)
    decreases |run|
  {
    if run != [] {
      StepKeepsInv(cfg, s, run[0]);
      RunKeepsInv(cfg, Step(cfg, s, run[0]), run[1..]);
    }
  }

  lemma InitInv(cfg: Config)
    ensures Inv(cfg, INIT)
  {
    assert forall c: nat :: Conserved(cfg, INIT, c);
    assert forall c: nat :: LateOk(cfg, INIT, c);
  }

  // ------------------------------------------------- ordered, lossless dispatch

  /**
   In every reachable state, for every connection: what the workers have executed,
   then the at most one request in flight, then what is queued, then what its
   sender still holds is exactly what was submitted, in order; and every queue is
   within its capacity. Senders that first try and then block are included.
   */
  lemma PerConnectionOrder(cfg: Config, run: seq<Label>, c: nat)
    requires After(cfg, INIT, run).Some?
    ensures var s := After(cfg, INIT, run).value;
            && Shape(cfg, s)
            && Proj(s.executed, c) + InFlight(cfg, s, c) + Queued(cfg, s, c) + Waiting(s, c)
               == Proj(s.submitted, c)
            && |InFlight(cfg, s, c)| <= 1
            && (forall w :: 0 <= w < |s.queues| ==> |s.queues[w]| <= cfg.cap)
  {
    InitInv(cfg);
    RunKeepsInv(cfg, INIT, run);
    var s := After(cfg, INIT, run).value;
    assert Conserved(cfg, s, c);
    if s.ctx {
      forall w | 0 <= w < |s.queues| ensures |s.queues[w]| <= cfg.cap {
        assert WorkerOk(cfg, s, w);
      }
      var held := Held(s.workers[Shard(cfg, c)]);
      if held != [] { ProjOne(held[0], c); }
    }
  }

  /** No two workers ever run requests of the same connection at the same time. */
  lemma OneWorkerPerConnection(cfg: Config, run: seq<Label>, v: nat, w: nat)
    requires After(cfg, INIT, run).Some?
    requires var s := After(cfg, INIT, run).value;
             && v < |s.workers| && w < |s.workers|
             && Held(s.workers[v]) != [] && Held(s.workers[w]) != []
             && s.workers[v].req.conn == s.workers[w].req.conn
    ensures v == w
  {
    InitInv(cfg);
    RunKeepsInv(cfg, INIT, run);
    var s := After(cfg, INIT, run).value;
    assert WorkerOk(cfg, s, v) && WorkerOk(cfg, s, w);
    assert s.workers[v].req in Held(s.workers[v]) && s.workers[w].req in Held(s.workers[w]);
  }

  /** A sender that saw the pool active is never stuck while its worker lives. */
  lemma SenderMakesProgress(cfg: Config, s: State, c: nat)
    requires Inv(cfg, s)
    requires c in s.senders && !s.workers[Shard(cfg, c)].Exited?
    ensures var w := Shard(cfg, c);
            || Enabled(cfg, s, Enqueue(c)) || Enabled(cfg, s, Handoff(c))
            || Enabled(cfg, s, Take(w)) || Enabled(cfg, s, Finish(w))
  {
    assert WorkerOk(cfg, s, Shard(cfg, c));
  }

  // ---------------------------------------------------------------- the drain

  /** Stopping, with no sender in between its test and its enqueue, and nothing late. */
  ghost predicate Calm(cfg: Config, s: State) {
    Inv(cfg, s) && s.ctx && !s.active && s.senders == map[] && s.late == []
  }

  /** And the workers have been cancelled. */
  ghost predicate Quiet(cfg: Config, s: State) {
    Calm(cfg, s) && s.cancelled
  }

  lemma FirstIsProjected(s: seq<Req>)
    ensures s != [] ==> Proj(s, s[0].conn) != []
  {
  }

  lemma NothingLateBeforeCancel(cfg: Config, s: State)
    requires Inv(cfg, s) && !s.cancelled
    ensures s.late == []
  {
    FirstIsProjected(s.late);
    forall c: nat ensures Proj(s.late, c) == [] {
      assert LateOk(cfg, s, c);
      assert s.ctx ==> WorkerOk(cfg, s, Shard(cfg, c));
    }
  }

  /** Cancelling when every sender that saw the pool active has enqueued starts a quiet drain. */
  lemma CancelIsQuiet(cfg: Config, s: State)
    requires Inv(cfg, s) && Enabled(cfg, s, Cancel) && s.senders == map[]
    ensures Quiet(cfg, Step(cfg, s, Cancel))
  {
    StepKeepsInv(cfg, s, Cancel);
    NothingLateBeforeCancel(cfg, s);
  }

  lemma CalmIsKept(cfg: Config, s: State, l: Label)
    requires Calm(cfg, s) && Enabled(cfg, s, l)
    ensures Calm(cfg, Step(cfg, s, l))
    ensures s.cancelled ==> Step(cfg, s, l).cancelled
  {
    StepKeepsInv(cfg, s, l);
  }

  lemma {:induction false} RunKeepsCalm(cfg: Config, s: State, run: seq<Label>)
    requires Calm(cfg, s) && After(cfg, s, run).Some?
    ensures Calm(cfg, After(cfg, s, run).value)
    decreases |run|
  {
    if run != [] {
      CalmIsKept(cfg, s, run[0]);
      RunKeepsCalm(cfg, Step(cfg, s, run[0]), run[1..]);
    }
  }

  predicate AllExited(s: State) {
    forall w :: 0 <= w < |s.workers| ==> s.workers[w].Exited?
  }

  /** Once a quiet drain has finished, every submitted request was executed exactly once, in order. */
  lemma DrainedMeansExecuted(cfg: Config, s: State)
    requires Quiet(cfg, s) && AllExited(s)
    ensures forall w :: 0 <= w < |s.queues| ==> s.queues[w] == []
    ensures forall c: nat :: Settled(s, c)
    ensures multiset(s.executed) == multiset(s.submitted)
  {
    forall c: nat ensures Settled(s, c) && Proj(s.executed, c) == Proj(s.submitted, c) {
      assert Conserved(cfg, s, c) && LateOk(cfg, s, c);
    }
    forall w | 0 <= w < |s.queues| ensures s.queues[w] == [] {
      FirstIsProjected(s.queues[w]);
      assert WorkerOk(cfg, s, w);
      assert forall c: nat :: Shard(cfg, c) == w ==> LateOk(cfg, s, c);
    }
    SameProjectionsSameRequests(s.executed, s.submitted);
  }

  predicate IsWorkerStep(l: Label) {
    l.Take? || l.Finish? || l.SeeCancel? || l.DrainExit?
  }

  function Weight(q: seq<Req>, pc: Worker): nat {
    2 * |q| + match pc
              case Running(_) => 3
              case Selecting => 2
              case DrainRunning(_) => 2
              case Draining => 1
              case Exited => 0
  }

  /** Queued requests and live workers, weighted so that every worker action counts. */
  function Measure(qs: seq<seq<Req>>, ws: seq<Worker>): nat
    requires |qs| == |ws|
  {
    if qs == [] then 0 else Weight(qs[0], ws[0]) + Measure(qs[1..], ws[1..])
  }

  lemma {:induction false} MeasureUpdate(qs: seq<seq<Req>>, ws: seq<Worker>, w: nat, q: seq<Req>, pc: Worker)
    requires |qs| == |ws| && w < |qs|
    ensures Measure(qs[w := q], ws[w := pc]) == Measure(qs, ws) - Weight(qs[w], ws[w]) + Weight(q, pc)
    decreases |qs|
  {
    if w == 0 {
      assert qs[0 := q][1..] == qs[1..] && ws[0 := pc][1..] == ws[1..];
    } else {
      MeasureUpdate(qs[1..], ws[1..], w - 1, q, pc);
      assert qs[w := q][1..] == qs[1..][w - 1 := q] && ws[w := pc][1..] == ws[1..][w - 1 := pc];
    }
  }

  lemma WorkerStepDecreases(cfg: Config, s: State, l: Label)
    requires Shape(cfg, s) && s.ctx && IsWorkerStep(l) && Enabled(cfg, s, l)
    ensures var t := Step(cfg, s, l);
            |t.queues| == |t.workers| && Measure(t.queues, t.workers) < Measure(s.queues, s.workers)
  {
    var t := Step(cfg, s, l);
    var w := l.w;
    MeasureUpdate(s.queues, s.workers, w, t.queues[w], t.workers[w]);
    assert s.queues[w := t.queues[w]] == t.queues && s.workers[w := t.workers[w]] == t.workers;
  }

  /** What worker `w` can do next after the cancel. */
  function NextOfWorker(s: State, w: nat): Label
    requires w < |s.workers| && w < |s.queues|
  {
    match s.workers[w]
    case Running(_) => Finish(w)
    case DrainRunning(_) => Finish(w)
    case Selecting => SeeCancel(w)
    case Draining => if s.queues[w] == [] then DrainExit(w) else Take(w)
    case Exited => DrainExit(w)
  }

  /** While some worker is alive after the cancel, it can act: the drain cannot get stuck. */
  lemma DrainMakesProgress(cfg: Config, s: State, w: nat)
    requires Shape(cfg, s) && s.ctx && s.cancelled && w < |s.workers| && !s.workers[w].Exited?
    ensures var l := NextOfWorker(s, w); IsWorkerStep(l) && Enabled(cfg, s, l)
  {
  }

  /**
   From a quiet cancel, whichever select branches the workers choose, they take at
   most `Measure` actions; and when none is left to take, all have exited, all
   queues are empty and every submitted request was executed exactly once.
   */
  lemma {:induction false} DrainTerminatesComplete(cfg: Config, s: State, run: seq<Label>)
    requires Quiet(cfg, s)
    requires forall i :: 0 <= i < |run| ==> IsWorkerStep(run[i])
    requires After(cfg, s, run).Some?
    ensures |run| <= Measure(s.queues, s.workers)
    ensures var t := After(cfg, s, run).value;
            (forall l :: IsWorkerStep(l) ==> !Enabled(cfg, t, l)) ==>
              && AllExited(t)
              && (forall w :: 0 <= w < |t.queues| ==> t.queues[w] == [])
              && multiset(t.executed) == multiset(t.submitted)
    decreases |run|
  {
    if run == [] {
      if forall l :: IsWorkerStep(l) ==> !Enabled(cfg, s, l) {
        forall w | 0 <= w < |s.workers| ensures s.workers[w].Exited? {
          if !s.workers[w].Exited? { DrainMakesProgress(cfg, s, w); }
        }
        DrainedMeansExecuted(cfg, s);
      }
    } else {
      CalmIsKept(cfg, s, run[0]);
      WorkerStepDecreases(cfg, s, run[0]);
      DrainTerminatesComplete(cfg, Step(cfg, s, run[0]), run[1..]);
    }
  }

  /** Every submitted request of connection `c` has been executed, in order. */
  predicate Settled(s: State, c: nat) {
    Proj(s.executed, c) == Proj(s.submitted, c)
  }

  lemma ExitedLane(cfg: Config, s: State, c: nat)
    requires Sized(cfg, s) && Conserved(cfg, s, c) && LateOk(cfg, s, c)
    requires s.ctx && s.workers[Shard(cfg, c)].Exited?
    ensures Settled(s, c) <==> Proj(s.late, c) + Waiting(s, c) == []
  {
    assert InFlight(cfg, s, c) == [] && Queued(cfg, s, c) == Proj(s.late, c);
    Regroup(Proj(s.executed, c), [], Proj(s.late, c), Waiting(s, c));
    var e, rest := Proj(s.executed, c), Proj(s.late, c) + Waiting(s, c);
    assert e + rest == Proj(s.submitted, c);
    assert |e + rest| == |e| + |rest|;
  }

  /**
   Without the assumption on senders: once all workers have exited, every submitted
   request was executed if and only if nothing was enqueued late and no sender is
   still holding one.
   */
  lemma StrandedIff(cfg: Config, s: State)
    requires Inv(cfg, s) && s.ctx && AllExited(s)
    ensures (forall c: nat :: Settled(s, c))
       <==> s.late == [] && s.senders == map[]
  {
    forall c: nat ensures Settled(s, c) <==> Proj(s.late, c) + Waiting(s, c) == [] {
      assert Conserved(cfg, s, c) && LateOk(cfg, s, c);
      ExitedLane(cfg, s, c);
    }
    FirstIsProjected(s.late);
    if s.late != [] {
      var c := s.late[0].conn;
      assert Proj(s.late, c) + Waiting(s, c) != [];
      assert !Settled(s, c);
    } else if s.senders != map[] {
      var c :| c in s.senders;
      assert Proj(s.late, c) + Waiting(s, c) != [];
      assert !Settled(s, c);
    }
  }

  ghost predicate AllSettled(s: State) { forall c: nat :: Settled(s, c) }

  /** However the stop goes on: once all workers are gone, every submitted request has been executed. */
  ghost predicate NothingWillBeLost(cfg: Config, s: State) {
    forall run :: After(cfg, s, run).Some? && AllExited(After(cfg, s, run).value) ==>
      AllSettled(After(cfg, s, run).value)
  }

  lemma WorkerStepKeepsSenders(cfg: Config, s: State, l: Label)
    requires IsWorkerStep(l) && Enabled(cfg, s, l)
    ensures var t := Step(cfg, s, l); t.senders == s.senders && t.ctx == s.ctx && t.cancelled == s.cancelled
  {
  }

  /** The workers alone can drain and leave, while senders are still on their way. */
  lemma {:induction false} WorkersLeave(cfg: Config, s: State) returns (run: seq<Label>)
    requires Inv(cfg, s) && s.ctx && s.cancelled
    ensures After(cfg, s, run).Some?
    ensures var t := After(cfg, s, run).value; Inv(cfg, t) && t.ctx && AllExited(t) && t.senders == s.senders
    decreases Measure(s.queues, s.workers)
  {
    run := [];
    if !AllExited(s) {
      var w :| 0 <= w < |s.workers| && !s.workers[w].Exited?;
      var l := NextOfWorker(s, w);
      DrainMakesProgress(cfg, s, w);
      StepKeepsInv(cfg, s, l);
      WorkerStepKeepsSenders(cfg, s, l);
      WorkerStepDecreases(cfg, s, l);
      var rest := WorkersLeave(cfg, Step(cfg, s, l));
      RunCons(Machine(cfg), s, l, rest);
      run := [l] + rest;
    }
  }

  lemma CancelAndLeave(cfg: Config, s: State) returns (run: seq<Label>)
    requires Inv(cfg, s) && Enabled(cfg, s, Cancel)
    ensures After(cfg, s, run).Some?
    ensures var t := After(cfg, s, run).value; Inv(cfg, t) && t.ctx && AllExited(t) && t.senders == s.senders
  {
    StepKeepsInv(cfg, s, Cancel);
    var rest := WorkersLeave(cfg, Step(cfg, s, Cancel));
    RunCons(Machine(cfg), s, Cancel, rest);
    run := [Cancel] + rest;
  }

  /**
   Exactly when a stop executes everything, at the moment of the cancel: every run that
   ends with all workers gone has executed every submitted request if and only if no
   sender is between its test for "active" and its enqueue.
   */
  lemma NothingLostIff(cfg: Config, s: State)
    requires Inv(cfg, s) && Enabled(cfg, s, Cancel)
    ensures NothingWillBeLost(cfg, s) <==> s.senders == map[]
  {
    if s.senders == map[] {
      NothingLateBeforeCancel(cfg, s);
      forall run | After(cfg, s, run).Some? && AllExited(After(cfg, s, run).value)
        ensures AllSettled(After(cfg, s, run).value)
      {
        RunKeepsCalm(cfg, s, run);
        StrandedIff(cfg, After(cfg, s, run).value);
      }
    } else {
      var run := CancelAndLeave(cfg, s);
      StrandedIff(cfg, After(cfg, s, run).value);
      assert !AllSettled(After(cfg, s, run).value);
    }
  }

  /** With all workers gone nothing is executed or submitted any more. */
  lemma {:induction false} NothingRunsAfterExit(cfg: Config, s: State, run: seq<Label>)
    requires s.ctx && !s.active && AllExited(s) && |s.workers| == cfg.size && After(cfg, s, run).Some?
    ensures var t := After(cfg, s, run).value; t.executed == s.executed && t.submitted == s.submitted
    decreases |run|
  {
    if run != [] {
      ExitIsKept(cfg, s, run[0]);
      NothingRunsAfterExit(cfg, Step(cfg, s, run[0]), run[1..]);
    }
  }

  lemma ExitIsKept(cfg: Config, s: State, l: Label)
    requires s.ctx && !s.active && AllExited(s) && |s.workers| == cfg.size && Enabled(cfg, s, l)
    ensures var t := Step(cfg, s, l);
            t.ctx && !t.active && t.workers == s.workers && t.executed == s.executed && t.submitted == s.submitted
  {
    assert !l.Handoff?;
  }

  lemma StopWithSender(cfg: Config, r: Req) returns (run: seq<Label>)
    requires cfg.size > 0
    ensures After(cfg, INIT, run).Some?
    ensures var s := After(cfg, INIT, run).value;
            Inv(cfg, s) && Enabled(cfg, s, Cancel) && r.conn in s.senders && s.senders[r.conn].req == r
  {
    var s1 := Step(cfg, INIT, Start);
    var s2 := Step(cfg, s1, Submit(r));
    RunCons(Machine(cfg), s2, Deactivate, []);
    RunCons(Machine(cfg), s1, Submit(r), [Deactivate] + []);
    RunCons(Machine(cfg), INIT, Start, [Submit(r)] + ([Deactivate] + []));
    run := [Start] + ([Submit(r)] + ([Deactivate] + []));
    InitInv(cfg);
    RunKeepsInv(cfg, INIT, run);
  }

  /** A sender that still holds its request when the workers are gone has not had it executed. */
  lemma HeldIsNotExecuted(cfg: Config, s: State, c: nat)
    requires Inv(cfg, s) && s.ctx && AllExited(s) && c in s.senders
    ensures !Settled(s, c)
  {
    assert Conserved(cfg, s, c) && LateOk(cfg, s, c);
    ExitedLane(cfg, s, c);
    assert Proj(s.late, c) + Waiting(s, c) != [];
  }

  lemma ExitedIsInactive(cfg: Config, s: State)
    requires Shape(cfg, s) && s.ctx && AllExited(s)
    ensures !s.active
  {
    assert WorkerOk(cfg, s, 0);
  }

  /**
   The race, for every pool and every request: a sender that tested "active" before the
   stop can miss the drain, and then its request is not executed in any continuation.
   */
  lemma LateSenderIsStranded(cfg: Config, r: Req) returns (run: seq<Label>)
    requires cfg.size > 0
    ensures After(cfg, INIT, run).Some? && AllExited(After(cfg, INIT, run).value)
    ensures forall later :: After(cfg, After(cfg, INIT, run).value, later).Some? ==>
              !Settled(After(cfg, After(cfg, INIT, run).value, later).value, r.conn)
  {
    var stop := StopWithSender(cfg, r);
    var s := After(cfg, INIT, stop).value;
    var leave := CancelAndLeave(cfg, s);
    RunAppend(Machine(cfg), INIT, stop, s, leave);
    run := stop + leave;
    var t := After(cfg, INIT, run).value;
    HeldIsNotExecuted(cfg, t, r.conn);
    ExitedIsInactive(cfg, t);
    forall later | After(cfg, t, later).Some? ensures !Settled(After(cfg, t, later).value, r.conn) {
      NothingRunsAfterExit(cfg, t, later);
    }
  }

  // --------------------------------------------- when parked senders are served first

  /** How much senders still have to do before their requests are queued or running. */
  function SendersWeight(senders: map<nat, Sender>): nat {
    4 * |senders| + |Unparked(senders)| + |TryingOf(senders)|
  }

  function Unparked(senders: map<nat, Sender>): set<nat> { set c | c in senders && !senders[c].Parked? }

  function TryingOf(senders: map<nat, Sender>): set<nat> { set c | c in senders && senders[c].Trying? }

  lemma SenderLeaves(senders: map<nat, Sender>, c: nat)
    requires c in senders
    ensures SendersWeight(senders - {c}) + 4 <= SendersWeight(senders)
  {
    assert (senders - {c}).Keys == senders.Keys - {c};
    SubsetSize(Unparked(senders - {c}), Unparked(senders));
    SubsetSize(TryingOf(senders - {c}), TryingOf(senders));
  }

  lemma SenderBlocks(senders: map<nat, Sender>, c: nat)
    requires c in senders && senders[c].Trying?
    ensures SendersWeight(senders[c := Blocking(senders[c].req)]) < SendersWeight(senders)
  {
    var after := senders[c := Blocking(senders[c].req)];
    assert after.Keys == senders.Keys && Unparked(after) == Unparked(senders);
    assert TryingOf(after) == TryingOf(senders) - {c} && c in TryingOf(senders);
  }

  lemma SenderParks(senders: map<nat, Sender>, c: nat)
    requires c in senders && senders[c].Blocking?
    ensures SendersWeight(senders[c := Parked(senders[c].req)]) < SendersWeight(senders)
  {
    var after := senders[c := Parked(senders[c].req)];
    assert after.Keys == senders.Keys && TryingOf(after) == TryingOf(senders);
    assert Unparked(after) == Unparked(senders) - {c} && c in Unparked(senders);
  }

  lemma SenderComes(senders: map<nat, Sender>, c: nat, x: Sender)
    requires c !in senders
    ensures SendersWeight(senders[c := x]) <= SendersWeight(senders) + 6
  {
    var after := senders[c := x];
    assert after.Keys == senders.Keys + {c};
    AtMostOneMore(Unparked(after), Unparked(senders), c);
    AtMostOneMore(TryingOf(after), TryingOf(senders), c);
  }

  lemma AtMostOneMore(a: set<nat>, b: set<nat>, x: nat)
    requires a <= b + {x}
    ensures |a| <= |b| + 1
  {
    SubsetSize(a, b + {x});
  }

  function PoolMeasure(cfg: Config, p: State): nat
    requires Sized(cfg, p)
  {
    Measure(p.queues, p.workers) + SendersWeight(p.senders)
  }

  /** Steps that bring requests already submitted further on. */
  predicate IsForward(l: Label) {
    IsWorkerStep(l) || l.Enqueue? || l.TryFail? || l.Park? || l.Handoff?
  }

  lemma EnqueueWeight(cfg: Config, p: State, c: nat)
    requires Sized(cfg, p) && p.ctx && Enabled(cfg, p, Enqueue(c))
    ensures PoolMeasure(cfg, Step(cfg, p, Enqueue(c))) < PoolMeasure(cfg, p)
  {
    var q, w := Step(cfg, p, Enqueue(c)), Shard(cfg, c);
    SenderLeaves(p.senders, c);
    MeasureUpdate(p.queues, p.workers, w, q.queues[w], p.workers[w]);
    assert p.workers[w := p.workers[w]] == p.workers && p.queues[w := q.queues[w]] == q.queues;
  }

  lemma HandoffWeight(cfg: Config, p: State, c: nat)
    requires Sized(cfg, p) && p.ctx && Enabled(cfg, p, Handoff(c))
    ensures PoolMeasure(cfg, Step(cfg, p, Handoff(c))) < PoolMeasure(cfg, p)
  {
    var q, w := Step(cfg, p, Handoff(c)), Shard(cfg, c);
    SenderLeaves(p.senders, c);
    MeasureUpdate(p.queues, p.workers, w, p.queues[w], q.workers[w]);
    assert p.queues[w := p.queues[w]] == p.queues && p.workers[w := q.workers[w]] == q.workers;
  }

  /** Whatever senders and workers do with what was submitted lowers the measure. */
  lemma ForwardStepDecreases(cfg: Config, p: State, l: Label)
    requires Shape(cfg, p) && Enabled(cfg, p, l) && IsForward(l)
    ensures Sized(cfg, Step(cfg, p, l)) && PoolMeasure(cfg, Step(cfg, p, l)) < PoolMeasure(cfg, p)
  {
    StepKeepsShape(cfg, p, l);
    if l.Enqueue? {
      EnqueueWeight(cfg, p, l.conn);
    } else if l.Handoff? {
      HandoffWeight(cfg, p, l.conn);
    } else if l.TryFail? {
      SenderBlocks(p.senders, l.conn);
    } else if l.Park? {
      SenderParks(p.senders, l.conn);
    } else {
      WorkerStepDecreases(cfg, p, l);
    }
  }

  predicate ParkedAt(cfg: Config, s: State, c: nat, w: nat) {
    c in s.senders && s.senders[c].Parked? && cfg.size > 0 && Shard(cfg, c) == w
  }

  /** A worker ends its drain only when no sender is parked on its queue. */
  predicate PromptStep(cfg: Config, s: State, l: Label) {
    l.DrainExit? ==> forall c :: c in s.senders ==> !ParkedAt(cfg, s, c, l.w)
  }

  /**
   A run as Go's runtime has it, where a receive with a sender parked on the channel never
   finds the channel empty. The language itself does not promise this.
   */
  predicate Prompt(cfg: Config, s: State, run: seq<Label>)
    decreases |run|
  {
    run == [] || (Enabled(cfg, s, run[0]) && PromptStep(cfg, s, run[0]) && Prompt(cfg, Step(cfg, s, run[0]), run[1..]))
  }

  /** However the stop goes on in that way: once all workers are gone, everything submitted has been executed. */
  ghost predicate NothingWillBeLostPromptly(cfg: Config, s: State) {
    forall run :: After(cfg, s, run).Some? && Prompt(cfg, s, run) && AllExited(After(cfg, s, run).value) ==>
      AllSettled(After(cfg, s, run).value)
  }

  predicate AllParked(s: State) {
    forall c :: c in s.senders ==> s.senders[c].Parked?
  }

  /** Every sender is parked on the queue of a worker that is still there. */
  ghost predicate WillBeServed(cfg: Config, s: State) {
    && Inv(cfg, s) && s.ctx && !s.active && AllParked(s) && s.late == []
    && forall c :: c in s.senders ==> !s.workers[Shard(cfg, c)].Exited?
  }

  lemma ServedStep(cfg: Config, s: State, l: Label)
    requires WillBeServed(cfg, s) && Enabled(cfg, s, l) && PromptStep(cfg, s, l)
    ensures WillBeServed(cfg, Step(cfg, s, l))
  {
    StepKeepsInv(cfg, s, l);
    var t := Step(cfg, s, l);
    forall c | c in t.senders ensures t.senders[c].Parked? && !t.workers[Shard(cfg, c)].Exited? {
      assert c in s.senders;
      if l.DrainExit? {
        assert !ParkedAt(cfg, s, c, l.w);
      }
    }
  }

  lemma {:induction false} ServedRun(cfg: Config, s: State, run: seq<Label>)
    requires WillBeServed(cfg, s) && After(cfg, s, run).Some? && Prompt(cfg, s, run)
    ensures WillBeServed(cfg, After(cfg, s, run).value)
    decreases |run|
  {
    if run != [] {
      ServedStep(cfg, s, run[0]);
      ServedRun(cfg, Step(cfg, s, run[0]), run[1..]);
    }
  }

  /** The next step of a drain that serves parked senders before its worker leaves. */
  lemma NextOfDrain(cfg: Config, s: State, w: nat) returns (l: Label)
    requires Shape(cfg, s) && s.ctx && s.cancelled && w < |s.workers| && !s.workers[w].Exited?
    ensures IsForward(l) && Enabled(cfg, s, l) && PromptStep(cfg, s, l)
    ensures l.Enqueue? || l.TryFail? || l.Park? || l.Handoff? ==> s.senders[l.conn].Parked?
  {
    DrainMakesProgress(cfg, s, w);
    l := NextOfWorker(s, w);
    if l.DrainExit? && exists c :: c in s.senders && ParkedAt(cfg, s, c, w) {
      var c :| c in s.senders && ParkedAt(cfg, s, c, w);
      l := Handoff(c);
    }
  }

  lemma OthersKeepSender(cfg: Config, s: State, l: Label, c: nat)
    requires Enabled(cfg, s, l) && IsForward(l) && c in s.senders && !s.senders[c].Parked?
    requires l.Enqueue? || l.TryFail? || l.Park? || l.Handoff? ==> s.senders[l.conn].Parked?
    ensures var t := Step(cfg, s, l);
            c in t.senders && !t.senders[c].Parked? && t.ctx == s.ctx && t.cancelled == s.cancelled
  {
  }

  lemma {:induction false} LeaveWithoutSender(cfg: Config, s: State, c: nat) returns (run: seq<Label>)
    requires Inv(cfg, s) && s.ctx && s.cancelled && c in s.senders && !s.senders[c].Parked?
    ensures After(cfg, s, run).Some? && Prompt(cfg, s, run)
    ensures var t := After(cfg, s, run).value; Inv(cfg, t) && t.ctx && AllExited(t) && c in t.senders
    decreases PoolMeasure(cfg, s)
  {
    run := [];
    if !AllExited(s) {
      var w :| 0 <= w < |s.workers| && !s.workers[w].Exited?;
      var l := NextOfDrain(cfg, s, w);
      StepKeepsInv(cfg, s, l);
      OthersKeepSender(cfg, s, l, c);
      ForwardStepDecreases(cfg, s, l);
      var rest := LeaveWithoutSender(cfg, Step(cfg, s, l), c);
      PromptCons(cfg, s, l, rest);
      run := [l] + rest;
    }
  }

  lemma PromptCons(cfg: Config, s: State, l: Label, run: seq<Label>)
    requires Enabled(cfg, s, l) && PromptStep(cfg, s, l) && Prompt(cfg, Step(cfg, s, l), run)
    ensures Prompt(cfg, s, [l] + run) && After(cfg, s, [l] + run) == After(cfg, Step(cfg, s, l), run)
  {
    assert ([l] + run)[1..] == run;
  }

  /**
   The sharper condition under Go's runtime: everything submitted is sure to be executed
   if and only if, at the cancel, every sender is parked in its send. Only one that has
   not reached its blocking send can miss the drain.
   */
  lemma NothingLostPromptlyIff(cfg: Config, s: State)
    requires Inv(cfg, s) && Enabled(cfg, s, Cancel)
    ensures NothingWillBeLostPromptly(cfg, s) <==> AllParked(s)
  {
    if AllParked(s) {
      NothingLateBeforeCancel(cfg, s);
      forall c | c in s.senders ensures !s.workers[Shard(cfg, c)].Exited? {
        assert WorkerOk(cfg, s, Shard(cfg, c));
      }
      forall run | After(cfg, s, run).Some? && Prompt(cfg, s, run) && AllExited(After(cfg, s, run).value)
        ensures AllSettled(After(cfg, s, run).value)
      {
        ServedRun(cfg, s, run);
        StrandedIff(cfg, After(cfg, s, run).value);
      }
    } else {
      var c :| c in s.senders && !s.senders[c].Parked?;
      StepKeepsInv(cfg, s, Cancel);
      var rest := LeaveWithoutSender(cfg, Step(cfg, s, Cancel), c);
      PromptCons(cfg, s, Cancel, rest);
      HeldIsNotExecuted(cfg, After(cfg, s, [Cancel] + rest).value, c);
    }
  }

  // ------------------------------------------------------------ the order of begins

  /** Requests of connection `c` that have begun on a worker, or in goroutines of their own. */
  function On(log: seq<Began>, c: nat, worker: bool): seq<Req> {
    if log == [] then []
    else
      var b := log[|log| - 1];
      On(log[..|log| - 1], c, worker) + if b.req.conn == c && b.onWorker == worker then [b.req] else []
  }

  /** All requests of connection `c` that have begun, in the order they did. */
  function Begins(log: seq<Began>, c: nat): seq<Req> {
    if log == [] then []
    else
      var b := log[|log| - 1];
      Begins(log[..|log| - 1], c) + if b.req.conn == c then [b.req] else []
  }

  lemma LogSnoc(log: seq<Began>, b: Began, c: nat, worker: bool)
    ensures On(log + [b], c, worker)
         == On(log, c, worker) + if b.req.conn == c && b.onWorker == worker then [b.req] else []
    ensures Begins(log + [b], c) == Begins(log, c) + if b.req.conn == c then [b.req] else []
  {
    assert (log + [b])[..|log|] == log;
  }

  lemma {:induction false} BeginsAreAll(log: seq<Began>, c: nat)
    ensures multiset(Begins(log, c)) == multiset(On(log, c, true)) + multiset(On(log, c, false))
    ensures On(log, c, false) == [] ==> Begins(log, c) == On(log, c, true)
    decreases |log|
  {
    if log != [] {
      BeginsAreAll(log[..|log| - 1], c);
    }
  }

  /** Workers begin what they execute, in that order. */
  predicate WorkerBeginsOk(cfg: Config, s: State, c: nat)
    requires Sized(cfg, s)
  {
    On(s.begun, c, true) == Proj(s.executed, c) + InFlight(cfg, s, c)
  }

  /** What was dispatched directly has begun or is ready to. */
  ghost predicate DirectBeginsOk(s: State, c: nat) {
    multiset(On(s.begun, c, false)) + multiset(Proj(s.ready, c)) == multiset(Proj(s.direct, c))
  }

  function Only(r: Req, c: nat): seq<Req> { if r.conn == c then [r] else [] }

  lemma TakeMoves(cfg: Config, s: State, w: nat, c: nat)
    requires Shape(cfg, s) && s.ctx && Enabled(cfg, s, Take(w))
    ensures Sized(cfg, Step(cfg, s, Take(w)))
    ensures InFlight(cfg, Step(cfg, s, Take(w)), c) == InFlight(cfg, s, c) + Only(s.queues[w][0], c)
  {
    var t, r := Step(cfg, s, Take(w)), s.queues[w][0];
    assert WorkerOk(cfg, s, w);
    assert Shard(cfg, r.conn) == w;
    ProjOne(r, c);
    if Shard(cfg, c) == w {
      assert InFlight(cfg, s, c) == [] && InFlight(cfg, t, c) == Proj([r], c);
    } else {
      assert InFlight(cfg, t, c) == InFlight(cfg, s, c) + [];
    }
  }

  lemma HandoffStarts(cfg: Config, s: State, d: nat, c: nat)
    requires Shape(cfg, s) && s.ctx && Enabled(cfg, s, Handoff(d))
    ensures Sized(cfg, Step(cfg, s, Handoff(d)))
    ensures InFlight(cfg, Step(cfg, s, Handoff(d)), c) == InFlight(cfg, s, c) + Only(s.senders[d].req, c)
  {
    if c == d {
      HandoffMoves(cfg, s, d);
    } else {
      HandoffLeavesOthers(cfg, s, d, c);
      assert InFlight(cfg, s, c) + [] == InFlight(cfg, s, c);
    }
  }

  lemma FinishedInFlight(cfg: Config, s: State, w: nat, c: nat)
    requires Shape(cfg, s) && s.ctx && Enabled(cfg, s, Finish(w))
    ensures var t, x := Step(cfg, s, Finish(w)), Only(s.workers[w].req, c);
            && Sized(cfg, t)
            && (if Shard(cfg, c) == w then InFlight(cfg, s, c) == x && InFlight(cfg, t, c) == []
                else InFlight(cfg, t, c) == InFlight(cfg, s, c) && x == [])
  {
    ShapeRoutes(cfg, s, Finish(w));
    ProjOne(s.workers[w].req, c);
    assert Held(s.workers[w]) == [s.workers[w].req];
  }

  lemma FinishMoves(cfg: Config, s: State, w: nat, c: nat)
    requires Shape(cfg, s) && s.ctx && Enabled(cfg, s, Finish(w))
    ensures var t := Step(cfg, s, Finish(w));
            Sized(cfg, t) && Proj(t.executed, c) + InFlight(cfg, t, c) == Proj(s.executed, c) + InFlight(cfg, s, c)
  {
    var e, x := Proj(s.executed, c), Only(s.workers[w].req, c);
    FinishedInFlight(cfg, s, w, c);
    ProjSnoc(s.executed, s.workers[w].req, c);
    assert Proj(Step(cfg, s, Finish(w)).executed, c) == e + x;
    assert e + x + [] == e + x && e + [] == e;
  }

  /** Only a receive by a worker makes a request of the connection begin on a worker. */
  function Starting(cfg: Config, s: State, l: Label): seq<Began>
    requires Enabled(cfg, s, l)
  {
    match l
    case Take(w) => [Began(s.queues[w][0], true)]
    case Handoff(c) => [Began(s.senders[c].req, true)]
    case BeginDirect(i) => [Began(s.ready[i], false)]
    case _ => []
  }

  lemma BegunGrows(cfg: Config, s: State, l: Label)
    requires Enabled(cfg, s, l)
    ensures Step(cfg, s, l).begun == s.begun + Starting(cfg, s, l)
  {
  }

  lemma StepMovesInFlight(cfg: Config, s: State, l: Label, c: nat)
    requires Shape(cfg, s) && s.ctx && Enabled(cfg, s, l)
    ensures var t := Step(cfg, s, l);
            && Sized(cfg, t)
            && Proj(t.executed, c) + InFlight(cfg, t, c)
               == Proj(s.executed, c) + InFlight(cfg, s, c) + On(Starting(cfg, s, l), c, true)
  {
    var t, before := Step(cfg, s, l), Proj(s.executed, c) + InFlight(cfg, s, c);
    assert before + [] == before;
    match l
    case Take(w) =>
      TakeMoves(cfg, s, w, c);
      LogOne(s.queues[w][0], true, c);
      Assoc(Proj(s.executed, c), InFlight(cfg, s, c), Only(s.queues[w][0], c));
    case Handoff(d) =>
      HandoffStarts(cfg, s, d, c);
      LogOne(s.senders[d].req, true, c);
      Assoc(Proj(s.executed, c), InFlight(cfg, s, c), Only(s.senders[d].req, c));
    case Finish(w) => FinishMoves(cfg, s, w, c);
    case BeginDirect(i) => LogOne(s.ready[i], false, c);
    case _ => OthersMoveNothing(cfg, s, l, c);
  }

  lemma OthersMoveNothing(cfg: Config, s: State, l: Label, c: nat)
    requires Shape(cfg, s) && s.ctx && Enabled(cfg, s, l)
    requires !l.Take? && !l.Handoff? && !l.Finish?
    ensures var t := Step(cfg, s, l);
            Sized(cfg, t) && t.executed == s.executed && InFlight(cfg, t, c) == InFlight(cfg, s, c)
  {
    StepKeepsShape(cfg, s, l);
    var t, w := Step(cfg, s, l), Shard(cfg, c);
    assert Held(t.workers[w]) == Held(s.workers[w]);
  }

  lemma LogOne(r: Req, worker: bool, c: nat)
    ensures On([Began(r, worker)], c, worker) == Only(r, c) && On([Began(r, worker)], c, !worker) == []
    ensures Begins([Began(r, worker)], c) == Only(r, c)
  {
    assert [Began(r, worker)][..0] == [];
  }

  lemma StepKeepsWorkerBegins(cfg: Config, s: State, l: Label, c: nat)
    requires Shape(cfg, s) && s.ctx && Enabled(cfg, s, l) && WorkerBeginsOk(cfg, s, c)
    ensures Sized(cfg, Step(cfg, s, l)) && WorkerBeginsOk(cfg, Step(cfg, s, l), c)
  {
    BegunGrows(cfg, s, l);
    StepMovesInFlight(cfg, s, l, c);
    LogAppend(s.begun, Starting(cfg, s, l), c);
  }

  lemma LogAppend(log: seq<Began>, more: seq<Began>, c: nat)
    requires |more| <= 1
    ensures On(log + more, c, true) == On(log, c, true) + On(more, c, true)
    ensures On(log + more, c, false) == On(log, c, false) + On(more, c, false)
    ensures Begins(log + more, c) == Begins(log, c) + Begins(more, c)
  {
    if more == [] {
      assert log + more == log;
    } else {
      LogSnoc(log, more[0], c, true);
      LogSnoc(log, more[0], c, false);
      LogOne(more[0].req, more[0].onWorker, c);
      assert more == [more[0]];
    }
  }

  lemma ProjWithout(s: seq<Req>, i: nat, c: nat)
    requires i < |s|
    ensures multiset(Proj(s, c)) == multiset(Proj(s[..i] + s[i + 1..], c)) + multiset(Only(s[i], c))
  {
    assert s == s[..i] + [s[i]] + s[i + 1..];
    ProjAppend(s[..i] + [s[i]], s[i + 1..], c);
    ProjSnoc(s[..i], s[i], c);
    ProjAppend(s[..i], s[i + 1..], c);
    var a, b, x := Proj(s[..i], c), Proj(s[i + 1..], c), Only(s[i], c);
    assert multiset(a + x + b) == multiset(a + b) + multiset(x);
  }

  lemma MoveBetween(own: seq<Req>, rest: seq<Req>, rest': seq<Req>, all: seq<Req>, x: seq<Req>)
    requires multiset(own) + multiset(rest) == multiset(all) && multiset(rest) == multiset(rest') + multiset(x)
    ensures multiset(own + x) + multiset(rest') == multiset(all)
  {
  }

  lemma AddToBoth(own: seq<Req>, rest: seq<Req>, all: seq<Req>, x: seq<Req>)
    requires multiset(own) + multiset(rest) == multiset(all)
    ensures multiset(own) + multiset(rest + x) == multiset(all + x)
  {
  }

  lemma DirectBegins(begun: seq<Began>, ready: seq<Req>, direct: seq<Req>, i: nat, c: nat)
    requires i < |ready| && multiset(On(begun, c, false)) + multiset(Proj(ready, c)) == multiset(Proj(direct, c))
    ensures multiset(On(begun + [Began(ready[i], false)], c, false)) + multiset(Proj(ready[..i] + ready[i + 1..], c))
         == multiset(Proj(direct, c))
  {
    var own, x, rest := On(begun, c, false), Only(ready[i], c), Proj(ready[..i] + ready[i + 1..], c);
    LogSnoc(begun, Began(ready[i], false), c, false);
    ProjWithout(ready, i, c);
    MoveBetween(own, Proj(ready, c), rest, Proj(direct, c), x);
  }

  lemma BeginDirectKeeps(cfg: Config, s: State, i: nat, c: nat)
    requires Enabled(cfg, s, BeginDirect(i)) && DirectBeginsOk(s, c)
    ensures DirectBeginsOk(Step(cfg, s, BeginDirect(i)), c)
  {
    DirectBegins(s.begun, s.ready, s.direct, i, c);
  }

  lemma SubmitKeepsDirect(cfg: Config, s: State, r: Req, c: nat)
    requires Enabled(cfg, s, Submit(r)) && !s.active && DirectBeginsOk(s, c)
    ensures DirectBeginsOk(Step(cfg, s, Submit(r)), c)
  {
    ProjSnoc(s.direct, r, c);
    ProjSnoc(s.ready, r, c);
    AddToBoth(On(s.begun, c, false), Proj(s.ready, c), Proj(s.direct, c), Only(r, c));
  }

  lemma StepKeepsDirectBegins(cfg: Config, s: State, l: Label, c: nat)
    requires Enabled(cfg, s, l) && DirectBeginsOk(s, c)
    ensures DirectBeginsOk(Step(cfg, s, l), c)
  {
    if l.BeginDirect? {
      BeginDirectKeeps(cfg, s, l.i, c);
    } else if l.Submit? && !s.active {
      SubmitKeepsDirect(cfg, s, l.req, c);
    } else {
      var own := On(s.begun, c, false);
      BegunGrows(cfg, s, l);
      LogAppend(s.begun, Starting(cfg, s, l), c);
      StartsOnWorker(cfg, s, l, c);
      assert own + [] == own;
    }
  }

  lemma StartsOnWorker(cfg: Config, s: State, l: Label, c: nat)
    requires Enabled(cfg, s, l) && !l.BeginDirect?
    ensures On(Starting(cfg, s, l), c, false) == []
    ensures !(l.Submit? && !s.active) ==> Step(cfg, s, l).ready == s.ready && Step(cfg, s, l).direct == s.direct
  {
    if l.Take? {
      LogOne(s.queues[l.w][0], true, c);
    } else if l.Handoff? {
      LogOne(s.senders[l.conn].req, true, c);
    }
  }

  // ------------------------------------------------------------- no restarting

  function Bringing(l: Label): seq<Req> { if l.Submit? then [l.req] else [] }

  /** The requests that senders bring along in a run. */
  function Brought(run: seq<Label>): seq<Req> {
    if run == [] then [] else Bringing(run[0]) + Brought(run[1..])
  }

  lemma StoppedStep(cfg: Config, s: State, l: Label)
    requires s.ctx && !s.active && Enabled(cfg, s, l)
    ensures var t := Step(cfg, s, l);
            t.ctx && !t.active && t.submitted == s.submitted && t.direct == s.direct + Bringing(l)
  {
  }

  /** A stopped pool stays stopped: every later request runs in a goroutine of its own, outside the order. */
  lemma {:induction false} StoppedPoolNeverRestarts(cfg: Config, s: State, run: seq<Label>)
    requires s.ctx && !s.active && After(cfg, s, run).Some?
    ensures var t := After(cfg, s, run).value;
            t.ctx && !t.active && t.submitted == s.submitted && t.direct == s.direct + Brought(run)
    decreases |run|
  {
    if run == [] {
      assert s.direct + [] == s.direct;
    } else {
      StoppedStep(cfg, s, run[0]);
      StoppedPoolNeverRestarts(cfg, Step(cfg, s, run[0]), run[1..]);
      Assoc(s.direct, Bringing(run[0]), Brought(run[1..]));
      assert Brought(run) == Bringing(run[0]) + Brought(run[1..]);
    }
  }

  /** A pool that is still active has run nothing outside its queues since it was started. */
  lemma {:induction false} ActivePoolRunsNothingDirectly(cfg: Config, s: State, run: seq<Label>)
    requires s.ctx && After(cfg, s, run).Some? && After(cfg, s, run).value.active
    ensures s.active && After(cfg, s, run).value.direct == s.direct
    decreases |run|
  {
    if run != [] {
      ActivePoolRunsNothingDirectly(cfg, Step(cfg, s, run[0]), run[1..]);
    }
  }
}
