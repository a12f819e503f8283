/**
 Handlers that stop each other's connections. `HandlerStop` follows one connection in every
 detail; here there are any number of them on one worker pool, each reduced to its reader
 and its socket as in `ShutdownDrain`, and any handler or other goroutine may call Stop on
 any connection. The theorems say that all of this comes to rest, and that the calls of
 Stop still waiting then are exactly those caught in a knot, which is for ever.
 */
module MutualStop {
  import opened Common
  import Codec
  import P = WorkerPool

  /** `left` messages of the current read are still to be handed over. */
  datatype Reader = Unlaunched | Reading | Dispatching(left: nat) | Gone

  datatype State = State(
    pool: P.State,
    readers: map<nat, Reader>,
    closed: set<nat>,            // stop body has closed the socket
    waits: map<nat, nat>,        // worker whose handler is inside Stop -> the connection
    outside: set<nat>)           // connections on which other goroutines are inside Stop

  datatype Label =
    // internal
    | Close(id: nat) | HandOver(id: nat, req: P.Req) | ReadOn(id: nat) | Leave(id: nat)
    | HandlerReturns(w: nat) | OutsideReturns(id: nat) | Forward(a: P.Label)
    // external
    | Connect(id: nat) | Launch(id: nat) | Receive(id: nat, n: nat) | ReadFails(id: nat) | CloseAnyway(id: nat)
    | HandlerStops(w: nat, id: nat) | OutsideStops(id: nat) | PoolControl(a: P.Label)

  predicate Internal(l: Label) {
    || l.Close? || l.HandOver? || l.ReadOn? || l.Leave? || l.HandlerReturns? || l.OutsideReturns? || l.Forward?
  }

  predicate Is(s: State, id: nat, pc: Reader) { id in s.readers && s.readers[id] == pc }

  predicate Dispatches(s: State, id: nat) { id in s.readers && s.readers[id].Dispatching? }

  /** What Connection.Stop waits for: the stop body, and the reader if it was launched. */
  predicate IsOver(s: State, id: nat) {
    id in s.closed && (Is(s, id, Gone) || Is(s, id, Unlaunched))
  }

  /** Connections on which some Stop is waiting. */
  function Targets(s: State): set<nat> { s.waits.Values + s.outside }

  predicate Enabled(cfg: P.Config, s: State, l: Label) {
    match l
    case Close(id) => id in Targets(s) && id !in s.closed
    case HandOver(id, r) =>
      Dispatches(s, id) && s.readers[id].left > 0 && r.conn == id && P.Enabled(cfg, s.pool, P.Submit(r))
    case ReadOn(id) => Is(s, id, Dispatching(0)) && id !in s.pool.senders
    case Leave(id) => Is(s, id, Reading) && id in s.closed
    case HandlerReturns(w) => w in s.waits && IsOver(s, s.waits[w])
    case OutsideReturns(id) => id in s.outside && IsOver(s, id)
    case Forward(a) =>
      && P.Enabled(cfg, s.pool, a) && (P.IsForward(a) || a.BeginDirect?)
      && (a.Finish? ==> a.w !in s.waits)
    case Connect(id) => id !in s.readers
    case Launch(id) => Is(s, id, Unlaunched)
    case Receive(id, _) => Is(s, id, Reading) && id !in s.closed
    case ReadFails(id) => Is(s, id, Reading)
    case CloseAnyway(id) => id in s.readers
    case HandlerStops(w, id) =>
      id in s.readers && w < |s.pool.workers| && P.Held(s.pool.workers[w]) != [] && w !in s.waits
    case OutsideStops(id) => id in s.readers
    case PoolControl(a) => P.Enabled(cfg, s.pool, a) && (a.Start? || a.Deactivate? || a.Cancel?)
  }

  function ReadersAfter(s: State, l: Label): map<nat, Reader> {
    match l
    case HandOver(id, _) =>
      if Dispatches(s, id) && s.readers[id].left > 0
      then s.readers[id := Dispatching(s.readers[id].left - 1)] else s.readers
    case ReadOn(id) => s.readers[id := Reading]
    case Leave(id) => s.readers[id := Gone]
    case Connect(id) => s.readers[id := Unlaunched]
    case Launch(id) => s.readers[id := Reading]
    case Receive(id, n) => s.readers[id := Dispatching(n)]
    case ReadFails(id) => s.readers[id := Gone]
    case _ => s.readers
  }

  function OnPool(l: Label): Option<P.Label> {
    match l
    case HandOver(_, r) => Some(P.Submit(r))
    case Forward(a) => Some(a)
    case PoolControl(a) => Some(a)
    case _ => None
  }

  function Step(cfg: P.Config, s: State, l: Label): State
    requires Enabled(cfg, s, l)
  {
    var a := OnPool(l);
    State(if a.Some? then P.Step(cfg, s.pool, a.value) else s.pool,
          ReadersAfter(s, l),
          if l.Close? || l.CloseAnyway? then s.closed + {l.id} else s.closed,
          if l.HandlerStops? then s.waits[l.w := l.id]
          else if l.HandlerReturns? then s.waits - {l.w} else s.waits,
          if l.OutsideStops? then s.outside + {l.id}
          else if l.OutsideReturns? then s.outside - {l.id} else s.outside)
  }

  function Machine(cfg: P.Config): (State, Label) -> Option<State> {
    (s, l) => if Enabled(cfg, s, l) then Some(Step(cfg, s, l)) else None
  }

  function After(cfg: P.Config, s: State, run: seq<Label>): Option<State> { Run(Machine(cfg), s, run) }

  /** No connection yet, beside a pool that may already be in use by nobody. */
  function Begin(pool: P.State): State { State(pool, map[], {}, map[], {}) }

  // ---------------------------------------------------------------- invariant

  predicate SendersDispatch(s: State) {
    forall c :: c in s.pool.senders ==> Dispatches(s, c)
  }

  predicate WaitsOk(s: State) {
    && (forall w :: w in s.waits ==>
          s.waits[w] in s.readers && w < |s.pool.workers| && P.Held(s.pool.workers[w]) != [])
    && s.outside <= s.readers.Keys
  }

  ghost predicate Inv(cfg: P.Config, s: State) {
    P.Inv(cfg, s.pool) && SendersDispatch(s) && WaitsOk(s)
  }

  lemma PoolStepKeeps(cfg: P.Config, p: P.State, a: P.Label)
    requires P.Enabled(cfg, p, a) && P.Sized(cfg, p)
    ensures var q := P.Step(cfg, p, a);
            && (forall c :: c in q.senders ==> c in p.senders || (a.Submit? && a.req.conn == c))
            && (forall w :: 0 <= w < |p.workers| && P.Held(p.workers[w]) != [] && a != P.Finish(w) ==>
                  w < |q.workers| && q.workers[w] == p.workers[w])
  {
  }

  lemma StepKeepsReaders(cfg: P.Config, s: State, l: Label)
    requires Enabled(cfg, s, l)
    ensures s.readers.Keys <= Step(cfg, s, l).readers.Keys
    ensures forall c :: Dispatches(s, c) && l != ReadOn(c) ==> Dispatches(Step(cfg, s, l), c)
  {
  }

  lemma StepKeepsSenders(cfg: P.Config, s: State, l: Label)
    requires SendersDispatch(s) && P.Sized(cfg, s.pool) && Enabled(cfg, s, l)
    ensures SendersDispatch(Step(cfg, s, l))
  {
    StepKeepsReaders(cfg, s, l);
    var t, a := Step(cfg, s, l), OnPool(l);
    if a.Some? { PoolStepKeeps(cfg, s.pool, a.value); }
    forall c | c in t.pool.senders ensures Dispatches(t, c) {
    }
  }

  lemma StepKeepsWaits(cfg: P.Config, s: State, l: Label)
    requires WaitsOk(s) && P.Sized(cfg, s.pool) && Enabled(cfg, s, l)
    ensures WaitsOk(Step(cfg, s, l))
  {
    StepKeepsReaders(cfg, s, l);
    var t, a := Step(cfg, s, l), OnPool(l);
    if a.Some? { PoolStepKeeps(cfg, s.pool, a.value); }
    forall w | w in t.waits
      ensures t.waits[w] in t.readers && w < |t.pool.workers| && P.Held(t.pool.workers[w]) != []
    {
      assert w in s.waits || l.HandlerStops?;
    }
  }

  lemma StepKeepsInv(cfg: P.Config, s: State, l: Label)
    requires Inv(cfg, s) && Enabled(cfg, s, l)
    ensures Inv(cfg, Step(cfg, s, l))
  {
    StepKeepsSenders(cfg, s, l);
    StepKeepsWaits(cfg, s, l);
    var a := OnPool(l);
    if a.Some? { P.StepKeepsInv(cfg, s.pool, a.value); }
  }

  // --------------------------------------------------------------------- knots

  /** The reader of `c` waits for a full queue whose worker has left or is inside Stop on one of `knot`. */
  predicate Caught(cfg: P.Config, s: State, c: nat, knot: set<nat>) {
    && cfg.size > 0 && c in s.pool.senders
    && var w := P.Shard(cfg, c);
       && w < |s.pool.workers| && w < |s.pool.queues|
       && !P.HasRoom(cfg, s.pool, w)
       && (s.pool.workers[w].Exited? || (w in s.waits && s.waits[w] in knot))
  }

  /** Every connection of the knot is caught in it. */
  predicate IsKnot(cfg: P.Config, s: State, knot: set<nat>) {
    forall c :: c in knot ==> Caught(cfg, s, c, knot)
  }

  /** The queue of a worker that cannot take stays full, and its sender stays in front of it. */
  lemma QueueStaysFull(cfg: P.Config, p: P.State, a: P.Label, c: nat, w: nat)
    requires P.Sized(cfg, p) && p.ctx && P.Enabled(cfg, p, a) && cfg.size > 0 && c in p.senders && w == P.Shard(cfg, c)
    requires !P.HasRoom(cfg, p, w) && (p.workers[w].Exited? || (P.Held(p.workers[w]) != [] && a != P.Finish(w)))
    ensures var q := P.Step(cfg, p, a);
            && c in q.senders && w < |q.workers| && w < |q.queues|
            && !P.HasRoom(cfg, q, w) && q.workers[w] == p.workers[w]
  {
    assert a.Enqueue? ==> P.Shard(cfg, a.conn) != w;
    assert a.Handoff? ==> P.Shard(cfg, a.conn) != w;
  }

  lemma CaughtIsNotOver(cfg: P.Config, s: State, c: nat, knot: set<nat>)
    requires SendersDispatch(s) && Caught(cfg, s, c, knot)
    ensures !IsOver(s, c)
  {
  }

  lemma CaughtStays(cfg: P.Config, s: State, l: Label, c: nat, knot: set<nat>)
    requires Inv(cfg, s) && IsKnot(cfg, s, knot) && c in knot && Enabled(cfg, s, l)
    ensures Caught(cfg, Step(cfg, s, l), c, knot)
  {
    var w, a := P.Shard(cfg, c), OnPool(l);
    assert Caught(cfg, s, c, knot);
    if w in s.waits && s.waits[w] in knot {
      CaughtIsNotOver(cfg, s, s.waits[w], knot);
    }
    if a.Some? { QueueStaysFull(cfg, s.pool, a.value, c, w); }
  }

  /** Every Stop that waits for one of the knot still does. */
  predicate StillWaiting(s: State, t: State, knot: set<nat>) {
    && (forall w :: w in s.waits && s.waits[w] in knot ==> w in t.waits && t.waits[w] == s.waits[w])
    && s.outside * knot <= t.outside
  }

  lemma KnotStep(cfg: P.Config, s: State, l: Label, knot: set<nat>)
    requires Inv(cfg, s) && IsKnot(cfg, s, knot) && Enabled(cfg, s, l)
    ensures IsKnot(cfg, Step(cfg, s, l), knot) && StillWaiting(s, Step(cfg, s, l), knot)
  {
    forall c | c in knot ensures Caught(cfg, Step(cfg, s, l), c, knot) && !IsOver(s, c) {
      CaughtStays(cfg, s, l, c, knot);
      CaughtIsNotOver(cfg, s, c, knot);
    }
  }

  /** A knot is for ever: in every continuation, whatever anybody does, no Stop on one of its connections returns. */
  lemma {:induction false} KnotIsForEver(cfg: P.Config, s: State, run: seq<Label>, knot: set<nat>)
    requires Inv(cfg, s) && IsKnot(cfg, s, knot) && After(cfg, s, run).Some?
    ensures IsKnot(cfg, After(cfg, s, run).value, knot) && StillWaiting(s, After(cfg, s, run).value, knot)
    decreases |run|
  {
    if run != [] {
      StepKeepsInv(cfg, s, run[0]);
      KnotStep(cfg, s, run[0], knot);
      KnotIsForEver(cfg, Step(cfg, s, run[0]), run[1..], knot);
    }
  }

  // ---------------------------------------------------------------- coming to rest

  ghost predicate AtRest(cfg: P.Config, s: State) { forall l :: Internal(l) ==> !Enabled(cfg, s, l) }

  /** At rest, the reader of a connection that somebody waits for is stuck in its enqueue. */
  lemma TargetIsSending(cfg: P.Config, s: State, c: nat)
    requires Inv(cfg, s) && AtRest(cfg, s) && c in Targets(s)
    ensures c in s.pool.senders
  {
    assert !Enabled(cfg, s, Close(c)) && !Enabled(cfg, s, Leave(c)) && !Enabled(cfg, s, ReadOn(c));
    assert !Enabled(cfg, s, HandOver(c, P.Req(c, Codec.NewMessage(0, []), 0)));
    if c in s.outside {
      assert !Enabled(cfg, s, OutsideReturns(c));
    } else {
      var w :| w in s.waits && s.waits[w] == c;
      assert !Enabled(cfg, s, HandlerReturns(w));
    }
  }

  lemma TargetIsCaught(cfg: P.Config, s: State, c: nat)
    requires Inv(cfg, s) && AtRest(cfg, s) && c in Targets(s)
    ensures Caught(cfg, s, c, Targets(s))
  {
    TargetIsSending(cfg, s, c);
    assert s.pool.ctx && P.Sized(cfg, s.pool);
    var w := P.Shard(cfg, c);
    assert !Enabled(cfg, s, Forward(P.Enqueue(c))) && !Enabled(cfg, s, Forward(P.Handoff(c)));
    assert !Enabled(cfg, s, Forward(P.Take(w))) && !Enabled(cfg, s, Forward(P.Finish(w)));
    if w in s.waits {
      assert s.waits[w] in s.waits.Values;
    }
  }

  /** How far a reader is from being gone. */
  function ReaderWeight(pc: Reader): nat {
    match pc
    case Unlaunched => 0 case Reading => 1 case Dispatching(n) => 2 + 8 * n case Gone => 0
  }

  ghost function ReadersWeight(readers: map<nat, Reader>): nat
    decreases |readers|
  {
    if readers == map[] then 0
    else
      var id :| id in readers;
      assert |readers - {id}| < |readers| by {
        assert (readers - {id}).Keys == readers.Keys - {id};
      }
      ReaderWeight(readers[id]) + ReadersWeight(readers - {id})
  }

  lemma {:induction false} WeightWithout(readers: map<nat, Reader>, id: nat)
    requires id in readers
    ensures ReadersWeight(readers) == ReaderWeight(readers[id]) + ReadersWeight(readers - {id})
    decreases |readers|
  {
    var x :| x in readers && ReadersWeight(readers) == ReaderWeight(readers[x]) + ReadersWeight(readers - {x});
    if x != id {
      assert |readers - {x}| < |readers| && |readers - {id}| < |readers| by {
        assert (readers - {x}).Keys == readers.Keys - {x} && (readers - {id}).Keys == readers.Keys - {id};
      }
      WeightWithout(readers - {x}, id);
      WeightWithout(readers - {id}, x);
      assert readers - {x} - {id} == readers - {id} - {x};
    }
  }

  lemma WeightUpdate(readers: map<nat, Reader>, id: nat, pc: Reader)
    requires id in readers
    ensures ReadersWeight(readers[id := pc]) == ReadersWeight(readers) - ReaderWeight(readers[id]) + ReaderWeight(pc)
  {
    WeightWithout(readers, id);
    WeightWithout(readers[id := pc], id);
    assert readers[id := pc] - {id} == readers - {id};
  }

  ghost function Measure(cfg: P.Config, s: State): nat
    requires P.Sized(cfg, s.pool)
  {
    P.PoolMeasure(cfg, s.pool) + |s.pool.ready| + ReadersWeight(s.readers)
    + 2 * (|s.waits| + |s.outside|) + |Targets(s) - s.closed|
  }

  lemma PoolPart(cfg: P.Config, p: P.State, a: P.Label)
    requires P.Shape(cfg, p) && P.Enabled(cfg, p, a) && (P.IsForward(a) || a.BeginDirect? || a.Submit?)
    ensures var q := P.Step(cfg, p, a);
            && P.Sized(cfg, q)
            && P.PoolMeasure(cfg, q) + |q.ready|
               <= P.PoolMeasure(cfg, p) + |p.ready| + if a.Submit? then 7 else -1
  {
    P.StepKeepsShape(cfg, p, a);
    if a.Submit? {
      P.SenderComes(p.senders, a.req.conn, if cfg.metrics then P.Trying(a.req) else P.Blocking(a.req));
    } else if P.IsForward(a) {
      P.ForwardStepDecreases(cfg, p, a);
      assert P.Step(cfg, p, a).ready == p.ready;
    }
  }

  lemma ReturnDecreases(cfg: P.Config, s: State, l: Label)
    requires Enabled(cfg, s, l) && (l.HandlerReturns? || l.OutsideReturns?)
    ensures var t := Step(cfg, s, l);
            && |t.waits| + |t.outside| < |s.waits| + |s.outside|
            && |Targets(t) - t.closed| <= |Targets(s) - s.closed|
  {
    var t := Step(cfg, s, l);
    if l.HandlerReturns? {
      assert t.waits.Keys == s.waits.Keys - {l.w};
      assert forall w :: w in t.waits ==> t.waits[w] == s.waits[w] && s.waits[w] in s.waits.Values;
    }
    SubsetSize(Targets(t) - t.closed, Targets(s) - s.closed);
  }

  lemma CloseDecreases(cfg: P.Config, s: State, id: nat)
    requires Enabled(cfg, s, Close(id))
    ensures |Targets(s) - (s.closed + {id})| < |Targets(s) - s.closed|
  {
    assert Targets(s) - (s.closed + {id}) == (Targets(s) - s.closed) - {id};
  }

  lemma HandOverDecreases(cfg: P.Config, s: State, l: Label)
    requires Inv(cfg, s) && l.HandOver? && Enabled(cfg, s, l)
    ensures P.Sized(cfg, Step(cfg, s, l).pool) && Measure(cfg, Step(cfg, s, l)) < Measure(cfg, s)
  {
    PoolPart(cfg, s.pool, P.Submit(l.req));
    WeightUpdate(s.readers, l.id, Dispatching(s.readers[l.id].left - 1));
    assert Targets(Step(cfg, s, l)) == Targets(s);
  }

  lemma WeightDrops(readers: map<nat, Reader>, id: nat, pc: Reader)
    requires id in readers && ReaderWeight(pc) < ReaderWeight(readers[id])
    ensures ReadersWeight(readers[id := pc]) < ReadersWeight(readers)
  {
    WeightUpdate(readers, id, pc);
  }

  lemma ReaderStepDecreases(cfg: P.Config, s: State, l: Label)
    requires Inv(cfg, s) && (l.ReadOn? || l.Leave?) && Enabled(cfg, s, l)
    ensures P.Sized(cfg, Step(cfg, s, l).pool) && Measure(cfg, Step(cfg, s, l)) < Measure(cfg, s)
  {
    var t := Step(cfg, s, l);
    WeightDrops(s.readers, l.id, t.readers[l.id]);
    assert t.readers == s.readers[l.id := t.readers[l.id]];
    assert t.pool == s.pool && t.waits == s.waits && t.outside == s.outside && t.closed == s.closed;
  }

  lemma StopperStepDecreases(cfg: P.Config, s: State, l: Label)
    requires Inv(cfg, s) && (l.HandlerReturns? || l.OutsideReturns? || l.Close?) && Enabled(cfg, s, l)
    ensures P.Sized(cfg, Step(cfg, s, l).pool) && Measure(cfg, Step(cfg, s, l)) < Measure(cfg, s)
  {
    var t := Step(cfg, s, l);
    assert t.pool == s.pool && t.readers == s.readers;
    if l.Close? {
      CloseDecreases(cfg, s, l.id);
      assert Targets(t) == Targets(s);
    } else {
      ReturnDecreases(cfg, s, l);
    }
  }

  lemma ForwardDecreases(cfg: P.Config, s: State, l: Label)
    requires Inv(cfg, s) && l.Forward? && Enabled(cfg, s, l)
    ensures P.Sized(cfg, Step(cfg, s, l).pool) && Measure(cfg, Step(cfg, s, l)) < Measure(cfg, s)
  {
    PoolPart(cfg, s.pool, l.a);
    assert Targets(Step(cfg, s, l)) == Targets(s);
  }

  lemma InternalStepDecreases(cfg: P.Config, s: State, l: Label)
    requires Inv(cfg, s) && Internal(l) && Enabled(cfg, s, l)
    ensures P.Sized(cfg, Step(cfg, s, l).pool) && Measure(cfg, Step(cfg, s, l)) < Measure(cfg, s)
  {
    if l.HandOver? {
      HandOverDecreases(cfg, s, l);
    } else if l.ReadOn? || l.Leave? {
      ReaderStepDecreases(cfg, s, l);
    } else if l.Forward? {
      ForwardDecreases(cfg, s, l);
    } else {
      StopperStepDecreases(cfg, s, l);
    }
  }

  /**
   Exactly which calls of Stop return, whoever stops whom: left to themselves the goroutines
   come to rest after at most `Measure` steps, and then the connections that somebody still
   waits for form a knot, so that (`KnotIsForEver`) no such call ever returns.
   */
  lemma {:induction false} StopsReturnUnlessKnotted(cfg: P.Config, s: State, run: seq<Label>)
    requires Inv(cfg, s) && After(cfg, s, run).Some?
    requires forall i :: 0 <= i < |run| ==> Internal(run[i])
    ensures |run| <= Measure(cfg, s)
    ensures var t := After(cfg, s, run).value; AtRest(cfg, t) ==> IsKnot(cfg, t, Targets(t))
    decreases |run|
  {
    if run == [] {
      if AtRest(cfg, s) {
        forall c | c in Targets(s) ensures Caught(cfg, s, c, Targets(s)) {
          TargetIsCaught(cfg, s, c);
        }
      }
    } else {
      StepKeepsInv(cfg, s, run[0]);
      InternalStepDecreases(cfg, s, run[0]);
      StopsReturnUnlessKnotted(cfg, Step(cfg, s, run[0]), run[1..]);
    }
  }

  lemma BeginInv(cfg: P.Config, pool: P.State)
    requires P.Inv(cfg, pool) && pool.senders == map[]
    ensures Inv(cfg, Begin(pool))
  {
  }

  /**
   Two connections are enough: when both readers wait for full queues, and the handlers on
   their two workers each call Stop on the other's connection, all four wait for ever.
   */
  lemma TwoKnotEachOther(cfg: P.Config, s: State, a: nat, b: nat)
    requires Inv(cfg, s) && cfg.size > 0 && a in s.pool.senders && b in s.pool.senders && s.pool.ctx
    requires P.Shard(cfg, a) != P.Shard(cfg, b)
    requires forall c :: c in {a, b} ==>
               var w := P.Shard(cfg, c);
               !P.HasRoom(cfg, s.pool, w) && P.Held(s.pool.workers[w]) != [] && w !in s.waits
    ensures var l, m := HandlerStops(P.Shard(cfg, a), b), HandlerStops(P.Shard(cfg, b), a);
            && Enabled(cfg, s, l) && Enabled(cfg, Step(cfg, s, l), m)
            && IsKnot(cfg, Step(cfg, Step(cfg, s, l), m), {a, b})
  {
    assert a in {a, b} && b in {a, b};
  }

  // ------------------------------------------------------------------- a witness

  /** The lane of `c` is the only thing of the pool that may differ, and its reader the only reader. */
  predicate SameElsewhere(cfg: P.Config, s: State, t: State, c: nat)
    requires cfg.size > 0
  {
    var p, q, w := s.pool, t.pool, P.Shard(cfg, c);
    && q.ctx == p.ctx && q.active == p.active && |q.workers| == |p.workers| && |q.queues| == |p.queues|
    && (forall v :: 0 <= v < |p.workers| && v != w ==> q.workers[v] == p.workers[v])
    && (forall v :: 0 <= v < |p.queues| && v != w ==> q.queues[v] == p.queues[v])
    && (forall d :: d in p.senders && d != c ==> d in q.senders)
    && (forall d :: d in t.readers ==> d in s.readers || d == c)
    && t.waits == s.waits && t.closed == s.closed
  }

  lemma SameElsewhereTransitive(cfg: P.Config, s: State, t: State, u: State, c: nat)
    requires cfg.size > 0 && SameElsewhere(cfg, s, t, c) && SameElsewhere(cfg, t, u, c)
    ensures SameElsewhere(cfg, s, u, c)
  {
  }

  /** One more step of the lane of `c`. */
  lemma Extend(cfg: P.Config, s: State, run: seq<Label>, t: State, l: Label, c: nat) returns (longer: seq<Label>)
    requires cfg.size > 0 && After(cfg, s, run) == Some(t) && Inv(cfg, t) && Enabled(cfg, t, l)
    requires SameElsewhere(cfg, s, t, c) && SameElsewhere(cfg, t, Step(cfg, t, l), c)
    ensures After(cfg, s, longer) == Some(Step(cfg, t, l)) && Inv(cfg, Step(cfg, t, l))
    ensures SameElsewhere(cfg, s, Step(cfg, t, l), c)
  {
    RunSnoc(Machine(cfg), s, run, t, l);
    StepKeepsInv(cfg, t, l);
    SameElsewhereTransitive(cfg, s, t, Step(cfg, t, l), c);
    longer := run + [l];
  }

  function Toy(c: nat): P.Req { P.Req(c, Codec.NewMessage(0, []), 0) }

  /** A running pool in which the reader of `c` holds `left` messages. */
  ghost predicate Holding(cfg: P.Config, s: State, c: nat, left: nat) {
    Inv(cfg, s) && cfg.size > 0 && s.pool.ctx && s.pool.active && Is(s, c, Dispatching(left))
  }

  /** The reader submits its next message. */
  lemma Submits(cfg: P.Config, s: State, run: seq<Label>, t: State, c: nat, left: nat)
    returns (longer: seq<Label>, u: State)
    requires cfg.size > 0 && After(cfg, s, run) == Some(t) && SameElsewhere(cfg, s, t, c)
    requires Holding(cfg, t, c, left + 1) && c !in t.pool.senders
    ensures After(cfg, s, longer) == Some(u) && SameElsewhere(cfg, s, u, c)
    ensures Holding(cfg, u, c, left) && c in u.pool.senders
    ensures u.pool.queues == t.pool.queues && u.pool.workers == t.pool.workers
  {
    var l := HandOver(c, Toy(c));
    longer := Extend(cfg, s, run, t, l, c);
    u := Step(cfg, t, l);
  }

  lemma ForwardInLane(cfg: P.Config, s: State, c: nat, a: P.Label)
    requires Inv(cfg, s) && cfg.size > 0 && s.pool.ctx && P.Enabled(cfg, s.pool, a)
    requires a == P.Enqueue(c) || a == P.Handoff(c)
    ensures Enabled(cfg, s, Forward(a)) && SameElsewhere(cfg, s, Step(cfg, s, Forward(a)), c)
    ensures c !in Step(cfg, s, Forward(a)).pool.senders
  {
  }

  /** The reader's request goes into the queue, or straight to the worker. */
  lemma IsAccepted(cfg: P.Config, s: State, run: seq<Label>, t: State, c: nat, left: nat, a: P.Label)
    returns (longer: seq<Label>, u: State)
    requires cfg.size > 0 && After(cfg, s, run) == Some(t) && SameElsewhere(cfg, s, t, c)
    requires Holding(cfg, t, c, left) && P.Enabled(cfg, t.pool, a) && (a == P.Enqueue(c) || a == P.Handoff(c))
    ensures After(cfg, s, longer) == Some(u) && SameElsewhere(cfg, s, u, c)
    ensures Holding(cfg, u, c, left) && c !in u.pool.senders && u.pool == P.Step(cfg, t.pool, a)
  {
    ForwardInLane(cfg, t, c, a);
    longer := Extend(cfg, s, run, t, Forward(a), c);
    u := Step(cfg, t, Forward(a));
  }

  /** The reader waits for a full queue whose worker is running a handler. */
  predicate Jammed(cfg: P.Config, s: State, c: nat)
    requires cfg.size > 0
  {
    var w := P.Shard(cfg, c);
    && c in s.pool.senders && w < |s.pool.workers| && w < |s.pool.queues|
    && !P.HasRoom(cfg, s.pool, w) && P.Held(s.pool.workers[w]) != []
  }

  /** With its worker busy, the reader fills the queue and then waits. */
  lemma {:induction false} FillsUp(cfg: P.Config, s: State, run: seq<Label>, t: State, c: nat, left: nat)
    returns (longer: seq<Label>, u: State)
    requires cfg.size > 0 && After(cfg, s, run) == Some(t) && SameElsewhere(cfg, s, t, c)
    requires Holding(cfg, t, c, left) && c !in t.pool.senders && P.Held(t.pool.workers[P.Shard(cfg, c)]) != []
    requires left + |t.pool.queues[P.Shard(cfg, c)]| > cfg.cap
    ensures After(cfg, s, longer) == Some(u) && SameElsewhere(cfg, s, u, c)
    ensures Inv(cfg, u) && Jammed(cfg, u, c)
    decreases left
  {
    var w := P.Shard(cfg, c);
    assert P.WorkerOk(cfg, t.pool, w);
    longer, u := Submits(cfg, s, run, t, c, left - 1);
    if P.HasRoom(cfg, u.pool, w) {
      longer, u := IsAccepted(cfg, s, longer, u, c, left - 1, P.Enqueue(c));
      longer, u := FillsUp(cfg, s, longer, u, c, left - 1);
    }
  }

  lemma ReadsMany(cfg: P.Config, s: State, c: nat, n: nat) returns (run: seq<Label>, t: State)
    requires Inv(cfg, s) && cfg.size > 0 && s.pool.ctx && s.pool.active && c !in s.readers && c !in s.closed
    ensures After(cfg, s, run) == Some(t) && SameElsewhere(cfg, s, t, c) && Holding(cfg, t, c, n) && t.pool == s.pool
  {
    run := Extend(cfg, s, [], s, Connect(c), c);
    t := Step(cfg, s, Connect(c));
    run := Extend(cfg, s, run, t, Launch(c), c);
    t := Step(cfg, t, Launch(c));
    run := Extend(cfg, s, run, t, Receive(c, n), c);
    t := Step(cfg, t, Receive(c, n));
  }

  /** A connection on an idle worker gets its reader jammed behind one of its own handlers. */
  lemma GetsJammed(cfg: P.Config, s: State, c: nat) returns (run: seq<Label>, t: State)
    requires Inv(cfg, s) && cfg.size > 0 && s.pool.ctx && s.pool.active && c !in s.readers && c !in s.closed
    requires s.pool.workers[P.Shard(cfg, c)] == P.Selecting && s.pool.queues[P.Shard(cfg, c)] == []
    ensures After(cfg, s, run) == Some(t) && Inv(cfg, t) && SameElsewhere(cfg, s, t, c) && Jammed(cfg, t, c)
  {
    run, t := ReadsMany(cfg, s, c, cfg.cap + 2);
    assert c !in t.pool.senders;
    run, t := Submits(cfg, s, run, t, c, cfg.cap + 1);
    run, t := IsAccepted(cfg, s, run, t, c, cfg.cap + 1, P.Handoff(c));
    run, t := FillsUp(cfg, s, run, t, c, cfg.cap + 1);
  }

  lemma JammedStays(cfg: P.Config, s: State, t: State, a: nat, b: nat)
    requires cfg.size > 0 && Jammed(cfg, s, a) && SameElsewhere(cfg, s, t, b) && a != b
    requires P.Shard(cfg, a) != P.Shard(cfg, b)
    ensures Jammed(cfg, t, a)
  {
  }

  /** A server with a started pool and no connection. */
  function Started(cfg: P.Config): State
    requires cfg.size > 0
  {
    Begin(P.Step(cfg, P.INIT, P.Start))
  }

  lemma StartedIsIdle(cfg: P.Config)
    requires cfg.size > 0
    ensures var s := Started(cfg);
            && Inv(cfg, s) && s.pool.ctx && s.pool.active && s.readers == map[] && s.closed == {} && s.waits == map[]
            && |s.pool.workers| == cfg.size && |s.pool.queues| == cfg.size
            && forall w :: 0 <= w < cfg.size ==> s.pool.workers[w] == P.Selecting && s.pool.queues[w] == []
  {
    P.InitInv(cfg);
    P.StepKeepsInv(cfg, P.INIT, P.Start);
    BeginInv(cfg, Started(cfg).pool);
  }

  lemma BothGetJammed(cfg: P.Config, s: State, a: nat, b: nat) returns (first: seq<Label>, second: seq<Label>, t: State)
    requires cfg.size > 0 && P.Shard(cfg, a) != P.Shard(cfg, b) && s == Started(cfg)
    ensures After(cfg, s, first).Some? && After(cfg, After(cfg, s, first).value, second) == Some(t)
    ensures Inv(cfg, t) && t.pool.ctx && t.waits == map[] && Jammed(cfg, t, a) && Jammed(cfg, t, b)
  {
    StartedIsIdle(cfg);
    var u;
    first, u := GetsJammed(cfg, s, a);
    second, t := GetsJammed(cfg, u, b);
    JammedStays(cfg, u, t, a, b);
  }

  /** Such a knot is reached, for every pool and any two connections on different workers. */
  lemma MutualStopsCanKnot(cfg: P.Config, a: nat, b: nat) returns (first: seq<Label>, second: seq<Label>, t: State)
    requires cfg.size > 0 && P.Shard(cfg, a) != P.Shard(cfg, b)
    ensures After(cfg, Started(cfg), first).Some?
    ensures After(cfg, After(cfg, Started(cfg), first).value, second) == Some(t)
    ensures var l, m := HandlerStops(P.Shard(cfg, a), b), HandlerStops(P.Shard(cfg, b), a);
            && Enabled(cfg, t, l) && Enabled(cfg, Step(cfg, t, l), m)
            && IsKnot(cfg, Step(cfg, Step(cfg, t, l), m), {a, b})
  {
    first, second, t := BothGetJammed(cfg, Started(cfg), a, b);
    TwoKnotEachOther(cfg, t, a, b);
  }
}
