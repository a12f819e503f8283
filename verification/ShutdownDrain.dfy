/**
 Shutdown together with readers and the worker pool (knet/server.go:168-200). ClearConn
 waits for the readers of the connections it finds registered; then StopWorkerPool
 deactivates and cancels the pool. A connection that is not registered at that moment, but
 whose reader can still dispatch, is not waited for: its writer has failed, its Stop is
 still waiting elsewhere, or it is only being added. The main theorem says exactly when
 everything dispatched is executed.
 */
module ShutdownDrain {
  import opened Common
  import Codec
  import P = WorkerPool
  import L = Lifecycle

  datatype Reader = Unlaunched | Reading | Dispatching | Gone

  datatype Phase =
    | Serving
    | Clearing(snapshot: set<nat>)   // ClearConn waits for these
    | StoppingPool                   // ClearConn has returned, StopWorkerPool is under way
    | ReturnedNil                    // StopWorkerPool has returned, and Shutdown with it

  datatype State = State(
    pool: P.State,
    readers: map<nat, Reader>,       // of every connection ever added
    closed: set<nat>,                // stop body has closed the socket
    returned: set<nat>,              // a Stop has returned
    registered: set<nat>,
    incoming: set<nat>,              // accepted and not yet added
    listening: bool,
    phase: Phase,
    deadline: bool)                  // the context given to Shutdown can expire

  datatype Label =
    | Accept(id: nat) | Add(id: nat) | Reject(id: nat) | CloseListener
    | Launch(id: nat) | Receive(id: nat) | Submit(req: P.Req) | ReadOn(id: nat) | Leave(id: nat)
    | Close(id: nat) | StopReturns(id: nat) | Remove(id: nat) | OtherClear
    | Pool(a: P.Label)
    | Snapshot | Drained | StopPool(a: P.Label) | WorkersDone | Expires

  /** A server with a started pool, before its first connection. */
  function Begin(pool: P.State, deadline: bool): State {
    State(pool, map[], {}, {}, {}, {}, true, Serving, deadline)
  }

  predicate Is(s: State, id: nat, pc: Reader) { id in s.readers && s.readers[id] == pc }

  /** What Connection.Stop waits for: the stop body, and the reader if it was launched. */
  predicate IsOver(s: State, id: nat) {
    id in s.closed && (Is(s, id, Gone) || Is(s, id, Unlaunched))
  }

  predicate Enabled(cfg: P.Config, s: State, l: Label) {
    match l
    case Accept(id) => s.listening && id !in s.readers && id !in s.incoming
    case Add(id) => id in s.incoming
    case Reject(id) => id in s.incoming
    case CloseListener => s.listening
    case Launch(id) => Is(s, id, Unlaunched)
    case Receive(id) => Is(s, id, Reading) && id !in s.closed
    case Submit(r) => Is(s, r.conn, Dispatching) && P.Enabled(cfg, s.pool, P.Submit(r))
    case ReadOn(id) => Is(s, id, Dispatching) && id !in s.pool.senders
    case Leave(id) => Is(s, id, Reading)
    case Close(id) => id in s.readers && id !in s.closed
    case StopReturns(id) => IsOver(s, id)
    case Remove(id) => id in s.closed
    case OtherClear => true
    case Pool(a) => P.Enabled(cfg, s.pool, a) && (P.IsForward(a) || a.BeginDirect?)
    case Snapshot => s.phase == Serving
    case Drained => s.phase.Clearing? && s.phase.snapshot <= s.returned
    case StopPool(a) => s.phase == StoppingPool && P.Enabled(cfg, s.pool, a) && (a.Deactivate? || a.Cancel?)
    case WorkersDone => s.phase == StoppingPool && s.pool.cancelled && P.AllExited(s.pool)
    case Expires => s.phase == StoppingPool && s.pool.cancelled && s.deadline
  }

  function ReadersAfter(s: State, l: Label): map<nat, Reader> {
    match l
    case Add(id) => s.readers[id := Unlaunched]
    case Launch(id) => s.readers[id := Reading]
    case Receive(id) => s.readers[id := Dispatching]
    case ReadOn(id) => s.readers[id := Reading]
    case Leave(id) => s.readers[id := Gone]
    case _ => s.readers
  }

  function OnPool(l: Label): Option<P.Label> {
    match l
    case Submit(r) => Some(P.Submit(r))
    case Pool(a) => Some(a)
    case StopPool(a) => Some(a)
    case _ => None
  }

  function Step(cfg: P.Config, s: State, l: Label): State
    requires Enabled(cfg, s, l)
  {
    var a := OnPool(l);
    State(if a.Some? then P.Step(cfg, s.pool, a.value) else s.pool,
          ReadersAfter(s, l),
          if l.Close? then s.closed + {l.id} else s.closed,
          if l.StopReturns? then s.returned + {l.id} else s.returned,
          if l.Add? then s.registered + {l.id}
          else if l.Remove? then s.registered - {l.id}
          else if l.OtherClear? || l.Snapshot? then {} else s.registered,
          if l.Accept? then s.incoming + {l.id}
          else if l.Add? || l.Reject? then s.incoming - {l.id} else s.incoming,
          s.listening && !l.CloseListener?,
          if l.Snapshot? then Clearing(s.registered)
          else if l.Drained? then StoppingPool
          else if l.WorkersDone? || l.Expires? then ReturnedNil else s.phase,
          s.deadline)
  }

  function Machine(cfg: P.Config): (State, Label) -> Option<State> {
    (s, l) => if Enabled(cfg, s, l) then Some(Step(cfg, s, l)) else None
  }

  function After(cfg: P.Config, s: State, run: seq<Label>): Option<State> { Run(Machine(cfg), s, run) }

  // ---------------------------------------------------------------- invariant

  predicate Known(s: State) {
    && s.incoming !! s.readers.Keys && s.registered <= s.readers.Keys
    && (s.phase.Clearing? ==> s.phase.snapshot <= s.readers.Keys)
  }

  /** A connection whose Stop has returned is closed and has nothing in its hands. */
  predicate ReturnedOk(s: State) {
    forall id :: id in s.returned ==> id in s.closed && !Is(s, id, Dispatching)
  }

  predicate SendersDispatch(s: State) {
    forall c :: c in s.pool.senders ==> Is(s, c, Dispatching)
  }

  ghost predicate Inv(cfg: P.Config, s: State) {
    && P.Inv(cfg, s.pool) && s.pool.ctx && Known(s) && SendersDispatch(s) && ReturnedOk(s)
    && (s.phase.Serving? || s.phase.Clearing? ==> s.pool.active)
  }

  lemma PoolStepSenders(cfg: P.Config, p: P.State, a: P.Label)
    requires P.Enabled(cfg, p, a) && p.ctx
    ensures var q := P.Step(cfg, p, a);
            && q.ctx && (a.Deactivate? || q.active == p.active)
            && forall c :: c in q.senders ==> c in p.senders || (a.Submit? && a.req.conn == c)
  {
  }

  lemma StepKeepsKnown(cfg: P.Config, s: State, l: Label)
    requires Known(s) && Enabled(cfg, s, l)
    ensures Known(Step(cfg, s, l))
  {
    var t := Step(cfg, s, l);
    assert t.readers.Keys == if l.Add? then s.readers.Keys + {l.id} else s.readers.Keys;
  }

  lemma StepKeepsSenders(cfg: P.Config, s: State, l: Label)
    requires SendersDispatch(s) && Known(s) && s.pool.ctx && Enabled(cfg, s, l)
    ensures SendersDispatch(Step(cfg, s, l))
  {
    var t, a := Step(cfg, s, l), OnPool(l);
    if a.Some? {
      PoolStepSenders(cfg, s.pool, a.value);
      assert t.readers == s.readers;
    } else {
      assert t.pool == s.pool;
    }
  }

  lemma StepKeepsReturned(cfg: P.Config, s: State, l: Label)
    requires ReturnedOk(s) && Enabled(cfg, s, l)
    ensures ReturnedOk(Step(cfg, s, l))
  {
    var t := Step(cfg, s, l);
    forall id | id in t.returned ensures id in t.closed && !Is(t, id, Dispatching) {
      assert id in s.returned || l == StopReturns(id);
    }
  }

  lemma StepKeepsInv(cfg: P.Config, s: State, l: Label)
    requires Inv(cfg, s) && Enabled(cfg, s, l)
    ensures Inv(cfg, Step(cfg, s, l))
  {
    StepKeepsKnown(cfg, s, l);
    StepKeepsSenders(cfg, s, l);
    StepKeepsReturned(cfg, s, l);
    var a := OnPool(l);
    if a.Some? {
      P.StepKeepsInv(cfg, s.pool, a.value);
      PoolStepSenders(cfg, s.pool, a.value);
    }
  }

  lemma {:induction false} RunKeepsInv(cfg: P.Config, s: State, run: seq<Label>)
    requires Inv(cfg, s) && After(cfg, s, run).Some?
    ensures Inv(cfg, After(cfg, s, run).value)
    decreases |run|
  {
    if run != [] {
      StepKeepsInv(cfg, s, run[0]);
      RunKeepsInv(cfg, Step(cfg, s, run[0]), run[1..]);
    }
  }

  // --------------------------------------------------------------- what is waited for

  /** The connection can still dispatch something. */
  predicate CanDispatch(s: State, id: nat) {
    Is(s, id, Dispatching) || (id !in s.closed && (Is(s, id, Unlaunched) || Is(s, id, Reading)))
  }

  /** Nothing is accepted or added any more. */
  predicate Shut(s: State) { !s.listening && s.incoming == {} }

  /** ClearConn waits for everybody who can still dispatch. */
  predicate Contained(s: State)
    requires s.phase.Clearing?
  {
    Shut(s) && forall id :: id in s.readers && CanDispatch(s, id) ==> id in s.phase.snapshot
  }

  /**
   However the shutdown goes on: once all workers are gone, everything dispatched since was
   submitted to the pool, and everything submitted has been executed.
   */
  ghost predicate ExecutesAll(cfg: P.Config, s: State) {
    forall run :: After(cfg, s, run).Some? && P.AllExited(After(cfg, s, run).value.pool) ==>
      P.AllSettled(After(cfg, s, run).value.pool) && After(cfg, s, run).value.pool.direct == s.pool.direct
  }

  // ------------------------------------------------------------ enough: nobody is missed

  /** Nobody can dispatch any more, and nothing dispatched was late. */
  ghost predicate Silent(cfg: P.Config, s: State) {
    && Inv(cfg, s) && (s.phase == StoppingPool || s.phase == ReturnedNil) && Shut(s)
    && (forall id :: id in s.readers ==> !CanDispatch(s, id))
    && s.pool.senders == map[] && s.pool.late == []
  }

  lemma SilentStep(cfg: P.Config, s: State, l: Label)
    requires Silent(cfg, s) && Enabled(cfg, s, l)
    ensures Silent(cfg, Step(cfg, s, l)) && Step(cfg, s, l).pool.direct == s.pool.direct
  {
    StepKeepsInv(cfg, s, l);
    assert !l.Submit? && !l.Receive? && !l.Add?;
    var t := Step(cfg, s, l);
    forall id | id in t.readers ensures !CanDispatch(t, id) {
      assert !CanDispatch(s, id);
    }
  }

  lemma ContainedStep(cfg: P.Config, s: State, l: Label)
    requires Inv(cfg, s) && s.phase.Clearing? && Contained(s) && Enabled(cfg, s, l) && l != Drained
    ensures Step(cfg, s, l).phase == s.phase && Contained(Step(cfg, s, l))
    ensures Step(cfg, s, l).pool.direct == s.pool.direct
  {
    var t := Step(cfg, s, l);
    assert !l.Add? && !l.Accept?;
    forall id | id in t.readers && CanDispatch(t, id) ensures id in s.phase.snapshot {
      assert CanDispatch(s, id);
    }
  }

  lemma DrainedIsSilent(cfg: P.Config, s: State)
    requires Inv(cfg, s) && s.phase.Clearing? && Contained(s) && Enabled(cfg, s, Drained)
    ensures Silent(cfg, Step(cfg, s, Drained)) && Step(cfg, s, Drained).pool == s.pool
  {
    StepKeepsInv(cfg, s, Drained);
    P.NothingLateBeforeCancel(cfg, s.pool);
    forall id | id in s.readers ensures !CanDispatch(s, id) {
      assert id in s.phase.snapshot ==> id in s.returned;
    }
    forall c | c in s.pool.senders ensures false {
      assert CanDispatch(s, c);
    }
    assert s.pool.senders == map[];
  }

  lemma {:induction false} SilentRun(cfg: P.Config, s: State, run: seq<Label>)
    requires Silent(cfg, s) && After(cfg, s, run).Some? && P.AllExited(After(cfg, s, run).value.pool)
    ensures P.AllSettled(After(cfg, s, run).value.pool) && After(cfg, s, run).value.pool.direct == s.pool.direct
    decreases |run|
  {
    if run == [] {
      P.StrandedIff(cfg, s.pool);
    } else {
      SilentStep(cfg, s, run[0]);
      SilentRun(cfg, Step(cfg, s, run[0]), run[1..]);
    }
  }

  lemma {:induction false} ContainedRun(cfg: P.Config, s: State, run: seq<Label>)
    requires cfg.size > 0 && Inv(cfg, s) && s.phase.Clearing? && Contained(s)
    requires After(cfg, s, run).Some? && P.AllExited(After(cfg, s, run).value.pool)
    ensures P.AllSettled(After(cfg, s, run).value.pool) && After(cfg, s, run).value.pool.direct == s.pool.direct
    decreases |run|
  {
    if run == [] {
      P.ExitedIsInactive(cfg, s.pool);
    } else if run[0] == Drained {
      DrainedIsSilent(cfg, s);
      SilentRun(cfg, Step(cfg, s, Drained), run[1..]);
    } else {
      StepKeepsInv(cfg, s, run[0]);
      ContainedStep(cfg, s, run[0]);
      ContainedRun(cfg, Step(cfg, s, run[0]), run[1..]);
    }
  }

  // -------------------------------------------- necessary: whoever is missed can lose

  /** Connection `c` is not waited for and has tested "active". */
  ghost predicate Missed(cfg: P.Config, s: State, c: nat) {
    Inv(cfg, s) && cfg.size > 0 && s.phase.Clearing? && c in s.pool.senders && c !in s.phase.snapshot
  }

  /** The step that brings a snapshot connection closer to being stopped. */
  lemma NextOfStopping(cfg: P.Config, s: State, c: nat, id: nat) returns (l: Label)
    requires Missed(cfg, s, c) && id in s.phase.snapshot && id !in s.returned
    ensures Enabled(cfg, s, l)
    ensures || (l == Close(id)) || (l == Leave(id) && id in s.closed) || (l == ReadOn(id) && id in s.closed)
            || (l == StopReturns(id) && id in s.closed)
            || (l.Pool? && id in s.closed && id in s.pool.senders && P.IsForward(l.a)
                && !(l.a.Enqueue? && l.a.conn != id) && !(l.a.Handoff? && l.a.conn != id)
                && !l.a.TryFail? && !l.a.Park?)
  {
    if id !in s.closed {
      l := Close(id);
    } else if IsOver(s, id) {
      l := StopReturns(id);
    } else if Is(s, id, Reading) {
      l := Leave(id);
    } else if id !in s.pool.senders {
      l := ReadOn(id);
    } else {
      var w := P.Shard(cfg, id);
      assert P.WorkerOk(cfg, s.pool, w);
      P.SenderMakesProgress(cfg, s.pool, id);
      l := if P.Enabled(cfg, s.pool, P.Enqueue(id)) then Pool(P.Enqueue(id))
           else if P.Enabled(cfg, s.pool, P.Handoff(id)) then Pool(P.Handoff(id))
           else if P.Enabled(cfg, s.pool, P.Take(w)) then Pool(P.Take(w)) else Pool(P.Finish(w));
    }
  }

  function ReaderRank(s: State, id: nat): nat {
    if Is(s, id, Dispatching) then 2 else if Is(s, id, Reading) then 1 else 0
  }

  function SenderRank(cfg: P.Config, s: State, id: nat): nat
    requires P.Sized(cfg, s.pool)
  {
    if id in s.pool.senders then P.PoolMeasure(cfg, s.pool) else 0
  }

  lemma StoppingStep(cfg: P.Config, s: State, c: nat, id: nat, l: Label)
    requires Missed(cfg, s, c) && id in s.phase.snapshot && Enabled(cfg, s, l)
    requires || l == Close(id) || l == Leave(id) || l == ReadOn(id) || l == StopReturns(id)
             || (l.Pool? && P.IsForward(l.a) && !(l.a.Enqueue? && l.a.conn != id) && !(l.a.Handoff? && l.a.conn != id)
                 && !l.a.TryFail? && !l.a.Park?)
    ensures var t := Step(cfg, s, l);
            Missed(cfg, t, c) && t.phase == s.phase && s.returned <= t.returned
  {
    StepKeepsInv(cfg, s, l);
    if l.Pool? {
      assert c in P.Step(cfg, s.pool, l.a).senders;
    }
  }

  /** Everybody else can be held up while one connection of the snapshot is stopped. */
  lemma {:induction false} StopOne(cfg: P.Config, s: State, c: nat, id: nat) returns (run: seq<Label>, t: State)
    requires Missed(cfg, s, c) && id in s.phase.snapshot
    ensures After(cfg, s, run) == Some(t) && Missed(cfg, t, c) && t.phase == s.phase
    ensures id in t.returned && s.returned <= t.returned
    decreases if id in s.returned then 0 else 1, if id in s.closed then 0 else 1,
              SenderRank(cfg, s, id), ReaderRank(s, id)
  {
    run, t := [], s;
    if id !in s.returned {
      var l := NextOfStopping(cfg, s, c, id);
      StoppingStep(cfg, s, c, id, l);
      var u := Step(cfg, s, l);
      if l.Pool? {
        P.ForwardStepDecreases(cfg, s.pool, l.a);
      }
      var rest;
      rest, t := StopOne(cfg, u, c, id);
      RunCons(Machine(cfg), s, l, rest);
      run := [l] + rest;
    }
  }

  /** Those of the snapshot whose Stop has not returned. */
  function Pending(s: State): set<nat>
    requires s.phase.Clearing?
  {
    s.phase.snapshot - s.returned
  }

  lemma PendingShrinks(s: State, t: State, id: nat)
    requires s.phase.Clearing? && t.phase == s.phase
    requires id in Pending(s) && id in t.returned && s.returned <= t.returned
    ensures |Pending(t)| < |Pending(s)|
  {
    assert Pending(t) <= Pending(s) - {id};
    SubsetSize(Pending(t), Pending(s) - {id});
  }

  lemma {:induction false} StopAll(cfg: P.Config, s: State, c: nat) returns (run: seq<Label>, t: State)
    requires Missed(cfg, s, c)
    ensures After(cfg, s, run) == Some(t) && Missed(cfg, t, c) && Enabled(cfg, t, Drained)
    decreases |Pending(s)|
  {
    run, t := [], s;
    if Pending(s) != {} {
      var id :| id in Pending(s);
      var one, u := StopOne(cfg, s, c, id);
      PendingShrinks(s, u, id);
      var rest;
      rest, t := StopAll(cfg, u, c);
      RunAppend(Machine(cfg), s, one, u, rest);
      run := one + rest;
    } else {
      assert forall id :: id in s.phase.snapshot && id !in s.returned ==> id in Pending(s);
    }
  }

  /** The pool is being stopped while `c` still holds its request. */
  ghost predicate TooLate(cfg: P.Config, s: State, c: nat) {
    Inv(cfg, s) && s.phase == StoppingPool && c in s.pool.senders
  }

  lemma {:induction false} WorkersLeave(cfg: P.Config, s: State, c: nat) returns (run: seq<Label>, t: State)
    requires TooLate(cfg, s, c) && s.pool.cancelled
    ensures After(cfg, s, run) == Some(t) && TooLate(cfg, t, c) && P.AllExited(t.pool)
    decreases P.Measure(s.pool.queues, s.pool.workers)
  {
    run, t := [], s;
    if !P.AllExited(s.pool) {
      var w :| 0 <= w < |s.pool.workers| && !s.pool.workers[w].Exited?;
      var a := P.NextOfWorker(s.pool, w);
      P.DrainMakesProgress(cfg, s.pool, w);
      P.WorkerStepKeepsSenders(cfg, s.pool, a);
      P.WorkerStepDecreases(cfg, s.pool, a);
      StepKeepsInv(cfg, s, Pool(a));
      var rest;
      rest, t := WorkersLeave(cfg, Step(cfg, s, Pool(a)), c);
      RunCons(Machine(cfg), s, Pool(a), rest);
      run := [Pool(a)] + rest;
    }
  }

  lemma PoolStops(cfg: P.Config, s: State, c: nat) returns (run: seq<Label>, t: State)
    requires Missed(cfg, s, c) && Enabled(cfg, s, Drained)
    ensures After(cfg, s, run) == Some(t) && TooLate(cfg, t, c) && P.AllExited(t.pool)
  {
    StepKeepsInv(cfg, s, Drained);
    var s1 := Step(cfg, s, Drained);
    StepKeepsInv(cfg, s1, StopPool(P.Deactivate));
    var s2 := Step(cfg, s1, StopPool(P.Deactivate));
    assert !s2.pool.cancelled;
    StepKeepsInv(cfg, s2, StopPool(P.Cancel));
    var s3 := Step(cfg, s2, StopPool(P.Cancel));
    run, t := WorkersLeave(cfg, s3, c);
    RunCons(Machine(cfg), s2, StopPool(P.Cancel), run);
    run := [StopPool(P.Cancel)] + run;
    RunCons(Machine(cfg), s1, StopPool(P.Deactivate), run);
    run := [StopPool(P.Deactivate)] + run;
    RunCons(Machine(cfg), s, Drained, run);
    run := [Drained] + run;
  }

  /** A run after which a request is missing. */
  ghost predicate Losing(cfg: P.Config, s: State, run: seq<Label>) {
    && After(cfg, s, run).Some? && P.AllExited(After(cfg, s, run).value.pool)
    && !P.AllSettled(After(cfg, s, run).value.pool)
  }

  lemma LoseLater(cfg: P.Config, s: State, l: Label, run: seq<Label>)
    requires Enabled(cfg, s, l) && Losing(cfg, Step(cfg, s, l), run)
    ensures Losing(cfg, s, [l] + run)
  {
    RunCons(Machine(cfg), s, l, run);
  }

  lemma MissedLoses(cfg: P.Config, s: State, c: nat) returns (run: seq<Label>)
    requires Missed(cfg, s, c)
    ensures Losing(cfg, s, run)
  {
    var clear, t := StopAll(cfg, s, c);
    var stop, u := PoolStops(cfg, t, c);
    RunAppend(Machine(cfg), s, clear, t, stop);
    run := clear + stop;
    P.HeldIsNotExecuted(cfg, u.pool, c);
  }

  /** A connection that is not waited for and can still dispatch. */
  ghost predicate Stray(cfg: P.Config, s: State, c: nat) {
    Inv(cfg, s) && cfg.size > 0 && s.phase.Clearing? && CanDispatch(s, c) && c !in s.phase.snapshot
  }

  function NextOfStray(s: State, c: nat): Label {
    if Is(s, c, Dispatching) then Submit(P.Req(c, Codec.NewMessage(0, []), 0))
    else if Is(s, c, Reading) then Receive(c) else Launch(c)
  }

  lemma StrayStep(cfg: P.Config, s: State, c: nat)
    requires Stray(cfg, s, c) && c !in s.pool.senders
    ensures var l := NextOfStray(s, c);
            && Enabled(cfg, s, l)
            && var t := Step(cfg, s, l);
            && Stray(cfg, t, c) && (c in t.pool.senders || ReaderRank(t, c) > ReaderRank(s, c))
  {
    StepKeepsInv(cfg, s, NextOfStray(s, c));
  }

  lemma {:induction false} StrayLoses(cfg: P.Config, s: State, c: nat) returns (run: seq<Label>)
    requires Stray(cfg, s, c)
    ensures Losing(cfg, s, run)
    decreases if c in s.pool.senders then 0 else 3 - ReaderRank(s, c)
  {
    if c in s.pool.senders {
      run := MissedLoses(cfg, s, c);
    } else {
      var l := NextOfStray(s, c);
      StrayStep(cfg, s, c);
      var rest := StrayLoses(cfg, Step(cfg, s, l), c);
      LoseLater(cfg, s, l, rest);
      run := [l] + rest;
    }
  }

  lemma IncomingLoses(cfg: P.Config, s: State, id: nat) returns (run: seq<Label>)
    requires Inv(cfg, s) && cfg.size > 0 && s.phase.Clearing? && id in s.incoming && id !in s.closed
    ensures Losing(cfg, s, run)
  {
    StepKeepsInv(cfg, s, Add(id));
    var rest := StrayLoses(cfg, Step(cfg, s, Add(id)), id);
    LoseLater(cfg, s, Add(id), rest);
    run := [Add(id)] + rest;
  }

  lemma {:induction false} Unused(ids: set<nat>) returns (n: nat)
    ensures forall i :: i in ids ==> i < n
    decreases |ids|
  {
    n := 0;
    if ids != {} {
      var x :| x in ids;
      n := Unused(ids - {x});
      if n <= x { n := x + 1; }
      assert ids == (ids - {x}) + {x};
    }
  }

  lemma ListeningLoses(cfg: P.Config, s: State) returns (run: seq<Label>)
    requires Inv(cfg, s) && cfg.size > 0 && s.phase.Clearing? && s.listening
    ensures Losing(cfg, s, run)
  {
    var id := Unused(s.readers.Keys + s.incoming + s.closed);
    StepKeepsInv(cfg, s, Accept(id));
    var rest := IncomingLoses(cfg, Step(cfg, s, Accept(id)), id);
    LoseLater(cfg, s, Accept(id), rest);
    run := [Accept(id)] + rest;
  }

  /**
   Exactly when a shutdown executes everything dispatched, at any moment while ClearConn is
   waiting (and so at its snapshot): every continuation that ends with all workers gone has
   executed every request dispatched if and only if the listener is closed, no accepted
   connection is still to be added, and everybody who can still dispatch is in the snapshot.
   */
  lemma ShutdownExecutesAllIff(cfg: P.Config, pool: P.State, deadline: bool, run: seq<Label>)
    requires cfg.size > 0 && P.Inv(cfg, pool) && pool.active && pool.ctx && pool.senders == map[]
    requires After(cfg, Begin(pool, deadline), run).Some?
    requires After(cfg, Begin(pool, deadline), run).value.phase.Clearing?
    ensures var s := After(cfg, Begin(pool, deadline), run).value;
            ExecutesAll(cfg, s) <==> Contained(s)
  {
    RunKeepsInv(cfg, Begin(pool, deadline), run);
    RunKeepsClosed(cfg, Begin(pool, deadline), run);
    var s := After(cfg, Begin(pool, deadline), run).value;
    if Contained(s) {
      forall later | After(cfg, s, later).Some? && P.AllExited(After(cfg, s, later).value.pool)
        ensures P.AllSettled(After(cfg, s, later).value.pool)
        ensures After(cfg, s, later).value.pool.direct == s.pool.direct
      {
        ContainedRun(cfg, s, later);
      }
    } else {
      var bad := NotContainedLoses(cfg, s);
      assert Losing(cfg, s, bad);
    }
  }

  /**
   The same at the moment Shutdown takes its snapshot, in terms of the registry: everything
   will be executed if and only if by then the listener is closed, nothing accepted is still
   to be added, and everybody who can still dispatch is registered.
   */
  lemma SnapshotDecides(cfg: P.Config, pool: P.State, deadline: bool, run: seq<Label>)
    requires cfg.size > 0 && P.Inv(cfg, pool) && pool.active && pool.ctx && pool.senders == map[]
    requires After(cfg, Begin(pool, deadline), run).Some?
    requires Enabled(cfg, After(cfg, Begin(pool, deadline), run).value, Snapshot)
    ensures var s := After(cfg, Begin(pool, deadline), run).value;
            ExecutesAll(cfg, Step(cfg, s, Snapshot))
            <==> Shut(s) && forall id :: id in s.readers && CanDispatch(s, id) ==> id in s.registered
  {
    var s := After(cfg, Begin(pool, deadline), run).value;
    RunSnoc(Machine(cfg), Begin(pool, deadline), run, s, Snapshot);
    ShutdownExecutesAllIff(cfg, pool, deadline, run + [Snapshot]);
    var t := Step(cfg, s, Snapshot);
    assert forall id :: CanDispatch(t, id) <==> CanDispatch(s, id);
  }

  /** Who is registered: whoever was added, until it is removed or a ClearConn takes everybody out. */
  lemma {:induction false} RegisteredUntilRemoved(cfg: P.Config, s: State, run: seq<Label>, id: nat)
    requires After(cfg, s, run).Some? && OtherClear !in run && Snapshot !in run && Remove(id) !in run
    ensures id in After(cfg, s, run).value.registered <==> id in s.registered || Add(id) in run
    decreases |run|
  {
    if run != [] {
      assert run == [run[0]] + run[1..];
      RegisteredUntilRemoved(cfg, Step(cfg, s, run[0]), run[1..], id);
    }
  }

  lemma NotContainedLoses(cfg: P.Config, s: State) returns (run: seq<Label>)
    requires Inv(cfg, s) && cfg.size > 0 && s.phase.Clearing? && !Contained(s) && s.closed <= s.readers.Keys
    ensures Losing(cfg, s, run)
  {
    if s.listening {
      run := ListeningLoses(cfg, s);
    } else if s.incoming != {} {
      var id :| id in s.incoming;
      run := IncomingLoses(cfg, s, id);
    } else {
      var c :| c in s.readers && CanDispatch(s, c) && c !in s.phase.snapshot;
      run := StrayLoses(cfg, s, c);
    }
  }

  lemma {:induction false} RunKeepsClosed(cfg: P.Config, s: State, run: seq<Label>)
    requires s.closed <= s.readers.Keys && After(cfg, s, run).Some?
    ensures After(cfg, s, run).value.closed <= After(cfg, s, run).value.readers.Keys
    decreases |run|
  {
    if run != [] {
      assert s.readers.Keys <= Step(cfg, s, run[0]).readers.Keys;
      RunKeepsClosed(cfg, Step(cfg, s, run[0]), run[1..]);
    }
  }

  /** `run`, which leads from `t` to `end`, preceded by `l`, which leads from `s` to `t`. */
  lemma Precede(cfg: P.Config, s: State, l: Label, t: State, run: seq<Label>, end: State) returns (longer: seq<Label>)
    requires Enabled(cfg, s, l) && Step(cfg, s, l) == t && After(cfg, t, run) == Some(end)
    ensures After(cfg, s, longer) == Some(end)
  {
    RunCons(Machine(cfg), s, l, run);
    longer := [l] + run;
  }

  /** A server with connection 1 only. */
  function One(pool: P.State, reader: Reader, closed: set<nat>, registered: set<nat>, listening: bool): State {
    Begin(pool, true).(readers := map[1 := reader], closed := closed, registered := registered, listening := listening)
  }

  lemma ShutdownFindsNothing(cfg: P.Config, pool: P.State) returns (run: seq<Label>, end: State)
    ensures After(cfg, One(pool, Dispatching, {1}, {}, true), run) == Some(end)
    ensures end.phase == Clearing({}) && Shut(end) && Is(end, 1, Dispatching)
  {
    var s := One(pool, Dispatching, {1}, {}, false);
    end := Step(cfg, s, Snapshot);
    run := Precede(cfg, s, Snapshot, end, [], end);
    run := Precede(cfg, One(pool, Dispatching, {1}, {}, true), CloseListener, s, run, end);
  }

  lemma FailureBeforeShutdown(cfg: P.Config, pool: P.State) returns (run: seq<Label>, end: State)
    ensures After(cfg, One(pool, Dispatching, {}, {1}, true), run) == Some(end)
    ensures end.phase == Clearing({}) && Shut(end) && Is(end, 1, Dispatching)
  {
    var s1, s2 := One(pool, Dispatching, {1}, {1}, true), One(pool, Dispatching, {1}, {}, true);
    assert {} + {1} == {1} && {1} - {1} == {};
    run, end := ShutdownFindsNothing(cfg, pool);
    run := Precede(cfg, s1, Remove(1), s2, run, end);
    run := Precede(cfg, One(pool, Dispatching, {}, {1}, true), Close(1), s1, run, end);
  }

  lemma ConnectionArrives(cfg: P.Config, pool: P.State, rest: seq<Label>, end: State) returns (run: seq<Label>)
    requires After(cfg, One(pool, Unlaunched, {}, {1}, true), rest) == Some(end)
    ensures After(cfg, Begin(pool, true), run) == Some(end)
  {
    var s1 := Begin(pool, true).(incoming := {1});
    assert {} + {1} == {1} && {1} - {1} == {};
    run := Precede(cfg, s1, Add(1), One(pool, Unlaunched, {}, {1}, true), rest, end);
    run := Precede(cfg, Begin(pool, true), Accept(1), s1, run, end);
  }

  /**
   It is missed in practice: a connection has messages in hand when its writer fails; the
   stop body takes it out of the registry; then Shutdown closes the listener and finds
   nothing to wait for.
   */
  lemma WriterFailureIsMissed(cfg: P.Config, pool: P.State) returns (run: seq<Label>)
    ensures After(cfg, Begin(pool, true), run).Some?
    ensures var s := After(cfg, Begin(pool, true), run).value;
            s.phase.Clearing? && Shut(s) && !Contained(s)
  {
    var end;
    run, end := FailureBeforeShutdown(cfg, pool);
    run := Precede(cfg, One(pool, Reading, {}, {1}, true), Receive(1), One(pool, Dispatching, {}, {1}, true), run, end);
    run := Precede(cfg, One(pool, Unlaunched, {}, {1}, true), Launch(1), One(pool, Reading, {}, {1}, true), run, end);
    run := ConnectionArrives(cfg, pool, run, end);
    assert CanDispatch(end, 1);
  }

  // ------------------------------------------------- what the nil result does not say

  /** Every continuation in which Shutdown has returned nil has all workers gone. */
  ghost predicate NilMeansDone(cfg: P.Config, s: State) {
    forall run :: After(cfg, s, run).Some? && After(cfg, s, run).value.phase == ReturnedNil ==>
      P.AllExited(After(cfg, s, run).value.pool)
  }

  /** The context cannot expire, and if Shutdown has returned then all workers are gone. */
  ghost predicate Patient(cfg: P.Config, s: State) {
    && Inv(cfg, s) && cfg.size > 0 && !s.deadline
    && (s.phase == ReturnedNil ==> !s.pool.active && P.AllExited(s.pool))
  }

  lemma PatientStep(cfg: P.Config, s: State, l: Label)
    requires Patient(cfg, s) && Enabled(cfg, s, l)
    ensures Patient(cfg, Step(cfg, s, l))
  {
    StepKeepsInv(cfg, s, l);
    var a := OnPool(l);
    if s.phase == ReturnedNil && a.Some? {
      P.ExitIsKept(cfg, s.pool, a.value);
    } else if l == WorkersDone {
      P.ExitedIsInactive(cfg, s.pool);
    }
  }

  lemma {:induction false} PatientRun(cfg: P.Config, s: State, run: seq<Label>)
    requires Patient(cfg, s) && After(cfg, s, run).Some?
    ensures Patient(cfg, After(cfg, s, run).value)
    decreases |run|
  {
    if run != [] {
      PatientStep(cfg, s, run[0]);
      PatientRun(cfg, Step(cfg, s, run[0]), run[1..]);
    }
  }

  lemma ExpiresAtOnce(cfg: P.Config, s: State) returns (run: seq<Label>)
    requires Inv(cfg, s) && cfg.size > 0 && s.phase == StoppingPool && s.pool.active && s.deadline
    ensures After(cfg, s, run).Some?
    ensures After(cfg, s, run).value.phase == ReturnedNil && !P.AllExited(After(cfg, s, run).value.pool)
  {
    assert P.WorkerOk(cfg, s.pool, 0);
    var s1 := Step(cfg, s, StopPool(P.Deactivate));
    var s2 := Step(cfg, s1, StopPool(P.Cancel));
    var end := Step(cfg, s2, Expires);
    run := Precede(cfg, s2, Expires, end, [], end);
    run := Precede(cfg, s1, StopPool(P.Cancel), s2, run, end);
    run := Precede(cfg, s, StopPool(P.Deactivate), s1, run, end);
    assert !end.pool.workers[0].Exited?;
  }

  /**
   StopWorkerPool gives up waiting when the context expires, and Shutdown returns nil all
   the same: from its call on, nil is sure to mean that all workers are gone if and only if
   the context cannot expire.
   */
  lemma NilMeansDoneIff(cfg: P.Config, s: State)
    requires Inv(cfg, s) && cfg.size > 0 && s.phase == StoppingPool && s.pool.active
    ensures NilMeansDone(cfg, s) <==> !s.deadline
  {
    if s.deadline {
      var run := ExpiresAtOnce(cfg, s);
    } else {
      forall run | After(cfg, s, run).Some? && After(cfg, s, run).value.phase == ReturnedNil
        ensures P.AllExited(After(cfg, s, run).value.pool)
      {
        PatientRun(cfg, s, run);
      }
    }
  }

  // -------------------------------------------------- connections as Lifecycle has them

  /** The reader's place as far as dispatching goes. */
  function ReaderOf(c: L.Conn): Reader {
    if !c.started then Unlaunched
    else if c.reader == L.Dispatching then Dispatching
    else if c.reader == L.ReaderGone then Gone
    else Reading
  }

  /** Connection `id` of this model is the connection `c` of `Lifecycle`. */
  predicate Matches(s: State, id: nat, c: L.Conn) {
    Is(s, id, ReaderOf(c)) && (id in s.closed <==> !c.open)
  }

  lemma LifecycleMoves(c: L.Conn, l: L.Label)
    requires L.Inv(c) && L.Enabled(c, l)
    ensures var d := L.Step(c, l);
            var r, q := ReaderOf(c), ReaderOf(d);
            || (q == r && (d.open == c.open || (c.open && !d.open)))
            || (d.open == c.open
                && ((r == Unlaunched && q == Reading) || (r == Reading && q == Dispatching && c.open)
                    || (r == Dispatching && q == Reading) || (r == Reading && q == Gone)))
  {
    L.StepKeepsLocalInv(c, l);
  }

  /** The label that a change of reader and socket amounts to, if it amounts to one. */
  function LabelOf(id: nat, c: L.Conn, d: L.Conn): Option<Label> {
    if c.open && !d.open then Some(Close(id))
    else if ReaderOf(c) == ReaderOf(d) then None
    else match ReaderOf(d) {
      case Unlaunched => None
      case Dispatching => Some(Receive(id))
      case Gone => Some(Leave(id))
      case Reading => Some(if ReaderOf(c) == Unlaunched then Launch(id) else ReadOn(id))
    }
  }

  /**
   Whatever a connection does in `Lifecycle` is a label of this model or leaves it as it is,
   the reader's end of a dispatch included once its requests are accepted.
   */
  lemma LifecycleStepIsALabel(cfg: P.Config, s: State, id: nat, c: L.Conn, l: L.Label)
    requires L.Inv(c) && L.Enabled(c, l) && Matches(s, id, c)
    requires ReaderOf(c) == Dispatching && ReaderOf(L.Step(c, l)) != Dispatching ==> id !in s.pool.senders
    ensures var d := L.Step(c, l);
            match LabelOf(id, c, d)
            case None => Matches(s, id, d)
            case Some(k) => Enabled(cfg, s, k) && Matches(Step(cfg, s, k), id, d)
  {
    LifecycleMoves(c, l);
  }

  /** And whenever a Stop returns there, it can be taken to return here. */
  lemma ReturnedStopIsOver(s: State, id: nat, c: L.Conn, i: nat)
    requires L.Inv(c) && L.Enabled(c, L.CallerStep(i)) && Matches(s, id, c)
    requires L.Step(c, L.CallerStep(i)).callers[i].Returned?
    ensures IsOver(s, id)
  {
    assert L.CallerOk(c, i);
  }
}
