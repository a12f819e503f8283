/**
 The handler chain of one request (knet/request.go): a cursor that any handler may
 advance, re-entrantly and any number of times, with Abort, SetMessage and panics.

 A handler is an arbitrary function from the message it finds to a program over
 the request's operations, so theorems about all chains cover every handler that
 uses the request through those operations.
 */
module Middleware {
  import opened Common
  import opened Codec

  datatype Prog =
    | Done
    | Emit(e: nat, k: Prog)                              // any effect outside the request
    | Next(k: Prog)                                      // RouterSlicesNext
    | Abort(k: Prog)
    | SetMessage(m: Message, k: Prog)
    | If(test: Message -> bool, yes: Prog, no: Prog)     // a decision on the current message
    | Panic

  type Handler = Message -> Prog

  /** Observable events, each with the chain position of the handler that causes it. */
  datatype Event =
    | Enter(i: nat, m: Message)
    | Exit(i: nat)
    | Unwind(i: nat)              // left by a panic
    | Out(i: nat, e: nat)
    | NextCalled(i: nat)
    | Looked(i: nat, m: Message)  // decided on the message it found
    | AbortCalled(i: nat)
    | Replaced(i: nat, m: Message)
    | Panicked(i: nat)

  datatype Cursor = Cursor(index: nat, aborted: bool, msg: Message)

  datatype Outcome = Outcome(cursor: Cursor, trace: seq<Event>, panicked: bool) {
    function Before(e: Event): Outcome { Outcome(cursor, [e] + trace, panicked) }
  }

  function Left(hs: seq<Handler>, c: Cursor): nat {
    if c.index < |hs| then |hs| - c.index else 0
  }

  /** The effect of RouterSlicesNext, with the events it causes. */
  function RunNext(hs: seq<Handler>, c: Cursor): (r: Outcome)
    ensures c.index <= r.cursor.index && (c.index <= |hs| ==> r.cursor.index <= |hs|)
    decreases Left(hs, c), 0
  {
    if c.aborted || c.index >= |hs| then Outcome(c, [], false)
    else
      RunBody(hs, c.index, hs[c.index](c.msg), c.(index := c.index + 1)).Before(Enter(c.index, c.msg))
  }

  /** The rest `p` of the program of handler `i`. */
  function RunBody(hs: seq<Handler>, i: nat, p: Prog, c: Cursor): (r: Outcome)
    ensures c.index <= r.cursor.index && (c.index <= |hs| ==> r.cursor.index <= |hs|)
    decreases Left(hs, c), 1, p
  {
    match p
    case Done => Outcome(c, [Exit(i)], false)
    case Emit(e, k) => RunBody(hs, i, k, c).Before(Out(i, e))
    case Next(k) =>
      var n := RunNext(hs, c);
      if n.panicked then Outcome(n.cursor, n.trace + [Unwind(i)], true).Before(NextCalled(i))
      else
        var b := RunBody(hs, i, k, n.cursor);
        Outcome(b.cursor, n.trace + b.trace, b.panicked).Before(NextCalled(i))
    case Abort(k) => RunBody(hs, i, k, c.(aborted := true)).Before(AbortCalled(i))
    case SetMessage(m, k) => RunBody(hs, i, k, c.(msg := m)).Before(Replaced(i, m))
    case If(test, yes, no) => RunBody(hs, i, if test(c.msg) then yes else no, c).Before(Looked(i, c.msg))
    case Panic => Outcome(c, [Panicked(i), Unwind(i)], true)
  }

  // ----------------------------------------------------------- the request object

  class Request {
    var handlers: seq<Handler>
    var index: nat
    var aborted: bool
    var msg: Message
    var trace: seq<Event>   // everything observed so far

    constructor (m: Message)
      ensures handlers == [] && View() == Cursor(0, false, m) && trace == []
    {
      handlers, index, aborted, msg, trace := [], 0, false, m, [];
    }

    function View(): Cursor
      reads this
    {
      Cursor(index, aborted, msg)
    }

    method BindRouterSlices(hs: seq<Handler>)
      modifies this
      ensures handlers == hs && View() == Cursor(0, false, old(msg)) && trace == old(trace)
    {
      handlers, index, aborted := hs, 0, false;
    }

    method Abort()
      modifies this
      ensures View() == old(View()).(aborted := true) && handlers == old(handlers) && trace == old(trace)
    {
      aborted := true;
    }

    method SetMessage(m: Message)
      modifies this
      ensures View() == old(View()).(msg := m) && handlers == old(handlers) && trace == old(trace)
    {
      msg := m;
    }

    /** Advances the cursor before calling the handler, so that re-entrant calls get the next one. */
    method RouterSlicesNext() returns (panicked: bool)
      modifies this
      ensures handlers == old(handlers)
      ensures var r := RunNext(handlers, old(View()));
              View() == r.cursor && trace == old(trace) + r.trace && panicked == r.panicked
      decreases Left(handlers, View()), 0
    {
      if aborted {
        return false;
      }
      if index >= |handlers| {
        return false;
      }
      var i := index;
      index := index + 1;
      trace := trace + [Enter(i, msg)];
      panicked := Call(i, handlers[i](msg));
    }

    /** `i` observes `e`; what follows extends the trace behind it. */
    method Observe(e: Event)
      modifies this`trace
      ensures trace == old(trace) + [e]
      ensures forall t :: trace + t == old(trace) + ([e] + t)
    {
      trace := trace + [e];
      forall t ensures trace + t == old(trace) + ([e] + t) {
        assert trace + t == old(trace) + [e] + t;
      }
    }

    /** Handler `i` calls RouterSlicesNext and then continues with `k`, unless a panic comes back. */
    method CallNext(i: nat, k: Prog) returns (panicked: bool)
      modifies this
      ensures handlers == old(handlers)
      ensures var r := RunBody(handlers, i, Next(k), old(View()));
              View() == r.cursor && trace == old(trace) + r.trace && panicked == r.panicked
      decreases Left(handlers, View()), 1, k, 1
    {
      Observe(NextCalled(i));
      ghost var here := trace;
      ghost var n := RunNext(handlers, View());
      panicked := RouterSlicesNext();
      if panicked {
        trace := trace + [Unwind(i)];
        Assoc(here, n.trace, [Unwind(i)]);
      } else {
        ghost var b := RunBody(handlers, i, k, n.cursor);
        panicked := Call(i, k);
        Assoc(here, n.trace, b.trace);
      }
    }

    /** Runs the program of handler `i`; a panic leaves it at once. */
    method Call(i: nat, p: Prog) returns (panicked: bool)
      modifies this
      ensures handlers == old(handlers)
      ensures var r := RunBody(handlers, i, p, old(View()));
              View() == r.cursor && trace == old(trace) + r.trace && panicked == r.panicked
      decreases Left(handlers, View()), 1, p, 0
    {
      match p
      case Done =>
        trace := trace + [Exit(i)];
        panicked := false;
      case Emit(e, k) =>
        Observe(Out(i, e));
        panicked := Call(i, k);
      case Next(k) =>
        panicked := CallNext(i, k);
      case Abort(k) =>
        this.Abort();
        Observe(AbortCalled(i));
        panicked := Call(i, k);
      case SetMessage(m, k) =>
        this.SetMessage(m);
        Observe(Replaced(i, m));
        panicked := Call(i, k);
      case If(test, yes, no) =>
        Observe(Looked(i, msg));
        panicked := Call(i, if test(msg) then yes else no);
      case Panic =>
        trace := trace + [Panicked(i), Unwind(i)];
        panicked := true;
    }
  }

  // ----------------------------------- handlers are entered in order, each once

  function Entered(t: seq<Event>): seq<nat> {
    if t == [] then [] else (if t[0].Enter? then [t[0].i] else []) + Entered(t[1..])
  }

  function Range(lo: nat, hi: nat): (s: seq<nat>)
    requires lo <= hi
    ensures |s| == hi - lo && forall j :: 0 <= j < |s| ==> s[j] == lo + j
    decreases hi - lo
  {
    if lo == hi then [] else [lo] + Range(lo + 1, hi)
  }

  lemma RangeAppend(a: nat, b: nat, c: nat)
    requires a <= b <= c
    ensures Range(a, b) + Range(b, c) == Range(a, c)
  {
  }

  lemma {:induction false} EnteredAppend(a: seq<Event>, b: seq<Event>)
    ensures Entered(a + b) == Entered(a) + Entered(b)
    decreases |a|
  {
    if a == [] {
      assert a + b == b;
    } else {
      EnteredAppend(a[1..], b);
      assert (a + b)[0] == a[0] && (a + b)[1..] == a[1..] + b;
      var x := if a[0].Enter? then [a[0].i] else [];
      assert x + (Entered(a[1..]) + Entered(b)) == x + Entered(a[1..]) + Entered(b);
    }
  }

  lemma EnteredCons(e: Event, t: seq<Event>)
    ensures Entered([e] + t) == (if e.Enter? then [e.i] else []) + Entered(t)
  {
    assert ([e] + t)[1..] == t;
  }

  lemma {:induction false} NextEntersInOrder(hs: seq<Handler>, c: Cursor)
    ensures var r := RunNext(hs, c); Entered(r.trace) == Range(c.index, r.cursor.index)
    decreases Left(hs, c), 0
  {
    if !c.aborted && c.index < |hs| {
      var c', p := c.(index := c.index + 1), hs[c.index](c.msg);
      BodyEntersInOrder(hs, c.index, p, c');
      EnteredCons(Enter(c.index, c.msg), RunBody(hs, c.index, p, c').trace);
    }
  }

  lemma {:induction false} BodyEntersInOrder(hs: seq<Handler>, i: nat, p: Prog, c: Cursor)
    ensures var r := RunBody(hs, i, p, c); Entered(r.trace) == Range(c.index, r.cursor.index)
    decreases Left(hs, c), 1, p
  {
    match p
    case Done => EnteredCons(Exit(i), []);
    case Emit(e, k) =>
      BodyEntersInOrder(hs, i, k, c);
      EnteredCons(Out(i, e), RunBody(hs, i, k, c).trace);
    case Next(k) =>
      var n := RunNext(hs, c);
      NextEntersInOrder(hs, c);
      if n.panicked {
        EnteredCons(Unwind(i), []);
        EnteredAppend(n.trace, [Unwind(i)]);
        EnteredCons(NextCalled(i), n.trace + [Unwind(i)]);
      } else {
        var b := RunBody(hs, i, k, n.cursor);
        BodyEntersInOrder(hs, i, k, n.cursor);
        EnteredAppend(n.trace, b.trace);
        EnteredCons(NextCalled(i), n.trace + b.trace);
        RangeAppend(c.index, n.cursor.index, b.cursor.index);
      }
    case Abort(k) =>
      BodyEntersInOrder(hs, i, k, c.(aborted := true));
      EnteredCons(AbortCalled(i), RunBody(hs, i, k, c.(aborted := true)).trace);
    case SetMessage(m, k) =>
      BodyEntersInOrder(hs, i, k, c.(msg := m));
      EnteredCons(Replaced(i, m), RunBody(hs, i, k, c.(msg := m)).trace);
    case If(test, yes, no) =>
      var k := if test(c.msg) then yes else no;
      BodyEntersInOrder(hs, i, k, c);
      EnteredCons(Looked(i, c.msg), RunBody(hs, i, k, c).trace);
    case Panic =>
      EnteredCons(Unwind(i), []);
      EnteredCons(Panicked(i), [Unwind(i)]);
      assert [Panicked(i)] + [Unwind(i)] == [Panicked(i), Unwind(i)];
  }

  // ------------------------------------------- every Next call advances the chain

  /** What a scheduler of `n` handlers tracks: `due` says that handler `index` has to start now. */
  datatype Schedule = Schedule(index: nat, aborted: bool, msg: Message, due: bool)

  /** The schedule after one event, or None if the event must not happen. */
  function Advance(e: Event, n: nat, s: Schedule): Option<Schedule> {
    if s.due then
      if e == Enter(s.index, s.msg) then Some(s.(index := s.index + 1, due := false)) else None
    else
      match e
      case Enter(_, _) => None
      case NextCalled(_) => Some(s.(due := !s.aborted && s.index < n))
      case AbortCalled(_) => Some(s.(aborted := true))
      case Replaced(_, m) => Some(s.(msg := m))
      case Looked(_, m) => if m == s.msg then Some(s) else None
      case _ => Some(s)
  }

  /** Replays a trace: a handler starts exactly when due, and everyone sees the current message. */
  function Replay(t: seq<Event>, n: nat, s: Schedule): Option<Schedule>
    decreases |t|
  {
    if t == [] then Some(s)
    else
      match Advance(t[0], n, s)
      case None => None
      case Some(s') => Replay(t[1..], n, s')
  }

  function At(c: Cursor): Schedule { Schedule(c.index, c.aborted, c.msg, false) }

  /** The schedule when RouterSlicesNext is called at `c`. */
  function DueAt(c: Cursor, n: nat): Schedule { At(c).(due := !c.aborted && c.index < n) }

  lemma {:induction false} ReplayAppend(a: seq<Event>, b: seq<Event>, n: nat, s: Schedule)
    requires Replay(a, n, s).Some?
    ensures Replay(a + b, n, s) == Replay(b, n, Replay(a, n, s).value)
    decreases |a|
  {
    if a == [] {
      assert a + b == b;
    } else {
      assert (a + b)[1..] == a[1..] + b;
      ReplayAppend(a[1..], b, n, Advance(a[0], n, s).value);
    }
  }

  lemma ReplayStep(e: Event, t: seq<Event>, n: nat, s: Schedule)
    requires Advance(e, n, s).Some?
    ensures Replay([e] + t, n, s) == Replay(t, n, Advance(e, n, s).value)
  {
    assert ([e] + t)[1..] == t;
  }

  lemma {:induction false} NextFollowsSchedule(hs: seq<Handler>, c: Cursor)
    ensures var r := RunNext(hs, c); Replay(r.trace, |hs|, DueAt(c, |hs|)) == Some(At(r.cursor))
    decreases Left(hs, c), 0
  {
    if !c.aborted && c.index < |hs| {
      var c', p := c.(index := c.index + 1), hs[c.index](c.msg);
      var t := RunBody(hs, c.index, p, c').trace;
      BodyFollowsSchedule(hs, c.index, p, c');
      ReplayStep(Enter(c.index, c.msg), t, |hs|, DueAt(c, |hs|));
    }
  }

  lemma {:induction false} BodyFollowsSchedule(hs: seq<Handler>, i: nat, p: Prog, c: Cursor)
    ensures var r := RunBody(hs, i, p, c); Replay(r.trace, |hs|, At(c)) == Some(At(r.cursor))
    decreases Left(hs, c), 1, p
  {
    match p
    case Done => ReplayStep(Exit(i), [], |hs|, At(c));
    case Emit(e, k) =>
      BodyFollowsSchedule(hs, i, k, c);
      ReplayStep(Out(i, e), RunBody(hs, i, k, c).trace, |hs|, At(c));
    case Next(k) =>
      var n := RunNext(hs, c);
      NextFollowsSchedule(hs, c);
      if n.panicked {
        ReplayStep(Unwind(i), [], |hs|, At(n.cursor));
        ReplayAppend(n.trace, [Unwind(i)], |hs|, DueAt(c, |hs|));
        ReplayStep(NextCalled(i), n.trace + [Unwind(i)], |hs|, At(c));
      } else {
        var b := RunBody(hs, i, k, n.cursor);
        BodyFollowsSchedule(hs, i, k, n.cursor);
        ReplayAppend(n.trace, b.trace, |hs|, DueAt(c, |hs|));
        ReplayStep(NextCalled(i), n.trace + b.trace, |hs|, At(c));
      }
    case Abort(k) =>
      BodyFollowsSchedule(hs, i, k, c.(aborted := true));
      ReplayStep(AbortCalled(i), RunBody(hs, i, k, c.(aborted := true)).trace, |hs|, At(c));
    case SetMessage(m, k) =>
      BodyFollowsSchedule(hs, i, k, c.(msg := m));
      ReplayStep(Replaced(i, m), RunBody(hs, i, k, c.(msg := m)).trace, |hs|, At(c));
    case If(test, yes, no) =>
      var k := if test(c.msg) then yes else no;
      BodyFollowsSchedule(hs, i, k, c);
      ReplayStep(Looked(i, c.msg), RunBody(hs, i, k, c).trace, |hs|, At(c));
    case Panic =>
      ReplayStep(Unwind(i), [], |hs|, At(c));
      ReplayStep(Panicked(i), [Unwind(i)], |hs|, At(c));
      assert [Panicked(i)] + [Unwind(i)] == [Panicked(i), Unwind(i)];
  }

  // -------------------------------------------------------------- well-nestedness

  /** The handlers open after `t`, innermost first; None if something is left that is not innermost. */
  function Nest(t: seq<Event>, open: seq<nat>): Option<seq<nat>> {
    if t == [] then Some(open)
    else match t[0]
      case Enter(i, _) => Nest(t[1..], [i] + open)
      case Exit(i) => if open != [] && open[0] == i then Nest(t[1..], open[1..]) else None
      case Unwind(i) => if open != [] && open[0] == i then Nest(t[1..], open[1..]) else None
      case _ => if open != [] && open[0] == t[0].i then Nest(t[1..], open) else None
  }

  lemma {:induction false} NestAppend(a: seq<Event>, b: seq<Event>, open: seq<nat>)
    requires Nest(a, open).Some?
    ensures Nest(a + b, open) == Nest(b, Nest(a, open).value)
    decreases |a|
  {
    if a == [] {
      assert a + b == b;
    } else {
      assert (a + b)[1..] == a[1..] + b;
      match a[0]
      case Enter(i, _) => NestAppend(a[1..], b, [i] + open);
      case Exit(i) => NestAppend(a[1..], b, open[1..]);
      case Unwind(i) => NestAppend(a[1..], b, open[1..]);
      case _ => NestAppend(a[1..], b, open);
    }
  }

  lemma NestLeave(e: Event, i: nat, open: seq<nat>)
    requires e == Exit(i) || e == Unwind(i)
    ensures Nest([e], [i] + open) == Some(open)
  {
    assert [e][1..] == [] && ([i] + open)[1..] == open;
  }

  lemma NestOwn(e: Event, t: seq<Event>, i: nat, open: seq<nat>)
    requires e.i == i && !e.Enter? && !e.Exit? && !e.Unwind?
    ensures Nest([e] + t, [i] + open) == Nest(t, [i] + open)
  {
    assert ([e] + t)[1..] == t;
  }

  lemma {:induction false} NextIsNested(hs: seq<Handler>, c: Cursor, open: seq<nat>)
    ensures Nest(RunNext(hs, c).trace, open) == Some(open)
    decreases Left(hs, c), 0
  {
    if !c.aborted && c.index < |hs| {
      var c', p := c.(index := c.index + 1), hs[c.index](c.msg);
      var t := RunBody(hs, c.index, p, c').trace;
      BodyIsNested(hs, c.index, p, c', open);
      assert ([Enter(c.index, c.msg)] + t)[1..] == t;
    }
  }

  lemma {:induction false} BodyIsNested(hs: seq<Handler>, i: nat, p: Prog, c: Cursor, open: seq<nat>)
    ensures Nest(RunBody(hs, i, p, c).trace, [i] + open) == Some(open)
    decreases Left(hs, c), 1, p
  {
    match p
    case Done => NestLeave(Exit(i), i, open);
    case Emit(e, k) =>
      BodyIsNested(hs, i, k, c, open);
      NestOwn(Out(i, e), RunBody(hs, i, k, c).trace, i, open);
    case Next(k) =>
      var n := RunNext(hs, c);
      NextIsNested(hs, c, [i] + open);
      if n.panicked {
        NestLeave(Unwind(i), i, open);
        NestAppend(n.trace, [Unwind(i)], [i] + open);
        NestOwn(NextCalled(i), n.trace + [Unwind(i)], i, open);
      } else {
        var b := RunBody(hs, i, k, n.cursor);
        BodyIsNested(hs, i, k, n.cursor, open);
        NestAppend(n.trace, b.trace, [i] + open);
        NestOwn(NextCalled(i), n.trace + b.trace, i, open);
      }
    case Abort(k) =>
      BodyIsNested(hs, i, k, c.(aborted := true), open);
      NestOwn(AbortCalled(i), RunBody(hs, i, k, c.(aborted := true)).trace, i, open);
    case SetMessage(m, k) =>
      BodyIsNested(hs, i, k, c.(msg := m), open);
      NestOwn(Replaced(i, m), RunBody(hs, i, k, c.(msg := m)).trace, i, open);
    case If(test, yes, no) =>
      var k := if test(c.msg) then yes else no;
      BodyIsNested(hs, i, k, c, open);
      NestOwn(Looked(i, c.msg), RunBody(hs, i, k, c).trace, i, open);
    case Panic =>
      NestLeave(Unwind(i), i, open);
      NestOwn(Panicked(i), [Unwind(i)], i, open);
      assert [Panicked(i)] + [Unwind(i)] == [Panicked(i), Unwind(i)];
  }

  // ------------------------------------------------------------- abort and panic

  /** Nothing is entered after an Abort; with `before`, the request was aborted already. */
  predicate QuietAfterAbort(t: seq<Event>, before: bool) {
    && (before ==> forall y :: 0 <= y < |t| ==> !t[y].Enter?)
    && (forall x, y :: 0 <= x < y < |t| && t[x].AbortCalled? ==> !t[y].Enter?)
  }

  predicate Aborts(t: seq<Event>) {
    exists x :: 0 <= x < |t| && t[x].AbortCalled?
  }

  /** Either nobody panics, or one handler does and all that follows is the unwinding. */
  predicate PanicShape(t: seq<Event>, panicked: bool) {
    if panicked then
      exists j :: 0 <= j < |t| && t[j].Panicked?
        && (forall x :: 0 <= x < j ==> !t[x].Panicked? && !t[x].Unwind?)
        && (forall y :: j < y < |t| ==> t[y].Unwind?)
    else forall x :: 0 <= x < |t| ==> !t[x].Panicked? && !t[x].Unwind?
  }

  predicate Disciplined(c: Cursor, r: Outcome) {
    && QuietAfterAbort(r.trace, c.aborted)
    && (r.cursor.aborted <==> c.aborted || Aborts(r.trace))
    && PanicShape(r.trace, r.panicked)
  }

  lemma AbortsAppend(a: seq<Event>, b: seq<Event>)
    ensures Aborts(a + b) <==> Aborts(a) || Aborts(b)
  {
    var t := a + b;
    if Aborts(a) {
      var x :| 0 <= x < |a| && a[x].AbortCalled?;
      assert t[x].AbortCalled?;
    }
    if Aborts(b) {
      var x :| 0 <= x < |b| && b[x].AbortCalled?;
      assert t[|a| + x].AbortCalled?;
    }
  }

  lemma QuietAppend(a: seq<Event>, b: seq<Event>, before: bool)
    requires QuietAfterAbort(a, before) && QuietAfterAbort(b, before || Aborts(a))
    ensures QuietAfterAbort(a + b, before)
  {
    var t := a + b;
    forall x, y | 0 <= x < y < |t| && t[x].AbortCalled? ensures !t[y].Enter? {
      if x < |a| {
        assert a[x].AbortCalled? && Aborts(a);
      } else {
        assert b[x - |a|].AbortCalled?;
      }
    }
  }

  lemma PanicAppend(a: seq<Event>, b: seq<Event>, panicked: bool)
    requires PanicShape(a, false) && PanicShape(b, panicked)
    ensures PanicShape(a + b, panicked)
  {
    var t := a + b;
    if panicked {
      var j :| 0 <= j < |b| && b[j].Panicked?
        && (forall x :: 0 <= x < j ==> !b[x].Panicked? && !b[x].Unwind?)
        && (forall y :: j < y < |b| ==> b[y].Unwind?);
      assert t[|a| + j].Panicked?;
    }
  }

  lemma UnwindAppend(a: seq<Event>, i: nat)
    requires PanicShape(a, true)
    ensures PanicShape(a + [Unwind(i)], true)
  {
    var j :| 0 <= j < |a| && a[j].Panicked?
      && (forall x :: 0 <= x < j ==> !a[x].Panicked? && !a[x].Unwind?)
      && (forall y :: j < y < |a| ==> a[y].Unwind?);
    assert (a + [Unwind(i)])[j].Panicked?;
  }

  lemma DisciplinedBefore(c: Cursor, e: Event, c': Cursor, r: Outcome)
    requires Disciplined(c', r) && !e.Panicked? && !e.Unwind?
    requires c'.aborted == (c.aborted || e.AbortCalled?)
    requires e.Enter? ==> !c.aborted
    ensures Disciplined(c, r.Before(e))
  {
    assert Aborts([e]) <==> e.AbortCalled? by { assert [e][0] == e; }
    AbortsAppend([e], r.trace);
    QuietAppend([e], r.trace, c.aborted);
    PanicAppend([e], r.trace, r.panicked);
  }

  lemma {:induction false} NextIsDisciplined(hs: seq<Handler>, c: Cursor)
    ensures Disciplined(c, RunNext(hs, c))
    decreases Left(hs, c), 0
  {
    if !c.aborted && c.index < |hs| {
      var c', p := c.(index := c.index + 1), hs[c.index](c.msg);
      BodyIsDisciplined(hs, c.index, p, c');
      DisciplinedBefore(c, Enter(c.index, c.msg), c', RunBody(hs, c.index, p, c'));
    }
  }

  lemma {:induction false} BodyIsDisciplined(hs: seq<Handler>, i: nat, p: Prog, c: Cursor)
    ensures Disciplined(c, RunBody(hs, i, p, c))
    decreases Left(hs, c), 1, p
  {
    match p
    case Done =>
    case Emit(e, k) =>
      BodyIsDisciplined(hs, i, k, c);
      DisciplinedBefore(c, Out(i, e), c, RunBody(hs, i, k, c));
    case Next(k) =>
      var n := RunNext(hs, c);
      NextIsDisciplined(hs, c);
      if n.panicked {
        UnwindAppend(n.trace, i);
        AbortsAppend(n.trace, [Unwind(i)]);
        QuietAppend(n.trace, [Unwind(i)], c.aborted);
        DisciplinedBefore(c, NextCalled(i), c, Outcome(n.cursor, n.trace + [Unwind(i)], true));
      } else {
        var b := RunBody(hs, i, k, n.cursor);
        BodyIsDisciplined(hs, i, k, n.cursor);
        PanicAppend(n.trace, b.trace, b.panicked);
        AbortsAppend(n.trace, b.trace);
        QuietAppend(n.trace, b.trace, c.aborted);
        DisciplinedBefore(c, NextCalled(i), c, Outcome(b.cursor, n.trace + b.trace, b.panicked));
      }
    case Abort(k) =>
      var c' := c.(aborted := true);
      BodyIsDisciplined(hs, i, k, c');
      DisciplinedBefore(c, AbortCalled(i), c', RunBody(hs, i, k, c'));
    case SetMessage(m, k) =>
      var c' := c.(msg := m);
      BodyIsDisciplined(hs, i, k, c');
      DisciplinedBefore(c, Replaced(i, m), c', RunBody(hs, i, k, c'));
    case If(test, yes, no) =>
      var k := if test(c.msg) then yes else no;
      BodyIsDisciplined(hs, i, k, c);
      DisciplinedBefore(c, Looked(i, c.msg), c, RunBody(hs, i, k, c));
    case Panic => assert [Panicked(i), Unwind(i)][0].Panicked?;
  }

  // ---------------------------------------------------- every handler completes

  function Own(t: seq<Event>, i: nat): seq<Event> {
    if t == [] then [] else (if t[0].i == i then [t[0]] else []) + Own(t[1..], i)
  }

  /** `t` is a complete execution of `p` by handler `i`, deciding on the messages recorded in it. */
  predicate CompletePath(p: Prog, i: nat, t: seq<Event>) {
    match p
    case Done => t == [Exit(i)]
    case Emit(e, k) => t != [] && t[0] == Out(i, e) && CompletePath(k, i, t[1..])
    case Next(k) => t != [] && t[0] == NextCalled(i) && CompletePath(k, i, t[1..])
    case Abort(k) => t != [] && t[0] == AbortCalled(i) && CompletePath(k, i, t[1..])
    case SetMessage(m, k) => t != [] && t[0] == Replaced(i, m) && CompletePath(k, i, t[1..])
    case If(test, yes, no) =>
      t != [] && t[0].Looked? && t[0].i == i && CompletePath(if test(t[0].m) then yes else no, i, t[1..])
    case Panic => false
  }

  /** Handler `j` was entered and ran to its end: its own events are one whole pass through its program. */
  predicate Completed(hs: seq<Handler>, t: seq<Event>, j: nat)
    requires j < |hs|
  {
    var own := Own(t, j);
    && own != [] && own[0].Enter?
    && CompletePath(hs[j](own[0].m), j, own[1..])
  }

  lemma {:induction false} OwnAppend(a: seq<Event>, b: seq<Event>, i: nat)
    ensures Own(a + b, i) == Own(a, i) + Own(b, i)
    decreases |a|
  {
    if a == [] {
      assert a + b == b;
    } else {
      OwnAppend(a[1..], b, i);
      assert (a + b)[0] == a[0] && (a + b)[1..] == a[1..] + b;
      var x := if a[0].i == i then [a[0]] else [];
      assert x + (Own(a[1..], i) + Own(b, i)) == x + Own(a[1..], i) + Own(b, i);
    }
  }

  lemma OwnCons(e: Event, t: seq<Event>, i: nat)
    ensures Own([e] + t, i) == (if e.i == i then [e] else []) + Own(t, i)
  {
    assert ([e] + t)[1..] == t;
  }

  /** Events of others before or after do not matter to `j`. */
  lemma CompletedJoin(hs: seq<Handler>, a: seq<Event>, b: seq<Event>, j: nat)
    requires j < |hs|
    requires (Completed(hs, a, j) && Own(b, j) == []) || (Own(a, j) == [] && Completed(hs, b, j))
    ensures Completed(hs, a + b, j)
  {
    OwnAppend(a, b, j);
    assert [] + Own(b, j) == Own(b, j) && Own(a, j) + [] == Own(a, j);
  }

  lemma CompletedBehind(hs: seq<Handler>, e: Event, t: seq<Event>, j: nat)
    requires j < |hs| && Completed(hs, t, j) && e.i != j
    ensures Completed(hs, [e] + t, j)
  {
    assert Own([e], j) == [] by { assert [e][1..] == []; }
    CompletedJoin(hs, [e], t, j);
  }

  /** RunNext only causes events of the handlers it enters. */
  lemma {:induction false} NextEventsAreOf(hs: seq<Handler>, c: Cursor, j: nat)
    requires j < c.index || j >= RunNext(hs, c).cursor.index
    ensures Own(RunNext(hs, c).trace, j) == []
    decreases Left(hs, c), 0
  {
    if !c.aborted && c.index < |hs| {
      var c', p := c.(index := c.index + 1), hs[c.index](c.msg);
      BodyEventsAreOf(hs, c.index, p, c', j);
      OwnCons(Enter(c.index, c.msg), RunBody(hs, c.index, p, c').trace, j);
    }
  }

  lemma {:induction false} BodyEventsAreOf(hs: seq<Handler>, i: nat, p: Prog, c: Cursor, j: nat)
    requires j != i && (j < c.index || j >= RunBody(hs, i, p, c).cursor.index)
    ensures Own(RunBody(hs, i, p, c).trace, j) == []
    decreases Left(hs, c), 1, p
  {
    match p
    case Done => OwnCons(Exit(i), [], j);
    case Emit(e, k) =>
      BodyEventsAreOf(hs, i, k, c, j);
      OwnCons(Out(i, e), RunBody(hs, i, k, c).trace, j);
    case Next(k) =>
      var n := RunNext(hs, c);
      NextEventsAreOf(hs, c, j);
      if n.panicked {
        OwnCons(Unwind(i), [], j);
        OwnAppend(n.trace, [Unwind(i)], j);
        OwnCons(NextCalled(i), n.trace + [Unwind(i)], j);
      } else {
        var b := RunBody(hs, i, k, n.cursor);
        BodyEventsAreOf(hs, i, k, n.cursor, j);
        OwnAppend(n.trace, b.trace, j);
        OwnCons(NextCalled(i), n.trace + b.trace, j);
      }
    case Abort(k) =>
      BodyEventsAreOf(hs, i, k, c.(aborted := true), j);
      OwnCons(AbortCalled(i), RunBody(hs, i, k, c.(aborted := true)).trace, j);
    case SetMessage(m, k) =>
      BodyEventsAreOf(hs, i, k, c.(msg := m), j);
      OwnCons(Replaced(i, m), RunBody(hs, i, k, c.(msg := m)).trace, j);
    case If(test, yes, no) =>
      var k := if test(c.msg) then yes else no;
      BodyEventsAreOf(hs, i, k, c, j);
      OwnCons(Looked(i, c.msg), RunBody(hs, i, k, c).trace, j);
    case Panic =>
      OwnCons(Unwind(i), [], j);
      OwnCons(Panicked(i), [Unwind(i)], j);
      assert [Panicked(i)] + [Unwind(i)] == [Panicked(i), Unwind(i)];
  }

  lemma {:induction false} BodyRunsThrough(hs: seq<Handler>, i: nat, p: Prog, c: Cursor)
    requires i < c.index && !RunBody(hs, i, p, c).panicked
    ensures CompletePath(p, i, Own(RunBody(hs, i, p, c).trace, i))
    decreases p
  {
    match p
    case Done => OwnCons(Exit(i), [], i);
    case Emit(e, k) =>
      BodyRunsThrough(hs, i, k, c);
      OwnCons(Out(i, e), RunBody(hs, i, k, c).trace, i);
    case Next(k) =>
      var n := RunNext(hs, c);
      NextEventsAreOf(hs, c, i);
      BodyRunsThrough(hs, i, k, n.cursor);
      var later := RunBody(hs, i, k, n.cursor).trace;
      OwnAppend(n.trace, later, i);
      assert [] + Own(later, i) == Own(later, i);
      OwnCons(NextCalled(i), n.trace + later, i);
    case Abort(k) =>
      BodyRunsThrough(hs, i, k, c.(aborted := true));
      OwnCons(AbortCalled(i), RunBody(hs, i, k, c.(aborted := true)).trace, i);
    case SetMessage(m, k) =>
      BodyRunsThrough(hs, i, k, c.(msg := m));
      OwnCons(Replaced(i, m), RunBody(hs, i, k, c.(msg := m)).trace, i);
    case If(test, yes, no) =>
      var k := if test(c.msg) then yes else no;
      BodyRunsThrough(hs, i, k, c);
      OwnCons(Looked(i, c.msg), RunBody(hs, i, k, c).trace, i);
  }

  lemma {:induction false} NextCompletes(hs: seq<Handler>, c: Cursor, j: nat)
    requires j < |hs| && c.index <= j < RunNext(hs, c).cursor.index && !RunNext(hs, c).panicked
    ensures Completed(hs, RunNext(hs, c).trace, j)
    decreases Left(hs, c), 0
  {
    var c', p := c.(index := c.index + 1), hs[c.index](c.msg);
    var t := RunBody(hs, c.index, p, c').trace;
    if j == c.index {
      OwnCons(Enter(j, c.msg), t, j);
      BodyRunsThrough(hs, j, p, c');
      assert ([Enter(j, c.msg)] + Own(t, j))[1..] == Own(t, j);
    } else {
      BodyCompletes(hs, c.index, p, c', j);
      CompletedBehind(hs, Enter(c.index, c.msg), t, j);
    }
  }

  lemma {:induction false} BodyCompletes(hs: seq<Handler>, i: nat, p: Prog, c: Cursor, j: nat)
    requires j < |hs| && i < c.index <= j < RunBody(hs, i, p, c).cursor.index && !RunBody(hs, i, p, c).panicked
    ensures Completed(hs, RunBody(hs, i, p, c).trace, j)
    decreases Left(hs, c), 1, p
  {
    match p
    case Emit(e, k) =>
      BodyCompletes(hs, i, k, c, j);
      CompletedBehind(hs, Out(i, e), RunBody(hs, i, k, c).trace, j);
    case Next(k) =>
      var n := RunNext(hs, c);
      var b := RunBody(hs, i, k, n.cursor);
      if j < n.cursor.index {
        NextCompletes(hs, c, j);
        BodyEventsAreOf(hs, i, k, n.cursor, j);
      } else {
        NextEventsAreOf(hs, c, j);
        BodyCompletes(hs, i, k, n.cursor, j);
      }
      CompletedJoin(hs, n.trace, b.trace, j);
      CompletedBehind(hs, NextCalled(i), n.trace + b.trace, j);
    case Abort(k) =>
      BodyCompletes(hs, i, k, c.(aborted := true), j);
      CompletedBehind(hs, AbortCalled(i), RunBody(hs, i, k, c.(aborted := true)).trace, j);
    case SetMessage(m, k) =>
      BodyCompletes(hs, i, k, c.(msg := m), j);
      CompletedBehind(hs, Replaced(i, m), RunBody(hs, i, k, c.(msg := m)).trace, j);
    case If(test, yes, no) =>
      var k := if test(c.msg) then yes else no;
      BodyCompletes(hs, i, k, c, j);
      CompletedBehind(hs, Looked(i, c.msg), RunBody(hs, i, k, c).trace, j);
  }

  // ------------------------------------------- programs are followed, panics included

  /** `t` is handler `i` following `p`: to its end, to its own panic, or to one that comes back from Next. */
  predicate FollowsPath(p: Prog, i: nat, t: seq<Event>) {
    match p
    case Done => t == [Exit(i)]
    case Emit(e, k) => t != [] && t[0] == Out(i, e) && FollowsPath(k, i, t[1..])
    case Next(k) => t != [] && t[0] == NextCalled(i) && (t[1..] == [Unwind(i)] || FollowsPath(k, i, t[1..]))
    case Abort(k) => t != [] && t[0] == AbortCalled(i) && FollowsPath(k, i, t[1..])
    case SetMessage(m, k) => t != [] && t[0] == Replaced(i, m) && FollowsPath(k, i, t[1..])
    case If(test, yes, no) =>
      t != [] && t[0].Looked? && t[0].i == i && FollowsPath(if test(t[0].m) then yes else no, i, t[1..])
    case Panic => t == [Panicked(i), Unwind(i)]
  }

  /** Handler `j` was entered and did what its program says, panic or not. */
  predicate Followed(hs: seq<Handler>, t: seq<Event>, j: nat)
    requires j < |hs|
  {
    var own := Own(t, j);
    own != [] && own[0].Enter? && FollowsPath(hs[j](own[0].m), j, own[1..])
  }

  lemma FollowedJoin(hs: seq<Handler>, a: seq<Event>, b: seq<Event>, j: nat)
    requires j < |hs|
    requires (Followed(hs, a, j) && Own(b, j) == []) || (Own(a, j) == [] && Followed(hs, b, j))
    ensures Followed(hs, a + b, j)
  {
    OwnAppend(a, b, j);
    assert [] + Own(b, j) == Own(b, j) && Own(a, j) + [] == Own(a, j);
  }

  lemma FollowedBehind(hs: seq<Handler>, e: Event, t: seq<Event>, j: nat)
    requires j < |hs| && Followed(hs, t, j) && e.i != j
    ensures Followed(hs, [e] + t, j)
  {
    assert Own([e], j) == [] by { assert [e][1..] == []; }
    FollowedJoin(hs, [e], t, j);
  }

  lemma {:induction false} BodyFollowsPath(hs: seq<Handler>, i: nat, p: Prog, c: Cursor)
    requires i < c.index
    ensures FollowsPath(p, i, Own(RunBody(hs, i, p, c).trace, i))
    decreases p, 0
  {
    match p
    case Done => OwnCons(Exit(i), [], i);
    case Emit(e, k) =>
      BodyFollowsPath(hs, i, k, c);
      OwnCons(Out(i, e), RunBody(hs, i, k, c).trace, i);
    case Next(k) => NextFollowsPath(hs, i, k, c);
    case Abort(k) =>
      BodyFollowsPath(hs, i, k, c.(aborted := true));
      OwnCons(AbortCalled(i), RunBody(hs, i, k, c.(aborted := true)).trace, i);
    case SetMessage(m, k) =>
      BodyFollowsPath(hs, i, k, c.(msg := m));
      OwnCons(Replaced(i, m), RunBody(hs, i, k, c.(msg := m)).trace, i);
    case If(test, yes, no) =>
      var k := if test(c.msg) then yes else no;
      BodyFollowsPath(hs, i, k, c);
      OwnCons(Looked(i, c.msg), RunBody(hs, i, k, c).trace, i);
    case Panic =>
      OwnCons(Unwind(i), [], i);
      OwnCons(Panicked(i), [Unwind(i)], i);
      assert [Panicked(i)] + [Unwind(i)] == [Panicked(i), Unwind(i)];
  }

  lemma {:induction false} NextFollowsPath(hs: seq<Handler>, i: nat, k: Prog, c: Cursor)
    requires i < c.index
    ensures FollowsPath(Next(k), i, Own(RunBody(hs, i, Next(k), c).trace, i))
    decreases k, 1
  {
    var n := RunNext(hs, c);
    NextEventsAreOf(hs, c, i);
    if n.panicked {
      OwnCons(Unwind(i), [], i);
      OwnAppend(n.trace, [Unwind(i)], i);
      assert [] + [Unwind(i)] == [Unwind(i)];
      OwnCons(NextCalled(i), n.trace + [Unwind(i)], i);
      assert ([NextCalled(i)] + [Unwind(i)])[1..] == [Unwind(i)];
    } else {
      BodyFollowsPath(hs, i, k, n.cursor);
      var later := RunBody(hs, i, k, n.cursor).trace;
      OwnAppend(n.trace, later, i);
      assert [] + Own(later, i) == Own(later, i);
      OwnCons(NextCalled(i), n.trace + later, i);
    }
  }

  lemma {:induction false} NextIsFollowed(hs: seq<Handler>, c: Cursor, j: nat)
    requires j < |hs| && c.index <= j < RunNext(hs, c).cursor.index
    ensures Followed(hs, RunNext(hs, c).trace, j)
    decreases Left(hs, c), 0
  {
    var c', p := c.(index := c.index + 1), hs[c.index](c.msg);
    var t := RunBody(hs, c.index, p, c').trace;
    if j == c.index {
      OwnCons(Enter(j, c.msg), t, j);
      BodyFollowsPath(hs, j, p, c');
      assert ([Enter(j, c.msg)] + Own(t, j))[1..] == Own(t, j);
    } else {
      BodyIsFollowed(hs, c.index, p, c', j);
      FollowedBehind(hs, Enter(c.index, c.msg), t, j);
    }
  }

  lemma {:induction false} BodyIsFollowed(hs: seq<Handler>, i: nat, p: Prog, c: Cursor, j: nat)
    requires j < |hs| && i < c.index <= j < RunBody(hs, i, p, c).cursor.index
    ensures Followed(hs, RunBody(hs, i, p, c).trace, j)
    decreases Left(hs, c), 1, p
  {
    match p
    case Emit(e, k) =>
      BodyIsFollowed(hs, i, k, c, j);
      FollowedBehind(hs, Out(i, e), RunBody(hs, i, k, c).trace, j);
    case Next(k) =>
      var n := RunNext(hs, c);
      if j < n.cursor.index { NextIsFollowed(hs, c, j); } else { NextEventsAreOf(hs, c, j); }
      if n.panicked {
        OwnCons(Unwind(i), [], j);
        FollowedJoin(hs, n.trace, [Unwind(i)], j);
        FollowedBehind(hs, NextCalled(i), n.trace + [Unwind(i)], j);
      } else {
        var b := RunBody(hs, i, k, n.cursor);
        if j < n.cursor.index {
          BodyEventsAreOf(hs, i, k, n.cursor, j);
        } else {
          BodyIsFollowed(hs, i, k, n.cursor, j);
        }
        FollowedJoin(hs, n.trace, b.trace, j);
        FollowedBehind(hs, NextCalled(i), n.trace + b.trace, j);
      }
    case Abort(k) =>
      BodyIsFollowed(hs, i, k, c.(aborted := true), j);
      FollowedBehind(hs, AbortCalled(i), RunBody(hs, i, k, c.(aborted := true)).trace, j);
    case SetMessage(m, k) =>
      BodyIsFollowed(hs, i, k, c.(msg := m), j);
      FollowedBehind(hs, Replaced(i, m), RunBody(hs, i, k, c.(msg := m)).trace, j);
    case If(test, yes, no) =>
      var k := if test(c.msg) then yes else no;
      BodyIsFollowed(hs, i, k, c, j);
      FollowedBehind(hs, Looked(i, c.msg), RunBody(hs, i, k, c).trace, j);
  }

  // --------------------------------------------------------------- the theorem

  /** The run of a chain from its first handler, as Execute starts it. */
  function RunChain(hs: seq<Handler>, m: Message): Outcome {
    RunNext(hs, Cursor(0, false, m))
  }

  /**
   For chains of any handlers: handlers are entered as an in-order prefix of the
   chain, each once; a handler starts exactly when Execute or a Next call is due to
   start it, that is, when the request is not aborted and handlers remain; entering
   and leaving are well nested, every event belonging to the innermost open handler;
   nothing is entered after an Abort; a panic is followed by unwinding only; every
   entered handler does what its program says, step by step, up to its end or to a
   panic, its own or one that comes back from Next; and without a panic every entered
   handler, however far upstream, runs its whole program.
   */
  lemma ChainDiscipline(hs: seq<Handler>, m: Message)
    ensures var r := RunChain(hs, m);
            && r.cursor.index <= |hs|
            && Entered(r.trace) == Range(0, r.cursor.index)
            && Replay(r.trace, |hs|, Schedule(0, false, m, 0 < |hs|)) == Some(At(r.cursor))
            && Nest(r.trace, []) == Some([])
            && QuietAfterAbort(r.trace, false)
            && PanicShape(r.trace, r.panicked)
            && (forall j :: 0 <= j < r.cursor.index ==> Followed(hs, r.trace, j))
            && (!r.panicked ==> forall j :: 0 <= j < r.cursor.index ==> Completed(hs, r.trace, j))
  {
    var c := Cursor(0, false, m);
    NextEntersInOrder(hs, c);
    NextFollowsSchedule(hs, c);
    NextIsNested(hs, c, []);
    NextIsDisciplined(hs, c);
    var r := RunChain(hs, m);
    forall j | 0 <= j < r.cursor.index ensures Followed(hs, r.trace, j) {
      NextIsFollowed(hs, c, j);
    }
    if !r.panicked {
      forall j | 0 <= j < r.cursor.index ensures Completed(hs, r.trace, j) {
        NextCompletes(hs, c, j);
      }
    }
  }
}
