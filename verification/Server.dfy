/**
 The server's control flow (knet/server.go, knet/connmanager.go and the stop body
 of knet/connection.go): the accept loop, registration under a limit, the stop
 bodies of connections, ClearConn, and Shutdown, interleaved in every order.
 Counter updates and map operations are single steps.
 */
module Server {
  import opened Common

  datatype Listener = Unpublished | Open | Shut

  /** Where the accept loop stands; ids come from the server's counter. */
  datatype AcceptPc =
    | Accepting
    | Got                    // Accept returned a connection
    | Adding(id: nat)        // wrapped, about to be registered
    | Counting(id: nat)      // registered, connsTotal.Inc next
    | Activating(id: nat)    // connsActive.Inc next, then Start
    | Rejecting              // the manager was full
    | LoopDone

  /** Shutdown; `seen` tells whether it found a published listener. */
  datatype ShutPc =
    | NotCalled
    | ClosingListener(seen: bool)
    | Snapshotting(seen: bool)
    | Draining(seen: bool)
    | ReturnedNil(seen: bool)
    | TimedOut(seen: bool)

  datatype Books = Books(accepted: int, total: int, rejected: int, active: int, closed: int)

  /** Connection ids by what has happened to them. */
  datatype Ids = Ids(
    last: nat,                // the id counter
    added: set<nat>,          // ever registered
    registered: set<nat>,     // in the manager's map
    begun: set<nat>,          // stop body entered
    inactive: set<nat>,       // active.Dec done
    counted: set<nat>,        // closed.Inc done
    removed: set<nat>,        // stop body over
    cleared: set<nat>)        // swapped out of the map by a ClearConn

  datatype State = State(
    listener: Listener,
    accept: AcceptPc,
    books: Books,
    ids: Ids,
    shut: ShutPc,
    snapshot: set<nat>,       // what Shutdown's ClearConn found
    before: set<nat>,         // everything added before that
    others: set<nat>)         // swapped out by other ClearConn calls

  datatype Label =
    | Publish
    | Accept | NewConn | AddOk | AddFull | CountTotal | CountActive | CountRejected | AcceptFails
    | StopBegins(id: nat) | DecActive(id: nat) | IncClosed(id: nat) | Remove(id: nat)
    | OtherClear
    | ShutdownBegins | CloseListener | Snapshot | Drained | TimesOut

  const INIT := State(Unpublished, Accepting, Books(0, 0, 0, 0, 0),
                      Ids(0, {}, {}, {}, {}, {}, {}, {}), NotCalled, {}, {}, {})

  /** ConnManager.Add succeeds below a positive limit, or without one. */
  predicate HasPlace(maxConn: int, ids: Ids) {
    maxConn <= 0 || |ids.registered| < maxConn
  }

  predicate Enabled(maxConn: int, s: State, l: Label) {
    match l
    case Publish => s.listener == Unpublished
    case Accept => s.accept == Accepting && s.listener == Open
    case NewConn => s.accept == Got
    case AddOk => s.accept.Adding? && HasPlace(maxConn, s.ids)
    case AddFull => s.accept.Adding? && !HasPlace(maxConn, s.ids)
    case CountTotal => s.accept.Counting?
    case CountActive => s.accept.Activating?
    case CountRejected => s.accept.Rejecting?
    case AcceptFails => s.accept == Accepting && s.listener == Shut
    case StopBegins(id) => id in s.ids.added && id !in s.ids.begun
    case DecActive(id) => id in s.ids.begun && id !in s.ids.inactive
    case IncClosed(id) => id in s.ids.inactive && id !in s.ids.counted
    case Remove(id) => id in s.ids.counted && id !in s.ids.removed
    case OtherClear => true
    case ShutdownBegins => s.shut == NotCalled
    case CloseListener => s.shut.ClosingListener?
    case Snapshot => s.shut.Snapshotting?
    case Drained => s.shut.Draining? && s.snapshot <= s.ids.removed
    case TimesOut => s.shut.Draining?
  }

  function IdsStep(s: State, l: Label): Ids {
    var ids := s.ids;
    match l
    case NewConn => ids.(last := ids.last + 1)
    case AddOk =>
      if s.accept.Adding? then
        ids.(added := ids.added + {s.accept.id}, registered := ids.registered + {s.accept.id})
      else ids
    case StopBegins(id) => ids.(begun := ids.begun + {id})
    case DecActive(id) => ids.(inactive := ids.inactive + {id})
    case IncClosed(id) => ids.(counted := ids.counted + {id})
    case Remove(id) => ids.(removed := ids.removed + {id}, registered := ids.registered - {id})
    case OtherClear => ids.(registered := {}, cleared := ids.cleared + ids.registered)
    case Snapshot => ids.(registered := {}, cleared := ids.cleared + ids.registered)
    case _ => ids
  }

  function BooksStep(b: Books, l: Label): Books {
    match l
    case Accept => b.(accepted := b.accepted + 1)
    case CountTotal => b.(total := b.total + 1)
    case CountActive => b.(active := b.active + 1)
    case CountRejected => b.(rejected := b.rejected + 1)
    case DecActive(_) => b.(active := b.active - 1)
    case IncClosed(_) => b.(closed := b.closed + 1)
    case _ => b
  }

  function AcceptStep(s: State, l: Label): AcceptPc {
    match l
    case Accept => Got
    case NewConn => Adding(s.ids.last + 1)
    case AddOk => if s.accept.Adding? then Counting(s.accept.id) else s.accept
    case AddFull => Rejecting
    case CountTotal => if s.accept.Counting? then Activating(s.accept.id) else s.accept
    case CountActive => Accepting
    case CountRejected => Accepting
    case AcceptFails => LoopDone
    case _ => s.accept
  }

  function ShutStep(s: State, l: Label): ShutPc {
    match l
    case ShutdownBegins => ClosingListener(s.listener != Unpublished)
    case CloseListener => if s.shut.ClosingListener? then Snapshotting(s.shut.seen) else s.shut
    case Snapshot => if s.shut.Snapshotting? then Draining(s.shut.seen) else s.shut
    case Drained => if s.shut.Draining? then ReturnedNil(s.shut.seen) else s.shut
    case TimesOut => if s.shut.Draining? then TimedOut(s.shut.seen) else s.shut
    case _ => s.shut
  }

  function Step(maxConn: int, s: State, l: Label): State
    requires Enabled(maxConn, s, l)
  {
    var listener :=
      if l == Publish then Open
      else if l == CloseListener && s.shut.seen then Shut else s.listener;
    State(listener, AcceptStep(s, l), BooksStep(s.books, l), IdsStep(s, l), ShutStep(s, l),
          if l == Snapshot then s.ids.registered else s.snapshot,
          if l == Snapshot then s.ids.added else s.before,
          if l == OtherClear then s.others + s.ids.registered else s.others)
  }

  function Machine(maxConn: int): (State, Label) -> Option<State> {
    (s, l) => if Enabled(maxConn, s, l) then Some(Step(maxConn, s, l)) else None
  }

  function After(maxConn: int, s: State, run: seq<Label>): Option<State> { Run(Machine(maxConn), s, run) }

  // ------------------------------------------------------------- registration

  predicate Nested(s: State) {
    var ids := s.ids;
    && ids.removed <= ids.counted <= ids.inactive <= ids.begun <= ids.added
    && ids.cleared <= ids.added
    && ids.registered == ids.added - ids.removed - ids.cleared
  }

  predicate FreshIds(s: State) {
    && (forall id :: id in s.ids.added ==> id <= s.ids.last)
    && (s.accept.Adding? ==> s.accept.id == s.ids.last && s.accept.id !in s.ids.added)
  }

  predicate IdsOk(maxConn: int, s: State) {
    Nested(s) && FreshIds(s) && (maxConn > 0 ==> |s.ids.registered| <= maxConn)
  }

  lemma StepKeepsStages(maxConn: int, s: State, l: Label)
    requires Nested(s) && Enabled(maxConn, s, l)
    ensures var ids := Step(maxConn, s, l).ids;
            ids.removed <= ids.counted <= ids.inactive <= ids.begun <= ids.added
  {
    match l
    case AddOk =>
    case _ =>
  }

  lemma StepKeepsRegistered(maxConn: int, s: State, l: Label)
    requires Nested(s) && FreshIds(s) && Enabled(maxConn, s, l)
    ensures var ids := Step(maxConn, s, l).ids;
            ids.registered == ids.added - ids.removed - ids.cleared && ids.cleared <= ids.added
  {
    var ids := Step(maxConn, s, l).ids;
    if l.AddOk? {
      var id := s.accept.id;
      assert id !in s.ids.removed && id !in s.ids.cleared;
      assert ids == s.ids.(added := s.ids.added + {id}, registered := s.ids.registered + {id});
    } else if l.Remove? {
      assert ids == s.ids.(removed := s.ids.removed + {l.id}, registered := s.ids.registered - {l.id});
    } else if l.OtherClear? || l.Snapshot? {
      assert ids == s.ids.(registered := {}, cleared := s.ids.cleared + s.ids.registered);
    } else {
      assert ids.registered == s.ids.registered && ids.added == s.ids.added;
      assert ids.removed == s.ids.removed && ids.cleared == s.ids.cleared;
    }
  }

  lemma StepKeepsFreshIds(maxConn: int, s: State, l: Label)
    requires FreshIds(s) && Enabled(maxConn, s, l)
    ensures FreshIds(Step(maxConn, s, l))
  {
    var t := Step(maxConn, s, l);
    assert l.AddOk? ==> t.ids.added == s.ids.added + {s.accept.id};
    assert !l.AddOk? ==> t.ids.added == s.ids.added;
  }

  lemma StepKeepsLimit(maxConn: int, s: State, l: Label)
    requires Nested(s) && FreshIds(s) && Enabled(maxConn, s, l)
    requires maxConn > 0 && |s.ids.registered| <= maxConn
    ensures |Step(maxConn, s, l).ids.registered| <= maxConn
  {
    var r, r' := s.ids.registered, Step(maxConn, s, l).ids.registered;
    if l.AddOk? {
      assert r' == r + {s.accept.id} && |r'| == |r| + 1;
    } else {
      assert r' <= r;
      SubsetSize(r', r);
    }
  }

  lemma StepKeepsIdsOk(maxConn: int, s: State, l: Label)
    requires IdsOk(maxConn, s) && Enabled(maxConn, s, l)
    ensures IdsOk(maxConn, Step(maxConn, s, l))
  {
    StepKeepsStages(maxConn, s, l);
    StepKeepsRegistered(maxConn, s, l);
    StepKeepsFreshIds(maxConn, s, l);
    if maxConn > 0 {
      StepKeepsLimit(maxConn, s, l);
    }
  }

  /**
   Ids are never reused: registering a connection finds no entry under its id, and
   no step other than ClearConn changes the entry of another connection.
   */
  lemma EntriesAreOwn(maxConn: int, s: State, l: Label, other: nat)
    requires IdsOk(maxConn, s) && Enabled(maxConn, s, l)
    requires !l.OtherClear? && !l.Snapshot?
    requires l.AddOk? ==> other != s.accept.id
    requires l.Remove? ==> other != l.id
    ensures l.AddOk? ==> s.accept.id !in s.ids.registered
    ensures other in Step(maxConn, s, l).ids.registered <==> other in s.ids.registered
  {
  }

  // --------------------------------------------------------------- accounting

  function One(b: bool): int { if b then 1 else 0 }

  predicate BooksOk(s: State) {
    var b, ids, pc := s.books, s.ids, s.accept;
    && b.accepted == b.total + b.rejected + One(pc.Got? || pc.Adding? || pc.Counting? || pc.Rejecting?)
    && b.total == |ids.added| - One(pc.Counting?)
    && b.active == |ids.added| - One(pc.Counting? || pc.Activating?) - |ids.inactive|
    && b.closed == |ids.counted|
  }

  lemma StepKeepsBooksOk(maxConn: int, s: State, l: Label)
    requires IdsOk(maxConn, s) && BooksOk(s) && Enabled(maxConn, s, l)
    ensures BooksOk(Step(maxConn, s, l))
  {
    var ids, ids' := s.ids, IdsStep(s, l);
    match l
    case AddOk => assert |ids'.added| == |ids.added| + 1;
    case DecActive(id) => assert |ids'.inactive| == |ids.inactive| + 1;
    case IncClosed(id) => assert |ids'.counted| == |ids.counted| + 1;
    case _ =>
  }

  /** No accept is between Accept and its last counter, no stop body or ClearConn is under way. */
  predicate Settled(s: State) {
    && (s.accept == Accepting || s.accept == LoopDone)
    && s.ids.begun == s.ids.removed && s.ids.cleared <= s.ids.removed
  }

  lemma SettledBooks(maxConn: int, s: State)
    requires IdsOk(maxConn, s) && BooksOk(s) && Settled(s)
    ensures s.books.active == s.books.total - s.books.closed == |s.ids.registered|
  {
    var ids := s.ids;
    assert ids.counted == ids.removed && ids.inactive == ids.removed;
    assert ids.registered == ids.added - ids.removed;
    assert |ids.added - ids.removed| == |ids.added| - |ids.removed|;
  }

  lemma {:induction false} RunKeepsBooks(maxConn: int, s: State, run: seq<Label>)
    requires IdsOk(maxConn, s) && BooksOk(s) && After(maxConn, s, run).Some?
    ensures IdsOk(maxConn, After(maxConn, s, run).value) && BooksOk(After(maxConn, s, run).value)
    decreases |run|
  {
    if run != [] {
      StepKeepsIdsOk(maxConn, s, run[0]);
      StepKeepsBooksOk(maxConn, s, run[0]);
      RunKeepsBooks(maxConn, Step(maxConn, s, run[0]), run[1..]);
    }
  }

  /**
   In every run: between accept iterations accepted = total + rejected; whenever
   nothing is under way, active = total - closed = number registered; and a
   positive limit is never exceeded.
   */
  lemma AccountingHolds(maxConn: int, run: seq<Label>)
    requires After(maxConn, INIT, run).Some?
    ensures var s := After(maxConn, INIT, run).value;
            && (s.accept == Accepting || s.accept == LoopDone ==> s.books.accepted == s.books.total + s.books.rejected)
            && (Settled(s) ==> s.books.active == s.books.total - s.books.closed == |s.ids.registered|)
            && (maxConn > 0 ==> |s.ids.registered| <= maxConn)
  {
    RunKeepsBooks(maxConn, INIT, run);
    var s := After(maxConn, INIT, run).value;
    if Settled(s) {
      SettledBooks(maxConn, s);
    }
  }

  function Count(run: seq<Label>, l: Label): nat {
    if run == [] then 0 else (if run[0] == l then 1 else 0) + Count(run[1..], l)
  }

  /** A connection that has been added and is yet to be counted. */
  function Uncounted(pc: AcceptPc): int { One(pc.Counting?) }

  function Unrefused(pc: AcceptPc): int { One(pc.Rejecting?) }

  /** The connections registered, by id, and the counters follow what happened in the run, one by one. */
  lemma {:induction false} BooksFollowTheRun(maxConn: int, s: State, run: seq<Label>)
    requires After(maxConn, s, run).Some?
    ensures var t := After(maxConn, s, run).value;
            && t.books.accepted == s.books.accepted + Count(run, Accept)
            && t.books.total + Uncounted(t.accept) == s.books.total + Uncounted(s.accept) + Count(run, AddOk)
            && t.books.rejected + Unrefused(t.accept) == s.books.rejected + Unrefused(s.accept) + Count(run, AddFull)
            && t.ids.last == s.ids.last + Count(run, NewConn)
    decreases |run|
  {
    if run != [] {
      BooksFollowTheRun(maxConn, Step(maxConn, s, run[0]), run[1..]);
    }
  }

  /** Between accept iterations: every Accept is counted, as a connection if it was added and as rejected if not. */
  lemma CountersCount(maxConn: int, run: seq<Label>)
    requires After(maxConn, INIT, run).Some?
    requires var pc := After(maxConn, INIT, run).value.accept; pc == Accepting || pc == LoopDone
    ensures var b := After(maxConn, INIT, run).value.books;
            b.accepted == Count(run, Accept) && b.total == Count(run, AddOk) && b.rejected == Count(run, AddFull)
  {
    BooksFollowTheRun(maxConn, INIT, run);
  }

  // ----------------------------------------------------------------- shutdown

  predicate Snapped(s: State) {
    s.shut.Draining? || s.shut.ReturnedNil? || s.shut.TimedOut?
  }

  /** Added since the snapshot of Shutdown's ClearConn. */
  function AddedSince(s: State): set<nat> { s.ids.added - s.before }

  /** The listener is closed exactly by a Shutdown that found it published. */
  predicate ListenerOk(s: State) {
    && (s.listener == Shut <==> (s.shut.Snapshotting? || Snapped(s)) && s.shut.seen)
    && (s.shut.ClosingListener? && s.shut.seen ==> s.listener == Open)
    && (s.accept == LoopDone ==> s.listener == Shut)
  }

  predicate ShutdownOk(s: State) {
    && ListenerOk(s)
    && (Snapped(s) && s.shut.seen ==> |AddedSince(s)| + One(s.accept.Got? || s.accept.Adding?) <= 1)
    && (Snapped(s) ==>
         && s.before <= s.ids.removed + s.snapshot + s.others
         && s.ids.registered !! s.before
         && s.before <= s.ids.added)
    && (s.shut.ReturnedNil? ==> s.snapshot <= s.ids.removed)
    && (!Snapped(s) ==> s.ids.cleared == s.others)
  }

  lemma StepKeepsListenerOk(maxConn: int, s: State, l: Label)
    requires ListenerOk(s) && Enabled(maxConn, s, l)
    ensures ListenerOk(Step(maxConn, s, l))
  {
  }

  lemma AtMostOneMore(maxConn: int, s: State, l: Label)
    requires IdsOk(maxConn, s) && ShutdownOk(s) && Enabled(maxConn, s, l)
    requires Snapped(Step(maxConn, s, l)) && s.shut.seen
    ensures var t := Step(maxConn, s, l);
            |AddedSince(t)| + One(t.accept.Got? || t.accept.Adding?) <= 1
  {
    var t := Step(maxConn, s, l);
    if l == AddOk {
      assert AddedSince(t) == AddedSince(s) + {s.accept.id};
    } else if l == Snapshot {
      assert AddedSince(t) == {};
    } else {
      assert AddedSince(t) == AddedSince(s);
    }
  }

  lemma StepKeepsShutdownOk(maxConn: int, s: State, l: Label)
    requires IdsOk(maxConn, s) && ShutdownOk(s) && Enabled(maxConn, s, l)
    ensures ShutdownOk(Step(maxConn, s, l))
  {
    var t := Step(maxConn, s, l);
    StepKeepsListenerOk(maxConn, s, l);
    if Snapped(t) && t.shut.seen {
      AtMostOneMore(maxConn, s, l);
    }
  }

  lemma {:induction false} RunKeepsShutdownOk(maxConn: int, s: State, run: seq<Label>)
    requires IdsOk(maxConn, s) && ShutdownOk(s) && After(maxConn, s, run).Some?
    ensures IdsOk(maxConn, After(maxConn, s, run).value) && ShutdownOk(After(maxConn, s, run).value)
    decreases |run|
  {
    if run != [] {
      StepKeepsIdsOk(maxConn, s, run[0]);
      StepKeepsShutdownOk(maxConn, s, run[0]);
      RunKeepsShutdownOk(maxConn, Step(maxConn, s, run[0]), run[1..]);
    }
  }

  /**
   If Shutdown found the listener published and returned nil: the listener is closed,
   every connection its ClearConn found has been stopped, so has every connection
   registered before (unless another ClearConn took it over), and at most one
   connection was ever added since, so at most one is still registered. Since nothing
   was accepted after the listener closed (`ShutdownStopsAcceptingIff`), that one had
   been accepted before.
   */
  lemma ShutdownLeavesAtMostOne(maxConn: int, run: seq<Label>)
    requires After(maxConn, INIT, run).Some?
    requires After(maxConn, INIT, run).value.shut == ReturnedNil(true)
    ensures var s := After(maxConn, INIT, run).value;
            && s.listener == Shut
            && s.snapshot <= s.ids.removed
            && s.before <= s.ids.removed + s.others
            && s.ids.registered <= AddedSince(s)
            && |AddedSince(s)| <= 1 && |s.ids.registered| <= 1
  {
    RunKeepsShutdownOk(maxConn, INIT, run);
    var s := After(maxConn, INIT, run).value;
    SubsetSize(s.ids.registered, AddedSince(s));
  }

  // ------------------------------------------------- when acceptance really stops

  /** No continuation accepts another connection. */
  ghost predicate NoMoreAccepts(maxConn: int, s: State) {
    forall run :: After(maxConn, s, run).Some? ==> After(maxConn, s, run).value.books.accepted == s.books.accepted
  }

  lemma {:induction false} ClosedListenerAcceptsNothing(maxConn: int, s: State, run: seq<Label>)
    requires s.listener == Shut && After(maxConn, s, run).Some?
    ensures var t := After(maxConn, s, run).value; t.listener == Shut && t.books.accepted == s.books.accepted
    decreases |run|
  {
    if run != [] {
      ClosedListenerAcceptsNothing(maxConn, Step(maxConn, s, run[0]), run[1..]);
    }
  }

  /** How far the accept loop is from its next Accept. */
  function Distance(pc: AcceptPc): nat {
    match pc
    case Accepting => 0 case Activating(_) => 1 case Rejecting => 1 case Counting(_) => 2
    case Adding(_) => 3 case Got => 4 case LoopDone => 5
  }

  function NextOfLoop(maxConn: int, s: State): Label {
    match s.accept
    case Got => NewConn
    case Adding(_) => if HasPlace(maxConn, s.ids) then AddOk else AddFull
    case Counting(_) => CountTotal
    case Activating(_) => CountActive
    case Rejecting => CountRejected
    case Accepting => if s.listener == Unpublished then Publish else Accept
    case LoopDone => OtherClear
  }

  /** As long as the listener is not closed the accept loop can get to another Accept. */
  lemma {:induction false} CanAcceptMore(maxConn: int, s: State) returns (run: seq<Label>)
    requires s.listener != Shut && s.accept != LoopDone
    ensures After(maxConn, s, run).Some? && After(maxConn, s, run).value.books.accepted == s.books.accepted + 1
    decreases Distance(s.accept), One(s.listener == Unpublished)
  {
    var l := NextOfLoop(maxConn, s);
    var rest := [];
    if l != Accept {
      rest := CanAcceptMore(maxConn, Step(maxConn, s, l));
    }
    RunCons(Machine(maxConn), s, l, rest);
    run := [l] + rest;
  }

  lemma NoMoreAcceptsIff(maxConn: int, s: State)
    requires ListenerOk(s)
    ensures NoMoreAccepts(maxConn, s) <==> s.listener == Shut
  {
    if s.listener == Shut {
      forall run | After(maxConn, s, run).Some?
        ensures After(maxConn, s, run).value.books.accepted == s.books.accepted
      {
        ClosedListenerAcceptsNothing(maxConn, s, run);
      }
    } else {
      var run := CanAcceptMore(maxConn, s);
    }
  }

  lemma {:induction false} SeenIsKept(maxConn: int, s: State, run: seq<Label>)
    requires s.shut != NotCalled && After(maxConn, s, run).Some?
    ensures var t := After(maxConn, s, run).value; t.shut != NotCalled && t.shut.seen == s.shut.seen
    decreases |run|
  {
    if run != [] {
      SeenIsKept(maxConn, Step(maxConn, s, run[0]), run[1..]);
    }
  }

  /**
   What Shutdown promises, exactly: for every limit and every run, a Shutdown that
   returned nil has closed the listener, and no connection is accepted ever after, if
   and only if the listener was already published when Shutdown was called.
   */
  lemma ShutdownStopsAcceptingIff(maxConn: int, run: seq<Label>, later: seq<Label>)
    requires After(maxConn, INIT, run).Some? && After(maxConn, INIT, run).value.shut == NotCalled
    requires var s := Step(maxConn, After(maxConn, INIT, run).value, ShutdownBegins);
             After(maxConn, s, later).Some? && After(maxConn, s, later).value.shut.ReturnedNil?
    ensures var called := After(maxConn, INIT, run).value;
            var end := After(maxConn, Step(maxConn, called, ShutdownBegins), later).value;
            && (end.listener == Shut <==> called.listener != Unpublished)
            && (NoMoreAccepts(maxConn, end) <==> called.listener != Unpublished)
  {
    var called := After(maxConn, INIT, run).value;
    var s := Step(maxConn, called, ShutdownBegins);
    RunKeepsShutdownOk(maxConn, INIT, run);
    StepKeepsIdsOk(maxConn, called, ShutdownBegins);
    StepKeepsShutdownOk(maxConn, called, ShutdownBegins);
    RunKeepsShutdownOk(maxConn, s, later);
    SeenIsKept(maxConn, s, later);
    NoMoreAcceptsIff(maxConn, After(maxConn, s, later).value);
  }

  // ------------------------------------------------------------------ witnesses

  /** A connection accepted but not yet added when Shutdown begins; `shut` and `listener` as it goes on. */
  function CaughtAdding(listener: Listener, shut: ShutPc): State {
    State(listener, Adding(1), Books(1, 0, 0, 0, 0), Ids(1, {}, {}, {}, {}, {}, {}, {}), shut, {}, {}, {})
  }

  /** `run`, which leads from `t` to `end`, preceded by `l`, which leads from `s` to `t`. */
  lemma Precede(maxConn: int, s: State, l: Label, t: State, run: seq<Label>, end: State)
    requires Enabled(maxConn, s, l) && Step(maxConn, s, l) == t && After(maxConn, t, run) == Some(end)
    ensures After(maxConn, s, [l] + run) == Some(end)
  {
    RunCons(Machine(maxConn), s, l, run);
  }

  lemma CatchAdding(maxConn: int, rest: seq<Label>, end: State) returns (run: seq<Label>)
    requires After(maxConn, CaughtAdding(Open, ClosingListener(true)), rest) == Some(end)
    ensures After(maxConn, INIT, run) == Some(end)
  {
    var s1 := INIT.(listener := Open);
    var s2 := s1.(accept := Got, books := Books(1, 0, 0, 0, 0));
    var s3 := CaughtAdding(Open, NotCalled);
    Precede(maxConn, s3, ShutdownBegins, CaughtAdding(Open, ClosingListener(true)), rest, end);
    run := [ShutdownBegins] + rest;
    Precede(maxConn, s2, NewConn, s3, run, end);
    run := [NewConn] + run;
    Precede(maxConn, s1, Accept, s2, run, end);
    run := [Accept] + run;
    Precede(maxConn, INIT, Publish, s1, run, end);
    run := [Publish] + run;
  }

  lemma ShutdownReturns(maxConn: int, rest: seq<Label>, end: State) returns (run: seq<Label>)
    requires After(maxConn, CaughtAdding(Shut, ReturnedNil(true)), rest) == Some(end)
    ensures After(maxConn, CaughtAdding(Open, ClosingListener(true)), run) == Some(end)
  {
    Precede(maxConn, CaughtAdding(Shut, Draining(true)), Drained, CaughtAdding(Shut, ReturnedNil(true)), rest, end);
    run := [Drained] + rest;
    Precede(maxConn, CaughtAdding(Shut, Snapshotting(true)), Snapshot, CaughtAdding(Shut, Draining(true)), run, end);
    run := [Snapshot] + run;
    Precede(maxConn, CaughtAdding(Open, ClosingListener(true)), CloseListener,
            CaughtAdding(Shut, Snapshotting(true)), run, end);
    run := [CloseListener] + run;
  }

  /** Such a connection exists, for every limit: accepted before the listener closed, added after the snapshot. */
  lemma OneCanRemain(maxConn: int) returns (run: seq<Label>)
    ensures var end := After(maxConn, INIT, run);
            end.Some? && end.value.shut == ReturnedNil(true) && end.value.ids.registered == {1}
  {
    var end := Step(maxConn, CaughtAdding(Shut, ReturnedNil(true)), AddOk);
    Precede(maxConn, CaughtAdding(Shut, ReturnedNil(true)), AddOk, end, [], end);
    var rest := ShutdownReturns(maxConn, [AddOk] + [], end);
    run := CatchAdding(maxConn, rest, end);
  }

  /** How many of `n` accepted connections a limit admits. */
  function Admitted(maxConn: int, n: nat): nat {
    if maxConn <= 0 || n <= maxConn then n else maxConn
  }

  function UpTo(n: nat): set<nat> {
    if n == 0 then {} else UpTo(n - 1) + {n}
  }

  /** A server whose Shutdown has returned nil and that goes on accepting: `n` connections so far. */
  function Serving(maxConn: int, n: nat): State {
    var k := Admitted(maxConn, n);
    State(Open, Accepting, Books(n, k, n - k, k, 0), Ids(n, UpTo(k), UpTo(k), {}, {}, {}, {}, {}),
          ReturnedNil(false), {}, {}, {})
  }

  lemma {:induction false} UpToSize(n: nat)
    ensures |UpTo(n)| == n && forall i :: i in UpTo(n) ==> i <= n
    decreases n
  {
    if n > 0 { UpToSize(n - 1); }
  }

  lemma Admits(maxConn: int, s: State, end: State) returns (run: seq<Label>)
    requires s.accept.Adding? && HasPlace(maxConn, s.ids)
    requires end == s.(accept := Accepting,
                       books := s.books.(total := s.books.total + 1, active := s.books.active + 1),
                       ids := s.ids.(added := s.ids.added + {s.accept.id},
                                     registered := s.ids.registered + {s.accept.id}))
    ensures After(maxConn, s, run) == Some(end)
  {
    var s1 := Step(maxConn, s, AddOk);
    var s2 := Step(maxConn, s1, CountTotal);
    Precede(maxConn, s2, CountActive, end, [], end);
    run := [CountActive] + [];
    Precede(maxConn, s1, CountTotal, s2, run, end);
    run := [CountTotal] + run;
    Precede(maxConn, s, AddOk, s1, run, end);
    run := [AddOk] + run;
  }

  lemma Rejects(maxConn: int, s: State, end: State) returns (run: seq<Label>)
    requires s.accept.Adding? && !HasPlace(maxConn, s.ids)
    requires end == s.(accept := Accepting, books := s.books.(rejected := s.books.rejected + 1))
    ensures After(maxConn, s, run) == Some(end)
  {
    var s1 := Step(maxConn, s, AddFull);
    Precede(maxConn, s1, CountRejected, end, [], end);
    run := [CountRejected] + [];
    Precede(maxConn, s, AddFull, s1, run, end);
    run := [AddFull] + run;
  }

  /** The next connection has been accepted and wrapped. */
  function Offered(s: State): State {
    s.(accept := Adding(s.ids.last + 1), books := s.books.(accepted := s.books.accepted + 1),
       ids := s.ids.(last := s.ids.last + 1))
  }

  lemma Offers(maxConn: int, s: State, rest: seq<Label>, end: State) returns (run: seq<Label>)
    requires s.accept == Accepting && s.listener == Open && After(maxConn, Offered(s), rest) == Some(end)
    ensures After(maxConn, s, run) == Some(end)
  {
    var s1 := Step(maxConn, s, Accept);
    Precede(maxConn, s1, NewConn, Offered(s), rest, end);
    run := [NewConn] + rest;
    Precede(maxConn, s, Accept, s1, run, end);
    run := [Accept] + run;
  }

  lemma ServingHasPlace(maxConn: int, n: nat)
    ensures HasPlace(maxConn, Offered(Serving(maxConn, n)).ids) <==> maxConn <= 0 || n < maxConn
  {
    UpToSize(Admitted(maxConn, n));
  }

  /** Another connection is accepted, and registered or rejected. */
  lemma ServesAnother(maxConn: int, n: nat) returns (run: seq<Label>)
    ensures After(maxConn, Serving(maxConn, n), run) == Some(Serving(maxConn, n + 1))
  {
    var end := Serving(maxConn, n + 1);
    ServingHasPlace(maxConn, n);
    var s := Offered(Serving(maxConn, n));
    if maxConn <= 0 || n < maxConn {
      run := Admits(maxConn, s, end);
    } else {
      run := Rejects(maxConn, s, end);
    }
    run := Offers(maxConn, Serving(maxConn, n), run, end);
  }

  lemma Follow(maxConn: int, s: State, a: seq<Label>, t: State, b: seq<Label>, u: State)
    requires After(maxConn, s, a) == Some(t) && After(maxConn, t, b) == Some(u)
    ensures After(maxConn, s, a + b) == Some(u)
  {
    RunAppend(Machine(maxConn), s, a, t, b);
  }

  lemma {:induction false} ServesMany(maxConn: int, n: nat) returns (run: seq<Label>)
    ensures After(maxConn, Serving(maxConn, 0), run) == Some(Serving(maxConn, n))
    decreases n
  {
    run := [];
    if n > 0 {
      var front := ServesMany(maxConn, n - 1);
      var one := ServesAnother(maxConn, n - 1);
      Follow(maxConn, Serving(maxConn, 0), front, Serving(maxConn, n - 1), one, Serving(maxConn, n));
      run := front + one;
    }
  }

  /** Shutdown has been called before the listener was published. */
  function Early(shut: ShutPc): State { INIT.(shut := shut) }

  lemma EarlyShutdownReturns(maxConn: int, rest: seq<Label>, end: State) returns (run: seq<Label>)
    requires After(maxConn, Serving(maxConn, 0), rest) == Some(end)
    ensures After(maxConn, INIT, run) == Some(end)
  {
    Precede(maxConn, Early(ReturnedNil(false)), Publish, Serving(maxConn, 0), rest, end);
    run := [Publish] + rest;
    Precede(maxConn, Early(Draining(false)), Drained, Early(ReturnedNil(false)), run, end);
    run := [Drained] + run;
    Precede(maxConn, Early(Snapshotting(false)), Snapshot, Early(Draining(false)), run, end);
    run := [Snapshot] + run;
    Precede(maxConn, Early(ClosingListener(false)), CloseListener, Early(Snapshotting(false)), run, end);
    run := [CloseListener] + run;
    Precede(maxConn, INIT, ShutdownBegins, Early(ClosingListener(false)), run, end);
    run := [ShutdownBegins] + run;
  }

  /**
   The hypothesis on the listener is needed, for every limit: a Shutdown called before
   the listener is published closes nothing and returns nil, any number of connections
   are accepted afterwards, and as many stay registered as the limit admits.
   */
  lemma EarlyShutdownStopsNothing(maxConn: int, n: nat) returns (run: seq<Label>)
    ensures var end := After(maxConn, INIT, run);
            && end.Some? && end.value.shut.ReturnedNil? && end.value.books.accepted == n
            && |end.value.ids.registered| == Admitted(maxConn, n)
  {
    var rest := ServesMany(maxConn, n);
    UpToSize(Admitted(maxConn, n));
    run := EarlyShutdownReturns(maxConn, rest, Serving(maxConn, n));
  }
}
