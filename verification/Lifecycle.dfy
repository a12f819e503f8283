/**
 The life of one connection (knet/connection.go) as interleaved goroutines over
 shared state: the goroutine that runs Start, any number of goroutines that call
 Stop, the reader, the writer, and the `sync.Once` body that whoever comes first
 executes. Atomics, mutexes, channels and the WaitGroup act as single steps.

 Labels are either internal (a goroutine can take them whenever they are enabled)
 or external (a new call, data or failures coming from the peer).
 */
module Lifecycle {
  import opened Common

  datatype Phase = Created | Running | Closed

  datatype Owner = Free | ByStart | ByBody

  /** Where the goroutine that won the created-to-running swap stands in Start. */
  datatype StartPc =
    | Uncalled | CloneHb | BindHb | LockHb | Decide | StartHb | DropHb | UnlockHb
    | MarkStarted | GoReader | GoWriter | CallHook | StartDone

  /** Where the stop body stands; `StopBeat(had)` holds the heartbeat it took, if any. */
  datatype BodyPc =
    | SetClosed | CallStopHook | LockBeat | TakeBeat | StopBeat(had: bool)
    | Count | CloseConn | CloseDone | Deregister

  datatype Thread = ReaderThread | WriterThread | CallerThread(i: nat)

  datatype Once = NotRun | Body(pc: BodyPc, runner: Thread) | Finished

  datatype ReaderPc = NoReader | Reading | Dispatching | Leaving | ReaderInBody | ReaderExit | ReaderGone

  datatype WriterPc = NoWriter | Selecting | Writing | Failing | WriterInBody | WriterExit | WriterGone

  /** A call of Stop; `Returned(waited)` tells whether it waited for the goroutines. */
  datatype CallerPc = Entering | InBody | CheckStarted | WaitGroup | Returned(waited: bool)

  datatype Hook = StartHook | StopHook

  /** What the handover of the heartbeat is about: Start, the stop body and what they share. */
  datatype Core = Core(
    phase: Phase,
    hb: bool,               // c.hb != nil
    beating: bool,          // the cloned heartbeat is started
    lock: Owner,            // hbMu
    start: StartPc,
    once: Once)

  datatype Conn = Conn(
    core: Core,
    reader: ReaderPc,
    writer: WriterPc,
    callers: seq<CallerPc>,
    wg: int,
    started: bool,
    open: bool,             // the socket
    done: bool,             // the done channel is closed
    bodies: nat,            // executions of the stop body
    hooks: seq<Hook>)

  datatype Label =
    // internal
    | StartStep | BodyStep | ReaderStep | WriterStep | CallerStep(i: nat)
    // external
    | CallStart(template: bool) | CallStop | Receive | ReadFails | TakeData | WriteOk | WriteFails

  /** NewConnection counts both goroutines up front. */
  const FRESH := Conn(Core(Created, false, false, Free, Uncalled, NotRun),
                      NoReader, NoWriter, [], 2, false, true, false, 0, [])

  predicate Internal(l: Label) {
    l.StartStep? || l.BodyStep? || l.ReaderStep? || l.WriterStep? || l.CallerStep?
  }

  // ------------------------------------------------------ Start and stop body

  predicate StartReady(k: Core) {
    && k.start != Uncalled && k.start != StartDone
    && (k.start == BindHb || k.start == LockHb ==> k.lock == Free)
  }

  predicate BodyReady(k: Core) {
    k.once.Body? && (k.once.pc == LockBeat ==> k.lock == Free)
  }

  /** `closeOnce.Do` proceeds unless another goroutine is inside the body. */
  predicate CanDo(k: Core) { !k.once.Body? }

  function CoreStart(k: Core): Core
    requires StartReady(k)
  {
    match k.start
    case CloneHb => k.(start := BindHb)
    case BindHb => k.(hb := true, start := LockHb)
    case LockHb => k.(lock := ByStart, start := Decide)
    case Decide => k.(start := if k.phase == Running then StartHb else DropHb)
    case StartHb => k.(beating := true, start := UnlockHb)
    case DropHb => k.(hb := false, start := UnlockHb)
    case UnlockHb => k.(lock := Free, start := MarkStarted)
    case MarkStarted => k.(start := GoReader)
    case GoReader => k.(start := GoWriter)
    case GoWriter => k.(start := CallHook)
    case CallHook => k.(start := StartDone)
  }

  function CoreBody(k: Core): Core
    requires BodyReady(k)
  {
    var runner := k.once.runner;
    match k.once.pc
    case SetClosed => k.(phase := Closed, once := Body(CallStopHook, runner))
    case CallStopHook => k.(once := Body(LockBeat, runner))
    case LockBeat => k.(lock := ByBody, once := Body(TakeBeat, runner))
    case TakeBeat => k.(hb := false, lock := Free, once := Body(StopBeat(k.hb), runner))
    case StopBeat(had) => k.(beating := k.beating && !had, once := Body(Count, runner))
    case Count => k.(once := Body(CloseConn, runner))
    case CloseConn => k.(once := Body(CloseDone, runner))
    case CloseDone => k.(once := Body(Deregister, runner))
    case Deregister => k.(once := Finished)
  }

  function CoreEnter(k: Core, runner: Thread): Core {
    k.(once := Body(SetClosed, runner))
  }

  function CoreCallStart(k: Core, template: bool): Core {
    k.(phase := Running, start := if template then CloneHb else MarkStarted)
  }

  // ----------------------------------------------------------------- all steps

  predicate Enabled(c: Conn, l: Label) {
    match l
    case StartStep => StartReady(c.core)
    case BodyStep => BodyReady(c.core)
    case ReaderStep =>
      || c.reader == Dispatching || c.reader == ReaderExit
      || (c.reader == Reading && !c.open) || (c.reader == Leaving && CanDo(c.core))
    case WriterStep =>
      || c.writer == WriterExit || (c.writer == Selecting && c.done)
      || (c.writer == Writing && !c.open) || (c.writer == Failing && CanDo(c.core))
    case CallerStep(i) =>
      && i < |c.callers|
      && match c.callers[i] {
           case Entering => CanDo(c.core)
           case CheckStarted => true
           case WaitGroup => c.wg == 0
           case _ => false
         }
    case CallStart(_) => c.core.start == Uncalled && c.core.phase == Created
    case CallStop => true
    case Receive => c.reader == Reading && c.open
    case ReadFails => c.reader == Reading
    case TakeData => c.writer == Selecting
    case WriteOk => c.writer == Writing && c.open
    case WriteFails => c.writer == Writing
  }

  function StartNext(c: Conn): Conn
    requires StartReady(c.core)
  {
    var pc := c.core.start;
    c.(core := CoreStart(c.core),
       started := c.started || pc == MarkStarted,
       reader := if pc == GoReader then Reading else c.reader,
       writer := if pc == GoWriter then Selecting else c.writer,
       hooks := if pc == CallHook then c.hooks + [StartHook] else c.hooks)
  }

  /** The caller that ran the body carries on after closeOnce.Do. */
  function ResumeCaller(callers: seq<CallerPc>, runner: Thread): seq<CallerPc> {
    if runner.CallerThread? && runner.i < |callers| then callers[runner.i := CheckStarted] else callers
  }

  /** With its last step the goroutine that ran the body carries on. */
  function BodyNext(c: Conn): Conn
    requires BodyReady(c.core)
  {
    var pc, runner := c.core.once.pc, c.core.once.runner;
    c.(core := CoreBody(c.core),
       hooks := if pc == CallStopHook then c.hooks + [StopHook] else c.hooks,
       open := c.open && pc != CloseConn,
       done := c.done || pc == CloseDone,
       reader := if pc == Deregister && runner == ReaderThread then ReaderExit else c.reader,
       writer := if pc == Deregister && runner == WriterThread then WriterExit else c.writer,
       callers := if pc == Deregister then ResumeCaller(c.callers, runner) else c.callers)
  }

  /** `runner` is the first to arrive at closeOnce.Do. */
  function Enter(c: Conn, runner: Thread): Conn {
    c.(core := CoreEnter(c.core, runner), bodies := c.bodies + 1)
  }

  function ReaderNext(c: Conn): Conn
    requires Enabled(c, ReaderStep)
  {
    match c.reader
    case Dispatching => c.(reader := Reading)
    case Reading => c.(reader := Leaving)
    case Leaving =>
      if c.core.once == NotRun then Enter(c, ReaderThread).(reader := ReaderInBody) else c.(reader := ReaderExit)
    case ReaderExit => c.(reader := ReaderGone, wg := c.wg - 1)
  }

  function WriterNext(c: Conn): Conn
    requires Enabled(c, WriterStep)
  {
    match c.writer
    case Selecting => c.(writer := WriterExit)
    case Writing => c.(writer := Failing)
    case Failing =>
      if c.core.once == NotRun then Enter(c, WriterThread).(writer := WriterInBody) else c.(writer := WriterExit)
    case WriterExit => c.(writer := WriterGone, wg := c.wg - 1)
  }

  function CallerNext(c: Conn, i: nat): Conn
    requires Enabled(c, CallerStep(i))
  {
    match c.callers[i]
    case Entering =>
      if c.core.once == NotRun then Enter(c, CallerThread(i)).(callers := c.callers[i := InBody])
      else c.(callers := c.callers[i := CheckStarted])
    case CheckStarted => c.(callers := c.callers[i := if c.started then WaitGroup else Returned(false)])
    case WaitGroup => c.(callers := c.callers[i := Returned(true)])
  }

  function Step(c: Conn, l: Label): Conn
    requires Enabled(c, l)
  {
    match l
    case StartStep => StartNext(c)
    case BodyStep => BodyNext(c)
    case ReaderStep => ReaderNext(c)
    case WriterStep => WriterNext(c)
    case CallerStep(i) => CallerNext(c, i)
    case CallStart(template) => c.(core := CoreCallStart(c.core, template))
    case CallStop => c.(callers := c.callers + [Entering])
    case Receive => c.(reader := Dispatching)
    case ReadFails => c.(reader := Leaving)
    case TakeData => c.(writer := Writing)
    case WriteOk => c.(writer := Selecting)
    case WriteFails => c.(writer := Failing)
  }

  function Machine(): (Conn, Label) -> Option<Conn> {
    (c, l) => if Enabled(c, l) then Some(Step(c, l)) else None
  }

  function After(c: Conn, run: seq<Label>): Option<Conn> { Run(Machine(), c, run) }

  // ---------------------------------------------------------------- positions

  function StartPos(pc: StartPc): nat {
    match pc
    case Uncalled => 0 case CloneHb => 1 case BindHb => 2 case LockHb => 3 case Decide => 4
    case StartHb => 5 case DropHb => 6 case UnlockHb => 7 case MarkStarted => 8 case GoReader => 9
    case GoWriter => 10 case CallHook => 11 case StartDone => 12
  }

  function OncePos(o: Once): nat {
    match o
    case NotRun => 0
    case Finished => 10
    case Body(pc, _) =>
      match pc {
        case SetClosed => 1 case CallStopHook => 2 case LockBeat => 3 case TakeBeat => 4 case StopBeat(_) => 5
        case Count => 6 case CloseConn => 7 case CloseDone => 8 case Deregister => 9
      }
  }

  function PhasePos(p: Phase): nat {
    match p case Created => 0 case Running => 1 case Closed => 2
  }

  // --------------------------------------------------- the heartbeat handover

  predicate HbInv(k: Core) {
    var p, q := StartPos(k.start), OncePos(k.once);
    && (k.lock == ByStart <==> 4 <= p <= 7)
    && (k.lock == ByBody <==> q == 4)
    && (k.phase == Closed <==> q >= 2)
    && (k.phase == Created ==> p == 0)
    && (k.phase == Running ==> p > 0)
    && (q < 2 && p > 0 ==> k.phase == Running)
    // Start's view of its clone
    && (3 <= p <= 4 && k.phase == Running ==> k.hb)
    && (p == 5 ==> k.hb && q <= 3)
    && (p < 3 ==> !k.hb)
    && (p <= 6 ==> !k.beating)
    // once the body has taken the heartbeat, only Start can still be holding a stale one
    && (q >= 5 && p >= 7 ==> !k.hb)
    // whatever beats will be stopped
    && (k.beating ==> k.hb || (k.once.Body? && k.once.pc == StopBeat(true)))
  }

  lemma StartKeepsHbInv(k: Core)
    requires HbInv(k) && StartReady(k)
    ensures HbInv(CoreStart(k)) && CoreStart(k).phase == k.phase && CoreStart(k).once == k.once
    ensures StartPos(CoreStart(k).start) > StartPos(k.start)
  {
  }

  lemma BodyKeepsHbInv(k: Core)
    requires HbInv(k) && BodyReady(k)
    ensures HbInv(CoreBody(k)) && CoreBody(k).start == k.start
    ensures PhasePos(k.phase) <= PhasePos(CoreBody(k).phase)
    ensures OncePos(CoreBody(k).once) == OncePos(k.once) + 1
  {
  }

  /** The four ways a step can change the core, if it does. */
  lemma StepOnCore(c: Conn, l: Label)
    requires Enabled(c, l)
    ensures var k, k' := c.core, Step(c, l).core;
            match l
            case StartStep => k' == CoreStart(k)
            case BodyStep => k' == CoreBody(k)
            case CallStart(template) => k' == CoreCallStart(k, template)
            case _ => k' == k || (k.once == NotRun && exists r :: k' == CoreEnter(k, r))
  {
    match l
    case ReaderStep => assert Step(c, l).core == c.core || Step(c, l).core == CoreEnter(c.core, ReaderThread);
    case WriterStep => assert Step(c, l).core == c.core || Step(c, l).core == CoreEnter(c.core, WriterThread);
    case CallerStep(i) => assert Step(c, l).core == c.core || Step(c, l).core == CoreEnter(c.core, CallerThread(i));
    case _ =>
  }

  lemma StepKeepsHbInv(c: Conn, l: Label)
    requires HbInv(c.core) && Enabled(c, l)
    ensures HbInv(Step(c, l).core)
    ensures PhasePos(c.core.phase) <= PhasePos(Step(c, l).core.phase)
  {
    StepOnCore(c, l);
    match l
    case StartStep => StartKeepsHbInv(c.core);
    case BodyStep => BodyKeepsHbInv(c.core);
    case _ =>
  }

  lemma {:induction false} RunKeepsHbInv(c: Conn, run: seq<Label>)
    requires HbInv(c.core) && After(c, run).Some?
    ensures HbInv(After(c, run).value.core)
    ensures PhasePos(c.core.phase) <= PhasePos(After(c, run).value.core.phase)
    decreases |run|
  {
    if run != [] {
      StepKeepsHbInv(c, run[0]);
      RunKeepsHbInv(Step(c, run[0]), run[1..]);
    }
  }

  /**
   However Start and any number of stoppers interleave: once Start is past its
   heartbeat block and the stop body has finished, the cloned heartbeat is not
   left running and the connection no longer refers to it.
   */
  lemma NoHeartbeatLeaks(run: seq<Label>)
    requires After(FRESH, run).Some?
    ensures var k := After(FRESH, run).value.core;
            StartPos(k.start) >= 8 && k.once == Finished ==> !k.beating && !k.hb
  {
    RunKeepsHbInv(FRESH, run);
  }

  /** Start called with a heartbeat template: past its decision the clone beats as long as nobody has stopped. */
  predicate BeatsWhileRunning(k: Core) {
    && k.start != Uncalled
    && (k.start == DropHb ==> k.phase == Closed)
    && (k.phase == Running && StartPos(k.start) >= 7 ==> k.beating && k.hb)
  }

  lemma StartKeepsBeating(k: Core)
    requires HbInv(k) && BeatsWhileRunning(k) && StartReady(k)
    ensures BeatsWhileRunning(CoreStart(k))
  {
  }

  lemma BodyKeepsBeating(k: Core)
    requires HbInv(k) && BeatsWhileRunning(k) && BodyReady(k)
    ensures BeatsWhileRunning(CoreBody(k))
  {
  }

  lemma StepKeepsBeating(c: Conn, l: Label)
    requires HbInv(c.core) && BeatsWhileRunning(c.core) && Enabled(c, l)
    ensures BeatsWhileRunning(Step(c, l).core)
  {
    StepOnCore(c, l);
    match l
    case StartStep => StartKeepsBeating(c.core);
    case BodyStep => BodyKeepsBeating(c.core);
    case _ =>
  }

  lemma {:induction false} RunKeepsBeating(c: Conn, run: seq<Label>)
    requires HbInv(c.core) && BeatsWhileRunning(c.core) && After(c, run).Some?
    ensures BeatsWhileRunning(After(c, run).value.core)
    decreases |run|
  {
    if run != [] {
      StepKeepsHbInv(c, run[0]);
      StepKeepsBeating(c, run[0]);
      RunKeepsBeating(Step(c, run[0]), run[1..]);
    }
  }

  /**
   And it does start it: when Start is called with a heartbeat template, then in every
   continuation, once Start is past its heartbeat block and as long as nobody has closed
   the connection, the clone is beating and the connection refers to it.
   */
  lemma HeartbeatRuns(before: seq<Label>, later: seq<Label>)
    requires After(FRESH, before).Some? && Enabled(After(FRESH, before).value, CallStart(true))
    requires After(Step(After(FRESH, before).value, CallStart(true)), later).Some?
    ensures var k := After(Step(After(FRESH, before).value, CallStart(true)), later).value.core;
            k.phase == Running && StartPos(k.start) >= 8 ==> k.beating && k.hb
  {
    var c := After(FRESH, before).value;
    RunKeepsHbInv(FRESH, before);
    StepKeepsHbInv(c, CallStart(true));
    RunKeepsBeating(Step(c, CallStart(true)), later);
  }

  /** Without a template nothing beats, and Start goes straight to launching the goroutines. */
  predicate NeverBeats(k: Core) { !k.beating && !k.hb && StartPos(k.start) >= 8 }

  lemma {:induction false} NoTemplateNoHeartbeat(c: Conn, run: seq<Label>)
    requires NeverBeats(c.core) && After(c, run).Some?
    ensures NeverBeats(After(c, run).value.core)
    decreases |run|
  {
    if run != [] {
      StepOnCore(c, run[0]);
      NoTemplateNoHeartbeat(Step(c, run[0]), run[1..]);
    }
  }

  /** A connection started without a template never gets a heartbeat. */
  lemma UntouchedWithoutTemplate(before: seq<Label>, later: seq<Label>)
    requires After(FRESH, before).Some? && Enabled(After(FRESH, before).value, CallStart(false))
    requires After(Step(After(FRESH, before).value, CallStart(false)), later).Some?
    ensures var k := After(Step(After(FRESH, before).value, CallStart(false)), later).value.core;
            !k.beating && !k.hb
  {
    RunKeepsHbInv(FRESH, before);
    NoTemplateNoHeartbeat(Step(After(FRESH, before).value, CallStart(false)), later);
  }

  /** The state only moves forward: created, running, closed, between any two points of any run. */
  lemma PhaseMovesForward(before: seq<Label>, later: seq<Label>)
    requires After(FRESH, before).Some? && After(After(FRESH, before).value, later).Some?
    ensures var c := After(FRESH, before).value;
            PhasePos(c.core.phase) <= PhasePos(After(c, later).value.core.phase)
  {
    RunKeepsHbInv(FRESH, before);
    RunKeepsHbInv(After(FRESH, before).value, later);
  }

  // ------------------------------------------------------- threads and closing

  predicate ReaderOk(c: Conn) {
    && (c.reader == NoReader <==> StartPos(c.core.start) <= 9)
    && (c.reader == ReaderInBody <==> c.core.once.Body? && c.core.once.runner == ReaderThread)
    && (c.reader == ReaderExit || c.reader == ReaderGone ==> c.core.once == Finished)
  }

  predicate WriterOk(c: Conn) {
    && (c.writer == NoWriter <==> StartPos(c.core.start) <= 10)
    && (c.writer == WriterInBody <==> c.core.once.Body? && c.core.once.runner == WriterThread)
    && (c.writer == WriterExit || c.writer == WriterGone ==> c.done)
  }

  predicate FlagsOk(c: Conn) {
    var q := OncePos(c.core.once);
    && (c.started <==> StartPos(c.core.start) >= 9)
    && (c.open <==> q <= 7)
    && (c.done <==> q >= 9)
    && c.bodies == (if c.core.once == NotRun then 0 else 1)
    && c.wg == (if c.reader == ReaderGone then 0 else 1) + (if c.writer == WriterGone then 0 else 1)
  }

  predicate CallerOk(c: Conn, i: nat)
    requires i < |c.callers|
  {
    var o := c.core.once;
    && (c.callers[i] == InBody <==> o.Body? && o.runner == CallerThread(i))
    && match c.callers[i]
       case WaitGroup => o == Finished && c.started
       case CheckStarted => o == Finished
       case Returned(waited) => o == Finished && (waited ==> c.reader == ReaderGone && c.writer == WriterGone)
       case _ => true
  }

  predicate RunnerOk(c: Conn) {
    c.core.once.Body? && c.core.once.runner.CallerThread? ==> c.core.once.runner.i < |c.callers|
  }

  predicate CallersOk(c: Conn) {
    && RunnerOk(c)
    && forall i :: 0 <= i < |c.callers| ==> CallerOk(c, i)
  }

  predicate Inv(c: Conn) {
    HbInv(c.core) && LocalInv(c) && CallersOk(c)
  }

  predicate LocalInv(c: Conn) {
    ReaderOk(c) && WriterOk(c) && FlagsOk(c)
  }

  lemma StartKeepsReaderOk(c: Conn)
    requires ReaderOk(c) && StartReady(c.core)
    ensures ReaderOk(StartNext(c))
  {
  }

  lemma StartKeepsWriterOk(c: Conn)
    requires WriterOk(c) && StartReady(c.core)
    ensures WriterOk(StartNext(c))
  {
  }

  lemma StartKeepsFlagsOk(c: Conn)
    requires LocalInv(c) && StartReady(c.core)
    ensures FlagsOk(StartNext(c))
  {
  }

  lemma StartKeepsLocalInv(c: Conn)
    requires LocalInv(c) && StartReady(c.core)
    ensures LocalInv(StartNext(c))
  {
    StartKeepsReaderOk(c);
    StartKeepsWriterOk(c);
    StartKeepsFlagsOk(c);
  }

  lemma BodyKeepsReaderOk(c: Conn)
    requires ReaderOk(c) && BodyReady(c.core)
    ensures ReaderOk(BodyNext(c))
  {
  }

  lemma BodyKeepsWriterOk(c: Conn)
    requires WriterOk(c) && FlagsOk(c) && BodyReady(c.core)
    ensures WriterOk(BodyNext(c))
  {
  }

  lemma BodyKeepsFlagsOk(c: Conn)
    requires LocalInv(c) && BodyReady(c.core)
    ensures FlagsOk(BodyNext(c))
  {
  }

  lemma BodyKeepsLocalInv(c: Conn)
    requires LocalInv(c) && BodyReady(c.core)
    ensures LocalInv(BodyNext(c))
  {
    BodyKeepsReaderOk(c);
    BodyKeepsWriterOk(c);
    BodyKeepsFlagsOk(c);
  }

  lemma ReaderKeepsLocalInv(c: Conn)
    requires LocalInv(c) && Enabled(c, ReaderStep)
    ensures LocalInv(ReaderNext(c))
  {
  }

  lemma WriterKeepsLocalInv(c: Conn)
    requires LocalInv(c) && Enabled(c, WriterStep)
    ensures LocalInv(WriterNext(c))
  {
  }

  lemma CallerKeepsLocalInv(c: Conn, i: nat)
    requires LocalInv(c) && Enabled(c, CallerStep(i))
    ensures LocalInv(CallerNext(c, i))
  {
  }

  lemma StepKeepsLocalInv(c: Conn, l: Label)
    requires LocalInv(c) && Enabled(c, l)
    ensures LocalInv(Step(c, l))
  {
    match l
    case StartStep => StartKeepsLocalInv(c);
    case BodyStep => BodyKeepsLocalInv(c);
    case ReaderStep => ReaderKeepsLocalInv(c);
    case WriterStep => WriterKeepsLocalInv(c);
    case CallerStep(i) => CallerKeepsLocalInv(c, i);
    case _ =>
  }

  lemma StepKeepsRunnerOk(c: Conn, l: Label)
    requires RunnerOk(c) && Enabled(c, l)
    ensures RunnerOk(Step(c, l))
  {
    match l
    case BodyStep => StepOnCore(c, l);
    case StartStep => assert Step(c, l).core.once == c.core.once && Step(c, l).callers == c.callers;
    case _ =>
  }

  lemma BodyKeepsCaller(c: Conn, i: nat)
    requires LocalInv(c) && RunnerOk(c) && i < |c.callers| && CallerOk(c, i) && BodyReady(c.core)
    ensures i < |BodyNext(c).callers| && CallerOk(BodyNext(c), i)
  {
    StepOnCore(c, BodyStep);
    var runner := c.core.once.runner;
    if c.core.once.pc == Deregister {
      assert runner == CallerThread(i) ==> BodyNext(c).callers[i] == CheckStarted;
      assert runner != CallerThread(i) ==> BodyNext(c).callers[i] == c.callers[i];
    } else {
      assert BodyNext(c).callers == c.callers;
    }
  }

  lemma CallerKeepsCaller(c: Conn, j: nat, i: nat)
    requires LocalInv(c) && i < |c.callers| && CallerOk(c, i) && Enabled(c, CallerStep(j))
    ensures i < |CallerNext(c, j).callers| && CallerOk(CallerNext(c, j), i)
  {
    var d := CallerNext(c, j);
    if i != j {
      assert d.callers[i] == c.callers[i];
    }
  }

  lemma StepKeepsCaller(c: Conn, l: Label, i: nat)
    requires LocalInv(c) && RunnerOk(c) && i < |c.callers| && CallerOk(c, i) && Enabled(c, l)
    ensures i < |Step(c, l).callers| && CallerOk(Step(c, l), i)
  {
    match l
    case BodyStep => BodyKeepsCaller(c, i);
    case CallerStep(j) => CallerKeepsCaller(c, j, i);
    case StartStep => assert Step(c, l).callers == c.callers && Step(c, l).core.once == c.core.once;
    case _ =>
  }

  lemma StepKeepsCallersOk(c: Conn, l: Label)
    requires LocalInv(c) && CallersOk(c) && Enabled(c, l)
    ensures CallersOk(Step(c, l))
  {
    StepKeepsRunnerOk(c, l);
    forall i | 0 <= i < |Step(c, l).callers| ensures CallerOk(Step(c, l), i) {
      if i < |c.callers| {
        StepKeepsCaller(c, l, i);
      } else {
        assert l == CallStop;
      }
    }
  }

  lemma StepKeepsInv(c: Conn, l: Label)
    requires Inv(c) && Enabled(c, l)
    ensures Inv(Step(c, l))
  {
    StepKeepsHbInv(c, l);
    StepKeepsLocalInv(c, l);
    StepKeepsCallersOk(c, l);
  }

  lemma {:induction false} RunKeepsInv(c: Conn, run: seq<Label>)
    requires Inv(c) && After(c, run).Some?
    ensures Inv(After(c, run).value)
    decreases |run|
  {
    if run != [] {
      StepKeepsInv(c, run[0]);
      RunKeepsInv(Step(c, run[0]), run[1..]);
    }
  }

  /**
   In every run: the stop body is executed at most once, the WaitGroup stays
   between 0 and 2, and the socket and the done channel are closed once it is over.
   A Stop that has returned has seen the body through; if it found the goroutines
   launched, both are gone.
   */
  lemma StopIsIdempotentAndThorough(run: seq<Label>)
    requires After(FRESH, run).Some?
    ensures var c := After(FRESH, run).value;
            && c.bodies <= 1
            && 0 <= c.wg <= 2
            && (c.core.once == Finished ==> !c.open && c.done && c.core.phase == Closed)
            && forall i :: 0 <= i < |c.callers| && c.callers[i].Returned? ==>
                 && c.core.once == Finished
                 && (c.callers[i].waited ==> c.wg == 0 && c.reader == ReaderGone && c.writer == WriterGone)
  {
    RunKeepsInv(FRESH, run);
    var c := After(FRESH, run).value;
    forall i | 0 <= i < |c.callers| && c.callers[i].Returned?
      ensures c.core.once == Finished
      ensures c.callers[i].waited ==> c.reader == ReaderGone && c.writer == WriterGone
    {
      assert CallerOk(c, i);
    }
  }

  // --------------------------------------------------------------------- hooks

  predicate HooksOk(c: Conn) {
    var started, stopped := c.core.start == StartDone, OncePos(c.core.once) >= 3;
    && (started && stopped ==> c.hooks == [StartHook, StopHook] || c.hooks == [StopHook, StartHook])
    && (started && !stopped ==> c.hooks == [StartHook])
    && (!started && stopped ==> c.hooks == [StopHook])
    && (!started && !stopped ==> c.hooks == [])
  }

  lemma StartKeepsHooksOk(c: Conn)
    requires HooksOk(c) && StartReady(c.core)
    ensures HooksOk(StartNext(c))
  {
  }

  lemma BodyKeepsHooksOk(c: Conn)
    requires HooksOk(c) && BodyReady(c.core)
    ensures HooksOk(BodyNext(c))
  {
    StepOnCore(c, BodyStep);
  }

  lemma OthersLeaveHooks(c: Conn, l: Label)
    requires HooksOk(c) && Enabled(c, l) && !l.StartStep? && !l.BodyStep?
    ensures HooksOk(Step(c, l))
  {
    var d := Step(c, l);
    assert d.hooks == c.hooks;
    StepOnCore(c, l);
    assert d.core.start == StartDone <==> c.core.start == StartDone;
    assert OncePos(d.core.once) >= 3 <==> OncePos(c.core.once) >= 3;
  }

  lemma StepKeepsHooksOk(c: Conn, l: Label)
    requires HooksOk(c) && Enabled(c, l)
    ensures HooksOk(Step(c, l))
  {
    match l
    case StartStep => StartKeepsHooksOk(c);
    case BodyStep => BodyKeepsHooksOk(c);
    case _ => OthersLeaveHooks(c, l);
  }

  lemma {:induction false} RunKeepsHooksOk(c: Conn, run: seq<Label>)
    requires HooksOk(c) && After(c, run).Some?
    ensures HooksOk(After(c, run).value)
    decreases |run|
  {
    if run != [] {
      StepKeepsHooksOk(c, run[0]);
      RunKeepsHooksOk(Step(c, run[0]), run[1..]);
    }
  }

  /** Each hook fires exactly once when its goroutine gets there, whatever the interleaving. */
  lemma HooksFireOnce(run: seq<Label>)
    requires After(FRESH, run).Some?
    ensures var c := After(FRESH, run).value;
            && multiset(c.hooks)[StartHook] == (if c.core.start == StartDone then 1 else 0)
            && multiset(c.hooks)[StopHook] == (if OncePos(c.core.once) >= 3 then 1 else 0)
  {
    RunKeepsHooksOk(FRESH, run);
  }

  predicate BothFired(c: Conn) { StartHook in c.hooks && StopHook in c.hooks }

  /** Whatever happens next, if both hooks get to fire then the start hook was first. */
  ghost predicate StartHookFirst(c: Conn) {
    forall run :: After(c, run).Some? && BothFired(After(c, run).value) ==>
      After(c, run).value.hooks == [StartHook, StopHook]
  }

  lemma StepAppendsHooks(c: Conn, l: Label)
    requires Enabled(c, l)
    ensures c.hooks <= Step(c, l).hooks
  {
  }

  lemma {:induction false} HooksOnlyGrow(c: Conn, run: seq<Label>)
    requires After(c, run).Some?
    ensures c.hooks <= After(c, run).value.hooks
    decreases |run|
  {
    if run != [] {
      StepAppendsHooks(c, run[0]);
      HooksOnlyGrow(Step(c, run[0]), run[1..]);
    }
  }

  /** A connection stopped before Start was called is never started. */
  lemma {:induction false} StaysUncalled(c: Conn, run: seq<Label>)
    requires HbInv(c.core) && c.core.start == Uncalled && c.core.phase == Closed && After(c, run).Some?
    ensures After(c, run).value.core.start == Uncalled
    decreases |run|
  {
    if run != [] {
      StepKeepsHbInv(c, run[0]);
      StepOnCore(c, run[0]);
      StaysUncalled(Step(c, run[0]), run[1..]);
    }
  }

  /** The stop hook has fired; the body has not yet asked for the lock. */
  predicate StopHookFired(c: Conn) {
    c.core.once.Body? && c.core.once.pc == LockBeat
  }

  /** Start is under way, or can still be called. */
  predicate MayStillStart(k: Core) {
    k.start != StartDone && (k.start == Uncalled ==> k.phase == Created)
  }

  /** Facts about a connection that stay with it while the stop body gets past the stop hook. */
  predicate Hooked(c: Conn, start: StartPc) { HbInv(c.core) && HooksOk(c) && c.core.start == start }

  lemma BodyGoesOn(c: Conn, start: StartPc)
    requires Hooked(c, start) && c.core.once.Body? && OncePos(c.core.once) < 3
    ensures Enabled(c, BodyStep) && Hooked(Step(c, BodyStep), start)
    ensures OncePos(Step(c, BodyStep).core.once) == OncePos(c.core.once) + 1
  {
    StepOnCore(c, BodyStep);
    StepKeepsHbInv(c, BodyStep);
    StepKeepsHooksOk(c, BodyStep);
    BodyKeepsHbInv(c.core);
  }

  lemma StopEnters(c: Conn, start: StartPc)
    requires Hooked(c, start) && c.core.once == NotRun
    ensures var d := Step(c, CallStop);
            && Enabled(d, CallerStep(|c.callers|))
            && Hooked(Step(d, CallerStep(|c.callers|)), start)
            && OncePos(Step(d, CallerStep(|c.callers|)).core.once) == 1
  {
    var d, l := Step(c, CallStop), CallerStep(|c.callers|);
    StepKeepsHbInv(c, CallStop);
    StepKeepsHooksOk(c, CallStop);
    assert Enabled(d, l);
    StepKeepsHbInv(d, l);
    StepKeepsHooksOk(d, l);
    assert Step(d, l).core == CoreEnter(c.core, CallerThread(|c.callers|));
  }

  /** The body of a Stop that comes now gets past the stop hook without waiting for Start. */
  lemma {:induction false} StopOvertakes(c: Conn) returns (run: seq<Label>)
    requires HbInv(c.core) && HooksOk(c) && OncePos(c.core.once) <= 3 && c.core.start != Uncalled
    ensures After(c, run).Some?
    ensures var d := After(c, run).value;
            HbInv(d.core) && HooksOk(d) && StopHookFired(d) && d.core.start == c.core.start
    decreases 3 - OncePos(c.core.once)
  {
    if StopHookFired(c) {
      run := [];
    } else if c.core.once == NotRun {
      var d, l := Step(c, CallStop), CallerStep(|c.callers|);
      StopEnters(c, c.core.start);
      var rest := StopOvertakes(Step(d, l));
      RunCons(Machine(), d, l, rest);
      RunCons(Machine(), c, CallStop, [l] + rest);
      run := [CallStop] + ([l] + rest);
    } else {
      BodyGoesOn(c, c.core.start);
      var rest := StopOvertakes(Step(c, BodyStep));
      RunCons(Machine(), c, BodyStep, rest);
      run := [BodyStep] + rest;
    }
  }

  /** Start then runs to its end, whatever it was doing: nobody else holds the lock. */
  lemma {:induction false} StartCatchesUp(c: Conn) returns (run: seq<Label>)
    requires HbInv(c.core) && HooksOk(c) && StopHookFired(c) && c.core.start != Uncalled
    ensures After(c, run).Some?
    ensures var d := After(c, run).value; HooksOk(d) && StopHookFired(d) && d.core.start == StartDone
    decreases 12 - StartPos(c.core.start)
  {
    if c.core.start == StartDone {
      run := [];
    } else {
      assert Enabled(c, StartStep);
      StepOnCore(c, StartStep);
      StartKeepsHbInv(c.core);
      StepKeepsHooksOk(c, StartStep);
      var rest := StartCatchesUp(Step(c, StartStep));
      RunCons(Machine(), c, StartStep, rest);
      run := [StartStep] + rest;
    }
  }

  lemma StopHookIsFirst(d: Conn, e: Conn)
    requires HooksOk(d) && HooksOk(e) && StopHookFired(d) && StopHookFired(e)
    requires d.core.start != StartDone && e.core.start == StartDone && d.hooks <= e.hooks
    ensures e.hooks == [StopHook, StartHook]
  {
    assert d.hooks[0] == StopHook && e.hooks[0] == d.hooks[0];
  }

  /** From a connection whose Start is under way and whose stop hook has not fired, the hooks can swap. */
  lemma HooksCanSwap(c: Conn) returns (run: seq<Label>)
    requires HbInv(c.core) && HooksOk(c) && OncePos(c.core.once) < 3
    requires c.core.start != Uncalled && c.core.start != StartDone
    ensures After(c, run).Some? && After(c, run).value.hooks == [StopHook, StartHook]
  {
    var stop := StopOvertakes(c);
    var d := After(c, stop).value;
    var start := StartCatchesUp(d);
    HooksOnlyGrow(d, start);
    StopHookIsFirst(d, After(d, start).value);
    RunAppend(Machine(), c, stop, d, start);
    run := stop + start;
  }

  lemma OrderIsSettled(c: Conn, later: seq<Label>)
    requires HbInv(c.core) && HooksOk(c) && OncePos(c.core.once) < 3 && !MayStillStart(c.core)
    requires After(c, later).Some? && BothFired(After(c, later).value)
    ensures After(c, later).value.hooks == [StartHook, StopHook]
  {
    RunKeepsHooksOk(c, later);
    if c.core.start == StartDone {
      assert c.hooks == [StartHook];
      HooksOnlyGrow(c, later);
      assert After(c, later).value.hooks[0] == StartHook;
    } else {
      StaysUncalled(c, later);
    }
  }

  lemma OrderIsOpen(c: Conn) returns (run: seq<Label>)
    requires HbInv(c.core) && HooksOk(c) && OncePos(c.core.once) < 3 && MayStillStart(c.core)
    ensures After(c, run).Some? && After(c, run).value.hooks == [StopHook, StartHook]
  {
    if c.core.start == Uncalled {
      StepKeepsHbInv(c, CallStart(false));
      StepKeepsHooksOk(c, CallStart(false));
      var rest := HooksCanSwap(Step(c, CallStart(false)));
      RunCons(Machine(), c, CallStart(false), rest);
      run := [CallStart(false)] + rest;
    } else {
      run := HooksCanSwap(c);
    }
  }

  /**
   Exactly when the start hook is sure to come first. For every reachable state in
   which the stop hook has not fired: in all continuations the start hook precedes the
   stop hook if and only if it has already fired, or the connection was closed before
   Start was called and never starts. As long as Start is under way the order is open.
   */
  lemma HookOrderIff(run: seq<Label>)
    requires After(FRESH, run).Some?
    requires OncePos(After(FRESH, run).value.core.once) < 3
    ensures var c := After(FRESH, run).value;
            StartHookFirst(c) <==> !MayStillStart(c.core)
  {
    var c := After(FRESH, run).value;
    RunKeepsHbInv(FRESH, run);
    RunKeepsHooksOk(FRESH, run);
    if MayStillStart(c.core) {
      var swap := OrderIsOpen(c);
      var hooks := After(c, swap).value.hooks;
      assert hooks[0] == StopHook && hooks[1] == StartHook;
    } else {
      forall later | After(c, later).Some? && BothFired(After(c, later).value)
        ensures After(c, later).value.hooks == [StartHook, StopHook]
      {
        OrderIsSettled(c, later);
      }
    }
  }

  // -------------------------------------------------------- Stop always returns

  /** Whoever is inside the body, some goroutine can move it towards its end. */
  lemma BodyNotStuck(c: Conn)
    requires HbInv(c.core) && c.core.once.Body?
    ensures Enabled(c, BodyStep) || Enabled(c, StartStep)
  {
  }

  lemma ReaderNotStuck(c: Conn)
    requires Inv(c) && c.core.once == Finished && c.started && c.reader != ReaderGone
    ensures Enabled(c, ReaderStep) || Enabled(c, StartStep)
  {
  }

  lemma WriterNotStuck(c: Conn)
    requires Inv(c) && c.core.once == Finished && c.started && c.writer != WriterGone
    ensures Enabled(c, WriterStep) || Enabled(c, StartStep)
  {
  }

  /** The reader's enqueue into the worker pool, which depends on the pool. */
  predicate IsEnqueue(c: Conn, l: Label) { l == ReaderStep && c.reader == Dispatching }

  /**
   Whenever a Stop caller has not returned, some goroutine can take an internal step that
   is not an enqueue, unless the reader is in the middle of one.
   */
  lemma NoDeadlock(c: Conn, i: nat)
    requires Inv(c) && i < |c.callers| && !c.callers[i].Returned?
    ensures c.reader == Dispatching || exists l :: Internal(l) && Enabled(c, l) && !IsEnqueue(c, l)
  {
    assert CallerOk(c, i);
    if c.core.once.Body? {
      BodyNotStuck(c);
      assert Internal(BodyStep) && Internal(StartStep);
    } else if c.callers[i] == WaitGroup && c.wg != 0 {
      if c.reader != ReaderGone {
        ReaderNotStuck(c);
        assert Internal(ReaderStep) && Internal(StartStep);
      } else {
        WriterNotStuck(c);
        assert Internal(WriterStep) && Internal(StartStep);
      }
    } else {
      assert Internal(CallerStep(i)) && Enabled(c, CallerStep(i));
    }
  }

  function ReaderWeight(r: ReaderPc): nat {
    match r
    case NoReader => 9 case Dispatching => 6 case Reading => 5 case Leaving => 4
    case ReaderInBody => 3 case ReaderExit => 2 case ReaderGone => 0
  }

  function WriterWeight(w: WriterPc): nat {
    match w
    case NoWriter => 9 case Writing => 6 case Selecting => 5 case Failing => 4
    case WriterInBody => 3 case WriterExit => 2 case WriterGone => 0
  }

  function CallerWeight(p: CallerPc): nat {
    match p
    case Entering => 4 case InBody => 3 case CheckStarted => 2 case WaitGroup => 1 case Returned(_) => 0
  }

  function CallersWeight(ps: seq<CallerPc>): nat {
    if ps == [] then 0 else CallerWeight(ps[0]) + CallersWeight(ps[1..])
  }

  lemma {:induction false} CallersWeightUpdate(ps: seq<CallerPc>, i: nat, p: CallerPc)
    requires i < |ps|
    ensures CallersWeight(ps[i := p]) == CallersWeight(ps) - CallerWeight(ps[i]) + CallerWeight(p)
    decreases |ps|
  {
    if i == 0 {
      assert ps[0 := p][1..] == ps[1..];
    } else {
      CallersWeightUpdate(ps[1..], i - 1, p);
      assert ps[i := p][1..] == ps[1..][i - 1 := p];
    }
  }

  function Measure(c: Conn): nat {
    (12 - StartPos(c.core.start)) + (10 - OncePos(c.core.once))
    + ReaderWeight(c.reader) + WriterWeight(c.writer) + CallersWeight(c.callers)
  }

  lemma CallerStepDecreases(c: Conn, i: nat)
    requires Enabled(c, CallerStep(i))
    ensures Measure(CallerNext(c, i)) < Measure(c)
  {
    CallersWeightUpdate(c.callers, i, CallerNext(c, i).callers[i]);
  }

  lemma BodyStepDecreases(c: Conn)
    requires Inv(c) && BodyReady(c.core)
    ensures Measure(BodyNext(c)) < Measure(c)
  {
    BodyKeepsHbInv(c.core);
    var runner := c.core.once.runner;
    if c.core.once.pc == Deregister && runner.CallerThread? {
      assert CallerOk(c, runner.i);
      CallersWeightUpdate(c.callers, runner.i, CheckStarted);
    }
  }

  lemma InternalStepDecreases(c: Conn, l: Label)
    requires Inv(c) && Internal(l) && Enabled(c, l)
    ensures Measure(Step(c, l)) < Measure(c)
  {
    match l
    case StartStep => StartKeepsHbInv(c.core);
    case BodyStep => BodyStepDecreases(c);
    case ReaderStep =>
    case WriterStep =>
    case CallerStep(i) => CallerStepDecreases(c, i);
  }

  /**
   Every Stop returns unless the reader is stuck in an enqueue: from any reachable state, a
   run of internal steps has at most `Measure` of them; and when none is left, or none but
   an enqueue, every caller of Stop has returned or the reader is in the middle of one.
   */
  lemma {:induction false} StopReturns(c: Conn, run: seq<Label>)
    requires Inv(c) && After(c, run).Some?
    requires forall k :: 0 <= k < |run| ==> Internal(run[k])
    ensures |run| <= Measure(c)
    ensures var d := After(c, run).value;
            (forall l :: Internal(l) && Enabled(d, l) ==> IsEnqueue(d, l)) ==>
              d.reader == Dispatching || forall i :: 0 <= i < |d.callers| ==> d.callers[i].Returned?
    decreases |run|
  {
    if run == [] {
      if (forall l :: Internal(l) && Enabled(c, l) ==> IsEnqueue(c, l)) && c.reader != Dispatching {
        forall i | 0 <= i < |c.callers| ensures c.callers[i].Returned? {
          if !c.callers[i].Returned? { NoDeadlock(c, i); }
        }
      }
    } else {
      StepKeepsInv(c, run[0]);
      InternalStepDecreases(c, run[0]);
      StopReturns(Step(c, run[0]), run[1..]);
    }
  }
}
