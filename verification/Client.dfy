/**
 The client's reconnection (knet/client.go): the backoff loop over the reals, and
 the loop that dials again whenever a connection's stop body has signalled.
 */
module Client {
  import opened Common

  // ------------------------------------------------------------------ backoff

  function Pow(b: real, n: nat): real {
    if n == 0 then 1.0 else b * Pow(b, n - 1)
  }

  function Min(a: real, b: real): real { if a < b then a else b }

  /** The intended backoff: exponential in the attempt, capped. */
  function Backoff(initial: real, max: real, multiplier: real, attempt: nat): real {
    Min(initial * Pow(multiplier, attempt), max)
  }

  lemma {:induction false} PowAtLeastOne(b: real, n: nat)
    requires b >= 1.0
    ensures Pow(b, n) >= 1.0
    decreases n
  {
    if n > 0 {
      PowAtLeastOne(b, n - 1);
      MulMonotone(Pow(b, n - 1), 1.0, b);
    }
  }

  lemma MulMonotone(x: real, lo: real, hi: real)
    requires x >= 0.0 && lo <= hi
    ensures x * lo <= x * hi
  {
    assert x * hi - x * lo == x * (hi - lo);
  }

  lemma {:induction false} PowGrows(b: real, m: nat, n: nat)
    requires b >= 1.0 && m <= n
    ensures Pow(b, m) <= Pow(b, n)
    decreases n - m
  {
    if m < n {
      PowGrows(b, m, n - 1);
      PowAtLeastOne(b, n - 1);
      MulMonotone(Pow(b, n - 1), 1.0, b);
    }
  }

  /** Multiplies until the cap is reached, then stops early. */
  method BackoffValue(initial: real, max: real, multiplier: real, attempt: int) returns (d: real)
    requires initial > 0.0 && multiplier > 1.0
    ensures d == Backoff(initial, max, multiplier, if attempt < 0 then 0 else attempt)
  {
    ghost var n := if attempt < 0 then 0 else attempt;
    d := initial;
    var i := 0;
    while i < attempt && d < max
      invariant 0 <= i <= n
      invariant d == initial * Pow(multiplier, i)
    {
      assert initial * (multiplier * Pow(multiplier, i)) == d * multiplier;
      d := d * multiplier;
      i := i + 1;
    }
    PowGrows(multiplier, i, n);
    MulMonotone(initial, Pow(multiplier, i), Pow(multiplier, n));
    if d > max {
      d := max;
    }
  }

  /** It starts at the initial delay and is multiplied from attempt to attempt, up to the cap. */
  lemma BackoffNext(initial: real, max: real, multiplier: real, attempt: nat)
    requires initial > 0.0 && multiplier > 1.0
    ensures Backoff(initial, max, multiplier, 0) == Min(initial, max)
    ensures max > 0.0 ==>
              Backoff(initial, max, multiplier, attempt + 1)
              == Min(Backoff(initial, max, multiplier, attempt) * multiplier, max)
  {
    var p := Pow(multiplier, attempt);
    assert Pow(multiplier, attempt + 1) == multiplier * p;
    assert initial * (multiplier * p) == initial * p * multiplier;
    if max > 0.0 && initial * p >= max {
      MulMonotone(initial * p, 1.0, multiplier);
      MulMonotone(max, 1.0, multiplier);
    }
  }

  /** The backoff never decreases with the attempt. */
  lemma BackoffIsMonotone(initial: real, max: real, multiplier: real, m: nat, n: nat)
    requires initial > 0.0 && multiplier > 1.0 && m <= n
    ensures Backoff(initial, max, multiplier, m) <= Backoff(initial, max, multiplier, n) <= max
  {
    PowGrows(multiplier, m, n);
    MulMonotone(initial, Pow(multiplier, m), Pow(multiplier, n));
  }

  /** Once the cap is reached it is kept. */
  lemma BackoffStaysAtMax(initial: real, max: real, multiplier: real, m: nat, n: nat)
    requires initial > 0.0 && multiplier > 1.0 && m <= n
    requires Backoff(initial, max, multiplier, m) == max
    ensures Backoff(initial, max, multiplier, n) == max
  {
    BackoffIsMonotone(initial, max, multiplier, m, n);
  }

  lemma {:induction false} Bernoulli(b: real, n: nat)
    requires b >= 1.0
    ensures Pow(b, n) >= 1.0 + n as real * (b - 1.0)
    decreases n
  {
    if n > 0 {
      Bernoulli(b, n - 1);
      PowAtLeastOne(b, n - 1);
      var p, x := Pow(b, n - 1), b - 1.0;
      MulMonotone(x, 1.0, p);
      assert b * p == p + x * p;
      assert n as real == (n - 1) as real + 1.0;
      assert n as real * x == (n - 1) as real * x + x;
    }
  }

  /** The cap is reached after finitely many attempts, whatever the policy. */
  lemma BackoffReachesMax(initial: real, max: real, multiplier: real) returns (n: nat)
    requires initial > 0.0 && multiplier > 1.0
    ensures Backoff(initial, max, multiplier, n) == max
  {
    var x, target := multiplier - 1.0, max / initial;
    var steps := target / x;
    n := if steps <= 0.0 then 0 else steps.Floor + 1;
    Bernoulli(multiplier, n);
    assert n as real >= steps;
    MulMonotone(x, steps, n as real);
    assert x * steps == target;
    assert x * n as real == n as real * x;
    MulMonotone(initial, target, Pow(multiplier, n));
    assert initial * target == max;
  }

  /** A random number in [0, 1) picks a point between half of the backoff and all of it. */
  function Jitter(full: real, random: real): real { full * (0.5 + random * 0.5) }

  lemma Product(full: real, a: real, b: real)
    requires full > 0.0 && a < b
    ensures full * a < full * b
  {
    assert full * b - full * a == full * (b - a);
  }

  /** Larger random numbers pick later points. */
  lemma JitterGrows(full: real, a: real, b: real)
    requires full > 0.0 && a < b
    ensures Jitter(full, a) < Jitter(full, b)
  {
    Product(full, 0.5 + a * 0.5, 0.5 + b * 0.5);
  }

  lemma Quotient(d: real, full: real) returns (q: real)
    requires full > 0.0
    ensures full * q == d
  {
    q := d / full;
  }

  lemma QuotientIsBetween(full: real, q: real, d: real)
    requires full > 0.0 && full * q == d && 0.5 * full <= d < full
    ensures 0.5 <= q < 1.0
  {
    if q >= 1.0 { MulMonotone(full, 1.0, q); }
    if q < 0.5 { Product(full, q, 0.5); }
  }

  /** Every point of that interval is picked by some random number. */
  lemma JitterCoversInterval(full: real, d: real) returns (random: real)
    requires full > 0.0 && 0.5 * full <= d < full
    ensures 0.0 <= random < 1.0 && Jitter(full, random) == d
  {
    var q := Quotient(d, full);
    QuotientIsBetween(full, q, d);
    random := 2.0 * q - 1.0;
    assert 0.5 + random * 0.5 == q;
  }

  /** The jittered delay, for a random number in [0, 1). */
  method Delay(initial: real, max: real, multiplier: real, attempt: nat, random: real) returns (d: real)
    requires initial > 0.0 && max > 0.0 && multiplier > 1.0
    requires 0.0 <= random < 1.0
    ensures var full := Backoff(initial, max, multiplier, attempt);
            0.5 * full <= d < full && d == Jitter(full, random)
  {
    var full := BackoffValue(initial, max, multiplier, attempt);
    assert full > 0.0 by {
      PowAtLeastOne(multiplier, attempt);
      MulMonotone(initial, 1.0, Pow(multiplier, attempt));
    }
    d := full * (0.5 + random * 0.5);
    MulMonotone(full, 0.5, 0.5 + random * 0.5);
    assert full - d == full * (0.5 - random * 0.5);
    assert full * (0.5 - random * 0.5) > 0.0;
  }

  // ---------------------------------------------------------------- reconnection

  /** Where the run loop stands. */
  datatype LoopPc = Waiting | Signalled | Sleeping | Dialing | Ended

  /**
   One session of the client, from a successful first dial. The manager holds at most
   one connection: a started one, or one whose stop body has signalled and has yet to
   remove it. A dial that finds the manager full leaves a connection that is published
   but never started.
   */
  datatype State = State(
    loop: LoopPc,
    signal: nat,            // tokens in connGone, a channel of capacity 1
    live: set<nat>,         // registered and started, stop body not yet entered
    closing: set<nat>,      // stop body has signalled, still registered
    refused: set<nat>,      // published but refused by the manager, and not stopped
    last: nat,              // the connection id counter
    attempt: nat,
    stopping: bool,
    cancelled: bool,        // the context
    signals: nat,           // tokens ever put into connGone
    stops: nat,             // stop bodies run
    dials: nat,             // dials by the run loop
    failures: nat,          // of which no connection was published
    refusals: nat,          // of which the manager refused the published connection
    row: nat)               // dials without success since the last one that succeeded

  datatype Label =
    | ConnStops(id: nat) | Removed(id: nat)
    | StopRefused(id: nat)  // the user calls Stop on what Conn() returned
    | TakeSignal | SeeStopping | StartTimer | TimerFires
    | DialFails | DialOk | DialRefused
    | StopCalled | Cancel | SeeCancel

  /** After Start: connection 1 is up; an earlier session may have left a token in connGone. */
  function Session(leftover: nat): State {
    State(Waiting, leftover, {1}, {}, {}, 1, 0, false, false, leftover, 0, 0, 0, 0, 0)
  }

  /** NewConnManager(1) accepts a connection when it holds none. */
  predicate HasPlace(s: State) { s.live == {} && s.closing == {} }

  predicate Enabled(s: State, l: Label) {
    match l
    case ConnStops(id) => id in s.live
    case Removed(id) => id in s.closing
    case StopRefused(id) => id in s.refused
    case TakeSignal => s.loop == Waiting && s.signal > 0
    case SeeStopping => s.loop == Signalled && s.stopping
    case StartTimer => s.loop == Signalled && !s.stopping
    case TimerFires => s.loop == Sleeping
    case DialFails => s.loop == Dialing
    case DialOk => s.loop == Dialing && !s.stopping && HasPlace(s)
    case DialRefused => s.loop == Dialing && !s.stopping && !HasPlace(s)
    case StopCalled => !s.stopping
    case Cancel => s.stopping && !s.cancelled
    case SeeCancel => s.cancelled && (s.loop == Waiting || s.loop == Sleeping)
  }

  /** A stop body runs CallOnConnStop: a token is put into connGone unless one is there. */
  function Signal(s: State): State {
    var t := s.(stops := s.stops + 1);
    if s.signal == 0 then t.(signal := 1, signals := s.signals + 1) else t
  }

  function Step(s: State, l: Label): State
    requires Enabled(s, l)
  {
    match l
    case ConnStops(id) => Signal(s).(live := s.live - {id}, closing := s.closing + {id})
    case Removed(id) => s.(closing := s.closing - {id})
    case StopRefused(id) => Signal(s).(refused := s.refused - {id})
    case TakeSignal => s.(signal := s.signal - 1, loop := Signalled)
    case SeeStopping => s.(loop := Ended)
    case StartTimer => s.(loop := Sleeping, attempt := s.attempt + 1)
    case TimerFires => s.(loop := Dialing, dials := s.dials + 1)
    case DialFails => s.(loop := Waiting, failures := s.failures + 1, row := s.row + 1)
    case DialOk =>
      s.(loop := Waiting, attempt := 0, last := s.last + 1, live := s.live + {s.last + 1}, row := 0)
    case DialRefused =>
      s.(loop := Waiting, last := s.last + 1, refused := s.refused + {s.last + 1},
         refusals := s.refusals + 1, row := s.row + 1)
    case StopCalled => s.(stopping := true)
    case Cancel => s.(cancelled := true)
    case SeeCancel => s.(loop := Ended)
  }

  function Machine(): (State, Label) -> Option<State> {
    (s, l) => if Enabled(s, l) then Some(Step(s, l)) else None
  }

  function After(s: State, run: seq<Label>): Option<State> { Run(Machine(), s, run) }

  // -------------------------------------------------------------------- tokens

  /** The loop has taken a token and not yet dialled. */
  function Taken(pc: LoopPc): nat { if pc == Signalled || pc == Sleeping then 1 else 0 }

  /** The loop has taken a token and not yet finished with it. */
  predicate AtWork(pc: LoopPc) { pc == Signalled || pc == Sleeping || pc == Dialing }

  function Tokens(s: State): nat {
    |s.live| + |s.refused| + s.signal + if AtWork(s.loop) then 1 else 0
  }

  /**
   Tokens are passed around and never made: each is a live or a refused connection, a
   signal, the loop at work, or a dial that came to nothing.
   */
  predicate TokenInv(s: State, tokens: nat) {
    && Tokens(s) + s.failures <= tokens
    && (forall id :: id in s.live ==> id <= s.last)
    && (forall id :: id in s.refused ==> id <= s.last)
  }

  /** The attempt number counts the dials without success in a row, plus the one being prepared or made. */
  predicate AttemptInv(s: State) {
    && (s.loop != Ended ==> s.attempt == s.row + if s.loop == Sleeping || s.loop == Dialing then 1 else 0)
    && s.dials == s.last - 1 + s.failures + (if s.loop == Dialing then 1 else 0)
    && s.row <= s.failures + s.refusals
    && (s.loop == Ended ==> s.stopping) && (s.cancelled ==> s.stopping)
  }

  predicate CountInv(s: State, leftover: nat) {
    && AttemptInv(s)
    && s.dials + Taken(s.loop) + s.signal <= s.signals <= s.stops + leftover
    && (leftover == 0 ==> s.signals == s.stops && s.attempt <= 1 + s.refusals)
    && s.signal <= (if leftover > 1 then leftover else 1)
  }

  lemma SignalKeepsOthers(s: State)
    ensures var t := Signal(s);
            t.signal <= s.signal + 1 && t.live == s.live && t.refused == s.refused && t.last == s.last
            && t.loop == s.loop && t.failures == s.failures
  {
  }

  lemma StopKeepsTokenInv(s: State, l: Label, tokens: nat)
    requires TokenInv(s, tokens) && Enabled(s, l) && (l.ConnStops? || l.StopRefused?)
    ensures TokenInv(Step(s, l), tokens)
  {
    var t := Step(s, l);
    SignalKeepsOthers(s);
    if l.ConnStops? {
      assert |t.live| == |s.live| - 1 && t.refused == s.refused;
    } else {
      assert |t.refused| == |s.refused| - 1 && t.live == s.live;
    }
  }

  lemma DialKeepsTokenInv(s: State, l: Label, tokens: nat)
    requires TokenInv(s, tokens) && Enabled(s, l) && (l.DialOk? || l.DialRefused?)
    ensures TokenInv(Step(s, l), tokens)
  {
    var t := Step(s, l);
    if l.DialOk? {
      assert |t.live| == |s.live| + 1 && t.refused == s.refused;
    } else {
      assert |t.refused| == |s.refused| + 1 && t.live == s.live;
    }
  }

  lemma StepKeepsTokenInv(s: State, l: Label, tokens: nat)
    requires TokenInv(s, tokens) && Enabled(s, l)
    ensures TokenInv(Step(s, l), tokens)
  {
    if l.ConnStops? || l.StopRefused? {
      StopKeepsTokenInv(s, l, tokens);
    } else if l.DialOk? || l.DialRefused? {
      DialKeepsTokenInv(s, l, tokens);
    } else {
      assert Step(s, l).live == s.live && Step(s, l).refused == s.refused;
    }
  }

  lemma StepKeepsCountInv(s: State, l: Label, leftover: nat)
    requires TokenInv(s, 1 + leftover) && CountInv(s, leftover) && Enabled(s, l)
    ensures CountInv(Step(s, l), leftover)
  {
    if l.ConnStops? {
      assert |s.live| > 0;
    } else if l.StopRefused? {
      assert |s.refused| > 0;
    }
  }

  lemma {:induction false} RunKeepsInv(s: State, run: seq<Label>, leftover: nat)
    requires TokenInv(s, 1 + leftover) && CountInv(s, leftover) && After(s, run).Some?
    ensures TokenInv(After(s, run).value, 1 + leftover) && CountInv(After(s, run).value, leftover)
    decreases |run|
  {
    if run != [] {
      StepKeepsTokenInv(s, run[0], 1 + leftover);
      StepKeepsCountInv(s, run[0], leftover);
      RunKeepsInv(Step(s, run[0]), run[1..], leftover);
    }
  }

  lemma SessionInv(leftover: nat)
    ensures TokenInv(Session(leftover), 1 + leftover) && CountInv(Session(leftover), leftover)
  {
    assert |{1}| == 1;
  }

  /**
   In every run of a session: the loop's dials never exceed the tokens that stop
   bodies put into connGone (plus one an earlier session may have left), and the channel
   never holds more than the one token it has room for. Connections
   not yet stopped, signals, the loop at work and failed dials together are at most
   one, plus that one. Every dial makes a connection or fails. A sleep uses as
   exponent the number of dials without success in a row. Without a leftover, no stop
   body's signal is ever dropped, and the attempt grows past 1 only through refusals.
   */
  lemma DialsNeverExceedSignals(leftover: nat, run: seq<Label>)
    requires After(Session(leftover), run).Some?
    ensures var s := After(Session(leftover), run).value;
            && s.dials <= s.signals <= s.stops + leftover
            && (leftover <= 1 ==> s.signal <= 1)
            && Tokens(s) + s.failures <= 1 + leftover
            && (s.loop != Dialing ==> s.dials == s.last - 1 + s.failures)
            && (s.loop == Sleeping ==> s.attempt - 1 == s.row)
            && (leftover == 0 ==> s.signals == s.stops && s.attempt <= 1 + s.refusals)
  {
    SessionInv(leftover);
    RunKeepsInv(Session(leftover), run, leftover);
  }

  /** How often the loop went to sleep before a dial. */
  function Sleeps(run: seq<Label>): nat {
    if run == [] then 0 else (if run[0] == StartTimer then 1 else 0) + Sleeps(run[1..])
  }

  lemma {:induction false} AttemptGrowsWithSleeps(s: State, run: seq<Label>)
    requires After(s, run).Some? && DialOk !in run
    ensures After(s, run).value.attempt == s.attempt + Sleeps(run)
    decreases |run|
  {
    if run != [] {
      assert run[0] in run && forall l :: l in run[1..] ==> l in run;
      AttemptGrowsWithSleeps(Step(s, run[0]), run[1..]);
    }
  }

  /** A dial that succeeds starts the count again: from then on the attempt is the number of sleeps since. */
  lemma AttemptStartsAgain(s: State, later: seq<Label>)
    requires Enabled(s, DialOk) && After(Step(s, DialOk), later).Some? && DialOk !in later
    ensures After(Step(s, DialOk), later).value.attempt == Sleeps(later)
  {
    AttemptGrowsWithSleeps(Step(s, DialOk), later);
  }

  // ------------------------------------------------------------------- after Stop

  /** Once Stop has been called nothing is published any more, and a sleeping loop dials at most once more, in vain. */
  lemma {:induction false} StopIsFinal(s: State, run: seq<Label>)
    requires s.stopping && After(s, run).Some?
    ensures var t := After(s, run).value;
            && t.stopping && t.last == s.last && t.live <= s.live && t.refused <= s.refused
            && t.dials + (if t.loop == Sleeping then 1 else 0) <= s.dials + if s.loop == Sleeping then 1 else 0
    decreases |run|
  {
    if run != [] {
      StopIsFinal(Step(s, run[0]), run[1..]);
    }
  }

  predicate IsLoopStep(l: Label) {
    || l.TakeSignal? || l.SeeStopping? || l.StartTimer? || l.TimerFires? || l.DialFails? || l.DialOk? || l.DialRefused?
    || l.SeeCancel?
  }

  function LoopRank(pc: LoopPc): nat {
    match pc case Ended => 0 case Signalled => 1 case Waiting => 2 case Dialing => 3 case Sleeping => 4
  }

  /** And when the context is cancelled the loop gets to its end: it can always step, and only towards it. */
  lemma StoppedLoopEnds(s: State)
    requires s.stopping && s.cancelled && s.loop != Ended
    ensures exists l :: IsLoopStep(l) && Enabled(s, l)
    ensures forall l :: IsLoopStep(l) && Enabled(s, l) ==> LoopRank(Step(s, l).loop) < LoopRank(s.loop)
  {
    var l := match s.loop
             case Signalled => SeeStopping
             case Dialing => DialFails
             case _ => SeeCancel;
    assert IsLoopStep(l) && Enabled(s, l);
  }

  // ------------------------------------------------------------- dialling again

  /** Something is left that can lead to a dial: a live connection, a token, or the loop at work. */
  predicate CanRecover(s: State) {
    s.live != {} || s.signal > 0 || AtWork(s.loop)
  }

  /** Nobody calls Stop, neither on the client nor on a connection it could not start. */
  predicate Unaided(run: seq<Label>) {
    forall k :: 0 <= k < |run| ==> !run[k].StopCalled? && !run[k].StopRefused?
  }

  /** `run` is possible, unaided, and dials. */
  predicate DialsAgain(s: State, run: seq<Label>) {
    Unaided(run) && After(s, run).Some? && After(s, run).value.dials > s.dials
  }

  /** A client with nothing left stays that way; even a call of Stop does not make it dial. */
  lemma {:induction false} DeadStaysDead(s: State, run: seq<Label>)
    requires !CanRecover(s) && After(s, run).Some?
    requires forall k :: 0 <= k < |run| ==> !run[k].StopRefused?
    ensures var t := After(s, run).value; !CanRecover(t) && t.dials == s.dials
    decreases |run|
  {
    if run != [] {
      assert !run[0].StopRefused?;
      DeadStaysDead(Step(s, run[0]), run[1..]);
    }
  }

  /** All that is enabled then is calling Stop, and the end of a stop body that has signalled. */
  lemma DeadOnlyStops(s: State)
    requires !CanRecover(s) && !s.stopping && AttemptInv(s)
    ensures forall l :: Enabled(s, l) <==>
              || l == StopCalled || (l.StopRefused? && l.id in s.refused) || (l.Removed? && l.id in s.closing)
  {
  }

  lemma Then(s: State, l: Label, run: seq<Label>)
    requires Enabled(s, l) && !l.StopCalled? && !l.StopRefused?
    requires Unaided(run) && After(Step(s, l), run).Some? && After(Step(s, l), run).value.dials > s.dials
    ensures DialsAgain(s, [l] + run)
  {
    RunCons(Machine(), s, l, run);
  }

  lemma FromSleeping(s: State) returns (run: seq<Label>)
    requires s.loop == Sleeping
    ensures DialsAgain(s, run)
  {
    Then(s, TimerFires, []);
    run := [TimerFires] + [];
  }

  lemma FromSignalled(s: State) returns (run: seq<Label>)
    requires s.loop == Signalled && !s.stopping
    ensures DialsAgain(s, run)
  {
    var rest := FromSleeping(Step(s, StartTimer));
    Then(s, StartTimer, rest);
    run := [StartTimer] + rest;
  }

  lemma FromSignal(s: State) returns (run: seq<Label>)
    requires s.loop == Waiting && s.signal > 0 && !s.stopping
    ensures DialsAgain(s, run)
  {
    var rest := FromSignalled(Step(s, TakeSignal));
    Then(s, TakeSignal, rest);
    run := [TakeSignal] + rest;
  }

  lemma FromWaiting(s: State) returns (run: seq<Label>)
    requires s.loop == Waiting && !s.stopping && (s.live != {} || s.signal > 0)
    ensures DialsAgain(s, run)
  {
    if s.signal > 0 {
      run := FromSignal(s);
    } else {
      var id :| id in s.live;
      var rest := FromSignal(Step(s, ConnStops(id)));
      Then(s, ConnStops(id), rest);
      run := [ConnStops(id)] + rest;
    }
  }

  /** From a dial, success is possible once the manager has a place, and what has stopped will leave. */
  lemma {:induction false} FromDialing(s: State) returns (run: seq<Label>)
    requires s.loop == Dialing && !s.stopping
    ensures DialsAgain(s, run)
    decreases |s.closing|
  {
    var l := if s.live != {} then DialFails else DialOk;
    if s.live == {} && s.closing != {} {
      var id :| id in s.closing;
      var t := Step(s, Removed(id));
      assert |t.closing| == |s.closing| - 1;
      var rest := FromDialing(t);
      Then(s, Removed(id), rest);
      run := [Removed(id)] + rest;
    } else {
      var t := Step(s, l);
      assert s.live == {} ==> s.last + 1 in t.live;
      var rest := FromWaiting(t);
      Then(s, l, rest);
      run := [l] + rest;
    }
  }

  /**
   Exactly when the client can still reconnect by itself: as long as nobody calls Stop,
   some continuation dials again if and only if a connection is live, a token is
   waiting, or the loop is at work on one.
   */
  lemma DialsAgainIff(s: State)
    requires AttemptInv(s) && !s.stopping
    ensures (exists run :: DialsAgain(s, run)) <==> CanRecover(s)
  {
    if CanRecover(s) {
      var run;
      match s.loop {
        case Waiting => run := FromWaiting(s);
        case Signalled => run := FromSignalled(s);
        case Sleeping => run := FromSleeping(s);
        case Dialing => run := FromDialing(s);
      }
      assert DialsAgain(s, run);
    } else {
      forall run | Unaided(run) && After(s, run).Some? ensures !DialsAgain(s, run) {
        DeadStaysDead(s, run);
      }
    }
  }

  predicate IsFailure(l: Label) { l == DialFails || l == DialRefused }

  /**
   What the comment promises, exactly: a dial that fails, or whose connection the
   manager refuses, is followed by another one in some continuation if and only if
   something else was left: a second connection still live, or a second token.
   */
  lemma FailureIsRetriedIff(leftover: nat, run: seq<Label>, l: Label)
    requires After(Session(leftover), run).Some?
    requires IsFailure(l) && Enabled(After(Session(leftover), run).value, l)
    requires !After(Session(leftover), run).value.stopping
    ensures var s := After(Session(leftover), run).value;
            (exists later :: DialsAgain(Step(s, l), later)) <==> s.live != {} || s.signal > 0
  {
    SessionInv(leftover);
    RunKeepsInv(Session(leftover), run, leftover);
    DialsAgainIff(Step(After(Session(leftover), run).value, l));
  }

  /**
   Hence in a session that began without a leftover token a failed re-dial is never
   retried: nothing dials again in any continuation in which no refused connection is
   stopped by hand, and until Stop is called nothing else can happen.
   */
  lemma FailedRedialIsFinal(run: seq<Label>, l: Label, later: seq<Label>)
    requires After(Session(0), run).Some?
    requires IsFailure(l) && Enabled(After(Session(0), run).value, l)
    requires After(Step(After(Session(0), run).value, l), later).Some?
    requires forall k :: 0 <= k < |later| ==> !later[k].StopRefused?
    ensures var s := After(Session(0), run).value;
            var t := After(Step(s, l), later).value;
            && t.dials == s.dials && t.live == {} && t.signal == 0
            && (!t.stopping ==> forall e :: Enabled(t, e) ==> e == StopCalled || e.StopRefused? || e.Removed?)
  {
    var s := After(Session(0), run).value;
    SessionInv(0);
    RunKeepsInv(Session(0), run, 0);
    assert |s.live| == 0 && s.signal == 0;
    var u := Step(s, l);
    StepKeepsTokenInv(s, l, 1);
    StepKeepsCountInv(s, l, 0);
    DeadStaysDead(u, later);
    RunKeepsInv(u, later, 0);
    if !After(u, later).value.stopping {
      DeadOnlyStops(After(u, later).value);
    }
  }

  /** The only connection has signalled and is still being removed, with the loop at `pc`. */
  function Dropped(pc: LoopPc, signal: nat, attempt: nat, dials: nat): State {
    State(pc, signal, {}, {1}, {}, 1, attempt, false, false, 1, 1, dials, 0, 0, 0)
  }

  /** A failed dial is reached: the connection drops, the timer fires, and the dial fails or comes too early. */
  lemma OneFailureSuffices()
    ensures var s := After(Session(0), [ConnStops(1)] + ([TakeSignal] + ([StartTimer] + ([TimerFires] + []))));
            s == Some(Dropped(Dialing, 0, 1, 1)) && Enabled(s.value, DialFails) && Enabled(s.value, DialRefused)
  {
    assert {1} - {1} == {} && {} + {1} == {1};
    RunCons(Machine(), Session(0), ConnStops(1), [TakeSignal] + ([StartTimer] + ([TimerFires] + [])));
    assert Step(Session(0), ConnStops(1)) == Dropped(Waiting, 1, 0, 0);
    RunCons(Machine(), Dropped(Waiting, 1, 0, 0), TakeSignal, [StartTimer] + ([TimerFires] + []));
    RunCons(Machine(), Dropped(Signalled, 0, 0, 0), StartTimer, [TimerFires] + []);
    RunCons(Machine(), Dropped(Sleeping, 0, 1, 0), TimerFires, []);
  }
}
