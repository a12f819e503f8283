/**
 Liveness checking (knet/heartbeat.go, and IsAlive and touch of knet/connection.go).
 Times are integers; a checker started at `start` ticks at start + interval,
 start + 2 * interval and so on, and a check takes no time.
 */
module Heartbeat {
  import opened Common

  /** Never touched, or no timeout: alive. */
  predicate IsAlive(last: int, timeout: int, now: int) {
    timeout <= 0 || last == 0 || now - last <= timeout
  }

  predicate Increasing(touches: seq<int>) {
    forall i, j :: 0 <= i < j < |touches| ==> touches[i] <= touches[j]
  }

  /** The timestamp a check at `now` finds: the latest touch so far, 0 when there is none. */
  function LastTouch(touches: seq<int>, now: int): int {
    if touches == [] then 0
    else if touches[|touches| - 1] <= now then touches[|touches| - 1]
    else LastTouch(touches[..|touches| - 1], now)
  }

  lemma {:induction false} LastTouchIsLatest(touches: seq<int>, now: int, i: nat)
    requires Increasing(touches) && i < |touches| && touches[i] <= now
    ensures touches[i] <= LastTouch(touches, now) <= now
    decreases |touches|
  {
    if touches[|touches| - 1] > now {
      LastTouchIsLatest(touches[..|touches| - 1], now, i);
    }
  }

  /** It is a touch that has happened, or 0 if none has. */
  lemma {:induction false} LastTouchHappened(touches: seq<int>, now: int)
    ensures var t := LastTouch(touches, now);
            if exists i :: 0 <= i < |touches| && touches[i] <= now then t in touches && t <= now else t == 0
    decreases |touches|
  {
    if touches != [] && touches[|touches| - 1] > now {
      var front := touches[..|touches| - 1];
      LastTouchHappened(front, now);
      assert forall i :: 0 <= i < |front| ==> front[i] == touches[i];
      if exists i :: 0 <= i < |touches| && touches[i] <= now {
        var i :| 0 <= i < |touches| && touches[i] <= now;
        assert front[i] <= now;
      }
    }
  }

  function Tick(start: int, interval: int, k: nat): int { start + k * interval }

  /** Tick `k` finds the peer dead. */
  predicate Reported(start: int, interval: int, timeout: int, touches: seq<int>, k: nat) {
    var now := Tick(start, interval, k);
    !IsAlive(LastTouch(touches, now), timeout, now)
  }

  /** A peer heard from within the timeout is never reported. */
  lemma NoFalseAlarm(start: int, interval: int, timeout: int, touches: seq<int>, k: nat, i: nat)
    requires Increasing(touches) && i < |touches|
    requires touches[i] <= Tick(start, interval, k) <= touches[i] + timeout
    ensures !Reported(start, interval, timeout, touches, k)
  {
    LastTouchIsLatest(touches, Tick(start, interval, k), i);
  }

  /** A peer that was never heard is not reported, and without a timeout nobody is. */
  lemma NothingToReport(start: int, interval: int, timeout: int, touches: seq<int>, k: nat)
    requires touches == [] || timeout <= 0
    ensures !Reported(start, interval, timeout, touches, k)
  {
  }

  lemma TicksGrow(start: int, interval: int, j: nat, k: nat)
    requires interval > 0 && j <= k
    ensures Tick(start, interval, j) <= Tick(start, interval, k)
  {
    assert k * interval - j * interval == (k - j) * interval;
  }

  /** After its last touch at `t`, a silent peer is reported at a tick from `t` on exactly when the timeout is over. */
  lemma SilentPeer(start: int, interval: int, timeout: int, touches: seq<int>, k: nat)
    requires Increasing(touches) && touches != [] && timeout > 0
    requires var t := touches[|touches| - 1]; t > 0 && t <= Tick(start, interval, k)
    ensures Reported(start, interval, timeout, touches, k)
       <==> Tick(start, interval, k) > touches[|touches| - 1] + timeout
  {
  }

  /**
   With the checker started no later than the last touch plus the timeout, a peer
   silent since `t` is first reported at a tick in (t + timeout, t + timeout + interval],
   and at every later tick again.
   */
  lemma DetectionWindow(start: int, interval: int, timeout: int, touches: seq<int>) returns (k: nat)
    requires interval > 0 && timeout > 0 && Increasing(touches) && touches != []
    requires touches[|touches| - 1] > 0 && start <= touches[|touches| - 1] + timeout
    ensures var t := touches[|touches| - 1];
            && k > 0
            && t + timeout < Tick(start, interval, k) <= t + timeout + interval
            && (forall j: nat :: j >= k ==> Reported(start, interval, timeout, touches, j))
            && (forall j: nat :: j < k && Tick(start, interval, j) >= t ==>
                  !Reported(start, interval, timeout, touches, j))
  {
    var t := touches[|touches| - 1];
    var wait := t + timeout - start;
    k := wait / interval + 1;
    assert wait == (k - 1) * interval + wait % interval;
    assert k * interval == (k - 1) * interval + interval;
    forall j: nat | j >= k ensures Reported(start, interval, timeout, touches, j) {
      TicksGrow(start, interval, k, j);
      SilentPeer(start, interval, timeout, touches, j);
    }
    forall j: nat | j < k && Tick(start, interval, j) >= t ensures !Reported(start, interval, timeout, touches, j) {
      TicksGrow(start, interval, j, k - 1);
      SilentPeer(start, interval, timeout, touches, j);
    }
  }

  /** The ticks among the first `n` that report the peer. */
  function Reports(start: int, interval: int, timeout: int, touches: seq<int>, n: nat): seq<int> {
    if n == 0 then []
    else
      Reports(start, interval, timeout, touches, n - 1)
      + if Reported(start, interval, timeout, touches, n) then [Tick(start, interval, n)] else []
  }

  const DEFAULT_INTERVAL := 10_000_000_000
  const DEFAULT_MSG_ID := 99999

  /** A function the user may have set, known only by which one it is. */
  datatype Callback = Default | Custom(id: nat)

  /** Everything that configures a checker; a template hands it to its clones. */
  datatype Setup = Setup(
    interval: int,
    timeout: int,
    makeMsg: Callback,
    onRemoteNotAlive: Callback,
    beatFunc: Option<Callback>,
    msgID: nat,
    routerSlices: seq<nat>)

  /** What wakes the loop up. */
  datatype Wake = TickerFires | QuitCloses

  /** The ticks the loop serves before it sees the quit channel closed. */
  function Served(wakes: seq<Wake>): nat {
    if wakes == [] || wakes[0] == QuitCloses then 0 else 1 + Served(wakes[1..])
  }

  /** The loop serves the ticks in front of the first quit, and nothing after it. */
  lemma {:induction false} ServedUpToQuit(wakes: seq<Wake>)
    ensures Served(wakes) <= |wakes|
    ensures forall i :: 0 <= i < Served(wakes) ==> wakes[i] == TickerFires
    ensures Served(wakes) < |wakes| ==> wakes[Served(wakes)] == QuitCloses
    decreases |wakes|
  {
    if wakes != [] && wakes[0] == TickerFires {
      ServedUpToQuit(wakes[1..]);
      assert forall i :: 1 <= i < Served(wakes) ==> wakes[i] == wakes[1..][i - 1];
    }
  }

  /** So a quit at `q` is the end of it. */
  lemma QuitEndsLoop(wakes: seq<Wake>, q: nat)
    requires q < |wakes| && wakes[q] == QuitCloses
    ensures Served(wakes) <= q
  {
    ServedUpToQuit(wakes);
  }

  /** The peer is found dead at `now`: it was touched, and the last touch by then is longer ago than the timeout. */
  predicate FoundDead(touches: seq<int>, timeout: int, now: int) {
    !IsAlive(LastTouch(touches, now), timeout, now)
  }

  /** Every tick up to the `n`th that finds the peer dead is reported. */
  lemma {:induction false} DeadTicksAreReported(start: int, interval: int, timeout: int, touches: seq<int>, n: nat,
                                                k: nat)
    requires 1 <= k <= n && FoundDead(touches, timeout, start + k * interval)
    ensures start + k * interval in Reports(start, interval, timeout, touches, n)
    decreases n
  {
    if k < n {
      DeadTicksAreReported(start, interval, timeout, touches, n - 1, k);
    }
  }

  /** And whatever is reported is one of these ticks. */
  lemma {:induction false} ReportsAreDeadTicks(start: int, interval: int, timeout: int, touches: seq<int>, n: nat,
                                               x: int)
    returns (k: nat)
    requires x in Reports(start, interval, timeout, touches, n)
    ensures 1 <= k <= n && x == start + k * interval && FoundDead(touches, timeout, x)
    decreases n
  {
    k := n;
    if x in Reports(start, interval, timeout, touches, n - 1) {
      k := ReportsAreDeadTicks(start, interval, timeout, touches, n - 1, x);
    }
  }

  predicate Ascending(xs: seq<int>) { forall i, j :: 0 <= i < j < |xs| ==> xs[i] < xs[j] }

  /** In order, each once. */
  lemma {:induction false} ReportsAscend(start: int, interval: int, timeout: int, touches: seq<int>, n: nat)
    requires interval > 0
    ensures Ascending(Reports(start, interval, timeout, touches, n))
    decreases n
  {
    if n > 0 {
      var before := Reports(start, interval, timeout, touches, n - 1);
      ReportsAscend(start, interval, timeout, touches, n - 1);
      forall i | 0 <= i < |before| ensures before[i] < start + n * interval {
        var k := ReportsAreDeadTicks(start, interval, timeout, touches, n - 1, before[i]);
        TicksGrow(start, interval, k, n - 1);
        assert n * interval == (n - 1) * interval + interval;
      }
    }
  }

  class HeartBeatChecker {
    var setup: Setup
    var bound: bool            // a connection is bound
    var started: bool
    var loops: nat             // loop goroutines launched
    var quits: nat             // quit channels closed
    var wired: bool            // metrics are attached
    var missed: nat            // the heartbeat_missed metric
    var reports: seq<int>      // calls of onRemoteNotAlive
    var customBeats: seq<int>  // calls of beatFunc
    var beats: seq<int>        // heartbeat messages sent

    /** Every goroutine but that of a started checker has been told to quit, once. */
    ghost predicate Valid()
      reads this
    {
      loops == quits + if started then 1 else 0
    }

    constructor (interval: int)
      ensures Valid() && !started && !bound && !wired && missed == 0
      ensures reports == [] && customBeats == [] && beats == []
      ensures setup.interval == (if interval <= 0 then 10_000_000_000 else interval) > 0
      ensures setup == Setup(setup.interval, 3 * setup.interval, Default, Default, None, 99999, [])
    {
      var n := if interval <= 0 then DEFAULT_INTERVAL else interval;
      setup := Setup(n, 3 * n, Default, Default, None, DEFAULT_MSG_ID, []);
      bound, started, loops, quits, wired, missed := false, false, 0, 0, false, 0;
      reports, customBeats, beats := [], [], [];
    }

    method SetTimeout(timeout: int)
      modifies this`setup
      ensures setup == old(setup).(timeout := if timeout > 0 then timeout else old(setup.timeout))
    {
      if timeout > 0 {
        setup := setup.(timeout := timeout);
      }
    }

    method BindRouterSlices(msgID: nat, handlers: seq<nat>)
      modifies this`setup
      ensures handlers == [] ==> setup == old(setup)
      ensures handlers != [] ==>
                setup == old(setup).(msgID := msgID, routerSlices := old(setup.routerSlices) + handlers)
    {
      if |handlers| > 0 {
        setup := setup.(msgID := msgID, routerSlices := setup.routerSlices + handlers);
      }
    }

    /** From now on ticks are served for a connection. */
    method BindConn()
      modifies this`bound
      ensures bound
    {
      bound := true;
    }

    /** From now on missed heartbeats are counted. */
    method SetMetrics()
      modifies this`wired
      ensures wired
    {
      wired := true;
    }

    method SetHeartbeatFunc(f: Option<Callback>)
      modifies this`setup
      ensures setup == if f.Some? then old(setup).(beatFunc := f) else old(setup)
    {
      if f.Some? {
        setup := setup.(beatFunc := f);
      }
    }

    /** Idempotent: a started checker keeps its one goroutine. */
    method Start()
      requires Valid()
      modifies this`started, this`loops
      ensures Valid() && started && loops == quits + 1
    {
      if !started {
        started, loops := true, loops + 1;
      }
    }

    /** Idempotent: no quit channel is closed twice, and no goroutine is left. */
    method Stop()
      requires Valid()
      modifies this`started, this`quits
      ensures Valid() && !started && quits == loops
    {
      if started {
        started, quits := false, quits + 1;
      }
    }

    /** A clone has the whole configuration, is neither bound nor started, and loses the metrics. */
    method Clone() returns (c: HeartBeatChecker)
      ensures fresh(c) && c.Valid() && c.setup == setup
      ensures !c.started && !c.bound && !c.wired && c.reports == [] && c.customBeats == [] && c.beats == []
    {
      c := new HeartBeatChecker(setup.interval);
      c.setup := setup;
    }

    /**
     One tick. Without a connection nothing happens; a dead peer is reported (and counted
     if metrics are attached); a live one gets a heartbeat, through beatFunc if there is one.
     */
    method Check(last: int, now: int)
      modifies this`missed, this`reports, this`customBeats, this`beats
      ensures !bound ==> unchanged(this)
      ensures bound && !IsAlive(last, setup.timeout, now) ==>
                reports == old(reports) + [now] && missed == old(missed) + (if wired then 1 else 0)
                && unchanged(this`customBeats) && unchanged(this`beats)
      ensures bound && IsAlive(last, setup.timeout, now) ==>
                unchanged(this`reports) && unchanged(this`missed)
                && customBeats == old(customBeats) + (if setup.beatFunc.Some? then [now] else [])
                && beats == old(beats) + (if setup.beatFunc.Some? then [] else [now])
    {
      if !bound {
        return;
      }
      if !IsAlive(last, setup.timeout, now) {
        if wired {
          missed := missed + 1;
        }
        reports := reports + [now];
        return;
      }
      if setup.beatFunc.Some? {
        customBeats := customBeats + [now];
        return;
      }
      beats := beats + [now];
    }

    /**
     The ticker loop on a connection touched at `touches`: it serves ticks until it sees
     the quit channel closed, and reports exactly those that find the peer dead.
     */
    method Loop(start: int, touches: seq<int>, wakes: seq<Wake>)
      modifies this`missed, this`reports, this`customBeats, this`beats
      ensures var n := Served(wakes);
              var found := if bound then Reports(start, setup.interval, setup.timeout, touches, n) else [];
              && reports == old(reports) + found
              && missed == old(missed) + (if wired then |found| else 0)
              && |reports| + |customBeats| + |beats|
                 == old(|reports| + |customBeats| + |beats|) + (if bound then n else 0)
    {
      var k := 0;
      assert wakes[0..] == wakes;
      while k < |wakes|
        invariant 0 <= k <= |wakes| && Served(wakes) == k + Served(wakes[k..])
        invariant var found := if bound then Reports(start, setup.interval, setup.timeout, touches, k) else [];
                  reports == old(reports) + found && missed == old(missed) + (if wired then |found| else 0)
        invariant |reports| + |customBeats| + |beats|
               == old(|reports| + |customBeats| + |beats|) + (if bound then k else 0)
      {
        if wakes[k] == QuitCloses {
          return;
        }
        assert wakes[k..][1..] == wakes[k + 1..];
        ghost var found := Reports(start, setup.interval, setup.timeout, touches, k);
        k := k + 1;
        var now := Tick(start, setup.interval, k);
        ghost var dead := Reported(start, setup.interval, setup.timeout, touches, k);
        Check(LastTouch(touches, now), now);
        Assoc(old(reports), found, if dead then [now] else []);
        assert Reports(start, setup.interval, setup.timeout, touches, k) == found + if dead then [now] else [];
      }
    }
  }
}
