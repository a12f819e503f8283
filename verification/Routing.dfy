/**
 Registration of routes and middleware, and dispatch of a request to its chain
 (knet/msgHandler.go, knet/routerSlices.go). A group handle remembers only its
 range, so `Use` on it extends the first registered group with that range; the
 intended meaning, where each handle owns its list, is `Intended`.
 */
module Routing {
  import opened Common
  import opened Codec
  import opened Middleware

  datatype Group = Group(start: UInt32, end: UInt32, handlers: seq<Handler>) {
    predicate Covers(id: UInt32) { start <= id <= end }
    predicate SameRange(g: Group) { start == g.start && end == g.end }
    function For(id: UInt32): seq<Handler> { if Covers(id) then handlers else [] }
  }

  datatype Table = Table(global: seq<Handler>, groups: seq<Group>, routes: map<UInt32, seq<Handler>>)

  const EMPTY := Table([], [], map[])

  /** A registration call; groups are referred to by the order in which their handles were obtained. */
  datatype Op =
    | Use(hs: seq<Handler>)
    | AddRoute(id: UInt32, hs: seq<Handler>)
    | NewGroup(start: UInt32, end: UInt32, hs: seq<Handler>)
    | GroupUse(g: nat, hs: seq<Handler>)
    | GroupAddRoute(g: nat, id: UInt32, hs: seq<Handler>)

  function WithRoute(t: Table, id: UInt32, hs: seq<Handler>): Table {
    if id in t.routes then t else t.(routes := t.routes[id := hs])
  }

  function Extend(gs: seq<Group>, j: nat, hs: seq<Handler>): seq<Group>
    requires j < |gs|
  {
    gs[j := gs[j].(handlers := gs[j].handlers + hs)]
  }

  /** The first group with the range of `g`, or |gs|. */
  function FirstLike(gs: seq<Group>, g: Group): (j: nat)
    ensures j <= |gs|
    ensures j < |gs| ==> gs[j].SameRange(g)
    ensures forall i :: 0 <= i < j ==> !gs[i].SameRange(g)
  {
    if gs == [] then 0 else if gs[0].SameRange(g) then 0 else 1 + FirstLike(gs[1..], g)
  }

  /** What a registration call does. Failing calls leave the table alone. */
  function Apply(t: Table, op: Op): Table {
    match op
    case Use(hs) => t.(global := t.global + hs)
    case AddRoute(id, hs) => WithRoute(t, id, hs)
    case NewGroup(start, end, hs) => if start > end then t else t.(groups := t.groups + [Group(start, end, hs)])
    case GroupUse(g, hs) =>
      if g < |t.groups| && FirstLike(t.groups, t.groups[g]) < |t.groups|
      then t.(groups := Extend(t.groups, FirstLike(t.groups, t.groups[g]), hs)) else t
    case GroupAddRoute(g, id, hs) =>
      if g < |t.groups| && t.groups[g].Covers(id) then WithRoute(t, id, hs) else t
  }

  /** What it is meant to do: a group handle extends its own group. */
  function Intended(t: Table, op: Op): Table {
    if op.GroupUse? then
      if op.g < |t.groups| then t.(groups := Extend(t.groups, op.g, op.hs)) else t
    else Apply(t, op)
  }

  function ApplyAll(t: Table, ops: seq<Op>): Table
    decreases |ops|
  {
    if ops == [] then t else Apply(ApplyAll(t, ops[..|ops| - 1]), ops[|ops| - 1])
  }

  function IntendedAll(t: Table, ops: seq<Op>): Table
    decreases |ops|
  {
    if ops == [] then t else Intended(IntendedAll(t, ops[..|ops| - 1]), ops[|ops| - 1])
  }

  // -------------------------------------------------------------------- chains

  /** Handlers of the groups covering `id`, in registration order. */
  function Matching(gs: seq<Group>, id: UInt32): seq<Handler> {
    if gs == [] then [] else gs[0].For(id) + Matching(gs[1..], id)
  }

  function Route(t: Table, id: UInt32): seq<Handler> {
    if id in t.routes then t.routes[id] else []
  }

  function Chain(t: Table, id: UInt32): seq<Handler> {
    t.global + Matching(t.groups, id) + Route(t, id)
  }

  lemma {:induction false} MatchingAppend(a: seq<Group>, b: seq<Group>, id: UInt32)
    ensures Matching(a + b, id) == Matching(a, id) + Matching(b, id)
    decreases |a|
  {
    if a == [] {
      assert a + b == b;
    } else {
      MatchingAppend(a[1..], b, id);
      assert (a + b)[1..] == a[1..] + b;
    }
  }

  lemma MatchingOne(g: Group, id: UInt32)
    ensures Matching([g], id) == g.For(id)
  {
    assert [g][1..] == [];
  }

  lemma MatchingSnoc(gs: seq<Group>, g: Group, id: UInt32)
    ensures Matching(gs + [g], id) == Matching(gs, id) + g.For(id)
  {
    MatchingAppend(gs, [g], id);
    MatchingOne(g, id);
  }

  // ------------------------------------------------------------ the registry

  class MsgHandler {
    var apis: map<UInt32, seq<Handler>>
    var groupRanges: seq<Group>
    var globalHandlers: seq<Handler>
    var wired: bool           // dispatch metrics are attached
    var panics: nat           // the panics metric

    constructor ()
      ensures View() == EMPTY && !wired && panics == 0
    {
      apis, groupRanges, globalHandlers, wired, panics := map[], [], [], false, 0;
    }

    method SetMetrics()
      modifies this`wired
      ensures wired
    {
      wired := true;
    }

    function View(): Table
      reads this
    {
      Table(globalHandlers, groupRanges, apis)
    }

    method AddSlices(id: UInt32, hs: seq<Handler>) returns (ok: bool)
      modifies this
      ensures ok == (id !in old(apis))
      ensures View() == Apply(old(View()), AddRoute(id, hs)) && panics == old(panics)
    {
      if id in apis {
        return false;
      }
      apis := apis[id := [] + hs];
      assert [] + hs == hs;
      ok := true;
    }

    /** Returns the index that stands for the new handle. */
    method NewGroupHandle(start: UInt32, end: UInt32, hs: seq<Handler>) returns (handle: Option<nat>)
      modifies this
      ensures handle == if start > end then None else Some(|old(groupRanges)|)
      ensures View() == Apply(old(View()), NewGroup(start, end, hs)) && panics == old(panics)
    {
      if start > end {
        return None;
      }
      handle := Some(|groupRanges|);
      groupRanges := groupRanges + [Group(start, end, hs)];
    }

    method UseGlobal(hs: seq<Handler>)
      modifies this
      ensures View() == Apply(old(View()), Use(hs)) && panics == old(panics)
    {
      if |hs| == 0 {
        assert globalHandlers + hs == globalHandlers;
        return;
      }
      globalHandlers := globalHandlers + hs;
    }

    /** groupRouterSlices.Use: searches for the handle's range and extends the first group that has it. */
    method UseOnGroup(handle: nat, hs: seq<Handler>)
      requires handle < |groupRanges|
      modifies this
      ensures View() == Apply(old(View()), GroupUse(handle, hs)) && panics == old(panics)
    {
      var start, end := groupRanges[handle].start, groupRanges[handle].end;
      ghost var first := FirstLike(groupRanges, groupRanges[handle]);
      var i := 0;
      while i < |groupRanges|
        invariant 0 <= i <= first && View() == old(View()) && panics == old(panics)
      {
        if groupRanges[i].start == start && groupRanges[i].end == end {
          groupRanges := groupRanges[i := groupRanges[i].(handlers := groupRanges[i].handlers + hs)];
          return;
        }
        i := i + 1;
      }
    }

    method AddHandlerInGroup(handle: nat, id: UInt32, hs: seq<Handler>) returns (ok: bool)
      requires handle < |groupRanges|
      modifies this
      ensures ok == (old(groupRanges)[handle].start <= id <= old(groupRanges)[handle].end && id !in old(apis))
      ensures View() == Apply(old(View()), GroupAddRoute(handle, id, hs)) && panics == old(panics)
    {
      if id < groupRanges[handle].start || id > groupRanges[handle].end {
        return false;
      }
      ok := AddSlices(id, hs);
    }

    /** The group handlers for `id`, collected as Execute does. */
    method CollectGroups(id: UInt32) returns (hs: seq<Handler>)
      ensures hs == Matching(groupRanges, id)
    {
      hs := [];
      for i := 0 to |groupRanges|
        invariant hs == Matching(groupRanges[..i], id)
      {
        assert groupRanges[..i + 1] == groupRanges[..i] + [groupRanges[i]];
        MatchingSnoc(groupRanges[..i], groupRanges[i], id);
        if groupRanges[i].start <= id <= groupRanges[i].end {
          hs := hs + groupRanges[i].handlers;
        }
      }
      assert groupRanges[..|groupRanges|] == groupRanges;
    }

    /**
     Builds the chain for the message id the request has on arrival and runs it;
     a panic ends here, and is counted if metrics are attached. SetMessage calls along the way do not change the chain.
     */
    method Execute(request: Request)
      modifies this, request
      ensures View() == old(View()) && wired == old(wired)
      ensures var r := RunChain(Chain(old(View()), old(request.msg.id)), old(request.msg));
              && request.trace == old(request.trace) + r.trace
              && panics == old(panics) + if r.panicked && wired then 1 else 0
    {
      var id := request.msg.id;
      ghost var chain := Chain(View(), id);
      var groups := CollectGroups(id);
      if id !in apis && |globalHandlers| == 0 && |groups| == 0 {
        assert chain == [];
        return;
      }
      var all := globalHandlers + groups;
      all := all + if id in apis then apis[id] else [];
      assert all == chain;
      request.BindRouterSlices(all);
      var panicked := request.RouterSlicesNext();
      if panicked && wired {
        panics := panics + 1;
      }
    }
  }

  // ------------------------------------------------------- handles and their groups

  predicate DistinctRanges(gs: seq<Group>) {
    forall i, j :: 0 <= i < j < |gs| ==> !gs[i].SameRange(gs[j])
  }

  predicate SameRanges(a: seq<Group>, b: seq<Group>) {
    |a| == |b| && forall i :: 0 <= i < |a| ==> a[i].SameRange(b[i])
  }

  lemma StepKeepsRanges(t: Table, u: Table, op: Op)
    requires SameRanges(t.groups, u.groups)
    ensures SameRanges(Apply(t, op).groups, Intended(u, op).groups)
  {
  }

  lemma ApplyKeepsOlderRanges(t: Table, op: Op)
    ensures |t.groups| <= |Apply(t, op).groups|
    ensures forall i :: 0 <= i < |t.groups| ==> Apply(t, op).groups[i].SameRange(t.groups[i])
  {
  }

  /**
   When all group ranges differ, the registry means what was intended: the two
   tables are equal, and with them every chain.
   */
  lemma {:induction false} DistinctRangesMeanIntended(ops: seq<Op>)
    requires DistinctRanges(ApplyAll(EMPTY, ops).groups)
    ensures ApplyAll(EMPTY, ops) == IntendedAll(EMPTY, ops)
    decreases |ops|
  {
    if ops != [] {
      var front, op := ops[..|ops| - 1], ops[|ops| - 1];
      var t := ApplyAll(EMPTY, front);
      ApplyKeepsOlderRanges(t, op);
      DistinctRangesMeanIntended(front);
      if op.GroupUse? && op.g < |t.groups| {
        assert FirstLike(t.groups, t.groups[op.g]) == op.g;
      }
    }
  }

  function Added(g: Group, hs: seq<Handler>, id: UInt32): seq<Handler> {
    if g.Covers(id) then hs else []
  }

  lemma MatchingAfterExtend(gs: seq<Group>, j: nat, hs: seq<Handler>, id: UInt32)
    requires j < |gs|
    ensures Matching(Extend(gs, j, hs), id)
         == Matching(gs[..j + 1], id) + Added(gs[j], hs, id) + Matching(gs[j + 1..], id)
  {
    var gs' := Extend(gs, j, hs);
    assert gs' == gs[..j] + [gs'[j]] + gs[j + 1..] && gs[..j + 1] == gs[..j] + [gs[j]];
    MatchingAppend(gs[..j] + [gs'[j]], gs[j + 1..], id);
    MatchingSnoc(gs[..j], gs'[j], id);
    MatchingSnoc(gs[..j], gs[j], id);
    assert gs'[j].For(id) == gs[j].For(id) + Added(gs[j], hs, id);
  }

  lemma MatchingExtend(gs: seq<Group>, j: nat, hs: seq<Handler>, id: UInt32)
    requires j < |gs|
    ensures multiset(Matching(Extend(gs, j, hs), id)) == multiset(Matching(gs, id)) + multiset(Added(gs[j], hs, id))
  {
    assert gs == gs[..j + 1] + gs[j + 1..];
    MatchingAppend(gs[..j + 1], gs[j + 1..], id);
    MatchingAfterExtend(gs, j, hs, id);
  }

  /** Same middleware and routes for `id`, group middleware possibly in another order. */
  ghost predicate SameUpToOrder(t: Table, u: Table, id: UInt32) {
    && SameRanges(t.groups, u.groups) && t.global == u.global && t.routes == u.routes
    && multiset(Matching(t.groups, id)) == multiset(Matching(u.groups, id))
  }

  lemma GroupUseKeepsHandlers(t: Table, u: Table, g: nat, hs: seq<Handler>, id: UInt32)
    requires SameUpToOrder(t, u, id)
    ensures multiset(Matching(Apply(t, GroupUse(g, hs)).groups, id))
         == multiset(Matching(Intended(u, GroupUse(g, hs)).groups, id))
  {
    if g < |t.groups| {
      var j := FirstLike(t.groups, t.groups[g]);
      assert j <= g && t.groups[j].Covers(id) == u.groups[g].Covers(id);
      MatchingExtend(t.groups, j, hs, id);
      MatchingExtend(u.groups, g, hs, id);
    }
  }

  lemma NewGroupKeepsHandlers(t: Table, u: Table, g: Group, id: UInt32)
    requires SameUpToOrder(t, u, id)
    ensures multiset(Matching(t.groups + [g], id)) == multiset(Matching(u.groups + [g], id))
  {
    MatchingSnoc(t.groups, g, id);
    MatchingSnoc(u.groups, g, id);
  }

  lemma StepKeepsGlobalAndRoutes(t: Table, u: Table, op: Op)
    requires SameRanges(t.groups, u.groups) && t.global == u.global && t.routes == u.routes
    ensures Apply(t, op).global == Intended(u, op).global && Apply(t, op).routes == Intended(u, op).routes
  {
  }

  lemma StepKeepsHandlers(t: Table, u: Table, op: Op, id: UInt32)
    requires SameUpToOrder(t, u, id)
    ensures multiset(Matching(Apply(t, op).groups, id)) == multiset(Matching(Intended(u, op).groups, id))
  {
    if op.GroupUse? {
      GroupUseKeepsHandlers(t, u, op.g, op.hs, id);
      assert op == GroupUse(op.g, op.hs);
    } else if op.NewGroup? && op.start <= op.end {
      var g := Group(op.start, op.end, op.hs);
      NewGroupKeepsHandlers(t, u, g, id);
      assert Apply(t, op).groups == t.groups + [g] && Intended(u, op).groups == u.groups + [g];
    } else {
      assert Apply(t, op).groups == t.groups && Intended(u, op).groups == u.groups;
    }
  }

  lemma StepKeepsSameUpToOrder(t: Table, u: Table, op: Op, id: UInt32)
    requires SameUpToOrder(t, u, id)
    ensures SameUpToOrder(Apply(t, op), Intended(u, op), id)
  {
    StepKeepsRanges(t, u, op);
    StepKeepsGlobalAndRoutes(t, u, op);
    StepKeepsHandlers(t, u, op, id);
  }

  lemma {:induction false} TablesAgreeUpToOrder(ops: seq<Op>, id: UInt32)
    ensures SameUpToOrder(ApplyAll(EMPTY, ops), IntendedAll(EMPTY, ops), id)
    decreases |ops|
  {
    if ops != [] {
      var front := ops[..|ops| - 1];
      TablesAgreeUpToOrder(front, id);
      StepKeepsSameUpToOrder(ApplyAll(EMPTY, front), IntendedAll(EMPTY, front), ops[|ops| - 1], id);
    }
  }

  /** Whatever the ranges, every message id gets the intended handlers, as a multiset. */
  lemma ChainsHoldIntendedHandlers(ops: seq<Op>, id: UInt32)
    ensures multiset(Chain(ApplyAll(EMPTY, ops), id)) == multiset(Chain(IntendedAll(EMPTY, ops), id))
  {
    TablesAgreeUpToOrder(ops, id);
    var t, u := ApplyAll(EMPTY, ops), IntendedAll(EMPTY, ops);
    assert multiset(Chain(t, id)) == multiset(t.global) + multiset(Matching(t.groups, id)) + multiset(Route(t, id));
    assert multiset(Chain(u, id)) == multiset(u.global) + multiset(Matching(u.groups, id)) + multiset(Route(u, id));
  }

  lemma SameAroundIff(a: seq<Handler>, x: seq<Handler>, b: seq<Handler>, c: seq<Handler>)
    ensures a + x + (b + c) == (a + b) + x + c <==> x + b == b + x
  {
    var l, r := a + x + (b + c), (a + b) + x + c;
    assert l == a + (x + b) + c && r == a + (b + x) + c;
    assert l[|a|..|a| + |x| + |b|] == x + b && r[|a|..|a| + |x| + |b|] == b + x;
  }

  /** What `Use` on handle `g` should have jumped over: the middleware from its range's first group up to its own. */
  function Between(gs: seq<Group>, g: nat, id: UInt32): seq<Handler>
    requires g < |gs|
  {
    var j := FirstLike(gs, gs[g]);
    if j <= g then Matching(gs[j + 1..g + 1], id) else []
  }

  lemma BetweenCuts(gs: seq<Group>, g: nat, id: UInt32)
    requires g < |gs|
    ensures var j, b := FirstLike(gs, gs[g]), Between(gs, g, id);
            && j <= g
            && Matching(gs[..g + 1], id) == Matching(gs[..j + 1], id) + b
            && Matching(gs[j + 1..], id) == b + Matching(gs[g + 1..], id)
  {
    var j := FirstLike(gs, gs[g]);
    assert j <= g;
    var p, m, r := gs[..j + 1], gs[j + 1..g + 1], gs[g + 1..];
    assert gs[..g + 1] == p + m;
    assert gs[j + 1..] == m + r;
    MatchingAppend(p, m, id);
    MatchingAppend(m, r, id);
  }

  /**
   Exactly when `Use` on a group handle keeps the intended order for a message id:
   when the added middleware commutes with what lies between the first group of
   that range and the handle's own group; in particular when they are the same group.
   */
  lemma GroupUseKeepsOrderIff(gs: seq<Group>, g: nat, hs: seq<Handler>, id: UInt32)
    requires g < |gs|
    ensures var j, x, b := FirstLike(gs, gs[g]), Added(gs[g], hs, id), Between(gs, g, id);
            && j <= g
            && (Matching(Extend(gs, j, hs), id) == Matching(Extend(gs, g, hs), id) <==> x + b == b + x)
            && (j == g ==> b == [])
  {
    var j, x := FirstLike(gs, gs[g]), Added(gs[g], hs, id);
    BetweenCuts(gs, g, id);
    MatchingAfterExtend(gs, j, hs, id);
    MatchingAfterExtend(gs, g, hs, id);
    SameAroundIff(Matching(gs[..j + 1], id), x, Between(gs, g, id), Matching(gs[g + 1..], id));
  }

  // ------------------------------- exactly when the registry means what was intended

  /** The handle's own group is the first of its range. */
  predicate IsFirst(gs: seq<Group>, g: nat)
    requires g < |gs|
  {
    FirstLike(gs, gs[g]) == g
  }

  /** Every `Use` that passes something is made on the first handle of its range. */
  predicate OnFirstHandles(ops: seq<Op>) {
    forall i :: 0 <= i < |ops| && ops[i].GroupUse? && ops[i].hs != [] ==>
      var gs := ApplyAll(EMPTY, ops[..i]).groups;
      ops[i].g < |gs| ==> IsFirst(gs, ops[i].g)
  }

  lemma FirstnessIsKept(a: seq<Group>, b: seq<Group>, g: nat)
    requires g < |a| <= |b| && forall i :: 0 <= i < |a| ==> b[i].SameRange(a[i])
    ensures IsFirst(a, g) <==> IsFirst(b, g)
  {
  }

  lemma ExtendByNothing(gs: seq<Group>, j: nat)
    requires j < |gs|
    ensures Extend(gs, j, []) == gs
  {
    assert gs[j].handlers + [] == gs[j].handlers;
  }

  lemma HarmlessUse(t: Table, op: Op)
    requires op.GroupUse? && op.hs != [] && op.g < |t.groups| ==> IsFirst(t.groups, op.g)
    ensures Apply(t, op) == Intended(t, op)
  {
    if op.GroupUse? && op.g < |t.groups| && op.hs == [] {
      ExtendByNothing(t.groups, op.g);
      ExtendByNothing(t.groups, FirstLike(t.groups, t.groups[op.g]));
    }
  }

  lemma {:induction false} FirstHandlesMeanIntended(ops: seq<Op>)
    requires OnFirstHandles(ops)
    ensures ApplyAll(EMPTY, ops) == IntendedAll(EMPTY, ops)
    decreases |ops|
  {
    if ops != [] {
      var front, op := ops[..|ops| - 1], ops[|ops| - 1];
      forall i | 0 <= i < |front| ensures front[..i] == ops[..i] {
      }
      FirstHandlesMeanIntended(front);
      HarmlessUse(ApplyAll(EMPTY, front), op);
    }
  }

  /** Group `g`, not the first of its range, has at least `d` handlers less than intended. */
  predicate LagsBy(t: Table, u: Table, g: nat, d: nat) {
    && SameRanges(t.groups, u.groups) && g < |t.groups| && !IsFirst(t.groups, g)
    && |t.groups[g].handlers| + d <= |u.groups[g].handlers|
  }

  /** A group that is not the first of its range never grows. */
  lemma LaterGroupIsFrozen(t: Table, op: Op, g: nat)
    requires g < |t.groups| && !IsFirst(t.groups, g)
    ensures g < |Apply(t, op).groups| && Apply(t, op).groups[g] == t.groups[g] && !IsFirst(Apply(t, op).groups, g)
  {
    ApplyKeepsOlderRanges(t, op);
    FirstnessIsKept(t.groups, Apply(t, op).groups, g);
    if op.GroupUse? && op.g < |t.groups| {
      assert FirstLike(t.groups, t.groups[op.g]) != g;
    }
  }

  lemma IntendedOnlyGrows(u: Table, op: Op, g: nat)
    requires g < |u.groups|
    ensures g < |Intended(u, op).groups|
    ensures |Intended(u, op).groups[g].handlers|
         == |u.groups[g].handlers| + if op.GroupUse? && op.g == g then |op.hs| else 0
  {
  }

  lemma LagIsKept(t: Table, u: Table, op: Op, g: nat, d: nat)
    requires LagsBy(t, u, g, d)
    ensures LagsBy(Apply(t, op), Intended(u, op), g, d + if op.GroupUse? && op.g == g then |op.hs| else 0)
  {
    StepKeepsRanges(t, u, op);
    LaterGroupIsFrozen(t, op, g);
    IntendedOnlyGrows(u, op, g);
  }

  /** A later group is never ahead of what was intended. */
  lemma {:induction false} NeverAhead(ops: seq<Op>, g: nat)
    requires g < |ApplyAll(EMPTY, ops).groups| && !IsFirst(ApplyAll(EMPTY, ops).groups, g)
    ensures LagsBy(ApplyAll(EMPTY, ops), IntendedAll(EMPTY, ops), g, 0)
    decreases |ops|
  {
    var front, op := ops[..|ops| - 1], ops[|ops| - 1];
    var t, u := ApplyAll(EMPTY, front), IntendedAll(EMPTY, front);
    TablesAgreeUpToOrder(front, 0);
    StepKeepsRanges(t, u, op);
    ApplyKeepsOlderRanges(t, op);
    if g < |t.groups| {
      FirstnessIsKept(t.groups, Apply(t, op).groups, g);
      NeverAhead(front, g);
      LagIsKept(t, u, op, g, 0);
    }
  }

  /** Once behind, the group stays behind, so the tables never meet again. */
  lemma {:induction false} LagStays(ops: seq<Op>, n: nat, g: nat)
    requires n <= |ops| && LagsBy(ApplyAll(EMPTY, ops[..n]), IntendedAll(EMPTY, ops[..n]), g, 1)
    ensures ApplyAll(EMPTY, ops) != IntendedAll(EMPTY, ops)
    decreases |ops| - n
  {
    if n == |ops| {
      assert ops[..n] == ops;
    } else {
      assert ops[..n + 1][..n] == ops[..n];
      LagIsKept(ApplyAll(EMPTY, ops[..n]), IntendedAll(EMPTY, ops[..n]), ops[n], g, 1);
      LagStays(ops, n + 1, g);
    }
  }

  lemma LaterUseDiverges(ops: seq<Op>, i: nat, front: seq<Op>, g: nat)
    requires i < |ops| && front == ops[..i] && ops[i].GroupUse? && ops[i].g == g && ops[i].hs != []
    requires g < |ApplyAll(EMPTY, front).groups| && !IsFirst(ApplyAll(EMPTY, front).groups, g)
    ensures ApplyAll(EMPTY, ops) != IntendedAll(EMPTY, ops)
  {
    NeverAhead(front, g);
    LagIsKept(ApplyAll(EMPTY, front), IntendedAll(EMPTY, front), ops[i], g, 0);
    assert ops[..i + 1][..i] == front;
    LagStays(ops, i + 1, g);
  }

  /**
   For every sequence of registrations: the registry equals the intended one if and only
   if every `Use` on a group that passes a handler is made on the first handle of its range.
   */
  lemma MeansIntendedIff(ops: seq<Op>)
    ensures ApplyAll(EMPTY, ops) == IntendedAll(EMPTY, ops) <==> OnFirstHandles(ops)
  {
    if OnFirstHandles(ops) {
      FirstHandlesMeanIntended(ops);
    } else {
      var i :| 0 <= i < |ops| && ops[i].GroupUse? && ops[i].hs != []
               && ops[i].g < |ApplyAll(EMPTY, ops[..i]).groups|
               && !IsFirst(ApplyAll(EMPTY, ops[..i]).groups, ops[i].g);
      LaterUseDiverges(ops, i, ops[..i], ops[i].g);
    }
  }

  /** The table after two groups on the same range. */
  function TwoGroups(id: UInt32, a: seq<Handler>, b: seq<Handler>): Table {
    Table([], [Group(id, id, a), Group(id, id, b)], map[])
  }

  lemma TwoGroupsChain(id: UInt32, a: seq<Handler>, b: seq<Handler>)
    ensures Chain(TwoGroups(id, a, b), id) == a + b
  {
    var ga, gb := Group(id, id, a), Group(id, id, b);
    MatchingSnoc([], ga, id);
    MatchingSnoc([ga], gb, id);
    assert [] + [ga] == [ga] && [ga] + [gb] == [ga, gb];
  }

  lemma TwoGroupsRegistered(id: UInt32, a: seq<Handler>, b: seq<Handler>)
    ensures var ops := [NewGroup(id, id, a), NewGroup(id, id, b)];
            ApplyAll(EMPTY, ops) == TwoGroups(id, a, b) == IntendedAll(EMPTY, ops)
  {
    var one, ops := [NewGroup(id, id, a)], [NewGroup(id, id, a), NewGroup(id, id, b)];
    assert ops[..1] == one && one[..0] == [];
    var t := Table([], [Group(id, id, a)], map[]);
    assert ApplyAll(EMPTY, one) == t && IntendedAll(EMPTY, one) == t;
  }

  /** Two groups on one range: middleware added through the second handle lands before the second group's own. */
  lemma SharedRangeReorders(id: UInt32, a: seq<Handler>, b: seq<Handler>, c: seq<Handler>)
    ensures var ops := [NewGroup(id, id, a), NewGroup(id, id, b), GroupUse(1, c)];
            Chain(ApplyAll(EMPTY, ops), id) == a + c + b && Chain(IntendedAll(EMPTY, ops), id) == a + (b + c)
  {
    var ops := [NewGroup(id, id, a), NewGroup(id, id, b), GroupUse(1, c)];
    var t := TwoGroups(id, a, b);
    TwoGroupsRegistered(id, a, b);
    assert ops[..2] == [NewGroup(id, id, a), NewGroup(id, id, b)];
    assert FirstLike(t.groups, t.groups[1]) == 0;
    assert Apply(t, GroupUse(1, c)) == TwoGroups(id, a + c, b);
    assert Intended(t, GroupUse(1, c)) == TwoGroups(id, a, b + c);
    TwoGroupsChain(id, a + c, b);
    TwoGroupsChain(id, a, b + c);
  }

  // ---------------------------------------- the table, read off the calls themselves

  /** Everything passed to Use, in the order of the calls. */
  function UsedGlobally(ops: seq<Op>): seq<Handler> {
    if ops == [] then [] else (if ops[0].Use? then ops[0].hs else []) + UsedGlobally(ops[1..])
  }

  /** The successful Group calls, in order. */
  function GroupCalls(ops: seq<Op>): seq<Op> {
    if ops == [] then []
    else (if ops[0].NewGroup? && ops[0].start <= ops[0].end then [ops[0]] else []) + GroupCalls(ops[1..])
  }

  /** Everything passed to Use on handle `g`. */
  function UsedOn(ops: seq<Op>, g: nat): seq<Handler> {
    if ops == [] then [] else (if ops[0].GroupUse? && ops[0].g == g then ops[0].hs else []) + UsedOn(ops[1..], g)
  }

  lemma {:induction false} UsedGloballySnoc(ops: seq<Op>, op: Op)
    ensures UsedGlobally(ops + [op]) == UsedGlobally(ops) + if op.Use? then op.hs else []
    decreases |ops|
  {
    if ops == [] {
      assert ops + [op] == [op] && [op][1..] == [];
    } else {
      UsedGloballySnoc(ops[1..], op);
      assert (ops + [op])[0] == ops[0] && (ops + [op])[1..] == ops[1..] + [op];
      var x, y := if ops[0].Use? then ops[0].hs else [], if op.Use? then op.hs else [];
      assert x + (UsedGlobally(ops[1..]) + y) == x + UsedGlobally(ops[1..]) + y;
    }
  }

  lemma {:induction false} GroupCallsSnoc(ops: seq<Op>, op: Op)
    ensures GroupCalls(ops + [op]) == GroupCalls(ops) + if op.NewGroup? && op.start <= op.end then [op] else []
    decreases |ops|
  {
    if ops == [] {
      assert ops + [op] == [op] && [op][1..] == [];
    } else {
      GroupCallsSnoc(ops[1..], op);
      assert (ops + [op])[0] == ops[0] && (ops + [op])[1..] == ops[1..] + [op];
      var x := if ops[0].NewGroup? && ops[0].start <= ops[0].end then [ops[0]] else [];
      var y := if op.NewGroup? && op.start <= op.end then [op] else [];
      assert x + (GroupCalls(ops[1..]) + y) == x + GroupCalls(ops[1..]) + y;
    }
  }

  lemma {:induction false} UsedOnSnoc(ops: seq<Op>, op: Op, g: nat)
    ensures UsedOn(ops + [op], g) == UsedOn(ops, g) + if op.GroupUse? && op.g == g then op.hs else []
    decreases |ops|
  {
    if ops == [] {
      assert ops + [op] == [op] && [op][1..] == [];
    } else {
      UsedOnSnoc(ops[1..], op, g);
      assert (ops + [op])[0] == ops[0] && (ops + [op])[1..] == ops[1..] + [op];
      var x := if ops[0].GroupUse? && ops[0].g == g then ops[0].hs else [];
      var y := if op.GroupUse? && op.g == g then op.hs else [];
      assert x + (UsedOn(ops[1..], g) + y) == x + UsedOn(ops[1..], g) + y;
    }
  }

  /** Handles are used only after their group exists. */
  predicate HandlesExist(ops: seq<Op>) {
    forall i :: 0 <= i < |ops| && ops[i].GroupUse? ==> ops[i].g < |GroupCalls(ops[..i])|
  }

  lemma {:induction false} GlobalIsWhatWasUsed(ops: seq<Op>)
    ensures ApplyAll(EMPTY, ops).global == UsedGlobally(ops)
    decreases |ops|
  {
    if ops != [] {
      var front, op := ops[..|ops| - 1], ops[|ops| - 1];
      GlobalIsWhatWasUsed(front);
      UsedGloballySnoc(front, op);
      assert ops == front + [op];
    }
  }

  /** What the intended table holds for the group of handle `g`. */
  ghost predicate OwnsItsList(ops: seq<Op>, g: nat)
    requires |IntendedAll(EMPTY, ops).groups| == |GroupCalls(ops)| && g < |GroupCalls(ops)|
  {
    var call := GroupCalls(ops)[g];
    call.NewGroup? && IntendedAll(EMPTY, ops).groups[g] == Group(call.start, call.end, call.hs + UsedOn(ops, g))
  }

  lemma {:induction false} UsedOnUnknown(ops: seq<Op>, g: nat)
    requires HandlesExist(ops) && g >= |GroupCalls(ops)|
    ensures UsedOn(ops, g) == []
    decreases |ops|
  {
    if ops != [] {
      var front, op := ops[..|ops| - 1], ops[|ops| - 1];
      assert ops == front + [op] && ops[..|front|] == front;
      GroupCallsSnoc(front, op);
      UsedOnSnoc(front, op, g);
      PrefixHandles(ops, |front|);
      UsedOnUnknown(front, g);
    }
  }

  lemma PrefixHandles(ops: seq<Op>, n: nat)
    requires HandlesExist(ops) && n <= |ops|
    ensures HandlesExist(ops[..n])
  {
    forall i | 0 <= i < n && ops[i].GroupUse? ensures ops[i].g < |GroupCalls(ops[..n][..i])| {
      assert ops[..n][..i] == ops[..i];
    }
  }

  lemma OwnershipStep(front: seq<Op>, op: Op, g: nat)
    requires HandlesExist(front) && (op.GroupUse? ==> op.g < |GroupCalls(front)|)
    requires |IntendedAll(EMPTY, front).groups| == |GroupCalls(front)|
    requires g < |GroupCalls(front)| ==> OwnsItsList(front, g)
    requires g < |GroupCalls(front + [op])|
    ensures |IntendedAll(EMPTY, front + [op]).groups| == |GroupCalls(front + [op])|
    ensures OwnsItsList(front + [op], g)
  {
    var ops := front + [op];
    assert ops[..|ops| - 1] == front && ops[|ops| - 1] == op;
    GroupCallsSnoc(front, op);
    UsedOnSnoc(front, op, g);
    if g == |GroupCalls(front)| {
      UsedOnUnknown(front, g);
      assert op.hs + [] == op.hs;
    } else {
      var call := GroupCalls(front)[g];
      assert call.hs + UsedOn(front, g) + [] == call.hs + UsedOn(front, g);
      if op.GroupUse? && op.g == g {
        assert call.hs + UsedOn(front, g) + op.hs == call.hs + (UsedOn(front, g) + op.hs);
      }
    }
  }

  lemma {:induction false} GroupCount(ops: seq<Op>)
    ensures |IntendedAll(EMPTY, ops).groups| == |GroupCalls(ops)|
    decreases |ops|
  {
    if ops != [] {
      var front, op := ops[..|ops| - 1], ops[|ops| - 1];
      GroupCount(front);
      GroupCallsSnoc(front, op);
      assert ops == front + [op];
    }
  }

  /**
   What is intended, read off the calls: the group of handle `g` holds what its Group
   call passed, followed by everything passed to Use on that handle.
   */
  lemma {:induction false} HandleOwnsItsList(ops: seq<Op>, g: nat)
    requires HandlesExist(ops) && g < |GroupCalls(ops)|
    ensures |IntendedAll(EMPTY, ops).groups| == |GroupCalls(ops)|
    ensures OwnsItsList(ops, g)
    decreases |ops|
  {
    GroupCount(ops);
    if ops != [] {
      var front, op := ops[..|ops| - 1], ops[|ops| - 1];
      assert ops == front + [op] && ops[..|front|] == front;
      PrefixHandles(ops, |front|);
      GroupCount(front);
      if g < |GroupCalls(front)| { HandleOwnsItsList(front, g); }
      OwnershipStep(front, op, g);
    }
  }

  lemma {:induction false} ApplyAllAppend(t: Table, a: seq<Op>, b: seq<Op>)
    ensures ApplyAll(t, a + b) == ApplyAll(ApplyAll(t, a), b)
    decreases |b|
  {
    if b == [] {
      assert a + b == a;
    } else {
      var front := b[..|b| - 1];
      ApplyAllAppend(t, a, front);
      assert (a + b)[..|a + b| - 1] == a + front;
    }
  }

  /** The first registration of a message id is the one that stays, whatever follows. */
  lemma FirstRegistrationWins(before: seq<Op>, id: UInt32, hs: seq<Handler>, later: seq<Op>)
    requires id !in ApplyAll(EMPTY, before).routes
    ensures var t := ApplyAll(EMPTY, before + [AddRoute(id, hs)] + later);
            id in t.routes && t.routes[id] == hs
  {
    var ops := before + [AddRoute(id, hs)];
    assert ops[..|before|] == before;
    ApplyAllAppend(EMPTY, ops, later);
    RoutesAreStable(ApplyAll(EMPTY, ops), later, id);
  }

  /** The route handlers of a message id never change once registered. */
  lemma {:induction false} RoutesAreStable(t: Table, ops: seq<Op>, id: UInt32)
    requires id in t.routes
    ensures id in ApplyAll(t, ops).routes && ApplyAll(t, ops).routes[id] == t.routes[id]
    decreases |ops|
  {
    if ops != [] {
      RoutesAreStable(t, ops[..|ops| - 1], id);
    }
  }

  // ------------------------------------------- the chain, read off the calls themselves

  /** A successful Group call for this range. */
  predicate ForRange(call: Op, start: UInt32, end: UInt32) {
    call.NewGroup? && call.start == start && call.end == end
  }

  predicate CallCovers(call: Op, id: UInt32) { call.NewGroup? && call.start <= id <= call.end }

  /** What the last of `ops` passes to Use on a handle of this range, given the Group calls before it. */
  function UseOnRange(calls: seq<Op>, op: Op, start: UInt32, end: UInt32): seq<Handler> {
    if op.GroupUse? && op.g < |calls| && ForRange(calls[op.g], start, end) then op.hs else []
  }

  /** Everything passed to Use on any handle of this range, in the order of the calls. */
  function UsesOnRange(ops: seq<Op>, start: UInt32, end: UInt32): seq<Handler> {
    if ops == [] then []
    else
      var front := ops[..|ops| - 1];
      UsesOnRange(front, start, end) + UseOnRange(GroupCalls(front), ops[|ops| - 1], start, end)
  }

  /** No earlier Group call has the same range. */
  predicate FirstOfRange(calls: seq<Op>, i: nat)
    requires i < |calls|
  {
    calls[i].NewGroup? && forall j :: 0 <= j < i ==> !ForRange(calls[j], calls[i].start, calls[i].end)
  }

  /** What the group of the `i`th Group call holds. */
  function HeldBy(ops: seq<Op>, i: nat): seq<Handler>
    requires i < |GroupCalls(ops)|
  {
    var call := GroupCalls(ops)[i];
    if !call.NewGroup? then []
    else call.hs + if FirstOfRange(GroupCalls(ops), i) then UsesOnRange(ops, call.start, call.end) else []
  }

  /** The handlers of the first call that registers `id`, on its own or through a group that covers it. */
  function FirstRegistered(ops: seq<Op>, id: UInt32): Option<seq<Handler>> {
    if ops == [] then None
    else
      var front, op := ops[..|ops| - 1], ops[|ops| - 1];
      if FirstRegistered(front, id).Some? then FirstRegistered(front, id)
      else if op.AddRoute? && op.id == id then Some(op.hs)
      else if op.GroupAddRoute? && op.id == id && op.g < |GroupCalls(front)| && CallCovers(GroupCalls(front)[op.g], id)
      then Some(op.hs)
      else None
  }

  lemma {:induction false} GroupCallsAreGroups(ops: seq<Op>)
    ensures forall i :: 0 <= i < |GroupCalls(ops)| ==> GroupCalls(ops)[i].NewGroup?
    decreases |ops|
  {
    if ops != [] { GroupCallsAreGroups(ops[1..]); }
  }

  /** The groups of the registry are those of the Group calls, range by range. */
  predicate SameCalls(gs: seq<Group>, calls: seq<Op>) {
    |gs| == |calls| && forall i :: 0 <= i < |gs| ==> ForRange(calls[i], gs[i].start, gs[i].end)
  }

  lemma SameCallsStep(t: Table, calls: seq<Op>, op: Op)
    requires SameCalls(t.groups, calls)
    ensures SameCalls(Apply(t, op).groups, calls + if op.NewGroup? && op.start <= op.end then [op] else [])
  {
  }

  lemma {:induction false} GroupsAreCalls(ops: seq<Op>)
    ensures SameCalls(ApplyAll(EMPTY, ops).groups, GroupCalls(ops))
    decreases |ops|
  {
    if ops != [] {
      var front, op := ops[..|ops| - 1], ops[|ops| - 1];
      assert ops == front + [op];
      GroupsAreCalls(front);
      GroupCallsSnoc(front, op);
      SameCallsStep(ApplyAll(EMPTY, front), GroupCalls(front), op);
    }
  }

  /** The route handlers of an id are those of the first call that registers it. */
  lemma {:induction false} RouteIsFirstRegistered(ops: seq<Op>, id: UInt32)
    ensures var t, r := ApplyAll(EMPTY, ops), FirstRegistered(ops, id);
            (id in t.routes <==> r.Some?) && (r.Some? ==> t.routes[id] == r.value)
    decreases |ops|
  {
    if ops != [] {
      var front := ops[..|ops| - 1];
      RouteIsFirstRegistered(front, id);
      GroupsAreCalls(front);
    }
  }

  lemma {:induction false} UnknownRangeIsUnused(ops: seq<Op>, start: UInt32, end: UInt32)
    requires forall j :: 0 <= j < |GroupCalls(ops)| ==> !ForRange(GroupCalls(ops)[j], start, end)
    ensures UsesOnRange(ops, start, end) == []
    decreases |ops|
  {
    if ops != [] {
      var front, op := ops[..|ops| - 1], ops[|ops| - 1];
      assert ops == front + [op];
      GroupCallsSnoc(front, op);
      assert forall j :: 0 <= j < |GroupCalls(front)| ==> GroupCalls(front)[j] == GroupCalls(ops)[j];
      UnknownRangeIsUnused(front, start, end);
    }
  }

  /** The first group of a range gets what a call passes to Use on any handle of that range, and no other group does. */
  lemma UseLands(gs: seq<Group>, calls: seq<Op>, op: Op, i: nat)
    requires SameCalls(gs, calls) && i < |gs|
    ensures var t := Apply(Table([], gs, map[]), op);
            && i < |t.groups|
            && t.groups[i].handlers
               == gs[i].handlers
                  + if FirstOfRange(calls, i) then UseOnRange(calls, op, gs[i].start, gs[i].end) else []
  {
    assert ForRange(calls[i], gs[i].start, gs[i].end);
    assert gs[i].handlers + [] == gs[i].handlers;
    if op.GroupUse? && op.g < |gs| {
      var j := FirstLike(gs, gs[op.g]);
      assert ForRange(calls[op.g], gs[op.g].start, gs[op.g].end) && ForRange(calls[j], gs[j].start, gs[j].end);
      assert forall x :: 0 <= x < |gs| ==> ForRange(calls[x], gs[x].start, gs[x].end);
    }
  }

  lemma GroupsDependOnGroups(t: Table, op: Op)
    ensures Apply(t, op).groups == Apply(Table([], t.groups, map[]), op).groups
  {
  }

  lemma HeldStep(front: seq<Op>, op: Op, i: nat)
    requires i < |GroupCalls(front)|
    ensures i < |GroupCalls(front + [op])| && GroupCalls(front + [op])[i] == GroupCalls(front)[i]
    ensures var calls := GroupCalls(front);
            calls[i].NewGroup? ==>
              HeldBy(front + [op], i)
              == HeldBy(front, i)
                 + if FirstOfRange(calls, i) then UseOnRange(calls, op, calls[i].start, calls[i].end) else []
  {
    var ops, calls := front + [op], GroupCalls(front);
    GroupCallsSnoc(front, op);
    assert ops[..|ops| - 1] == front && ops[|ops| - 1] == op;
    assert forall j :: 0 <= j <= i ==> GroupCalls(ops)[j] == calls[j];
    if calls[i].NewGroup? {
      var u := UsesOnRange(front, calls[i].start, calls[i].end);
      var x := UseOnRange(calls, op, calls[i].start, calls[i].end);
      assert calls[i].hs + (u + x) == calls[i].hs + u + x;
      assert calls[i].hs + [] + [] == calls[i].hs + [];
    }
  }

  lemma NewGroupHolds(front: seq<Op>, op: Op)
    requires op.NewGroup? && op.start <= op.end
    ensures var i := |GroupCalls(front)|;
            i < |GroupCalls(front + [op])| && GroupCalls(front + [op])[i] == op && HeldBy(front + [op], i) == op.hs
  {
    var ops, i := front + [op], |GroupCalls(front)|;
    GroupCallsSnoc(front, op);
    assert ops[..|ops| - 1] == front && ops[|ops| - 1] == op;
    assert op.hs + [] == op.hs;
    if FirstOfRange(GroupCalls(ops), i) {
      assert forall j :: 0 <= j < i ==> GroupCalls(ops)[j] == GroupCalls(front)[j];
      UnknownRangeIsUnused(front, op.start, op.end);
    }
  }

  /**
   What each group really holds, read off the calls: what its Group call passed; and, if
   it is the first of its range, everything passed to Use on any handle of that range.
   */
  lemma {:induction false} GroupsHoldWhatWasPassed(ops: seq<Op>, i: nat)
    requires i < |GroupCalls(ops)|
    ensures i < |ApplyAll(EMPTY, ops).groups| && ApplyAll(EMPTY, ops).groups[i].handlers == HeldBy(ops, i)
    decreases |ops|
  {
    var front, op := ops[..|ops| - 1], ops[|ops| - 1];
    assert ops == front + [op];
    var t := ApplyAll(EMPTY, front);
    GroupsAreCalls(front);
    GroupsAreCalls(ops);
    GroupCallsSnoc(front, op);
    GroupsDependOnGroups(t, op);
    if i < |GroupCalls(front)| {
      GroupsHoldWhatWasPassed(front, i);
      UseLands(t.groups, GroupCalls(front), op, i);
      HeldStep(front, op, i);
      assert ForRange(GroupCalls(front)[i], t.groups[i].start, t.groups[i].end);
    } else {
      NewGroupHolds(front, op);
    }
  }

  /** What the first `n` groups contribute to the chain of `id`, in the order of their Group calls. */
  function GroupPart(ops: seq<Op>, id: UInt32, n: nat): seq<Handler>
    requires n <= |GroupCalls(ops)|
  {
    if n == 0 then []
    else GroupPart(ops, id, n - 1) + if CallCovers(GroupCalls(ops)[n - 1], id) then HeldBy(ops, n - 1) else []
  }

  lemma {:induction false} MatchingIsGroupPart(ops: seq<Op>, id: UInt32, n: nat)
    requires n <= |GroupCalls(ops)|
    ensures n <= |ApplyAll(EMPTY, ops).groups|
    ensures Matching(ApplyAll(EMPTY, ops).groups[..n], id) == GroupPart(ops, id, n)
    decreases n
  {
    var gs := ApplyAll(EMPTY, ops).groups;
    GroupsAreCalls(ops);
    if n > 0 {
      MatchingIsGroupPart(ops, id, n - 1);
      GroupsHoldWhatWasPassed(ops, n - 1);
      assert ForRange(GroupCalls(ops)[n - 1], gs[n - 1].start, gs[n - 1].end);
      assert gs[..n] == gs[..n - 1] + [gs[n - 1]];
      MatchingSnoc(gs[..n - 1], gs[n - 1], id);
    }
  }

  /**
   The chain that Execute runs for a message id, read off the calls: first everything
   passed to Use, in call order; then, in the order of the Group calls whose range covers
   the id, what each of these groups holds; then the handlers of the first call that
   registered the id.
   */
  lemma ChainReadsOffCalls(ops: seq<Op>, id: UInt32)
    ensures Chain(ApplyAll(EMPTY, ops), id)
         == UsedGlobally(ops) + GroupPart(ops, id, |GroupCalls(ops)|)
            + if FirstRegistered(ops, id).Some? then FirstRegistered(ops, id).value else []
  {
    var gs := ApplyAll(EMPTY, ops).groups;
    GlobalIsWhatWasUsed(ops);
    GroupsAreCalls(ops);
    MatchingIsGroupPart(ops, id, |GroupCalls(ops)|);
    RouteIsFirstRegistered(ops, id);
    assert gs[..|gs|] == gs;
  }

  /** A registration through a group that covers the id counts like any other, and the first one stays. */
  lemma GroupRegistrationStays(before: seq<Op>, g: nat, id: UInt32, hs: seq<Handler>, later: seq<Op>)
    requires id !in ApplyAll(EMPTY, before).routes
    requires g < |GroupCalls(before)| && CallCovers(GroupCalls(before)[g], id)
    ensures var t := ApplyAll(EMPTY, before + [GroupAddRoute(g, id, hs)] + later);
            id in t.routes && t.routes[id] == hs
  {
    var ops := before + [GroupAddRoute(g, id, hs)];
    assert ops[..|before|] == before;
    GroupsAreCalls(before);
    ApplyAllAppend(EMPTY, ops, later);
    RoutesAreStable(ApplyAll(EMPTY, ops), later, id);
  }
}
