/** The dispatch loop inside the runs of the whole program: what the orchestrator's thread does to the fleet at each
    clock reading, and so what has been dispatched in any run. */
module DispatchRuns {
  import opened Bytes
  import opened Scripts
  import opened Planner
  import opened SessionPools
  import opened Shards
  import opened Sharding
  import opened SessionMachine
  import opened Sites
  import opened Fleets
  import opened PlanRuns
  import opened Orchestrators

  // --- What the orchestrator does in a run ---

  /** The moves of the orchestrator's thread that matter to what is dispatched, in order: an action, or None for a
      shutdown. */
  ghost function Orders(moves: seq<Move>): seq<Option<ActionDescriptor>> {
    if moves == [] then [] else OrderOf(moves[0]) + Orders(moves[1..])
  }

  function OrderOf(m: Move): seq<Option<ActionDescriptor>> {
    match m
    case Dispatch(a, _) => [Some(a)]
    case ShutDown => [None]
    case _ => []
  }

  ghost function Given(batch: seq<ActionDescriptor>): (r: seq<Option<ActionDescriptor>>)
    ensures |r| == |batch|
  {
    seq(|batch|, i requires 0 <= i < |batch| => Some(batch[i]))
  }

  /** What the loop orders when it is run at each of the readings: the actions that have become due, and the shutdown
      once there is none left. */
  ghost function LoopOrders(actions: seq<ActionDescriptor>, readings: seq<int>): seq<Option<ActionDescriptor>> {
    if readings == [] then []
    else
      var before := readings[..|readings| - 1];
      var first, next := ServeAll(actions, before).next, ServeAll(actions, readings).next;
      LoopOrders(actions, before)
      + (if first <= next <= |actions| then Given(actions[first..next]) else [])
      + (if next == |actions| then [None] else [])
  }

  /** The actions before the first shutdown. */
  ghost function Obeyed(orders: seq<Option<ActionDescriptor>>): seq<ActionDescriptor> {
    if orders == [] || orders[0].None? then [] else [orders[0].value] + Obeyed(orders[1..])
  }

  /** What a program that has dispatched `done` has dispatched once the orders are carried out. */
  ghost function Carried(done: seq<ActionDescriptor>, stopping: bool, orders: seq<Option<ActionDescriptor>>)
    : seq<ActionDescriptor>
  {
    done + if stopping then [] else Obeyed(orders)
  }

  lemma CarriedFirst(done: seq<ActionDescriptor>, stopping: bool, m: Move, rest: seq<Option<ActionDescriptor>>)
    ensures Carried(done, stopping, OrderOf(m) + rest)
            == if m.Dispatch? && !stopping then Carried(done + [m.action], stopping, rest)
               else Carried(done, stopping || m.ShutDown?, rest)
    ensures None in OrderOf(m) + rest <==> m.ShutDown? || None in rest
  {
    if m.Dispatch? {
      assert ([Some(m.action)] + rest)[1..] == rest;
      Grouped(done, [m.action], Obeyed(rest));
    } else if !m.ShutDown? {
      assert [] + rest == rest;
    }
  }

  lemma StepObeys(cfg: Config, parser: HeaderParser, f: Fleet, m: Move)
    requires Ready(cfg, f, m)
    ensures var t := FleetStep(cfg, parser, f, m);
            && t.dispatched == (if m.Dispatch? && !f.stopping then f.dispatched + [m.action] else f.dispatched)
            && t.stopping == (f.stopping || m.ShutDown?)
  {
  }

  /** In every run the actions dispatched are those ordered before the first shutdown, and the program is stopping
      exactly if there was one. */
  lemma {:induction false} RunObeys(cfg: Config, parser: HeaderParser, f: Fleet, moves: seq<Move>)
    requires PossibleRun(cfg, parser, f, moves)
    ensures var t := FleetRun(cfg, parser, f, moves);
            && t.dispatched == Carried(f.dispatched, f.stopping, Orders(moves))
            && (t.stopping <==> f.stopping || None in Orders(moves))
    decreases |moves|
  {
    if moves == [] {
      assert f.dispatched + [] == f.dispatched;
    } else {
      StepObeys(cfg, parser, f, moves[0]);
      RunObeys(cfg, parser, FleetStep(cfg, parser, f, moves[0]), moves[1..]);
      CarriedFirst(f.dispatched, f.stopping, moves[0], Orders(moves[1..]));
    }
  }

  // --- What the loop orders ---

  ghost predicate Nothing(orders: seq<Option<ActionDescriptor>>) {
    forall i :: 0 <= i < |orders| ==> orders[i].None?
  }

  /** The orders are the first `n` actions and then, if there are no more, shutdowns. */
  ghost predicate InOrder(orders: seq<Option<ActionDescriptor>>, actions: seq<ActionDescriptor>, n: nat) {
    && n <= |actions| && n <= |orders| && orders[..n] == Given(actions[..n]) && Nothing(orders[n..])
    && (orders[n..] != [] ==> n == |actions|)
  }

  lemma {:induction false} ServedBounds(actions: seq<ActionDescriptor>, readings: seq<int>)
    ensures var g := ServeAll(actions, readings);
            && g.next <= |actions| && |g.trace| == g.next && (forall j :: 0 <= j < g.next ==> g.trace[j].index == j)
            && (g.finished <==> readings != [] && g.next == |actions|)
    ensures readings != [] ==>
              ServeAll(actions, readings[..|readings| - 1]).next <= ServeAll(actions, readings).next
  {
    if readings != [] {
      ServedBounds(actions, readings[..|readings| - 1]);
      ServeExact(actions, ServeAll(actions, readings[..|readings| - 1]), readings[|readings| - 1]);
    }
  }

  lemma MoreInOrder(orders: seq<Option<ActionDescriptor>>, actions: seq<ActionDescriptor>, n: nat, next: nat)
    requires InOrder(orders, actions, n) && n <= next <= |actions|
    ensures var more := orders + Given(actions[n..next]) + if next == |actions| then [None] else [];
            InOrder(more, actions, next) && (more[next..] != [] <==> next == |actions|)
  {
    var more := orders + Given(actions[n..next]) + if next == |actions| then [None] else [];
    if n < next {
      assert orders == orders[..n];
    } else {
      assert actions[n..next] == [];
    }
  }

  lemma {:induction false} LoopInOrder(actions: seq<ActionDescriptor>, readings: seq<int>)
    ensures var orders, g := LoopOrders(actions, readings), ServeAll(actions, readings);
            InOrder(orders, actions, g.next) && (orders[g.next..] != [] <==> g.finished)
  {
    ServedBounds(actions, readings);
    if readings != [] {
      var before := readings[..|readings| - 1];
      LoopInOrder(actions, before);
      MoreInOrder(LoopOrders(actions, before), actions, ServeAll(actions, before).next,
                  ServeAll(actions, readings).next);
    }
  }

  lemma {:induction false} InOrderObeyed(orders: seq<Option<ActionDescriptor>>, actions: seq<ActionDescriptor>, n: nat)
    requires InOrder(orders, actions, n)
    ensures Obeyed(orders) == actions[..n]
    ensures None in orders <==> orders[n..] != []
  {
    if n > 0 {
      assert orders[0] == orders[..n][0] == Some(actions[0]);
      assert orders[1..][..n - 1] == orders[..n][1..] == Given(actions[1..][..n - 1]);
      assert orders[1..][n - 1..] == orders[n..];
      InOrderObeyed(orders[1..], actions[1..], n - 1);
      assert [actions[0]] + actions[1..][..n - 1] == actions[..n];
      assert orders == [orders[0]] + orders[1..];
    }
  }

  lemma InOrderPrefix(orders: seq<Option<ActionDescriptor>>, actions: seq<ActionDescriptor>, n: nat, m: nat)
    requires InOrder(orders, actions, n) && m <= |orders|
    ensures InOrder(orders[..m], actions, if m < n then m else n)
  {
    if m < n {
      assert orders[..m] == orders[..n][..m] == Given(actions[..m]);
    } else {
      assert orders[..m][..n] == orders[..n];
      assert orders[..m][n..] == orders[n..][..m - n];
    }
  }

  /** In every run in which the orchestrator's thread is at most as far as the loop at these readings orders, a first
      part of the plan has been dispatched, the whole of it once the program is stopping; and if it is as far, exactly
      what the loop has served has been dispatched, and the program is stopping exactly if the loop has finished. */
  lemma DispatchedByLoop(cfg: Config, parser: HeaderParser, shards: nat, moves: seq<Move>,
                         actions: seq<ActionDescriptor>, readings: seq<int>)
    requires PossibleRun(cfg, parser, NewFleet(shards), moves) && Orders(moves) <= LoopOrders(actions, readings)
    ensures var f, g := FleetRun(cfg, parser, NewFleet(shards), moves), ServeAll(actions, readings);
            && f.dispatched <= actions && (f.stopping ==> f.dispatched == actions)
            && (Orders(moves) == LoopOrders(actions, readings) ==>
                  g.next <= |actions| && f.dispatched == actions[..g.next] && (f.stopping <==> g.finished))
  {
    var orders, all, n := Orders(moves), LoopOrders(actions, readings), ServeAll(actions, readings).next;
    LoopInOrder(actions, readings);
    InOrderPrefix(all, actions, n, |orders|);
    assert all[..|orders|] == orders;
    RunObeys(cfg, parser, NewFleet(shards), moves);
    InOrderObeyed(orders, actions, if |orders| < n then |orders| else n);
    assert [] + Obeyed(orders) == Obeyed(orders);
    assert actions[..|actions|] == actions;
  }

  // --- What one run of the loop does ---

  ghost function ShardsOf(f: Fleet): (r: seq<ShardState>)
    ensures |r| == |f.sites|
  {
    seq(|f.sites|, k requires 0 <= k < |f.sites| => f.sites[k].shard)
  }

  ghost function Dispatches(batch: seq<ActionDescriptor>, spans: seq<Span>): seq<Move> {
    if batch == [] then [] else Dispatches(batch[..|batch| - 1], spans) + [Dispatch(batch[|batch| - 1], spans)]
  }

  lemma OrdersSnoc(moves: seq<Move>, m: Move)
    ensures Orders(moves + [m]) == Orders(moves) + OrderOf(m)
  {
    OrdersAppend(moves, [m]);
    assert [m][1..] == [];
  }

  lemma Grouped<T>(x: seq<T>, y: seq<T>, z: seq<T>)
    ensures x + (y + z) == (x + y) + z
  {
  }

  lemma OrdersFirst(a: seq<Move>, b: seq<Move>)
    requires a != []
    ensures Orders(a + b) == OrderOf(a[0]) + Orders(a[1..] + b)
  {
    assert (a + b)[1..] == a[1..] + b;
  }

  lemma {:induction false} OrdersAppend(a: seq<Move>, b: seq<Move>)
    ensures Orders(a + b) == Orders(a) + Orders(b)
  {
    if a == [] {
      assert [] + b == b;
    } else {
      OrdersAppend(a[1..], b);
      OrdersFirst(a, b);
      Grouped(OrderOf(a[0]), Orders(a[1..]), Orders(b));
    }
  }

  lemma {:induction false} DispatchOrders(batch: seq<ActionDescriptor>, spans: seq<Span>)
    ensures Orders(Dispatches(batch, spans)) == Given(batch)
  {
    if batch != [] {
      var n := |batch| - 1;
      DispatchOrders(batch[..n], spans);
      OrdersSnoc(Dispatches(batch[..n], spans), Dispatch(batch[n], spans));
    }
  }

  /** The loop may dispatch `batch`: it begins with the plan's CREATE, or comes after it. */
  ghost predicate MayDispatch(f: Fleet, batch: seq<ActionDescriptor>, spans: seq<Span>) {
    && SpansFit(spans, |f.sites|) && spans != []
    && (forall i :: 0 < i < |batch| ==> batch[i].kind != Create)
    && (batch != [] ==>
          if batch[0].kind == Create then
            && f.spans == [] && batch[0].sessionsStart == 0 && batch[0].sessionsEnd == batch[0].count
            && IsPartition(spans, batch[0].count, |f.sites|)
          else f.spans == spans)
  }

  lemma FleetSnoc(cfg: Config, parser: HeaderParser, f: Fleet, moves: seq<Move>, m: Move)
    requires PossibleRun(cfg, parser, f, moves) && Ready(cfg, FleetRun(cfg, parser, f, moves), m)
    ensures PossibleRun(cfg, parser, f, moves + [m])
    ensures FleetRun(cfg, parser, f, moves + [m]) == FleetStep(cfg, parser, FleetRun(cfg, parser, f, moves), m)
  {
    var t := FleetRun(cfg, parser, f, moves);
    var u := FleetStep(cfg, parser, t, m);
    assert PossibleRun(cfg, parser, u, []) && FleetRun(cfg, parser, u, []) == u;
    assert [m][1..] == [];
    FleetAppend(cfg, parser, f, moves, [m]);
  }

  /** Dispatching the actions one after another gives every shard its parts of them. */
  lemma {:induction false} DispatchesRun(cfg: Config, parser: HeaderParser, f: Fleet, batch: seq<ActionDescriptor>,
                                         spans: seq<Span>)
    requires MayDispatch(f, batch, spans)
    ensures PossibleRun(cfg, parser, f, Dispatches(batch, spans))
    ensures var t := FleetRun(cfg, parser, f, Dispatches(batch, spans));
            && |t.sites| == |f.sites| && t.spans == (if batch == [] then f.spans else spans) && t.stopping == f.stopping
            && forall k :: 0 <= k < |f.sites| ==> t.sites[k].shard == DistributedAll(f.sites[k].shard, batch, spans[k])
    decreases |batch|
  {
    if batch != [] {
      var n := |batch| - 1;
      DispatchesRun(cfg, parser, f, batch[..n], spans);
      FleetSnoc(cfg, parser, f, Dispatches(batch[..n], spans), Dispatch(batch[n], spans));
    }
  }

  /** The orchestrator object and the fleet are in the same state. */
  ghost predicate SameState(o: Orchestrator, f: Fleet)
    requires o.Valid()
    reads o, o.shards, set s | s in o.shards :: s.pool
  {
    && |f.sites| == |o.shards| && o.States() == ShardsOf(f)
    && f.spans == (if o.currentActionIndex == 0 then [] else o.shardRanges)
    && f.stopping == o.stopping && (o.stopping ==> o.currentActionIndex == |o.actions|)
  }

  /** What one run of the loop orders. */
  ghost function OrdersOfRun(actions: seq<ActionDescriptor>, first: nat, next: nat): seq<Option<ActionDescriptor>>
    requires first <= next <= |actions|
  {
    Given(actions[first..next]) + if next == |actions| then [None] else []
  }

  /** One run of the loop does to the shards what its orders do to the fleet. */
  lemma LoopRunsAs(cfg: Config, parser: HeaderParser, f: Fleet, given: seq<ShardState>, actions: seq<ActionDescriptor>,
                   first: nat, next: nat, spans: seq<Span>) returns (moves: seq<Move>)
    requires first <= next <= |actions| && MayDispatch(f, actions[first..next], spans)
    requires PartsGiven(ShardsOf(f), given, actions[first..next], spans)
    ensures PossibleRun(cfg, parser, f, moves) && Orders(moves) == OrdersOfRun(actions, first, next)
    ensures var t, stops := FleetRun(cfg, parser, f, moves), next == |actions| && !f.stopping;
            && |t.sites| == |f.sites| && t.spans == (if first == next then f.spans else spans)
            && ShardsOf(t) == (if stops then AllStopped(given) else given)
            && t.stopping == (f.stopping || next == |actions|)
  {
    var batch := actions[first..next];
    moves := Dispatches(batch, spans);
    DispatchesRun(cfg, parser, f, batch, spans);
    DispatchOrders(batch, spans);
    var t := FleetRun(cfg, parser, f, moves);
    assert ShardsOf(t) == given;
    if next == |actions| {
      FleetSnoc(cfg, parser, f, moves, ShutDown);
      OrdersSnoc(moves, ShutDown);
      moves := moves + [ShutDown];
    }
  }

  lemma LoopMayDispatch(f: Fleet, actions: seq<ActionDescriptor>, first: nat, next: nat, spans: seq<Span>)
    requires first <= next <= |actions| && SpansFit(spans, |f.sites|) && spans != []
    requires forall i :: 0 <= i < |actions| ==> (actions[i].kind == Create <==> i == 0)
    requires actions != [] ==> actions[0].sessionsStart == 0 && actions[0].sessionsEnd == actions[0].count
    requires if first == 0 then f.spans == [] && (next > 0 ==> IsPartition(spans, actions[0].count, |f.sites|))
             else f.spans == spans
    ensures MayDispatch(f, actions[first..next], spans)
  {
    var batch := actions[first..next];
    forall i | 0 <= i < |batch|
      ensures batch[i] == actions[first + i]
    {
    }
  }

  /** The dispatch loop of the orchestrator object at a clock reading is a run of the fleet, with the loop's orders. */
  method DispatchInFleet(o: Orchestrator, now: int, cfg: Config, ghost parser: HeaderParser, ghost f: Fleet)
      returns (ghost moves: seq<Move>)
    requires o.Valid() && SameState(o, f)
    requires o.actions != [] ==> o.actions[0].sessionsStart == 0 && o.actions[0].sessionsEnd == o.actions[0].count
    modifies o, o.shards
    ensures o.Valid() && old(o.currentActionIndex) <= o.currentActionIndex == Serve(o.actions, old(o.View()), now).next
    ensures PossibleRun(cfg, parser, f, moves) && SameState(o, FleetRun(cfg, parser, f, moves))
    ensures Orders(moves) == OrdersOfRun(o.actions, old(o.currentActionIndex), o.currentActionIndex)
  {
    ghost var first := o.currentActionIndex;
    ghost var given := o.DispatchPending(now);
    ghost var spans := if o.currentActionIndex == 0 then seq(|o.shards|, _ => Span(0, 0)) else o.shardRanges;
    LoopMayDispatch(f, o.actions, first, o.currentActionIndex, spans);
    moves := LoopRunsAs(cfg, parser, f, given, o.actions, first, o.currentActionIndex, spans);
  }

  lemma {:induction false} SameNext(actions: seq<ActionDescriptor>, g: Agenda, h: Agenda, now: int)
    requires g.next == h.next
    ensures Serve(actions, g, now).next == Serve(actions, h, now).next
    decreases |actions| - g.next
  {
    if g.next < |actions| && actions[g.next].offset <= now {
      SameNext(actions, DispatchedNext(g, now), DispatchedNext(h, now), now);
    }
  }

  /** One run of the loop more. */
  lemma LoopOrdersSnoc(actions: seq<ActionDescriptor>, readings: seq<int>, n: nat, first: nat, next: nat)
    requires n < |readings| && first == ServeAll(actions, readings[..n]).next
    requires first <= next <= |actions| && next == Serve(actions, ServeAll(actions, readings[..n]), readings[n]).next
    ensures LoopOrders(actions, readings[..n + 1])
            == LoopOrders(actions, readings[..n]) + OrdersOfRun(actions, first, next)
    ensures ServeAll(actions, readings[..n + 1]).next == next
  {
    assert readings[..n + 1][..n] == readings[..n];
    var before := LoopOrders(actions, readings[..n]);
    var batch, last := Given(actions[first..next]), if next == |actions| then [None] else [];
    Grouped(before, batch, last);
  }

  /** The orchestrator object, its loop run at each of the readings, does what a run of the fleet with the loop's
      orders does. */
  method DispatchReadings(o: Orchestrator, readings: seq<int>, cfg: Config, ghost parser: HeaderParser)
      returns (ghost moves: seq<Move>)
    requires o.Valid() && o.View() == NEW_AGENDA && SameState(o, NewFleet(|o.shards|))
    requires o.actions != [] ==> o.actions[0].sessionsStart == 0 && o.actions[0].sessionsEnd == o.actions[0].count
    modifies o, o.shards
    ensures o.Valid() && PossibleRun(cfg, parser, NewFleet(|o.shards|), moves)
    ensures Orders(moves) == LoopOrders(o.actions, readings)
    ensures SameState(o, FleetRun(cfg, parser, NewFleet(|o.shards|), moves))
  {
    ghost var start := NewFleet(|o.shards|);
    moves := [];
    assert readings[..0] == [];
    for n := 0 to |readings|
      invariant o.Valid() && o.currentActionIndex == ServeAll(o.actions, readings[..n]).next
      invariant PossibleRun(cfg, parser, start, moves) && SameState(o, FleetRun(cfg, parser, start, moves))
      invariant Orders(moves) == LoopOrders(o.actions, readings[..n])
    {
      ghost var first := o.currentActionIndex;
      SameNext(o.actions, o.View(), ServeAll(o.actions, readings[..n]), readings[n]);
      ghost var more := DispatchInFleet(o, readings[n], cfg, parser, FleetRun(cfg, parser, start, moves));
      FleetAppend(cfg, parser, start, moves, more);
      OrdersAppend(moves, more);
      LoopOrdersSnoc(o.actions, readings, n, first, o.currentActionIndex);
      moves := moves + more;
    }
    assert readings[..|readings|] == readings;
  }
}
