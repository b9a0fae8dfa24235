/** Every plan has runs, and every run of one of its sessions is part of a run of the whole program. */
module PlanRuns {
  import opened Bytes
  import opened Scripts
  import opened Planner
  import opened SessionPools
  import opened Shards
  import opened Sharding
  import opened SessionMachine
  import opened DrainLaws
  import opened Sites
  import opened ClosingLaws
  import opened Refinement
  import opened Fleets
  import opened EndingLaws

  // --- Runs put together ---

  lemma {:induction false} FleetAppend(cfg: Config, parser: HeaderParser, f: Fleet, a: seq<Move>, b: seq<Move>)
    requires PossibleRun(cfg, parser, f, a) && PossibleRun(cfg, parser, FleetRun(cfg, parser, f, a), b)
    ensures PossibleRun(cfg, parser, f, a + b)
    ensures FleetRun(cfg, parser, f, a + b) == FleetRun(cfg, parser, FleetRun(cfg, parser, f, a), b)
    decreases |a|
  {
    if a == [] {
      assert a + b == b;
    } else {
      FleetAppend(cfg, parser, FleetStep(cfg, parser, f, a[0]), a[1..], b);
      assert (a + b)[1..] == a[1..] + b;
    }
  }

  lemma FleetCons(cfg: Config, parser: HeaderParser, f: Fleet, m: Move, rest: seq<Move>)
    requires Ready(cfg, f, m) && PossibleRun(cfg, parser, FleetStep(cfg, parser, f, m), rest)
    ensures PossibleRun(cfg, parser, f, [m] + rest)
    ensures FleetRun(cfg, parser, f, [m] + rest) == FleetRun(cfg, parser, FleetStep(cfg, parser, f, m), rest)
    ensures forall k :: EverStartsLive(cfg, parser, f, [m] + rest, k)
              <==> StartsLive(f, m, k) || EverStartsLive(cfg, parser, FleetStep(cfg, parser, f, m), rest, k)
  {
    assert ([m] + rest)[1..] == rest;
  }

  // --- The plan is dispatched and handled ---

  /** What a script that begins with CREATE and has no other compiles to. */
  ghost predicate CreatesFirst(actions: seq<ActionDescriptor>) {
    && actions != [] && actions[0].sessionsStart == 0 && actions[0].sessionsEnd == actions[0].count
    && forall i :: 0 <= i < |actions| ==> (actions[i].kind == Create <==> i == 0)
  }

  ghost function SpanOf(n: uint32, k: nat, i: nat): (span: Span)
    requires i < k
    ensures span.start == Bound(n, k, i) && span.end == Bound(n, k, i + 1)
  {
    BoundEnds(n, k);
    BoundAscends(n, k, i, k);
    BoundAscends(n, k, i + 1, k);
    Span(Bound(n, k, i), Bound(n, k, i + 1))
  }

  ghost function PartitionOf(n: uint32, k: nat): (spans: seq<Span>)
    requires k > 0
    ensures IsPartition(spans, n, k)
  {
    seq(k, i requires 0 <= i < k => SpanOf(n, k, i))
  }

  /** No session has run a handler, and no shard has ended. */
  ghost predicate Untouched(cfg: Config, s: Site) {
    && Shaped(s) && s.shard.exits == 0
    && forall i :: 0 <= i < |s.worlds| ==> s.worlds[i] == Initial(cfg) && s.handled[i] == 0
  }

  ghost predicate AllUntouched(cfg: Config, f: Fleet) {
    forall k :: 0 <= k < |f.sites| ==> Untouched(cfg, f.sites[k])
  }

  lemma DispatchUntouched(cfg: Config, parser: HeaderParser, f: Fleet, a: ActionDescriptor, spans: seq<Span>)
    requires AllUntouched(cfg, f) && Ready(cfg, f, Dispatch(a, spans))
    ensures AllUntouched(cfg, FleetStep(cfg, parser, f, Dispatch(a, spans)))
  {
    var t := FleetStep(cfg, parser, f, Dispatch(a, spans));
    forall k | 0 <= k < |t.sites|
      ensures Untouched(cfg, t.sites[k])
    {
      assert Untouched(cfg, f.sites[k]);
    }
  }

  /** The actions of the plan from `n` on are dispatched. */
  lemma {:induction false} DispatchRest(cfg: Config, parser: HeaderParser, f: Fleet, actions: seq<ActionDescriptor>,
                                        n: nat)
      returns (moves: seq<Move>)
    requires FleetOk(f) && AllUntouched(cfg, f) && !f.stopping && CreatesFirst(actions)
    requires 0 < n <= |actions| && f.dispatched == actions[..n]
    ensures PossibleRun(cfg, parser, f, moves)
    ensures var t := FleetRun(cfg, parser, f, moves);
            !t.stopping && t.dispatched == actions && AllUntouched(cfg, t)
    decreases |actions| - n
  {
    if n == |actions| {
      return [];
    }
    var m := Dispatch(actions[n], f.spans);
    FleetStepKeeps(cfg, parser, f, m);
    DispatchUntouched(cfg, parser, f, actions[n], f.spans);
    var rest := DispatchRest(cfg, parser, FleetStep(cfg, parser, f, m), actions, n + 1);
    FleetCons(cfg, parser, f, m, rest);
    moves := [m] + rest;
  }

  lemma DispatchPlan(cfg: Config, parser: HeaderParser, shards: nat, actions: seq<ActionDescriptor>)
      returns (moves: seq<Move>)
    requires shards > 0 && CreatesFirst(actions)
    ensures PossibleRun(cfg, parser, NewFleet(shards), moves)
    ensures var t := FleetRun(cfg, parser, NewFleet(shards), moves);
            !t.stopping && t.dispatched == actions && AllUntouched(cfg, t)
  {
    var f, spans := NewFleet(shards), PartitionOf(actions[0].count, shards);
    var m := Dispatch(actions[0], spans);
    NewFleetOk(shards);
    PartitionFits(spans, actions[0].count, shards);
    FleetStepKeeps(cfg, parser, f, m);
    DispatchUntouched(cfg, parser, f, actions[0], spans);
    assert [] + [actions[0]] == actions[..1];
    var rest := DispatchRest(cfg, parser, FleetStep(cfg, parser, f, m), actions, 1);
    FleetCons(cfg, parser, f, m, rest);
    moves := [m] + rest;
  }

  /** The queues of the shards below `k` are empty. */
  ghost predicate QueuesEmpty(f: Fleet, k: nat) {
    k <= |f.sites| && forall j :: 0 <= j < k ==> f.sites[j].shard.queue == []
  }

  lemma HandlerUntouched(cfg: Config, s: Site)
    requires Untouched(cfg, s) && HandlerReady(s) && ClosingLaws.Laws(s)
    ensures Untouched(cfg, HandlerRuns(cfg, s))
    ensures HandlerRuns(cfg, s).shard.queue == s.shard.queue[1..]
  {
    HandlerKeeps(cfg, s);
  }

  lemma HandleOne(cfg: Config, parser: HeaderParser, f: Fleet, k: nat)
    requires FleetOk(f) && AllUntouched(cfg, f) && k < |f.sites| && f.sites[k].shard.queue != []
    ensures Ready(cfg, f, HandleNext(k))
    ensures var t := FleetStep(cfg, parser, f, HandleNext(k));
            && FleetOk(t) && AllUntouched(cfg, t) && |t.sites| == |f.sites|
            && t.dispatched == f.dispatched && t.stopping == f.stopping
            && t.sites[k].shard.queue == f.sites[k].shard.queue[1..]
            && forall j :: 0 <= j < |f.sites| && j != k ==> t.sites[j] == f.sites[j]
  {
    assert Untouched(cfg, f.sites[k]);
    ShapedSites(f, k);
    FleetStepKeeps(cfg, parser, f, HandleNext(k));
    HandlerUntouched(cfg, f.sites[k]);
  }

  /** The shards from `k` on run the handlers they have been given. */
  lemma {:induction false} HandleRest(cfg: Config, parser: HeaderParser, f: Fleet, k: nat) returns (moves: seq<Move>)
    requires FleetOk(f) && AllUntouched(cfg, f) && QueuesEmpty(f, k)
    ensures PossibleRun(cfg, parser, f, moves)
    ensures var t := FleetRun(cfg, parser, f, moves);
            && |t.sites| == |f.sites| && t.dispatched == f.dispatched && t.stopping == f.stopping
            && AllUntouched(cfg, t) && QueuesEmpty(t, |t.sites|)
    decreases |f.sites| - k, if k < |f.sites| then |f.sites[k].shard.queue| else 0
  {
    if k == |f.sites| {
      return [];
    }
    if f.sites[k].shard.queue == [] {
      moves := HandleRest(cfg, parser, f, k + 1);
    } else {
      HandleOne(cfg, parser, f, k);
      var rest := HandleRest(cfg, parser, FleetStep(cfg, parser, f, HandleNext(k)), k);
      FleetCons(cfg, parser, f, HandleNext(k), rest);
      moves := [HandleNext(k)] + rest;
    }
  }

  /** A plan can be dispatched and handled in full before any session runs a handler. */
  lemma PlanHandled(cfg: Config, parser: HeaderParser, shards: nat, actions: seq<ActionDescriptor>)
      returns (moves: seq<Move>)
    requires shards > 0 && CreatesFirst(actions)
    ensures PossibleRun(cfg, parser, NewFleet(shards), moves)
    ensures var t := FleetRun(cfg, parser, NewFleet(shards), moves);
            && FleetOk(t) && |t.sites| == shards && !t.stopping && t.dispatched == actions
            && AllUntouched(cfg, t) && QueuesEmpty(t, shards)
  {
    var first := DispatchPlan(cfg, parser, shards, actions);
    NewFleetOk(shards);
    FleetRunKeeps(cfg, parser, NewFleet(shards), first);
    var f := FleetRun(cfg, parser, NewFleet(shards), first);
    var second := HandleRest(cfg, parser, f, 0);
    FleetRunKeeps(cfg, parser, f, second);
    FleetAppend(cfg, parser, NewFleet(shards), first, second);
    moves := first + second;
  }

  // --- One of its sessions runs ---

  /** The commands among `events` run the calls from `h` on, in order. */
  ghost predicate Follows(calls: seq<Call>, h: nat, events: seq<Event>)
    decreases |events|
  {
    events == []
    || (if IsCommand(events[0]) then h < |calls| && Runs(calls[h], events[0]) && Follows(calls, h + 1, events[1..])
        else Follows(calls, h, events[1..]))
  }

  ghost function Commands(events: seq<Event>): nat {
    if events == [] then 0 else (if IsCommand(events[0]) then 1 else 0) + Commands(events[1..])
  }

  /** The shard after its session `l` has run `events`: nothing else has changed but that the pool may have heard of
      disconnects. */
  ghost predicate SiteRan(cfg: Config, parser: HeaderParser, v: Site, w: Site, l: nat, events: seq<Event>)
    requires Shaped(v) && l < |v.worlds| && Possible(cfg, parser, v.worlds[l], events)
  {
    && w.worlds == v.worlds[l := Run(cfg, parser, v.worlds[l], events)]
    && w.handled == v.handled[l := v.handled[l] + Commands(events)]
    && w.shard.queue == v.shard.queue && w.shard.exits == v.shard.exits && w.shard.running == v.shard.running
    && w.shard.pool.sessions == v.shard.pool.sessions && w.shard.pool.closed == v.shard.pool.closed
  }

  lemma RanNothing(cfg: Config, parser: HeaderParser, v: Site, l: nat)
    requires Shaped(v) && l < |v.worlds|
    ensures SiteRan(cfg, parser, v, v, l, [])
  {
    assert v.worlds[l := v.worlds[l]] == v.worlds && v.handled[l := v.handled[l]] == v.handled;
  }

  lemma RanOne(cfg: Config, parser: HeaderParser, v: Site, w: Site, l: nat, e: Event, rest: seq<Event>)
    requires SessionReady(cfg, v, l, e) && Shaped(SessionRuns(cfg, parser, v, l, e))
    requires Possible(cfg, parser, Step(cfg, parser, v.worlds[l], e), rest)
    requires SiteRan(cfg, parser, SessionRuns(cfg, parser, v, l, e), w, l, rest)
    ensures Possible(cfg, parser, v.worlds[l], [e] + rest) && SiteRan(cfg, parser, v, w, l, [e] + rest)
  {
    var u := SessionRuns(cfg, parser, v, l, e);
    assert ([e] + rest)[1..] == rest;
    assert u.worlds == v.worlds[l := Step(cfg, parser, v.worlds[l], e)];
    assert u.handled == v.handled[l := v.handled[l] + if IsCommand(e) then 1 else 0] by {
      assert v.handled[l := v.handled[l]] == v.handled;
    }
  }

  /** Only shard `k` has changed. */
  ghost predicate OnlyShard(f: Fleet, t: Fleet, k: nat)
    requires k < |f.sites|
  {
    |t.sites| == |f.sites| && t == f.(sites := f.sites[k := t.sites[k]])
  }

  lemma OnlyShardTwice(f: Fleet, t: Fleet, u: Fleet, k: nat)
    requires k < |f.sites| && OnlyShard(f, t, k) && OnlyShard(t, u, k)
    ensures OnlyShard(f, u, k)
  {
    assert f.sites[k := t.sites[k]][k := u.sites[k]] == f.sites[k := u.sites[k]];
  }

  /** One handler of session `l`. */
  lemma OneMove(cfg: Config, parser: HeaderParser, f: Fleet, k: nat, l: nat, e: Event)
    requires k < |f.sites| && SessionReady(cfg, f.sites[k], l, e) && f.sites[k].shard.exits == 0
    ensures Ready(cfg, f, SessionMoves(k, l, e))
    ensures var t := FleetStep(cfg, parser, f, SessionMoves(k, l, e));
            OnlyShard(f, t, k) && t.sites[k] == SessionRuns(cfg, parser, f.sites[k], l, e)
    ensures StartsLive(f, SessionMoves(k, l, e), k) <==> IsStart(e) && f.sites[k].worlds[l].s.live
  {
  }

  lemma SessionEffect(cfg: Config, parser: HeaderParser, v: Site, l: nat, e: Event)
    requires SessionReady(cfg, v, l, e)
    ensures var u := SessionRuns(cfg, parser, v, l, e);
            && |u.worlds| == |v.worlds| && u.worlds[l] == Step(cfg, parser, v.worlds[l], e)
            && |u.handled| == |v.handled| && u.handled[l] == v.handled[l] + (if IsCommand(e) then 1 else 0)
            && u.shard.pool.sessions == v.shard.pool.sessions && u.shard.exits == v.shard.exits && Shaped(u)
  {
  }

  /** Whatever a session can do when its calls are run in order happens in some run of the whole program. */
  lemma {:induction false} SessionPlays(cfg: Config, parser: HeaderParser, f: Fleet, k: nat, l: nat, events: seq<Event>)
      returns (moves: seq<Move>)
    requires k < |f.sites| && Shaped(f.sites[k]) && l < |f.sites[k].worlds| && f.sites[k].shard.exits == 0
    requires Possible(cfg, parser, f.sites[k].worlds[l], events)
    requires Follows(f.sites[k].shard.pool.sessions[l], f.sites[k].handled[l], events)
    ensures PossibleRun(cfg, parser, f, moves)
    ensures OnlyShard(f, FleetRun(cfg, parser, f, moves), k)
    ensures SiteRan(cfg, parser, f.sites[k], FleetRun(cfg, parser, f, moves).sites[k], l, events)
    ensures EverStartsLive(cfg, parser, f, moves, k) <==> LiveStarts(cfg, parser, f.sites[k].worlds[l], events) > 0
    decreases |events|
  {
    if events == [] {
      RanNothing(cfg, parser, f.sites[k], l);
      return [];
    }
    var e, m := events[0], SessionMoves(k, l, events[0]);
    OneMove(cfg, parser, f, k, l, e);
    SessionEffect(cfg, parser, f.sites[k], l, e);
    var f' := FleetStep(cfg, parser, f, m);
    var rest := SessionPlays(cfg, parser, f', k, l, events[1..]);
    FleetCons(cfg, parser, f, m, rest);
    RanOne(cfg, parser, f.sites[k], FleetRun(cfg, parser, f', rest).sites[k], l, e, events[1..]);
    OnlyShardTwice(f, f', FleetRun(cfg, parser, f', rest), k);
    assert [e] + events[1..] == events;
    moves := [m] + rest;
    assert moves[1..] == rest;
  }

  // --- A session that stays ---

  /** One session is created and connected, and that is all. */
  const CONNECTED_ONLY := [ActionDescriptor(Create, 0, 1, 1, 0), ActionDescriptor(Connect, 0, 1, 0, 0)]

  lemma ConnectedOnlyCalls()
    ensures Flat(CONNECTED_ONLY, 0) == [Start]
  {
    assert CONNECTED_ONLY[..1] == [CONNECTED_ONLY[0]] && [CONNECTED_ONLY[0]][..0] == [];
    assert Flat([CONNECTED_ONLY[0]], 0) == [];
  }

  lemma JustConnected(cfg: Config, parser: HeaderParser, now: int)
    requires !cfg.readMessages
    ensures var events := [StartPosted] + ([ConnectDone(true, now)] + []);
            && Possible(cfg, parser, Initial(cfg), events) && Follows([Start], 0, events) && Commands(events) == 1
            && var w := Run(cfg, parser, Initial(cfg), events); w.s.live && w.io == Outstanding(0, [], [], 0)
    ensures LiveStarts(cfg, parser, Initial(cfg), [StartPosted] + ([ConnectDone(true, now)] + [])) == 0
  {
    var w1 := Step(cfg, parser, Initial(cfg), StartPosted);
    var w2 := Step(cfg, parser, w1, ConnectDone(true, now));
    assert Run(cfg, parser, w2, []) == w2 && Commands([]) == 0;
    FollowsCons([Start], 1, ConnectDone(true, now), []);
    FollowsCons([Start], 0, StartPosted, [ConnectDone(true, now)] + []);
    EventCons(cfg, parser, w1, ConnectDone(true, now), []);
    EventCons(cfg, parser, Initial(cfg), StartPosted, [ConnectDone(true, now)] + []);
  }

  lemma EventCons(cfg: Config, parser: HeaderParser, w: World, e: Event, rest: seq<Event>)
    requires Enabled(cfg, w, e) && Possible(cfg, parser, Step(cfg, parser, w, e), rest)
    ensures Possible(cfg, parser, w, [e] + rest)
    ensures Run(cfg, parser, w, [e] + rest) == Run(cfg, parser, Step(cfg, parser, w, e), rest)
    ensures Commands([e] + rest) == (if IsCommand(e) then 1 else 0) + Commands(rest)
    ensures LiveStarts(cfg, parser, w, [e] + rest)
            == (if IsStart(e) && w.s.live then 1 else 0) + LiveStarts(cfg, parser, Step(cfg, parser, w, e), rest)
  {
    assert ([e] + rest)[1..] == rest;
  }

  lemma FollowsCons(calls: seq<Call>, h: nat, e: Event, rest: seq<Event>)
    requires if IsCommand(e) then h < |calls| && Runs(calls[h], e) && Follows(calls, h + 1, rest)
             else Follows(calls, h, rest)
    ensures Follows(calls, h, [e] + rest)
  {
    assert ([e] + rest)[1..] == rest;
  }

  /** A shard is told to stop and does. */
  lemma StopsAtRest(cfg: Config, parser: HeaderParser, f: Fleet)
    requires |f.sites| == 1 && !f.stopping && AtRest(f.sites[0])
    requires f.sites[0].shard.exits == 0 && f.sites[0].shard.running
    ensures PossibleRun(cfg, parser, f, [ShutDown] + ([HandleNext(0)] + []))
    ensures !EverStartsLive(cfg, parser, f, [ShutDown] + ([HandleNext(0)] + []), 0)
    ensures var t := FleetRun(cfg, parser, f, [ShutDown] + ([HandleNext(0)] + []));
            && t.stopping && t.dispatched == f.dispatched && |t.sites| == 1
            && AtRest(t.sites[0]) && t.sites[0].worlds == f.sites[0].worlds
  {
    var f1 := FleetStep(cfg, parser, f, ShutDown);
    assert f1.sites[0].shard.queue == [ClosePool];
    var f2 := FleetStep(cfg, parser, f1, HandleNext(0));
    assert FleetRun(cfg, parser, f2, []) == f2;
    FleetCons(cfg, parser, f1, HandleNext(0), []);
    FleetCons(cfg, parser, f, ShutDown, [HandleNext(0)] + []);
  }

  lemma {:induction false} StartsLiveAppend(cfg: Config, parser: HeaderParser, f: Fleet, a: seq<Move>, b: seq<Move>,
                                            k: nat)
    requires PossibleRun(cfg, parser, f, a) && PossibleRun(cfg, parser, FleetRun(cfg, parser, f, a), b)
    ensures PossibleRun(cfg, parser, f, a + b)
    ensures EverStartsLive(cfg, parser, f, a + b, k)
            <==> EverStartsLive(cfg, parser, f, a, k)
                 || EverStartsLive(cfg, parser, FleetRun(cfg, parser, f, a), b, k)
    decreases |a|
  {
    FleetAppend(cfg, parser, f, a, b);
    if a == [] {
      assert a + b == b;
    } else {
      StartsLiveAppend(cfg, parser, FleetStep(cfg, parser, f, a[0]), a[1..], b, k);
      assert (a + b)[1..] == a[1..] + b;
    }
  }

  lemma CallsAtRest(s: ShardState, span: Span, dispatched: seq<ActionDescriptor>, l: nat)
    requires ShardOk(s, span, dispatched) && s.queue == [] && l < span.end - span.start
    ensures |s.pool.sessions| == span.end - span.start && s.pool.sessions[l] == Flat(dispatched, span.start + l)
  {
    assert CallsAgree(s, span, dispatched, l);
    assert Got(s.pool.sessions, l) + [] == Got(s.pool.sessions, l);
  }

  /** The sessions of a shard that has handled its queue have been called as the plan says. */
  lemma CallsOfSession(f: Fleet, k: nat, l: nat)
    requires FleetOk(f) && f.dispatched != [] && k < |f.sites| && f.sites[k].shard.queue == []
    requires |f.spans| == |f.sites| && f.spans[k].start + l < f.spans[k].end
    ensures Shaped(f.sites[k]) && |f.sites[k].worlds| == f.spans[k].end - f.spans[k].start
    ensures f.sites[k].shard.pool.sessions[l] == Flat(f.dispatched, f.spans[k].start + l)
  {
    assert SiteOk(f.sites[k], f.spans, k, f.dispatched, f.stopping);
    CallsAtRest(f.sites[k].shard, f.spans[k], f.dispatched, l);
  }

  /** One shard at rest whose one session is live. */
  ghost predicate OneLive(f: Fleet) {
    && |f.sites| == 1 && !f.stopping && f.dispatched == CONNECTED_ONLY
    && AtRest(f.sites[0]) && f.sites[0].shard.exits == 0 && f.sites[0].shard.running
    && |f.sites[0].worlds| == 1 && f.sites[0].worlds[0].s.live
  }

  /** One shard that has handled the plan, with its session untouched. */
  ghost predicate OneWaiting(cfg: Config, f: Fleet) {
    && |f.sites| == 1 && !f.stopping && f.dispatched == CONNECTED_ONLY
    && Untouched(cfg, f.sites[0]) && f.sites[0].shard.queue == [] && f.sites[0].shard.running
    && f.sites[0].shard.pool.sessions == [[Start]]
  }

  lemma OneShardCalls(f: Fleet)
    requires FleetOk(f) && |f.sites| == 1 && f.dispatched != [] && f.dispatched[0].count == 1
    requires Flat(f.dispatched, 0) == [Start]
    requires QueuesEmpty(f, 1) && !f.stopping
    ensures f.sites[0].shard.pool.sessions == [[Start]] && f.sites[0].shard.running
  {
    PartitionCovers(f.spans, 1, 1, 0);
    CallsOfSession(f, 0, 0);
    assert SiteOk(f.sites[0], f.spans, 0, f.dispatched, f.stopping);
    assert f.sites[0].shard.pool.sessions == [f.sites[0].shard.pool.sessions[0]];
  }

  lemma OneShardWaits(cfg: Config, parser: HeaderParser) returns (moves: seq<Move>)
    ensures PossibleRun(cfg, parser, NewFleet(1), moves)
    ensures OneWaiting(cfg, FleetRun(cfg, parser, NewFleet(1), moves))
    ensures !EverStartsLive(cfg, parser, NewFleet(1), moves, 0)
  {
    ConnectedOnlyCalls();
    moves := OneSessionWaits(cfg, parser, CONNECTED_ONLY);
    UntouchedNeverLeaked(cfg, parser, 1, moves, 0);
  }

  lemma OneSessionWaits(cfg: Config, parser: HeaderParser, actions: seq<ActionDescriptor>) returns (moves: seq<Move>)
    requires CreatesFirst(actions) && actions[0].count == 1 && Flat(actions, 0) == [Start]
    ensures PossibleRun(cfg, parser, NewFleet(1), moves)
    ensures var f := FleetRun(cfg, parser, NewFleet(1), moves);
            && |f.sites| == 1 && !f.stopping && f.dispatched == actions
            && Untouched(cfg, f.sites[0]) && f.sites[0].shard.queue == [] && f.sites[0].shard.running
            && f.sites[0].shard.pool.sessions == [[Start]]
  {
    moves := PlanHandled(cfg, parser, 1, actions);
    OneShardCalls(FleetRun(cfg, parser, NewFleet(1), moves));
  }

  /** As long as no session has run a handler, none was started while it was live. */
  lemma UntouchedNeverLeaked(cfg: Config, parser: HeaderParser, shards: nat, moves: seq<Move>, k: nat)
    requires k < shards && PossibleRun(cfg, parser, NewFleet(shards), moves)
    requires var f := FleetRun(cfg, parser, NewFleet(shards), moves); k < |f.sites| && Untouched(cfg, f.sites[k])
    ensures !EverStartsLive(cfg, parser, NewFleet(shards), moves, k)
  {
    NewFleetOk(shards);
    RunLeaks(cfg, parser, NewFleet(shards), moves, k);
    var s := FleetRun(cfg, parser, NewFleet(shards), moves).sites[k];
    forall i | 0 <= i < |s.worlds|
      ensures Leaked(s.worlds[i]) == 0
    {
      assert s.worlds[i] == Initial(cfg);
    }
  }

  lemma OneSessionConnects(cfg: Config, parser: HeaderParser, f: Fleet, now: int) returns (moves: seq<Move>)
    requires OneWaiting(cfg, f) && !cfg.readMessages
    ensures PossibleRun(cfg, parser, f, moves) && OneLive(FleetRun(cfg, parser, f, moves))
    ensures !EverStartsLive(cfg, parser, f, moves, 0)
  {
    JustConnected(cfg, parser, now);
    assert f.sites[0].worlds[0] == Initial(cfg) && f.sites[0].handled[0] == 0;
    moves := SessionPlays(cfg, parser, f, 0, 0, [StartPosted] + ([ConnectDone(true, now)] + []));
  }

  /** Shutting down does not stop sessions: a plan that creates one session and connects it, on one shard with READ
      off, can come to rest with the session live. No session was ever started while it was live, and still the
      program never ends by itself. */
  lemma LiveSessionHolds(cfg: Config, parser: HeaderParser, now: int) returns (moves: seq<Move>)
    requires !cfg.readMessages
    ensures PossibleRun(cfg, parser, NewFleet(1), moves)
    ensures !EverStartsLive(cfg, parser, NewFleet(1), moves, 0)
    ensures var f := FleetRun(cfg, parser, NewFleet(1), moves);
            && f.stopping && f.dispatched == CONNECTED_ONLY && |f.sites| == 1
            && AtRest(f.sites[0]) && !NoneLive(f.sites[0]) && !CanEnd(cfg, parser, f)
  {
    var first := OneShardWaits(cfg, parser);
    var f := FleetRun(cfg, parser, NewFleet(1), first);
    var second := OneSessionConnects(cfg, parser, f, now);
    var third := [ShutDown] + ([HandleNext(0)] + []);
    var g := FleetRun(cfg, parser, f, second);
    StopsAtRest(cfg, parser, g);
    StartsLiveAppend(cfg, parser, f, second, third, 0);
    FleetAppend(cfg, parser, f, second, third);
    StartsLiveAppend(cfg, parser, NewFleet(1), first, second + third, 0);
    FleetAppend(cfg, parser, NewFleet(1), first, second + third);
    moves := first + (second + third);
    NotReleased(cfg, parser, moves);
  }

  lemma NotReleased(cfg: Config, parser: HeaderParser, moves: seq<Move>)
    requires PossibleRun(cfg, parser, NewFleet(1), moves)
    requires var f := FleetRun(cfg, parser, NewFleet(1), moves);
             && |f.sites| == 1 && f.stopping && AtRest(f.sites[0])
             && |f.sites[0].worlds| == 1 && f.sites[0].worlds[0].s.live
    ensures var f := FleetRun(cfg, parser, NewFleet(1), moves);
            !NoneLive(f.sites[0]) && !CanEnd(cfg, parser, f)
  {
    ReleasedExactly(cfg, parser, 1, moves);
  }
}
