/** How a run of the whole program ends: which shards can end by themselves once it is shut down, which never will,
    and what a script must do about its sessions for all of them to. */
module EndingLaws {
  import opened Scripts
  import opened Planner
  import opened SessionPools
  import opened Shards
  import opened Sharding
  import opened SessionMachine
  import opened DrainLaws
  import opened Sites
  import opened ClosingLaws
  import opened Refinement
  import opened Fleets

  // --- Starts on live sessions ---

  /** The move starts a session of shard `k` that is live. */
  ghost predicate StartsLive(f: Fleet, m: Move, k: nat) {
    && m.SessionMoves? && m.k == k < |f.sites| && m.i < |f.sites[k].worlds|
    && IsStart(m.e) && f.sites[k].worlds[m.i].s.live
  }

  /** Somewhere in the run a session of shard `k` is started while it is live. */
  ghost predicate EverStartsLive(cfg: Config, parser: HeaderParser, f: Fleet, moves: seq<Move>, k: nat)
    requires PossibleRun(cfg, parser, f, moves)
    decreases |moves|
  {
    moves != []
    && (|| StartsLive(f, moves[0], k)
        || EverStartsLive(cfg, parser, FleetStep(cfg, parser, f, moves[0]), moves[1..], k))
  }

  lemma ShapedSites(f: Fleet, k: nat)
    requires FleetOk(f) && k < |f.sites|
    ensures Shaped(f.sites[k]) && ClosingLaws.Laws(f.sites[k])
  {
    assert SiteOk(f.sites[k], f.spans, k, f.dispatched, f.stopping);
  }

  lemma StepLeaks(cfg: Config, parser: HeaderParser, f: Fleet, m: Move, k: nat)
    requires FleetOk(f) && Ready(cfg, f, m) && k < |f.sites|
    ensures var t := FleetStep(cfg, parser, f, m);
            && k < |t.sites| && Shaped(f.sites[k]) && Shaped(t.sites[k])
            && (EverLeaked(t.sites[k]) <==> EverLeaked(f.sites[k]) || StartsLive(f, m, k))
  {
    var t := FleetStep(cfg, parser, f, m);
    ShapedSites(f, k);
    FleetStepKeeps(cfg, parser, f, m);
    ShapedSites(t, k);
    if m.SessionMoves? && m.k == k {
      SessionLeaks(cfg, parser, f.sites[k], m.i, m.e);
    } else if m.HandleNext? && m.k == k {
      HandlerLeaks(cfg, f.sites[k]);
    } else {
      SameLeaks(f.sites[k], t.sites[k]);
    }
  }

  lemma {:induction false} RunLeaks(cfg: Config, parser: HeaderParser, f: Fleet, moves: seq<Move>, k: nat)
    requires FleetOk(f) && PossibleRun(cfg, parser, f, moves) && k < |f.sites|
    ensures var t := FleetRun(cfg, parser, f, moves);
            && k < |t.sites| && Shaped(f.sites[k]) && Shaped(t.sites[k])
            && (EverLeaked(t.sites[k]) <==> EverLeaked(f.sites[k]) || EverStartsLive(cfg, parser, f, moves, k))
    decreases |moves|
  {
    ShapedSites(f, k);
    if moves != [] {
      var f' := FleetStep(cfg, parser, f, moves[0]);
      StepLeaks(cfg, parser, f, moves[0], k);
      FleetStepKeeps(cfg, parser, f, moves[0]);
      RunLeaks(cfg, parser, f', moves[1..], k);
      assert FleetRun(cfg, parser, f, moves) == FleetRun(cfg, parser, f', moves[1..]);
    }
  }

  lemma NewNeverLeaked(k: nat, j: nat)
    requires j < k
    ensures !EverLeaked(NewFleet(k).sites[j])
  {
    assert NewFleet(k).sites[j] == NEW_SITE;
  }

  // --- Which shards can end ---

  /** Every call has run and every operation is complete: nothing will happen on the shard any more but what the
      orchestrator posts and, if its guard is gone, its end. */
  ghost predicate AtRest(s: Site) {
    && s.shard.queue == [] && Shaped(s)
    && forall i :: 0 <= i < |s.worlds| ==>
         s.handled[i] == |s.shard.pool.sessions[i]| && s.worlds[i].io == Outstanding(0, [], [], 0)
  }

  ghost predicate NoneLive(s: Site) {
    forall i :: 0 <= i < |s.worlds| ==> !s.worlds[i].s.live
  }

  ghost predicate NonePending(s: Site)
    requires ClosingLaws.Laws(s)
  {
    forall i :: 0 <= i < |s.worlds| ==>
      var calls := s.shard.pool.sessions[i]; Starts(calls[..s.handled[i]]) == Starts(calls)
  }

  lemma AllGone(s: Site)
    requires ClosingLaws.Laws(s)
    ensures (forall i :: 0 <= i < |s.worlds| ==> Gone(s, i)) <==> NoneLive(s) && NonePending(s) && !EverLeaked(s)
  {
    forall i | 0 <= i < |s.worlds|
      ensures Leaked(s.worlds[i]) >= 0
    {
      assert SessionOk(s.shard.pool.sessions[i], s.worlds[i], s.handled[i]);
    }
    if NoneLive(s) && NonePending(s) && !EverLeaked(s) {
      forall i | 0 <= i < |s.worlds|
        ensures Gone(s, i)
      {
        assert !s.worlds[i].s.live;
      }
    }
    if forall i :: 0 <= i < |s.worlds| ==> Gone(s, i) {
      forall i | 0 <= i < |s.worlds|
        ensures !s.worlds[i].s.live && Leaked(s.worlds[i]) == 0
        ensures var calls := s.shard.pool.sessions[i]; Starts(calls[..s.handled[i]]) == Starts(calls)
      {
        assert Gone(s, i);
      }
    }
  }

  lemma RestingHasNonePending(s: Site)
    requires ClosingLaws.Laws(s) && AtRest(s)
    ensures NonePending(s)
  {
    forall i | 0 <= i < |s.worlds|
      ensures var calls := s.shard.pool.sessions[i]; Starts(calls[..s.handled[i]]) == Starts(calls)
    {
      assert s.shard.pool.sessions[i][..s.handled[i]] == s.shard.pool.sessions[i];
    }
  }

  /** In every reachable state the guard that keeps a shard's thread running is gone exactly if its pool is closed, no
      session is live, no start is pending, and in the whole run no session of the shard was started while it was
      live. So a shard has nothing left to do, and can end by itself, exactly if it is at rest besides. */
  lemma EndsExactly(cfg: Config, parser: HeaderParser, shards: nat, moves: seq<Move>, k: nat)
    requires shards > 0 && PossibleRun(cfg, parser, NewFleet(shards), moves) && k < shards
    ensures var f := FleetRun(cfg, parser, NewFleet(shards), moves);
            && |f.sites| == shards && ClosingLaws.Laws(f.sites[k])
            && var s, again := f.sites[k], EverStartsLive(cfg, parser, NewFleet(shards), moves, k);
               && (!s.shard.guard <==> s.shard.pool.closed && NoneLive(s) && NonePending(s) && !again)
               && (OutOfWork(s) <==> AtRest(s) && s.shard.pool.closed && NoneLive(s) && !again)
  {
    NewFleetOk(shards);
    NewNeverLeaked(shards, k);
    FleetRunKeeps(cfg, parser, NewFleet(shards), moves);
    RunLeaks(cfg, parser, NewFleet(shards), moves, k);
    var f := FleetRun(cfg, parser, NewFleet(shards), moves);
    var s := f.sites[k];
    ShapedSites(f, k);
    NotifiedExactly(s);
    AllGone(s);
    if AtRest(s) {
      RestingHasNonePending(s);
    }
  }

  /** The shard of a stopping program that has handled its queue has closed its pool. */
  lemma RestingIsClosed(f: Fleet, k: nat)
    requires FleetOk(f) && f.stopping && k < |f.sites| && f.sites[k].shard.queue == []
    ensures f.sites[k].shard.pool.closed
  {
    assert SiteOk(f.sites[k], f.spans, k, f.dispatched, f.stopping);
  }

  // --- Which shards never end ---

  /** A shard that still has its guard keeps the orchestrator from being released. */
  lemma GuardHolds(f: Fleet, k: nat)
    requires FleetOk(f) && k < |f.sites| && f.sites[k].shard.guard
    ensures f.sites[k].shard.exits == 0 && f.exits.releases == 0
  {
    assert SiteOk(f.sites[k], f.spans, k, f.dispatched, f.stopping);
    NoneAlive(f.sites, |f.sites|);
  }

  lemma LeakHoldsGuard(f: Fleet, k: nat)
    requires FleetOk(f) && k < |f.sites| && Shaped(f.sites[k]) && EverLeaked(f.sites[k])
    ensures f.sites[k].shard.guard
  {
    ShapedSites(f, k);
    NotifiedExactly(f.sites[k]);
    AllGone(f.sites[k]);
  }

  /** A session that was started while it was live holds its shard for ever: however the run goes on, the orchestrator
      is not released. */
  lemma LeakNeverEnds(cfg: Config, parser: HeaderParser, f: Fleet, k: nat, more: seq<Move>)
    requires FleetOk(f) && k < |f.sites| && Shaped(f.sites[k]) && EverLeaked(f.sites[k])
    requires PossibleRun(cfg, parser, f, more)
    ensures FleetRun(cfg, parser, f, more).exits.releases == 0
  {
    var t := FleetRun(cfg, parser, f, more);
    FleetRunKeeps(cfg, parser, f, more);
    RunLeaks(cfg, parser, f, more, k);
    LeakHoldsGuard(t, k);
    GuardHolds(t, k);
  }

  ghost predicate OnlyMetrics(queue: seq<Handler>) {
    forall i :: 0 <= i < |queue| ==> queue[i] == PullMetrics
  }

  /** At rest but for metrics, with the guard still there. */
  ghost predicate Held(s: Site) {
    && Shaped(s) && s.shard.guard && !s.shard.running && OnlyMetrics(s.shard.queue)
    && forall i :: 0 <= i < |s.worlds| ==>
         s.handled[i] == |s.shard.pool.sessions[i]| && s.worlds[i].io == Outstanding(0, [], [], 0)
  }

  lemma HeldHandles(cfg: Config, s: Site)
    requires Held(s) && HandlerReady(s) && ClosingLaws.Laws(s)
    ensures Held(HandlerRuns(cfg, s))
  {
    HandlerKeeps(cfg, s);
    assert s.shard.queue[0] == PullMetrics;
  }

  /** None of its sessions has anything to run. */
  lemma HeldIsIdle(cfg: Config, s: Site, i: nat, e: Event)
    requires Held(s)
    ensures !SessionReady(cfg, s, i, e)
  {
  }

  lemma HeldStep(cfg: Config, parser: HeaderParser, f: Fleet, m: Move, k: nat)
    requires f.stopping && Ready(cfg, f, m) && k < |f.sites| && ClosingLaws.Laws(f.sites[k]) && Held(f.sites[k])
    ensures var t := FleetStep(cfg, parser, f, m);
            t.stopping && k < |t.sites| && Held(t.sites[k])
  {
    match m
    case Dispatch(a, spans) =>
      assert f.sites[k].(shard := Distributed(f.sites[k].shard, a, spans[k])) == f.sites[k];
    case RequestMetrics =>
    case ShutDown =>
    case HandleNext(j) =>
      if j == k && HandlerReady(f.sites[k]) {
        HeldHandles(cfg, f.sites[k]);
      }
    case SessionMoves(j, i, e) => HeldIsIdle(cfg, f.sites[k], i, e);
    case Exit(j) =>
  }

  /** A shard at rest that still has its guard when the program is shut down keeps it for ever. */
  lemma {:induction false} HeldNeverEnds(cfg: Config, parser: HeaderParser, f: Fleet, k: nat, more: seq<Move>)
    requires FleetOk(f) && f.stopping && k < |f.sites| && Held(f.sites[k])
    requires PossibleRun(cfg, parser, f, more)
    ensures FleetRun(cfg, parser, f, more).exits.releases == 0
    decreases |more|
  {
    if more == [] {
      GuardHolds(f, k);
    } else {
      var t := FleetStep(cfg, parser, f, more[0]);
      ShapedSites(f, k);
      HeldStep(cfg, parser, f, more[0], k);
      FleetStepKeeps(cfg, parser, f, more[0]);
      HeldNeverEnds(cfg, parser, t, k, more[1..]);
      assert FleetRun(cfg, parser, f, more) == FleetRun(cfg, parser, t, more[1..]);
    }
  }

  // --- How the whole program ends ---

  /** What is left to end: the shards from `k` on. */
  ghost predicate Ending(f: Fleet, k: nat) {
    && FleetOk(f) && k <= |f.sites|
    && (forall j :: 0 <= j < k ==> f.sites[j].shard.exits > 0)
    && (forall j :: k <= j < |f.sites| ==> OutOfWork(f.sites[j]))
  }

  lemma OneEnds(cfg: Config, f: Fleet, k: nat)
    requires Ending(f, k) && k < |f.sites|
    ensures if f.sites[k].shard.exits > 0 then Ending(f, k + 1)
            else Ready(cfg, f, Exit(k)) && Ending(ShardExits(f, k), k + 1) && |ShardExits(f, k).sites| == |f.sites|
  {
    if f.sites[k].shard.exits == 0 {
      ExitKeeps(f, k);
      ExitOfOne(f, k);
    }
  }

  lemma ExitOfOne(f: Fleet, k: nat)
    requires k < |f.sites| && OutOfWork(f.sites[k])
    ensures var t := ShardExits(f, k);
            && |t.sites| == |f.sites| && t.sites[k].shard.exits > 0
            && forall j :: 0 <= j < |f.sites| && j != k ==> t.sites[j] == f.sites[j]
  {
  }

  /** The shards from `k` on end one after the other. */
  lemma {:induction false} AllEnd(cfg: Config, parser: HeaderParser, f: Fleet, k: nat) returns (ends: seq<Move>)
    requires Ending(f, k)
    ensures PossibleRun(cfg, parser, f, ends) && FleetRun(cfg, parser, f, ends).exits.releases == 1
    decreases |f.sites| - k
  {
    if k == |f.sites| {
      NoneAlive(f.sites, k);
      return [];
    }
    OneEnds(cfg, f, k);
    if f.sites[k].shard.exits > 0 {
      ends := AllEnd(cfg, parser, f, k + 1);
    } else {
      var rest := AllEnd(cfg, parser, ShardExits(f, k), k + 1);
      ends := [Exit(k)] + rest;
      assert ends[1..] == rest;
    }
  }

  /** No session of the fleet is live and none was ever started while it was. */
  ghost predicate LeftNothing(cfg: Config, parser: HeaderParser, shards: nat, moves: seq<Move>)
    requires PossibleRun(cfg, parser, NewFleet(shards), moves)
  {
    forall k :: 0 <= k < |FleetRun(cfg, parser, NewFleet(shards), moves).sites| ==>
      && NoneLive(FleetRun(cfg, parser, NewFleet(shards), moves).sites[k])
      && !EverStartsLive(cfg, parser, NewFleet(shards), moves, k)
  }

  /** The program can come to its end, that is some continuation releases the orchestrator. */
  ghost predicate CanEnd(cfg: Config, parser: HeaderParser, f: Fleet) {
    exists ends :: PossibleRun(cfg, parser, f, ends) && FleetRun(cfg, parser, f, ends).exits.releases == 1
  }

  /** Once the program is shut down and every shard is at rest, it can come to its end exactly if no session is live
      and none was ever started while it was live; otherwise it never ends by itself, however long it goes on. */
  lemma ReleasedExactly(cfg: Config, parser: HeaderParser, shards: nat, moves: seq<Move>)
    requires shards > 0 && PossibleRun(cfg, parser, NewFleet(shards), moves)
    requires var f := FleetRun(cfg, parser, NewFleet(shards), moves);
             f.stopping && forall k :: 0 <= k < |f.sites| ==> AtRest(f.sites[k])
    ensures CanEnd(cfg, parser, FleetRun(cfg, parser, NewFleet(shards), moves))
            <==> LeftNothing(cfg, parser, shards, moves)
  {
    NewFleetOk(shards);
    FleetRunKeeps(cfg, parser, NewFleet(shards), moves);
    var f := FleetRun(cfg, parser, NewFleet(shards), moves);
    forall k | 0 <= k < shards
      ensures OutOfWork(f.sites[k])
              <==> NoneLive(f.sites[k]) && !EverStartsLive(cfg, parser, NewFleet(shards), moves, k)
    {
      RestingIsClosed(f, k);
      EndsExactly(cfg, parser, shards, moves, k);
    }
    if LeftNothing(cfg, parser, shards, moves) {
      var ends := AllEnd(cfg, parser, f, 0);
    } else {
      var k :| 0 <= k < shards && !OutOfWork(f.sites[k]);
      RestingIsHeld(f, k);
      forall ends | PossibleRun(cfg, parser, f, ends)
        ensures FleetRun(cfg, parser, f, ends).exits.releases == 0
      {
        HeldNeverEnds(cfg, parser, f, k, ends);
      }
    }
  }

  lemma RestingIsHeld(f: Fleet, k: nat)
    requires FleetOk(f) && f.stopping && k < |f.sites| && AtRest(f.sites[k]) && !OutOfWork(f.sites[k])
    ensures Held(f.sites[k])
  {
    assert SiteOk(f.sites[k], f.spans, k, f.dispatched, f.stopping);
  }

  // --- What a script must do ---

  /** The plan disconnects every session it connects, between any two CONNECTs of it and after the last. */
  ghost predicate DisconnectsAll(actions: seq<ActionDescriptor>) {
    forall g: nat :: StopsBetween(Flat(actions, g)) && StoppedLast(Flat(actions, g))
  }

  lemma DisconnectedIsGone(f: Fleet, k: nat)
    requires FleetOk(f) && k < |f.sites| && AtRest(f.sites[k]) && DisconnectsAll(f.dispatched)
    ensures Shaped(f.sites[k]) && NoneLive(f.sites[k]) && !EverLeaked(f.sites[k])
  {
    var s := f.sites[k];
    assert SiteOk(s, f.spans, k, f.dispatched, f.stopping);
    forall l | 0 <= l < |s.worlds|
      ensures Gone(s, l)
    {
      assert CallsAgree(s.shard, f.spans[k], f.dispatched, l);
      var g := f.spans[k].start + l;
      assert s.shard.pool.sessions[l] + [] == s.shard.pool.sessions[l];
      assert StopsBetween(Flat(f.dispatched, g)) && StoppedLast(Flat(f.dispatched, g));
      StoppedIsGone(s, l);
    }
    AllGone(s);
  }

  /** A plan that disconnects every session it connects brings the whole program to its end: once it is shut down and
      every shard is at rest, the threads of all shards can end and the orchestrator is released. */
  lemma ReleasedIfDisconnected(cfg: Config, parser: HeaderParser, shards: nat, moves: seq<Move>)
    requires shards > 0 && PossibleRun(cfg, parser, NewFleet(shards), moves)
    requires var f := FleetRun(cfg, parser, NewFleet(shards), moves);
             && f.stopping && DisconnectsAll(f.dispatched)
             && forall k :: 0 <= k < |f.sites| ==> AtRest(f.sites[k])
    ensures CanEnd(cfg, parser, FleetRun(cfg, parser, NewFleet(shards), moves))
  {
    NewFleetOk(shards);
    FleetRunKeeps(cfg, parser, NewFleet(shards), moves);
    var f := FleetRun(cfg, parser, NewFleet(shards), moves);
    forall k | 0 <= k < shards
      ensures NoneLive(f.sites[k]) && !EverStartsLive(cfg, parser, NewFleet(shards), moves, k)
    {
      DisconnectedIsGone(f, k);
      RunLeaks(cfg, parser, NewFleet(shards), moves, k);
    }
    ReleasedExactly(cfg, parser, shards, moves);
  }

  // --- Connecting each session at most once ---

  /** How many CONNECT actions cover session `g`. */
  ghost function Connects(actions: seq<ActionDescriptor>, g: nat): nat {
    if actions == [] then 0
    else
      var a := actions[|actions| - 1];
      Connects(actions[..|actions| - 1], g) + if a.kind == Connect && a.sessionsStart <= g < a.sessionsEnd then 1 else 0
  }

  lemma {:induction false} ConnectsAreStarts(actions: seq<ActionDescriptor>, g: nat)
    ensures Starts(Flat(actions, g)) == Connects(actions, g)
  {
    if actions != [] {
      var before, a := actions[..|actions| - 1], actions[|actions| - 1];
      ConnectsAreStarts(before, g);
      if Received(a, g) == [] {
        assert Flat(before, g) + [] == Flat(before, g);
      } else {
        StartsSnoc(Flat(before, g), CallOf(a).value);
      }
    }
  }

  /** A session that is connected at most once is never connected again without a disconnect. */
  lemma ConnectedOnce(actions: seq<ActionDescriptor>, g: nat)
    requires Connects(actions, g) <= 1
    ensures StopsBetween(Flat(actions, g))
  {
    ConnectsAreStarts(actions, g);
    OneStartStops(Flat(actions, g));
  }
}
