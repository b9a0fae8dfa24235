/** The orchestrator and its shards as one machine. A run is any interleaving of the orchestrator's thread,
    the shards' threads and the completions of the sessions' operations. */
module Fleets {
  import opened Scripts
  import opened Planner
  import opened SessionPools
  import opened Shards
  import opened Sharding
  import opened SessionMachine
  import opened DrainLaws
  import opened Sites
  import opened ClosingLaws
  import opened Refinement

  /** `dispatched` are the actions dispatched before the shutdown. */
  datatype Fleet = Fleet(
    spans: seq<Span>, sites: seq<Site>, stopping: bool, exits: ExitCount, dispatched: seq<ActionDescriptor>)

  datatype Move =
    | Dispatch(action: ActionDescriptor, spans: seq<Span>)
    | RequestMetrics
    | ShutDown
    | HandleNext(k: nat)
    | SessionMoves(k: nat, i: nat, e: Event)
    | Exit(k: nat)

  function NewFleet(k: nat): Fleet {
    Fleet([], seq(k, _ => NEW_SITE), false, ExitCount(k, 0), [])
  }

  // --- Steps ---

  /** Nothing keeps the shard's thread from ending. */
  ghost predicate OutOfWork(s: Site) {
    && !s.shard.guard && s.shard.queue == [] && Shaped(s)
    && forall i :: 0 <= i < |s.worlds| ==>
         s.handled[i] == |s.shard.pool.sessions[i]| && s.worlds[i].io == Outstanding(0, [], [], 0)
  }

  /** A script creates its sessions first and once; the creation splits them over the shards. */
  ghost predicate Ready(cfg: Config, f: Fleet, m: Move) {
    match m
    case Dispatch(a, spans) =>
      if a.kind == Create then
        && f.spans == [] && a.sessionsStart == 0 && a.sessionsEnd == a.count
        && IsPartition(spans, a.count, |f.sites|) && SpansFit(spans, |f.sites|)
      else f.spans != [] && spans == f.spans && SpansFit(spans, |f.sites|)
    case RequestMetrics => true
    case ShutDown => true
    case HandleNext(k) => k < |f.sites| && f.sites[k].shard.exits == 0 && f.sites[k].shard.queue != []
    case SessionMoves(k, i, e) => k < |f.sites| && f.sites[k].shard.exits == 0 && SessionReady(cfg, f.sites[k], i, e)
    case Exit(k) => k < |f.sites| && f.sites[k].shard.exits == 0 && OutOfWork(f.sites[k])
  }

  ghost function Distribute(sites: seq<Site>, a: ActionDescriptor, spans: seq<Span>): (r: seq<Site>)
    requires SpansFit(spans, |sites|)
    ensures |r| == |sites|
  {
    seq(|sites|, k requires 0 <= k < |sites| => sites[k].(shard := Distributed(sites[k].shard, a, spans[k])))
  }

  ghost function StopAll(sites: seq<Site>): (r: seq<Site>)
    ensures |r| == |sites|
  {
    seq(|sites|, k requires 0 <= k < |sites| => sites[k].(shard := StopShard(sites[k].shard)))
  }

  ghost function RequestAll(sites: seq<Site>): (r: seq<Site>)
    ensures |r| == |sites|
  {
    seq(|sites|, k requires 0 <= k < |sites| => sites[k].(shard := RequestSnapshot(sites[k].shard)))
  }

  /** A shard that has ended counts itself out; the last one releases the orchestrator. */
  ghost function ShardExits(f: Fleet, k: nat): Fleet
    requires k < |f.sites| && OutOfWork(f.sites[k])
  {
    f.(sites := f.sites[k := f.sites[k].(shard := ThreadEnds(f.sites[k].shard))], exits := CountExit(f.exits))
  }

  /** A handler that would reach outside its pool has no defined effect; `FleetStepKeeps` shows that there is none. */
  ghost function FleetStep(cfg: Config, parser: HeaderParser, f: Fleet, m: Move): Fleet
    requires Ready(cfg, f, m)
  {
    match m
    case Dispatch(a, spans) =>
      f.(spans := spans, sites := Distribute(f.sites, a, spans),
         dispatched := if f.stopping then f.dispatched else f.dispatched + [a])
    case RequestMetrics => f.(sites := RequestAll(f.sites))
    case ShutDown => if f.stopping then f else f.(stopping := true, sites := StopAll(f.sites))
    case HandleNext(k) =>
      if HandlerReady(f.sites[k]) then f.(sites := f.sites[k := HandlerRuns(cfg, f.sites[k])]) else f
    case SessionMoves(k, i, e) => f.(sites := f.sites[k := SessionRuns(cfg, parser, f.sites[k], i, e)])
    case Exit(k) => ShardExits(f, k)
  }

  // --- Laws ---

  ghost predicate SiteOk(s: Site, spans: seq<Span>, k: nat, dispatched: seq<ActionDescriptor>, stopping: bool) {
    && Laws(s)
    && (if dispatched == [] then FreshShard(s.shard) else k < |spans| && ShardOk(s.shard, spans[k], dispatched))
    && (s.shard.running <==> !stopping)
    && s.shard.exits <= 1 && (s.shard.exits == 1 ==> !s.shard.guard)
  }

  ghost function Alive(sites: seq<Site>, n: nat): nat
    requires n <= |sites|
  {
    if n == 0 then 0 else Alive(sites, n - 1) + if sites[n - 1].shard.exits == 0 then 1 else 0
  }

  ghost predicate SpansOk(f: Fleet) {
    if f.spans == [] then f.dispatched == []
    else
      && SpansFit(f.spans, |f.sites|)
      && (if f.dispatched == [] then f.stopping
          else f.dispatched[0].kind == Create && IsPartition(f.spans, f.dispatched[0].count, |f.sites|))
  }

  ghost predicate SitesOk(f: Fleet) {
    forall k :: 0 <= k < |f.sites| ==> SiteOk(f.sites[k], f.spans, k, f.dispatched, f.stopping)
  }

  ghost predicate FleetOk(f: Fleet) {
    && |f.sites| > 0 && SpansOk(f) && SitesOk(f)
    && f.exits.active == Alive(f.sites, |f.sites|) && ReleasedByLast(f.exits)
  }

  lemma NewFleetOk(k: nat)
    requires k > 0
    ensures FleetOk(NewFleet(k))
  {
    AllAlive(NewFleet(k).sites, k);
  }

  lemma {:induction false} AllAlive(sites: seq<Site>, n: nat)
    requires n <= |sites| && forall k :: 0 <= k < |sites| ==> sites[k].shard.exits == 0
    ensures Alive(sites, n) == n
  {
    if n > 0 {
      AllAlive(sites, n - 1);
    }
  }

  /** Steps that leave the exits alone keep the count of shards alive. */
  lemma {:induction false} SameAlive(a: seq<Site>, b: seq<Site>, n: nat)
    requires n <= |a| == |b| && forall k :: 0 <= k < n ==> a[k].shard.exits == b[k].shard.exits
    ensures Alive(a, n) == Alive(b, n)
  {
    if n > 0 {
      SameAlive(a, b, n - 1);
    }
  }

  lemma {:induction false} OneLessAlive(a: seq<Site>, n: nat, k: nat, s: Site)
    requires n <= |a| && k < |a| && a[k].shard.exits == 0 && s.shard.exits > 0
    ensures Alive(a[k := s], n) == Alive(a, n) - if k < n then 1 else 0
    ensures k < n ==> Alive(a, n) > 0
  {
    if n > 0 {
      OneLessAlive(a, n - 1, k, s);
    }
  }

  lemma PartitionFits(spans: seq<Span>, n: nat, k: nat)
    requires IsPartition(spans, n, k)
    ensures SpansFit(spans, k) && forall i :: 0 <= i < k ==> spans[i].end <= n
  {
    forall i | 0 <= i < k
      ensures spans[i].start <= spans[i].end <= n
    {
      PartitionCovers(spans, n, k, i);
    }
  }

  lemma DispatchKeepsSite(s: Site, current: seq<Span>, spans: seq<Span>, k: nat, dispatched: seq<ActionDescriptor>,
                          stopping: bool, a: ActionDescriptor)
    requires SiteOk(s, current, k, dispatched, stopping) && k < |spans| && spans[k].start <= spans[k].end
    requires if a.kind == Create then dispatched == [] && a.sessionsStart == 0 && spans[k].end <= a.sessionsEnd
             else spans == current && (stopping || dispatched != [])
    ensures SiteOk(s.(shard := Distributed(s.shard, a, spans[k])), spans, k,
                   if stopping then dispatched else dispatched + [a], stopping)
  {
    var t := s.(shard := Distributed(s.shard, a, spans[k]));
    DequeueKeeps(s, t);
    if stopping {
      assert t == s;
    } else if a.kind == Create {
      CreateOk(s.shard, spans[k], a);
      assert dispatched + [a] == [a];
    } else {
      DistributeKeeps(s.shard, spans[k], dispatched, a);
    }
  }

  /** A handler the orchestrator posts to every shard. */
  lemma PostKeepsSite(s: Site, spans: seq<Span>, k: nat, dispatched: seq<ActionDescriptor>, h: Handler)
    requires !h.Act? && SiteOk(s, spans, k, dispatched, !s.shard.running) && (h.ClosePool? ==> s.shard.running)
    ensures var t := s.(shard := s.shard.(queue := s.shard.queue + [h], running := s.shard.running && !h.ClosePool?));
            SiteOk(t, spans, k, dispatched, !t.shard.running)
  {
    var t := s.(shard := s.shard.(queue := s.shard.queue + [h], running := s.shard.running && !h.ClosePool?));
    DequeueKeeps(s, t);
    if dispatched == [] {
      UnusedSnoc(s.shard.queue, h);
      EndsClosedSnoc(s.shard.queue, h, s.shard.pool.closed);
    } else {
      PostKeeps(s.shard, h, spans[k], dispatched);
    }
  }

  /** A shard's next handler is always defined, and running it keeps the laws. */
  lemma HandleKeepsSite(cfg: Config, s: Site, spans: seq<Span>, k: nat,
                        dispatched: seq<ActionDescriptor>, stopping: bool)
    requires SiteOk(s, spans, k, dispatched, stopping) && s.shard.queue != []
    ensures HandlerReady(s)
    ensures SiteOk(HandlerRuns(cfg, s), spans, k, dispatched, stopping)
  {
    if dispatched != [] {
      if s.shard.queue[0].Act? {
        HeadInside(s.shard, spans[k], dispatched);
      }
      HandleKeeps(s.shard, spans[k], dispatched);
    }
    HandlerKeeps(cfg, s);
  }

  lemma SessionKeepsSite(cfg: Config, parser: HeaderParser, s: Site, spans: seq<Span>, k: nat,
                         dispatched: seq<ActionDescriptor>, stopping: bool, i: nat, e: Event)
    requires SiteOk(s, spans, k, dispatched, stopping) && SessionReady(cfg, s, i, e)
    ensures SiteOk(SessionRuns(cfg, parser, s, i, e), spans, k, dispatched, stopping)
  {
    SessionKeeps(cfg, parser, s, i, e);
    var t := SessionRuns(cfg, parser, s, i, e);
    if dispatched != [] {
      SameCalls(s.shard, t.shard, spans[k], dispatched);
    }
  }

  /** The disconnect of a session changes nothing about calls. */
  lemma SameCalls(s: ShardState, t: ShardState, span: Span, dispatched: seq<ActionDescriptor>)
    requires ShardOk(s, span, dispatched)
    requires t.queue == s.queue && t.running == s.running
    requires t.pool.sessions == s.pool.sessions && t.pool.closed == s.pool.closed
    ensures ShardOk(t, span, dispatched)
  {
    forall l | 0 <= l < span.end - span.start
      ensures CallsAgree(t, span, dispatched, l)
    {
      assert CallsAgree(s, span, dispatched, l);
    }
  }

  lemma ExitKeepsSite(s: Site, spans: seq<Span>, k: nat, dispatched: seq<ActionDescriptor>, stopping: bool)
    requires SiteOk(s, spans, k, dispatched, stopping) && OutOfWork(s) && s.shard.exits == 0
    ensures SiteOk(s.(shard := ThreadEnds(s.shard)), spans, k, dispatched, stopping)
  {
    var t := s.(shard := ThreadEnds(s.shard));
    DequeueKeeps(s, t);
    if dispatched != [] {
      SameCalls(s.shard, t.shard, spans[k], dispatched);
    }
  }

  // --- Every step keeps the laws ---

  lemma DispatchKeepsSites(f: Fleet, a: ActionDescriptor, spans: seq<Span>)
    requires SitesOk(f) && SpansFit(spans, |f.sites|)
    requires if a.kind == Create
             then
               && f.dispatched == [] && a.sessionsStart == 0
               && forall k :: 0 <= k < |f.sites| ==> spans[k].end <= a.sessionsEnd
             else spans == f.spans && (f.stopping || f.dispatched != [])
    ensures SitesOk(f.(spans := spans, sites := Distribute(f.sites, a, spans),
                       dispatched := if f.stopping then f.dispatched else f.dispatched + [a]))
  {
    var t := f.(spans := spans, sites := Distribute(f.sites, a, spans),
                dispatched := if f.stopping then f.dispatched else f.dispatched + [a]);
    forall k | 0 <= k < |t.sites|
      ensures SiteOk(t.sites[k], t.spans, k, t.dispatched, t.stopping)
    {
      assert SiteOk(f.sites[k], f.spans, k, f.dispatched, f.stopping);
      DispatchKeepsSite(f.sites[k], f.spans, spans, k, f.dispatched, f.stopping, a);
    }
  }

  lemma DispatchKeeps(f: Fleet, a: ActionDescriptor, spans: seq<Span>)
    requires FleetOk(f) && SpansFit(spans, |f.sites|)
    requires if a.kind == Create
             then
               && f.spans == [] && a.sessionsStart == 0 && a.sessionsEnd == a.count
               && IsPartition(spans, a.count, |f.sites|)
             else f.spans != [] && spans == f.spans
    ensures FleetOk(f.(spans := spans, sites := Distribute(f.sites, a, spans),
                       dispatched := if f.stopping then f.dispatched else f.dispatched + [a]))
  {
    if a.kind == Create {
      PartitionFits(spans, a.count, |f.sites|);
    }
    DispatchKeepsSites(f, a, spans);
    SameAlive(f.sites, Distribute(f.sites, a, spans), |f.sites|);
  }

  lemma MetricsKeeps(f: Fleet)
    requires FleetOk(f)
    ensures FleetOk(f.(sites := RequestAll(f.sites)))
  {
    var t := f.(sites := RequestAll(f.sites));
    assert SitesOk(t) by {
      forall k | 0 <= k < |t.sites|
        ensures SiteOk(t.sites[k], t.spans, k, t.dispatched, t.stopping)
      {
        assert SiteOk(f.sites[k], f.spans, k, f.dispatched, f.stopping);
        PostKeepsSite(f.sites[k], f.spans, k, f.dispatched, PullMetrics);
      }
    }
    SameAlive(f.sites, t.sites, |f.sites|);
  }

  lemma ShutDownKeeps(f: Fleet)
    requires FleetOk(f) && !f.stopping
    ensures FleetOk(f.(stopping := true, sites := StopAll(f.sites)))
  {
    var t := f.(stopping := true, sites := StopAll(f.sites));
    assert SitesOk(t) by {
      forall k | 0 <= k < |t.sites|
        ensures SiteOk(t.sites[k], t.spans, k, t.dispatched, t.stopping)
      {
        assert SiteOk(f.sites[k], f.spans, k, f.dispatched, f.stopping);
        PostKeepsSite(f.sites[k], f.spans, k, f.dispatched, ClosePool);
      }
    }
    SameAlive(f.sites, t.sites, |f.sites|);
  }

  /** One site changes and its exits do not. */
  lemma OneSiteKeeps(f: Fleet, k: nat, s: Site)
    requires FleetOk(f) && k < |f.sites| && SiteOk(s, f.spans, k, f.dispatched, f.stopping)
    requires s.shard.exits == f.sites[k].shard.exits
    ensures FleetOk(f.(sites := f.sites[k := s]))
  {
    SameAlive(f.sites, f.sites[k := s], |f.sites|);
  }

  lemma ExitKeeps(f: Fleet, k: nat)
    requires FleetOk(f) && k < |f.sites| && OutOfWork(f.sites[k]) && f.sites[k].shard.exits == 0
    ensures FleetOk(ShardExits(f, k)) && f.exits.active > 0 && |ShardExits(f, k).sites| == |f.sites|
  {
    var s := f.sites[k].(shard := ThreadEnds(f.sites[k].shard));
    assert SiteOk(f.sites[k], f.spans, k, f.dispatched, f.stopping);
    ExitKeepsSite(f.sites[k], f.spans, k, f.dispatched, f.stopping);
    OneLessAlive(f.sites, |f.sites|, k, s);
  }

  lemma HandleNextKeeps(cfg: Config, parser: HeaderParser, f: Fleet, k: nat)
    requires FleetOk(f) && Ready(cfg, f, HandleNext(k))
    ensures HandlerReady(f.sites[k]) && FleetOk(FleetStep(cfg, parser, f, HandleNext(k)))
  {
    assert SiteOk(f.sites[k], f.spans, k, f.dispatched, f.stopping);
    HandleKeepsSite(cfg, f.sites[k], f.spans, k, f.dispatched, f.stopping);
    OneSiteKeeps(f, k, HandlerRuns(cfg, f.sites[k]));
  }

  lemma SessionMovesKeeps(cfg: Config, parser: HeaderParser, f: Fleet, k: nat, i: nat, e: Event)
    requires FleetOk(f) && Ready(cfg, f, SessionMoves(k, i, e))
    ensures FleetOk(FleetStep(cfg, parser, f, SessionMoves(k, i, e)))
  {
    assert SiteOk(f.sites[k], f.spans, k, f.dispatched, f.stopping);
    SessionKeepsSite(cfg, parser, f.sites[k], f.spans, k, f.dispatched, f.stopping, i, e);
    OneSiteKeeps(f, k, SessionRuns(cfg, parser, f.sites[k], i, e));
  }

  lemma SameSites(cfg: Config, parser: HeaderParser, f: Fleet, m: Move)
    requires Ready(cfg, f, m)
    ensures |FleetStep(cfg, parser, f, m).sites| == |f.sites|
  {
  }

  lemma FleetStepKeeps(cfg: Config, parser: HeaderParser, f: Fleet, m: Move)
    requires FleetOk(f) && Ready(cfg, f, m)
    ensures FleetOk(FleetStep(cfg, parser, f, m)) && |FleetStep(cfg, parser, f, m).sites| == |f.sites|
    ensures m.HandleNext? ==> HandlerReady(f.sites[m.k])
  {
    SameSites(cfg, parser, f, m);
    match m
    case Dispatch(a, spans) => DispatchKeeps(f, a, spans);
    case RequestMetrics => MetricsKeeps(f);
    case ShutDown => if !f.stopping { ShutDownKeeps(f); }
    case HandleNext(k) => HandleNextKeeps(cfg, parser, f, k);
    case SessionMoves(k, i, e) => SessionMovesKeeps(cfg, parser, f, k, i, e);
    case Exit(k) => ExitKeeps(f, k);
  }

  // --- Runs ---

  ghost predicate PossibleRun(cfg: Config, parser: HeaderParser, f: Fleet, moves: seq<Move>)
    decreases |moves|
  {
    moves == []
    || (Ready(cfg, f, moves[0]) && PossibleRun(cfg, parser, FleetStep(cfg, parser, f, moves[0]), moves[1..]))
  }

  ghost function FleetRun(cfg: Config, parser: HeaderParser, f: Fleet, moves: seq<Move>): Fleet
    requires PossibleRun(cfg, parser, f, moves)
    decreases |moves|
  {
    if moves == [] then f else FleetRun(cfg, parser, FleetStep(cfg, parser, f, moves[0]), moves[1..])
  }

  lemma {:induction false} FleetRunKeeps(cfg: Config, parser: HeaderParser, f: Fleet, moves: seq<Move>)
    requires FleetOk(f) && PossibleRun(cfg, parser, f, moves)
    ensures FleetOk(FleetRun(cfg, parser, f, moves))
    ensures |FleetRun(cfg, parser, f, moves).sites| == |f.sites|
    decreases |moves|
  {
    if moves != [] {
      var f' := FleetStep(cfg, parser, f, moves[0]);
      FleetStepKeeps(cfg, parser, f, moves[0]);
      FleetRunKeeps(cfg, parser, f', moves[1..]);
      assert FleetRun(cfg, parser, f, moves) == FleetRun(cfg, parser, f', moves[1..]);
    }
  }

  // --- The main results ---

  /** What session `g` of the script has been called with, on shard `k` that holds it, and what its shard's
      queue will still call it with, are together the calls a single array of sessions would make, in script
      order; and the next handler of the shard stays inside its pool. */
  ghost predicate AgreesWithFlat(f: Fleet, k: nat, g: nat)
    requires k < |f.sites| == |f.spans| && f.spans[k].start <= g < f.spans[k].end
  {
    var s, l := f.sites[k].shard, g - f.spans[k].start;
    && Got(s.pool.sessions, l) + Future(s.queue, l) == Flat(f.dispatched, g)
    && (s.queue == [] ==> l < |s.pool.sessions| && s.pool.sessions[l] == Flat(f.dispatched, g))
    && (s.queue != [] ==> HandlerReady(f.sites[k]))
  }

  lemma AgreesAt(cfg: Config, f: Fleet, k: nat, g: nat)
    requires FleetOk(f) && f.dispatched != [] && k < |f.sites| == |f.spans| && f.spans[k].start <= g < f.spans[k].end
    ensures AgreesWithFlat(f, k, g)
  {
    var s, l := f.sites[k].shard, g - f.spans[k].start;
    assert SiteOk(f.sites[k], f.spans, k, f.dispatched, f.stopping);
    assert CallsAgree(s, f.spans[k], f.dispatched, l);
    if s.queue == [] {
      assert Got(s.pool.sessions, l) + [] == Got(s.pool.sessions, l);
    } else {
      HandleKeepsSite(cfg, f.sites[k], f.spans, k, f.dispatched, f.stopping);
    }
  }

  /** Sharded execution refines flat execution: in every reachable state, under any interleaving, every session
      index of the script belongs to exactly one shard, and agrees there with a single array of sessions. */
  lemma ShardingRefinesFlat(cfg: Config, parser: HeaderParser, shards: nat, moves: seq<Move>, g: nat)
    returns (k: nat)
    requires shards > 0 && PossibleRun(cfg, parser, NewFleet(shards), moves)
    requires var f := FleetRun(cfg, parser, NewFleet(shards), moves);
             f.dispatched != [] && g < f.dispatched[0].count
    ensures var f := FleetRun(cfg, parser, NewFleet(shards), moves);
            && k < |f.spans| == |f.sites| == shards && f.spans[k].start <= g < f.spans[k].end
            && (forall j :: 0 <= j < shards && f.spans[j].start <= g < f.spans[j].end ==> j == k)
            && AgreesWithFlat(f, k, g)
  {
    NewFleetOk(shards);
    FleetRunKeeps(cfg, parser, NewFleet(shards), moves);
    var f := FleetRun(cfg, parser, NewFleet(shards), moves);
    k := OwnerOf(f.spans, f.dispatched[0].count, shards, g);
    AgreesAt(cfg, f, k, g);
  }

  lemma OwnerOf(spans: seq<Span>, n: nat, k: nat, g: nat) returns (i: nat)
    requires IsPartition(spans, n, k) && g < n
    ensures i < k && spans[i].start <= g < spans[i].end
    ensures forall j :: 0 <= j < k && spans[j].start <= g < spans[j].end ==> j == i
  {
    OneOwner(spans, n, k, g);
    i :| 0 <= i < k && spans[i].start <= g < spans[i].end;
  }

  /** In every reachable state the orchestrator has been released exactly if every shard's thread has ended,
      never twice; a shard whose thread has ended has a closed pool and no live session, and every start that
      ran on one of its sessions has been followed by its disconnect. */
  lemma ClosesInOrder(cfg: Config, parser: HeaderParser, shards: nat, moves: seq<Move>)
    requires shards > 0 && PossibleRun(cfg, parser, NewFleet(shards), moves)
    ensures var f := FleetRun(cfg, parser, NewFleet(shards), moves);
            && f.exits.releases <= 1
            && (f.exits.releases == 1 <==> forall k :: 0 <= k < |f.sites| ==> f.sites[k].shard.exits == 1)
            && forall k, i :: 0 <= k < |f.sites| && f.sites[k].shard.exits > 0 && 0 <= i < |f.sites[k].worlds| ==>
                 && f.sites[k].shard.pool.closed && !f.sites[k].worlds[i].s.live
                 && f.sites[k].worlds[i].log.starts == f.sites[k].worlds[i].log.disconnects
  {
    NewFleetOk(shards);
    FleetRunKeeps(cfg, parser, NewFleet(shards), moves);
    var f := FleetRun(cfg, parser, NewFleet(shards), moves);
    NoneAlive(f.sites, |f.sites|);
    forall k | 0 <= k < |f.sites|
      ensures f.sites[k].shard.exits <= 1
    {
      assert SiteOk(f.sites[k], f.spans, k, f.dispatched, f.stopping);
    }
    forall k, i | 0 <= k < |f.sites| && f.sites[k].shard.exits > 0 && 0 <= i < |f.sites[k].worlds|
      ensures f.sites[k].shard.pool.closed && !f.sites[k].worlds[i].s.live
      ensures f.sites[k].worlds[i].log.starts == f.sites[k].worlds[i].log.disconnects
    {
      assert SiteOk(f.sites[k], f.spans, k, f.dispatched, f.stopping);
      NotifiedMeansQuiet(f.sites[k], i);
    }
  }

  lemma {:induction false} NoneAlive(sites: seq<Site>, n: nat)
    requires n <= |sites|
    ensures Alive(sites, n) == 0 <==> forall k :: 0 <= k < n ==> sites[k].shard.exits > 0
  {
    if n > 0 {
      NoneAlive(sites, n - 1);
    }
  }
}
