/** Sessions that are connected again although they may still be live: when that can happen, and that the program then
    never ends. */
module ReconnectLaws {
  import opened Bytes
  import opened Scripts
  import opened Planner
  import opened SessionPools
  import opened Shards
  import opened Sharding
  import opened SessionMachine
  import opened DrainLaws
  import opened Sites
  import opened ClosingLaws
  import opened Refinement
  import opened Fleets
  import opened EndingLaws
  import opened PlanRuns

  // --- What the calls leave open ---

  /** How many writes the calls request. */
  ghost function Requested(calls: seq<Call>): nat {
    if calls == [] then 0
    else Requested(calls[..|calls| - 1]) + if calls[|calls| - 1].Send? then calls[|calls| - 1].count else 0
  }

  /** A flood is called for before any drain, after which it would be ignored. */
  ghost predicate Flooded(calls: seq<Call>) {
    calls != []
    && (Flooded(calls[..|calls| - 1]) || (calls[|calls| - 1].Flood? && Call.Drain !in calls[..|calls| - 1]))
  }

  /** The calls give a session of a plan with `payloads` payloads something to write. */
  ghost predicate Busy(payloads: nat, calls: seq<Call>) {
    Requested(calls) > 0 || (payloads > 0 && Flooded(calls))
  }

  /** The calls can leave the session live: it was started, not stopped since, and drained only when it had something
      to write. */
  ghost predicate StaysOpen(payloads: nat, calls: seq<Call>) {
    calls != [] &&
    var before := calls[..|calls| - 1];
    match calls[|calls| - 1]
    case Start => true
    case Stop => false
    case Drain => StaysOpen(payloads, before) && Busy(payloads, before)
    case _ => StaysOpen(payloads, before)
  }

  /** The session is started again when it may still be open. */
  ghost predicate StartedAgain(payloads: nat, calls: seq<Call>) {
    exists h :: 0 <= h < |calls| && calls[h].Start? && StaysOpen(payloads, calls[..h])
  }

  // --- It can happen ---

  /** The command that runs `call`. */
  function CommandOf(call: Call): Event {
    match call
    case Start => StartPosted
    case Send(count) => SendPosted(count, 0)
    case Flood => FloodPosted(0)
    case Drain => DrainPosted
    case Stop => StopPosted
  }

  /** The calls are run while no operation completes, but that the connect completes as soon as the session is to
      flood; its first write then does not complete. */
  ghost function Unhurried(payloads: nat, calls: seq<Call>, h: nat, writing: bool): seq<Event>
    requires h <= |calls|
    decreases |calls| - h, if writing then 0 else 1
  {
    if !writing && MayConnect(payloads, calls[..h]) then [ConnectDone(true, 0)] + Unhurried(payloads, calls, h, true)
    else if h == |calls| then []
    else [CommandOf(calls[h])] + Unhurried(payloads, calls, h + 1, writing)
  }

  ghost predicate MayConnect(payloads: nat, done: seq<Call>) {
    payloads > 0 && Flooded(done) && Start in done
  }

  lemma {:induction false} UnhurriedFollows(payloads: nat, calls: seq<Call>, h: nat, writing: bool)
    requires h <= |calls|
    ensures Follows(calls, h, Unhurried(payloads, calls, h, writing))
    decreases |calls| - h, if writing then 0 else 1
  {
    if !writing && MayConnect(payloads, calls[..h]) {
      UnhurriedFollows(payloads, calls, h, true);
      FollowsCons(calls, h, ConnectDone(true, 0), Unhurried(payloads, calls, h, true));
    } else if h < |calls| {
      UnhurriedFollows(payloads, calls, h + 1, writing);
      FollowsCons(calls, h, CommandOf(calls[h]), Unhurried(payloads, calls, h + 1, writing));
    }
  }

  /** The session after the calls `done`, its connect or its first write still under way. */
  ghost predicate Waiting(cfg: Config, w: World, done: seq<Call>, writing: bool) {
    && w.s.live == StaysOpen(cfg.payloadCount, done)
    && w.s.flood == Flooded(done) && w.s.draining == (Call.Drain in done)
    && w.s.writing == writing && (writing ==> cfg.payloadCount > 0 && Flooded(done))
    && (!writing ==>
          && w.s.writesQueued == Requested(done) && w.s.responses == [] && w.s.nextPayloadIndex == 0
          && (w.s.live ==> w.s.connecting) && (Start in done ==> w.io.connects > 0))
  }

  lemma CommandWaits(cfg: Config, parser: HeaderParser, w: World, done: seq<Call>, call: Call, writing: bool)
    requires Waiting(cfg, w, done, writing) && (writing || !MayConnect(cfg.payloadCount, done))
    ensures Enabled(cfg, w, CommandOf(call))
    ensures Waiting(cfg, Step(cfg, parser, w, CommandOf(call)), done + [call], writing)
  {
    assert (done + [call])[..|done|] == done;
    if w.s.live {
      OpenHasStart(cfg.payloadCount, done);
    }
  }

  lemma {:induction false} OpenHasStart(payloads: nat, calls: seq<Call>)
    requires StaysOpen(payloads, calls)
    ensures Start in calls
  {
    if !calls[|calls| - 1].Start? {
      OpenHasStart(payloads, calls[..|calls| - 1]);
    }
  }

  /** The connect completes and the first write begins. */
  lemma ConnectWaits(cfg: Config, parser: HeaderParser, w: World, done: seq<Call>)
    requires Waiting(cfg, w, done, false) && MayConnect(cfg.payloadCount, done)
    ensures Enabled(cfg, w, ConnectDone(true, 0))
    ensures Waiting(cfg, Step(cfg, parser, w, ConnectDone(true, 0)), done, true)
  {
  }

  /** Run that way, a session that is started again when it may be open is started while it is live. */
  lemma {:induction false} UnhurriedLeaks(cfg: Config, parser: HeaderParser, calls: seq<Call>, h: nat, w: World,
                                          writing: bool)
    requires h <= |calls| && Waiting(cfg, w, calls[..h], writing)
    ensures var events := Unhurried(cfg.payloadCount, calls, h, writing);
            && Possible(cfg, parser, w, events)
            && ((exists q :: h <= q < |calls| && calls[q].Start? && StaysOpen(cfg.payloadCount, calls[..q]))
                ==> LiveStarts(cfg, parser, w, events) > 0)
    decreases |calls| - h, if writing then 0 else 1
  {
    if !writing && MayConnect(cfg.payloadCount, calls[..h]) {
      ConnectWaits(cfg, parser, w, calls[..h]);
      var w' := Step(cfg, parser, w, ConnectDone(true, 0));
      UnhurriedLeaks(cfg, parser, calls, h, w', true);
      EventCons(cfg, parser, w, ConnectDone(true, 0), Unhurried(cfg.payloadCount, calls, h, true));
    } else if h < |calls| {
      CommandWaits(cfg, parser, w, calls[..h], calls[h], writing);
      assert calls[..h] + [calls[h]] == calls[..h + 1];
      var w' := Step(cfg, parser, w, CommandOf(calls[h]));
      UnhurriedLeaks(cfg, parser, calls, h + 1, w', writing);
      EventCons(cfg, parser, w, CommandOf(calls[h]), Unhurried(cfg.payloadCount, calls, h + 1, writing));
    }
  }

  // --- When it cannot ---

  /** What is known after the calls `done` of a session that does not read: it writes nothing unless the calls ask for
      it, and is live only if they can have left it open. */
  ghost predicate WritesOnRequest(cfg: Config, w: World, done: seq<Call>) {
    && (w.s.live ==> StaysOpen(cfg.payloadCount, done))
    && w.s.flood == Flooded(done) && w.s.draining == (Call.Drain in done)
    && w.s.responses == [] && w.io.callbacks == 0 && w.io.readOps == []
    && (Requested(done) == 0 ==> w.s.writesQueued == 0)
    && (!Busy(cfg.payloadCount, done) ==> !w.s.writing && w.io.writeOps == [])
  }

  lemma WriterOnRequest(cfg: Config, w: World, now: int, done: seq<Call>)
    requires WritesOnRequest(cfg, w, done) && !cfg.readMessages
    ensures !Spins(cfg, w.s) || w.s.writing ==> WritesOnRequest(cfg, TryStartWrite(cfg, w, now), done)
    ensures !Spins(cfg, w.s) || w.s.writing ==> WritesOnRequest(cfg, OnConnect(cfg, w, now), done)
    ensures !Spins(cfg, w.s) && Busy(cfg.payloadCount, done) ==> WritesOnRequest(cfg, DoWrite(cfg, w, now), done)
  {
  }

  lemma CommandOnRequest(cfg: Config, parser: HeaderParser, w: World, done: seq<Call>, call: Call, e: Event)
    requires WritesOnRequest(cfg, w, done) && !cfg.readMessages
    requires Enabled(cfg, w, e) && IsCommand(e) && Runs(call, e)
    ensures WritesOnRequest(cfg, Step(cfg, parser, w, e), done + [call])
  {
    var after := done + [call];
    assert after[..|done|] == done;
    match e
    case UdpStart(ok, now) => WriterOnRequest(cfg, Begun(w), now, after);
    case SendPosted(count, now) => WriterOnRequest(cfg, Enqueue(w, count), now, after);
    case FloodPosted(now) => if !w.s.flood && !w.s.draining {
      WriterOnRequest(cfg, w.(s := w.s.(flood := true)), now, after);
    }
    case StartPosted =>
    case DrainPosted =>
    case StopPosted =>
  }

  lemma CompletionOnRequest(cfg: Config, parser: HeaderParser, w: World, done: seq<Call>, e: Event)
    requires WritesOnRequest(cfg, w, done) && !cfg.readMessages && Enabled(cfg, w, e) && !IsCommand(e)
    ensures WritesOnRequest(cfg, Step(cfg, parser, w, e), done)
  {
    match e
    case ConnectDone(ok, now) =>
      var w1 := w.(s := w.s.(connecting := false), io := w.io.(connects := w.io.connects - 1));
      WriterOnRequest(cfg, w1, now, done);
    case WriteDone(which, ok, now) =>
      var w1 := w.(io := w.io.(writeOps := Without(w.io.writeOps, which)));
      WriterOnRequest(cfg, Sample(cfg, w1, w.io.writeOps[which], now), now, done);
  }

  lemma {:induction false} NeverLeaks(cfg: Config, parser: HeaderParser, calls: seq<Call>, h: nat, w: World,
                                      events: seq<Event>)
    requires h <= |calls| && WritesOnRequest(cfg, w, calls[..h]) && !cfg.readMessages
    requires Possible(cfg, parser, w, events) && Follows(calls, h, events) && !StartedAgain(cfg.payloadCount, calls)
    ensures LiveStarts(cfg, parser, w, events) == 0
    decreases |events|
  {
    if events != [] {
      var e := events[0];
      if IsCommand(e) {
        CommandOnRequest(cfg, parser, w, calls[..h], calls[h], e);
        assert calls[..h] + [calls[h]] == calls[..h + 1];
        NeverLeaks(cfg, parser, calls, h + 1, Step(cfg, parser, w, e), events[1..]);
      } else {
        CompletionOnRequest(cfg, parser, w, calls[..h], e);
        NeverLeaks(cfg, parser, calls, h, Step(cfg, parser, w, e), events[1..]);
      }
    }
  }

  /** Some way of running `calls` starts the session while it is live. */
  ghost predicate CanLeak(cfg: Config, parser: HeaderParser, calls: seq<Call>) {
    exists events :: Possible(cfg, parser, Initial(cfg), events) && Follows(calls, 0, events)
                     && LiveStarts(cfg, parser, Initial(cfg), events) > 0
  }

  /** A session that is started again when it may still be open can be live then; and if it does not read, only such a
      session can. */
  lemma LeaksExactly(cfg: Config, parser: HeaderParser, calls: seq<Call>)
    ensures StartedAgain(cfg.payloadCount, calls) ==> CanLeak(cfg, parser, calls)
    ensures !cfg.readMessages ==> (CanLeak(cfg, parser, calls) <==> StartedAgain(cfg.payloadCount, calls))
  {
    assert calls[..0] == [];
    UnhurriedFollows(cfg.payloadCount, calls, 0, false);
    UnhurriedLeaks(cfg, parser, calls, 0, Initial(cfg), false);
    if !cfg.readMessages && !StartedAgain(cfg.payloadCount, calls) {
      forall events | Possible(cfg, parser, Initial(cfg), events) && Follows(calls, 0, events)
        ensures LiveStarts(cfg, parser, Initial(cfg), events) == 0
      {
        NeverLeaks(cfg, parser, calls, 0, Initial(cfg), events);
      }
    }
  }

  /** The shortest case: started, asked for a write, drained before it is connected, and started again. */
  lemma DrainedAndStartedAgain(cfg: Config, parser: HeaderParser)
    ensures var events := [StartPosted, SendPosted(1, 0), DrainPosted, StartPosted];
            && Possible(cfg, parser, Initial(cfg), events)
            && LiveStarts(cfg, parser, Initial(cfg), events) == 1
  {
    var w1 := Step(cfg, parser, Initial(cfg), StartPosted);
    var w2 := Step(cfg, parser, w1, SendPosted(1, 0));
    var w3 := Step(cfg, parser, w2, DrainPosted);
    EventCons(cfg, parser, w3, StartPosted, []);
    EventCons(cfg, parser, w2, DrainPosted, [StartPosted]);
    EventCons(cfg, parser, w1, SendPosted(1, 0), [DrainPosted, StartPosted]);
    EventCons(cfg, parser, Initial(cfg), StartPosted, [SendPosted(1, 0), DrainPosted, StartPosted]);
  }

  // --- What it means for a plan ---

  predicate On(a: ActionDescriptor, kind: ActionType, g: nat) {
    a.kind == kind && a.sessionsStart <= g < a.sessionsEnd
  }

  /** Action `q` requests writes of session `g`. */
  predicate SendsTo(actions: seq<ActionDescriptor>, q: nat, g: nat)
    requires q < |actions|
  {
    On(actions[q], ActionType.Send, g) && actions[q].count > 0
  }

  lemma {:induction false} SentBefore(payloads: nat, actions: seq<ActionDescriptor>, q: nat, n: nat, g: nat)
    requires q < n <= |actions| && SendsTo(actions, q, g)
    ensures Requested(Flat(actions[..n], g)) > 0
    decreases n
  {
    FlatNext(actions, n - 1, g);
    if q < n - 1 {
      SentBefore(payloads, actions, q, n - 1, g);
    }
    CallsNext(payloads, Flat(actions[..n - 1], g), actions[n - 1], g);
  }

  lemma FlatNext(actions: seq<ActionDescriptor>, n: nat, g: nat)
    requires n < |actions|
    ensures Flat(actions[..n + 1], g) == Flat(actions[..n], g) + Received(actions[n], g)
  {
    assert actions[..n + 1][..n] == actions[..n];
  }

  /** What an action adds to the calls of a session. */
  lemma CallsNext(payloads: nat, calls: seq<Call>, a: ActionDescriptor, g: nat)
    ensures var after := calls + Received(a, g);
            && Requested(after) == Requested(calls) + (if On(a, ActionType.Send, g) then a.count else 0)
            && StaysOpen(payloads, after)
               == if On(a, Connect, g) then true
                  else if On(a, Disconnect, g) then false
                  else if On(a, ActionType.Drain, g) then StaysOpen(payloads, calls) && Busy(payloads, calls)
                  else StaysOpen(payloads, calls)
  {
    if Received(a, g) == [] {
      assert calls + [] == calls;
    } else {
      assert (calls + Received(a, g))[..|calls|] == calls;
    }
  }

  /** Action `q` does not disconnect session `g`, and drains it only when it was sent to before. */
  ghost predicate LeavesOpen(actions: seq<ActionDescriptor>, q: nat, g: nat)
    requires q < |actions|
  {
    && !On(actions[q], Disconnect, g)
    && (On(actions[q], ActionType.Drain, g) ==> exists s :: 0 <= s < q && SendsTo(actions, s, g))
  }

  /** Connected by action `i` and again by `j`, with no DISCONNECT between and no DRAIN that was not preceded by a
      SEND. */
  ghost predicate ConnectedAgain(actions: seq<ActionDescriptor>, g: nat, i: nat, j: nat) {
    && i < j < |actions| && On(actions[i], Connect, g) && On(actions[j], Connect, g)
    && forall q :: i < q < j ==> LeavesOpen(actions, q, g)
  }

  lemma OpenNext(payloads: nat, actions: seq<ActionDescriptor>, g: nat, q: nat)
    requires q < |actions|
    requires On(actions[q], Connect, g) || (StaysOpen(payloads, Flat(actions[..q], g)) && LeavesOpen(actions, q, g))
    ensures StaysOpen(payloads, Flat(actions[..q + 1], g))
  {
    FlatNext(actions, q, g);
    CallsNext(payloads, Flat(actions[..q], g), actions[q], g);
    if !On(actions[q], Connect, g) && On(actions[q], ActionType.Drain, g) {
      var s :| 0 <= s < q && SendsTo(actions, s, g);
      SentBefore(payloads, actions, s, q, g);
    }
  }

  lemma {:induction false} OpenUntil(payloads: nat, actions: seq<ActionDescriptor>, g: nat, i: nat, j: nat, n: nat)
    requires ConnectedAgain(actions, g, i, j) && i < n <= j
    ensures StaysOpen(payloads, Flat(actions[..n], g))
    decreases n
  {
    if i < n - 1 {
      OpenUntil(payloads, actions, g, i, j, n - 1);
    }
    OpenNext(payloads, actions, g, n - 1);
  }

  lemma {:induction false} FlatPrefix(actions: seq<ActionDescriptor>, n: nat, g: nat)
    requires n <= |actions|
    ensures Flat(actions[..n], g) <= Flat(actions, g)
    decreases |actions| - n
  {
    if n == |actions| {
      assert actions[..n] == actions;
    } else {
      FlatNext(actions, n, g);
      FlatPrefix(actions, n + 1, g);
    }
  }

  /** Such a session is started again when it may still be open. */
  lemma {:induction false} AgainStarts(payloads: nat, actions: seq<ActionDescriptor>, g: nat, i: nat, j: nat)
    requires ConnectedAgain(actions, g, i, j)
    ensures StartedAgain(payloads, Flat(actions, g))
  {
    OpenUntil(payloads, actions, g, i, j, j);
    FlatNext(actions, j, g);
    FlatPrefix(actions, j + 1, g);
    CallAt(Flat(actions[..j], g), Start, Flat(actions, g));
  }

  lemma CallAt(before: seq<Call>, call: Call, calls: seq<Call>)
    requires before + [call] <= calls
    ensures |before| < |calls| && calls[..|before|] == before && calls[|before|] == call
  {
    assert (before + [call])[..|before|] == before;
  }

  /** Session `g` of the plan, before it has run any handler: it is session `l` of shard `k`. */
  lemma SessionReached(cfg: Config, parser: HeaderParser, shards: nat, actions: seq<ActionDescriptor>, g: nat)
      returns (moves: seq<Move>, k: nat, l: nat)
    requires shards > 0 && CreatesFirst(actions) && g < actions[0].count
    ensures PossibleRun(cfg, parser, NewFleet(shards), moves)
    ensures var f := FleetRun(cfg, parser, NewFleet(shards), moves);
            && FleetOk(f) && f.dispatched == actions && k < |f.sites| && Untouched(cfg, f.sites[k])
            && l < |f.sites[k].worlds| && f.sites[k].shard.pool.sessions[l] == Flat(actions, g)
  {
    moves := PlanHandled(cfg, parser, shards, actions);
    var f := FleetRun(cfg, parser, NewFleet(shards), moves);
    k := OwnerOf(f.spans, actions[0].count, shards, g);
    l := g - f.spans[k].start;
    CallsOfSession(f, k, l);
    assert Untouched(cfg, f.sites[k]);
  }

  /** Any run of session `g` on the calls the plan makes on it is part of a run of the whole program. */
  lemma SessionOfPlan(cfg: Config, parser: HeaderParser, shards: nat, actions: seq<ActionDescriptor>, g: nat,
                      events: seq<Event>) returns (moves: seq<Move>, k: nat)
    requires shards > 0 && CreatesFirst(actions) && g < actions[0].count
    requires Possible(cfg, parser, Initial(cfg), events) && Follows(Flat(actions, g), 0, events)
    ensures PossibleRun(cfg, parser, NewFleet(shards), moves)
    ensures FleetRun(cfg, parser, NewFleet(shards), moves).dispatched == actions
    ensures LiveStarts(cfg, parser, Initial(cfg), events) > 0 ==>
              && EverStartsLive(cfg, parser, NewFleet(shards), moves, k)
              && !CanEnd(cfg, parser, FleetRun(cfg, parser, NewFleet(shards), moves))
  {
    var first, l;
    first, k, l := SessionReached(cfg, parser, shards, actions, g);
    var f := FleetRun(cfg, parser, NewFleet(shards), first);
    var second := SessionPlays(cfg, parser, f, k, l, events);
    FleetAppend(cfg, parser, NewFleet(shards), first, second);
    StartsLiveAppend(cfg, parser, NewFleet(shards), first, second, k);
    moves := first + second;
    if LiveStarts(cfg, parser, Initial(cfg), events) > 0 {
      LeakedCannotEnd(cfg, parser, f, k, second);
    }
  }

  lemma LeakedCannotEnd(cfg: Config, parser: HeaderParser, f: Fleet, k: nat, moves: seq<Move>)
    requires FleetOk(f) && k < |f.sites| && PossibleRun(cfg, parser, f, moves)
    requires EverStartsLive(cfg, parser, f, moves, k)
    ensures !CanEnd(cfg, parser, FleetRun(cfg, parser, f, moves))
  {
    var t := FleetRun(cfg, parser, f, moves);
    FleetRunKeeps(cfg, parser, f, moves);
    RunLeaks(cfg, parser, f, moves, k);
    forall more | PossibleRun(cfg, parser, t, more)
      ensures FleetRun(cfg, parser, t, more).exits.releases == 0
    {
      LeakNeverEnds(cfg, parser, t, k, more);
    }
  }

  /** A plan under which some session is started again when it may still be open has a run from which the program
      never ends, whatever happens afterwards. */
  lemma MayNeverEnd(cfg: Config, parser: HeaderParser, shards: nat, actions: seq<ActionDescriptor>, g: nat)
      returns (moves: seq<Move>, k: nat)
    requires shards > 0 && CreatesFirst(actions) && g < actions[0].count
    requires StartedAgain(cfg.payloadCount, Flat(actions, g))
    ensures PossibleRun(cfg, parser, NewFleet(shards), moves)
    ensures EverStartsLive(cfg, parser, NewFleet(shards), moves, k)
    ensures FleetRun(cfg, parser, NewFleet(shards), moves).dispatched == actions
    ensures !CanEnd(cfg, parser, FleetRun(cfg, parser, NewFleet(shards), moves))
  {
    LeaksExactly(cfg, parser, Flat(actions, g));
    var events :| Possible(cfg, parser, Initial(cfg), events) && Follows(Flat(actions, g), 0, events)
                  && LiveStarts(cfg, parser, Initial(cfg), events) > 0;
    moves, k := SessionOfPlan(cfg, parser, shards, actions, g, events);
  }

  /** In particular, a plan that connects a session again, after it was sent to and drained but not disconnected. */
  lemma AgainNeverEnds(cfg: Config, parser: HeaderParser, shards: nat, actions: seq<ActionDescriptor>, g: nat,
                       i: nat, j: nat) returns (moves: seq<Move>)
    requires shards > 0 && CreatesFirst(actions) && g < actions[0].count && ConnectedAgain(actions, g, i, j)
    ensures PossibleRun(cfg, parser, NewFleet(shards), moves)
    ensures FleetRun(cfg, parser, NewFleet(shards), moves).dispatched == actions
    ensures !CanEnd(cfg, parser, FleetRun(cfg, parser, NewFleet(shards), moves))
  {
    AgainStarts(cfg.payloadCount, actions, g, i, j);
    var k;
    moves, k := MayNeverEnd(cfg, parser, shards, actions, g);
  }

  // --- Plans under which it cannot happen ---

  /** Every session of the shard has done what its calls allow. */
  ghost predicate SiteOnRequest(cfg: Config, s: Site) {
    && Shaped(s)
    && forall i :: 0 <= i < |s.worlds| ==> OnRequest(cfg, s.worlds[i], s.shard.pool.sessions[i], s.handled[i])
  }

  ghost predicate OnRequest(cfg: Config, w: World, calls: seq<Call>, h: nat) {
    h <= |calls| && WritesOnRequest(cfg, w, calls[..h])
  }

  ghost predicate AllOnRequest(cfg: Config, f: Fleet) {
    forall k :: 0 <= k < |f.sites| ==> SiteOnRequest(cfg, f.sites[k])
  }

  lemma EventOnRequest(cfg: Config, parser: HeaderParser, w: World, calls: seq<Call>, h: nat, e: Event)
    requires OnRequest(cfg, w, calls, h) && !cfg.readMessages && Enabled(cfg, w, e)
    requires IsCommand(e) ==> h < |calls| && Runs(calls[h], e)
    ensures OnRequest(cfg, Step(cfg, parser, w, e), calls, if IsCommand(e) then h + 1 else h)
    ensures IsStart(e) && w.s.live ==> StartedAgain(cfg.payloadCount, calls)
  {
    if IsCommand(e) {
      CommandOnRequest(cfg, parser, w, calls[..h], calls[h], e);
      assert calls[..h] + [calls[h]] == calls[..h + 1];
    } else {
      CompletionOnRequest(cfg, parser, w, calls[..h], e);
    }
  }

  lemma SessionOnRequest(cfg: Config, parser: HeaderParser, s: Site, i: nat, e: Event)
    requires SiteOnRequest(cfg, s) && !cfg.readMessages && SessionReady(cfg, s, i, e)
    ensures SiteOnRequest(cfg, SessionRuns(cfg, parser, s, i, e))
    ensures IsStart(e) && s.worlds[i].s.live ==> StartedAgain(cfg.payloadCount, s.shard.pool.sessions[i])
  {
    EventOnRequest(cfg, parser, s.worlds[i], s.shard.pool.sessions[i], s.handled[i], e);
    SessionEffect(cfg, parser, s, i, e);
    var t := SessionRuns(cfg, parser, s, i, e);
    forall j | 0 <= j < |t.worlds|
      ensures OnRequest(cfg, t.worlds[j], t.shard.pool.sessions[j], t.handled[j])
    {
      assert j != i ==> t.worlds[j] == s.worlds[j] && t.handled[j] == s.handled[j];
      assert OnRequest(cfg, s.worlds[j], s.shard.pool.sessions[j], s.handled[j]);
    }
  }

  /** Further calls change nothing about what has run. */
  lemma PostedOnRequest(cfg: Config, s: Site, t: Site)
    requires SiteOnRequest(cfg, s) && Shaped(t) && t.worlds == s.worlds && t.handled == s.handled
    requires forall i :: 0 <= i < |s.worlds| ==> s.shard.pool.sessions[i] <= t.shard.pool.sessions[i]
    ensures SiteOnRequest(cfg, t)
  {
    forall i | 0 <= i < |t.worlds|
      ensures OnRequest(cfg, t.worlds[i], t.shard.pool.sessions[i], t.handled[i])
    {
      assert OnRequest(cfg, s.worlds[i], s.shard.pool.sessions[i], s.handled[i]);
      assert t.shard.pool.sessions[i][..t.handled[i]] == s.shard.pool.sessions[i][..s.handled[i]];
    }
  }

  lemma HandlerOnRequest(cfg: Config, s: Site)
    requires SiteOnRequest(cfg, s) && HandlerReady(s)
    ensures SiteOnRequest(cfg, HandlerRuns(cfg, s))
  {
    var t := HandlerRuns(cfg, s);
    if t.worlds == s.worlds && t.handled == s.handled {
      PostedOnRequest(cfg, s, t);
    } else {
      forall i | 0 <= i < |t.worlds|
        ensures OnRequest(cfg, t.worlds[i], t.shard.pool.sessions[i], t.handled[i])
      {
        assert t.worlds[i] == Initial(cfg) && t.handled[i] == 0;
        assert t.shard.pool.sessions[i][..0] == [];
      }
    }
  }

  lemma StepOnRequest(cfg: Config, parser: HeaderParser, f: Fleet, m: Move)
    requires AllOnRequest(cfg, f) && !cfg.readMessages && Ready(cfg, f, m)
    ensures AllOnRequest(cfg, FleetStep(cfg, parser, f, m))
  {
    var t := FleetStep(cfg, parser, f, m);
    forall k | 0 <= k < |t.sites|
      ensures SiteOnRequest(cfg, t.sites[k])
    {
      assert SiteOnRequest(cfg, f.sites[k]);
      if m.SessionMoves? && m.k == k {
        SessionOnRequest(cfg, parser, f.sites[k], m.i, m.e);
      } else if m.HandleNext? && m.k == k && HandlerReady(f.sites[k]) {
        HandlerOnRequest(cfg, f.sites[k]);
      } else {
        PostedOnRequest(cfg, f.sites[k], t.sites[k]);
      }
    }
  }

  lemma StartedAgainLater(payloads: nat, calls: seq<Call>, more: seq<Call>)
    requires StartedAgain(payloads, calls) && calls <= more
    ensures StartedAgain(payloads, more)
  {
    var h :| 0 <= h < |calls| && calls[h].Start? && StaysOpen(payloads, calls[..h]);
    assert more[..h] == calls[..h] && more[h] == calls[h];
  }

  lemma FlatGrows(actions: seq<ActionDescriptor>, more: seq<ActionDescriptor>, g: nat)
    requires actions <= more
    ensures Flat(actions, g) <= Flat(more, g)
  {
    FlatPrefix(more, |actions|, g);
    assert more[..|actions|] == actions;
  }

  /** No session of the plan is started again when it may still be open. */
  ghost predicate NeverStartsAgain(payloads: nat, actions: seq<ActionDescriptor>) {
    forall g: nat :: actions != [] && g < actions[0].count ==> !StartedAgain(payloads, Flat(actions, g))
  }

  /** What has been dispatched calls session `i` of shard `k`, whose index in the script is that much higher. */
  lemma CallsOfShard(f: Fleet, k: nat, i: nat)
    requires FleetOk(f) && k < |f.sites| && Shaped(f.sites[k]) && i < |f.sites[k].worlds|
    ensures k < |f.spans| && f.dispatched != [] && f.spans[k].start + i < f.dispatched[0].count
    ensures f.sites[k].shard.pool.sessions[i] <= Flat(f.dispatched, f.spans[k].start + i)
  {
    var s := f.sites[k];
    assert SiteOk(s, f.spans, k, f.dispatched, f.stopping);
    assert CallsAgree(s.shard, f.spans[k], f.dispatched, i);
    PartitionFits(f.spans, f.dispatched[0].count, |f.sites|);
  }

  lemma NotAgainInPlan(payloads: nat, calls: seq<Call>, dispatched: seq<ActionDescriptor>,
                       actions: seq<ActionDescriptor>, g: nat)
    requires dispatched != [] && dispatched <= actions && g < dispatched[0].count
    requires calls <= Flat(dispatched, g) && NeverStartsAgain(payloads, actions)
    ensures !StartedAgain(payloads, calls)
  {
    assert actions[0] == dispatched[0];
    assert !StartedAgain(payloads, Flat(actions, g));
    if StartedAgain(payloads, calls) {
      FlatGrows(dispatched, actions, g);
      StartedAgainLater(payloads, calls, Flat(dispatched, g));
      StartedAgainLater(payloads, Flat(dispatched, g), Flat(actions, g));
    }
  }

  lemma NotStartedAgain(cfg: Config, f: Fleet, k: nat, i: nat, actions: seq<ActionDescriptor>)
    requires FleetOk(f) && k < |f.sites| && Shaped(f.sites[k]) && i < |f.sites[k].worlds|
    requires f.dispatched <= actions && NeverStartsAgain(cfg.payloadCount, actions)
    ensures !StartedAgain(cfg.payloadCount, f.sites[k].shard.pool.sessions[i])
  {
    CallsOfShard(f, k, i);
    NotAgainInPlan(cfg.payloadCount, f.sites[k].shard.pool.sessions[i], f.dispatched, actions, f.spans[k].start + i);
  }

  lemma MoveStartsNone(cfg: Config, parser: HeaderParser, f: Fleet, m: Move, k: nat)
    requires AllOnRequest(cfg, f) && !cfg.readMessages && Ready(cfg, f, m)
    requires m.SessionMoves? ==> !StartedAgain(cfg.payloadCount, f.sites[m.k].shard.pool.sessions[m.i])
    ensures !StartsLive(f, m, k)
  {
    if StartsLive(f, m, k) {
      SessionOnRequest(cfg, parser, f.sites[k], m.i, m.e);
    }
  }

  lemma {:induction false} DispatchedGrows(cfg: Config, parser: HeaderParser, f: Fleet, moves: seq<Move>)
    requires PossibleRun(cfg, parser, f, moves)
    ensures f.dispatched <= FleetRun(cfg, parser, f, moves).dispatched
    decreases |moves|
  {
    if moves != [] {
      DispatchedGrows(cfg, parser, FleetStep(cfg, parser, f, moves[0]), moves[1..]);
    }
  }

  lemma {:induction false} RunStartsNone(cfg: Config, parser: HeaderParser, f: Fleet, moves: seq<Move>, k: nat,
                                         actions: seq<ActionDescriptor>)
    requires FleetOk(f) && AllOnRequest(cfg, f) && !cfg.readMessages && PossibleRun(cfg, parser, f, moves)
    requires FleetRun(cfg, parser, f, moves).dispatched <= actions && NeverStartsAgain(cfg.payloadCount, actions)
    ensures !EverStartsLive(cfg, parser, f, moves, k)
    decreases |moves|
  {
    if moves != [] {
      DispatchedGrows(cfg, parser, f, moves);
      if moves[0].SessionMoves? {
        NotStartedAgain(cfg, f, moves[0].k, moves[0].i, actions);
      }
      MoveStartsNone(cfg, parser, f, moves[0], k);
      StepOnRequest(cfg, parser, f, moves[0]);
      FleetStepKeeps(cfg, parser, f, moves[0]);
      RunStartsNone(cfg, parser, FleetStep(cfg, parser, f, moves[0]), moves[1..], k, actions);
    }
  }

  /** Some run of the plan starts a session that is live. */
  ghost predicate PlanLeaks(cfg: Config, parser: HeaderParser, shards: nat, actions: seq<ActionDescriptor>) {
    exists moves, k ::
      && PossibleRun(cfg, parser, NewFleet(shards), moves)
      && FleetRun(cfg, parser, NewFleet(shards), moves).dispatched <= actions
      && EverStartsLive(cfg, parser, NewFleet(shards), moves, k)
  }

  /** With READ off, some run of a plan starts a session that is live exactly if the plan starts a session again when it
      may still be open; with READ on, every such plan has one too. */
  lemma PlanLeaksExactly(cfg: Config, parser: HeaderParser, shards: nat, actions: seq<ActionDescriptor>)
    requires shards > 0 && CreatesFirst(actions)
    ensures !NeverStartsAgain(cfg.payloadCount, actions) ==> PlanLeaks(cfg, parser, shards, actions)
    ensures !cfg.readMessages ==>
              (PlanLeaks(cfg, parser, shards, actions) <==> !NeverStartsAgain(cfg.payloadCount, actions))
  {
    if NeverStartsAgain(cfg.payloadCount, actions) {
      NewFleetOk(shards);
      forall moves, k | !cfg.readMessages && PossibleRun(cfg, parser, NewFleet(shards), moves)
          && FleetRun(cfg, parser, NewFleet(shards), moves).dispatched <= actions
        ensures !EverStartsLive(cfg, parser, NewFleet(shards), moves, k)
      {
        RunStartsNone(cfg, parser, NewFleet(shards), moves, k, actions);
      }
    } else {
      var g: nat :| g < actions[0].count && StartedAgain(cfg.payloadCount, Flat(actions, g));
      var moves, k := MayNeverEnd(cfg, parser, shards, actions, g);
    }
  }
}
