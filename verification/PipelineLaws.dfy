/** A script on its way from text to the end of its run: what reading and validating it give the later stages. */
module PipelineLaws {
  import opened Bytes
  import opened Scripts
  import opened Planner
  import opened Overlay
  import P = SessionPools
  import opened Sharding
  import opened SessionMachine
  import opened SessionLaws
  import opened ClosingLaws
  import opened Fleets
  import opened EndingLaws
  import opened PlanRuns
  import opened ReconnectLaws
  import opened DispatchRuns
  import opened Orchestrators
  import T = TextRoundTrips
  import R = ReadableScripts
  import V = Validator
  import L = ValidatorLaws

  // --- From text to payloads ---

  /** The parser's numbers are below 2^31, so no range it reads runs past 2^32. */
  lemma {:induction false} KnownNoWrap(mods: seq<Modification>, lx: R.Lexicon)
    requires R.KnownModifications(mods, lx)
    ensures L.NoWrap(mods)
  {
    if mods != [] {
      KnownNoWrap(mods[1..], lx);
    }
  }

  lemma {:induction false} ActionAt(actions: seq<Action>, lx: R.Lexicon, i: nat)
    requires R.ActionsOk(actions, lx) && i < |actions|
    ensures R.TimedActionOk(actions[i], lx)
  {
    if i > 0 {
      ActionAt(actions[1..], lx, i - 1);
    }
  }

  lemma ReadActions(text: string, a: Action)
    requires T.Read(text).Some? && a in T.Read(text).value.orchestrator.actions
    ensures a.Balanced() && (a.kind == Send ==> L.NoWrap(a.Modifications()))
  {
    var actions := T.Read(text).value.orchestrator.actions;
    R.ReadIsOk(text);
    var i :| 0 <= i < |actions| && actions[i] == a;
    ActionAt(actions, R.Language(), i);
    if a.kind == Send {
      KnownNoWrap(a.Modifications(), R.Language());
    }
  }

  /** The plan of a script that was read and accepted never fails, and each of its SENDs renders to its packet with
      its fields laid over it exactly if they are given in ascending order without overlap. */
  lemma ReadAndAccepted(text: string, settings: V.Settings, packets: Packets)
    requires T.Read(text).Some? && V.Accepted(settings, T.Read(text).value.orchestrator.actions)
             && L.SameFiles(settings, packets)
    requires forall id :: id in packets ==> packets[id].Length < TWO_64
    ensures var actions := T.Read(text).value.orchestrator.actions;
            && AllCompile(actions, packets)
            && forall a :: a in actions && a.kind == Send ==>
                 && a.packetIdentifier in packets
                 && (WellFormedSend(a, packets) <==>
                       L.AscendFrom(a.Modifications(), 0) && packets[a.packetIdentifier].Length < TWO_32)
  {
    var actions := T.Read(text).value.orchestrator.actions;
    forall a | a in actions
      ensures a.Balanced() && (a.kind == Send ==> L.NoWrap(a.Modifications()))
    {
      ReadActions(text, a);
    }
    L.AcceptedScriptCompiles(settings, packets, actions);
    forall a | a in actions && a.kind == Send
      ensures a.packetIdentifier in packets
      ensures WellFormedSend(a, packets) <==>
                L.AscendFrom(a.Modifications(), 0) && packets[a.packetIdentifier].Length < TWO_32
    {
      var i :| 0 <= i < |actions| && actions[i] == a;
      assert V.AcceptedAt(settings, actions, i);
      L.AcceptedSend(settings, packets, a);
    }
  }

  // --- From a plan to its end ---

  /** The CONNECT actions of a plan are those of its script. */
  lemma {:induction false} ConnectsOfPlan(descs: seq<ActionDescriptor>, actions: seq<Action>, n: nat, g: nat)
    requires Described(descs, actions) && n <= |descs|
    ensures Connects(descs[..n], g) == V.Occurrences(actions[..n], Connect, g)
  {
    if n > 0 {
      ConnectsOfPlan(descs, actions, n - 1, g);
      assert descs[..n][..n - 1] == descs[..n - 1] && actions[..n][..n - 1] == actions[..n - 1];
      assert descs[n - 1] == DescriptorAt(actions, n - 1);
    }
  }

  lemma {:induction false} NoDrains(actions: seq<Action>, g: nat)
    requires forall a :: a in actions ==> a.kind != Drain
    ensures V.Occurrences(actions, Drain, g) == 0
  {
    if actions != [] {
      NoDrains(actions[..|actions| - 1], g);
    }
  }

  /** An accepted script without DRAIN connects no session twice. */
  lemma WithoutDrainConnectsOnce(settings: V.Settings, actions: seq<Action>, descs: seq<ActionDescriptor>, g: nat)
    requires V.Accepted(settings, actions) && Described(descs, actions)
    requires forall a :: a in actions ==> a.kind != Drain
    ensures Connects(descs, g) <= 1
  {
    ConnectsOfPlan(descs, actions, |descs|, g);
    assert descs[..|descs|] == descs && actions[..|actions|] == actions;
    L.ConnectsAlternate(settings, actions, g);
    NoDrains(actions, g);
  }

  /** The script's last CONNECT or DISCONNECT of session `g`, if there is any, is a DISCONNECT. */
  ghost predicate DisconnectedLast(actions: seq<Action>, g: nat) {
    actions == [] ||
    var a := actions[|actions| - 1];
    if V.Covers(a, g) && (a.kind == Connect || a.kind == Disconnect) then a.kind == Disconnect
    else DisconnectedLast(actions[..|actions| - 1], g)
  }

  /** Between any two CONNECTs of session `g` there is a DISCONNECT. */
  ghost predicate DisconnectedBetween(actions: seq<Action>, g: nat) {
    actions == [] ||
    var a, before := actions[|actions| - 1], actions[..|actions| - 1];
    DisconnectedBetween(before, g) && (V.Covers(a, g) && a.kind == Connect ==> DisconnectedLast(before, g))
  }

  lemma StoppedNext(calls: seq<P.Call>, a: ActionDescriptor, g: nat)
    ensures var after, starts := calls + Received(a, g), On(a, Connect, g);
            && (StoppedLast(after) <==> On(a, Disconnect, g) || (!starts && StoppedLast(calls)))
            && (StopsBetween(after) <==> StopsBetween(calls) && (starts ==> StoppedLast(calls)))
  {
    if Received(a, g) == [] {
      assert calls + [] == calls;
    } else {
      assert (calls + Received(a, g))[..|calls|] == calls;
    }
  }

  lemma DisconnectedNext(actions: seq<Action>, n: nat, g: nat)
    requires n < |actions|
    ensures var a, starts := actions[n], V.Covers(actions[n], g) && actions[n].kind == Connect;
            && (DisconnectedLast(actions[..n + 1], g)
                <==> (V.Covers(a, g) && a.kind == Disconnect) || (!starts && DisconnectedLast(actions[..n], g)))
            && (DisconnectedBetween(actions[..n + 1], g)
                <==> DisconnectedBetween(actions[..n], g) && (starts ==> DisconnectedLast(actions[..n], g)))
  {
    assert actions[..n + 1][..n] == actions[..n];
  }

  /** The plan's actions concern the sessions the script's do. */
  lemma OnAction(descs: seq<ActionDescriptor>, actions: seq<Action>, n: nat, kind: ActionType, g: nat)
    requires Described(descs, actions) && n < |descs| && kind != Create
    ensures On(descs[n], kind, g) <==> V.Covers(actions[n], g) && actions[n].kind == kind
  {
    assert descs[n] == DescriptorAt(actions, n);
  }

  /** What the script disconnects, its plan stops. */
  lemma {:induction false} StoppedByScript(descs: seq<ActionDescriptor>, actions: seq<Action>, n: nat, g: nat)
    requires Described(descs, actions) && n <= |descs|
    ensures StoppedLast(Flat(descs[..n], g)) <==> DisconnectedLast(actions[..n], g)
    ensures StopsBetween(Flat(descs[..n], g)) <==> DisconnectedBetween(actions[..n], g)
  {
    if n > 0 {
      StoppedByScript(descs, actions, n - 1, g);
      OnAction(descs, actions, n - 1, Connect, g);
      OnAction(descs, actions, n - 1, Disconnect, g);
      FlatNext(descs, n - 1, g);
      StoppedNext(Flat(descs[..n - 1], g), descs[n - 1], g);
      DisconnectedNext(actions, n - 1, g);
    }
  }

  /** The program has been shut down after the loop, run at these readings, dispatched the plan, and everything posted
      has run. */
  ghost predicate ShutAndResting(cfg: Config, parser: HeaderParser, shards: nat, moves: seq<Move>,
                                 descs: seq<ActionDescriptor>, readings: seq<int>)
  {
    && PossibleRun(cfg, parser, NewFleet(shards), moves) && Orders(moves) <= LoopOrders(descs, readings)
    && var f := FleetRun(cfg, parser, NewFleet(shards), moves);
       f.stopping && forall k :: 0 <= k < |f.sites| ==> AtRest(f.sites[k])
  }

  /** A script that disconnects every session it connects, between any two CONNECTs and after the last, comes to its
      end: once it is shut down and at rest, the threads of all shards can end and the orchestrator is released. */
  lemma DisconnectingScriptEnds(actions: seq<Action>, descs: seq<ActionDescriptor>, readings: seq<int>,
                                cfg: Config, parser: HeaderParser, shards: nat, moves: seq<Move>)
    requires Described(descs, actions)
    requires forall g: nat :: DisconnectedBetween(actions, g) && DisconnectedLast(actions, g)
    requires shards > 0 && ShutAndResting(cfg, parser, shards, moves, descs, readings)
    ensures CanEnd(cfg, parser, FleetRun(cfg, parser, NewFleet(shards), moves))
  {
    DispatchedByLoop(cfg, parser, shards, moves, descs, readings);
    assert descs[..|descs|] == descs && actions[..|actions|] == actions;
    forall g: nat
      ensures StopsBetween(Flat(descs, g)) && StoppedLast(Flat(descs, g))
    {
      StoppedByScript(descs, actions, |descs|, g);
      assert DisconnectedBetween(actions, g) && DisconnectedLast(actions, g);
    }
    ReleasedIfDisconnected(cfg, parser, shards, moves);
  }

  /** An accepted script without DRAIN, in which every session that is connected is disconnected later, comes to its
      end. */
  lemma AcceptedScriptEnds(settings: V.Settings, actions: seq<Action>, descs: seq<ActionDescriptor>,
                           readings: seq<int>, cfg: Config, parser: HeaderParser, shards: nat, moves: seq<Move>)
    requires V.Accepted(settings, actions) && Described(descs, actions)
    requires forall a :: a in actions ==> a.kind != Drain
    requires forall g: nat :: DisconnectedLast(actions, g)
    requires shards > 0 && ShutAndResting(cfg, parser, shards, moves, descs, readings)
    ensures CanEnd(cfg, parser, FleetRun(cfg, parser, NewFleet(shards), moves))
  {
    assert descs[..|descs|] == descs && actions[..|actions|] == actions;
    forall g: nat
      ensures DisconnectedBetween(actions, g) && DisconnectedLast(actions, g)
    {
      WithoutDrainConnectsOnce(settings, actions, descs, g);
      ConnectedOnce(descs, g);
      StoppedByScript(descs, actions, |descs|, g);
    }
    DisconnectingScriptEnds(actions, descs, readings, cfg, parser, shards, moves);
  }

  // --- Scripts that need not end ---

  /** Action `q` of the script does not disconnect session `g`, and drains it only when it was sent to before. */
  ghost predicate KeepsOpen(actions: seq<Action>, q: nat, g: nat)
    requires q < |actions|
  {
    V.Covers(actions[q], g) ==>
      && actions[q].kind != Disconnect
      && (actions[q].kind == Drain ==>
            exists s :: 0 <= s < q && V.Covers(actions[s], g) && actions[s].kind == Send)
  }

  /** The script connects session `g` by action `i` and again by `j`, with no DISCONNECT between and no DRAIN that was
      not preceded by a SEND. */
  ghost predicate ScriptConnectsAgain(actions: seq<Action>, g: nat, i: nat, j: nat) {
    && i < j < |actions| && V.Covers(actions[i], g) && V.Covers(actions[j], g)
    && actions[i].kind == Connect && actions[j].kind == Connect
    && forall q :: i < q < j ==> KeepsOpen(actions, q, g)
  }

  lemma PlanConnectsAgain(settings: V.Settings, actions: seq<Action>, descs: seq<ActionDescriptor>,
                          g: nat, i: nat, j: nat)
    requires V.Accepted(settings, actions) && Described(descs, actions) && ScriptConnectsAgain(actions, g, i, j)
    ensures ConnectedAgain(descs, g, i, j)
  {
    forall q | 0 <= q < |descs|
      ensures actions[q].kind != Create ==>
                forall kind: ActionType :: On(descs[q], kind, g) <==> V.Covers(actions[q], g) && actions[q].kind == kind
      ensures descs[q].kind == actions[q].kind
      ensures V.Covers(actions[q], g) && actions[q].kind == Send ==> SendsTo(descs, q, g)
    {
      assert descs[q] == DescriptorAt(actions, q);
      assert V.AcceptedAt(settings, actions, q);
    }
    forall q | i < q < j
      ensures LeavesOpen(descs, q, g)
    {
      assert KeepsOpen(actions, q, g);
      if On(descs[q], Drain, g) {
        var s :| 0 <= s < q && V.Covers(actions[s], g) && actions[s].kind == Send;
        assert SendsTo(descs, s, g);
      }
    }
  }

  lemma AcceptedPlanCreatesFirst(settings: V.Settings, actions: seq<Action>, descs: seq<ActionDescriptor>)
    requires settings.shards > 0 && V.Accepted(settings, actions) && Described(descs, actions)
    requires actions != [] && actions[0].kind == Create
    ensures PlanRuns.CreatesFirst(descs) && descs[0].count == actions[0].range.second
  {
    L.PlanCreatesFirst(settings, actions, descs);
    assert descs[0] == DescriptorAt(actions, 0);
  }

  /** An accepted script that connects a session again, after it was sent to and drained but not disconnected, has a
      run from which the program never ends by itself, whatever happens afterwards. */
  lemma ScriptMayNeverEnd(settings: V.Settings, actions: seq<Action>, descs: seq<ActionDescriptor>, g: nat, i: nat,
                          j: nat, cfg: Config, parser: HeaderParser, shards: nat) returns (moves: seq<Move>)
    requires settings.shards > 0 && V.Accepted(settings, actions) && Described(descs, actions)
    requires ScriptConnectsAgain(actions, g, i, j) && actions[0].kind == Create && g < actions[0].range.second
    requires shards > 0
    ensures PossibleRun(cfg, parser, NewFleet(shards), moves)
    ensures FleetRun(cfg, parser, NewFleet(shards), moves).dispatched == descs
    ensures !CanEnd(cfg, parser, FleetRun(cfg, parser, NewFleet(shards), moves))
  {
    AcceptedPlanCreatesFirst(settings, actions, descs);
    PlanConnectsAgain(settings, actions, descs, g, i, j);
    moves := AgainNeverEnds(cfg, parser, shards, descs, g, i, j);
  }

  /** Such a script: one session is created, connected, sent to, drained and connected again. */
  ghost predicate ConnectsTwice(settings: V.Settings, actions: seq<Action>) {
    && |actions| == 5 && settings.shards == 1
    && actions[0].kind == Create && actions[0].count == 1
    && actions[1].kind == Connect && actions[2].kind == Send
    && actions[3].kind == Drain && actions[4].kind == Connect
    && (forall q :: 0 <= q < 5 ==> actions[q].range == Range(0, 1)) && V.SendOk(settings, actions[2])
  }

  lemma ConnectsTwiceAccepted(settings: V.Settings, actions: seq<Action>)
    requires ConnectsTwice(settings, actions)
    ensures V.Accepted(settings, actions) && ScriptConnectsAgain(actions, 0, 1, 4)
  {
    forall n | 0 <= n < 5
      ensures V.PoolSize(actions[..n]) == (if n > 0 then 1 else 0)
      ensures forall j :: V.IsActive(actions[..n], j) <==> j == 0 && (n == 2 || n == 3)
    {
      PrefixOfFive(actions, n);
    }
    forall n | 0 <= n < 5
      ensures V.AcceptedAt(settings, actions, n)
    {
    }
    forall q | 1 < q < 4
      ensures KeepsOpen(actions, q, 0)
    {
      assert V.Covers(actions[2], 0);
    }
  }

  lemma {:induction false} PrefixOfFive(actions: seq<Action>, n: nat)
    requires |actions| == 5 && n < 5
    requires actions[0].kind == Create && actions[0].count == 1
    requires actions[1].kind == Connect && actions[2].kind == Send && actions[3].kind == Drain
    requires forall q :: 0 <= q < 5 ==> actions[q].range == Range(0, 1)
    ensures V.PoolSize(actions[..n]) == (if n > 0 then 1 else 0)
    ensures forall j :: V.IsActive(actions[..n], j) <==> j == 0 && (n == 2 || n == 3)
  {
    if n > 0 {
      PrefixOfFive(actions, n - 1);
      assert actions[..n][..n - 1] == actions[..n - 1];
    }
  }

  // --- Scripts without SEND ---

  lemma {:induction false} NoCopies(actions: seq<Action>)
    requires forall a :: a in actions ==> a.kind != Send
    ensures TotalCopies(actions) == 0
  {
    if actions != [] {
      NoCopies(actions[..|actions| - 1]);
    }
  }

  /** The plan of a script without SEND has no payloads. Under REPEAT, a FLOOD of a session that is connected, with
      nothing under way, then never returns; without REPEAT it does. */
  lemma FloodWithoutSend(actions: seq<Action>, packets: Packets, plan: Plan, cfg: Config, w: World, now: int)
    requires AllCompile(actions, packets) && LaidOut(plan.payloads, plan.counterSteps, actions, packets)
    requires forall a :: a in actions ==> a.kind != Send
    requires cfg.payloadCount == |plan.payloads|
    requires w.s.live && !w.s.connecting && !w.s.writing && !w.s.draining && w.s.responses == [] && !WantsPayload(w.s)
    ensures Enabled(cfg, w, FloodPosted(now)) <==> !cfg.loopPayloads
  {
    NoCopies(actions);
    FloodReturns(cfg, w, 1, now);
  }

  /** What is known after the creation of one session, and after its connect. */
  lemma CreatedThenConnected(actions: seq<Action>, j: nat)
    requires |actions| >= 2 && actions[0].kind == Create && actions[0].count == 1 && actions[1].kind == Connect
    requires actions[0].range == actions[1].range == Range(0, 1)
    ensures V.PoolSize(actions[..0]) == 0 && V.PoolSize(actions[..1]) == V.PoolSize(actions[..2]) == 1
    ensures !V.IsActive(actions[..0], j) && !V.IsActive(actions[..1], j) && (V.IsActive(actions[..2], j) <==> j == 0)
  {
    var first, second := actions[..1], actions[..2];
    assert first[..0] == [] && actions[..0] == [] && second[..1] == first;
    assert first[0] == actions[0] && second[1] == actions[1];
    assert !V.IsActive([], j) && V.PoolSize([]) == 0;
    assert !V.IsActive(first, j) && V.PoolSize(first) == 1;
  }

  /** A script that creates one session, connects it and floods it is accepted. */
  lemma FloodOnlyAccepted(settings: V.Settings, actions: seq<Action>)
    requires |actions| == 3 && settings.shards == 1
    requires actions[0].kind == Create && actions[0].count == 1
    requires actions[1].kind == Connect && actions[2].kind == Flood
    requires forall q :: 0 <= q < 3 ==> actions[q].range == Range(0, 1)
    ensures V.Accepted(settings, actions)
  {
    forall n | 0 <= n < 3
      ensures V.AcceptedAt(settings, actions, n)
    {
      CreatedThenConnected(actions, 0);
      forall j: nat
        ensures V.AllowedFor(actions, n, j)
      {
        CreatedThenConnected(actions, j);
      }
    }
  }

  /** A script that only creates one session and connects it is accepted, and compiles to the plan of
      `PlanRuns.LiveSessionHolds`. */
  lemma ConnectOnlyAccepted(settings: V.Settings, actions: seq<Action>, descs: seq<ActionDescriptor>)
    requires |actions| == 2 && settings.shards == 1 && Described(descs, actions)
    requires actions[0].kind == Create && actions[0].count == 1 && actions[1].kind == Connect
    requires forall q :: 0 <= q < 2 ==> actions[q].range == Range(0, 1) && actions[q].offsetMs == 0
    ensures V.Accepted(settings, actions) && descs == CONNECTED_ONLY
  {
    forall n | 0 <= n < 2
      ensures V.AcceptedAt(settings, actions, n)
    {
      CreatedThenConnected(actions, 0);
      forall j: nat
        ensures V.AllowedFor(actions, n, j)
      {
        CreatedThenConnected(actions, j);
      }
    }
    NoOffsets(actions, 1);
    NoOffsets(actions, 2);
    assert descs[0] == DescriptorAt(actions, 0) && descs[1] == DescriptorAt(actions, 1);
  }

  lemma {:induction false} NoOffsets(actions: seq<Action>, n: nat)
    requires n <= |actions| && forall q :: 0 <= q < n ==> actions[q].offsetMs == 0
    ensures RunningOffset(actions[..n]) == 0
  {
    if n > 0 {
      NoOffsets(actions, n - 1);
      assert actions[..n][..n - 1] == actions[..n - 1];
    }
  }
}
