/** The orchestrator: dispatches the actions of a plan when they are due, splits each over the shards, and
    shuts the shards down after the last. */
module Orchestrators {
  import opened Bytes
  import opened Scripts
  import opened Planner
  import opened Shards
  import opened Sharding

  // --- When actions are dispatched ---

  /** An action and the clock reading, counted from the start, at which it was dispatched. */
  datatype Dispatched = Dispatched(index: nat, at: int)

  /** `deadline` is when the dispatch timer is set to fire. */
  datatype Agenda = Agenda(next: nat, trace: seq<Dispatched>, deadline: Option<int>, finished: bool)

  const NEW_AGENDA := Agenda(0, [], None, false)

  /** One run of the dispatch loop at clock reading `now`. */
  ghost function Serve(actions: seq<ActionDescriptor>, g: Agenda, now: int): Agenda
    decreases |actions| - g.next
  {
    if g.next >= |actions| then g.(finished := true)
    else if actions[g.next].offset > now then g.(deadline := Some(actions[g.next].offset))
    else Serve(actions, DispatchedNext(g, now), now)
  }

  function DispatchedNext(g: Agenda, now: int): Agenda {
    g.(next := g.next + 1, trace := g.trace + [Dispatched(g.next, now)])
  }

  lemma ServeStep(actions: seq<ActionDescriptor>, g: Agenda, now: int)
    requires g.next < |actions| && actions[g.next].offset <= now
    ensures Serve(actions, DispatchedNext(g, now), now) == Serve(actions, g, now)
  {
  }

  /** The loop is run at each of the readings. */
  ghost function ServeAll(actions: seq<ActionDescriptor>, readings: seq<int>): Agenda {
    if readings == [] then NEW_AGENDA
    else Serve(actions, ServeAll(actions, readings[..|readings| - 1]), readings[|readings| - 1])
  }

  ghost predicate Ascending(xs: seq<int>) {
    forall i, j :: 0 <= i < j < |xs| ==> xs[i] <= xs[j]
  }

  ghost predicate OffsetsAscend(actions: seq<ActionDescriptor>) {
    forall i, j :: 0 <= i < j < |actions| ==> actions[i].offset <= actions[j].offset
  }

  /** The loop dispatches each action once, in order, at the reading it is run with, and stops at the first
      action that is not due. */
  lemma {:induction false} ServeExact(actions: seq<ActionDescriptor>, g: Agenda, now: int)
    requires g.next <= |actions| && |g.trace| == g.next
    requires forall j :: 0 <= j < g.next ==> g.trace[j].index == j
    ensures var h := Serve(actions, g, now);
            && g.next <= h.next <= |actions| && |h.trace| == h.next && h.trace[..g.next] == g.trace
            && (forall j :: 0 <= j < h.next ==> h.trace[j].index == j)
            && (forall j :: g.next <= j < h.next ==> h.trace[j].at == now && actions[j].offset <= now)
            && (h.next < |actions| ==>
                  actions[h.next].offset > now && h.deadline == Some(actions[h.next].offset)
                  && h.finished == g.finished)
            && (h.next == |actions| ==> h.finished)
    decreases |actions| - g.next
  {
    if g.next < |actions| && actions[g.next].offset <= now {
      ServeExact(actions, DispatchedNext(g, now), now);
      var h := Serve(actions, g, now);
      assert h.trace[..g.next] == h.trace[..g.next + 1][..g.next] == g.trace;
      assert h.trace[g.next] == h.trace[..g.next + 1][g.next] == Dispatched(g.next, now);
    }
  }

  /** Reading `r` is the first at or after the offset of action `j`. */
  ghost predicate FirstDue(actions: seq<ActionDescriptor>, readings: seq<int>, j: nat, r: nat)
    requires j < |actions| && r < |readings|
  {
    readings[r] >= actions[j].offset && forall q :: 0 <= q < r ==> readings[q] < actions[j].offset
  }

  /** Action `j` was dispatched at the first reading that was not before its offset. */
  ghost predicate DispatchedWhenDue(actions: seq<ActionDescriptor>, readings: seq<int>, d: Dispatched, j: nat)
    requires j < |actions|
  {
    d.index == j && exists r :: 0 <= r < |readings| && FirstDue(actions, readings, j, r) && d.at == readings[r]
  }

  ghost predicate DispatchedExactly(actions: seq<ActionDescriptor>, readings: seq<int>, g: Agenda) {
    && g.next <= |actions| && |g.trace| == g.next
    && (forall j :: 0 <= j < g.next ==> DispatchedWhenDue(actions, readings, g.trace[j], j))
    && (forall j :: g.next <= j < |actions| ==> forall q :: 0 <= q < |readings| ==> readings[q] < actions[j].offset)
    && (g.finished <==> g.next == |actions| && readings != [])
  }

  /** For every nondecreasing sequence of clock readings: an action has been dispatched exactly when some
      reading reached its offset, once, in script order, at the first such reading; and the orchestrator
      shuts down exactly when all have been. */
  lemma {:induction false} DispatchIsExact(actions: seq<ActionDescriptor>, readings: seq<int>)
    requires OffsetsAscend(actions) && Ascending(readings)
    ensures DispatchedExactly(actions, readings, ServeAll(actions, readings))
  {
    if readings != [] {
      var n := |readings| - 1;
      var before, now := readings[..n], readings[n];
      DispatchIsExact(actions, before);
      var g := ServeAll(actions, before);
      forall j | 0 <= j < g.next
        ensures g.trace[j].index == j
      {
        assert DispatchedWhenDue(actions, before, g.trace[j], j);
      }
      ServeExact(actions, g, now);
      DispatchStep(actions, readings, g, Serve(actions, g, now));
    }
  }

  lemma DispatchStep(actions: seq<ActionDescriptor>, readings: seq<int>, g: Agenda, h: Agenda)
    requires OffsetsAscend(actions) && Ascending(readings) && readings != []
    requires DispatchedExactly(actions, readings[..|readings| - 1], g)
    requires g.next <= h.next <= |actions| && |h.trace| == h.next && h.trace[..g.next] == g.trace
    requires forall j :: 0 <= j < h.next ==> h.trace[j].index == j
    requires forall j :: g.next <= j < h.next ==>
               h.trace[j].at == readings[|readings| - 1] && actions[j].offset <= readings[|readings| - 1]
    requires h.next < |actions| ==> actions[h.next].offset > readings[|readings| - 1] && h.finished == g.finished
    requires h.next == |actions| ==> h.finished
    ensures DispatchedExactly(actions, readings, h)
  {
    var n := |readings| - 1;
    var before := readings[..n];
    forall j | 0 <= j < h.next
      ensures DispatchedWhenDue(actions, readings, h.trace[j], j)
    {
      if j < g.next {
        assert h.trace[j] == h.trace[..g.next][j] == g.trace[j];
        assert DispatchedWhenDue(actions, before, g.trace[j], j);
        var r :| 0 <= r < n && FirstDue(actions, before, j, r) && g.trace[j].at == before[r];
        assert FirstDue(actions, readings, j, r);
      } else {
        forall q | 0 <= q < n
          ensures readings[q] < actions[j].offset
        {
          assert before[q] < actions[j].offset;
        }
        assert FirstDue(actions, readings, j, n);
      }
    }
    forall j, q | h.next <= j < |actions| && 0 <= q < |readings|
      ensures readings[q] < actions[j].offset
    {
      assert actions[h.next].offset <= actions[j].offset;
      assert readings[q] <= readings[n];
    }
  }

  // --- What the shards are given ---

  /** The actions of `batch` in order, each with the part that concerns `span`. */
  ghost function DistributedAll(s: ShardState, batch: seq<ActionDescriptor>, span: Span): ShardState
    requires span.start <= span.end
  {
    if batch == [] then s
    else Distributed(DistributedAll(s, batch[..|batch| - 1], span), batch[|batch| - 1], span)
  }

  /** The shards that were `before` are `after` once each has its parts of `batch`. */
  ghost predicate PartsGiven(before: seq<ShardState>, after: seq<ShardState>, batch: seq<ActionDescriptor>,
                             spans: seq<Span>)
  {
    if batch == [] then after == before
    else
      && |after| == |before| && SpansFit(spans, |before|)
      && forall k :: 0 <= k < |before| ==> after[k] == DistributedAll(before[k], batch, spans[k])
  }

  ghost function AllStopped(states: seq<ShardState>): seq<ShardState> {
    seq(|states|, k requires 0 <= k < |states| => StopShard(states[k]))
  }

  lemma PartsSnoc(before: seq<ShardState>, mid: seq<ShardState>, after: seq<ShardState>, actions: seq<ActionDescriptor>,
                  first: nat, n: nat, spans: seq<Span>, spans': seq<Span>)
    requires first <= n < |actions| && PartsGiven(before, mid, actions[first..n], spans)
    requires first < n ==> spans' == spans
    requires |after| == |mid| && SpansFit(spans', |mid|)
    requires forall k :: 0 <= k < |mid| ==> after[k] == Distributed(mid[k], actions[n], spans'[k])
    ensures PartsGiven(before, after, actions[first..n + 1], spans')
  {
    forall k | 0 <= k < |before|
      ensures after[k] == DistributedAll(before[k], actions[first..n + 1], spans'[k])
    {
      DistributedSnoc(before[k], actions, first, n, spans'[k]);
    }
  }

  class Orchestrator {
    const actions: seq<ActionDescriptor>
    const shards: seq<Shard>

    var currentActionIndex: nat
    var shardRanges: seq<Span>
    var deadline: Option<int>
    var finished: bool
    var stopping: bool
    var activeShards: nat

    ghost var trace: seq<Dispatched>

    /** How often the handler that lets the orchestrator's thread end has been posted. */
    ghost var releases: nat

    /** The shards of the configuration, which the constructor of the source makes itself. */
    constructor (actions: seq<ActionDescriptor>, shards: seq<Shard>)
      requires 0 < |shards| < TWO_32 && forall i, j :: 0 <= i < j < |shards| ==> shards[i] != shards[j]
      requires forall i :: 0 <= i < |actions| ==> (actions[i].kind == Create <==> i == 0)
      ensures this.actions == actions && this.shards == shards
      ensures Valid() && View() == NEW_AGENDA && Exits() == ExitCount(|shards|, 0) && ReleasedByLast(Exits())
              && !stopping
    {
      this.actions, this.shards := actions, shards;
      currentActionIndex, shardRanges, deadline, finished := 0, [], None, false;
      stopping, activeShards, trace, releases := false, |shards|, [], 0;
    }

    ghost predicate Valid()
      reads this
    {
      && 0 < |shards| < TWO_32
      && (forall i, j :: 0 <= i < j < |shards| ==> shards[i] != shards[j])
      && (forall i :: 0 <= i < |actions| ==> (actions[i].kind == Create <==> i == 0))
      && currentActionIndex <= |actions|
      && (currentActionIndex > 0 ==> SpansFit(shardRanges, |shards|))
    }

    ghost function View(): Agenda
      reads this
    {
      Agenda(currentActionIndex, trace, deadline, finished)
    }

    ghost function States(): (r: seq<ShardState>)
      reads shards, set s | s in shards :: s.pool
      ensures |r| == |shards| && forall k :: 0 <= k < |shards| ==> r[k] == shards[k].View()
    {
      seq(|shards|, k requires 0 <= k < |shards| reads shards, set s | s in shards :: s.pool => shards[k].View())
    }

    /** Computes the shard ranges on the creation of the sessions and submits to every shard its part. */
    method DistributeAction(a: ActionDescriptor)
      requires 0 < |shards| < TWO_32 && forall i, j :: 0 <= i < j < |shards| ==> shards[i] != shards[j]
      requires a.kind != Create ==> SpansFit(shardRanges, |shards|)
      modifies this`shardRanges, shards
      ensures SpansFit(shardRanges, |shards|)
      ensures if a.kind == Create then IsPartition(shardRanges, a.count, |shards|) else shardRanges == old(shardRanges)
      ensures forall k :: 0 <= k < |shards| ==>
                shards[k].View() == Distributed(old(shards[k].View()), a, shardRanges[k])
    {
      if a.kind == Create {
        shardRanges := Partition(a.count, |shards|);
        forall i | 0 <= i < |shards|
          ensures shardRanges[i].start <= shardRanges[i].end
        {
          PartitionCovers(shardRanges, a.count, |shards|, i);
        }
      }
      for k := 0 to |shards|
        invariant SpansFit(shardRanges, |shards|)
        invariant if a.kind == Create then IsPartition(shardRanges, a.count, |shards|)
                  else shardRanges == old(shardRanges)
        invariant forall j :: 0 <= j < |shards| ==>
                    shards[j].View()
                    == if j < k then Distributed(old(shards[j].View()), a, shardRanges[j]) else old(shards[j].View())
      {
        var intersectLower := Max(a.sessionsStart, shardRanges[k].start);
        var intersectUpper := Min(a.sessionsEnd, shardRanges[k].end);
        if intersectLower < intersectUpper {
          var localStart := intersectLower - shardRanges[k].start;
          var sessionCount := intersectUpper - intersectLower;
          var shardAction := a.(sessionsStart := localStart, sessionsEnd := localStart + sessionCount);
          var success := shards[k].Submit(shardAction);
        }
      }
    }

    /** Stops every shard, once. */
    method DoShutdown()
      requires forall i, j :: 0 <= i < j < |shards| ==> shards[i] != shards[j]
      modifies this`stopping, this`deadline, shards
      ensures stopping
      ensures deadline == if old(stopping) then old(deadline) else None
      ensures States() == if old(stopping) then old(States()) else AllStopped(old(States()))
    {
      if stopping {
        return;
      }
      stopping := true;
      deadline := None;
      for k := 0 to |shards|
        invariant stopping && deadline == None
        invariant forall j :: 0 <= j < |shards| ==>
                    shards[j].View() == if j < k then StopShard(old(shards[j].View())) else old(shards[j].View())
      {
        shards[k].Stop();
      }
    }

    ghost function Exits(): ExitCount
      reads this
    {
      ExitCount(activeShards, releases)
    }

    /** A shard's thread has ended: its exit is counted as in a run of the whole fleet, so that the orchestrator's
        own thread may end once all of them have, and is told so only once. */
    method OnShardExit()
      modifies this`activeShards, this`releases
      ensures Exits() == CountExit(old(Exits()))
      ensures old(activeShards) > 0 && ReleasedByLast(old(Exits())) ==> ReleasedByLast(Exits())
    {
      var remaining := if activeShards > 0 then activeShards - 1 else 0xFFFF_FFFF_FFFF_FFFF;
      activeShards := remaining;
      if remaining == 0 {
        releases := releases + 1;
      }
    }

    /** The shards, `before` the loop as given, have been given their parts of the actions from `first` on. */
    ghost predicate Served(before: seq<ShardState>, first: nat)
      requires first <= currentActionIndex <= |actions|
      reads this`currentActionIndex, this`shardRanges, shards, set s | s in shards :: s.pool
    {
      PartsGiven(before, States(), actions[first..currentActionIndex], shardRanges)
    }

    /** The action that is next is due. */
    method DispatchNext(now: int, ghost before: seq<ShardState>, ghost first: nat)
      requires Valid() && first <= currentActionIndex < |actions| && |before| == |shards| && Served(before, first)
      modifies this`currentActionIndex, this`shardRanges, this`trace, shards
      ensures Valid() && View() == DispatchedNext(old(View()), now) && Served(before, first)
      ensures if old(currentActionIndex) == 0 then IsPartition(shardRanges, actions[0].count, |shards|)
              else shardRanges == old(shardRanges)
    {
      var n := currentActionIndex;
      ghost var states, spans := States(), shardRanges;
      DistributeAction(actions[n]);
      trace := trace + [Dispatched(n, now)];
      currentActionIndex := n + 1;
      PartsSnoc(before, states, States(), actions, first, n, spans, shardRanges);
    }

    /** The dispatch loop at a clock reading `now`, counted from the start: the agenda is served, the shards are
        given their parts of the actions served, and told to stop after the last. */
    method DispatchPending(now: int) returns (ghost given: seq<ShardState>)
      requires Valid()
      modifies this, shards
      ensures Valid() && old(currentActionIndex) <= currentActionIndex
      ensures var h := Serve(actions, old(View()), now);
              currentActionIndex == h.next && trace == h.trace && finished == h.finished
      ensures currentActionIndex < |actions| ==> deadline == Some(actions[currentActionIndex].offset)
      ensures stopping == (old(stopping) || currentActionIndex == |actions|)
      ensures if old(currentActionIndex) == 0 < currentActionIndex
              then IsPartition(shardRanges, actions[0].count, |shards|)
              else shardRanges == old(shardRanges)
      ensures PartsGiven(old(States()), given, actions[old(currentActionIndex)..currentActionIndex], shardRanges)
      ensures States() == if stopping == old(stopping) then given else AllStopped(given)
    {
      ghost var first, before := currentActionIndex, States();
      given := before;
      while currentActionIndex < |actions|
        invariant Valid() && first <= currentActionIndex && stopping == old(stopping)
        invariant Serve(actions, View(), now) == Serve(actions, old(View()), now)
        invariant if first == 0 < currentActionIndex then IsPartition(shardRanges, actions[0].count, |shards|)
                  else shardRanges == old(shardRanges)
        invariant PartsGiven(before, given, actions[first..currentActionIndex], shardRanges) && States() == given
      {
        if actions[currentActionIndex].offset > now {
          deadline := Some(actions[currentActionIndex].offset);
          return;
        }
        ServeStep(actions, View(), now);
        DispatchNext(now, before, first);
        given := States();
      }
      finished := true;
      DoShutdown();
    }
  }

  lemma DistributedSnoc(s: ShardState, actions: seq<ActionDescriptor>, first: nat, n: nat, span: Span)
    requires first <= n < |actions| && span.start <= span.end
    ensures first == n ==> DistributedAll(s, actions[first..n + 1], span) == Distributed(s, actions[n], span)
    ensures DistributedAll(s, actions[first..n + 1], span)
            == Distributed(DistributedAll(s, actions[first..n], span), actions[n], span)
  {
    assert actions[first..n + 1][..n - first] == actions[first..n];
  }
}
