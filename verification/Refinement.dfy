/** One shard against the flat array of sessions it holds a part of: what its sessions have been called
    with, followed by what its queue will still call them with, is what the flat array would have seen. */
module Refinement {
  import opened Scripts
  import opened Planner
  import opened SessionPools
  import opened Shards
  import opened Sharding

  /** The calls the queue will make on local session `l`. */
  ghost function Future(queue: seq<Handler>, l: nat): seq<Call> {
    if queue == [] then []
    else (if queue[0].Act? then Received(queue[0].action, l) else []) + Future(queue[1..], l)
  }

  ghost predicate EndsClosed(queue: seq<Handler>, closed: bool) {
    closed || (queue != [] && (queue[0].ClosePool? || EndsClosed(queue[1..], false)))
  }

  /** The queue of a shard of `size` sessions: it creates them first, unless they exist, its actions stay
      inside them, and none comes after the pool is closed. */
  ghost predicate QueueOk(queue: seq<Handler>, created: bool, closed: bool, size: nat) {
    if queue == [] then created || size == 0
    else
      match queue[0]
      case PullMetrics => QueueOk(queue[1..], created, closed, size)
      case ClosePool => !closed && QueueOk(queue[1..], created, true, size)
      case Act(a) =>
        && !closed
        && (if a.kind == Create then !created && size > 0 && a.sessionsStart == 0 && a.sessionsEnd == size
            else created && a.sessionsStart <= a.sessionsEnd <= size)
        && QueueOk(queue[1..], true, false, size)
  }

  ghost function Got(sessions: seq<seq<Call>>, l: nat): seq<Call> {
    if l < |sessions| then sessions[l] else []
  }

  /** The calls on session `l` of the shard are those on its global index, in script order. */
  ghost predicate CallsAgree(s: ShardState, span: Span, dispatched: seq<ActionDescriptor>, l: nat) {
    Got(s.pool.sessions, l) + Future(s.queue, l) == Flat(dispatched, span.start + l)
  }

  ghost predicate ShardOk(s: ShardState, span: Span, dispatched: seq<ActionDescriptor>) {
    && span.start <= span.end
    && (s.pool.sessions == [] || |s.pool.sessions| == span.end - span.start)
    && QueueOk(s.queue, s.pool.sessions != [], s.pool.closed, span.end - span.start)
    && (s.running <==> !EndsClosed(s.queue, s.pool.closed))
    && forall l :: 0 <= l < span.end - span.start ==> CallsAgree(s, span, dispatched, l)
  }

  /** Before the sessions are created. */
  ghost predicate Unused(queue: seq<Handler>) {
    queue == [] || (!queue[0].Act? && Unused(queue[1..]))
  }

  ghost predicate FreshShard(s: ShardState) {
    s.pool.sessions == [] && Unused(s.queue) && (s.running <==> !EndsClosed(s.queue, s.pool.closed))
  }

  // --- Posting ---

  lemma {:induction false} FutureSnoc(queue: seq<Handler>, h: Handler, l: nat)
    ensures Future(queue + [h], l) == Future(queue, l) + if h.Act? then Received(h.action, l) else []
  {
    if queue == [] {
      assert (queue + [h])[1..] == [];
    } else {
      FutureSnoc(queue[1..], h, l);
      assert (queue + [h])[1..] == queue[1..] + [h];
    }
  }

  lemma {:induction false} EndsClosedSnoc(queue: seq<Handler>, h: Handler, closed: bool)
    ensures EndsClosed(queue + [h], closed) <==> EndsClosed(queue, closed) || h.ClosePool?
  {
    if queue == [] {
      assert (queue + [h])[1..] == [];
    } else {
      EndsClosedSnoc(queue[1..], h, false);
      assert (queue + [h])[1..] == queue[1..] + [h];
    }
  }

  lemma {:induction false} QueueOkSnoc(queue: seq<Handler>, h: Handler, created: bool, closed: bool, size: nat)
    requires QueueOk(queue, created, closed, size)
    requires h.Act? ==>
               && !EndsClosed(queue, closed) && size > 0 && h.action.kind != Create
               && h.action.sessionsStart <= h.action.sessionsEnd <= size
    requires h.ClosePool? ==> !EndsClosed(queue, closed)
    ensures QueueOk(queue + [h], created, closed, size)
  {
    if queue == [] {
      assert (queue + [h])[1..] == [];
    } else {
      assert (queue + [h])[1..] == queue[1..] + [h];
      match queue[0]
      case PullMetrics => QueueOkSnoc(queue[1..], h, created, closed, size);
      case ClosePool => QueueOkSnoc(queue[1..], h, created, true, size);
      case Act(a) => QueueOkSnoc(queue[1..], h, true, false, size);
    }
  }

  /** A handler other than an action, posted by the orchestrator. */
  lemma PostKeeps(s: ShardState, h: Handler, span: Span, dispatched: seq<ActionDescriptor>)
    requires ShardOk(s, span, dispatched) && !h.Act? && (h.ClosePool? ==> s.running)
    ensures ShardOk(s.(queue := s.queue + [h], running := s.running && !h.ClosePool?), span, dispatched)
  {
    var t := s.(queue := s.queue + [h], running := s.running && !h.ClosePool?);
    QueueOkSnoc(s.queue, h, s.pool.sessions != [], s.pool.closed, span.end - span.start);
    EndsClosedSnoc(s.queue, h, s.pool.closed);
    forall l | 0 <= l < span.end - span.start
      ensures CallsAgree(t, span, dispatched, l)
    {
      assert CallsAgree(s, span, dispatched, l);
      FutureSnoc(s.queue, h, l);
    }
  }

  lemma FlatSnoc(dispatched: seq<ActionDescriptor>, a: ActionDescriptor, g: nat)
    ensures Flat(dispatched + [a], g) == Flat(dispatched, g) + Received(a, g)
  {
    assert (dispatched + [a])[..|dispatched|] == dispatched;
  }

  /** An action after the creation: the shard's part of it makes the calls the flat array would see. */
  lemma DistributeKeeps(s: ShardState, span: Span, dispatched: seq<ActionDescriptor>, a: ActionDescriptor)
    requires ShardOk(s, span, dispatched) && s.running && a.kind != Create
    ensures ShardOk(Distributed(s, a, span), span, dispatched + [a])
  {
    var part, t := Overlap(a, span), Distributed(s, a, span);
    OverlapExact(a, span, 0);
    if part.Some? {
      QueueOkSnoc(s.queue, Act(part.value), s.pool.sessions != [], s.pool.closed, span.end - span.start);
      EndsClosedSnoc(s.queue, Act(part.value), s.pool.closed);
    }
    forall l | 0 <= l < span.end - span.start
      ensures CallsAgree(t, span, dispatched + [a], l)
    {
      assert CallsAgree(s, span, dispatched, l);
      OverlapExact(a, span, l);
      FlatSnoc(dispatched, a, span.start + l);
      if part.Some? {
        FutureSnoc(s.queue, Act(part.value), l);
        GroupCalls(Got(s.pool.sessions, l), Future(s.queue, l), Received(a, span.start + l));
      }
    }
  }

  lemma GroupCalls(a: seq<Call>, b: seq<Call>, c: seq<Call>)
    ensures a + (b + c) == (a + b) + c
  {
  }

  /** The creation of the sessions. */
  lemma CreateOk(s: ShardState, span: Span, a: ActionDescriptor)
    requires FreshShard(s) && s.running && a.kind == Create && span.start <= span.end <= a.sessionsEnd
             && a.sessionsStart == 0
    ensures ShardOk(Distributed(s, a, span), span, [a])
  {
    var t, size := Distributed(s, a, span), span.end - span.start;
    var part := Overlap(a, span);
    if size > 0 {
      assert part == Some(a.(sessionsStart := 0, sessionsEnd := size));
      UnusedThenCreate(s.queue, part.value, s.pool.closed, size);
      EndsClosedSnoc(s.queue, Act(part.value), s.pool.closed);
    } else {
      assert part == None;
      UnusedIsOk(s.queue, s.pool.closed);
    }
    forall l | 0 <= l < size
      ensures CallsAgree(t, span, [a], l)
    {
      CreateCalls(s.queue, part.value, a, l, span.start + l);
    }
  }

  /** Creating sessions calls none of them. */
  lemma CreateCalls(queue: seq<Handler>, part: ActionDescriptor, a: ActionDescriptor, l: nat, g: nat)
    requires Unused(queue) && part.kind == Create && a.kind == Create
    ensures Future(queue + [Act(part)], l) == [] && Flat([a], g) == []
  {
    UnusedFuture(queue, l);
    FutureSnoc(queue, Act(part), l);
    FlatSnoc([], a, g);
    assert [] + [a] == [a];
  }

  lemma {:induction false} UnusedFuture(queue: seq<Handler>, l: nat)
    requires Unused(queue)
    ensures Future(queue, l) == []
  {
    if queue != [] {
      UnusedFuture(queue[1..], l);
    }
  }

  lemma {:induction false} UnusedThenCreate(queue: seq<Handler>, a: ActionDescriptor, closed: bool, size: nat)
    requires Unused(queue) && !EndsClosed(queue, closed)
    requires size > 0 && a.kind == Create && a.sessionsStart == 0 && a.sessionsEnd == size
    ensures QueueOk(queue + [Act(a)], false, closed, size)
  {
    if queue == [] {
      assert (queue + [Act(a)])[1..] == [];
    } else {
      UnusedThenCreate(queue[1..], a, closed, size);
      assert (queue + [Act(a)])[1..] == queue[1..] + [Act(a)];
    }
  }

  lemma {:induction false} UnusedIsOk(queue: seq<Handler>, closed: bool)
    requires Unused(queue) && !EndsClosed(queue, closed)
    ensures QueueOk(queue, false, closed, 0)
  {
    if queue != [] {
      UnusedIsOk(queue[1..], closed);
    }
  }

  lemma {:induction false} UnusedSnoc(queue: seq<Handler>, h: Handler)
    requires Unused(queue) && !h.Act?
    ensures Unused(queue + [h])
  {
    if queue == [] {
      assert (queue + [h])[1..] == [];
    } else {
      UnusedSnoc(queue[1..], h);
      assert (queue + [h])[1..] == queue[1..] + [h];
    }
  }

  // --- Handling ---

  /** The handler at the head of the queue never reaches outside the pool. */
  lemma HeadInside(s: ShardState, span: Span, dispatched: seq<ActionDescriptor>)
    requires ShardOk(s, span, dispatched) && s.queue != [] && s.queue[0].Act?
    ensures var a := s.queue[0].action;
            && !s.pool.closed && a.sessionsStart <= a.sessionsEnd
            && (a.kind != Create ==> a.sessionsEnd <= |s.pool.sessions|)
            && (a.kind == Create ==> s.pool.sessions == [] && a.sessionsEnd - a.sessionsStart == span.end - span.start)
  {
  }

  lemma HandleKeeps(s: ShardState, span: Span, dispatched: seq<ActionDescriptor>)
    requires ShardOk(s, span, dispatched) && s.queue != []
    requires s.queue[0].Act? ==> s.queue[0].action.sessionsStart <= s.queue[0].action.sessionsEnd
    ensures ShardOk(RunNext(s), span, dispatched)
  {
    var t := RunNext(s);
    forall l | 0 <= l < span.end - span.start
      ensures CallsAgree(t, span, dispatched, l)
    {
      assert CallsAgree(s, span, dispatched, l);
      HandleCalls(s, span, dispatched, l);
    }
  }

  /** An action inside the pool makes its calls on the sessions it names and on no others. */
  lemma ActionCalls(p: Pool, a: ActionDescriptor, l: nat)
    requires !p.closed && a.sessionsStart <= a.sessionsEnd
    requires if a.kind == Create then p.sessions == [] else l < |p.sessions|
    ensures Got(HandleAction(p, a).sessions, l) == Got(p.sessions, l) + Received(a, l)
  {
    if a.kind == Create {
      assert Got(HandleAction(p, a).sessions, l) == [];
    } else {
      assert Posted(p.sessions, a.sessionsStart, a.sessionsEnd, CallOf(a).value)[l]
             == if a.sessionsStart <= l < a.sessionsEnd then p.sessions[l] + [CallOf(a).value] else p.sessions[l];
    }
  }

  lemma HandleCalls(s: ShardState, span: Span, dispatched: seq<ActionDescriptor>, l: nat)
    requires ShardOk(s, span, dispatched) && s.queue != [] && l < span.end - span.start
    requires s.queue[0].Act? ==> s.queue[0].action.sessionsStart <= s.queue[0].action.sessionsEnd
    ensures Got(RunNext(s).pool.sessions, l) + Future(RunNext(s).queue, l)
            == Got(s.pool.sessions, l) + Future(s.queue, l)
  {
    var got, rest := Got(s.pool.sessions, l), Future(s.queue[1..], l);
    if s.queue[0].Act? {
      var a := s.queue[0].action;
      HeadInside(s, span, dispatched);
      ActionCalls(s.pool, a, l);
      GroupCalls(got, Received(a, l), rest);
    } else {
      assert [] + rest == rest;
    }
  }
}
