/** A shard: one thread that runs the handlers posted to it in order, and the session pool they work on. */
module Shards {
  import opened Scripts
  import opened Planner
  import opened SessionPools

  datatype Handler = Act(action: ActionDescriptor) | PullMetrics | ClosePool

  /** `guard` keeps the thread running; `exits` counts the callbacks to the orchestrator. `snapshots` counts
      the snapshots taken for the orchestrator. */
  datatype ShardState = ShardState(
    running: bool, queue: seq<Handler>, pool: Pool, guard: bool, snapshots: nat, exits: nat)

  const STARTED_SHARD := ShardState(true, [], EMPTY_POOL, true, 0, 0)

  function CallOf(a: ActionDescriptor): Option<Call> {
    match a.kind
    case Create => None
    case Connect => Some(Start)
    case Send => Some(Call.Send(a.count))
    case Flood => Some(Call.Flood)
    case Drain => Some(Call.Drain)
    case Disconnect => Some(Stop)
  }

  function HandleAction(p: Pool, a: ActionDescriptor): Pool
    requires a.sessionsStart <= a.sessionsEnd
  {
    match CallOf(a)
    case None => CreateSessions(p, a.sessionsEnd - a.sessionsStart)
    case Some(call) => CallRange(p, a.sessionsStart, a.sessionsEnd, call)
  }

  /** The thread may go on to exit after a notification of the pool. */
  function WithPool(s: ShardState, pool: Pool): ShardState {
    s.(pool := pool, guard := s.guard && pool.notified == s.pool.notified)
  }

  function SubmitWork(s: ShardState, a: ActionDescriptor): ShardState {
    if s.running then s.(queue := s.queue + [Act(a)]) else s
  }

  function RequestSnapshot(s: ShardState): ShardState {
    s.(queue := s.queue + [PullMetrics])
  }

  function StopShard(s: ShardState): ShardState {
    if s.running then s.(running := false, queue := s.queue + [ClosePool]) else s
  }

  /** The work of one handler. */
  function Handled(s: ShardState, h: Handler): ShardState
    requires h.Act? ==> h.action.sessionsStart <= h.action.sessionsEnd
  {
    match h
    case Act(a) => s.(pool := HandleAction(s.pool, a))
    case PullMetrics => s.(snapshots := s.snapshots + 1)
    case ClosePool => WithPool(s, Shutdown(s.pool))
  }

  /** The thread's next handler. */
  function RunNext(s: ShardState): ShardState
    requires s.queue != [] && (s.queue[0].Act? ==> s.queue[0].action.sessionsStart <= s.queue[0].action.sessionsEnd)
  {
    Handled(s.(queue := s.queue[1..]), s.queue[0])
  }

  /** The thread ran out of work. */
  function ThreadEnds(s: ShardState): ShardState
    requires !s.guard && s.queue == []
  {
    s.(exits := s.exits + 1)
  }

  class Shard {
    const pool: SessionPool
    var running: bool
    var queue: seq<Handler>
    var guard: bool
    var snapshots: nat
    ghost var exits: nat

    ghost function View(): ShardState
      reads this, pool
    {
      ShardState(running, queue, pool.View(), guard, snapshots, exits)
    }

    constructor ()
      ensures View() == STARTED_SHARD.(running := false)
      ensures fresh(pool)
    {
      pool := new SessionPool();
      running, queue, guard, snapshots, exits := false, [], true, 0, 0;
    }

    /** `launched` says that the thread is started now. */
    method Start() returns (launched: bool)
      modifies this`running
      ensures launched == !old(running) && running
    {
      launched := !running;
      running := true;
    }

    method Submit(a: ActionDescriptor) returns (ok: bool)
      modifies this`queue
      ensures View() == SubmitWork(old(View()), a) && ok == running
    {
      if !running {
        return false;
      }
      queue := queue + [Act(a)];
      return true;
    }

    method SchedulePull()
      modifies this`queue
      ensures View() == RequestSnapshot(old(View()))
    {
      queue := queue + [PullMetrics];
    }

    method Stop()
      modifies this`queue, this`running
      ensures View() == StopShard(old(View()))
    {
      if !running {
        return;
      }
      running := false;
      queue := queue + [ClosePool];
    }

    method OnPoolClosed()
      modifies this`guard
      ensures !guard
    {
      guard := false;
    }

    method DoAction(a: ActionDescriptor)
      requires a.sessionsStart <= a.sessionsEnd
      requires a.kind != Create && !pool.closed ==> a.sessionsEnd <= |pool.sessions|
      modifies pool
      ensures pool.View() == HandleAction(old(pool.View()), a)
    {
      match a.kind
      case Create =>
        var created := pool.Create(a.sessionsEnd - a.sessionsStart);
      case Connect => pool.StartRange(a.sessionsStart, a.sessionsEnd);
      case Send => pool.SendRange(a.sessionsStart, a.sessionsEnd, a.count);
      case Flood => pool.FloodRange(a.sessionsStart, a.sessionsEnd);
      case Drain => pool.DrainRange(a.sessionsStart, a.sessionsEnd);
      case Disconnect => pool.StopRange(a.sessionsStart, a.sessionsEnd);
    }

    ghost predicate CanHandle(h: Handler)
      reads pool
    {
      h.Act? ==>
        && h.action.sessionsStart <= h.action.sessionsEnd
        && (h.action.kind != Create && !pool.closed ==> h.action.sessionsEnd <= |pool.sessions|)
    }

    /** Takes the handler at the head of the queue and runs it. */
    method HandleNext()
      requires queue != [] && CanHandle(queue[0])
      modifies this, pool
      ensures View() == RunNext(old(View()))
    {
      var h := queue[0];
      queue := queue[1..];
      match h
      case Act(a) => DoAction(a);
      case PullMetrics => snapshots := snapshots + 1;
      case ClosePool =>
        var notify := pool.Close();
        if notify {
          OnPoolClosed();
        }
    }

    /** A session of the pool has disconnected. */
    method OnSessionDisconnected()
      modifies this, pool
      ensures View() == WithPool(old(View()), Disconnected(old(pool.View())))
    {
      var notify := pool.OnDisconnect();
      if notify {
        OnPoolClosed();
      }
    }

    /** The end of the thread: its run loop has returned. */
    method FinishThread()
      requires !guard && queue == []
      modifies this`exits
      ensures View() == ThreadEnds(old(View()))
    {
      exits := exits + 1;
    }
  }
}
