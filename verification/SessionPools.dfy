/** The sessions of one shard, the calls posted to them, and the count of sessions that were started
    and have not disconnected. */
module SessionPools {

  /** What a pool posts to the strand of a session. */
  datatype Call = Start | Send(count: nat) | Flood | Drain | Stop

  /** `sessions[i]` is every call ever posted to session `i`; `notified` counts the notifications that
      the pool has closed. */
  datatype Pool = Pool(sessions: seq<seq<Call>>, active: nat, closed: bool, notified: nat)

  const EMPTY_POOL := Pool([], 0, false, 0)

  /** Posts `call` to the sessions in [start, end). */
  function Posted(sessions: seq<seq<Call>>, start: nat, end: nat, call: Call): (r: seq<seq<Call>>)
    ensures |r| == |sessions|
  {
    seq(|sessions|, i requires 0 <= i < |sessions| => if start <= i < end then sessions[i] + [call] else sessions[i])
  }

  function CreateSessions(p: Pool, n: nat): Pool {
    if p.sessions != [] then p else p.(sessions := seq(n, _ => []))
  }

  function CallRange(p: Pool, start: nat, end: nat, call: Call): Pool
    requires start <= end
  {
    if p.closed then p
    else p.(sessions := Posted(p.sessions, start, end, call),
            active := if call.Start? then p.active + (end - start) else p.active)
  }

  function NotifyIfDone(p: Pool): Pool {
    if p.closed && p.active == 0 then p.(notified := p.notified + 1) else p
  }

  /** Closes the pool once. The sessions are not told: the pool counts as closed when the call that
      should stop them is made, and that call returns at once. */
  function Shutdown(p: Pool): Pool {
    if p.closed then p else NotifyIfDone(p.(closed := true))
  }

  /** The count is a 64-bit number: below zero it would wrap around. */
  function Disconnected(p: Pool): Pool {
    NotifyIfDone(p.(active := if p.active > 0 then p.active - 1 else 0xFFFF_FFFF_FFFF_FFFF))
  }

  class SessionPool {
    var sessions: seq<seq<Call>>
    var active: nat
    var closed: bool

    /** How often the pool has notified its shard. */
    ghost var notified: nat

    ghost function View(): Pool
      reads this
    {
      Pool(sessions, active, closed, notified)
    }

    constructor ()
      ensures View() == EMPTY_POOL
    {
      sessions, active, closed, notified := [], 0, false, 0;
    }

    method Create(n: nat) returns (created: bool)
      modifies this
      ensures View() == CreateSessions(old(View()), n)
      ensures created <==> old(sessions) == []
    {
      if sessions != [] {
        return false;
      }
      for i := 0 to n
        invariant View() == old(View()).(sessions := seq(i, _ => []))
      {
        sessions := sessions + [[]];
      }
      return true;
    }

    /** The loop of all range operations. */
    method PostRange(start: nat, end: nat, call: Call)
      requires start <= end <= |sessions|
      modifies this`sessions
      ensures sessions == Posted(old(sessions), start, end, call)
    {
      assert Posted(sessions, start, start, call) == sessions;
      for i := start to end
        invariant sessions == Posted(old(sessions), start, i, call)
      {
        sessions := sessions[i := sessions[i] + [call]];
      }
    }

    method StartRange(start: nat, end: nat)
      requires !closed ==> start <= end <= |sessions|
      requires start <= end
      modifies this
      ensures View() == CallRange(old(View()), start, end, Start)
    {
      if closed {
        return;
      }
      active := active + (end - start);
      PostRange(start, end, Start);
    }

    method SendRange(start: nat, end: nat, count: nat)
      requires !closed ==> start <= end <= |sessions|
      requires start <= end
      modifies this
      ensures View() == CallRange(old(View()), start, end, Send(count))
    {
      if closed {
        return;
      }
      PostRange(start, end, Send(count));
    }

    method FloodRange(start: nat, end: nat)
      requires !closed ==> start <= end <= |sessions|
      requires start <= end
      modifies this
      ensures View() == CallRange(old(View()), start, end, Flood)
    {
      if closed {
        return;
      }
      PostRange(start, end, Flood);
    }

    method DrainRange(start: nat, end: nat)
      requires !closed ==> start <= end <= |sessions|
      requires start <= end
      modifies this
      ensures View() == CallRange(old(View()), start, end, Drain)
    {
      if closed {
        return;
      }
      PostRange(start, end, Drain);
    }

    method StopRange(start: nat, end: nat)
      requires !closed ==> start <= end <= |sessions|
      requires start <= end
      modifies this
      ensures View() == CallRange(old(View()), start, end, Stop)
    {
      if closed {
        return;
      }
      PostRange(start, end, Stop);
    }

    method StopAll()
      modifies this
      ensures View() == CallRange(old(View()), 0, |old(sessions)|, Stop)
    {
      StopRange(0, |sessions|);
    }

    /** `notify` says that the shard's callback runs now. */
    method Close() returns (notify: bool)
      modifies this
      ensures View() == Shutdown(old(View()))
      ensures notify <==> notified == old(notified) + 1
    {
      notify := false;
      if !closed {
        closed := true;
        StopAll();
        if active == 0 {
          notified := notified + 1;
          notify := true;
        }
      }
    }

    method OnDisconnect() returns (notify: bool)
      modifies this
      ensures View() == Disconnected(old(View()))
      ensures notify <==> notified == old(notified) + 1
    {
      active := if active > 0 then active - 1 else 0xFFFF_FFFF_FFFF_FFFF;
      notify := active == 0 && closed;
      if notify {
        notified := notified + 1;
      }
    }
  }
}
