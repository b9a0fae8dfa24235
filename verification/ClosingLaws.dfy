/** What holds of a shard and its sessions in every run, from the first started session to the end of
    the shard's thread. */
module ClosingLaws {
  import opened Scripts
  import opened SessionPools
  import opened Shards
  import opened SessionMachine
  import opened DrainLaws
  import opened Sites

  ghost function Starts(calls: seq<Call>): nat {
    if calls == [] then 0
    else Starts(calls[..|calls| - 1]) + if calls[|calls| - 1].Start? then 1 else 0
  }

  lemma {:induction false} StartsGrow(calls: seq<Call>, h: nat)
    requires h <= |calls|
    ensures Starts(calls[..h]) <= Starts(calls)
  {
    if h == |calls| {
      assert calls[..h] == calls;
    } else {
      StartsGrow(calls[..|calls| - 1], h);
      assert calls[..|calls| - 1][..h] == calls[..h];
    }
  }

  /** No start comes after the last stop. */
  ghost predicate StoppedLast(calls: seq<Call>) {
    calls == []
    || calls[|calls| - 1].Stop?
    || (!calls[|calls| - 1].Start? && StoppedLast(calls[..|calls| - 1]))
  }

  /** Between any two starts there is a stop. */
  ghost predicate StopsBetween(calls: seq<Call>) {
    calls == []
    || (StopsBetween(calls[..|calls| - 1]) && (calls[|calls| - 1].Start? ==> StoppedLast(calls[..|calls| - 1])))
  }

  lemma {:induction false} OneStartStops(calls: seq<Call>)
    ensures Starts(calls) == 0 ==> StoppedLast(calls)
    ensures Starts(calls) <= 1 ==> StopsBetween(calls)
  {
    if calls != [] {
      OneStartStops(calls[..|calls| - 1]);
    }
  }

  /** How often the session was started while it was live: those starts never disconnect. */
  ghost function Leaked(w: World): int {
    w.log.starts - w.log.disconnects - if w.s.live then 1 else 0
  }

  /** Starts posted to a session that have not disconnected. */
  ghost function Open(calls: seq<Call>, w: World): int {
    Starts(calls) - w.log.disconnects
  }

  ghost function OpenBelow(sessions: seq<seq<Call>>, worlds: seq<World>, n: nat): int
    requires n <= |sessions| && n <= |worlds|
  {
    if n == 0 then 0 else OpenBelow(sessions, worlds, n - 1) + Open(sessions[n - 1], worlds[n - 1])
  }

  ghost predicate SessionOk(calls: seq<Call>, w: World, handled: nat) {
    && handled <= |calls| && w.log.starts == Starts(calls[..handled])
    && 0 <= Leaked(w) && (StopsBetween(calls[..handled]) ==> Leaked(w) == 0)
    && (StoppedLast(calls[..handled]) ==> !w.s.live)
  }

  ghost predicate SessionsOk(s: Site)
    requires Shaped(s)
  {
    forall i :: 0 <= i < |s.worlds| ==> SessionOk(s.shard.pool.sessions[i], s.worlds[i], s.handled[i])
  }

  /** The pool counts exactly the starts that have not disconnected, and has notified the shard exactly
      when it is closed and the count is zero. */
  ghost predicate Laws(s: Site) {
    && Shaped(s) && SessionsOk(s)
    && s.shard.pool.active == OpenBelow(s.shard.pool.sessions, s.worlds, |s.worlds|)
    && s.shard.pool.notified == (if s.shard.pool.closed && s.shard.pool.active == 0 then 1 else 0)
    && (s.shard.guard <==> s.shard.pool.notified == 0)
  }

  // --- Sums ---

  lemma OpenIsPositive(calls: seq<Call>, w: World, handled: nat)
    requires SessionOk(calls, w, handled)
    ensures Open(calls, w) >= Leaked(w) + (if w.s.live then 1 else 0) >= 0
    ensures Open(calls, w) == Starts(calls) - Starts(calls[..handled]) + Leaked(w) + if w.s.live then 1 else 0
  {
    StartsGrow(calls, handled);
  }

  /** The sum is at least any of its parts. */
  lemma {:induction false} OpenPart(sessions: seq<seq<Call>>, worlds: seq<World>, handled: seq<nat>, n: nat, i: nat)
    requires n <= |sessions| == |worlds| == |handled|
    requires forall j :: 0 <= j < n ==> SessionOk(sessions[j], worlds[j], handled[j])
    ensures OpenBelow(sessions, worlds, n) >= 0
    ensures i < n ==> OpenBelow(sessions, worlds, n) >= Open(sessions[i], worlds[i]) >= 0
  {
    if n > 0 {
      OpenPart(sessions, worlds, handled, n - 1, i);
      OpenIsPositive(sessions[n - 1], worlds[n - 1], handled[n - 1]);
    }
  }

  lemma {:induction false} OpenUpdate(sessions: seq<seq<Call>>, worlds: seq<World>, n: nat, i: nat, w: World)
    requires n <= |sessions| == |worlds| && i < |worlds|
    ensures OpenBelow(sessions, worlds[i := w], n)
            == OpenBelow(sessions, worlds, n) + if i < n then worlds[i].log.disconnects - w.log.disconnects else 0
  {
    if n > 0 {
      OpenUpdate(sessions, worlds, n - 1, i, w);
    }
  }

  lemma {:induction false} OpenPosted(sessions: seq<seq<Call>>, worlds: seq<World>, n: nat, start: nat, end: nat,
                                      call: Call)
    requires n <= |sessions| == |worlds| && start <= end
    ensures OpenBelow(Posted(sessions, start, end, call), worlds, n)
            == OpenBelow(sessions, worlds, n)
               + if !call.Start? || n <= start then 0 else if n <= end then n - start else end - start
  {
    if n > 0 {
      OpenPosted(sessions, worlds, n - 1, start, end, call);
      StartsSnoc(sessions[n - 1], call);
      assert Open(Posted(sessions, start, end, call)[n - 1], worlds[n - 1])
             == Open(sessions[n - 1], worlds[n - 1]) + if call.Start? && start <= n - 1 < end then 1 else 0;
    }
  }

  lemma StartsSnoc(calls: seq<Call>, call: Call)
    ensures Starts(calls + [call]) == Starts(calls) + if call.Start? then 1 else 0
  {
    assert (calls + [call])[..|calls|] == calls;
  }

  lemma {:induction false} OpenInitial(cfg: Config, n: nat, k: nat)
    requires k <= n
    ensures OpenBelow(seq(n, _ => []), seq(n, _ => Initial(cfg)), k) == 0
  {
    if k > 0 {
      OpenInitial(cfg, n, k - 1);
    }
  }

  // --- Every step keeps the laws ---

  /** The session that ran a handler keeps its own law. */
  lemma RanOk(cfg: Config, parser: HeaderParser, calls: seq<Call>, v: World, handled: nat, e: Event)
    requires SessionOk(calls, v, handled) && Enabled(cfg, v, e)
    requires IsCommand(e) ==> handled < |calls| && Runs(calls[handled], e)
    ensures var w := Step(cfg, parser, v, e);
            && SessionOk(calls, w, if IsCommand(e) then handled + 1 else handled)
            && Leaked(w) == Leaked(v) + (if IsStart(e) && v.s.live then 1 else 0)
            && w.log.disconnects - v.log.disconnects == (if (IsStart(e) || v.s.live) && !w.s.live then 1 else 0)
            && (w.log.disconnects > v.log.disconnects ==> Open(calls, v) > 0)
  {
    StepLife(cfg, parser, v, e);
    OpenIsPositive(calls, v, handled);
    if IsCommand(e) {
      HandledCalls(calls, handled, e);
      StartsGrow(calls, handled + 1);
    }
  }

  /** The site after session `i` became `w`, with `h` calls run, and disconnected if `closed`. */
  ghost function After(s: Site, i: nat, w: World, h: nat, closed: bool): Site
    requires Shaped(s) && i < |s.worlds|
  {
    Site(if closed then WithPool(s.shard, Disconnected(s.shard.pool)) else s.shard, s.worlds[i := w], s.handled[i := h])
  }

  lemma AfterKeeps(s: Site, i: nat, w: World, h: nat, closed: bool)
    requires Laws(s) && i < |s.worlds| && SessionOk(s.shard.pool.sessions[i], w, h)
    requires w.log.disconnects - s.worlds[i].log.disconnects == if closed then 1 else 0
    requires closed ==> Open(s.shard.pool.sessions[i], s.worlds[i]) > 0
    ensures Laws(After(s, i, w, h, closed)) && (closed ==> s.shard.pool.active > 0)
  {
    OpenUpdate(s.shard.pool.sessions, s.worlds, |s.worlds|, i, w);
    OpenPart(s.shard.pool.sessions, s.worlds, s.handled, |s.worlds|, i);
    var t := After(s, i, w, h, closed);
    assert SessionsOk(t) by {
      forall j | 0 <= j < |t.worlds|
        ensures SessionOk(t.shard.pool.sessions[j], t.worlds[j], t.handled[j])
      {
        assert SessionOk(s.shard.pool.sessions[j], s.worlds[j], s.handled[j]);
      }
    }
  }

  lemma SessionKeeps(cfg: Config, parser: HeaderParser, s: Site, i: nat, e: Event)
    requires Laws(s) && SessionReady(cfg, s, i, e)
    ensures Laws(SessionRuns(cfg, parser, s, i, e))
    ensures var w := Step(cfg, parser, s.worlds[i], e);
            w.log.disconnects != s.worlds[i].log.disconnects ==> s.shard.pool.active > 0
    ensures Leaked(Step(cfg, parser, s.worlds[i], e))
            == Leaked(s.worlds[i]) + if IsStart(e) && s.worlds[i].s.live then 1 else 0
  {
    var v, h := s.worlds[i], s.handled[i];
    assert SessionOk(s.shard.pool.sessions[i], v, h);
    RanOk(cfg, parser, s.shard.pool.sessions[i], v, h, e);
    var w := Step(cfg, parser, v, e);
    var closed := w.log.disconnects != v.log.disconnects;
    AfterKeeps(s, i, w, if IsCommand(e) then h + 1 else h, closed);
    assert s.handled[i := h] == s.handled;
    assert SessionRuns(cfg, parser, s, i, e) == After(s, i, w, if IsCommand(e) then h + 1 else h, closed);
  }

  lemma HandledCalls(calls: seq<Call>, h: nat, e: Event)
    requires h < |calls| && Runs(calls[h], e)
    ensures Starts(calls[..h + 1]) == Starts(calls[..h]) + if IsStart(e) then 1 else 0
    ensures StoppedLast(calls[..h + 1]) <==> e.StopPosted? || (!IsStart(e) && StoppedLast(calls[..h]))
    ensures StopsBetween(calls[..h + 1]) <==> StopsBetween(calls[..h]) && (IsStart(e) ==> StoppedLast(calls[..h]))
  {
    assert calls[..h + 1][..h] == calls[..h];
  }

  /** Posting to a range keeps every session's own law: what its strand has run stays what it was. */
  lemma PostedOk(s: Site, start: nat, end: nat, call: Call)
    requires Shaped(s) && SessionsOk(s)
    ensures var after := Posted(s.shard.pool.sessions, start, end, call);
            SessionsOk(s.(shard := s.shard.(pool := s.shard.pool.(sessions := after))))
  {
    var after := Posted(s.shard.pool.sessions, start, end, call);
    forall i | 0 <= i < |s.worlds|
      ensures SessionOk(after[i], s.worlds[i], s.handled[i])
    {
      assert SessionOk(s.shard.pool.sessions[i], s.worlds[i], s.handled[i]);
      assert after[i][..s.handled[i]] == s.shard.pool.sessions[i][..s.handled[i]];
    }
  }

  lemma RangeKeeps(s: Site, start: nat, end: nat, call: Call)
    requires Laws(s) && start <= end <= |s.worlds|
    ensures Laws(s.(shard := s.shard.(pool := CallRange(s.shard.pool, start, end, call))))
  {
    if !s.shard.pool.closed {
      PostedOk(s, start, end, call);
      OpenPosted(s.shard.pool.sessions, s.worlds, |s.worlds|, start, end, call);
    }
  }

  lemma CreateKeeps(cfg: Config, s: Site, n: nat)
    requires Laws(s) && s.shard.pool.sessions == []
    ensures Laws(Site(s.shard.(pool := CreateSessions(s.shard.pool, n)), seq(n, _ => Initial(cfg)), seq(n, _ => 0)))
  {
    OpenInitial(cfg, n, n);
    var site := Site(s.shard.(pool := CreateSessions(s.shard.pool, n)), seq(n, _ => Initial(cfg)), seq(n, _ => 0));
    forall i | 0 <= i < n
      ensures SessionOk(site.shard.pool.sessions[i], site.worlds[i], site.handled[i])
    {
      assert site.shard.pool.sessions[i] == [];
    }
  }

  /** Taking a handler off the queue does not matter to the laws. */
  lemma DequeueKeeps(s: Site, t: Site)
    requires Laws(s) && t.worlds == s.worlds && t.handled == s.handled
    requires t.shard.pool == s.shard.pool && t.shard.guard == s.shard.guard
    ensures Laws(t)
  {
    assert Shaped(t);
    assert SessionsOk(t) by {
      forall i | 0 <= i < |t.worlds|
        ensures SessionOk(t.shard.pool.sessions[i], t.worlds[i], t.handled[i])
      {
        assert SessionOk(s.shard.pool.sessions[i], s.worlds[i], s.handled[i]);
      }
    }
  }

  lemma ShutdownKeeps(s: Site)
    requires Laws(s)
    ensures Laws(s.(shard := WithPool(s.shard, Shutdown(s.shard.pool))))
  {
    var t := s.(shard := WithPool(s.shard, Shutdown(s.shard.pool)));
    assert SessionsOk(t) by {
      forall i | 0 <= i < |t.worlds|
        ensures SessionOk(t.shard.pool.sessions[i], t.worlds[i], t.handled[i])
      {
        assert SessionOk(s.shard.pool.sessions[i], s.worlds[i], s.handled[i]);
      }
    }
  }

  lemma HandlerKeeps(cfg: Config, s: Site)
    requires Laws(s) && HandlerReady(s)
    ensures Laws(HandlerRuns(cfg, s))
  {
    var h := s.shard.queue[0];
    var t := s.(shard := s.shard.(queue := s.shard.queue[1..]));
    DequeueKeeps(s, t);
    match h
    case Act(a) =>
      if a.kind == Create {
        if s.shard.pool.sessions == [] {
          CreateKeeps(cfg, t, a.sessionsEnd - a.sessionsStart);
          assert s.worlds == [] && s.handled == [];
        }
      } else {
        RangeKeeps(t, a.sessionsStart, a.sessionsEnd, CallOf(a).value);
      }
    case PullMetrics => DequeueKeeps(t, HandlerRuns(cfg, s));
    case ClosePool => ShutdownKeeps(t);
  }

  // --- What the laws say ---

  /** How often a run starts the session while it is live. */
  ghost function LiveStarts(cfg: Config, parser: HeaderParser, w: World, events: seq<Event>): nat
    requires Possible(cfg, parser, w, events)
    decreases |events|
  {
    if events == [] then 0
    else
      (if IsStart(events[0]) && w.s.live then 1 else 0)
      + LiveStarts(cfg, parser, Step(cfg, parser, w, events[0]), events[1..])
  }

  /** Over every run of a session, the starts without a disconnect are exactly those that ran while it was live. */
  lemma {:induction false} LeakedCounts(cfg: Config, parser: HeaderParser, w: World, events: seq<Event>)
    requires Possible(cfg, parser, w, events)
    ensures Leaked(Run(cfg, parser, w, events)) == Leaked(w) + LiveStarts(cfg, parser, w, events)
    decreases |events|
  {
    if events != [] {
      StepLife(cfg, parser, w, events[0]);
      LeakedCounts(cfg, parser, Step(cfg, parser, w, events[0]), events[1..]);
    }
  }

  /** Some session of the pool has more starts than disconnects and being live account for. */
  ghost predicate EverLeaked(s: Site)
    requires Shaped(s)
  {
    exists i :: 0 <= i < |s.worlds| && Leaked(s.worlds[i]) > 0
  }

  /** A handler of a session leaks exactly if it starts the session while it is live. */
  lemma SessionLeaks(cfg: Config, parser: HeaderParser, s: Site, i: nat, e: Event)
    requires Laws(s) && SessionReady(cfg, s, i, e)
    ensures Shaped(SessionRuns(cfg, parser, s, i, e))
    ensures EverLeaked(SessionRuns(cfg, parser, s, i, e)) <==> EverLeaked(s) || (IsStart(e) && s.worlds[i].s.live)
  {
    var t := SessionRuns(cfg, parser, s, i, e);
    SessionKeeps(cfg, parser, s, i, e);
    assert SessionOk(s.shard.pool.sessions[i], s.worlds[i], s.handled[i]);
    if j :| 0 <= j < |s.worlds| && Leaked(s.worlds[j]) > 0 {
      assert Leaked(t.worlds[j]) > 0;
    }
    if j :| 0 <= j < |t.worlds| && Leaked(t.worlds[j]) > 0 {
      assert j != i ==> t.worlds[j] == s.worlds[j];
    }
    assert IsStart(e) && s.worlds[i].s.live ==> Leaked(t.worlds[i]) > 0;
  }

  /** A handler of the shard leaks nothing. */
  lemma HandlerLeaks(cfg: Config, s: Site)
    requires Laws(s) && HandlerReady(s)
    ensures Shaped(HandlerRuns(cfg, s)) && (EverLeaked(HandlerRuns(cfg, s)) <==> EverLeaked(s))
  {
    HandlerKeeps(cfg, s);
    HandlerWorlds(cfg, s);
    var t := HandlerRuns(cfg, s);
    if t.worlds == s.worlds {
      SameLeaks(s, t);
    } else {
      forall i | 0 <= i < |t.worlds|
        ensures Leaked(t.worlds[i]) == 0
      {
        assert t.worlds[i] == Initial(cfg);
      }
    }
  }

  lemma SameLeaks(s: Site, t: Site)
    requires Shaped(s) && Shaped(t) && t.worlds == s.worlds
    ensures EverLeaked(t) <==> EverLeaked(s)
  {
  }

  lemma HandlerWorlds(cfg: Config, s: Site)
    requires Laws(s) && HandlerReady(s)
    ensures var t := HandlerRuns(cfg, s);
            t.worlds == s.worlds || (s.worlds == [] && forall i :: 0 <= i < |t.worlds| ==> t.worlds[i] == Initial(cfg))
  {
  }

  /** The shard is told at most once, and only when the pool is closed, no session is live, no start is
      still to be run and no start ever ran on a live session. */
  lemma NotifiedMeansQuiet(s: Site, i: nat)
    requires Laws(s) && s.shard.pool.notified > 0 && i < |s.worlds|
    ensures s.shard.pool.notified == 1 && s.shard.pool.closed
    ensures !s.worlds[i].s.live && Leaked(s.worlds[i]) == 0
    ensures Starts(s.shard.pool.sessions[i]) == Starts(s.shard.pool.sessions[i][..s.handled[i]])
            == s.worlds[i].log.disconnects
  {
    OpenPart(s.shard.pool.sessions, s.worlds, s.handled, |s.worlds|, i);
    assert SessionOk(s.shard.pool.sessions[i], s.worlds[i], s.handled[i]);
    OpenIsPositive(s.shard.pool.sessions[i], s.worlds[i], s.handled[i]);
    StartsGrow(s.shard.pool.sessions[i], s.handled[i]);
  }

  /** Nothing of the session holds its pool: it is not live, no start is still to be run, and none ran on it while
      it was live. */
  ghost predicate Gone(s: Site, i: nat)
    requires Laws(s) && i < |s.worlds|
  {
    && !s.worlds[i].s.live && Leaked(s.worlds[i]) == 0
    && Starts(s.shard.pool.sessions[i][..s.handled[i]]) == Starts(s.shard.pool.sessions[i])
  }

  /** Whatever its state, a pool has told its shard exactly if it is closed and no session holds it. */
  lemma NotifiedExactly(s: Site)
    requires Laws(s)
    ensures s.shard.pool.notified == 1 <==> s.shard.pool.closed && forall i :: 0 <= i < |s.worlds| ==> Gone(s, i)
  {
    if s.shard.pool.notified == 1 {
      forall i | 0 <= i < |s.worlds|
        ensures Gone(s, i)
      {
        NotifiedMeansQuiet(s, i);
      }
    } else if forall i :: 0 <= i < |s.worlds| ==> Gone(s, i) {
      NothingOpen(s, |s.worlds|);
    }
  }

  lemma {:induction false} NothingOpen(s: Site, n: nat)
    requires Laws(s) && n <= |s.worlds| && forall i :: 0 <= i < n ==> Gone(s, i)
    ensures OpenBelow(s.shard.pool.sessions, s.worlds, n) == 0
  {
    if n > 0 {
      NothingOpen(s, n - 1);
      assert Gone(s, n - 1) && SessionOk(s.shard.pool.sessions[n - 1], s.worlds[n - 1], s.handled[n - 1]);
      OpenIsPositive(s.shard.pool.sessions[n - 1], s.worlds[n - 1], s.handled[n - 1]);
    }
  }

  /** With at most one start per session the pool counts the sessions whose start is still to run and
      those that are live, and no start ever runs on a live session. */
  lemma StartedOnceNeverLeaks(s: Site, i: nat)
    requires Laws(s) && i < |s.worlds| && Starts(s.shard.pool.sessions[i]) <= 1
    ensures Leaked(s.worlds[i]) == 0
    ensures var calls, ran := s.shard.pool.sessions[i], s.shard.pool.sessions[i][..s.handled[i]];
            Open(calls, s.worlds[i]) == if s.worlds[i].s.live || Starts(ran) < Starts(calls) then 1 else 0
  {
    var calls := s.shard.pool.sessions[i];
    assert SessionOk(calls, s.worlds[i], s.handled[i]);
    OpenIsPositive(calls, s.worlds[i], s.handled[i]);
    StartsGrow(calls, s.handled[i]);
    OneStartStops(calls[..s.handled[i]]);
  }

  /** A session that is stopped between any two starts and after the last does not hold its pool once all its calls
      have run. */
  lemma StoppedIsGone(s: Site, i: nat)
    requires Laws(s) && i < |s.worlds| && s.handled[i] == |s.shard.pool.sessions[i]|
    requires StopsBetween(s.shard.pool.sessions[i]) && StoppedLast(s.shard.pool.sessions[i])
    ensures Gone(s, i)
  {
    var calls := s.shard.pool.sessions[i];
    assert SessionOk(calls, s.worlds[i], s.handled[i]);
    assert calls[..s.handled[i]] == calls;
  }
}
