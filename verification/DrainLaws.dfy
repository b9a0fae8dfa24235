/** Draining: how many more payloads a draining session writes, when it closes, and when it does not. */
module DrainLaws {
  import opened Bytes
  import opened Scripts
  import opened SessionMachine
  import opened SessionLaws

  // --- The bound ---

  ghost function PayloadWrites(w: World): nat {
    |PayloadIndices(w.log.started)|
  }

  /** What one step of a draining session does to its payload position. */
  ghost predicate DrainStep(w: World, w': World) {
    && w'.s.draining && w'.s.flood == w.s.flood
    && w.s.nextPayloadIndex <= w'.s.nextPayloadIndex
    && PayloadWrites(w') - PayloadWrites(w) == w'.s.nextPayloadIndex - w.s.nextPayloadIndex
  }

  lemma LaunchDrains(cfg: Config, w: World, item: Item, now: int)
    requires w.s.draining && NextItem(cfg, w.s) == Some(item)
    ensures DrainStep(w, Launch(cfg, w.(s := Take(w.s, item)), item, now))
  {
    var s := Take(w.s, item);
    StartedSnoc(w.log.started, Started(item, s.flood, s.draining, |s.responses|));
  }

  lemma WriteDrains(cfg: Config, w: World, now: int)
    requires w.s.draining
    ensures DrainStep(w, DoWrite(cfg, w, now)) && DrainStep(w, TryStartWrite(cfg, w, now))
  {
    match NextItem(cfg, w.s)
    case Some(item) => LaunchDrains(cfg, w, item, now);
    case None =>
  }

  lemma StepDrains(cfg: Config, parser: HeaderParser, w: World, e: Event)
    requires w.s.draining && Enabled(cfg, w, e)
    ensures DrainStep(w, Step(cfg, parser, w, e))
  {
    match e
    case UdpStart(ok, now) => UdpStartDrains(cfg, w, ok, now);
    case ConnectDone(ok, now) => ConnectDoneDrains(cfg, w, ok, now);
    case SendPosted(count, now) => SendDrains(cfg, w, count, now);
    case WriteDone(which, ok, now) => WriteDoneDrains(cfg, w, which, ok, now);
    case Answered(response, now) => AnsweredDrains(cfg, w, response, now);
    case HeaderDone(which, ok, bytes) => HeaderDrains(cfg, parser, w, which, ok, bytes);
    case BodyDone(which, ok, bytes) => assert DrainStep(w, OnBodyDone(w, which, ok, bytes));
    case Datagram(which, ok, bytes) => assert DrainStep(w, OnDatagram(cfg, w, which, ok, bytes));
    case StartPosted => assert DrainStep(w, OnStart(w));
    case FloodPosted(now) => assert DrainStep(w, OnFlood(cfg, w, now));
    case DrainPosted => assert DrainStep(w, OnDrain(w));
    case StopPosted => assert DrainStep(w, Close(w));
  }

  lemma HeaderDrains(cfg: Config, parser: HeaderParser, w: World, which: nat, ok: bool, bytes: seq<byte>)
    requires w.s.draining && which < |w.io.readOps|
    ensures DrainStep(w, OnHeaderDone(cfg, parser, w, which, ok, bytes))
  {
  }

  lemma UdpStartDrains(cfg: Config, w: World, ok: bool, now: int)
    requires w.s.draining
    ensures DrainStep(w, OnUdpStart(cfg, w, ok, now))
  {
    var w1 := Begun(w);
    if ok {
      ConnectDrains(cfg, w1, now);
      assert DrainStep(w, OnConnect(cfg, w1, now));
    }
  }

  lemma ConnectDoneDrains(cfg: Config, w: World, ok: bool, now: int)
    requires w.s.draining && w.io.connects > 0
    ensures DrainStep(w, OnConnectDone(cfg, w, ok, now))
  {
    ConnectDrains(cfg, w.(s := w.s.(connecting := false), io := w.io.(connects := w.io.connects - 1)), now);
  }

  lemma SendDrains(cfg: Config, w: World, count: nat, now: int)
    requires w.s.draining
    ensures DrainStep(w, OnSend(cfg, w, count, now))
  {
    WriteDrains(cfg, Enqueue(w, count), now);
  }

  lemma ConnectDrains(cfg: Config, w: World, now: int)
    requires w.s.draining
    ensures DrainStep(w, OnConnect(cfg, w, now))
  {
    WriteDrains(cfg, if cfg.readMessages then ReadHeader(w) else w, now);
  }

  lemma WriteDoneDrains(cfg: Config, w: World, which: nat, ok: bool, now: int)
    requires w.s.draining && which < |w.io.writeOps|
    ensures DrainStep(w, OnWriteDone(cfg, w, which, ok, now))
  {
    var w1 := w.(io := w.io.(writeOps := Without(w.io.writeOps, which)));
    WriteDrains(cfg, Sample(cfg, w1, w.io.writeOps[which], now), now);
  }

  lemma AnsweredDrains(cfg: Config, w: World, response: seq<byte>, now: int)
    requires w.s.draining && w.io.callbacks > 0
    ensures DrainStep(w, OnAnswered(cfg, w, response, now))
  {
    var w1 := w.(io := w.io.(callbacks := w.io.callbacks - 1));
    WriteDrains(cfg, w1.(s := w1.s.(responses := w1.s.responses + [response]),
                         log := w1.log.(accepted := w1.log.accepted + [response])), now);
  }

  lemma {:induction false} RunDrains(cfg: Config, parser: HeaderParser, w: World, events: seq<Event>)
    requires w.s.draining && Possible(cfg, parser, w, events)
    ensures DrainStep(w, Run(cfg, parser, w, events))
    decreases |events|
  {
    if events != [] {
      StepDrains(cfg, parser, w, events[0]);
      RunDrains(cfg, parser, Step(cfg, parser, w, events[0]), events[1..]);
    }
  }

  /** Once draining, a session starts at most as many payload writes as payloads were left: the list
      is never begun again. */
  lemma DrainBound(cfg: Config, parser: HeaderParser, w: World, events: seq<Event>)
    requires Laws(cfg, w) && SingleWriter(w) && w.s.draining && Possible(cfg, parser, w, events)
    ensures PayloadWrites(Run(cfg, parser, w, events)) - PayloadWrites(w) <= cfg.payloadCount - w.s.nextPayloadIndex
  {
    RunDrains(cfg, parser, w, events);
    RunKeeps(cfg, parser, w, events);
  }

  // --- Emptying out ---

  /** `k` successful completions of a session's own writes with nothing else happening. */
  ghost function Drained(cfg: Config, w: World, k: nat, now: int): World
    decreases k
  {
    if k == 0 || w.io.writeOps == [] then w else Drained(cfg, OnWriteDone(cfg, w, 0, true, now), k - 1, now)
  }

  /** Queued responses and payloads left bound the writes a draining session still completes: after
      that many and one more it is closed. */
  lemma {:induction false} DrainTerminates(cfg: Config, w: World, k: nat, now: int)
    requires Laws(cfg, w) && SingleWriter(w) && w.s.draining && |w.io.writeOps| == 1
    requires k > Rank(cfg, w.s)
    ensures !Drained(cfg, w, k, now).s.live && Drained(cfg, w, k, now).io.writeOps == []
    decreases k
  {
    var w1 := OnWriteDone(cfg, w, 0, true, now);
    WriteDoneKeeps(cfg, w, 0, true, now);
    if w1.io.writeOps != [] {
      DrainRank(cfg, w, now);
      DrainTerminates(cfg, w1, k - 1, now);
    } else {
      assert !w1.s.live by {
        assert Without(w.io.writeOps, 0) == [];
      }
      assert Drained(cfg, w1, k - 1, now) == w1;
    }
  }

  ghost function Rank(cfg: Config, s: Session): int {
    |s.responses| + (cfg.payloadCount - s.nextPayloadIndex)
  }

  /** Starting another write uses up a queued response or a payload. */
  lemma WriteRank(cfg: Config, w: World, now: int)
    requires w.s.draining && w.io.writeOps == [] && DoWrite(cfg, w, now).io.writeOps != []
    ensures var w1 := DoWrite(cfg, w, now);
            w1.s.draining && |w1.io.writeOps| == 1 && Rank(cfg, w1.s) == Rank(cfg, w.s) - 1
  {
  }

  lemma DrainRank(cfg: Config, w: World, now: int)
    requires w.s.draining && |w.io.writeOps| == 1
    requires OnWriteDone(cfg, w, 0, true, now).io.writeOps != []
    ensures var w1 := OnWriteDone(cfg, w, 0, true, now);
            w1.s.draining && |w1.io.writeOps| == 1 && Rank(cfg, w1.s) == Rank(cfg, w.s) - 1
  {
    assert Without(w.io.writeOps, 0) == [];
    var w0 := Sample(cfg, w.(io := w.io.(writeOps := [])), w.io.writeOps[0], now);
    assert Rank(cfg, w0.s) == Rank(cfg, w.s) && w0.s.draining && w0.io.writeOps == [];
    WriteRank(cfg, w0, now);
  }

  // --- When a draining session is left open ---

  ghost predicate IsStart(e: Event) {
    e.StartPosted? || e.UdpStart?
  }

  ghost predicate NoStarts(events: seq<Event>) {
    events == [] || (!IsStart(events[0]) && NoStarts(events[1..]))
  }

  /** The session is started first and once, as its callers promise. */
  ghost predicate StartedOnce(events: seq<Event>) {
    events != [] && IsStart(events[0]) && NoStarts(events[1..])
  }

  ghost predicate Connecting(w: World) {
    && w.io.connects == 1 && w.io.readOps == [] && w.io.callbacks == 0 && Idle(w)
    && w.s.responses == []
    && (w.s.live && w.s.draining ==> w.s.writesQueued > 0)
  }

  /** A connected session with no write under way has nothing it could write, and if it is draining
      but still open, it has requested writes and no payload for them. */
  ghost predicate Resting(cfg: Config, w: World) {
    && w.s.responses == []
    && (WantsPayload(w.s) ==> NextPayload(cfg, w.s) == None)
    && (w.s.draining ==> w.s.writesQueued > 0)
  }

  ghost predicate OpenLaws(cfg: Config, w: World) {
    && (if w.s.connecting then Connecting(w) else w.io.connects == 0)
    && (w.log.writeFailed ==> !w.s.live)
    && (w.s.live && !w.s.connecting && !w.s.writing ==> Resting(cfg, w))
    && w.log.starts == 1 && w.log.disconnects == (if w.s.live then 0 else 1)
  }

  lemma DoWriteOpen(cfg: Config, w: World, now: int)
    requires !w.s.connecting && w.io.connects == 0 && !w.log.writeFailed
    requires w.log.starts == 1 && w.log.disconnects == (if w.s.live then 0 else 1)
    ensures OpenLaws(cfg, DoWrite(cfg, w, now))
  {
  }

  lemma TryStartWriteOpen(cfg: Config, w: World, now: int)
    requires !w.s.connecting && w.io.connects == 0 && SingleWriter(w)
    requires w.log.writeFailed ==> !w.s.live
    requires w.log.starts == 1 && w.log.disconnects == (if w.s.live then 0 else 1)
    ensures OpenLaws(cfg, TryStartWrite(cfg, w, now))
  {
    if !w.s.writing {
      DoWriteOpen(cfg, w, now);
    }
  }

  lemma ConnectOpen(cfg: Config, w: World, now: int)
    requires Idle(w) && SingleWriter(w) && !w.s.connecting && w.io.connects == 0 && w.s.responses == []
    requires w.log.starts == 1 && w.log.disconnects == (if w.s.live then 0 else 1)
    requires w.s.live && w.s.draining ==> w.s.writesQueued > 0
    ensures OpenLaws(cfg, OnConnect(cfg, w, now))
  {
    var w1 := if cfg.readMessages then ReadHeader(w) else w;
    DoWriteOpen(cfg, w1, now);
  }

  lemma SendOpen(cfg: Config, w: World, count: nat, now: int)
    requires OpenLaws(cfg, w) && SingleWriter(w)
    ensures OpenLaws(cfg, OnSend(cfg, w, count, now))
  {
    if w.s.live && !w.s.connecting {
      TryStartWriteOpen(cfg, Enqueue(w, count), now);
    }
  }

  lemma FloodOpen(cfg: Config, w: World, now: int)
    requires OpenLaws(cfg, w) && SingleWriter(w)
    ensures OpenLaws(cfg, OnFlood(cfg, w, now))
  {
    if w.s.live && !w.s.connecting {
      TryStartWriteOpen(cfg, w.(s := w.s.(flood := true)), now);
    }
  }

  lemma WriteDoneOpen(cfg: Config, w: World, which: nat, ok: bool, now: int)
    requires OpenLaws(cfg, w) && SingleWriter(w) && which < |w.io.writeOps|
    ensures OpenLaws(cfg, OnWriteDone(cfg, w, which, ok, now))
  {
    var w1 := w.(io := w.io.(writeOps := Without(w.io.writeOps, which)));
    if ok {
      DoWriteOpen(cfg, Sample(cfg, w1, w.io.writeOps[which], now), now);
    }
  }

  lemma AnsweredOpen(cfg: Config, w: World, response: seq<byte>, now: int)
    requires OpenLaws(cfg, w) && SingleWriter(w) && w.io.callbacks > 0
    ensures OpenLaws(cfg, OnAnswered(cfg, w, response, now))
  {
    var w1 := w.(io := w.io.(callbacks := w.io.callbacks - 1));
    if response != [] {
      var w2 := w1.(s := w1.s.(responses := w1.s.responses + [response]),
                    log := w1.log.(accepted := w1.log.accepted + [response]));
      TryStartWriteOpen(cfg, w2, now);
    }
  }

  /** Only the reader and the closing of the session differ. */
  ghost predicate ReaderMoved(v: World, w: World) {
    && w.s == v.s.(live := w.s.live, incomingHeader := w.s.incomingHeader, nextPayloadSize := w.s.nextPayloadSize)
    && w.io.connects == v.io.connects && w.log.writeFailed == v.log.writeFailed && w.log.starts == v.log.starts
    && (w.s.live ==> v.s.live) && w.log.disconnects == v.log.disconnects + if v.s.live && !w.s.live then 1 else 0
  }

  lemma ReaderMovedOpen(cfg: Config, v: World, w: World)
    requires OpenLaws(cfg, v) && !v.s.connecting && ReaderMoved(v, w)
    ensures OpenLaws(cfg, w)
  {
  }

  lemma HeaderMoves(cfg: Config, parser: HeaderParser, w: World, which: nat, ok: bool, bytes: seq<byte>)
    requires which < |w.io.readOps|
    ensures ReaderMoved(w, OnHeaderDone(cfg, parser, w, which, ok, bytes))
  {
  }

  lemma BodyMoves(cfg: Config, w: World, which: nat, ok: bool, bytes: seq<byte>)
    requires which < |w.io.readOps|
    ensures ReaderMoved(w, OnBodyDone(w, which, ok, bytes)) && ReaderMoved(w, OnDatagram(cfg, w, which, ok, bytes))
  {
  }

  lemma ReadOpen(cfg: Config, parser: HeaderParser, w: World, e: Event)
    requires OpenLaws(cfg, w) && Enabled(cfg, w, e) && (e.HeaderDone? || e.BodyDone? || e.Datagram?)
    ensures OpenLaws(cfg, Step(cfg, parser, w, e))
  {
    if e.HeaderDone? {
      HeaderMoves(cfg, parser, w, e.which, e.ok, e.bytes);
    } else {
      BodyMoves(cfg, w, e.which, e.ok, e.bytes);
    }
    ReaderMovedOpen(cfg, w, Step(cfg, parser, w, e));
  }

  lemma StepOpen(cfg: Config, parser: HeaderParser, w: World, e: Event)
    requires OpenLaws(cfg, w) && SingleWriter(w) && Enabled(cfg, w, e) && !IsStart(e)
    ensures OpenLaws(cfg, Step(cfg, parser, w, e))
  {
    match e
    case FloodPosted(now) => FloodOpen(cfg, w, now);
    case SendPosted(count, now) => SendOpen(cfg, w, count, now);
    case ConnectDone(ok, now) =>
      var w1 := w.(s := w.s.(connecting := false), io := w.io.(connects := w.io.connects - 1));
      ConnectOpen(cfg, w1, now);
    case WriteDone(which, ok, now) => WriteDoneOpen(cfg, w, which, ok, now);
    case Answered(response, now) => AnsweredOpen(cfg, w, response, now);
    case DrainPosted =>
    case StopPosted =>
    case _ => ReadOpen(cfg, parser, w, e);
  }

  lemma {:induction false} RunOpen(cfg: Config, parser: HeaderParser, w: World, events: seq<Event>)
    requires Laws(cfg, w) && SingleWriter(w) && OpenLaws(cfg, w)
    requires NoStarts(events) && Possible(cfg, parser, w, events)
    ensures Laws(cfg, Run(cfg, parser, w, events)) && SingleWriter(Run(cfg, parser, w, events))
    ensures OpenLaws(cfg, Run(cfg, parser, w, events))
    decreases |events|
  {
    if events != [] {
      StepKeeps(cfg, parser, w, events[0]);
      StepOpen(cfg, parser, w, events[0]);
      RunOpen(cfg, parser, Step(cfg, parser, w, events[0]), events[1..]);
    }
  }

  lemma FirstStep(cfg: Config, parser: HeaderParser, e: Event)
    requires IsStart(e) && Enabled(cfg, Initial(cfg), e)
    ensures var w := Step(cfg, parser, Initial(cfg), e);
            Laws(cfg, w) && SingleWriter(w) && OpenLaws(cfg, w)
  {
    InitialLaws(cfg);
    StepKeeps(cfg, parser, Initial(cfg), e);
    if e.UdpStart? {
      var w1 := Initial(cfg).(s := Initial(cfg).s.(live := true), log := Initial(cfg).log.(starts := 1));
      ConnectOpen(cfg, w1, e.now);
    }
  }

  /** A session started once is closed exactly once or still live; and a connected, draining session
      with no write under way is closed, unless it still has requested writes while every payload has
      been written. */
  lemma DrainingCloses(cfg: Config, parser: HeaderParser, events: seq<Event>)
    requires StartedOnce(events) && Possible(cfg, parser, Initial(cfg), events)
    ensures var w := Run(cfg, parser, Initial(cfg), events);
            && w.log.disconnects == (if w.s.live then 0 else 1)
            && (w.s.draining && w.s.live && !w.s.connecting && w.io.writeOps == [] ==>
                  w.s.writesQueued > 0 && w.s.nextPayloadIndex == cfg.payloadCount && w.s.responses == [])
  {
    FirstStep(cfg, parser, events[0]);
    RunOpen(cfg, parser, Step(cfg, parser, Initial(cfg), events[0]), events[1..]);
  }

  /** A live, connected session without a write under way has nothing it could write: no response, and no
      payload that is both wanted and left. */
  lemma NeverIdleWithWork(cfg: Config, parser: HeaderParser, events: seq<Event>)
    requires StartedOnce(events) && Possible(cfg, parser, Initial(cfg), events)
    ensures var w := Run(cfg, parser, Initial(cfg), events);
            w.s.live && !w.s.connecting && w.io.writeOps == [] ==>
              w.s.responses == [] && ((w.s.flood || w.s.writesQueued > 0) ==> NextPayload(cfg, w.s) == None)
  {
    FirstStep(cfg, parser, events[0]);
    RunOpen(cfg, parser, Step(cfg, parser, Initial(cfg), events[0]), events[1..]);
  }

  /** For a connected session at rest, the drain command leaves it open exactly when writes are queued. */
  lemma DrainAtRest(cfg: Config, parser: HeaderParser, events: seq<Event>)
    requires StartedOnce(events) && Possible(cfg, parser, Initial(cfg), events)
    requires var w := Run(cfg, parser, Initial(cfg), events);
             w.s.live && !w.s.connecting && w.io.writeOps == []
    ensures var w := Run(cfg, parser, Initial(cfg), events);
            OnDrain(w).s.live <==> w.s.writesQueued > 0
  {
    FirstStep(cfg, parser, events[0]);
    RunOpen(cfg, parser, Step(cfg, parser, Initial(cfg), events[0]), events[1..]);
  }

  /** Two writes requested, one payload, no looping: the drain command leaves the session open. */
  lemma DrainMayNotClose(parser: HeaderParser)
    ensures var cfg := Config(4, 100, false, false, 1, 1);
            var events := [StartPosted, ConnectDone(true, 0), SendPosted(2, 1), WriteDone(0, true, 2), DrainPosted];
            && Possible(cfg, parser, Initial(cfg), events)
            && var w := Run(cfg, parser, Initial(cfg), events);
               w.s.live && w.s.draining && w.io == Outstanding(0, [], [], 0)
  {
    var cfg := Config(4, 100, false, false, 1, 1);
    var w0 := Initial(cfg);
    var w1 := Step(cfg, parser, w0, StartPosted);
    var w2 := Step(cfg, parser, w1, ConnectDone(true, 0));
    var w3 := FirstOfTwo(cfg, w2);
    var w4 := LeftOver(cfg, w3);
    var w5 := OnDrain(w4);
    RunCons(cfg, parser, w4, DrainPosted, []);
    RunCons(cfg, parser, w3, WriteDone(0, true, 2), [DrainPosted]);
    RunCons(cfg, parser, w2, SendPosted(2, 1), [WriteDone(0, true, 2), DrainPosted]);
    RunCons(cfg, parser, w1, ConnectDone(true, 0), [SendPosted(2, 1), WriteDone(0, true, 2), DrainPosted]);
    RunCons(cfg, parser, w0, StartPosted, [ConnectDone(true, 0), SendPosted(2, 1), WriteDone(0, true, 2), DrainPosted]);
  }

  lemma FirstOfTwo(cfg: Config, w: World) returns (w': World)
    requires cfg.payloadCount == 1 && !cfg.loopPayloads && w.s.live && !w.s.connecting && Idle(w) && !w.s.writing
    requires !w.s.flood && !w.s.draining && w.s.responses == [] && w.s.nextPayloadIndex == w.s.writesQueued == 0
    ensures w' == OnSend(cfg, w, 2, 1)
    ensures w'.s.live && !w'.s.flood && !w'.s.draining && w'.s.responses == []
    ensures w'.s.nextPayloadIndex == w'.s.writesQueued == 1 && w'.io == w.io.(writeOps := [Write(Payload(0), 1)])
  {
    w' := OnSend(cfg, w, 2, 1);
    assert w.io.writeOps + [Write(Payload(0), 1)] == [Write(Payload(0), 1)];
  }

  lemma LeftOver(cfg: Config, w: World) returns (w': World)
    requires cfg.payloadCount == 1 && !cfg.loopPayloads && w.s.live && !w.s.flood && !w.s.draining
             && w.s.responses == []
    requires w.s.nextPayloadIndex == w.s.writesQueued == 1 && w.io.writeOps == [Write(Payload(0), 1)]
    ensures w' == OnWriteDone(cfg, w, 0, true, 2)
    ensures w'.s.live && !w'.s.writing && w'.s.writesQueued == 1 && w'.io == w.io.(writeOps := [])
  {
    w' := OnWriteDone(cfg, w, 0, true, 2);
    assert Without(w.io.writeOps, 0) == [];
  }

  lemma RunCons(cfg: Config, parser: HeaderParser, w: World, e: Event, rest: seq<Event>)
    requires Enabled(cfg, w, e) && Possible(cfg, parser, Step(cfg, parser, w, e), rest)
    ensures Possible(cfg, parser, w, [e] + rest)
    ensures Run(cfg, parser, w, [e] + rest) == Run(cfg, parser, Step(cfg, parser, w, e), rest)
  {
    assert ([e] + rest)[1..] == rest;
  }
}
