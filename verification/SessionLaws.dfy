/** What every run of a session keeps: one write at a time, payloads in cyclic order, responses first
    and in order, requests accounted for, samples at their rate, one disconnect per start. */
module SessionLaws {
  import opened Bytes
  import opened Scripts
  import opened SessionMachine

  // --- Reading the record ---

  ghost function PayloadIndices(started: seq<Started>): seq<nat> {
    if started == [] then []
    else
      var n := |started| - 1;
      PayloadIndices(started[..n]) + if started[n].item.Payload? then [started[n].item.index] else []
  }

  ghost function ResponsesSent(started: seq<Started>): seq<seq<byte>> {
    if started == [] then []
    else
      var n := |started| - 1;
      ResponsesSent(started[..n]) + if started[n].item.Response? then [started[n].item.bytes] else []
  }

  /** Payload writes started while not flooding. */
  ghost function Requested(started: seq<Started>): nat {
    if started == [] then 0
    else
      var n := |started| - 1;
      Requested(started[..n]) + if started[n].item.Payload? && !started[n].flooding then 1 else 0
  }

  /** No payload write started while a response was waiting. */
  ghost predicate ResponsesFirst(started: seq<Started>) {
    started == [] ||
    (var n := |started| - 1;
     ResponsesFirst(started[..n]) && (started[n].item.Payload? ==> started[n].waiting == 0))
  }

  lemma StartedSnoc(started: seq<Started>, e: Started)
    ensures PayloadIndices(started + [e]) == PayloadIndices(started) + if e.item.Payload? then [e.item.index] else []
    ensures ResponsesSent(started + [e]) == ResponsesSent(started) + if e.item.Response? then [e.item.bytes] else []
    ensures Requested(started + [e]) == Requested(started) + if e.item.Payload? && !e.flooding then 1 else 0
    ensures ResponsesFirst(started + [e]) <==> ResponsesFirst(started) && (e.item.Payload? ==> e.waiting == 0)
  {
    assert (started + [e])[..|started|] == started;
  }

  // --- Cyclic counting ---

  /** Counts 0, 1, ..., m - 1, 0, 1, ... */
  ghost function Cyclic(k: nat, m: nat): nat {
    if k == 0 then 0
    else
      var before := Cyclic(k - 1, m);
      if before + 1 < m then before + 1 else 0
  }

  lemma {:induction false} CyclicIsRemainder(k: nat, m: nat)
    requires m > 0
    ensures Cyclic(k, m) == k % m
  {
    if k == 0 {
      DivisionIsUnique(0, m, 0, 0);
    } else {
      CyclicIsRemainder(k - 1, m);
      var q, r := (k - 1) / m, (k - 1) % m;
      assert k - 1 == m * q + r;
      if r + 1 < m {
        DivisionIsUnique(k, m, q, r + 1);
      } else {
        assert m * (q + 1) == m * q + m;
        DivisionIsUnique(k, m, q + 1, 0);
      }
    }
  }

  /** The first `k` payload indices of a session with `n` payloads. */
  ghost function Cycle(k: nat, n: nat): (r: seq<nat>)
    ensures |r| == k
  {
    if k == 0 then [] else Cycle(k - 1, n) + [Cyclic(k - 1, n)]
  }

  lemma {:induction false} CycleAt(k: nat, n: nat, i: nat)
    requires i < k
    ensures Cycle(k, n)[i] == Cyclic(i, n)
  {
    if i < k - 1 {
      CycleAt(k - 1, n, i);
    }
  }

  /** The finished writes whose position is a multiple of `rate + 1`. */
  ghost function Due(finished: seq<Finished>, rate: nat): seq<Finished> {
    if finished == [] then []
    else
      var k := |finished| - 1;
      Due(finished[..k], rate) + if Cyclic(k, rate + 1) == 0 then [finished[k]] else []
  }

  /** The sample counter between two writes, after `k` successful ones. */
  ghost function CounterAfter(k: nat, rate: nat): nat {
    if k == 0 then rate else Cyclic(k - 1, rate + 1)
  }

  // --- The laws ---

  /** Where the payload list is: position `next` after `k` payload writes. */
  ghost predicate AtPosition(n: nat, looping: bool, k: nat, next: nat) {
    && next == (if k == 0 then 0 else Cyclic(k - 1, n) + 1)
    && next <= n
    && (!looping ==> k == next)
  }

  ghost predicate PayloadsCycle(cfg: Config, w: World) {
    var k := |PayloadIndices(w.log.started)|;
    && PayloadIndices(w.log.started) == Cycle(k, cfg.payloadCount)
    && AtPosition(cfg.payloadCount, cfg.loopPayloads, k, w.s.nextPayloadIndex)
  }

  ghost predicate RequestsKept(w: World) {
    Requested(w.log.started) + w.s.writesQueued == w.log.requested
  }

  ghost predicate ResponsesInOrder(w: World) {
    && ResponsesSent(w.log.started) + w.s.responses == w.log.accepted
    && ResponsesFirst(w.log.started)
  }

  ghost predicate SamplesDue(cfg: Config, w: World) {
    var between := CounterAfter(|w.log.finished|, cfg.sampleRate);
    && w.log.samples == Due(w.log.finished, cfg.sampleRate)
    && (w.io.writeOps == [] && !w.log.writeFailed ==> w.s.writeSampleCounter == between)
    && (w.io.writeOps != [] ==>
          && w.s.writeSampleCounter == between + 1
          && (between == cfg.sampleRate ==> w.s.writeStartTime == w.io.writeOps[0].startedAt))
  }

  ghost predicate ClosesMatch(w: World) {
    w.log.disconnects + (if w.s.live then 1 else 0) <= w.log.starts
  }

  /** At most one write is outstanding, and `writing` says whether one is or has failed. */
  ghost predicate SingleWriter(w: World) {
    && |w.io.writeOps| <= 1
    && (w.log.writeFailed ==> w.io.writeOps == [])
    && (w.s.writing <==> w.io.writeOps != [] || w.log.writeFailed)
  }

  ghost predicate Laws(cfg: Config, w: World) {
    && PayloadsCycle(cfg, w) && RequestsKept(w) && ResponsesInOrder(w)
    && SamplesDue(cfg, w) && ClosesMatch(w)
  }

  ghost predicate Idle(w: World) {
    w.io.writeOps == [] && !w.log.writeFailed
  }

  lemma InitialLaws(cfg: Config)
    ensures Laws(cfg, Initial(cfg)) && SingleWriter(Initial(cfg))
  {
  }

  // --- The writer keeps them ---

  lemma NextPosition(cfg: Config, s: Session, k: nat, i: nat)
    requires AtPosition(cfg.payloadCount, cfg.loopPayloads, k, s.nextPayloadIndex)
    requires !Spins(cfg, s) && s.responses == [] && WantsPayload(s) && NextPayload(cfg, s) == Some(i)
    ensures i == Cyclic(k, cfg.payloadCount) < cfg.payloadCount
    ensures AtPosition(cfg.payloadCount, cfg.loopPayloads, k + 1, i + 1)
  {
  }

  lemma LaunchCycle(cfg: Config, w: World, i: nat, now: int)
    requires !Spins(cfg, w.s) && PayloadsCycle(cfg, w) && w.s.responses == [] && WantsPayload(w.s)
    requires NextPayload(cfg, w.s) == Some(i)
    ensures PayloadsCycle(cfg, Launch(cfg, w.(s := Take(w.s, Payload(i))), Payload(i), now))
  {
    var s := Take(w.s, Payload(i));
    var k := |PayloadIndices(w.log.started)|;
    NextPosition(cfg, w.s, k, i);
    StartedSnoc(w.log.started, Started(Payload(i), s.flood, s.draining, |s.responses|));
    CycleSnoc(k, cfg.payloadCount);
  }

  lemma CycleSnoc(k: nat, n: nat)
    ensures Cycle(k + 1, n) == Cycle(k, n) + [Cyclic(k, n)]
  {
  }

  lemma LaunchKeeps(cfg: Config, w: World, item: Item, now: int)
    requires !Spins(cfg, w.s) && Laws(cfg, w) && Idle(w) && NextItem(cfg, w.s) == Some(item)
    ensures var w' := Launch(cfg, w.(s := Take(w.s, item)), item, now);
            Laws(cfg, w') && SingleWriter(w')
  {
    var s := Take(w.s, item);
    var w' := Launch(cfg, w.(s := s), item, now);
    StartedSnoc(w.log.started, Started(item, s.flood, s.draining, |s.responses|));
    if item.Payload? {
      LaunchCycle(cfg, w, item.index, now);
    } else {
      assert ResponsesSent(w.log.started) + [item.bytes] + s.responses == ResponsesSent(w.log.started) + w.s.responses;
    }
    assert w'.io.writeOps == [Write(item, now)];
  }

  lemma DoWriteKeeps(cfg: Config, w: World, now: int)
    requires !Spins(cfg, w.s) && Laws(cfg, w) && Idle(w)
    ensures Laws(cfg, DoWrite(cfg, w, now)) && SingleWriter(DoWrite(cfg, w, now))
  {
    match NextItem(cfg, w.s)
    case Some(item) => LaunchKeeps(cfg, w, item, now);
    case None =>
  }

  lemma TryStartWriteKeeps(cfg: Config, w: World, now: int)
    requires WriterReturns(cfg, w.s) && Laws(cfg, w) && SingleWriter(w)
    ensures Laws(cfg, TryStartWrite(cfg, w, now)) && SingleWriter(TryStartWrite(cfg, w, now))
  {
    if !w.s.writing {
      DoWriteKeeps(cfg, w, now);
    }
  }

  /** One successful write more: the counter is reset exactly if the write was due. */
  lemma CountOne(k: nat, rate: nat)
    ensures CounterAfter(k, rate) <= rate
    ensures CounterAfter(k, rate) == rate <==> Cyclic(k, rate + 1) == 0
    ensures CounterAfter(k + 1, rate) == if CounterAfter(k, rate) == rate then 0 else CounterAfter(k, rate) + 1
  {
    CyclicBelow(k, rate + 1);
    if k > 0 {
      CyclicBelow(k - 1, rate + 1);
    }
  }

  lemma DueSnoc(finished: seq<Finished>, e: Finished, rate: nat)
    ensures Due(finished + [e], rate) == Due(finished, rate) + if Cyclic(|finished|, rate + 1) == 0 then [e] else []
  {
    assert (finished + [e])[..|finished|] == finished;
  }

  lemma SampleDue(cfg: Config, w: World, write: Write, now: int)
    requires SamplesDue(cfg, w) && w.io.writeOps == [write]
    ensures SamplesDue(cfg, Sample(cfg, w.(io := w.io.(writeOps := [])), write, now))
  {
    CountOne(|w.log.finished|, cfg.sampleRate);
    DueSnoc(w.log.finished, Finished(write.startedAt, now), cfg.sampleRate);
  }

  lemma SampleKeeps(cfg: Config, w: World, now: int)
    requires Laws(cfg, w) && |w.io.writeOps| == 1 && !w.log.writeFailed
    ensures var w' := Sample(cfg, w.(io := w.io.(writeOps := [])), w.io.writeOps[0], now);
            Laws(cfg, w') && Idle(w')
  {
    var write := w.io.writeOps[0];
    assert w.io.writeOps == [write];
    SampleDue(cfg, w, write, now);
    SampleFrame(cfg, w, write, now);
  }

  /** Recording a write leaves the other laws alone. */
  lemma SampleFrame(cfg: Config, w: World, write: Write, now: int)
    requires PayloadsCycle(cfg, w) && RequestsKept(w) && ResponsesInOrder(w) && ClosesMatch(w)
    ensures var w' := Sample(cfg, w.(io := w.io.(writeOps := [])), write, now);
            PayloadsCycle(cfg, w') && RequestsKept(w') && ResponsesInOrder(w') && ClosesMatch(w')
  {
    var w' := Sample(cfg, w.(io := w.io.(writeOps := [])), write, now);
    assert w'.log.started == w.log.started && w'.log.requested == w.log.requested && w'.log.accepted == w.log.accepted;
    assert w'.s.nextPayloadIndex == w.s.nextPayloadIndex && w'.s.responses == w.s.responses
           && w'.s.writesQueued == w.s.writesQueued;
  }

  lemma {:induction false} CyclicBelow(k: nat, m: nat)
    requires m > 0
    ensures Cyclic(k, m) < m
    ensures k > 0 ==> (Cyclic(k, m) == 0 <==> Cyclic(k - 1, m) == m - 1)
  {
    if k > 0 {
      CyclicBelow(k - 1, m);
    }
  }

  lemma WriteDoneKeeps(cfg: Config, w: World, which: nat, ok: bool, now: int)
    requires (ok ==> !Spins(cfg, w.s)) && Laws(cfg, w) && SingleWriter(w) && which < |w.io.writeOps|
    ensures Laws(cfg, OnWriteDone(cfg, w, which, ok, now)) && SingleWriter(OnWriteDone(cfg, w, which, ok, now))
  {
    assert Without(w.io.writeOps, which) == [];
    if ok {
      SampleKeeps(cfg, w, now);
      DoWriteKeeps(cfg, Sample(cfg, w.(io := w.io.(writeOps := [])), w.io.writeOps[0], now), now);
    }
  }

  /** The states a handler may reach before it touches the writer: only the reader, the connection
      and the flags differ. */
  ghost predicate SameWriter(v: World, w: World) {
    && v.io.writeOps == w.io.writeOps && v.s.writing == w.s.writing
    && v.s.responses == w.s.responses && v.s.nextPayloadIndex == w.s.nextPayloadIndex
    && v.s.writesQueued == w.s.writesQueued && v.s.writeSampleCounter == w.s.writeSampleCounter
    && v.s.writeStartTime == w.s.writeStartTime
    && v.log.requested == w.log.requested && v.log.accepted == w.log.accepted && v.log.started == w.log.started
    && v.log.finished == w.log.finished && v.log.samples == w.log.samples && v.log.writeFailed == w.log.writeFailed
  }

  lemma SameWriterKeeps(cfg: Config, v: World, w: World)
    requires Laws(cfg, v) && SingleWriter(v) && SameWriter(v, w) && ClosesMatch(w)
    ensures Laws(cfg, w) && SingleWriter(w)
  {
  }

  lemma ConnectKeeps(cfg: Config, w: World, now: int)
    requires WriterReturns(cfg, w.s) && Laws(cfg, w) && SingleWriter(w)
    ensures Laws(cfg, OnConnect(cfg, w, now)) && SingleWriter(OnConnect(cfg, w, now))
  {
    var w1 := if cfg.readMessages then ReadHeader(w) else w;
    SameWriterKeeps(cfg, w, w1);
    if !w1.s.writing && WantsPayload(w1.s) {
      DoWriteKeeps(cfg, w1, now);
    }
  }

  lemma CloseKeeps(cfg: Config, w: World)
    requires Laws(cfg, w) && SingleWriter(w)
    ensures Laws(cfg, Close(w)) && SingleWriter(Close(w))
  {
    SameWriterKeeps(cfg, w, Close(w));
  }

  lemma WhenConnectedKeeps(cfg: Config, w: World, now: int)
    requires (w.s.live && !w.s.connecting ==> WriterReturns(cfg, w.s)) && Laws(cfg, w) && SingleWriter(w)
    ensures Laws(cfg, WhenConnected(cfg, w, now)) && SingleWriter(WhenConnected(cfg, w, now))
  {
    if w.s.live && !w.s.connecting {
      TryStartWriteKeeps(cfg, w, now);
    }
  }

  lemma FloodKeeps(cfg: Config, w: World, now: int)
    requires Returns(cfg, w.s, FloodPosted(now)) && Laws(cfg, w) && SingleWriter(w)
    ensures Laws(cfg, OnFlood(cfg, w, now)) && SingleWriter(OnFlood(cfg, w, now))
  {
    var w1 := w.(s := w.s.(flood := true));
    SameWriterKeeps(cfg, w, w1);
    if !w.s.flood && !w.s.draining {
      WhenConnectedKeeps(cfg, w1, now);
    }
  }

  lemma EnqueueKeeps(cfg: Config, w: World, count: nat)
    requires Laws(cfg, w) && SingleWriter(w)
    ensures Laws(cfg, Enqueue(w, count)) && SingleWriter(Enqueue(w, count))
  {
  }

  lemma SendKeeps(cfg: Config, w: World, count: nat, now: int)
    requires Returns(cfg, w.s, SendPosted(count, now)) && Laws(cfg, w) && SingleWriter(w)
    ensures Laws(cfg, OnSend(cfg, w, count, now)) && SingleWriter(OnSend(cfg, w, count, now))
  {
    EnqueueKeeps(cfg, w, count);
    WhenConnectedKeeps(cfg, Enqueue(w, count), now);
  }

  lemma DrainKeeps(cfg: Config, w: World)
    requires Laws(cfg, w) && SingleWriter(w)
    ensures Laws(cfg, OnDrain(w)) && SingleWriter(OnDrain(w))
  {
    var w1 := w.(s := w.s.(draining := true));
    SameWriterKeeps(cfg, w, w1);
    CloseKeeps(cfg, w1);
  }

  lemma HeaderSameWriter(cfg: Config, parser: HeaderParser, w: World, bytes: seq<byte>)
    requires ClosesMatch(w)
    ensures SameWriter(w, OnHeader(cfg, parser, w, bytes)) && ClosesMatch(OnHeader(cfg, parser, w, bytes))
  {
    match parser(bytes)
    case HeaderError =>
    case HeaderOk(length) =>
  }

  lemma HeaderKeeps(cfg: Config, parser: HeaderParser, w: World, which: nat, ok: bool, bytes: seq<byte>)
    requires Laws(cfg, w) && SingleWriter(w) && which < |w.io.readOps|
    ensures Laws(cfg, OnHeaderDone(cfg, parser, w, which, ok, bytes))
            && SingleWriter(OnHeaderDone(cfg, parser, w, which, ok, bytes))
  {
    var w1 := w.(io := w.io.(readOps := Without(w.io.readOps, which)));
    SameWriterKeeps(cfg, w, w1);
    if ok {
      HeaderSameWriter(cfg, parser, w1, bytes);
      SameWriterKeeps(cfg, w1, OnHeader(cfg, parser, w1, bytes));
    } else {
      CloseKeeps(cfg, w1);
    }
  }

  lemma BodyKeeps(cfg: Config, w: World, which: nat, ok: bool, bytes: seq<byte>)
    requires Laws(cfg, w) && SingleWriter(w) && which < |w.io.readOps|
    ensures Laws(cfg, OnBodyDone(w, which, ok, bytes)) && SingleWriter(OnBodyDone(w, which, ok, bytes))
  {
    SameWriterKeeps(cfg, w, OnBodyDone(w, which, ok, bytes));
  }

  lemma DatagramKeeps(cfg: Config, w: World, which: nat, ok: bool, bytes: seq<byte>)
    requires Laws(cfg, w) && SingleWriter(w) && which < |w.io.readOps|
    ensures Laws(cfg, OnDatagram(cfg, w, which, ok, bytes)) && SingleWriter(OnDatagram(cfg, w, which, ok, bytes))
  {
    SameWriterKeeps(cfg, w, OnDatagram(cfg, w, which, ok, bytes));
  }

  lemma BegunKeeps(cfg: Config, w: World)
    requires Laws(cfg, w) && SingleWriter(w)
    ensures Laws(cfg, Begun(w)) && SingleWriter(Begun(w))
  {
    SameWriterKeeps(cfg, w, Begun(w));
  }

  lemma UdpStartKeeps(cfg: Config, w: World, ok: bool, now: int)
    requires (ok ==> WriterReturns(cfg, w.s)) && Laws(cfg, w) && SingleWriter(w)
    ensures Laws(cfg, OnUdpStart(cfg, w, ok, now)) && SingleWriter(OnUdpStart(cfg, w, ok, now))
  {
    BegunKeeps(cfg, w);
    if ok {
      ConnectKeeps(cfg, Begun(w), now);
    } else {
      CloseKeeps(cfg, Begun(w));
    }
  }

  lemma ConnectDoneKeeps(cfg: Config, w: World, ok: bool, now: int)
    requires (ok ==> WriterReturns(cfg, w.s)) && Laws(cfg, w) && SingleWriter(w) && w.io.connects > 0
    ensures Laws(cfg, OnConnectDone(cfg, w, ok, now)) && SingleWriter(OnConnectDone(cfg, w, ok, now))
  {
    var w1 := w.(s := w.s.(connecting := false), io := w.io.(connects := w.io.connects - 1));
    SameWriterKeeps(cfg, w, w1);
    if ok {
      ConnectKeeps(cfg, w1, now);
    } else {
      CloseKeeps(cfg, w1);
    }
  }

  lemma AnsweredKeeps(cfg: Config, w: World, response: seq<byte>, now: int)
    requires Laws(cfg, w) && SingleWriter(w) && w.io.callbacks > 0
    ensures Laws(cfg, OnAnswered(cfg, w, response, now)) && SingleWriter(OnAnswered(cfg, w, response, now))
  {
    var w1 := w.(io := w.io.(callbacks := w.io.callbacks - 1));
    SameWriterKeeps(cfg, w, w1);
    if response == [] {
      SameWriterKeeps(cfg, w1, ReadHeader(w1));
    } else {
      var w2 := w1.(s := w1.s.(responses := w1.s.responses + [response]),
                    log := w1.log.(accepted := w1.log.accepted + [response]));
      assert ResponsesInOrder(w2);
      TryStartWriteKeeps(cfg, w2, now);
      SameWriterKeeps(cfg, TryStartWrite(cfg, w2, now), ReadHeader(TryStartWrite(cfg, w2, now)));
    }
  }

  lemma StepKeeps(cfg: Config, parser: HeaderParser, w: World, e: Event)
    requires Laws(cfg, w) && SingleWriter(w) && Enabled(cfg, w, e)
    ensures Laws(cfg, Step(cfg, parser, w, e)) && SingleWriter(Step(cfg, parser, w, e))
  {
    match e
    case StartPosted => SameWriterKeeps(cfg, w, OnStart(w));
    case UdpStart(ok, now) => UdpStartKeeps(cfg, w, ok, now);
    case FloodPosted(now) => FloodKeeps(cfg, w, now);
    case SendPosted(count, now) => SendKeeps(cfg, w, count, now);
    case DrainPosted => DrainKeeps(cfg, w);
    case StopPosted => CloseKeeps(cfg, w);
    case ConnectDone(ok, now) => ConnectDoneKeeps(cfg, w, ok, now);
    case WriteDone(which, ok, now) => WriteDoneKeeps(cfg, w, which, ok, now);
    case HeaderDone(which, ok, bytes) => HeaderKeeps(cfg, parser, w, which, ok, bytes);
    case BodyDone(which, ok, bytes) => BodyKeeps(cfg, w, which, ok, bytes);
    case Datagram(which, ok, bytes) => DatagramKeeps(cfg, w, which, ok, bytes);
    case Answered(response, now) => AnsweredKeeps(cfg, w, response, now);
  }

  /** Every state of every run, under any interleaving of commands and completions. */
  lemma {:induction false} RunKeeps(cfg: Config, parser: HeaderParser, w: World, events: seq<Event>)
    requires Laws(cfg, w) && SingleWriter(w) && Possible(cfg, parser, w, events)
    ensures Laws(cfg, Run(cfg, parser, w, events)) && SingleWriter(Run(cfg, parser, w, events))
    decreases |events|
  {
    if events != [] {
      StepKeeps(cfg, parser, w, events[0]);
      RunKeeps(cfg, parser, Step(cfg, parser, w, events[0]), events[1..]);
    }
  }

  // --- The laws of a whole run, spelled out ---

  /** At most one write is outstanding, and then `writing` is set. */
  lemma OneWriteAtATime(cfg: Config, parser: HeaderParser, events: seq<Event>)
    requires Possible(cfg, parser, Initial(cfg), events)
    ensures var w := Run(cfg, parser, Initial(cfg), events);
            && |w.io.writeOps| <= 1
            && (w.s.writing <==> |w.io.writeOps| == 1 || w.log.writeFailed)
            && !(|w.io.writeOps| == 1 && w.log.writeFailed)
  {
    InitialLaws(cfg);
    RunKeeps(cfg, parser, Initial(cfg), events);
  }

  /** The k-th payload write carries payload k mod n; without looping each payload is written once. */
  lemma PayloadOrder(cfg: Config, parser: HeaderParser, events: seq<Event>, k: nat)
    requires Possible(cfg, parser, Initial(cfg), events)
    requires k < |PayloadIndices(Run(cfg, parser, Initial(cfg), events).log.started)|
    ensures cfg.payloadCount > 0
    ensures PayloadIndices(Run(cfg, parser, Initial(cfg), events).log.started)[k] == k % cfg.payloadCount
    ensures !cfg.loopPayloads ==> k < cfg.payloadCount
  {
    InitialLaws(cfg);
    RunKeeps(cfg, parser, Initial(cfg), events);
    var w := Run(cfg, parser, Initial(cfg), events);
    CycleAt(|PayloadIndices(w.log.started)|, cfg.payloadCount, k);
    CyclicIsRemainder(k, cfg.payloadCount);
  }

  /** Every requested write is either still queued or was started while not flooding; responses leave
      in the order they arrived, none lost and none twice, and never after a payload that started
      while they waited; and a session is closed at most once per start. */
  lemma NothingLost(cfg: Config, parser: HeaderParser, events: seq<Event>)
    requires Possible(cfg, parser, Initial(cfg), events)
    ensures var w := Run(cfg, parser, Initial(cfg), events);
            && Requested(w.log.started) + w.s.writesQueued == w.log.requested
            && ResponsesSent(w.log.started) + w.s.responses == w.log.accepted
            && ResponsesFirst(w.log.started)
            && w.log.disconnects + (if w.s.live then 1 else 0) <= w.log.starts
  {
    InitialLaws(cfg);
    RunKeeps(cfg, parser, Initial(cfg), events);
  }

  lemma {:induction false} DueAt(finished: seq<Finished>, rate: nat, k: nat)
    requires k < |finished| && k % (rate + 1) == 0
    ensures k / (rate + 1) < |Due(finished, rate)| && Due(finished, rate)[k / (rate + 1)] == finished[k]
    ensures |Due(finished[..k], rate)| == k / (rate + 1)
  {
    var m := rate + 1;
    DueLength(finished[..k], rate);
    var n := |finished| - 1;
    CyclicIsRemainder(k, m);
    DivisionIsUnique(k + rate, m, k / m, rate) by {
      assert k == m * (k / m) + k % m;
    }
    if k < n {
      DueAt(finished[..n], rate, k);
      assert finished[..n][..k] == finished[..k];
    } else {
      assert finished[..n] == finished[..k];
    }
  }

  lemma RoundedUp(k: nat, m: nat)
    requires m > 0
    ensures (k + 1 + (m - 1)) / m == (k + (m - 1)) / m + if k % m == 0 then 1 else 0
  {
    var q, r := k / m, k % m;
    assert k == m * q + r && m * (q + 1) == m * q + m;
    if r == 0 {
      DivisionIsUnique(k + (m - 1), m, q, m - 1);
      DivisionIsUnique(k + 1 + (m - 1), m, q + 1, 0);
    } else {
      DivisionIsUnique(k + (m - 1), m, q + 1, r - 1);
      DivisionIsUnique(k + 1 + (m - 1), m, q + 1, r);
    }
  }

  lemma {:induction false} DueLength(finished: seq<Finished>, rate: nat)
    ensures |Due(finished, rate)| == (|finished| + rate) / (rate + 1)
  {
    if finished == [] {
      DivisionIsUnique(rate, rate + 1, 0, rate);
    } else {
      var k := |finished| - 1;
      DueLength(finished[..k], rate);
      CyclicIsRemainder(k, rate + 1);
      RoundedUp(k, rate + 1);
    }
  }

  /** With sample rate R the successful writes 0, R + 1, 2 (R + 1), ... of a session are sampled and no
      others, and each sample runs from the start of its own write. */
  lemma SampledWrites(cfg: Config, parser: HeaderParser, events: seq<Event>, k: nat)
    requires Possible(cfg, parser, Initial(cfg), events)
    requires k < |Run(cfg, parser, Initial(cfg), events).log.finished|
    ensures var log := Run(cfg, parser, Initial(cfg), events).log;
            && |log.samples| == (|log.finished| + cfg.sampleRate) / (cfg.sampleRate + 1)
            && (k % (cfg.sampleRate + 1) == 0 ==>
                  && k / (cfg.sampleRate + 1) < |log.samples|
                  && log.samples[k / (cfg.sampleRate + 1)] == log.finished[k])
  {
    InitialLaws(cfg);
    RunKeeps(cfg, parser, Initial(cfg), events);
    var log := Run(cfg, parser, Initial(cfg), events).log;
    DueLength(log.finished, cfg.sampleRate);
    if k % (cfg.sampleRate + 1) == 0 {
      DueAt(log.finished, cfg.sampleRate, k);
    }
  }

  lemma WriterSilent(cfg: Config, w: World, now: int)
    requires w.s.writing
    ensures TryStartWrite(cfg, w, now) == w && WhenConnected(cfg, w, now) == w
    ensures OnConnect(cfg, w, now).log == w.log
  {
  }

  lemma SilentStep(cfg: Config, parser: HeaderParser, w: World, e: Event)
    requires w.s.writing && w.io.writeOps == [] && Enabled(cfg, w, e)
    ensures Step(cfg, parser, w, e).log.started == w.log.started
    ensures w.log.writeFailed ==> Step(cfg, parser, w, e).log.writeFailed
  {
    match e
    case StartPosted =>
    case UdpStart(ok, now) => WriterSilent(cfg, Begun(w), now);
    case FloodPosted(now) => WriterSilent(cfg, w.(s := w.s.(flood := true)), now);
    case SendPosted(count, now) => WriterSilent(cfg, Enqueue(w, count), now);
    case DrainPosted =>
    case StopPosted =>
    case ConnectDone(ok, now) =>
      WriterSilent(cfg, w.(s := w.s.(connecting := false), io := w.io.(connects := w.io.connects - 1)), now);
    case HeaderDone(which, ok, bytes) => HeaderSilent(cfg, parser, w, which, ok, bytes);
    case BodyDone(which, ok, bytes) =>
    case Datagram(which, ok, bytes) =>
    case Answered(response, now) =>
      var w1 := w.(io := w.io.(callbacks := w.io.callbacks - 1));
      WriterSilent(cfg, w1.(s := w1.s.(responses := w1.s.responses + [response]),
                            log := w1.log.(accepted := w1.log.accepted + [response])), now);
  }

  lemma HeaderSilent(cfg: Config, parser: HeaderParser, w: World, which: nat, ok: bool, bytes: seq<byte>)
    requires which < |w.io.readOps|
    ensures var w' := OnHeaderDone(cfg, parser, w, which, ok, bytes);
            w'.log.started == w.log.started && w'.log.writeFailed == w.log.writeFailed
  {
  }

  /** After a failed write the session never writes again. */
  lemma {:induction false} FailedStaysSilent(cfg: Config, parser: HeaderParser, w: World, events: seq<Event>)
    requires Laws(cfg, w) && SingleWriter(w) && w.log.writeFailed && Possible(cfg, parser, w, events)
    ensures Run(cfg, parser, w, events).log.started == w.log.started
    decreases |events|
  {
    if events != [] {
      SilentStep(cfg, parser, w, events[0]);
      StepKeeps(cfg, parser, w, events[0]);
      FailedStaysSilent(cfg, parser, Step(cfg, parser, w, events[0]), events[1..]);
    }
  }

  // --- When the write loop returns ---

  /** One activation of the write routine starts over at the first payload. */
  ghost predicate Retries(cfg: Config, s: Session) {
    && s.responses == [] && WantsPayload(s)
    && s.nextPayloadIndex >= cfg.payloadCount && cfg.loopPayloads && !s.draining
  }

  ghost predicate RetriesTimes(cfg: Config, s: Session, k: nat)
    decreases k
  {
    k == 0 || (Retries(cfg, s) && RetriesTimes(cfg, s.(nextPayloadIndex := 0), k - 1))
  }

  /** The write routine starts over more than once, and then without end, exactly when it loops over no
      payloads. */
  lemma RetriesForever(cfg: Config, s: Session, k: nat)
    requires k >= 2
    ensures RetriesTimes(cfg, s, k) <==> Spins(cfg, s)
  {
    var again := s.(nextPayloadIndex := 0);
    if Retries(cfg, s) && cfg.payloadCount == 0 {
      RetriesWithout(cfg, s, k);
    } else {
      assert RetriesTimes(cfg, s, k) ==> RetriesTimes(cfg, again, k - 1);
      assert RetriesTimes(cfg, again, k - 1) ==> Retries(cfg, again);
    }
  }

  lemma {:induction false} RetriesWithout(cfg: Config, s: Session, k: nat)
    requires Retries(cfg, s) && cfg.payloadCount == 0
    ensures RetriesTimes(cfg, s, k)
    decreases k
  {
    if k > 0 {
      RetriesWithout(cfg, s.(nextPayloadIndex := 0), k - 1);
    }
  }

  /** A connected session with nothing under way that loops over no payloads: a flood, or a request for writes, never
      returns, and these are the only configurations in which that happens. */
  lemma FloodReturns(cfg: Config, w: World, count: nat, now: int)
    requires w.s.live && !w.s.connecting && !w.s.writing && !w.s.draining && w.s.responses == []
    requires !WantsPayload(w.s)
    ensures Enabled(cfg, w, FloodPosted(now)) <==> !(cfg.loopPayloads && cfg.payloadCount == 0)
    ensures count > 0 ==>
              (Enabled(cfg, w, SendPosted(count, now)) <==> !(cfg.loopPayloads && cfg.payloadCount == 0))
  {
  }

  /** A run to such a session: it connects, and then a flood would start the write routine over any number of
      times. */
  lemma FloodNeverReturns(cfg: Config, parser: HeaderParser, k: nat)
    requires cfg.loopPayloads && cfg.payloadCount == 0
    ensures var events := [StartPosted, ConnectDone(true, 0)];
            && Possible(cfg, parser, Initial(cfg), events)
            && var w := Run(cfg, parser, Initial(cfg), events);
               && Completes(cfg, w, FloodPosted(1)) && !Returns(cfg, w.s, FloodPosted(1))
               && RetriesTimes(cfg, w.s.(flood := true), k)
  {
    var events := [StartPosted, ConnectDone(true, 0)];
    var w1 := Step(cfg, parser, Initial(cfg), StartPosted);
    var w2 := Step(cfg, parser, w1, ConnectDone(true, 0));
    assert events[1..] == [ConnectDone(true, 0)] && events[1..][1..] == [];
    assert Run(cfg, parser, w2, []) == w2;
    assert Run(cfg, parser, w1, events[1..]) == Run(cfg, parser, w2, []);
    RetriesWithout(cfg, w2.s.(flood := true), k);
  }
}
