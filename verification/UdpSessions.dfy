/** The UDP session as an object: the writer of the TCP session without a connecting phase, and a reader
    that takes whole datagrams. */
module UdpSessions {
  import opened Bytes
  import opened SessionMachine

  class UdpSession {
    const cfg: Config

    var live: bool
    var flood: bool
    var draining: bool
    var writing: bool

    var responses: seq<seq<byte>>
    var nextPayloadIndex: nat
    var writesQueued: nat

    var writeSampleCounter: nat
    var writeStartTime: int

    /** Operations handed to the runtime. */
    var io: Outstanding

    /** What the session has done. */
    ghost var log: Record

    /** The machine's fields for connecting and for stream reads keep their initial values. */
    ghost function View(): World
      reads this
    {
      World(Initial(cfg).s.(live := live, flood := flood, draining := draining, writing := writing,
                            responses := responses, nextPayloadIndex := nextPayloadIndex,
                            writesQueued := writesQueued, writeSampleCounter := writeSampleCounter,
                            writeStartTime := writeStartTime), io, log)
    }

    constructor (cfg: Config)
      ensures this.cfg == cfg
      ensures View() == Initial(cfg)
    {
      this.cfg := cfg;
      live, flood, draining, writing := false, false, false, false;
      responses, nextPayloadIndex, writesQueued := [], 0, 0;
      writeSampleCounter, writeStartTime := cfg.sampleRate, 0;
      io := Outstanding(0, [], [], 0);
      log := Record(0, 0, 0, [], [], [], [], false, [], 0, []);
    }

    // --- Writing ---

    method CloseSession()
      modifies this
      ensures View() == Close(old(View()))
    {
      if !live {
        return;
      }
      live := false;
      log := log.(disconnects := log.disconnects + 1);
    }

    /** Stamps the start of a write when a sample is due and hands it to the runtime. */
    method AsyncWrite(item: Item, now: int)
      modifies this
      ensures View() == Launch(cfg, old(View()), item, now)
    {
      writing := true;
      writeSampleCounter := writeSampleCounter + 1;
      if writeSampleCounter >= cfg.sampleRate {
        writeStartTime := now;
      }
      io := io.(writeOps := io.writeOps + [Write(item, now)]);
      log := log.(started := log.started + [Started(item, flood, draining, |responses|)]);
    }

    method StopWriting()
      modifies this
      ensures View() == var idle := old(View()).(s := old(View()).s.(writing := false));
                        if old(View()).s.draining then Close(idle) else idle
    {
      writing := false;
      if draining {
        CloseSession();
      }
    }

    method WriteResponse(now: int)
      requires responses != []
      modifies this
      ensures var item := Response(old(responses[0]));
              View() == Launch(cfg, old(View()).(s := Take(old(View()).s, item)), item, now)
    {
      var packet := responses[0];
      responses := responses[1..];
      AsyncWrite(Response(packet), now);
    }

    method WritePayload(now: int)
      requires WantsPayload(View().s)
      modifies this
      ensures var item := Payload(old(nextPayloadIndex));
              View() == Launch(cfg, old(View()).(s := Take(old(View()).s, item)), item, now)
    {
      if !flood {
        writesQueued := writesQueued - 1;
      }
      var index := nextPayloadIndex;
      nextPayloadIndex := nextPayloadIndex + 1;
      AsyncWrite(Payload(index), now);
    }

    /** Calls itself again at most once, from index 0, which needs a payload there. */
    method DoWrite(now: int)
      requires !Spins(cfg, View().s)
      modifies this
      ensures View() == SessionMachine.DoWrite(cfg, old(View()), now)
      decreases if nextPayloadIndex < cfg.payloadCount then 0 else 1
    {
      if |responses| > 0 {
        WriteResponse(now);
      } else if flood || writesQueued > 0 {
        var validPayload := nextPayloadIndex < cfg.payloadCount;
        if validPayload {
          WritePayload(now);
        } else if cfg.loopPayloads && !draining {
          nextPayloadIndex := 0;
          DoWrite(now);
        } else {
          StopWriting();
        }
      } else {
        StopWriting();
      }
    }

    method TryStartWrite(now: int)
      requires WriterReturns(cfg, View().s)
      modifies this
      ensures View() == SessionMachine.TryStartWrite(cfg, old(View()), now)
    {
      if writing {
        return;
      }
      if flood || writesQueued > 0 || |responses| > 0 {
        DoWrite(now);
      } else if draining {
        CloseSession();
      }
    }

    method OnWriteDone(which: nat, ok: bool, now: int)
      requires (ok ==> !Spins(cfg, View().s)) && which < |io.writeOps|
      modifies this
      ensures View() == SessionMachine.OnWriteDone(cfg, old(View()), which, ok, now)
    {
      var write := io.writeOps[which];
      io := io.(writeOps := Without(io.writeOps, which));
      if !ok {
        log := log.(writeFailed := true);
        CloseSession();
        return;
      }
      log := log.(finished := log.finished + [Finished(write.startedAt, now)]);
      if writeSampleCounter > cfg.sampleRate {
        log := log.(samples := log.samples + [Finished(writeStartTime, now)]);
        writeSampleCounter := 0;
      }
      assert View() == Sample(cfg, old(View()).(io := io), write, now);
      DoWrite(now);
    }

    // --- Reading ---

    method DoRead()
      modifies this
      ensures View() == ReadHeader(old(View()))
    {
      io := io.(readOps := io.readOps + [HeaderRead]);
    }

    method OnDatagram(which: nat, ok: bool, bytes: seq<byte>)
      requires which < |io.readOps|
      modifies this
      ensures View() == SessionMachine.OnDatagram(cfg, old(View()), which, ok, bytes)
    {
      io := io.(readOps := Without(io.readOps, which));
      if !ok {
        CloseSession();
        return;
      }
      log := log.(received := log.received + bytes, bytesRead := log.bytesRead + |bytes|);
      if |bytes| > cfg.bodyLimit {
        CloseSession();
        return;
      }
      io := io.(callbacks := io.callbacks + 1);
      log := log.(delivered := log.delivered + [Message([], bytes)]);
    }

    method OnAnswered(response: seq<byte>, now: int)
      requires io.callbacks > 0
      modifies this
      ensures View() == SessionMachine.OnAnswered(cfg, old(View()), response, now)
    {
      io := io.(callbacks := io.callbacks - 1);
      if |response| > 0 {
        responses := responses + [response];
        log := log.(accepted := log.accepted + [response]);
        TryStartWrite(now);
      }
      DoRead();
    }

    // --- Opening and commands ---

    method OnConnect(now: int)
      requires WriterReturns(cfg, View().s)
      modifies this
      ensures View() == SessionMachine.OnConnect(cfg, old(View()), now)
    {
      if cfg.readMessages {
        DoRead();
      }
      if writing {
        return;
      }
      if flood || writesQueued > 0 {
        DoWrite(now);
      }
    }

    /** `ok` tells whether the socket could be opened and connected. */
    method Start(ok: bool, now: int)
      requires ok ==> WriterReturns(cfg, View().s)
      modifies this
      ensures View() == OnUdpStart(cfg, old(View()), ok, now)
    {
      live := true;
      log := log.(starts := log.starts + 1);
      if !ok {
        CloseSession();
        return;
      }
      OnConnect(now);
    }

    method Flood(now: int)
      requires Returns(cfg, View().s, FloodPosted(now))
      modifies this
      ensures View() == OnFlood(cfg, old(View()), now)
    {
      if flood || draining {
        return;
      }
      flood := true;
      if live {
        TryStartWrite(now);
      }
    }

    method Send(count: nat, now: int)
      requires Returns(cfg, View().s, SendPosted(count, now))
      modifies this
      ensures View() == OnSend(cfg, old(View()), count, now)
    {
      writesQueued := writesQueued + count;
      log := log.(requested := log.requested + count);
      assert View() == Enqueue(old(View()), count);
      if live {
        TryStartWrite(now);
      }
    }

    method Drain()
      modifies this
      ensures View() == OnDrain(old(View()))
    {
      draining := true;
      if !writing && writesQueued == 0 && |responses| == 0 {
        CloseSession();
      }
    }

    method Stop()
      modifies this
      ensures View() == Close(old(View()))
    {
      CloseSession();
    }

    // --- The strand ---

    /** One handler run on the session's strand. */
    method Handle(parser: HeaderParser, e: Event)
      requires Enabled(cfg, View(), e) && !TcpOnly(e)
      modifies this
      ensures View() == Step(cfg, parser, old(View()), e)
    {
      match e
      case UdpStart(ok, now) => Start(ok, now);
      case FloodPosted(now) => Flood(now);
      case SendPosted(count, now) => Send(count, now);
      case DrainPosted => Drain();
      case StopPosted => Stop();
      case WriteDone(which, ok, now) => OnWriteDone(which, ok, now);
      case Datagram(which, ok, bytes) => OnDatagram(which, ok, bytes);
      case Answered(response, now) => OnAnswered(response, now);
    }

    /** A run of the strand: its handlers in any possible order. */
    method HandleAll(parser: HeaderParser, events: seq<Event>)
      requires Possible(cfg, parser, View(), events) && forall i :: 0 <= i < |events| ==> !TcpOnly(events[i])
      modifies this
      ensures View() == Run(cfg, parser, old(View()), events)
    {
      var rest := events;
      while rest != []
        invariant Possible(cfg, parser, View(), rest)
        invariant Run(cfg, parser, View(), rest) == Run(cfg, parser, old(View()), events)
        invariant forall i :: 0 <= i < |rest| ==> !TcpOnly(rest[i])
      {
        Handle(parser, rest[0]);
        rest := rest[1..];
      }
    }
  }

  predicate TcpOnly(e: Event) {
    e.StartPosted? || e.ConnectDone? || e.HeaderDone? || e.BodyDone?
  }

  /** A datagram cannot be longer than the limit it is checked against, because the buffer it was cut to
      is not: a datagram that arrives is always handed to the handler and never closes the session. */
  lemma OversizeNeverSeen(cfg: Config, w: World, which: nat, bytes: seq<byte>)
    requires Enabled(cfg, w, Datagram(which, true, bytes))
    ensures var w' := OnDatagram(cfg, w, which, true, bytes);
      w'.s == w.s && w'.log.delivered == w.log.delivered + [Message([], bytes)] && w'.io.callbacks == w.io.callbacks + 1
  {
    assert |bytes| <= cfg.bodyLimit;
  }
}
