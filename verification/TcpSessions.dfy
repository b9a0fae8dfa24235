/** The TCP session as an object. Every method keeps the fields in step with `SessionMachine`: the body
    of a posted command or of a completion handler is a method whose effect is that machine's step. */
module TcpSessions {
  import opened Bytes
  import opened SessionMachine

  class TcpSession {
    const cfg: Config
    const parser: HeaderParser

    var live: bool
    var connecting: bool
    var flood: bool
    var draining: bool
    var writing: bool

    var responses: seq<seq<byte>>
    var nextPayloadIndex: nat
    var writesQueued: nat

    var writeSampleCounter: nat
    var writeStartTime: int

    var incomingHeader: seq<byte>
    var nextPayloadSize: nat

    /** Operations handed to the runtime. */
    var io: Outstanding

    /** What the session has done. */
    ghost var log: Record

    ghost function View(): World
      reads this
    {
      World(Session(live, connecting, flood, draining, writing, responses, nextPayloadIndex, writesQueued,
                    writeSampleCounter, writeStartTime, incomingHeader, nextPayloadSize), io, log)
    }

    constructor (cfg: Config, parser: HeaderParser)
      ensures this.cfg == cfg && this.parser == parser
      ensures View() == Initial(cfg)
    {
      this.cfg, this.parser := cfg, parser;
      live, connecting, flood, draining, writing := false, false, false, false, false;
      responses, nextPayloadIndex, writesQueued := [], 0, 0;
      writeSampleCounter, writeStartTime := cfg.sampleRate, 0;
      incomingHeader, nextPayloadSize := seq(cfg.headerSize, _ => 0), 0;
      io := Outstanding(0, [], [], 0);
      log := Record(0, 0, 0, [], [], [], [], false, [], 0, []);
    }

    // --- Writing ---

    method CloseSession()
      modifies this
      ensures View() == Close(old(View()))
    {
      if !live {
        return;
      }
      live := false;
      log := log.(disconnects := log.disconnects + 1);
    }

    /** Stamps the start of a write when a sample is due and hands it to the runtime. */
    method AsyncWrite(item: Item, now: int)
      modifies this
      ensures View() == Launch(cfg, old(View()), item, now)
    {
      writing := true;
      writeSampleCounter := writeSampleCounter + 1;
      if writeSampleCounter >= cfg.sampleRate {
        writeStartTime := now;
      }
      io := io.(writeOps := io.writeOps + [Write(item, now)]);
      log := log.(started := log.started + [Started(item, flood, draining, |responses|)]);
    }

    method StopWriting()
      modifies this
      ensures View() == var idle := old(View()).(s := old(View()).s.(writing := false));
                        if old(View()).s.draining then Close(idle) else idle
    {
      writing := false;
      if draining {
        CloseSession();
      }
    }

    method WriteResponse(now: int)
      requires responses != []
      modifies this
      ensures var item := Response(old(responses[0]));
              View() == Launch(cfg, old(View()).(s := Take(old(View()).s, item)), item, now)
    {
      var packet := responses[0];
      responses := responses[1..];
      AsyncWrite(Response(packet), now);
    }

    method WritePayload(now: int)
      requires WantsPayload(View().s)
      modifies this
      ensures var item := Payload(old(nextPayloadIndex));
              View() == Launch(cfg, old(View()).(s := Take(old(View()).s, item)), item, now)
    {
      if !flood {
        writesQueued := writesQueued - 1;
      }
      var index := nextPayloadIndex;
      nextPayloadIndex := nextPayloadIndex + 1;
      AsyncWrite(Payload(index), now);
    }

    /** Calls itself again at most once, from index 0, which needs a payload there. */
    method DoWrite(now: int)
      requires !Spins(cfg, View().s)
      modifies this
      ensures View() == SessionMachine.DoWrite(cfg, old(View()), now)
      decreases if nextPayloadIndex < cfg.payloadCount then 0 else 1
    {
      if |responses| > 0 {
        WriteResponse(now);
      } else if flood || writesQueued > 0 {
        var validPayload := nextPayloadIndex < cfg.payloadCount;
        if validPayload {
          WritePayload(now);
        } else if cfg.loopPayloads && !draining {
          nextPayloadIndex := 0;
          DoWrite(now);
        } else {
          StopWriting();
        }
      } else {
        StopWriting();
      }
    }

    method TryStartWrite(now: int)
      requires WriterReturns(cfg, View().s)
      modifies this
      ensures View() == SessionMachine.TryStartWrite(cfg, old(View()), now)
    {
      if writing {
        return;
      }
      if flood || writesQueued > 0 || |responses| > 0 {
        DoWrite(now);
      } else if draining {
        CloseSession();
      }
    }

    method OnWriteDone(which: nat, ok: bool, now: int)
      requires (ok ==> !Spins(cfg, View().s)) && which < |io.writeOps|
      modifies this
      ensures View() == SessionMachine.OnWriteDone(cfg, old(View()), which, ok, now)
    {
      var write := io.writeOps[which];
      io := io.(writeOps := Without(io.writeOps, which));
      if !ok {
        log := log.(writeFailed := true);
        CloseSession();
        return;
      }
      log := log.(finished := log.finished + [Finished(write.startedAt, now)]);
      if writeSampleCounter > cfg.sampleRate {
        log := log.(samples := log.samples + [Finished(writeStartTime, now)]);
        writeSampleCounter := 0;
      }
      assert View() == Sample(cfg, old(View()).(io := io), write, now);
      DoWrite(now);
    }

    // --- Reading ---

    method DoReadHeader()
      modifies this
      ensures View() == ReadHeader(old(View()))
    {
      io := io.(readOps := io.readOps + [HeaderRead]);
    }

    method RecordBytesRead(bytes: seq<byte>)
      modifies this
      ensures View() == Receive(old(View()), bytes)
    {
      log := log.(received := log.received + bytes, bytesRead := log.bytesRead + |bytes|);
    }

    method HandleMessage(body: seq<byte>)
      modifies this
      ensures View() == Deliver(old(View()), body)
    {
      io := io.(callbacks := io.callbacks + 1);
      log := log.(delivered := log.delivered + [Message(incomingHeader, body)]);
    }

    method DoReadBody()
      modifies this
      ensures View() == ReadBody(old(View()))
    {
      if nextPayloadSize == 0 {
        HandleMessage([]);
        return;
      }
      io := io.(readOps := io.readOps + [BodyRead(nextPayloadSize)]);
    }

    /** The header is in: its length decides between the next header, the body and closing. */
    method OnHeader(bytes: seq<byte>)
      modifies this
      ensures View() == SessionMachine.OnHeader(cfg, parser, old(View()), bytes)
    {
      incomingHeader := bytes;
      RecordBytesRead(bytes);
      var result := parser(bytes);
      if result.HeaderError? {
        nextPayloadSize := 0;
        DoReadHeader();
        return;
      }
      nextPayloadSize := result.length;
      if nextPayloadSize > cfg.bodyLimit {
        CloseSession();
        return;
      }
      DoReadBody();
    }

    method OnHeaderDone(which: nat, ok: bool, bytes: seq<byte>)
      requires which < |io.readOps|
      modifies this
      ensures View() == SessionMachine.OnHeaderDone(cfg, parser, old(View()), which, ok, bytes)
    {
      io := io.(readOps := Without(io.readOps, which));
      if !ok {
        CloseSession();
        return;
      }
      OnHeader(bytes);
    }

    method OnBodyDone(which: nat, ok: bool, bytes: seq<byte>)
      requires which < |io.readOps|
      modifies this
      ensures View() == SessionMachine.OnBodyDone(old(View()), which, ok, bytes)
    {
      io := io.(readOps := Without(io.readOps, which));
      if !ok {
        CloseSession();
        return;
      }
      RecordBytesRead(bytes);
      HandleMessage(bytes);
    }

    method OnAnswered(response: seq<byte>, now: int)
      requires io.callbacks > 0
      modifies this
      ensures View() == SessionMachine.OnAnswered(cfg, old(View()), response, now)
    {
      io := io.(callbacks := io.callbacks - 1);
      if |response| > 0 {
        responses := responses + [response];
        log := log.(accepted := log.accepted + [response]);
        TryStartWrite(now);
      }
      DoReadHeader();
    }

    // --- Connecting and commands ---

    method OnConnect(now: int)
      requires WriterReturns(cfg, View().s)
      modifies this
      ensures View() == SessionMachine.OnConnect(cfg, old(View()), now)
    {
      if cfg.readMessages {
        DoReadHeader();
      }
      if writing {
        return;
      }
      if flood || writesQueued > 0 {
        DoWrite(now);
      }
    }

    method Start()
      modifies this
      ensures View() == OnStart(old(View()))
    {
      live := true;
      connecting := true;
      io := io.(connects := io.connects + 1);
      log := log.(starts := log.starts + 1);
    }

    method OnConnectDone(ok: bool, now: int)
      requires (ok ==> WriterReturns(cfg, View().s)) && io.connects > 0
      modifies this
      ensures View() == SessionMachine.OnConnectDone(cfg, old(View()), ok, now)
    {
      io := io.(connects := io.connects - 1);
      connecting := false;
      if !ok {
        CloseSession();
        return;
      }
      OnConnect(now);
    }

    method Flood(now: int)
      requires Returns(cfg, View().s, FloodPosted(now))
      modifies this
      ensures View() == OnFlood(cfg, old(View()), now)
    {
      if flood || draining {
        return;
      }
      flood := true;
      if live && !connecting {
        TryStartWrite(now);
      }
    }

    method Send(count: nat, now: int)
      requires Returns(cfg, View().s, SendPosted(count, now))
      modifies this
      ensures View() == OnSend(cfg, old(View()), count, now)
    {
      writesQueued := writesQueued + count;
      log := log.(requested := log.requested + count);
      assert View() == Enqueue(old(View()), count);
      if live && !connecting {
        TryStartWrite(now);
      }
    }

    method Drain()
      modifies this
      ensures View() == OnDrain(old(View()))
    {
      draining := true;
      if !writing && writesQueued == 0 && |responses| == 0 {
        CloseSession();
      }
    }

    method Stop()
      modifies this
      ensures View() == Close(old(View()))
    {
      CloseSession();
    }

    // --- The strand ---

    /** One handler run on the session's strand. */
    method Handle(e: Event)
      requires Enabled(cfg, View(), e) && !e.UdpStart? && !e.Datagram?
      modifies this
      ensures View() == Step(cfg, parser, old(View()), e)
    {
      match e
      case StartPosted => Start();
      case FloodPosted(now) => Flood(now);
      case SendPosted(count, now) => Send(count, now);
      case DrainPosted => Drain();
      case StopPosted => Stop();
      case ConnectDone(ok, now) => OnConnectDone(ok, now);
      case WriteDone(which, ok, now) => OnWriteDone(which, ok, now);
      case HeaderDone(which, ok, bytes) => OnHeaderDone(which, ok, bytes);
      case BodyDone(which, ok, bytes) => OnBodyDone(which, ok, bytes);
      case Answered(response, now) => OnAnswered(response, now);
    }

    /** A run of the strand: its handlers in any possible order. */
    method HandleAll(events: seq<Event>)
      requires Possible(cfg, parser, View(), events)
      requires forall i :: 0 <= i < |events| ==> !events[i].UdpStart? && !events[i].Datagram?
      modifies this
      ensures View() == Run(cfg, parser, old(View()), events)
    {
      var rest := events;
      while rest != []
        invariant Possible(cfg, parser, View(), rest)
        invariant Run(cfg, parser, View(), rest) == Run(cfg, parser, old(View()), events)
        invariant forall i :: 0 <= i < |rest| ==> !rest[i].UdpStart? && !rest[i].Datagram?
      {
        Handle(rest[0]);
        rest := rest[1..];
      }
    }
  }
}
