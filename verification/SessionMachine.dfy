/** The session protocol as steps over values: what every posted command and every completion does
    to a session, to its outstanding operations and to the record of what it has done.

    The UDP session runs the same steps; see `UdpStart` and `Datagram`. */
module SessionMachine {
  import opened Bytes
  import opened Scripts

  datatype Config = Config(
    headerSize: nat,
    bodyLimit: nat,
    readMessages: bool,
    loopPayloads: bool,
    sampleRate: nat,
    payloadCount: nat)

  datatype HeaderResult = HeaderOk(length: nat) | HeaderError

  /** The user's header parser. */
  type HeaderParser = seq<byte> -> HeaderResult

  datatype Message = Message(header: seq<byte>, body: seq<byte>)

  datatype Item = Response(bytes: seq<byte>) | Payload(index: nat)

  /** The fields of a session. */
  datatype Session = Session(
    live: bool, connecting: bool, flood: bool, draining: bool, writing: bool,
    responses: seq<seq<byte>>,
    nextPayloadIndex: nat,
    writesQueued: nat,
    writeSampleCounter: nat,
    writeStartTime: int,
    incomingHeader: seq<byte>,
    nextPayloadSize: nat)

  datatype Read = HeaderRead | BodyRead(size: nat)

  datatype Write = Write(item: Item, startedAt: int)

  /** Operations handed to the runtime that have not completed. */
  datatype Outstanding = Outstanding(connects: nat, writeOps: seq<Write>, readOps: seq<Read>, callbacks: nat)

  /** A started write, with the session's state when it started. */
  datatype Started = Started(item: Item, flooding: bool, draining: bool, waiting: nat)

  datatype Finished = Finished(startedAt: int, endedAt: int)

  /** What has happened so far. */
  datatype Record = Record(
    starts: nat, disconnects: nat,
    requested: nat,
    accepted: seq<seq<byte>>,
    started: seq<Started>,
    finished: seq<Finished>,
    samples: seq<Finished>,
    writeFailed: bool,
    received: seq<byte>,
    bytesRead: nat,
    delivered: seq<Message>)

  datatype World = World(s: Session, io: Outstanding, log: Record)

  datatype Event =
    | StartPosted
    | UdpStart(ok: bool, now: int)
    | FloodPosted(now: int)
    | SendPosted(count: nat, now: int)
    | DrainPosted
    | StopPosted
    | ConnectDone(ok: bool, now: int)
    | WriteDone(which: nat, ok: bool, now: int)
    | HeaderDone(which: nat, ok: bool, bytes: seq<byte>)
    | BodyDone(which: nat, ok: bool, bytes: seq<byte>)
    | Datagram(which: nat, ok: bool, bytes: seq<byte>)
    | Answered(response: seq<byte>, now: int)

  function Initial(cfg: Config): World {
    World(Session(false, false, false, false, false, [], 0, 0, cfg.sampleRate, 0, seq(cfg.headerSize, _ => 0), 0),
          Outstanding(0, [], [], 0),
          Record(0, 0, 0, [], [], [], [], false, [], 0, []))
  }

  // --- Writing ---

  function Close(w: World): World {
    if !w.s.live then w
    else w.(s := w.s.(live := false), log := w.log.(disconnects := w.log.disconnects + 1))
  }

  predicate WantsPayload(s: Session) {
    s.flood || s.writesQueued > 0
  }

  /** The payload index a write would use: past the last payload the list is begun again only when
      looping and not draining. */
  function NextPayload(cfg: Config, s: Session): Option<nat> {
    if s.nextPayloadIndex < cfg.payloadCount then Some(s.nextPayloadIndex)
    else if cfg.loopPayloads && !s.draining then Some(0)
    else None
  }

  /** What a session writes next: queued responses in order, then payloads. */
  function NextItem(cfg: Config, s: Session): Option<Item> {
    if s.responses != [] then Some(Response(s.responses[0]))
    else if !WantsPayload(s) then None
    else
      match NextPayload(cfg, s)
      case None => None
      case Some(i) => Some(Payload(i))
  }

  /** Takes an item off the session's queues. */
  function Take(s: Session, item: Item): Session
    requires item.Response? ==> s.responses != []
    requires item.Payload? ==> WantsPayload(s)
  {
    match item
    case Response(_) => s.(responses := s.responses[1..])
    case Payload(i) =>
      s.(nextPayloadIndex := i + 1, writesQueued := if s.flood then s.writesQueued else s.writesQueued - 1)
  }

  /** Hands a write to the runtime and stamps its start when a sample is due. */
  function Launch(cfg: Config, w: World, item: Item, now: int): World {
    var count := w.s.writeSampleCounter + 1;
    var stamp := if count >= cfg.sampleRate then now else w.s.writeStartTime;
    w.(s := w.s.(writing := true, writeSampleCounter := count, writeStartTime := stamp),
       io := w.io.(writeOps := w.io.writeOps + [Write(item, now)]),
       log := w.log.(started := w.log.started + [Started(item, w.s.flood, w.s.draining, |w.s.responses|)]))
  }

  /** Starts the next write; with nothing to write the session goes idle, and closes if draining. */
  function DoWrite(cfg: Config, w: World, now: int): World {
    match NextItem(cfg, w.s)
    case Some(item) => Launch(cfg, w.(s := Take(w.s, item)), item, now)
    case None =>
      var idle := w.(s := w.s.(writing := false));
      if w.s.draining then Close(idle) else idle
  }

  function TryStartWrite(cfg: Config, w: World, now: int): World {
    if w.s.writing then w
    else if WantsPayload(w.s) || w.s.responses != [] then DoWrite(cfg, w, now)
    else if w.s.draining then Close(w)
    else w
  }

  /** Records a successful write and, when due, its latency sample. */
  function Sample(cfg: Config, w: World, write: Write, now: int): World {
    var w1 := w.(log := w.log.(finished := w.log.finished + [Finished(write.startedAt, now)]));
    if w.s.writeSampleCounter > cfg.sampleRate then
      w1.(s := w1.s.(writeSampleCounter := 0),
          log := w1.log.(samples := w1.log.samples + [Finished(w.s.writeStartTime, now)]))
    else w1
  }

  // --- Reading ---

  function ReadHeader(w: World): World {
    w.(io := w.io.(readOps := w.io.readOps + [HeaderRead]))
  }

  /** Hands a message to the handler, which answers once. */
  function Deliver(w: World, body: seq<byte>): World {
    w.(io := w.io.(callbacks := w.io.callbacks + 1),
       log := w.log.(delivered := w.log.delivered + [Message(w.s.incomingHeader, body)]))
  }

  function ReadBody(w: World): World {
    if w.s.nextPayloadSize == 0 then Deliver(w, [])
    else w.(io := w.io.(readOps := w.io.readOps + [BodyRead(w.s.nextPayloadSize)]))
  }

  function Receive(w: World, bytes: seq<byte>): World {
    w.(log := w.log.(received := w.log.received + bytes, bytesRead := w.log.bytesRead + |bytes|))
  }

  function OnHeader(cfg: Config, parser: HeaderParser, w: World, bytes: seq<byte>): World {
    var w1 := Receive(w.(s := w.s.(incomingHeader := bytes)), bytes);
    match parser(bytes)
    case HeaderError => ReadHeader(w1.(s := w1.s.(nextPayloadSize := 0)))
    case HeaderOk(length) =>
      var w2 := w1.(s := w1.s.(nextPayloadSize := length));
      if length > cfg.bodyLimit then Close(w2) else ReadBody(w2)
  }

  // --- Handlers ---

  function OnConnect(cfg: Config, w: World, now: int): World {
    var w1 := if cfg.readMessages then ReadHeader(w) else w;
    if !w1.s.writing && WantsPayload(w1.s) then DoWrite(cfg, w1, now) else w1
  }

  function OnStart(w: World): World {
    w.(s := w.s.(live := true, connecting := true), io := w.io.(connects := w.io.connects + 1),
       log := w.log.(starts := w.log.starts + 1))
  }

  function OnConnectDone(cfg: Config, w: World, ok: bool, now: int): World
    requires w.io.connects > 0
  {
    var w1 := w.(s := w.s.(connecting := false), io := w.io.(connects := w.io.connects - 1));
    if ok then OnConnect(cfg, w1, now) else Close(w1)
  }

  /** A UDP session that has begun to start. */
  function Begun(w: World): World {
    w.(s := w.s.(live := true), log := w.log.(starts := w.log.starts + 1))
  }

  /** A UDP session opens its socket while starting. */
  function OnUdpStart(cfg: Config, w: World, ok: bool, now: int): World {
    if ok then OnConnect(cfg, Begun(w), now) else Close(Begun(w))
  }

  function WhenConnected(cfg: Config, w: World, now: int): World {
    if w.s.live && !w.s.connecting then TryStartWrite(cfg, w, now) else w
  }

  function OnFlood(cfg: Config, w: World, now: int): World {
    if w.s.flood || w.s.draining then w else WhenConnected(cfg, w.(s := w.s.(flood := true)), now)
  }

  function Enqueue(w: World, count: nat): World {
    w.(s := w.s.(writesQueued := w.s.writesQueued + count), log := w.log.(requested := w.log.requested + count))
  }

  function OnSend(cfg: Config, w: World, count: nat, now: int): World {
    WhenConnected(cfg, Enqueue(w, count), now)
  }

  function OnDrain(w: World): World {
    var w1 := w.(s := w.s.(draining := true));
    if !w.s.writing && w.s.writesQueued == 0 && w.s.responses == [] then Close(w1) else w1
  }

  function Without<T>(s: seq<T>, i: nat): seq<T>
    requires i < |s|
  {
    s[..i] + s[i + 1..]
  }

  function OnWriteDone(cfg: Config, w: World, which: nat, ok: bool, now: int): World
    requires which < |w.io.writeOps|
  {
    var w1 := w.(io := w.io.(writeOps := Without(w.io.writeOps, which)));
    if ok then DoWrite(cfg, Sample(cfg, w1, w.io.writeOps[which], now), now)
    else Close(w1.(log := w1.log.(writeFailed := true)))
  }

  function OnHeaderDone(cfg: Config, parser: HeaderParser, w: World, which: nat, ok: bool, bytes: seq<byte>): World
    requires which < |w.io.readOps|
  {
    var w1 := w.(io := w.io.(readOps := Without(w.io.readOps, which)));
    if ok then OnHeader(cfg, parser, w1, bytes) else Close(w1)
  }

  function OnBodyDone(w: World, which: nat, ok: bool, bytes: seq<byte>): World
    requires which < |w.io.readOps|
  {
    var w1 := w.(io := w.io.(readOps := Without(w.io.readOps, which)));
    if ok then Deliver(Receive(w1, bytes), bytes) else Close(w1)
  }

  /** The size of the buffer a UDP session receives into; a longer datagram is cut to it. */
  function PacketBuffer(cfg: Config): nat {
    if cfg.bodyLimit < 65535 - 8 then cfg.bodyLimit else 65535 - 8
  }

  /** A UDP read is one whole message without a header. */
  function OnDatagram(cfg: Config, w: World, which: nat, ok: bool, bytes: seq<byte>): World
    requires which < |w.io.readOps|
  {
    var w1 := w.(io := w.io.(readOps := Without(w.io.readOps, which)));
    if !ok then Close(w1)
    else
      var w2 := Receive(w1, bytes);
      if |bytes| > cfg.bodyLimit then Close(w2)
      else w2.(io := w2.io.(callbacks := w2.io.callbacks + 1),
               log := w2.log.(delivered := w2.log.delivered + [Message([], bytes)]))
  }

  /** The handler's answer arrives: queue it unless empty, then read the next header. */
  function OnAnswered(cfg: Config, w: World, response: seq<byte>, now: int): World
    requires w.io.callbacks > 0
  {
    var w1 := w.(io := w.io.(callbacks := w.io.callbacks - 1));
    var w2 :=
      if response == [] then w1
      else TryStartWrite(cfg, w1.(s := w1.s.(responses := w1.s.responses + [response]),
                                  log := w1.log.(accepted := w1.log.accepted + [response])), now);
    ReadHeader(w2)
  }

  // --- Steps and runs ---

  /** The write routine would start over without end; see `SessionLaws.RetriesForever`. */
  predicate Spins(cfg: Config, s: Session) {
    cfg.loopPayloads && cfg.payloadCount == 0 && s.responses == [] && WantsPayload(s) && !s.draining
  }

  predicate WriterReturns(cfg: Config, s: Session) {
    s.writing || !Spins(cfg, s)
  }

  /** The handler comes to its end: it does not reach the write routine where that would start over for ever. */
  predicate Returns(cfg: Config, s: Session, e: Event) {
    match e
    case UdpStart(ok, _) => ok ==> WriterReturns(cfg, s)
    case ConnectDone(ok, _) => ok ==> WriterReturns(cfg, s)
    case FloodPosted(_) => s.flood || s.draining || !s.live || s.connecting || WriterReturns(cfg, s.(flood := true))
    case SendPosted(count, _) =>
      !s.live || s.connecting || WriterReturns(cfg, s.(writesQueued := s.writesQueued + count))
    case WriteDone(_, ok, _) => ok ==> !Spins(cfg, s)
    case _ => true
  }

  /** Completions need their operation outstanding; a completed stream read has read exactly what was asked,
      a datagram at most what the buffer holds. */
  predicate Completes(cfg: Config, w: World, e: Event) {
    match e
    case ConnectDone(_, _) => w.io.connects > 0
    case WriteDone(which, _, _) => which < |w.io.writeOps|
    case HeaderDone(which, ok, bytes) =>
      which < |w.io.readOps| && w.io.readOps[which] == HeaderRead && (ok ==> |bytes| == cfg.headerSize)
    case BodyDone(which, ok, bytes) =>
      which < |w.io.readOps| && w.io.readOps[which].BodyRead? && (ok ==> |bytes| == w.io.readOps[which].size)
    case Datagram(which, ok, bytes) =>
      which < |w.io.readOps| && w.io.readOps[which] == HeaderRead && (ok ==> |bytes| <= PacketBuffer(cfg))
    case Answered(_, _) => w.io.callbacks > 0
    case _ => true
  }

  predicate Enabled(cfg: Config, w: World, e: Event) {
    Completes(cfg, w, e) && Returns(cfg, w.s, e)
  }

  function Step(cfg: Config, parser: HeaderParser, w: World, e: Event): World
    requires Enabled(cfg, w, e)
  {
    match e
    case StartPosted => OnStart(w)
    case UdpStart(ok, now) => OnUdpStart(cfg, w, ok, now)
    case FloodPosted(now) => OnFlood(cfg, w, now)
    case SendPosted(count, now) => OnSend(cfg, w, count, now)
    case DrainPosted => OnDrain(w)
    case StopPosted => Close(w)
    case ConnectDone(ok, now) => OnConnectDone(cfg, w, ok, now)
    case WriteDone(which, ok, now) => OnWriteDone(cfg, w, which, ok, now)
    case HeaderDone(which, ok, bytes) => OnHeaderDone(cfg, parser, w, which, ok, bytes)
    case BodyDone(which, ok, bytes) => OnBodyDone(w, which, ok, bytes)
    case Datagram(which, ok, bytes) => OnDatagram(cfg, w, which, ok, bytes)
    case Answered(response, now) => OnAnswered(cfg, w, response, now)
  }

  /** `events` is a possible run from `w`. */
  ghost predicate Possible(cfg: Config, parser: HeaderParser, w: World, events: seq<Event>)
    decreases |events|
  {
    events == [] || (Enabled(cfg, w, events[0]) && Possible(cfg, parser, Step(cfg, parser, w, events[0]), events[1..]))
  }

  ghost function Run(cfg: Config, parser: HeaderParser, w: World, events: seq<Event>): World
    requires Possible(cfg, parser, w, events)
    decreases |events|
  {
    if events == [] then w else Run(cfg, parser, Step(cfg, parser, w, events[0]), events[1..])
  }
}
