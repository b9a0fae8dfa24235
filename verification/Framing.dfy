/** The read loop of a TCP session delivers exactly the frames of the bytes it has received. */
module Framing {
  import opened Bytes
  import opened SessionMachine
  import opened DrainLaws

  // --- The frames of a byte stream ---

  datatype Position = AtHeader | AtBody(header: seq<byte>, size: nat) | Stopped

  datatype Parsed = Parsed(messages: seq<Message>, position: Position, rest: seq<byte>)

  /** Splits a stream: a header of fixed size whose parser names the length of the body that follows.
      A header the parser rejects is dropped alone, an empty body makes a message by itself, and a body
      above the limit ends the stream. `rest` are the bytes of a piece not yet complete. */
  ghost function Split(cfg: Config, parser: HeaderParser, at: Position, stream: seq<byte>): Parsed
    requires cfg.headerSize > 0 && (at.AtBody? ==> at.size > 0)
    decreases |stream|
  {
    match at
    case Stopped => Parsed([], Stopped, stream)
    case AtHeader =>
      if |stream| < cfg.headerSize then Parsed([], AtHeader, stream)
      else
        var header, more := stream[..cfg.headerSize], stream[cfg.headerSize..];
        (match parser(header)
         case HeaderError => Split(cfg, parser, AtHeader, more)
         case HeaderOk(length) =>
           if length > cfg.bodyLimit then Parsed([], Stopped, more)
           else if length == 0 then After(Message(header, []), Split(cfg, parser, AtHeader, more))
           else Split(cfg, parser, AtBody(header, length), more))
    case AtBody(header, size) =>
      if |stream| < size then Parsed([], at, stream)
      else After(Message(header, stream[..size]), Split(cfg, parser, AtHeader, stream[size..]))
  }

  ghost function After(m: Message, p: Parsed): Parsed {
    p.(messages := [m] + p.messages)
  }

  ghost function Behind(ms: seq<Message>, p: Parsed): Parsed {
    p.(messages := ms + p.messages)
  }

  /** Bytes that complete the pieces they belong to can be split off the front. */
  lemma SplitAppend(cfg: Config, parser: HeaderParser, at: Position, a: seq<byte>, b: seq<byte>)
    requires cfg.headerSize > 0 && (at.AtBody? ==> at.size > 0)
    requires Split(cfg, parser, at, a).rest == []
    ensures var p := Split(cfg, parser, at, a);
            && (p.position.AtBody? ==> p.position.size > 0)
            && Split(cfg, parser, at, a + b) == Behind(p.messages, Split(cfg, parser, p.position, b))
    decreases |a|
  {
    if a == [] {
      assert a + b == b;
      SplitEmpty(cfg, parser, at);
      assert [] + Split(cfg, parser, at, b).messages == Split(cfg, parser, at, b).messages;
    } else {
      match at
      case Stopped => assert false;
      case AtHeader => SplitAppendHeader(cfg, parser, a, b);
      case AtBody(header, size) => SplitAppendBody(cfg, parser, header, size, a, b);
    }
  }

  lemma SplitEmpty(cfg: Config, parser: HeaderParser, at: Position)
    requires cfg.headerSize > 0 && (at.AtBody? ==> at.size > 0)
    ensures Split(cfg, parser, at, []) == Parsed([], at, [])
  {
  }

  lemma {:induction false} SplitAppendHeader(cfg: Config, parser: HeaderParser, a: seq<byte>, b: seq<byte>)
    requires cfg.headerSize > 0 && a != [] && Split(cfg, parser, AtHeader, a).rest == []
    ensures var p := Split(cfg, parser, AtHeader, a);
            && (p.position.AtBody? ==> p.position.size > 0)
            && Split(cfg, parser, AtHeader, a + b) == Behind(p.messages, Split(cfg, parser, p.position, b))
    decreases |a|, 0
  {
    var n := cfg.headerSize;
    assert |a| >= n;
    var header, more := a[..n], a[n..];
    assert (a + b)[..n] == header && (a + b)[n..] == more + b;
    match parser(header)
    case HeaderError => SplitAppend(cfg, parser, AtHeader, more, b);
    case HeaderOk(length) =>
      if length > cfg.bodyLimit {
        assert more + b == b;
        var p := Split(cfg, parser, AtHeader, a);
        assert p == Parsed([], Stopped, []);
        assert Split(cfg, parser, AtHeader, a + b) == Parsed([], Stopped, b);
        assert [] + Split(cfg, parser, Stopped, b).messages == [];
      } else if length == 0 {
        SplitAppend(cfg, parser, AtHeader, more, b);
        BehindAfter(Message(header, []), Split(cfg, parser, AtHeader, more).messages,
                    Split(cfg, parser, Split(cfg, parser, AtHeader, more).position, b));
      } else {
        SplitAppend(cfg, parser, AtBody(header, length), more, b);
      }
  }

  lemma {:induction false} SplitAppendBody(cfg: Config, parser: HeaderParser, header: seq<byte>, size: nat,
                                           a: seq<byte>, b: seq<byte>)
    requires cfg.headerSize > 0 && size > 0 && a != [] && Split(cfg, parser, AtBody(header, size), a).rest == []
    ensures var p := Split(cfg, parser, AtBody(header, size), a);
            && (p.position.AtBody? ==> p.position.size > 0)
            && Split(cfg, parser, AtBody(header, size), a + b) == Behind(p.messages, Split(cfg, parser, p.position, b))
    decreases |a|, 0
  {
    assert |a| >= size;
    var more := a[size..];
    assert (a + b)[..size] == a[..size] && (a + b)[size..] == more + b;
    SplitAppend(cfg, parser, AtHeader, more, b);
    BehindAfter(Message(header, a[..size]), Split(cfg, parser, AtHeader, more).messages,
                Split(cfg, parser, Split(cfg, parser, AtHeader, more).position, b));
  }

  lemma BehindAfter(m: Message, ms: seq<Message>, p: Parsed)
    ensures After(m, Behind(ms, p)) == Behind([m] + ms, p)
  {
    assert [m] + (ms + p.messages) == [m] + ms + p.messages;
  }

  // --- The read loop ---

  /** At most one of a connect, a read and an unanswered message is pending, and exactly one while a session
      that reads is live. */
  ghost predicate OneReader(cfg: Config, w: World) {
    && w.io.connects + |w.io.readOps| + w.io.callbacks <= 1
    && (w.s.live && cfg.readMessages ==> w.io.connects + |w.io.readOps| + w.io.callbacks == 1)
    && (!cfg.readMessages ==> w.io.readOps == [] && w.io.callbacks == 0)
    && (w.io.connects > 0 ==> w.log.received == [] && w.log.delivered == [] && w.log.starts == 1)
  }

  ghost predicate Framed(cfg: Config, parser: HeaderParser, w: World)
    requires cfg.headerSize > 0
  {
    var p := Split(cfg, parser, AtHeader, w.log.received);
    && p.messages == w.log.delivered && p.rest == []
    && w.log.bytesRead == |w.log.received|
    && (p.position.Stopped? ==> !w.s.live)
    && (w.io.callbacks > 0 || w.io.readOps == [HeaderRead] ==> p.position == AtHeader)
    && (|w.io.readOps| == 1 && w.io.readOps[0].BodyRead? ==>
          w.io.readOps[0].size > 0 && p.position == AtBody(w.s.incomingHeader, w.io.readOps[0].size))
  }

  ghost predicate TcpEvent(e: Event) {
    !e.UdpStart? && !e.Datagram?
  }

  ghost predicate TcpEvents(events: seq<Event>) {
    events == [] || (TcpEvent(events[0]) && TcpEvents(events[1..]))
  }

  /** Handlers that leave the reader alone. */
  ghost predicate SameReader(v: World, w: World) {
    && v.io.connects == w.io.connects && v.io.readOps == w.io.readOps && v.io.callbacks == w.io.callbacks
    && v.s.incomingHeader == w.s.incomingHeader && (w.s.live ==> v.s.live)
    && v.log.received == w.log.received && v.log.bytesRead == w.log.bytesRead
    && v.log.delivered == w.log.delivered && v.log.starts == w.log.starts
  }

  lemma WriterSameReader(cfg: Config, w: World, now: int)
    ensures SameReader(w, DoWrite(cfg, w, now)) && SameReader(w, TryStartWrite(cfg, w, now))
  {
  }

  lemma CommandSameReader(cfg: Config, parser: HeaderParser, w: World, e: Event)
    requires Enabled(cfg, w, e)
    requires e.FloodPosted? || e.SendPosted? || e.DrainPosted? || e.StopPosted? || e.WriteDone?
    ensures SameReader(w, Step(cfg, parser, w, e))
  {
    match e
    case FloodPosted(now) => WriterSameReader(cfg, w.(s := w.s.(flood := true)), now);
    case SendPosted(count, now) => WriterSameReader(cfg, Enqueue(w, count), now);
    case WriteDone(which, ok, now) =>
      var w1 := w.(io := w.io.(writeOps := Without(w.io.writeOps, which)));
      WriterSameReader(cfg, Sample(cfg, w1, w.io.writeOps[which], now), now);
    case _ =>
  }

  lemma ConnectFrames(cfg: Config, parser: HeaderParser, w: World, ok: bool, now: int)
    requires cfg.headerSize > 0 && OneReader(cfg, w) && Framed(cfg, parser, w) && w.io.connects > 0
    ensures var w' := OnConnectDone(cfg, w, ok, now); OneReader(cfg, w') && Framed(cfg, parser, w')
  {
    var w1 := w.(s := w.s.(connecting := false), io := w.io.(connects := w.io.connects - 1));
    SplitEmpty(cfg, parser, AtHeader);
    if ok {
      WriterSameReader(cfg, if cfg.readMessages then ReadHeader(w1) else w1, now);
    }
  }

  lemma AnsweredFrames(cfg: Config, parser: HeaderParser, w: World, response: seq<byte>, now: int)
    requires cfg.headerSize > 0 && OneReader(cfg, w) && Framed(cfg, parser, w) && w.io.callbacks > 0
    ensures var w' := OnAnswered(cfg, w, response, now); OneReader(cfg, w') && Framed(cfg, parser, w')
  {
    var w1 := w.(io := w.io.(callbacks := w.io.callbacks - 1));
    var w2 := w1.(s := w1.s.(responses := w1.s.responses + [response]),
                  log := w1.log.(accepted := w1.log.accepted + [response]));
    WriterSameReader(cfg, w2, now);
  }

  lemma HeaderFrames(cfg: Config, parser: HeaderParser, w: World, which: nat, ok: bool, bytes: seq<byte>)
    requires cfg.headerSize > 0 && OneReader(cfg, w) && Framed(cfg, parser, w)
    requires Enabled(cfg, w, HeaderDone(which, ok, bytes))
    ensures var w' := OnHeaderDone(cfg, parser, w, which, ok, bytes); OneReader(cfg, w') && Framed(cfg, parser, w')
  {
    assert w.io.readOps == [HeaderRead] && Without(w.io.readOps, which) == [];
    if ok {
      SplitAppend(cfg, parser, AtHeader, w.log.received, bytes);
      OneHeader(cfg, parser, bytes);
    }
  }

  /** What a complete header by itself splits into. */
  lemma OneHeader(cfg: Config, parser: HeaderParser, bytes: seq<byte>)
    requires cfg.headerSize > 0 && |bytes| == cfg.headerSize
    ensures Split(cfg, parser, AtHeader, bytes) ==
            match parser(bytes)
            case HeaderError => Parsed([], AtHeader, [])
            case HeaderOk(length) =>
              if length > cfg.bodyLimit then Parsed([], Stopped, [])
              else if length == 0 then Parsed([Message(bytes, [])], AtHeader, [])
              else Parsed([], AtBody(bytes, length), [])
  {
    assert bytes[..cfg.headerSize] == bytes && bytes[cfg.headerSize..] == [];
    SplitEmpty(cfg, parser, AtHeader);
  }

  lemma BodyFrames(cfg: Config, parser: HeaderParser, w: World, which: nat, ok: bool, bytes: seq<byte>)
    requires cfg.headerSize > 0 && OneReader(cfg, w) && Framed(cfg, parser, w)
    requires Enabled(cfg, w, BodyDone(which, ok, bytes))
    ensures var w' := OnBodyDone(w, which, ok, bytes); OneReader(cfg, w') && Framed(cfg, parser, w')
  {
    assert Without(w.io.readOps, which) == [];
    if ok {
      SplitAppend(cfg, parser, AtHeader, w.log.received, bytes);
      assert bytes[..|bytes|] == bytes && bytes[|bytes|..] == [];
      SplitEmpty(cfg, parser, AtHeader);
      assert Split(cfg, parser, AtBody(w.s.incomingHeader, |bytes|), bytes)
          == Parsed([Message(w.s.incomingHeader, bytes)], AtHeader, []);
    }
  }

  lemma StepFrames(cfg: Config, parser: HeaderParser, w: World, e: Event)
    requires cfg.headerSize > 0 && OneReader(cfg, w) && Framed(cfg, parser, w)
    requires Enabled(cfg, w, e) && TcpEvent(e) && !IsStart(e)
    ensures OneReader(cfg, Step(cfg, parser, w, e)) && Framed(cfg, parser, Step(cfg, parser, w, e))
  {
    match e
    case ConnectDone(ok, now) => ConnectFrames(cfg, parser, w, ok, now);
    case HeaderDone(which, ok, bytes) => HeaderFrames(cfg, parser, w, which, ok, bytes);
    case BodyDone(which, ok, bytes) => BodyFrames(cfg, parser, w, which, ok, bytes);
    case Answered(response, now) => AnsweredFrames(cfg, parser, w, response, now);
    case _ => CommandSameReader(cfg, parser, w, e);
  }

  lemma {:induction false} RunFrames(cfg: Config, parser: HeaderParser, w: World, events: seq<Event>)
    requires cfg.headerSize > 0 && OneReader(cfg, w) && Framed(cfg, parser, w)
    requires NoStarts(events) && TcpEvents(events) && Possible(cfg, parser, w, events)
    ensures OneReader(cfg, Run(cfg, parser, w, events)) && Framed(cfg, parser, Run(cfg, parser, w, events))
    decreases |events|
  {
    if events != [] {
      StepFrames(cfg, parser, w, events[0]);
      RunFrames(cfg, parser, Step(cfg, parser, w, events[0]), events[1..]);
    }
  }

  /** In every run of a TCP session started once, the messages handed to the handler are exactly the
      frames of the bytes received, which are the bytes counted; a frame over the limit has closed the session;
      at most one read or message is pending, and exactly one while a connected session that reads is live. */
  lemma DeliversFrames(cfg: Config, parser: HeaderParser, events: seq<Event>)
    requires cfg.headerSize > 0 && StartedOnce(events) && TcpEvents(events)
    requires Possible(cfg, parser, Initial(cfg), events)
    ensures var w := Run(cfg, parser, Initial(cfg), events);
            && w.log.delivered == Split(cfg, parser, AtHeader, w.log.received).messages
            && Split(cfg, parser, AtHeader, w.log.received).rest == []
            && w.log.bytesRead == |w.log.received|
            && |w.io.readOps| + w.io.callbacks <= 1
            && (w.s.live && cfg.readMessages && w.io.connects == 0 ==> |w.io.readOps| + w.io.callbacks == 1)
            && (Split(cfg, parser, AtHeader, w.log.received).position.Stopped? ==> !w.s.live)
  {
    var w1 := Step(cfg, parser, Initial(cfg), events[0]);
    SplitEmpty(cfg, parser, AtHeader);
    assert OneReader(cfg, w1) && Framed(cfg, parser, w1);
    RunFrames(cfg, parser, w1, events[1..]);
  }
}
