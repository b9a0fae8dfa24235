/** The read loop of a UDP session delivers exactly the datagrams that arrive. */
module DatagramLaws {
  import opened Bytes
  import opened SessionMachine
  import opened DrainLaws
  import opened Framing
  import opened UdpSessions

  /** The datagrams that arrive in a run, in order. */
  ghost function Arrived(events: seq<Event>): seq<seq<byte>> {
    if events == [] then []
    else ArrivedWith(events[0]) + Arrived(events[1..])
  }

  ghost function ArrivedWith(e: Event): seq<seq<byte>> {
    if e.Datagram? && e.ok then [e.bytes] else []
  }

  ghost function AsMessages(datagrams: seq<seq<byte>>): seq<Message> {
    seq(|datagrams|, i requires 0 <= i < |datagrams| => Message([], datagrams[i]))
  }

  ghost function Joined(datagrams: seq<seq<byte>>): seq<byte> {
    if datagrams == [] then [] else datagrams[0] + Joined(datagrams[1..])
  }

  ghost predicate UdpEvents(events: seq<Event>) {
    events == [] || (!TcpOnly(events[0]) && UdpEvents(events[1..]))
  }

  /** At most one of a read and an unanswered message is pending, and exactly one while a session that reads is
      live. */
  ghost predicate OneDatagram(cfg: Config, w: World) {
    && w.io.connects == 0 && |w.io.readOps| + w.io.callbacks <= 1
    && (w.s.live && cfg.readMessages ==> |w.io.readOps| + w.io.callbacks == 1)
    && (!cfg.readMessages ==> w.io.readOps == [] && w.io.callbacks == 0)
  }

  /** What a run adds: the datagrams that arrived in it. */
  ghost predicate Adds(v: World, w: World, datagrams: seq<seq<byte>>) {
    && w.log.delivered == v.log.delivered + AsMessages(datagrams)
    && w.log.received == v.log.received + Joined(datagrams)
    && w.log.bytesRead == v.log.bytesRead + |Joined(datagrams)|
  }

  lemma AddsNothing(v: World, w: World)
    requires w.log.delivered == v.log.delivered && w.log.received == v.log.received
             && w.log.bytesRead == v.log.bytesRead
    ensures Adds(v, w, [])
  {
    assert v.log.delivered + AsMessages([]) == v.log.delivered;
    assert v.log.received + Joined([]) == v.log.received;
  }

  lemma AddsOne(v: World, w: World, bytes: seq<byte>)
    requires w.log.delivered == v.log.delivered + [Message([], bytes)]
    requires w.log.received == v.log.received + bytes && w.log.bytesRead == v.log.bytesRead + |bytes|
    ensures Adds(v, w, [bytes])
  {
    assert AsMessages([bytes]) == [Message([], bytes)];
    assert [bytes][1..] == [] && Joined([bytes]) == bytes + [] == bytes;
  }

  lemma {:induction false} JoinedAppend(a: seq<seq<byte>>, b: seq<seq<byte>>)
    ensures Joined(a + b) == Joined(a) + Joined(b)
  {
    if a == [] {
      assert a + b == b;
    } else {
      JoinedAppend(a[1..], b);
      assert (a + b)[1..] == a[1..] + b && (a + b)[0] == a[0];
      Reassociate(a[0], Joined(a[1..]), Joined(b));
    }
  }

  lemma AddsBoth(u: World, v: World, w: World, a: seq<seq<byte>>, b: seq<seq<byte>>)
    requires Adds(u, v, a) && Adds(v, w, b)
    ensures Adds(u, w, a + b)
  {
    JoinedAppend(a, b);
    assert AsMessages(a + b) == AsMessages(a) + AsMessages(b);
    Reassociate(u.log.delivered, AsMessages(a), AsMessages(b));
    Reassociate(u.log.received, Joined(a), Joined(b));
  }

  lemma Reassociate<T>(a: seq<T>, b: seq<T>, c: seq<T>)
    ensures a + b + c == a + (b + c)
  {
  }

  lemma SameReaderAddsNothing(cfg: Config, v: World, w: World)
    requires OneDatagram(cfg, v) && SameReader(v, w)
    ensures OneDatagram(cfg, w) && Adds(v, w, [])
  {
    AddsNothing(v, w);
  }

  lemma AnsweredReads(cfg: Config, w: World, response: seq<byte>, now: int)
    requires OneDatagram(cfg, w) && w.io.callbacks > 0
    ensures OneDatagram(cfg, OnAnswered(cfg, w, response, now)) && Adds(w, OnAnswered(cfg, w, response, now), [])
  {
    var w1 := w.(io := w.io.(callbacks := w.io.callbacks - 1));
    var w2 := w1.(s := w1.s.(responses := w1.s.responses + [response]),
                  log := w1.log.(accepted := w1.log.accepted + [response]));
    WriterSameReader(cfg, w2, now);
    AddsNothing(w, OnAnswered(cfg, w, response, now));
  }

  lemma DatagramAdds(cfg: Config, w: World, which: nat, ok: bool, bytes: seq<byte>)
    requires OneDatagram(cfg, w) && Enabled(cfg, w, Datagram(which, ok, bytes))
    ensures var w' := OnDatagram(cfg, w, which, ok, bytes);
            OneDatagram(cfg, w') && Adds(w, w', if ok then [bytes] else [])
  {
    assert Without(w.io.readOps, which) == [];
    var w' := OnDatagram(cfg, w, which, ok, bytes);
    if ok {
      OversizeNeverSeen(cfg, w, which, bytes);
      AddsOne(w, w', bytes);
    } else {
      AddsNothing(w, w');
    }
  }

  lemma StepAdds(cfg: Config, parser: HeaderParser, w: World, e: Event)
    requires OneDatagram(cfg, w) && Enabled(cfg, w, e) && !TcpOnly(e) && !IsStart(e)
    ensures OneDatagram(cfg, Step(cfg, parser, w, e)) && Adds(w, Step(cfg, parser, w, e), ArrivedWith(e))
  {
    if e.Datagram? {
      DatagramAdds(cfg, w, e.which, e.ok, e.bytes);
    } else if e.Answered? {
      AnsweredReads(cfg, w, e.response, e.now);
    } else {
      CommandSameReader(cfg, parser, w, e);
      SameReaderAddsNothing(cfg, w, Step(cfg, parser, w, e));
    }
  }

  lemma {:induction false} RunAdds(cfg: Config, parser: HeaderParser, w: World, events: seq<Event>)
    requires OneDatagram(cfg, w) && NoStarts(events) && UdpEvents(events) && Possible(cfg, parser, w, events)
    ensures OneDatagram(cfg, Run(cfg, parser, w, events)) && Adds(w, Run(cfg, parser, w, events), Arrived(events))
    decreases |events|
  {
    if events == [] {
      AddsNothing(w, w);
    } else {
      var w1 := Step(cfg, parser, w, events[0]);
      StepAdds(cfg, parser, w, events[0]);
      RunAdds(cfg, parser, w1, events[1..]);
      AddsBoth(w, w1, Run(cfg, parser, w1, events[1..]), ArrivedWith(events[0]), Arrived(events[1..]));
    }
  }

  /** In every run of a UDP session started once, the messages handed to the handler are exactly the datagrams
      that arrived, each whole and in order, and their bytes are the bytes counted; at most one read or message is
      pending, and exactly one while a session that reads is live. */
  lemma DeliversDatagrams(cfg: Config, parser: HeaderParser, events: seq<Event>)
    requires StartedOnce(events) && UdpEvents(events) && Possible(cfg, parser, Initial(cfg), events)
    ensures var w := Run(cfg, parser, Initial(cfg), events);
            && w.log.delivered == AsMessages(Arrived(events))
            && w.log.received == Joined(Arrived(events)) && w.log.bytesRead == |Joined(Arrived(events))|
            && |w.io.readOps| + w.io.callbacks <= 1
            && (w.s.live && cfg.readMessages ==> |w.io.readOps| + w.io.callbacks == 1)
  {
    var w0, e := Initial(cfg), events[0];
    var w1 := Step(cfg, parser, w0, e);
    StartReads(cfg, e.ok, e.now);
    RunAdds(cfg, parser, w1, events[1..]);
    assert Arrived(events) == Arrived(events[1..]);
    assert [] + AsMessages(Arrived(events)) == AsMessages(Arrived(events));
    assert [] + Joined(Arrived(events)) == Joined(Arrived(events));
  }

  lemma StartReads(cfg: Config, ok: bool, now: int)
    ensures var w := OnUdpStart(cfg, Initial(cfg), ok, now);
            OneDatagram(cfg, w) && w.log.delivered == [] && w.log.received == [] && w.log.bytesRead == 0
  {
    var w := Begun(Initial(cfg));
    WriterSameReader(cfg, if cfg.readMessages then ReadHeader(w) else w, now);
  }
}
