/** A shard together with its sessions: the closing protocol from the disconnect callback of a session to
    the end of the shard's thread. */
module Sites {
  import opened Bytes
  import opened Scripts
  import opened SessionPools
  import opened Shards
  import opened SessionMachine
  import opened DrainLaws

  /** `worlds[i]` is the state of session `i`, whose strand has run the first `handled[i]` calls posted to it. */
  datatype Site = Site(shard: ShardState, worlds: seq<World>, handled: seq<nat>)

  const NEW_SITE := Site(STARTED_SHARD, [], [])

  // --- Steps ---

  predicate IsCommand(e: Event) {
    e.StartPosted? || e.UdpStart? || e.FloodPosted? || e.SendPosted? || e.DrainPosted? || e.StopPosted?
  }

  /** The strand runs `call` as event `e`. */
  predicate Runs(call: Call, e: Event) {
    match call
    case Start => e.StartPosted? || e.UdpStart?
    case Send(count) => e.SendPosted? && e.count == count
    case Flood => e.FloodPosted?
    case Drain => e.DrainPosted?
    case Stop => e.StopPosted?
  }

  predicate Shaped(s: Site) {
    |s.worlds| == |s.handled| == |s.shard.pool.sessions|
  }

  /** Session `i` can run `e`: the next call posted to it, or the completion of an operation. */
  predicate SessionReady(cfg: Config, s: Site, i: nat, e: Event) {
    && Shaped(s) && i < |s.worlds| && Enabled(cfg, s.worlds[i], e)
    && (IsCommand(e) ==>
          s.handled[i] < |s.shard.pool.sessions[i]| && Runs(s.shard.pool.sessions[i][s.handled[i]], e))
  }

  /** A session runs a handler; if that closes it, the pool hears of it. */
  function SessionRuns(cfg: Config, parser: HeaderParser, s: Site, i: nat, e: Event): Site
    requires SessionReady(cfg, s, i, e)
  {
    var w := Step(cfg, parser, s.worlds[i], e);
    var closed := w.log.disconnects != s.worlds[i].log.disconnects;
    Site(if closed then WithPool(s.shard, Disconnected(s.shard.pool)) else s.shard,
         s.worlds[i := w],
         if IsCommand(e) then s.handled[i := s.handled[i] + 1] else s.handled)
  }

  /** The shard can run its next handler; an action stays inside the pool. */
  predicate HandlerReady(s: Site) {
    && Shaped(s) && s.shard.queue != []
    && (s.shard.queue[0].Act? ==>
          var a := s.shard.queue[0].action;
          && a.sessionsStart <= a.sessionsEnd
          && (a.kind != Create ==> a.sessionsEnd <= |s.shard.pool.sessions|))
  }

  /** The shard runs its next handler; sessions it creates begin in their initial state. */
  function HandlerRuns(cfg: Config, s: Site): Site
    requires HandlerReady(s)
  {
    var shard := RunNext(s.shard);
    var n := |shard.pool.sessions|;
    if n == |s.worlds| then s.(shard := shard)
    else Site(shard, seq(n, _ => Initial(cfg)), seq(n, _ => 0))
  }

  // --- One session's lifetime ---

  /** A handler starts the session, closes it if it is live, or does neither. */
  ghost predicate LifeStep(v: World, w: World, start: bool) {
    && w.log.starts == v.log.starts + (if start then 1 else 0)
    && (|| (w.log.disconnects == v.log.disconnects && w.s.live == (start || v.s.live))
        || (w.log.disconnects == v.log.disconnects + 1 && !w.s.live && (start || v.s.live)))
  }

  lemma WriterLife(cfg: Config, w: World, now: int)
    ensures LifeStep(w, DoWrite(cfg, w, now), false)
    ensures LifeStep(w, TryStartWrite(cfg, w, now), false)
    ensures LifeStep(w, WhenConnected(cfg, w, now), false)
  {
    var item := NextItem(cfg, w.s);
  }

  lemma ConnectLife(cfg: Config, w: World, now: int)
    ensures LifeStep(w, OnConnect(cfg, w, now), false)
  {
    WriterLife(cfg, if cfg.readMessages then ReadHeader(w) else w, now);
  }

  lemma CommandLife(cfg: Config, parser: HeaderParser, w: World, e: Event)
    requires Enabled(cfg, w, e) && IsCommand(e)
    ensures LifeStep(w, Step(cfg, parser, w, e), IsStart(e))
  {
    match e
    case StartPosted =>
    case UdpStart(ok, now) =>
      var w1 := Begun(w);
      ConnectLife(cfg, w1, now);
    case FloodPosted(now) => WriterLife(cfg, w.(s := w.s.(flood := true)), now);
    case SendPosted(count, now) => WriterLife(cfg, Enqueue(w, count), now);
    case DrainPosted =>
    case StopPosted =>
  }

  lemma ConnectDoneLife(cfg: Config, w: World, ok: bool, now: int)
    requires w.io.connects > 0
    ensures LifeStep(w, OnConnectDone(cfg, w, ok, now), false)
  {
    ConnectLife(cfg, w.(s := w.s.(connecting := false), io := w.io.(connects := w.io.connects - 1)), now);
  }

  lemma WriteDoneLife(cfg: Config, w: World, which: nat, ok: bool, now: int)
    requires which < |w.io.writeOps|
    ensures LifeStep(w, OnWriteDone(cfg, w, which, ok, now), false)
  {
    var w1 := w.(io := w.io.(writeOps := Without(w.io.writeOps, which)));
    WriterLife(cfg, Sample(cfg, w1, w.io.writeOps[which], now), now);
  }

  lemma AnsweredLife(cfg: Config, w: World, response: seq<byte>, now: int)
    requires w.io.callbacks > 0
    ensures LifeStep(w, OnAnswered(cfg, w, response, now), false)
  {
    var w1 := w.(io := w.io.(callbacks := w.io.callbacks - 1));
    WriterLife(cfg, w1.(s := w1.s.(responses := w1.s.responses + [response]),
                        log := w1.log.(accepted := w1.log.accepted + [response])), now);
  }

  lemma StepLife(cfg: Config, parser: HeaderParser, w: World, e: Event)
    requires Enabled(cfg, w, e)
    ensures LifeStep(w, Step(cfg, parser, w, e), IsStart(e))
    ensures e.StopPosted? ==> !Step(cfg, parser, w, e).s.live
  {
    if IsCommand(e) {
      CommandLife(cfg, parser, w, e);
    } else {
      match e
      case ConnectDone(ok, now) => ConnectDoneLife(cfg, w, ok, now);
      case WriteDone(which, ok, now) => WriteDoneLife(cfg, w, which, ok, now);
      case HeaderDone(which, ok, bytes) =>
      case BodyDone(which, ok, bytes) =>
      case Datagram(which, ok, bytes) =>
      case Answered(response, now) => AnsweredLife(cfg, w, response, now);
    }
  }
}
