/** The round trip of whole scripts: settings, the two blocks, and the text in between. */
module ScriptRoundTrips {
  import opened Bytes
  import opened Scripts
  import opened Lexers
  import opened Numbers
  import opened Grammar
  import opened RoundTrips

  // --- Printing settings ---

  function Setting(key: Word, v: Piece): Rope {
    Three(Key(key), Op(EqualsWord), v)
  }

  function Flag(b: bool): Piece {
    Fixed(if b then TrueWord else FalseWord)
  }

  function PrintEndpoints(es: seq<string>): Rope {
    if es == [] then One(CLOSE)
    else if |es| == 1 then Two(Text(es[0]), CLOSE)
    else Cat(Two(Text(es[0]), Op(CommaWord)), PrintEndpoints(es[1..]))
  }

  function PrintPackets(names: seq<(string, string)>): Rope {
    if names == [] then One(CLOSE)
    else if |names| == 1 then Cat(PrintPacket(names[0]), One(CLOSE))
    else Cat(PrintPacket(names[0]), Cat(One(Op(CommaWord)), PrintPackets(names[1..])))
  }

  function PrintPacket(packet: (string, string)): Rope {
    Three(Name(packet.0), Op(ColonWord), Text(packet.1))
  }

  function Nested(key: Word, body: Rope): Rope {
    Cat(Two(Key(key), OPEN), body)
  }

  /** The settings in three groups; `names` lists their packets. */
  function LastSettings(s: SettingsBlock, names: seq<(string, string)>): Rope {
    Cat(Setting(HandlerWord, Text(s.handler)),
    Cat(Nested(EndpointsWord, PrintEndpoints(s.endpoints)), Cat(Nested(PacketsWord, PrintPackets(names)), One(CLOSE))))
  }

  function MiddleSettings(s: SettingsBlock, names: seq<(string, string)>): Rope {
    Cat(Setting(ReadWord, Flag(s.read)),
    Cat(Setting(RepeatWord, Flag(s.repeat)),
    Cat(Setting(SampleRateWord, Number(s.sampleRate)),
        Cat(Setting(ShardsWord, Number(s.shards)), LastSettings(s, names)))))
  }

  function FirstSettings(s: SettingsBlock, names: seq<(string, string)>): Rope {
    Cat(Setting(SessionWord, Text(s.protocol)),
    Cat(Setting(PortWord, Number(s.port)),
    Cat(Setting(HeaderSizeWord, Number(s.headerSize)),
        Cat(Setting(BodyMaxWord, Number(s.bodyMax)), MiddleSettings(s, names)))))
  }

  function PrintSettings(s: SettingsBlock, names: seq<(string, string)>): Rope {
    Block(SettingsWord, s.identifier, FirstSettings(s, names))
  }

  function MapOf(m: map<string, string>, names: seq<(string, string)>): map<string, string>
    decreases |names|
  {
    if names == [] then m else MapOf(m[names[0].0 := names[0].1], names[1..])
  }

  // --- Reading settings back ---

  /** Whatever token `v` is printed as, assigning it to `key` makes `s` into `s'`. */
  ghost predicate Assigns(s: SettingsBlock, key: Word, v: Piece, s': SettingsBlock) {
    forall x: Sym {:trigger IsPrinted(x, v)} :: IsPrinted(x, v) ==> x.kind == Value && Assign(s, key, x) == Some(s')
  }

  /** Wherever `item` stands, the parser reads it as a setting that makes `s` into `s'`. */
  ghost predicate ReadsAs(item: Rope, s: SettingsBlock, s': SettingsBlock) {
    forall ts, p: nat {:trigger Behind(ts, p, item)} ::
      Behind(ts, p, item).Some? ==> p <= |ts| && ParseSetting(ts, p, s) == Some((s', Behind(ts, p, item).value))
  }

  /** Wherever `body` stands, the parser reads it as the rest of a block that makes `s` into `s'`. */
  ghost predicate BodyReadsAs(body: Rope, s: SettingsBlock, s': SettingsBlock) {
    forall ts, p: nat {:trigger Behind(ts, p, body)} ::
      Behind(ts, p, body).Some? ==> p <= |ts| && ParseSettingsBody(ts, p, s) == Some((s', Behind(ts, p, body).value))
  }

  lemma PlainSetting(s: SettingsBlock, key: Word, v: Piece, s': SettingsBlock)
    requires Assigns(s, key, v, s')
    ensures ReadsAs(Setting(key, v), s, s')
  {
    forall ts, p: nat | Behind(ts, p, Setting(key, v)).Some?
      ensures p <= |ts| && ParseSetting(ts, p, s) == Some((s', Behind(ts, p, Setting(key, v)).value))
    {
      assert IsPrinted(ts[p + 2], v);
    }
  }

  lemma SettingStarts(ts: seq<Sym>, p: nat, s: SettingsBlock)
    requires p <= |ts| && ParseSetting(ts, p, s).Some?
    ensures Is(ts, p, Keyword)
  {
  }

  lemma BodyStep(ts: seq<Sym>, p: nat, s: SettingsBlock, s': SettingsBlock, q: nat, final: SettingsBlock, e: nat)
    requires p <= |ts| && ParseSetting(ts, p, s) == Some((s', q)) && ParseSettingsBody(ts, q, s') == Some((final, e))
    ensures ParseSettingsBody(ts, p, s) == Some((final, e))
  {
    SettingStarts(ts, p, s);
  }

  /** A setting in front of the rest of a block. */
  lemma SettingThen(item: Rope, s: SettingsBlock, s': SettingsBlock, rest: Rope, final: SettingsBlock)
    requires ReadsAs(item, s, s') && BodyReadsAs(rest, s', final)
    ensures BodyReadsAs(Cat(item, rest), s, final)
  {
    forall ts, p: nat | Behind(ts, p, Cat(item, rest)).Some?
      ensures p <= |ts| && ParseSettingsBody(ts, p, s) == Some((final, Behind(ts, p, Cat(item, rest)).value))
    {
      var e := Behind(ts, p, Cat(item, rest)).value;
      var q := Between(ts, p, item, rest, e);
      BodyStep(ts, p, s, s', q, final, e);
    }
  }

  lemma BodyEnds(s: SettingsBlock)
    ensures BodyReadsAs(One(CLOSE), s, s)
  {
  }

  // --- Nested blocks ---

  lemma {:induction false} EndpointsReadBack(ts: seq<Sym>, p: nat, before: seq<string>, es: seq<string>, e: nat)
    requires Behind(ts, p, PrintEndpoints(es)) == Some(e)
    ensures p <= |ts| && ParseEndpoints(ts, p, before) == Some((before + es, e))
    decreases |es|
  {
    if es == [] {
      assert before + [] == before;
    } else if |es| == 1 {
      assert before + es == before + [es[0]];
    } else {
      var q := Between(ts, p, Two(Text(es[0]), Op(CommaWord)), PrintEndpoints(es[1..]), e);
      EndpointsReadBack(ts, q, before + [es[0]], es[1..], e);
      assert before + [es[0]] + es[1..] == before + es;
    }
  }

  lemma PacketReadBack(ts: seq<Sym>, p: nat, packet: (string, string), e: nat)
    requires Behind(ts, p, PrintPacket(packet)) == Some(e)
    ensures p < e && Is(ts, p, Identity) && ParsePacket(ts, p) == Some((packet, e))
  {
  }

  lemma {:induction false} PacketsReadBack(ts: seq<Sym>, p: nat, m: map<string, string>, names: seq<(string, string)>,
                                           e: nat)
    requires Behind(ts, p, PrintPackets(names)) == Some(e)
    ensures p <= |ts| && ParsePackets(ts, p, m) == Some((MapOf(m, names), e))
    decreases |names|
  {
    if |names| == 1 {
      var q := Between(ts, p, PrintPacket(names[0]), One(CLOSE), e);
      PacketReadBack(ts, p, names[0], q);
    } else if names != [] {
      var rest := Cat(One(Op(CommaWord)), PrintPackets(names[1..]));
      var q := Between(ts, p, PrintPacket(names[0]), rest, e);
      PacketReadBack(ts, p, names[0], q);
      var r := Between(ts, q, One(Op(CommaWord)), PrintPackets(names[1..]), e);
      PacketsReadBack(ts, r, m[names[0].0 := names[0].1], names[1..], e);
    }
  }

  lemma NestedOpens(ts: seq<Sym>, p: nat, key: Word, body: Rope, e: nat)
    requires Behind(ts, p, Nested(key, body)) == Some(e)
    ensures Is(ts, p, Keyword) && ts[p].word == key && Is(ts, p + 1, BraceOpen) && Behind(ts, p + 2, body) == Some(e)
  {
    var q := Between(ts, p, Two(Key(key), OPEN), body, e);
    TwoStand(ts, p, Key(key), OPEN, q);
  }

  lemma TwoStand(ts: seq<Sym>, p: nat, a: Piece, b: Piece, e: nat)
    requires Behind(ts, p, Two(a, b)) == Some(e)
    ensures e == p + 2 <= |ts| && IsPrinted(ts[p], a) && IsPrinted(ts[p + 1], b)
  {
  }

  lemma EndpointsAt(ts: seq<Sym>, p: nat, s: SettingsBlock, es: seq<string>, e: nat)
    requires Is(ts, p, Keyword) && ts[p].word == EndpointsWord && Is(ts, p + 1, BraceOpen) && s.endpoints == []
    requires ParseEndpoints(ts, p + 2, []) == Some((es, e))
    ensures ParseSetting(ts, p, s) == Some((s.(endpoints := es), e))
  {
  }

  lemma EndpointsSetting(s: SettingsBlock, es: seq<string>)
    requires s.endpoints == []
    ensures ReadsAs(Nested(EndpointsWord, PrintEndpoints(es)), s, s.(endpoints := es))
  {
    var item := Nested(EndpointsWord, PrintEndpoints(es));
    forall ts, p: nat | Behind(ts, p, item).Some?
      ensures p <= |ts| && ParseSetting(ts, p, s) == Some((s.(endpoints := es), Behind(ts, p, item).value))
    {
      var e := Behind(ts, p, item).value;
      NestedOpens(ts, p, EndpointsWord, PrintEndpoints(es), e);
      EndpointsReadBack(ts, p + 2, [], es, e);
      assert [] + es == es;
      EndpointsAt(ts, p, s, es, e);
    }
  }

  lemma PacketsSetting(s: SettingsBlock, names: seq<(string, string)>)
    ensures ReadsAs(Nested(PacketsWord, PrintPackets(names)), s, s.(packets := MapOf(s.packets, names)))
  {
    var item := Nested(PacketsWord, PrintPackets(names));
    forall ts, p: nat | Behind(ts, p, item).Some?
      ensures p <= |ts|
      ensures ParseSetting(ts, p, s) == Some((s.(packets := MapOf(s.packets, names)), Behind(ts, p, item).value))
    {
      var e := Behind(ts, p, item).value;
      NestedOpens(ts, p, PacketsWord, PrintPackets(names), e);
      PacketsReadBack(ts, p + 2, s.packets, names, e);
    }
  }

  // --- Plain settings ---

  predicate IsNumberKey(key: Word) {
    key == HeaderSizeWord || key == BodyMaxWord || key == SampleRateWord || key == ShardsWord
  }

  function WithNumber(s: SettingsBlock, key: Word, n: uint32): SettingsBlock {
    if key == HeaderSizeWord then s.(headerSize := n)
    else if key == BodyMaxWord then s.(bodyMax := n)
    else if key == SampleRateWord then s.(sampleRate := n)
    else s.(shards := n)
  }

  lemma NumberSetting(s: SettingsBlock, key: Word, n: uint32)
    requires IsNumberKey(key) && Small(n)
    ensures ReadsAs(Setting(key, Number(n)), s, WithNumber(s, key, n))
  {
    PlainNumberReadBack(n);
    PlainSetting(s, key, Number(n), WithNumber(s, key, n));
  }

  lemma PortSetting(s: SettingsBlock, n: uint16)
    ensures ReadsAs(Setting(PortWord, Number(n)), s, s.(port := n))
  {
    PlainNumberReadBack(n);
    PlainSetting(s, PortWord, Number(n), s.(port := n));
  }

  lemma FlagSetting(s: SettingsBlock, b: bool)
    ensures ReadsAs(Setting(ReadWord, Flag(b)), s, s.(read := b))
    ensures ReadsAs(Setting(RepeatWord, Flag(b)), s, s.(repeat := b))
  {
    PlainSetting(s, ReadWord, Flag(b), s.(read := b));
    PlainSetting(s, RepeatWord, Flag(b), s.(repeat := b));
  }

  lemma TextSetting(s: SettingsBlock, text: string)
    ensures ReadsAs(Setting(SessionWord, Text(text)), s, s.(protocol := text))
    ensures ReadsAs(Setting(HandlerWord, Text(text)), s, s.(handler := text))
  {
    PlainSetting(s, SessionWord, Text(text), s.(protocol := text));
    PlainSetting(s, HandlerWord, Text(text), s.(handler := text));
  }

  // --- The settings block ---

  ghost predicate PrintableSettings(s: SettingsBlock, names: seq<(string, string)>) {
    && Small(s.headerSize) && Small(s.bodyMax) && Small(s.sampleRate) && Small(s.shards)
    && s.packets == MapOf(map[], names)
  }

  /** From the handler on. */
  lemma LastSettingsReadsAs(s0: SettingsBlock, s: SettingsBlock, names: seq<(string, string)>)
    requires s0 == s.(handler := s0.handler, endpoints := [], packets := map[]) && PrintableSettings(s, names)
    ensures BodyReadsAs(LastSettings(s, names), s0, s)
  {
    var s1 := s0.(handler := s.handler);
    var s2 := s1.(endpoints := s.endpoints);
    var s3 := s2.(packets := s.packets);
    BodyEnds(s3);
    PacketsSetting(s2, names);
    SettingThen(Nested(PacketsWord, PrintPackets(names)), s2, s3, One(CLOSE), s);
    EndpointsSetting(s1, s.endpoints);
    SettingThen(Nested(EndpointsWord, PrintEndpoints(s.endpoints)), s1, s2,
                Cat(Nested(PacketsWord, PrintPackets(names)), One(CLOSE)), s);
    TextSetting(s0, s.handler);
    SettingThen(Setting(HandlerWord, Text(s.handler)), s0, s1,
                Cat(Nested(EndpointsWord, PrintEndpoints(s.endpoints)),
                    Cat(Nested(PacketsWord, PrintPackets(names)), One(CLOSE))), s);
  }

  /** The settings from READ on are not assigned yet. */
  function BeforeMiddle(s: SettingsBlock): SettingsBlock {
    BeforeLast(s).(read := false, repeat := false, sampleRate := 0, shards := 0)
  }

  function BeforeLast(s: SettingsBlock): SettingsBlock {
    s.(handler := "", endpoints := [], packets := map[])
  }

  lemma MiddleSettingsReadsAs(s: SettingsBlock, names: seq<(string, string)>)
    requires PrintableSettings(s, names)
    ensures BodyReadsAs(MiddleSettings(s, names), BeforeMiddle(s), s)
  {
    var s0 := BeforeMiddle(s);
    var s1 := s0.(read := s.read);
    var s2 := s1.(repeat := s.repeat);
    var s3 := s2.(sampleRate := s.sampleRate);
    var s4 := s3.(shards := s.shards);
    var rest := LastSettings(s, names);
    var shards := Cat(Setting(ShardsWord, Number(s.shards)), rest);
    var rate := Cat(Setting(SampleRateWord, Number(s.sampleRate)), shards);
    LastSettingsReadsAs(s4, s, names);
    NumberSetting(s3, ShardsWord, s.shards);
    SettingThen(Setting(ShardsWord, Number(s.shards)), s3, s4, rest, s);
    NumberSetting(s2, SampleRateWord, s.sampleRate);
    SettingThen(Setting(SampleRateWord, Number(s.sampleRate)), s2, s3, shards, s);
    FlagSetting(s1, s.repeat);
    SettingThen(Setting(RepeatWord, Flag(s.repeat)), s1, s2, rate, s);
    FlagSetting(s0, s.read);
    SettingThen(Setting(ReadWord, Flag(s.read)), s0, s1, Cat(Setting(RepeatWord, Flag(s.repeat)), rate), s);
  }

  lemma FirstSettingsReadsAs(s: SettingsBlock, names: seq<(string, string)>)
    requires PrintableSettings(s, names)
    ensures BodyReadsAs(FirstSettings(s, names), NO_SETTINGS.(identifier := s.identifier), s)
  {
    var s0 := NO_SETTINGS.(identifier := s.identifier);
    var s1 := s0.(protocol := s.protocol);
    var s2 := s1.(port := s.port);
    var s3 := s2.(headerSize := s.headerSize);
    var s4 := s3.(bodyMax := s.bodyMax);
    var rest := MiddleSettings(s, names);
    var bodyMax := Cat(Setting(BodyMaxWord, Number(s.bodyMax)), rest);
    var headerSize := Cat(Setting(HeaderSizeWord, Number(s.headerSize)), bodyMax);
    MiddleSettingsReadsAs(s, names);
    assert s4 == BeforeMiddle(s);
    NumberSetting(s3, BodyMaxWord, s.bodyMax);
    SettingThen(Setting(BodyMaxWord, Number(s.bodyMax)), s3, s4, rest, s);
    NumberSetting(s2, HeaderSizeWord, s.headerSize);
    SettingThen(Setting(HeaderSizeWord, Number(s.headerSize)), s2, s3, bodyMax, s);
    PortSetting(s1, s.port);
    SettingThen(Setting(PortWord, Number(s.port)), s1, s2, headerSize, s);
    TextSetting(s0, s.protocol);
    SettingThen(Setting(SessionWord, Text(s.protocol)), s0, s1, Cat(Setting(PortWord, Number(s.port)), headerSize), s);
  }
}
