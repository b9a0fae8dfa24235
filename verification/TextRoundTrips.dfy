/** From a script value to text and back. */
module TextRoundTrips {
  import opened Scripts
  import opened Lexers
  import opened Printers
  import opened Numbers
  import opened Parsers
  import opened Grammar
  import opened Words
  import opened RoundTrips
  import opened ScriptRoundTrips

  // --- Scripts as printouts ---

  /** A script whose numbers and fields can be printed; `names` lists its packets. */
  ghost predicate PrintableScript(s: Script, names: seq<(string, string)>) {
    && PrintableSettings(s.settings, names)
    && AllBalanced(s.orchestrator.actions) && PrintableActions(s.orchestrator.actions)
  }

  ghost function PrintScript(s: Script, names: seq<(string, string)>): Rope
    requires AllBalanced(s.orchestrator.actions)
  {
    Cat(PrintSettings(s.settings, names), PrintOrchestrator(s.orchestrator))
  }

  lemma SettingsReadBack(ts: seq<Sym>, p: nat, s: SettingsBlock, names: seq<(string, string)>, e: nat)
    requires PrintableSettings(s, names) && Behind(ts, p, PrintSettings(s, names)) == Some(e)
    ensures p < |ts| && ts[p].word == SettingsWord && ParseSettings(ts, p + 1, NO_SETTINGS) == Some((s, e))
  {
    BlockOpens(ts, p, SettingsWord, s.identifier, FirstSettings(s, names), e);
    FirstSettingsReadsAs(s, names);
  }

  lemma ParseTwoBlocks(ts: seq<Sym>, script: Script, q: nat)
    requires 0 < q < |ts| && ParseBlock(ts, 0, NO_SCRIPT) == Some((NO_SCRIPT.(settings := script.settings), q))
    requires ParseBlock(ts, q, NO_SCRIPT.(settings := script.settings)) == Some((script, |ts|))
    ensures Parse(ts, 0, NO_SCRIPT) == Some(script)
  {
    var middle := NO_SCRIPT.(settings := script.settings);
    assert Parse(ts, |ts|, script) == Some(script);
    assert Parse(ts, q, middle) == Some(script);
  }

  /** Parsing inverts printing to tokens. */
  lemma ScriptReadBack(ts: seq<Sym>, script: Script, names: seq<(string, string)>)
    requires PrintableScript(script, names) && Behind(ts, 0, PrintScript(script, names)) == Some(|ts|)
    ensures Parse(ts, 0, NO_SCRIPT) == Some(script)
  {
    var q := Between(ts, 0, PrintSettings(script.settings, names), PrintOrchestrator(script.orchestrator), |ts|);
    SettingsReadBack(ts, 0, script.settings, names, q);
    OrchestratorReadBack(ts, q, script.orchestrator, NO_SCRIPT.(settings := script.settings), |ts|);
    ParseTwoBlocks(ts, script, q);
  }

  // --- Printouts as tokens ---

  function LexemeOf(p: Piece): Lexeme {
    match p
    case Spelled(kind, word) => Lexeme(kind, WordText(word))
    case Free(kind, text) => Lexeme(kind, text)
    case FormatName(text) => Lexeme(Value, text)
  }

  function Flatten(r: Rope): seq<Piece> {
    match r
    case Nothing => []
    case One(a) => [a]
    case Two(a, b) => [a, b]
    case Three(a, b, c) => [a, b, c]
    case Cat(left, right) => Flatten(left) + Flatten(right)
  }

  function Tokens(ps: seq<Piece>): (r: seq<Lexeme>)
    ensures |r| == |ps|
  {
    if ps == [] then [] else [LexemeOf(ps[0])] + Tokens(ps[1..])
  }

  /** Names are identifiers, values do not end in a backslash, time formats are known. */
  predicate Writable(p: Piece) {
    match p
    case Spelled(Keyword, word) => IsKeywordWord(word)
    case Spelled(Operator, word) => IsOperatorWord(word)
    case Spelled(Value, word) => IsValueWord(word)
    case Spelled(_, _) => false
    case Free(Identity, text) => IsName(text)
    case Free(Value, text) => !EndsInBackslash(text)
    case Free(_, _) => p == OPEN || p == CLOSE
    case FormatName(text) => IsFormat(WordOf(text)) && !EndsInBackslash(text)
  }

  ghost predicate AllWritable(r: Rope) {
    match r
    case Nothing => true
    case One(a) => Writable(a)
    case Two(a, b) => Writable(a) && Writable(b)
    case Three(a, b, c) => Writable(a) && Writable(b) && Writable(c)
    case Cat(left, right) => AllWritable(left) && AllWritable(right)
  }

  ghost predicate PiecesWritable(ps: seq<Piece>) {
    forall p :: p in ps ==> Writable(p)
  }

  lemma {:induction false} FlattenWritable(r: Rope)
    requires AllWritable(r)
    ensures PiecesWritable(Flatten(r))
  {
    if r.Cat? {
      FlattenWritable(r.left);
      FlattenWritable(r.right);
    }
  }

  lemma PieceIsToken(p: Piece)
    requires Writable(p)
    ensures WellFormed(LexemeOf(p), KEYWORDS) && IsPrinted(SymOf(LexemeOf(p)), p)
  {
    match p
    case Spelled(kind, word) =>
      WordRoundTrip(word);
      if kind == Keyword {
        KeywordSpelling(word);
      } else if kind == Operator {
        OperatorSpelling(word);
      } else {
        ValueSpelling(word);
      }
    case Free(kind, text) =>
    case FormatName(text) =>
  }

  lemma {:induction false} TokensWellFormed(ps: seq<Piece>)
    requires PiecesWritable(ps)
    ensures AllWellFormed(Tokens(ps), KEYWORDS)
  {
    if ps != [] {
      PieceIsToken(ps[0]);
      TokensWellFormed(ps[1..]);
      assert Tokens(ps)[1..] == Tokens(ps[1..]);
    }
  }

  lemma {:induction false} TokenAt(ps: seq<Piece>, i: nat)
    requires i < |ps|
    ensures Tokens(ps)[i] == LexemeOf(ps[i])
  {
    if i > 0 {
      TokenAt(ps[1..], i - 1);
    }
  }

  /** The tokens of `r` stand in `ts` at `p`. */
  ghost predicate TokensStand(ts: seq<Sym>, p: nat, ps: seq<Piece>) {
    p + |ps| <= |ts| && forall i :: 0 <= i < |ps| ==> IsPrinted(ts[p + i], ps[i])
  }

  lemma {:induction false} BehindTokens(ts: seq<Sym>, p: nat, r: Rope)
    requires TokensStand(ts, p, Flatten(r))
    ensures Behind(ts, p, r) == Some(p + |Flatten(r)|)
    decreases r
  {
    var ps := Flatten(r);
    match r
    case Nothing =>
    case One(a) => assert IsPrinted(ts[p + 0], ps[0]);
    case Two(a, b) => assert IsPrinted(ts[p + 0], ps[0]) && IsPrinted(ts[p + 1], ps[1]);
    case Three(a, b, c) =>
      assert IsPrinted(ts[p + 0], ps[0]) && IsPrinted(ts[p + 1], ps[1]) && IsPrinted(ts[p + 2], ps[2]);
    case Cat(left, right) =>
      var n := |Flatten(left)|;
      forall i | 0 <= i < n
        ensures IsPrinted(ts[p + i], Flatten(left)[i])
      {
        assert IsPrinted(ts[p + i], ps[i]);
      }
      forall i | 0 <= i < |Flatten(right)|
        ensures IsPrinted(ts[p + n + i], Flatten(right)[i])
      {
        assert IsPrinted(ts[p + (n + i)], ps[n + i]);
      }
      BehindTokens(ts, p, left);
      BehindTokens(ts, p + n, right);
  }

  lemma SymAt(ps: seq<Piece>, i: nat)
    requires i < |ps| && PiecesWritable(ps)
    ensures IsPrinted(Syms(Tokens(ps))[i], ps[i])
  {
    TokenAt(ps, i);
    PieceIsToken(ps[i]);
  }

  lemma PiecesStand(ps: seq<Piece>, ts: seq<Sym>)
    requires PiecesWritable(ps) && ts == Syms(Tokens(ps))
    ensures TokensStand(ts, 0, ps)
  {
    forall i | 0 <= i < |ps|
      ensures IsPrinted(ts[0 + i], ps[i])
    {
      SymAt(ps, i);
    }
  }

  lemma TokensRead(r: Rope)
    requires AllWritable(r)
    ensures var ts := Syms(Tokens(Flatten(r))); Behind(ts, 0, r) == Some(|ts|)
  {
    FlattenWritable(r);
    PiecesStand(Flatten(r), Syms(Tokens(Flatten(r))));
    BehindTokens(Syms(Tokens(Flatten(r))), 0, r);
  }

  // --- What can be written ---

  ghost predicate WritableAction(a: Action)
    requires a.Balanced()
  {
    FormatsKnown(a.Modifications()) && (a.kind == Send ==> IsName(a.packetIdentifier))
  }

  ghost predicate WritableActions(actions: seq<Action>)
    requires AllBalanced(actions)
  {
    actions == [] || (WritableAction(actions[0]) && WritableActions(actions[1..]))
  }

  /** Identifiers are names and no other text of the user's ends in a backslash. */
  ghost predicate WritableScript(s: Script, names: seq<(string, string)>)
    requires AllBalanced(s.orchestrator.actions)
  {
    && IsName(s.settings.identifier) && IsName(s.orchestrator.settingsIdentifier)
    && !EndsInBackslash(s.settings.protocol) && !EndsInBackslash(s.settings.handler)
    && (forall i :: 0 <= i < |s.settings.endpoints| ==> !EndsInBackslash(s.settings.endpoints[i]))
    && (forall i :: 0 <= i < |names| ==> IsName(names[i].0) && !EndsInBackslash(names[i].1))
    && WritableActions(s.orchestrator.actions)
  }

  lemma CatWritable(a: Rope, b: Rope)
    requires AllWritable(a) && AllWritable(b)
    ensures AllWritable(Cat(a, b))
  {
  }

  lemma KeyWritable(w: Word)
    requires IsKeywordWord(w)
    ensures AllWritable(One(Key(w)))
  {
  }

  lemma NumberWritable(n: nat)
    ensures Writable(Number(n)) && Writable(Text(Milliseconds(n)))
  {
  }

  lemma SettingWritable(key: Word, v: Piece)
    requires IsKeywordWord(key) && Writable(v)
    ensures AllWritable(Setting(key, v))
  {
  }

  lemma RangeWritable(r: Range)
    ensures AllWritable(PrintRange(r))
  {
    NumberWritable(r.start);
    NumberWritable(r.second);
  }

  lemma ArgumentsWritable(r: Range, little: bool, last: Piece)
    requires Writable(last)
    ensures AllWritable(PrintArguments(r, little, last))
  {
    RangeWritable(r);
    CatWritable(PrintRange(r), Three(Endianness(little), Op(ColonWord), last));
  }

  /** A known format does not end in a backslash. */
  lemma FormatWritable(text: string)
    requires IsFormat(WordOf(text))
    ensures Writable(FormatName(text))
  {
    assert text[|text| - 1] == 's';
  }

  lemma CounterWritable(c: CounterModification)
    ensures AllWritable(PrintModification(CounterMod(c)))
  {
    NumberWritable(c.counterStep);
    ArgumentsWritable(c.counterBytes, c.littleEndian, Number(c.counterStep));
    KeyWritable(CounterWord);
    CatWritable(One(Key(CounterWord)), PrintArguments(c.counterBytes, c.littleEndian, Number(c.counterStep)));
  }

  lemma TimestampWritable(t: TimestampModification)
    requires IsFormat(WordOf(t.formatName))
    ensures AllWritable(PrintModification(TimestampMod(t)))
  {
    FormatWritable(t.formatName);
    ArgumentsWritable(t.timestampBytes, t.littleEndian, FormatName(t.formatName));
    KeyWritable(TimestampWord);
    CatWritable(One(Key(TimestampWord)), PrintArguments(t.timestampBytes, t.littleEndian, FormatName(t.formatName)));
  }

  lemma {:induction false} ModificationsWritable(mods: seq<Modification>)
    requires FormatsKnown(mods)
    ensures AllWritable(PrintModifications(mods))
  {
    if mods != [] {
      match mods[0] {
        case CounterMod(c) => CounterWritable(c);
        case TimestampMod(t) => TimestampWritable(t);
      }
      ModificationsWritable(mods[1..]);
      CatWritable(PrintModification(mods[0]), PrintModifications(mods[1..]));
    }
  }

  lemma TailWritable(id: string, count: nat, mods: seq<Modification>)
    requires FormatsKnown(mods) && IsName(id)
    ensures AllWritable(PrintTail(id, count, mods))
  {
    NumberWritable(count);
    ModificationsWritable(mods);
    CatWritable(Three(Name(id), Key(CopiesWord), Number(count)), PrintModifications(mods));
  }

  lemma RangedWritable(w: Word, r: Range, rest: Rope)
    requires IsKeywordWord(w) && AllWritable(rest)
    ensures AllWritable(Cat(One(Key(w)), Cat(PrintRange(r), rest)))
  {
    RangeWritable(r);
    CatWritable(PrintRange(r), rest);
    KeyWritable(w);
    CatWritable(One(Key(w)), Cat(PrintRange(r), rest));
  }

  lemma HeadWritable(a: Action, mods: seq<Modification>)
    requires FormatsKnown(mods) && (a.kind == Send ==> IsName(a.packetIdentifier))
    ensures AllWritable(PrintHead(a, mods))
  {
    if a.kind == Create {
      NumberWritable(a.count);
    } else if a.kind == Send {
      TailWritable(a.packetIdentifier, a.count, mods);
      RangedWritable(SendWord, a.range, PrintTail(a.packetIdentifier, a.count, mods));
    } else {
      RangedWritable(WordOfKind(a.kind), a.range, Nothing);
    }
  }

  lemma OffsetWritable(ms: nat)
    ensures AllWritable(PrintOffset(ms))
  {
    KeyWritable(OffsetWord);
    assert TimeText(ms)[|TimeText(ms)| - 1] == 's';
  }

  lemma {:induction false} ActionsWritable(actions: seq<Action>)
    requires AllBalanced(actions) && WritableActions(actions)
    ensures AllWritable(PrintActions(actions))
  {
    if actions != [] {
      var a, mods := actions[0], actions[0].Modifications();
      HeadWritable(a, mods);
      OffsetWritable(a.offsetMs);
      CatWritable(PrintHead(a, mods), PrintOffset(a.offsetMs));
      ActionsWritable(actions[1..]);
      CatWritable(PrintAction(a), PrintActions(actions[1..]));
    }
  }

  lemma {:induction false} EndpointsWritable(es: seq<string>)
    requires forall i :: 0 <= i < |es| ==> !EndsInBackslash(es[i])
    ensures AllWritable(PrintEndpoints(es))
  {
    if |es| > 1 {
      EndpointsWritable(es[1..]);
    }
  }

  lemma {:induction false} PacketsWritable(names: seq<(string, string)>)
    requires forall i :: 0 <= i < |names| ==> IsName(names[i].0) && !EndsInBackslash(names[i].1)
    ensures AllWritable(PrintPackets(names))
  {
    if |names| > 1 {
      PacketsWritable(names[1..]);
    }
  }

  lemma NestedWritable(key: Word, body: Rope, rest: Rope)
    requires IsKeywordWord(key) && AllWritable(body) && AllWritable(rest)
    ensures AllWritable(Cat(Nested(key, body), rest))
  {
    CatWritable(Two(Key(key), OPEN), body);
    CatWritable(Nested(key, body), rest);
  }

  lemma SettingThenWritable(key: Word, v: Piece, rest: Rope)
    requires IsKeywordWord(key) && Writable(v) && AllWritable(rest)
    ensures AllWritable(Cat(Setting(key, v), rest))
  {
    SettingWritable(key, v);
    CatWritable(Setting(key, v), rest);
  }

  lemma NumberThenWritable(key: Word, n: nat, rest: Rope)
    requires IsKeywordWord(key) && AllWritable(rest)
    ensures AllWritable(Cat(Setting(key, Number(n)), rest))
  {
    NumberWritable(n);
    SettingThenWritable(key, Number(n), rest);
  }

  lemma ListsWritable(endpoints: Rope, packets: Rope)
    requires AllWritable(endpoints) && AllWritable(packets)
    ensures AllWritable(Cat(Nested(EndpointsWord, endpoints), Cat(Nested(PacketsWord, packets), One(CLOSE))))
  {
    NestedWritable(PacketsWord, packets, One(CLOSE));
    NestedWritable(EndpointsWord, endpoints, Cat(Nested(PacketsWord, packets), One(CLOSE)));
  }

  lemma LastWritable(s: SettingsBlock, names: seq<(string, string)>)
    requires !EndsInBackslash(s.handler) && AllWritable(PrintEndpoints(s.endpoints)) && AllWritable(PrintPackets(names))
    ensures AllWritable(LastSettings(s, names))
  {
    ListsWritable(PrintEndpoints(s.endpoints), PrintPackets(names));
    SettingThenWritable(HandlerWord, Text(s.handler),
                        Cat(Nested(EndpointsWord, PrintEndpoints(s.endpoints)),
                            Cat(Nested(PacketsWord, PrintPackets(names)), One(CLOSE))));
  }

  lemma NumbersThenWritable(key: Word, n: nat, key': Word, n': nat, rest: Rope)
    requires IsKeywordWord(key) && IsKeywordWord(key') && AllWritable(rest)
    ensures AllWritable(Cat(Setting(key, Number(n)), Cat(Setting(key', Number(n')), rest)))
  {
    NumberThenWritable(key', n', rest);
    NumberThenWritable(key, n, Cat(Setting(key', Number(n')), rest));
  }

  lemma FlagsThenWritable(read: bool, repeat: bool, rest: Rope)
    requires AllWritable(rest)
    ensures AllWritable(Cat(Setting(ReadWord, Flag(read)), Cat(Setting(RepeatWord, Flag(repeat)), rest)))
  {
    SettingThenWritable(RepeatWord, Flag(repeat), rest);
    SettingThenWritable(ReadWord, Flag(read), Cat(Setting(RepeatWord, Flag(repeat)), rest));
  }

  lemma MiddleWritable(s: SettingsBlock, names: seq<(string, string)>)
    requires AllWritable(LastSettings(s, names))
    ensures AllWritable(MiddleSettings(s, names))
  {
    var rest := LastSettings(s, names);
    NumbersThenWritable(SampleRateWord, s.sampleRate, ShardsWord, s.shards, rest);
    FlagsThenWritable(s.read, s.repeat,
                      Cat(Setting(SampleRateWord, Number(s.sampleRate)),
                          Cat(Setting(ShardsWord, Number(s.shards)), rest)));
  }

  lemma AddressThenWritable(protocol: string, port: nat, rest: Rope)
    requires !EndsInBackslash(protocol) && AllWritable(rest)
    ensures AllWritable(Cat(Setting(SessionWord, Text(protocol)), Cat(Setting(PortWord, Number(port)), rest)))
  {
    NumberThenWritable(PortWord, port, rest);
    SettingThenWritable(SessionWord, Text(protocol), Cat(Setting(PortWord, Number(port)), rest));
  }

  lemma FirstWritable(s: SettingsBlock, names: seq<(string, string)>)
    requires !EndsInBackslash(s.protocol) && AllWritable(MiddleSettings(s, names))
    ensures AllWritable(FirstSettings(s, names))
  {
    var rest := MiddleSettings(s, names);
    NumbersThenWritable(HeaderSizeWord, s.headerSize, BodyMaxWord, s.bodyMax, rest);
    AddressThenWritable(s.protocol, s.port,
                        Cat(Setting(HeaderSizeWord, Number(s.headerSize)),
                            Cat(Setting(BodyMaxWord, Number(s.bodyMax)), rest)));
  }

  lemma BlockWritable(keyword: Word, name: string, body: Rope)
    requires IsKeywordWord(keyword) && IsName(name) && AllWritable(body)
    ensures AllWritable(Block(keyword, name, body))
  {
    CatWritable(Three(Key(keyword), Name(name), OPEN), body);
  }

  lemma SettingsWritable(s: SettingsBlock, names: seq<(string, string)>)
    requires IsName(s.identifier) && !EndsInBackslash(s.protocol) && !EndsInBackslash(s.handler)
    requires AllWritable(PrintEndpoints(s.endpoints)) && AllWritable(PrintPackets(names))
    ensures AllWritable(PrintSettings(s, names))
  {
    LastWritable(s, names);
    MiddleWritable(s, names);
    FirstWritable(s, names);
    BlockWritable(SettingsWord, s.identifier, FirstSettings(s, names));
  }

  lemma ScriptWritable(s: Script, names: seq<(string, string)>)
    requires AllBalanced(s.orchestrator.actions) && WritableScript(s, names)
    ensures AllWritable(PrintScript(s, names))
  {
    EndpointsWritable(s.settings.endpoints);
    PacketsWritable(names);
    SettingsWritable(s.settings, names);
    ActionsWritable(s.orchestrator.actions);
    BlockWritable(OrchestratorWord, s.orchestrator.settingsIdentifier, PrintActions(s.orchestrator.actions));
    CatWritable(PrintSettings(s.settings, names), PrintOrchestrator(s.orchestrator));
  }

  // --- Text ---

  ghost function Write(s: Script, names: seq<(string, string)>): string
    requires AllBalanced(s.orchestrator.actions)
  {
    Print(Tokens(Flatten(PrintScript(s, names))))
  }

  /** What the lexer and the parser make of a text. */
  function Read(text: string): Option<Script> {
    match Lex(text, 0, KEYWORDS)
    case None => None
    case Some(tokens) => Parse(Syms(Lexemes(tokens)), 0, NO_SCRIPT)
  }

  /** The lexer and the parser, one after the other. */
  method ReadScript(text: string) returns (ok: bool, script: Script)
    ensures ok == Read(text).Some? && (ok ==> Read(text) == Some(script))
  {
    script := NO_SCRIPT;
    var lexer := new Lexer(text, KEYWORDS);
    var tokens: seq<Token>;
    ok, tokens := lexer.Tokenize();
    if !ok {
      return;
    }
    var parser := new Parser(Syms(Lexemes(tokens)));
    ok, script := parser.ParseScript(NO_SCRIPT);
  }

  /** Reading inverts writing: every script that can be written, written and read, is the same script. */
  lemma ReadWrite(s: Script, names: seq<(string, string)>)
    requires PrintableScript(s, names) && WritableScript(s, names)
    ensures Read(Write(s, names)) == Some(s)
  {
    var r := PrintScript(s, names);
    ScriptWritable(s, names);
    FlattenWritable(r);
    TokensWellFormed(Flatten(r));
    LexPrinted(Tokens(Flatten(r)), KEYWORDS);
    TokensRead(r);
    ScriptReadBack(Syms(Tokens(Flatten(r))), s, names);
  }
}
