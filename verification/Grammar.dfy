/** The grammar of scripts: what a sequence of tokens stands for. */
module Grammar {
  import opened Bytes
  import opened Scripts
  import opened Lexers
  import opened Numbers

  /** The texts the parser looks for. */
  datatype Word =
    | SettingsWord | OrchestratorWord
    | SessionWord | PortWord | HeaderSizeWord | BodyMaxWord | ReadWord | RepeatWord | SampleRateWord | ShardsWord
    | HandlerWord
    | EndpointsWord | PacketsWord
    | CreateWord | ConnectWord | SendWord | FloodWord | DrainWord | DisconnectWord
    | OffsetWord | CopiesWord | TimestampWord | CounterWord
    | EqualsWord | CommaWord | ColonWord
    | TrueWord | FalseWord | LittleWord | BigWord
    | SecondsWord | MillisecondsWord | MicrosecondsWord | NanosecondsWord
    | OtherWord

  function ShortWordOf(text: string): Word {
    if text == "PORT" then PortWord
    else if text == "READ" then ReadWord
    else if text == "SEND" then SendWord
    else if text == "=" then EqualsWord
    else if text == "," then CommaWord
    else if text == ":" then ColonWord
    else if text == "true" then TrueWord
    else if text == "big" then BigWord
    else OtherWord
  }

  function MiddleWordOf(text: string): Word {
    if text == "REPEAT" then RepeatWord
    else if text == "SHARDS" then ShardsWord
    else if text == "CREATE" then CreateWord
    else if text == "FLOOD" then FloodWord
    else if text == "DRAIN" then DrainWord
    else if text == "OFFSET" then OffsetWord
    else if text == "COPIES" then CopiesWord
    else if text == "false" then FalseWord
    else if text == "little" then LittleWord
    else OtherWord
  }

  function SevenLetterWordOf(text: string): Word {
    if text == "SESSION" then SessionWord
    else if text == "BODYMAX" then BodyMaxWord
    else if text == "HANDLER" then HandlerWord
    else if text == "PACKETS" then PacketsWord
    else if text == "CONNECT" then ConnectWord
    else if text == "COUNTER" then CounterWord
    else if text == "seconds" then SecondsWord
    else OtherWord
  }

  function LongWordOf(text: string): Word {
    if text == "SETTINGS" then SettingsWord
    else if text == "ORCHESTRATOR" then OrchestratorWord
    else if text == "HEADERSIZE" then HeaderSizeWord
    else if text == "SAMPLERATE" then SampleRateWord
    else if text == "ENDPOINTS" then EndpointsWord
    else if text == "DISCONNECT" then DisconnectWord
    else if text == "TIMESTAMP" then TimestampWord
    else if text == "milliseconds" then MillisecondsWord
    else if text == "microseconds" then MicrosecondsWord
    else if text == "nanoseconds" then NanosecondsWord
    else OtherWord
  }

  /** The text is looked up among the words of its length. */
  function WordOf(text: string): Word {
    if |text| < 5 then ShortWordOf(text)
    else if |text| < 7 then MiddleWordOf(text)
    else if |text| == 7 then SevenLetterWordOf(text)
    else LongWordOf(text)
  }

  /** A token with its text looked up. */
  datatype Sym = Sym(kind: TokenKind, word: Word, text: string)

  function SymOf(l: Lexeme): Sym {
    Sym(l.kind, WordOf(l.text), l.text)
  }

  function Syms(ls: seq<Lexeme>): (r: seq<Sym>)
    ensures |r| == |ls| && forall i :: 0 <= i < |ls| ==> r[i] == SymOf(ls[i])
  {
    seq(|ls|, i requires 0 <= i < |ls| => SymOf(ls[i]))
  }

  // --- Script values ---

  datatype SettingsBlock = SettingsBlock(
    identifier: string, protocol: string, headerSize: uint32, bodyMax: uint32, read: bool, repeat: bool,
    sampleRate: uint32, shards: uint32, port: uint16, handler: string,
    endpoints: seq<string>, packets: map<string, string>)

  datatype OrchestratorBlock = OrchestratorBlock(settingsIdentifier: string, actions: seq<Action>)

  datatype Script = Script(settings: SettingsBlock, orchestrator: OrchestratorBlock)

  const NO_SETTINGS := SettingsBlock("", "", 0, 0, false, false, 0, 0, 0, "", [], map[])
  const NO_SCRIPT := Script(NO_SETTINGS, OrchestratorBlock("", []))

  const DEFAULT_OFFSET_MS := 250

  // --- Looking at tokens ---

  const END := Sym(Value, OtherWord, "EOF")

  function At(ts: seq<Sym>, p: nat): Sym {
    if p < |ts| then ts[p] else END
  }

  predicate Is(ts: seq<Sym>, p: nat, kind: TokenKind) {
    p < |ts| && ts[p].kind == kind
  }

  predicate IsOp(ts: seq<Sym>, p: nat, word: Word) {
    Is(ts, p, Operator) && ts[p].word == word
  }

  /** A parser takes the position it starts at to a result and the position behind what it read. */
  type Parsed<T> = Option<(T, nat)>

  // --- Actions ---

  /** A range whose first number has been read. */
  function ParseRange(ts: seq<Sym>, p: nat, first: Sym): (r: Parsed<Range>)
    ensures r.Some? ==> p < r.value.1 <= |ts|
  {
    if !IsOp(ts, p, ColonWord) || !Is(ts, p + 1, Value) then None
    else
      var start, second := ReadNumber(first.text), ReadNumber(ts[p + 1].text);
      if start.None? || second.None? then None else Some((Range(start.value, second.value), p + 2))
  }

  function Endian(w: Word): Option<bool> {
    if w == LittleWord then Some(true) else if w == BigWord then Some(false) else None
  }

  predicate IsFormat(w: Word) {
    w == SecondsWord || w == MillisecondsWord || w == MicrosecondsWord || w == NanosecondsWord
  }

  datatype Arguments = Arguments(range: Range, little: bool, last: Sym)

  /** What COUNTER and TIMESTAMP have in common: a range, the byte order and one more value. */
  function ParseOptionArguments(ts: seq<Sym>, p: nat): (r: Parsed<Arguments>)
    ensures r.Some? ==> p < r.value.1 <= |ts|
  {
    if !Is(ts, p, Value) then None
    else
      match ParseRange(ts, p + 1, ts[p])
      case None => None
      case Some((range, q)) =>
        if !Is(ts, q, Value) || !IsOp(ts, q + 1, ColonWord) || !Is(ts, q + 2, Value) then None
        else
          match Endian(ts[q].word)
          case None => None
          case Some(little) => Some((Arguments(range, little, ts[q + 2]), q + 3))
  }

  function ModificationOf(args: Arguments, counter: bool): Option<Modification> {
    if counter then
      match ReadNumber(args.last.text)
      case None => None
      case Some(step) => Some(CounterMod(CounterModification(args.range, step, args.little)))
    else if IsFormat(args.last.word) then
      Some(TimestampMod(TimestampModification(args.range, args.little, args.last.text)))
    else None
  }

  /** The modification behind a COUNTER or TIMESTAMP keyword. */
  function ParseModification(ts: seq<Sym>, p: nat, counter: bool): (r: Parsed<Modification>)
    ensures r.Some? ==> p < r.value.1 <= |ts|
  {
    match ParseOptionArguments(ts, p)
    case None => None
    case Some((args, e)) =>
      match ModificationOf(args, counter)
      case None => None
      case Some(m) => Some((m, e))
  }

  function ParseModifications(ts: seq<Sym>, p: nat): (r: Parsed<seq<Modification>>)
    requires p <= |ts|
    ensures r.Some? ==> p <= r.value.1 <= |ts|
    decreases |ts| - p
  {
    if !Is(ts, p, Keyword) || (ts[p].word != CounterWord && ts[p].word != TimestampWord) then Some(([], p))
    else
      match ParseModification(ts, p + 1, ts[p].word == CounterWord)
      case None => None
      case Some((m, q)) =>
        match ParseModifications(ts, q)
        case None => None
        case Some((rest, r)) => Some(([m] + rest, r))
  }

  function ParseOffset(ts: seq<Sym>, p: nat): (r: Parsed<uint32>)
    requires p <= |ts|
    ensures r.Some? ==> p <= r.value.1 <= |ts|
  {
    if At(ts, p).word != OffsetWord then Some((DEFAULT_OFFSET_MS, p))
    else if !Is(ts, p + 1, Value) then None
    else
      match ReadTime(ts[p + 1].text)
      case None => None
      case Some(ms) => Some((ms, p + 2))
  }

  function Counters(mods: seq<Modification>): seq<CounterModification> {
    if mods == [] then []
    else Counters(mods[..|mods| - 1]) + if mods[|mods| - 1].CounterMod? then [mods[|mods| - 1].counter] else []
  }

  function Timestamps(mods: seq<Modification>): seq<TimestampModification> {
    if mods == [] then []
    else Timestamps(mods[..|mods| - 1]) + if mods[|mods| - 1].TimestampMod? then [mods[|mods| - 1].timestamp] else []
  }

  function Kinds(mods: seq<Modification>): seq<ModificationType> {
    if mods == [] then [] else Kinds(mods[..|mods| - 1]) + [mods[|mods| - 1].Kind()]
  }

  /** An action of `kind`; what the kind does not use is as it was when the action was made. */
  function MakeAction(kind: ActionType, count: uint32, range: Range, id: string, mods: seq<Modification>,
                      offset: uint32): Action
  {
    Action(kind, count, range, offset, id, Timestamps(mods), Counters(mods), Kinds(mods))
  }

  function KindOf(w: Word): Option<ActionType> {
    match w
    case CreateWord => Some(Create)
    case ConnectWord => Some(Connect)
    case SendWord => Some(Send)
    case FloodWord => Some(Flood)
    case DrainWord => Some(Drain)
    case DisconnectWord => Some(Disconnect)
    case _ => None
  }

  /** What follows the keyword and the first value of an action, up to its offset. */
  function ParseActionBody(ts: seq<Sym>, p: nat, kind: ActionType, first: Sym): (r: Parsed<Action>)
    requires p <= |ts|
    ensures r.Some? ==> p <= r.value.1 <= |ts|
  {
    if kind == Create then
      match ReadNumber(first.text)
      case None => None
      case Some(n) => Some((MakeAction(Create, n, Range(0, n), "", [], 0), p))
    else
      match ParseRange(ts, p, first)
      case None => None
      case Some((range, q)) =>
        if kind == Send then ParseSendTail(ts, q, range) else Some((MakeAction(kind, 0, range, "", [], 0), q))
  }

  /** Everything of an action but its offset. */
  function ParseActionHead(ts: seq<Sym>, p: nat): (r: Parsed<Action>)
    requires p <= |ts|
    ensures r.Some? ==> p < r.value.1 <= |ts|
  {
    if !Is(ts, p, Keyword) || !Is(ts, p + 1, Value) then None
    else
      match KindOf(ts[p].word)
      case None => None
      case Some(kind) => ParseActionBody(ts, p + 2, kind, ts[p + 1])
  }

  /** The packet and the copies of a SEND. */
  function ParseSendHead(ts: seq<Sym>, q: nat): (r: Parsed<(string, uint32)>)
    ensures r.Some? ==> q < r.value.1 <= |ts|
  {
    if !Is(ts, q, Identity) || !Is(ts, q + 1, Keyword) || ts[q + 1].word != CopiesWord
       || !Is(ts, q + 2, Value) then None
    else
      match ReadNumber(ts[q + 2].text)
      case None => None
      case Some(copies) => Some(((ts[q].text, copies), q + 3))
  }

  /** The packet, the copies and the modifications of a SEND. */
  function ParseSendTail(ts: seq<Sym>, q: nat, range: Range): (r: Parsed<Action>)
    ensures r.Some? ==> q < r.value.1 <= |ts|
  {
    match ParseSendHead(ts, q)
    case None => None
    case Some((head, m)) =>
      match ParseModifications(ts, m)
      case None => None
      case Some((mods, e)) => Some((MakeAction(Send, head.1, range, head.0, mods, 0), e))
  }

  function ParseAction(ts: seq<Sym>, p: nat): (r: Parsed<Action>)
    requires p <= |ts|
    ensures r.Some? ==> p < r.value.1 <= |ts|
  {
    match ParseActionHead(ts, p)
    case None => None
    case Some((a, q)) =>
      match ParseOffset(ts, q)
      case None => None
      case Some((offset, e)) => Some((a.(offsetMs := offset), e))
  }

  /** The actions up to the closing brace, and that brace. */
  function ParseActions(ts: seq<Sym>, p: nat): (r: Parsed<seq<Action>>)
    requires p <= |ts|
    ensures r.Some? ==> p < r.value.1 <= |ts|
    decreases |ts| - p
  {
    if Is(ts, p, BraceClosed) then Some(([], p + 1))
    else
      match ParseAction(ts, p)
      case None => None
      case Some((a, q)) =>
        match ParseActions(ts, q)
        case None => None
        case Some((rest, e)) => Some(([a] + rest, e))
  }

  /** The block behind its keyword. */
  function ParseOrchestrator(ts: seq<Sym>, p: nat, o: OrchestratorBlock): (r: Parsed<OrchestratorBlock>)
    requires p <= |ts|
    ensures r.Some? ==> p < r.value.1 <= |ts|
  {
    if !Is(ts, p, Identity) || !Is(ts, p + 1, BraceOpen) then None
    else
      match ParseActions(ts, p + 2)
      case None => None
      case Some((actions, e)) => Some((OrchestratorBlock(ts[p].text, o.actions + actions), e))
  }

  // --- Settings ---

  /** A name and its value. */
  function ParsePacket(ts: seq<Sym>, p: nat): (r: Parsed<(string, string)>)
    ensures r.Some? ==> p < r.value.1 <= |ts|
  {
    if !Is(ts, p, Identity) || !IsOp(ts, p + 1, ColonWord) || !Is(ts, p + 2, Value) then None
    else Some(((ts[p].text, ts[p + 2].text), p + 3))
  }

  /** Names and values up to the closing brace, and that brace. */
  function ParsePackets(ts: seq<Sym>, p: nat, m: map<string, string>): (r: Parsed<map<string, string>>)
    requires p <= |ts|
    ensures r.Some? ==> p < r.value.1 <= |ts|
    decreases |ts| - p
  {
    if Is(ts, p, BraceClosed) then Some((m, p + 1))
    else
      match ParsePacket(ts, p)
      case None => None
      case Some((packet, q)) =>
        var m' := m[packet.0 := packet.1];
        if IsOp(ts, q, CommaWord) then ParsePackets(ts, q + 1, m')
        else if Is(ts, q, BraceClosed) then Some((m', q + 1))
        else None
  }

  function ParseEndpoints(ts: seq<Sym>, p: nat, es: seq<string>): (r: Parsed<seq<string>>)
    requires p <= |ts|
    ensures r.Some? ==> p < r.value.1 <= |ts|
    decreases |ts| - p
  {
    if Is(ts, p, BraceClosed) then Some((es, p + 1))
    else if !Is(ts, p, Value) then None
    else
      var es' := es + [ts[p].text];
      if IsOp(ts, p + 1, CommaWord) then ParseEndpoints(ts, p + 2, es')
      else if Is(ts, p + 1, BraceClosed) then Some((es', p + 2))
      else None
  }

  function BoolOf(w: Word): Option<bool> {
    if w == TrueWord then Some(true) else if w == FalseWord then Some(false) else None
  }

  /** Stores the value of a plain setting. */
  function Assign(s: SettingsBlock, key: Word, v: Sym): Option<SettingsBlock> {
    match key
    case SessionWord => Some(s.(protocol := v.text))
    case HandlerWord => Some(s.(handler := v.text))
    case ReadWord => var b := BoolOf(v.word); if b.None? then None else Some(s.(read := b.value))
    case RepeatWord => var b := BoolOf(v.word); if b.None? then None else Some(s.(repeat := b.value))
    case PortWord =>
      var n := ReadNumber(v.text);
      if n.None? || n.value > 65535 then None else Some(s.(port := n.value))
    case HeaderSizeWord => var n := ReadNumber(v.text); if n.None? then None else Some(s.(headerSize := n.value))
    case BodyMaxWord => var n := ReadNumber(v.text); if n.None? then None else Some(s.(bodyMax := n.value))
    case SampleRateWord => var n := ReadNumber(v.text); if n.None? then None else Some(s.(sampleRate := n.value))
    case ShardsWord => var n := ReadNumber(v.text); if n.None? then None else Some(s.(shards := n.value))
    case _ => None
  }

  /** The packets or the endpoints, behind the opening brace. */
  function ParseNested(ts: seq<Sym>, p: nat, s: SettingsBlock, key: Word): (r: Parsed<SettingsBlock>)
    requires p <= |ts|
    ensures r.Some? ==> p < r.value.1 <= |ts|
  {
    if key == PacketsWord then
      match ParsePackets(ts, p, s.packets)
      case None => None
      case Some((m, e)) => Some((s.(packets := m), e))
    else if key == EndpointsWord then
      match ParseEndpoints(ts, p, s.endpoints)
      case None => None
      case Some((es, e)) => Some((s.(endpoints := es), e))
    else None
  }

  /** The value of a plain setting, behind its keyword. */
  function ParsePlain(ts: seq<Sym>, p: nat, s: SettingsBlock, key: Word): (r: Parsed<SettingsBlock>)
    ensures r.Some? ==> p < r.value.1 <= |ts|
  {
    if !IsOp(ts, p, EqualsWord) || !Is(ts, p + 1, Value) then None
    else
      match Assign(s, key, ts[p + 1])
      case None => None
      case Some(s') => Some((s', p + 2))
  }

  function ParseSetting(ts: seq<Sym>, p: nat, s: SettingsBlock): (r: Parsed<SettingsBlock>)
    requires p <= |ts|
    ensures r.Some? ==> p < r.value.1 <= |ts|
  {
    if !Is(ts, p, Keyword) then None
    else if Is(ts, p + 1, BraceOpen) then ParseNested(ts, p + 2, s, ts[p].word)
    else ParsePlain(ts, p + 1, s, ts[p].word)
  }

  function ParseSettingsBody(ts: seq<Sym>, p: nat, s: SettingsBlock): (r: Parsed<SettingsBlock>)
    requires p <= |ts|
    ensures r.Some? ==> p < r.value.1 <= |ts|
    decreases |ts| - p
  {
    if Is(ts, p, BraceClosed) then Some((s, p + 1))
    else
      match ParseSetting(ts, p, s)
      case None => None
      case Some((s', q)) => ParseSettingsBody(ts, q, s')
  }

  /** The block behind its keyword. */
  function ParseSettings(ts: seq<Sym>, p: nat, s: SettingsBlock): (r: Parsed<SettingsBlock>)
    requires p <= |ts|
    ensures r.Some? ==> p < r.value.1 <= |ts|
  {
    if !Is(ts, p, Identity) || !Is(ts, p + 1, BraceOpen) then None
    else ParseSettingsBody(ts, p + 2, s.(identifier := ts[p].text))
  }

  // --- Scripts ---

  /** One block of a script. */
  function ParseBlock(ts: seq<Sym>, p: nat, script: Script): (r: Parsed<Script>)
    requires p < |ts|
    ensures r.Some? ==> p < r.value.1 <= |ts|
  {
    if ts[p].word == SettingsWord then
      match ParseSettings(ts, p + 1, script.settings)
      case None => None
      case Some((s, q)) => Some((script.(settings := s), q))
    else if ts[p].word == OrchestratorWord then
      match ParseOrchestrator(ts, p + 1, script.orchestrator)
      case None => None
      case Some((o, q)) => Some((script.(orchestrator := o), q))
    else None
  }

  function Parse(ts: seq<Sym>, p: nat, script: Script): Option<Script>
    requires p <= |ts|
    decreases |ts| - p
  {
    if p == |ts| then Some(script)
    else
      match ParseBlock(ts, p, script)
      case None => None
      case Some((script', q)) => Parse(ts, q, script')
  }
}
