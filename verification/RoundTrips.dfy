/** Printing whole scripts, and the proof that lexing and parsing them gives the same script back. */
module RoundTrips {
  import opened Bytes
  import opened Scripts
  import opened Lexers
  import opened Printers
  import opened Numbers
  import opened Grammar

  // --- Pieces of a printed script ---

  /** A word of the language, a text of the user's, or the name of a time format. */
  datatype Piece = Spelled(kind: TokenKind, word: Word) | Free(kind: TokenKind, text: string) | FormatName(text: string)

  function Key(w: Word): Piece { Spelled(Keyword, w) }
  function Op(w: Word): Piece { Spelled(Operator, w) }
  function Fixed(w: Word): Piece { Spelled(Value, w) }
  function Text(text: string): Piece { Free(Value, text) }
  function Name(text: string): Piece { Free(Identity, text) }
  function Number(n: nat): Piece { Text(Decimal(n)) }

  const OPEN := Free(BraceOpen, "{")
  const CLOSE := Free(BraceClosed, "}")

  /** The token `x` is what `piece` is printed as. */
  predicate IsPrinted(x: Sym, piece: Piece) {
    match piece
    case Spelled(kind, word) => x.kind == kind && x.word == word
    case Free(kind, text) => x.kind == kind && x.text == text
    case FormatName(text) => x.kind == Value && x.text == text && IsFormat(x.word)
  }

  /** A printout: pieces, and printouts one after the other. */
  datatype Rope =
    | Nothing | One(a: Piece) | Two(a: Piece, b: Piece) | Three(a: Piece, b: Piece, c: Piece)
    | Cat(left: Rope, right: Rope)

  /** The position behind a printout that stands in `ts` at `p`. */
  ghost function Behind(ts: seq<Sym>, p: nat, r: Rope): (e: Option<nat>)
    ensures e.Some? ==> p <= e.value <= |ts|
    decreases r
  {
    match r
    case Nothing => if p <= |ts| then Some(p) else None
    case One(a) => if p < |ts| && IsPrinted(ts[p], a) then Some(p + 1) else None
    case Two(a, b) => if p + 1 < |ts| && IsPrinted(ts[p], a) && IsPrinted(ts[p + 1], b) then Some(p + 2) else None
    case Three(a, b, c) =>
      if p + 2 < |ts| && IsPrinted(ts[p], a) && IsPrinted(ts[p + 1], b) && IsPrinted(ts[p + 2], c) then Some(p + 3)
      else None
    case Cat(left, right) =>
      match Behind(ts, p, left)
      case None => None
      case Some(q) => Behind(ts, q, right)
  }

  lemma Between(ts: seq<Sym>, p: nat, left: Rope, right: Rope, e: nat) returns (q: nat)
    requires Behind(ts, p, Cat(left, right)) == Some(e)
    ensures p <= q <= e <= |ts| && Behind(ts, p, left) == Some(q) && Behind(ts, q, right) == Some(e)
  {
    q := Behind(ts, p, left).value;
  }

  // --- Printing ---

  function PrintRange(r: Range): Rope {
    Three(Number(r.start), Op(ColonWord), Number(r.second))
  }

  function Endianness(little: bool): Piece {
    Fixed(if little then LittleWord else BigWord)
  }

  function PrintArguments(r: Range, little: bool, last: Piece): Rope {
    Cat(PrintRange(r), Three(Endianness(little), Op(ColonWord), last))
  }

  function PrintModification(m: Modification): Rope {
    match m
    case CounterMod(c) =>
      Cat(One(Key(CounterWord)), PrintArguments(c.counterBytes, c.littleEndian, Number(c.counterStep)))
    case TimestampMod(t) =>
      Cat(One(Key(TimestampWord)), PrintArguments(t.timestampBytes, t.littleEndian, FormatName(t.formatName)))
  }

  function PrintModifications(mods: seq<Modification>): Rope {
    if mods == [] then Nothing else Cat(PrintModification(mods[0]), PrintModifications(mods[1..]))
  }

  /** A time in milliseconds, or in seconds where only their cut product gives it. */
  ghost function TimeText(ms: nat): string {
    if !Small(ms) && exists v: nat :: IsCutFrom(ms, v) then
      var v: nat :| IsCutFrom(ms, v);
      InSeconds(v)
    else Milliseconds(ms)
  }

  predicate IsCutFrom(ms: nat, v: nat) {
    Small(v) && CutSeconds(v) == ms
  }

  /** The parser can read `ms` as a time. */
  ghost predicate ReadableTime(ms: nat) {
    Small(ms) || exists v: nat :: IsCutFrom(ms, v)
  }

  ghost function PrintOffset(ms: nat): Rope {
    Two(Key(OffsetWord), Text(TimeText(ms)))
  }

  function WordOfKind(kind: ActionType): Word {
    match kind
    case Create => CreateWord
    case Connect => ConnectWord
    case Send => SendWord
    case Flood => FloodWord
    case Drain => DrainWord
    case Disconnect => DisconnectWord
  }

  /** An action line without its offset; `mods` are the action's modifications in order. */
  function PrintHead(a: Action, mods: seq<Modification>): Rope {
    match a.kind
    case Create => Two(Key(CreateWord), Number(a.count))
    case Send =>
      Cat(One(Key(SendWord)), Cat(PrintRange(a.range), PrintTail(a.packetIdentifier, a.count, mods)))
    case _ => Cat(One(Key(WordOfKind(a.kind))), Cat(PrintRange(a.range), Nothing))
  }

  function PrintTail(id: string, count: nat, mods: seq<Modification>): Rope {
    Cat(Three(Name(id), Key(CopiesWord), Number(count)), PrintModifications(mods))
  }

  ghost function PrintAction(a: Action): Rope
    requires a.Balanced()
  {
    Cat(PrintHead(a, a.Modifications()), PrintOffset(a.offsetMs))
  }

  ghost predicate AllBalanced(actions: seq<Action>) {
    actions == [] || (actions[0].Balanced() && AllBalanced(actions[1..]))
  }

  ghost function PrintActions(actions: seq<Action>): Rope
    requires AllBalanced(actions)
  {
    if actions == [] then One(CLOSE) else Cat(PrintAction(actions[0]), PrintActions(actions[1..]))
  }

  // --- What can be printed ---

  predicate Small(n: nat) {
    n < 0x8000_0000
  }

  predicate SmallRange(r: Range) {
    Small(r.start) && Small(r.second)
  }

  predicate SmallModification(m: Modification) {
    SmallRange(m.Bytes()) && (m.CounterMod? ==> Small(m.counter.counterStep))
  }

  ghost predicate SmallModifications(mods: seq<Modification>) {
    mods == [] || (SmallModification(mods[0]) && SmallModifications(mods[1..]))
  }

  /** The formats of the timestamps are formats of the language. */
  ghost predicate FormatsKnown(mods: seq<Modification>) {
    mods == [] ||
    ((mods[0].TimestampMod? ==> IsFormat(WordOf(mods[0].timestamp.formatName))) && FormatsKnown(mods[1..]))
  }

  predicate IsName(text: string) {
    IsWord(text) && text !in KEYWORDS
  }

  /** Numbers fit the parser's integers, and fields the kind does not use have their initial values. */
  ghost predicate PrintableAction(a: Action) {
    && a.Balanced() && ReadableTime(a.offsetMs) && Small(a.count) && SmallRange(a.range)
    && match a.kind
       case Create => a.range == Range(0, a.count) && a.packetIdentifier == "" && a.modOrder == []
       case Send => SmallModifications(a.Modifications())
       case _ => a.count == 0 && a.packetIdentifier == "" && a.modOrder == []
  }

  ghost predicate PrintableActions(actions: seq<Action>) {
    actions == [] || (PrintableAction(actions[0]) && PrintableActions(actions[1..]))
  }

  // --- Reading modifications back ---

  lemma RangeReadBack(ts: seq<Sym>, p: nat, r: Range, e: nat)
    requires Behind(ts, p, PrintRange(r)) == Some(e) && SmallRange(r)
    ensures e == p + 3 && Is(ts, p, Value) && ParseRange(ts, p + 1, ts[p]) == Some((r, e))
  {
    PlainNumberReadBack(r.start);
    PlainNumberReadBack(r.second);
  }

  lemma ArgumentsReadBack(ts: seq<Sym>, p: nat, r: Range, little: bool, last: Piece, e: nat)
    requires SmallRange(r) && (last.FormatName? || last.kind == Value)
    requires Behind(ts, p, PrintArguments(r, little, last)) == Some(e)
    ensures p < e <= |ts| && IsPrinted(ts[e - 1], last)
    ensures ParseOptionArguments(ts, p) == Some((Arguments(r, little, ts[e - 1]), e))
  {
    var q := Between(ts, p, PrintRange(r), Three(Endianness(little), Op(ColonWord), last), e);
    RangeReadBack(ts, p, r, q);
    ThreeStand(ts, q, Endianness(little), Op(ColonWord), last, e);
  }

  lemma ThreeStand(ts: seq<Sym>, p: nat, a: Piece, b: Piece, c: Piece, e: nat)
    requires Behind(ts, p, Three(a, b, c)) == Some(e)
    ensures e == p + 3 <= |ts| && IsPrinted(ts[p], a) && IsPrinted(ts[p + 1], b) && IsPrinted(ts[p + 2], c)
  {
  }

  lemma CounterReadBack(ts: seq<Sym>, p: nat, c: CounterModification, e: nat)
    requires Behind(ts, p, PrintArguments(c.counterBytes, c.littleEndian, Number(c.counterStep))) == Some(e)
    requires SmallRange(c.counterBytes) && Small(c.counterStep)
    ensures ParseModification(ts, p, true) == Some((CounterMod(c), e))
  {
    ArgumentsReadBack(ts, p, c.counterBytes, c.littleEndian, Number(c.counterStep), e);
    PlainNumberReadBack(c.counterStep);
  }

  lemma TimestampReadBack(ts: seq<Sym>, p: nat, t: TimestampModification, e: nat)
    requires Behind(ts, p, PrintArguments(t.timestampBytes, t.littleEndian, FormatName(t.formatName))) == Some(e)
    requires SmallRange(t.timestampBytes)
    ensures ParseModification(ts, p, false) == Some((TimestampMod(t), e))
  {
    ArgumentsReadBack(ts, p, t.timestampBytes, t.littleEndian, FormatName(t.formatName), e);
  }

  lemma KeyFirst(ts: seq<Sym>, p: nat, w: Word, rest: Rope, e: nat)
    requires Behind(ts, p, Cat(One(Key(w)), rest)) == Some(e)
    ensures Is(ts, p, Keyword) && ts[p].word == w && Behind(ts, p + 1, rest) == Some(e)
  {
    var q := Between(ts, p, One(Key(w)), rest, e);
    OneKey(ts, p, w, q);
  }

  lemma OneKey(ts: seq<Sym>, p: nat, w: Word, q: nat)
    requires Behind(ts, p, One(Key(w))) == Some(q)
    ensures Is(ts, p, Keyword) && ts[p].word == w && q == p + 1
  {
  }

  lemma ModificationReadBack(ts: seq<Sym>, p: nat, m: Modification, e: nat)
    requires Behind(ts, p, PrintModification(m)) == Some(e) && SmallModification(m)
    ensures Is(ts, p, Keyword) && ts[p].word == (if m.CounterMod? then CounterWord else TimestampWord)
    ensures ParseModification(ts, p + 1, m.CounterMod?) == Some((m, e))
  {
    if m.CounterMod? {
      var c := m.counter;
      KeyFirst(ts, p, CounterWord, PrintArguments(c.counterBytes, c.littleEndian, Number(c.counterStep)), e);
      CounterReadBack(ts, p + 1, c, e);
    } else {
      var t := m.timestamp;
      KeyFirst(ts, p, TimestampWord, PrintArguments(t.timestampBytes, t.littleEndian, FormatName(t.formatName)), e);
      TimestampReadBack(ts, p + 1, t, e);
    }
  }

  lemma ModificationsStep(ts: seq<Sym>, p: nat, m: Modification, q: nat, rest: seq<Modification>, e: nat)
    requires Is(ts, p, Keyword) && ts[p].word == (if m.CounterMod? then CounterWord else TimestampWord)
    requires ParseModification(ts, p + 1, m.CounterMod?) == Some((m, q)) && ParseModifications(ts, q) == Some((rest, e))
    ensures ParseModifications(ts, p) == Some(([m] + rest, e))
  {
  }

  /** One modification, in front of what can be parsed. */
  lemma OneModificationReadBack(ts: seq<Sym>, p: nat, m: Modification, q: nat, rest: seq<Modification>, e: nat)
    requires SmallModification(m) && Behind(ts, p, PrintModification(m)) == Some(q)
             && ParseModifications(ts, q) == Some((rest, e))
    ensures p <= |ts| && ParseModifications(ts, p) == Some(([m] + rest, e))
  {
    ModificationReadBack(ts, p, m, q);
    ModificationsStep(ts, p, m, q, rest, e);
  }

  lemma FirstModification(ts: seq<Sym>, p: nat, mods: seq<Modification>, e: nat) returns (q: nat)
    requires mods != [] && Behind(ts, p, PrintModifications(mods)) == Some(e) && SmallModifications(mods)
    ensures Behind(ts, p, PrintModification(mods[0])) == Some(q)
            && Behind(ts, q, PrintModifications(mods[1..])) == Some(e)
    ensures SmallModification(mods[0]) && SmallModifications(mods[1..])
  {
    q := Between(ts, p, PrintModification(mods[0]), PrintModifications(mods[1..]), e);
  }

  lemma NoModificationReadBack(ts: seq<Sym>, p: nat, e: nat)
    requires Behind(ts, p, Nothing) == Some(e) && e < |ts| && ts[e].word == OffsetWord
    ensures p <= |ts| && ParseModifications(ts, p) == Some(([], e))
  {
  }

  /** The modifications, behind which an OFFSET stands. */
  lemma {:induction false} ModificationsReadBack(ts: seq<Sym>, p: nat, mods: seq<Modification>, e: nat)
    requires Behind(ts, p, PrintModifications(mods)) == Some(e) && SmallModifications(mods)
    requires e < |ts| && ts[e].word == OffsetWord
    ensures p <= |ts| && ParseModifications(ts, p) == Some((mods, e))
    decreases |mods|
  {
    if mods == [] {
      NoModificationReadBack(ts, p, e);
    } else {
      var q := FirstModification(ts, p, mods, e);
      ModificationsReadBack(ts, q, mods[1..], e);
      OneModificationReadBack(ts, p, mods[0], q, mods[1..], e);
      HeadAndTail(mods);
    }
  }

  lemma OffsetReadBack(ts: seq<Sym>, p: nat, ms: nat, e: nat)
    requires Behind(ts, p, PrintOffset(ms)) == Some(e) && ReadableTime(ms)
    ensures p < |ts| && ts[p].word == OffsetWord && ParseOffset(ts, p) == Some((ms, e))
  {
    TimeTextReadBack(ms);
  }

  lemma TimeTextReadBack(ms: nat)
    requires ReadableTime(ms)
    ensures ReadTime(TimeText(ms)) == Some(ms)
  {
    if Small(ms) {
      TimeReadBack(ms);
    } else {
      var v: nat :| IsCutFrom(ms, v) && TimeText(ms) == InSeconds(v);
      TimeReadBack(v);
    }
  }

  // --- The lists of an action ---

  lemma {:induction false} CountersCons(m: Modification, rest: seq<Modification>)
    ensures Counters([m] + rest) == (if m.CounterMod? then [m.counter] else []) + Counters(rest)
  {
    var all, n := [m] + rest, |rest|;
    if rest == [] {
      assert all[..n] == [];
    } else {
      assert all[..n] == [m] + rest[..n - 1] && all[n] == rest[n - 1];
      CountersCons(m, rest[..n - 1]);
    }
  }

  lemma {:induction false} TimestampsCons(m: Modification, rest: seq<Modification>)
    ensures Timestamps([m] + rest) == (if m.TimestampMod? then [m.timestamp] else []) + Timestamps(rest)
  {
    var all, n := [m] + rest, |rest|;
    if rest == [] {
      assert all[..n] == [];
    } else {
      assert all[..n] == [m] + rest[..n - 1] && all[n] == rest[n - 1];
      TimestampsCons(m, rest[..n - 1]);
    }
  }

  lemma {:induction false} KindsCons(m: Modification, rest: seq<Modification>)
    ensures Kinds([m] + rest) == [m.Kind()] + Kinds(rest)
  {
    var all, n := [m] + rest, |rest|;
    if rest == [] {
      assert all[..n] == [];
    } else {
      assert all[..n] == [m] + rest[..n - 1] && all[n] == rest[n - 1];
      KindsCons(m, rest[..n - 1]);
    }
  }

  lemma ListsCons(m: Modification, rest: seq<Modification>)
    ensures Counters([m] + rest) == (if m.CounterMod? then [m.counter] else []) + Counters(rest)
    ensures Timestamps([m] + rest) == (if m.TimestampMod? then [m.timestamp] else []) + Timestamps(rest)
    ensures Kinds([m] + rest) == [m.Kind()] + Kinds(rest)
  {
    CountersCons(m, rest);
    TimestampsCons(m, rest);
    KindsCons(m, rest);
  }

  /** The lists an action keeps are those of the list they stand for. */
  lemma ConsSplits(m: Modification, rest: seq<Modification>, order: seq<ModificationType>,
                   cs: seq<CounterModification>, ts: seq<TimestampModification>)
    requires Counters(rest) == cs && Timestamps(rest) == ts && Kinds(rest) == order
    ensures Counters([m] + rest) == (if m.CounterMod? then [m.counter] + cs else cs)
    ensures Timestamps([m] + rest) == (if m.TimestampMod? then [m.timestamp] + ts else ts)
    ensures Kinds([m] + rest) == [m.Kind()] + order
  {
    ListsCons(m, rest);
    assert [] + cs == cs && [] + ts == ts;
  }

  lemma {:induction false} MergeSplits(order: seq<ModificationType>, cs: seq<CounterModification>,
                                       ts: seq<TimestampModification>)
    requires Matches(order, cs, ts)
    ensures var mods := Merge(order, cs, ts); Counters(mods) == cs && Timestamps(mods) == ts && Kinds(mods) == order
  {
    if order != [] {
      assert order == [order[0]] + order[1..];
      if order[0] == CounterType {
        MergeSplits(order[1..], cs[1..], ts);
        ConsSplits(CounterMod(cs[0]), Merge(order[1..], cs[1..], ts), order[1..], cs[1..], ts);
        HeadAndTail(cs);
      } else {
        MergeSplits(order[1..], cs, ts[1..]);
        ConsSplits(TimestampMod(ts[0]), Merge(order[1..], cs, ts[1..]), order[1..], cs, ts[1..]);
        HeadAndTail(ts);
      }
    }
  }

  lemma HeadAndTail<T>(s: seq<T>)
    requires s != []
    ensures [s[0]] + s[1..] == s
  {
  }

  lemma MakeActionAgain(a: Action)
    requires a.Balanced()
    ensures MakeAction(a.kind, a.count, a.range, a.packetIdentifier, a.Modifications(), a.offsetMs) == a
    ensures a.modOrder == [] ==> a.Modifications() == []
  {
    MergeSplits(a.modOrder, a.counterMods, a.timestampMods);
  }

  // --- Reading actions back ---

  lemma KindReadBack(kind: ActionType)
    ensures KindOf(WordOfKind(kind)) == Some(kind)
  {
  }

  lemma CreateReadBack(ts: seq<Sym>, p: nat, count: uint32, e: nat)
    requires Behind(ts, p, Two(Key(CreateWord), Number(count))) == Some(e) && Small(count)
    ensures ParseActionHead(ts, p) == Some((MakeAction(Create, count, Range(0, count), "", [], 0), e))
  {
    PlainNumberReadBack(count);
  }

  lemma SendHeadReadBack(ts: seq<Sym>, q: nat, id: string, count: uint32, m: nat)
    requires Behind(ts, q, Three(Name(id), Key(CopiesWord), Number(count))) == Some(m) && Small(count)
    ensures ParseSendHead(ts, q) == Some(((id, count), m))
  {
    PlainNumberReadBack(count);
  }

  lemma WithTail(ts: seq<Sym>, q: nat, range: Range, id: string, count: uint32, m: nat, mods: seq<Modification>, e: nat)
    requires m <= |ts| && ParseSendHead(ts, q) == Some(((id, count), m)) && ParseModifications(ts, m) == Some((mods, e))
    ensures ParseSendTail(ts, q, range) == Some((MakeAction(Send, count, range, id, mods, 0), e))
  {
  }

  lemma TailReadBack(ts: seq<Sym>, q: nat, range: Range, id: string, count: uint32, mods: seq<Modification>, e: nat)
    requires Behind(ts, q, PrintTail(id, count, mods)) == Some(e) && Small(count) && SmallModifications(mods)
    requires e < |ts| && ts[e].word == OffsetWord
    ensures ParseSendTail(ts, q, range) == Some((MakeAction(Send, count, range, id, mods, 0), e))
  {
    var m := Between(ts, q, Three(Name(id), Key(CopiesWord), Number(count)), PrintModifications(mods), e);
    SendHeadReadBack(ts, q, id, count, m);
    ModificationsReadBack(ts, m, mods, e);
    WithTail(ts, q, range, id, count, m, mods, e);
  }

  /** An action with a range, whose first number stands behind the keyword. */
  lemma RangedReadBack(ts: seq<Sym>, p: nat, kind: ActionType, range: Range, rest: Rope, e: nat) returns (q: nat)
    requires Behind(ts, p, Cat(One(Key(WordOfKind(kind))), Cat(PrintRange(range), rest))) == Some(e)
    requires SmallRange(range) && kind != Create
    ensures Behind(ts, q, rest) == Some(e)
    ensures ParseActionHead(ts, p) ==
            if kind == Send then ParseSendTail(ts, q, range) else Some((MakeAction(kind, 0, range, "", [], 0), q))
  {
    KeyFirst(ts, p, WordOfKind(kind), Cat(PrintRange(range), rest), e);
    q := Between(ts, p + 1, PrintRange(range), rest, e);
    RangeReadBack(ts, p + 1, range, q);
    KindReadBack(kind);
  }

  lemma HeadReadBack(ts: seq<Sym>, p: nat, a: Action, mods: seq<Modification>, e: nat)
    requires PrintableAction(a) && mods == a.Modifications()
    requires Behind(ts, p, PrintHead(a, mods)) == Some(e) && e < |ts| && ts[e].word == OffsetWord
    ensures ParseActionHead(ts, p) == Some((MakeAction(a.kind, a.count, a.range, a.packetIdentifier, mods, 0), e))
  {
    MakeActionAgain(a);
    if a.kind == Create {
      CreateReadBack(ts, p, a.count, e);
    } else if a.kind == Send {
      var q := RangedReadBack(ts, p, Send, a.range, PrintTail(a.packetIdentifier, a.count, mods), e);
      TailReadBack(ts, q, a.range, a.packetIdentifier, a.count, mods, e);
    } else {
      var q := RangedReadBack(ts, p, a.kind, a.range, Nothing, e);
    }
  }

  lemma WithOffset(ts: seq<Sym>, p: nat, a: Action, q: nat, ms: uint32, e: nat)
    requires p <= |ts| && ParseActionHead(ts, p) == Some((a, q)) && ParseOffset(ts, q) == Some((ms, e))
    ensures ParseAction(ts, p) == Some((a.(offsetMs := ms), e))
  {
  }

  lemma ActionReadBack(ts: seq<Sym>, p: nat, a: Action, mods: seq<Modification>, e: nat)
    requires PrintableAction(a) && mods == a.Modifications()
    requires Behind(ts, p, Cat(PrintHead(a, mods), PrintOffset(a.offsetMs))) == Some(e)
    ensures p <= |ts| && ParseAction(ts, p) == Some((a, e))
  {
    var q := Between(ts, p, PrintHead(a, mods), PrintOffset(a.offsetMs), e);
    OffsetReadBack(ts, q, a.offsetMs, e);
    HeadReadBack(ts, p, a, mods, q);
    MakeActionAgain(a);
    WithOffset(ts, p, MakeAction(a.kind, a.count, a.range, a.packetIdentifier, mods, 0), q, a.offsetMs, e);
  }

  lemma ActionsStep(ts: seq<Sym>, p: nat, a: Action, q: nat, rest: seq<Action>, e: nat)
    requires p <= |ts| && ParseAction(ts, p) == Some((a, q)) && ParseActions(ts, q) == Some((rest, e))
    ensures ParseActions(ts, p) == Some(([a] + rest, e))
  {
  }

  /** An action line, in front of what can be parsed. */
  lemma FirstReadBack(ts: seq<Sym>, p: nat, a: Action, q: nat, rest: seq<Action>, e: nat)
    requires PrintableAction(a) && Behind(ts, p, PrintAction(a)) == Some(q) && ParseActions(ts, q) == Some((rest, e))
    ensures p <= |ts| && ParseActions(ts, p) == Some(([a] + rest, e))
  {
    ActionReadBack(ts, p, a, a.Modifications(), q);
    ActionsStep(ts, p, a, q, rest, e);
  }

  lemma NoActionReadBack(ts: seq<Sym>, p: nat, e: nat)
    requires Behind(ts, p, One(CLOSE)) == Some(e)
    ensures p <= |ts| && ParseActions(ts, p) == Some(([], e))
  {
  }

  lemma FirstAction(ts: seq<Sym>, p: nat, actions: seq<Action>, e: nat) returns (q: nat)
    requires actions != [] && AllBalanced(actions) && PrintableActions(actions)
             && Behind(ts, p, PrintActions(actions)) == Some(e)
    ensures PrintableAction(actions[0]) && AllBalanced(actions[1..]) && PrintableActions(actions[1..])
    ensures Behind(ts, p, PrintAction(actions[0])) == Some(q) && Behind(ts, q, PrintActions(actions[1..])) == Some(e)
  {
    q := Between(ts, p, PrintAction(actions[0]), PrintActions(actions[1..]), e);
  }

  lemma {:induction false} ActionsReadBack(ts: seq<Sym>, p: nat, actions: seq<Action>, e: nat)
    requires AllBalanced(actions) && PrintableActions(actions) && Behind(ts, p, PrintActions(actions)) == Some(e)
    ensures p <= |ts| && ParseActions(ts, p) == Some((actions, e))
    decreases |actions|
  {
    if actions == [] {
      NoActionReadBack(ts, p, e);
    } else {
      var q := FirstAction(ts, p, actions, e);
      ActionsReadBack(ts, q, actions[1..], e);
      FirstReadBack(ts, p, actions[0], q, actions[1..], e);
      HeadAndTail(actions);
    }
  }

  // --- Blocks ---

  function Block(keyword: Word, name: string, body: Rope): Rope {
    Cat(Three(Key(keyword), Name(name), OPEN), body)
  }

  lemma BlockOpens(ts: seq<Sym>, p: nat, keyword: Word, name: string, body: Rope, e: nat)
    requires Behind(ts, p, Block(keyword, name, body)) == Some(e)
    ensures p + 3 <= |ts| && ts[p].word == keyword && Is(ts, p + 1, Identity) && ts[p + 1].text == name
    ensures Is(ts, p + 2, BraceOpen) && Behind(ts, p + 3, body) == Some(e)
  {
    var q := Between(ts, p, Three(Key(keyword), Name(name), OPEN), body, e);
  }

  ghost function PrintOrchestrator(o: OrchestratorBlock): Rope
    requires AllBalanced(o.actions)
  {
    Block(OrchestratorWord, o.settingsIdentifier, PrintActions(o.actions))
  }

  lemma OrchestratorBody(ts: seq<Sym>, p: nat, o: OrchestratorBlock, before: OrchestratorBlock, e: nat)
    requires Is(ts, p, Identity) && ts[p].text == o.settingsIdentifier && Is(ts, p + 1, BraceOpen)
    requires p + 2 <= |ts| && ParseActions(ts, p + 2) == Some((o.actions, e)) && before.actions == []
    ensures ParseOrchestrator(ts, p, before) == Some((o, e))
  {
    assert [] + o.actions == o.actions;
  }

  lemma OrchestratorReadBack(ts: seq<Sym>, p: nat, o: OrchestratorBlock, script: Script, e: nat)
    requires AllBalanced(o.actions) && PrintableActions(o.actions) && Behind(ts, p, PrintOrchestrator(o)) == Some(e)
    requires script.orchestrator.actions == []
    ensures p < |ts| && ParseBlock(ts, p, script) == Some((script.(orchestrator := o), e))
  {
    BlockOpens(ts, p, OrchestratorWord, o.settingsIdentifier, PrintActions(o.actions), e);
    ActionsReadBack(ts, p + 3, o.actions, e);
    OrchestratorBody(ts, p + 1, o, script.orchestrator, e);
  }
}
