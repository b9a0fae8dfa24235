/** What the lexer and the parser can read is exactly what can be written. */
module ReadableScripts {
  import opened Bytes
  import opened Scripts
  import opened Lexers
  import opened Printers
  import opened Numbers
  import opened Grammar
  import opened RoundTrips
  import opened ScriptRoundTrips
  import opened TextRoundTrips

  // --- The texts of a token list ---

  /** Which texts may be identifiers, values and names of time formats. */
  datatype Lexicon = Lexicon(names: iset<string>, values: iset<string>, formats: iset<string>)

  ghost predicate Allowed(x: Sym, lx: Lexicon) {
    && (x.kind == Identity ==> x.text in lx.names)
    && (x.kind == Value ==> x.text in lx.values)
    && (IsFormat(x.word) ==> x.text in lx.formats)
  }

  ghost predicate From(ts: seq<Sym>, lx: Lexicon) {
    forall i :: 0 <= i < |ts| ==> Allowed(ts[i], lx)
  }

  // --- Modifications ---

  ghost predicate KnownModification(m: Modification, lx: Lexicon) {
    SmallModification(m) && (m.TimestampMod? ==> m.timestamp.formatName in lx.formats)
  }

  ghost predicate KnownModifications(mods: seq<Modification>, lx: Lexicon) {
    mods == [] || (KnownModification(mods[0], lx) && KnownModifications(mods[1..], lx))
  }

  lemma RangeRead(ts: seq<Sym>, p: nat, first: Sym)
    requires ParseRange(ts, p, first).Some?
    ensures SmallRange(ParseRange(ts, p, first).value.0)
  {
  }

  lemma ArgumentsRead(ts: seq<Sym>, p: nat, lx: Lexicon)
    requires From(ts, lx) && ParseOptionArguments(ts, p).Some?
    ensures var args := ParseOptionArguments(ts, p).value.0; SmallRange(args.range) && Allowed(args.last, lx)
  {
    RangeRead(ts, p + 1, ts[p]);
  }

  lemma ModificationRead(ts: seq<Sym>, p: nat, counter: bool, lx: Lexicon)
    requires From(ts, lx) && ParseModification(ts, p, counter).Some?
    ensures KnownModification(ParseModification(ts, p, counter).value.0, lx)
  {
    ArgumentsRead(ts, p, lx);
  }

  lemma {:induction false} ModificationsRead(ts: seq<Sym>, p: nat, lx: Lexicon)
    requires p <= |ts| && From(ts, lx) && ParseModifications(ts, p).Some?
    ensures KnownModifications(ParseModifications(ts, p).value.0, lx)
    decreases |ts| - p
  {
    if Is(ts, p, Keyword) && (ts[p].word == CounterWord || ts[p].word == TimestampWord) {
      var counter := ts[p].word == CounterWord;
      var m, q := ParseModification(ts, p + 1, counter).value.0, ParseModification(ts, p + 1, counter).value.1;
      ModificationRead(ts, p + 1, counter, lx);
      ModificationsRead(ts, q, lx);
      ModificationsCons(m, ParseModifications(ts, q).value.0, lx);
    }
  }

  lemma ModificationsCons(m: Modification, rest: seq<Modification>, lx: Lexicon)
    requires KnownModification(m, lx) && KnownModifications(rest, lx)
    ensures KnownModifications([m] + rest, lx)
  {
    assert ([m] + rest)[1..] == rest;
  }

  // --- Actions ---

  ghost predicate ActionOk(a: Action, lx: Lexicon) {
    && a.Balanced() && Small(a.count) && SmallRange(a.range)
    && match a.kind
       case Create => a.range == Range(0, a.count) && a.packetIdentifier == "" && a.modOrder == []
       case Send => KnownModifications(a.Modifications(), lx) && a.packetIdentifier in lx.names
       case _ => a.count == 0 && a.packetIdentifier == "" && a.modOrder == []
  }

  lemma KindsSnoc(mods: seq<Modification>, m: Modification)
    ensures Kinds(mods + [m]) == Kinds(mods) + [m.Kind()]
  {
    assert (mods + [m])[..|mods|] == mods;
  }

  lemma CountersSnoc(mods: seq<Modification>, m: Modification)
    ensures Counters(mods + [m]) == if m.CounterMod? then Counters(mods) + [m.counter] else Counters(mods)
  {
    assert (mods + [m])[..|mods|] == mods;
    assert Counters(mods) + [] == Counters(mods);
  }

  lemma TimestampsSnoc(mods: seq<Modification>, m: Modification)
    ensures Timestamps(mods + [m]) == if m.TimestampMod? then Timestamps(mods) + [m.timestamp] else Timestamps(mods)
  {
    assert (mods + [m])[..|mods|] == mods;
    assert Timestamps(mods) + [] == Timestamps(mods);
  }

  /** A list taken apart into its kinds and its two lists is put together again. */
  lemma {:induction false} ListsMerge(mods: seq<Modification>)
    ensures Matches(Kinds(mods), Counters(mods), Timestamps(mods))
    ensures Merge(Kinds(mods), Counters(mods), Timestamps(mods)) == mods
  {
    if mods != [] {
      var before, m := mods[..|mods| - 1], mods[|mods| - 1];
      assert mods == before + [m];
      ListsMerge(before);
      MergeSnoc(Kinds(before), Counters(before), Timestamps(before), m);
      KindsSnoc(before, m);
      CountersSnoc(before, m);
      TimestampsSnoc(before, m);
    }
  }

  lemma PlainActionOk(kind: ActionType, count: uint32, range: Range, lx: Lexicon)
    requires kind != Send && Small(count) && SmallRange(range)
    requires if kind == Create then range == Range(0, count) else count == 0
    ensures ActionOk(MakeAction(kind, count, range, "", [], 0), lx)
  {
  }

  lemma SendActionOk(count: uint32, range: Range, id: string, mods: seq<Modification>, lx: Lexicon)
    requires Small(count) && SmallRange(range) && id in lx.names && KnownModifications(mods, lx)
    ensures ActionOk(MakeAction(Send, count, range, id, mods, 0), lx)
  {
    ListsMerge(mods);
  }

  lemma SendHeadRead(ts: seq<Sym>, q: nat, lx: Lexicon)
    requires From(ts, lx) && ParseSendHead(ts, q).Some?
    ensures ParseSendHead(ts, q).value.0.0 in lx.names && Small(ParseSendHead(ts, q).value.0.1)
  {
  }

  lemma SendTailRead(ts: seq<Sym>, q: nat, range: Range, lx: Lexicon)
    requires From(ts, lx) && SmallRange(range) && ParseSendTail(ts, q, range).Some?
    ensures ActionOk(ParseSendTail(ts, q, range).value.0, lx)
  {
    var head, m := ParseSendHead(ts, q).value.0, ParseSendHead(ts, q).value.1;
    SendHeadRead(ts, q, lx);
    ModificationsRead(ts, m, lx);
    SendActionOk(head.1, range, head.0, ParseModifications(ts, m).value.0, lx);
  }

  lemma BodyRead(ts: seq<Sym>, p: nat, kind: ActionType, first: Sym, lx: Lexicon)
    requires p <= |ts| && From(ts, lx) && ParseActionBody(ts, p, kind, first).Some?
    ensures ActionOk(ParseActionBody(ts, p, kind, first).value.0, lx)
  {
    if kind == Create {
      var n := ReadNumber(first.text).value;
      PlainActionOk(Create, n, Range(0, n), lx);
    } else {
      var range, q := ParseRange(ts, p, first).value.0, ParseRange(ts, p, first).value.1;
      RangeRead(ts, p, first);
      if kind == Send {
        SendTailRead(ts, q, range, lx);
      } else {
        PlainActionOk(kind, 0, range, lx);
      }
    }
  }

  lemma TimeRead(s: string)
    requires ReadTime(s).Some?
    ensures ReadableTime(ReadTime(s).value)
  {
    var n := |s|;
    if !(n >= 2 && s[n - 2] == 'm' && s[n - 1] == 's') {
      assert IsCutFrom(ReadTime(s).value, ReadNumber(s[..n - 1]).value);
    }
  }

  lemma OffsetRead(ts: seq<Sym>, p: nat)
    requires p <= |ts| && ParseOffset(ts, p).Some?
    ensures ReadableTime(ParseOffset(ts, p).value.0)
  {
    if At(ts, p).word == OffsetWord {
      TimeRead(ts[p + 1].text);
    }
  }

  ghost predicate TimedActionOk(a: Action, lx: Lexicon) {
    ActionOk(a, lx) && ReadableTime(a.offsetMs)
  }

  ghost predicate ActionsOk(actions: seq<Action>, lx: Lexicon) {
    actions == [] || (TimedActionOk(actions[0], lx) && ActionsOk(actions[1..], lx))
  }

  lemma HeadIsBody(ts: seq<Sym>, p: nat) returns (kind: ActionType)
    requires p <= |ts| && ParseActionHead(ts, p).Some?
    ensures p + 2 <= |ts| && ParseActionHead(ts, p) == ParseActionBody(ts, p + 2, kind, ts[p + 1])
  {
    kind := KindOf(ts[p].word).value;
  }

  lemma HeadRead(ts: seq<Sym>, p: nat, lx: Lexicon)
    requires p <= |ts| && From(ts, lx) && ParseActionHead(ts, p).Some?
    ensures ActionOk(ParseActionHead(ts, p).value.0, lx)
  {
    var kind := HeadIsBody(ts, p);
    BodyRead(ts, p + 2, kind, ts[p + 1], lx);
  }

  lemma ActionParts(ts: seq<Sym>, p: nat) returns (a: Action, q: nat, offset: uint32)
    requires p <= |ts| && ParseAction(ts, p).Some?
    ensures q <= |ts| && ParseActionHead(ts, p) == Some((a, q)) && ParseOffset(ts, q).Some?
    ensures offset == ParseOffset(ts, q).value.0 && ParseAction(ts, p).value.0 == a.(offsetMs := offset)
  {
    a, q := ParseActionHead(ts, p).value.0, ParseActionHead(ts, p).value.1;
    offset := ParseOffset(ts, q).value.0;
  }

  lemma ActionRead(ts: seq<Sym>, p: nat, lx: Lexicon)
    requires p <= |ts| && From(ts, lx) && ParseAction(ts, p).Some?
    ensures TimedActionOk(ParseAction(ts, p).value.0, lx)
  {
    var a, q, offset := ActionParts(ts, p);
    HeadRead(ts, p, lx);
    OffsetRead(ts, q);
    LaterOk(a, offset, lx);
  }

  lemma LaterOk(a: Action, offset: uint32, lx: Lexicon)
    requires ActionOk(a, lx)
    ensures ActionOk(a.(offsetMs := offset), lx)
  {
  }

  lemma {:induction false} ActionsRead(ts: seq<Sym>, p: nat, lx: Lexicon)
    requires p <= |ts| && From(ts, lx) && ParseActions(ts, p).Some?
    ensures ActionsOk(ParseActions(ts, p).value.0, lx)
    decreases |ts| - p
  {
    if !Is(ts, p, BraceClosed) {
      var a, q := ParseAction(ts, p).value.0, ParseAction(ts, p).value.1;
      ActionRead(ts, p, lx);
      ActionsRead(ts, q, lx);
      ActionsAppend([a], ParseActions(ts, q).value.0, lx);
    }
  }

  lemma {:induction false} ActionsAppend(a: seq<Action>, b: seq<Action>, lx: Lexicon)
    requires ActionsOk(a, lx) && ActionsOk(b, lx)
    ensures ActionsOk(a + b, lx)
  {
    if a == [] {
      assert a + b == b;
    } else {
      ActionsAppend(a[1..], b, lx);
      assert (a + b)[1..] == a[1..] + b;
    }
  }

  // --- Settings ---

  ghost predicate PacketsOk(m: map<string, string>, lx: Lexicon) {
    forall k :: k in m ==> k in lx.names && m[k] in lx.values
  }

  ghost predicate EndpointsOk(es: seq<string>, lx: Lexicon) {
    forall i :: 0 <= i < |es| ==> es[i] in lx.values
  }

  ghost predicate SettingsOk(s: SettingsBlock, lx: Lexicon) {
    && Small(s.headerSize) && Small(s.bodyMax) && Small(s.sampleRate) && Small(s.shards)
    && s.protocol in lx.values && s.handler in lx.values
    && EndpointsOk(s.endpoints, lx) && PacketsOk(s.packets, lx)
  }

  lemma {:induction false} PacketsRead(ts: seq<Sym>, p: nat, m: map<string, string>, lx: Lexicon)
    requires p <= |ts| && From(ts, lx) && PacketsOk(m, lx) && ParsePackets(ts, p, m).Some?
    ensures PacketsOk(ParsePackets(ts, p, m).value.0, lx)
    decreases |ts| - p
  {
    if !Is(ts, p, BraceClosed) {
      var packet, q := ParsePacket(ts, p).value.0, ParsePacket(ts, p).value.1;
      PacketRead(ts, p, lx);
      if IsOp(ts, q, CommaWord) {
        PacketsRead(ts, q + 1, m[packet.0 := packet.1], lx);
      }
    }
  }

  lemma PacketRead(ts: seq<Sym>, p: nat, lx: Lexicon)
    requires From(ts, lx) && ParsePacket(ts, p).Some?
    ensures ParsePacket(ts, p).value.0.0 in lx.names && ParsePacket(ts, p).value.0.1 in lx.values
  {
  }

  lemma {:induction false} EndpointsRead(ts: seq<Sym>, p: nat, es: seq<string>, lx: Lexicon)
    requires p <= |ts| && From(ts, lx) && EndpointsOk(es, lx) && ParseEndpoints(ts, p, es).Some?
    ensures EndpointsOk(ParseEndpoints(ts, p, es).value.0, lx)
    decreases |ts| - p
  {
    if !Is(ts, p, BraceClosed) {
      assert Allowed(ts[p], lx);
      if IsOp(ts, p + 1, CommaWord) {
        EndpointsRead(ts, p + 2, es + [ts[p].text], lx);
      }
    }
  }

  lemma AssignRead(s: SettingsBlock, key: Word, v: Sym, lx: Lexicon)
    requires SettingsOk(s, lx) && v.text in lx.values && Assign(s, key, v).Some?
    ensures SettingsOk(Assign(s, key, v).value, lx) && Assign(s, key, v).value.identifier == s.identifier
  {
  }

  lemma NestedRead(ts: seq<Sym>, p: nat, s: SettingsBlock, key: Word, lx: Lexicon)
    requires p <= |ts| && From(ts, lx) && SettingsOk(s, lx) && ParseNested(ts, p, s, key).Some?
    ensures SettingsOk(ParseNested(ts, p, s, key).value.0, lx)
            && ParseNested(ts, p, s, key).value.0.identifier == s.identifier
  {
    if key == PacketsWord {
      PacketsRead(ts, p, s.packets, lx);
    } else {
      EndpointsRead(ts, p, s.endpoints, lx);
    }
  }

  lemma PlainRead(ts: seq<Sym>, p: nat, s: SettingsBlock, key: Word, lx: Lexicon)
    requires From(ts, lx) && SettingsOk(s, lx) && ParsePlain(ts, p, s, key).Some?
    ensures SettingsOk(ParsePlain(ts, p, s, key).value.0, lx)
            && ParsePlain(ts, p, s, key).value.0.identifier == s.identifier
  {
    assert Allowed(ts[p + 1], lx);
    AssignRead(s, key, ts[p + 1], lx);
  }

  lemma SettingRead(ts: seq<Sym>, p: nat, s: SettingsBlock, lx: Lexicon)
    requires p <= |ts| && From(ts, lx) && SettingsOk(s, lx) && ParseSetting(ts, p, s).Some?
    ensures SettingsOk(ParseSetting(ts, p, s).value.0, lx) && ParseSetting(ts, p, s).value.0.identifier == s.identifier
  {
    if Is(ts, p + 1, BraceOpen) {
      NestedRead(ts, p + 2, s, ts[p].word, lx);
    } else {
      PlainRead(ts, p + 1, s, ts[p].word, lx);
    }
  }

  lemma {:induction false} SettingsBodyRead(ts: seq<Sym>, p: nat, s: SettingsBlock, lx: Lexicon)
    requires p <= |ts| && From(ts, lx) && SettingsOk(s, lx) && ParseSettingsBody(ts, p, s).Some?
    ensures SettingsOk(ParseSettingsBody(ts, p, s).value.0, lx)
    ensures ParseSettingsBody(ts, p, s).value.0.identifier == s.identifier
    decreases |ts| - p
  {
    if !Is(ts, p, BraceClosed) {
      SettingRead(ts, p, s, lx);
      SettingsBodyRead(ts, ParseSetting(ts, p, s).value.1, ParseSetting(ts, p, s).value.0, lx);
    }
  }

  // --- Scripts ---

  /** A block that is not there has no name. */
  ghost predicate NameOk(name: string, lx: Lexicon) {
    name == "" || name in lx.names
  }

  ghost predicate ScriptOk(script: Script, lx: Lexicon) {
    && SettingsOk(script.settings, lx) && NameOk(script.settings.identifier, lx)
    && NameOk(script.orchestrator.settingsIdentifier, lx) && ActionsOk(script.orchestrator.actions, lx)
  }

  lemma BlockRead(ts: seq<Sym>, p: nat, script: Script, lx: Lexicon)
    requires p < |ts| && From(ts, lx) && ScriptOk(script, lx) && ParseBlock(ts, p, script).Some?
    ensures ScriptOk(ParseBlock(ts, p, script).value.0, lx)
  {
    assert Is(ts, p + 1, Identity) ==> Allowed(ts[p + 1], lx);
    if ts[p].word == SettingsWord {
      var s := script.settings.(identifier := ts[p + 1].text);
      SettingsBodyRead(ts, p + 3, s, lx);
    } else {
      ActionsRead(ts, p + 3, lx);
      ActionsAppend(script.orchestrator.actions, ParseActions(ts, p + 3).value.0, lx);
    }
  }

  lemma {:induction false} ScriptRead(ts: seq<Sym>, p: nat, script: Script, lx: Lexicon)
    requires p <= |ts| && From(ts, lx) && ScriptOk(script, lx) && Parse(ts, p, script).Some?
    ensures ScriptOk(Parse(ts, p, script).value, lx)
    decreases |ts| - p
  {
    if p < |ts| {
      BlockRead(ts, p, script, lx);
      ScriptRead(ts, ParseBlock(ts, p, script).value.1, ParseBlock(ts, p, script).value.0, lx);
    }
  }

  // --- The language ---

  ghost function Language(): Lexicon {
    Lexicon(iset t: string | IsName(t), iset t: string | !EndsInBackslash(t), iset t: string | IsFormat(WordOf(t)))
  }

  lemma {:induction false} WellFormedAt(ls: seq<Lexeme>, kw: set<string>, i: nat)
    requires AllWellFormed(ls, kw) && i < |ls|
    ensures WellFormed(ls[i], kw)
  {
    if i > 0 {
      WellFormedAt(ls[1..], kw, i - 1);
    }
  }

  lemma LexedFromLanguage(ls: seq<Lexeme>)
    requires AllWellFormed(ls, KEYWORDS)
    ensures From(Syms(ls), Language())
  {
    forall i | 0 <= i < |ls|
      ensures Allowed(Syms(ls)[i], Language())
    {
      WellFormedAt(ls, KEYWORDS, i);
    }
  }

  /** Every script that is read has small numbers, known formats, and names and values that can be written. */
  lemma ReadIsOk(text: string)
    requires Read(text).Some?
    ensures ScriptOk(Read(text).value, Language())
  {
    var ls := Lexemes(Lex(text, 0, KEYWORDS).value);
    LexWellFormed(text, 0, KEYWORDS);
    LexedFromLanguage(ls);
    ScriptRead(Syms(ls), 0, NO_SCRIPT, Language());
  }

  // --- From readable to writable ---

  lemma {:induction false} ModificationsWritable(mods: seq<Modification>)
    requires KnownModifications(mods, Language())
    ensures SmallModifications(mods) && FormatsKnown(mods)
  {
    if mods != [] {
      ModificationsWritable(mods[1..]);
    }
  }

  lemma ActionWritable(a: Action)
    requires TimedActionOk(a, Language())
    ensures PrintableAction(a) && WritableAction(a)
  {
    if a.kind == Send {
      ModificationsWritable(a.Modifications());
    } else {
      MakeActionAgain(a);
    }
  }

  lemma {:induction false} ActionsWritable(actions: seq<Action>)
    requires ActionsOk(actions, Language())
    ensures AllBalanced(actions) && PrintableActions(actions) && WritableActions(actions)
  {
    if actions != [] {
      ActionWritable(actions[0]);
      ActionsWritable(actions[1..]);
    }
  }

  /** A list of the packets that are in `m` and not yet in `done`. */
  lemma {:induction false} PacketList(done: map<string, string>, m: map<string, string>)
      returns (names: seq<(string, string)>)
    requires Part(done, m)
    ensures MapOf(done, names) == m
    ensures forall i :: 0 <= i < |names| ==> names[i].0 in m && names[i].1 == m[names[i].0]
    decreases |m.Keys - done.Keys|
  {
    if k :| k in m && k !in done {
      OnePacketMore(done, m, k);
      var rest := PacketList(done[k := m[k]], m);
      names := PacketFirst(done, m, k, rest);
    } else {
      assert done == m;
      names := [];
    }
  }

  ghost predicate Part(done: map<string, string>, m: map<string, string>) {
    forall k :: k in done ==> k in m && done[k] == m[k]
  }

  lemma PacketFirst(done: map<string, string>, m: map<string, string>, k: string, rest: seq<(string, string)>)
      returns (names: seq<(string, string)>)
    requires k in m && MapOf(done[k := m[k]], rest) == m
    requires forall i :: 0 <= i < |rest| ==> rest[i].0 in m && rest[i].1 == m[rest[i].0]
    ensures MapOf(done, names) == m
    ensures forall i :: 0 <= i < |names| ==> names[i].0 in m && names[i].1 == m[names[i].0]
  {
    names := [(k, m[k])] + rest;
    assert names[1..] == rest;
  }

  lemma OnePacketMore(done: map<string, string>, m: map<string, string>, k: string)
    requires Part(done, m) && k in m && k !in done
    ensures Part(done[k := m[k]], m) && |m.Keys - done[k := m[k]].Keys| < |m.Keys - done.Keys|
  {
    var left := m.Keys - done.Keys;
    assert k in left && m.Keys - done[k := m[k]].Keys == left - {k};
  }

  lemma WritableIfOk(script: Script) returns (names: seq<(string, string)>)
    requires ScriptOk(script, Language())
    requires script.settings.identifier != "" && script.orchestrator.settingsIdentifier != ""
    ensures PrintableScript(script, names) && WritableScript(script, names)
  {
    ActionsWritable(script.orchestrator.actions);
    names := PacketList(map[], script.settings.packets);
  }

  ghost predicate CanRead(script: Script) {
    exists text :: Read(text) == Some(script)
  }

  ghost predicate CanWrite(script: Script) {
    exists names :: PrintableScript(script, names) && WritableScript(script, names)
  }

  /** Of the scripts with both blocks, the lexer and the parser can yield exactly those that can be written. */
  lemma ReadableExactly(script: Script)
    requires script.settings.identifier != "" && script.orchestrator.settingsIdentifier != ""
    ensures CanRead(script) <==> CanWrite(script)
  {
    if text :| Read(text) == Some(script) {
      ReadIsOk(text);
      var names := WritableIfOk(script);
    }
    if names :| PrintableScript(script, names) && WritableScript(script, names) {
      ReadWrite(script, names);
      assert Read(Write(script, names)) == Some(script);
    }
  }
}
