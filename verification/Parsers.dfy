/** The parser: a cursor over the tokens, proved against the grammar. */
module Parsers {
  import opened Bytes
  import opened Scripts
  import opened Lexers
  import opened Numbers
  import opened Grammar

  /** The method has read what the grammar reads, or fails with it. */
  predicate Agrees<T(==)>(r: Parsed<T>, ok: bool, value: T, pos: nat) {
    match r
    case None => !ok
    case Some((v, e)) => ok && value == v && pos == e
  }

  class Parser {
    const tokens: seq<Sym>
    var pos: nat

    predicate Valid()
      reads this
    {
      pos <= |tokens|
    }

    constructor (tokens: seq<Sym>)
      ensures this.tokens == tokens && pos == 0 && Valid()
    {
      this.tokens, pos := tokens, 0;
    }

    predicate EndOfTokens()
      reads this
    {
      pos >= |tokens|
    }

    function Peek(): (t: Sym)
      reads this
      ensures t == At(tokens, pos)
    {
      if pos >= |tokens| then END else tokens[pos]
    }

    predicate IsExpected(kind: TokenKind)
      reads this
    {
      if EndOfTokens() then false else Peek().kind == kind
    }

    predicate IsExpectedOperator(word: Word)
      reads this
    {
      IsExpected(Operator) && Peek().word == word
    }

    /** The token the cursor goes over; at the end the last token again. */
    method Consume() returns (t: Sym)
      requires Valid() && tokens != []
      modifies this
      ensures Valid()
      ensures if old(pos) < |tokens| then pos == old(pos) + 1 && t == tokens[old(pos)] else pos == old(pos)
    {
      if !EndOfTokens() {
        pos := pos + 1;
      }
      t := tokens[pos - 1];
    }

    // --- Actions ---

    method TryParseRange(firstValue: Sym) returns (ok: bool, range: Range)
      requires Valid()
      modifies this
      ensures Valid() && Agrees(ParseRange(tokens, old(pos), firstValue), ok, range, pos)
    {
      range := Range(0, 0);
      if !IsExpectedOperator(ColonWord) {
        return false, range;
      }
      var colon := Consume();
      if !IsExpected(Value) {
        return false, range;
      }
      var secondValue := Consume();
      var start := ReadNumber(firstValue.text);
      if start.None? {
        return false, range;
      }
      var second := ReadNumber(secondValue.text);
      if second.None? {
        return false, range;
      }
      return true, Range(start.value, second.value);
    }

    /** The arguments of a modification. */
    method ParseArguments() returns (ok: bool, args: Arguments)
      requires Valid()
      modifies this
      ensures Valid() && Agrees(ParseOptionArguments(tokens, old(pos)), ok, args, pos)
    {
      args := Arguments(Range(0, 0), false, END);
      if !IsExpected(Value) {
        return false, args;
      }
      var firstValue := Consume();
      var range: Range;
      ok, range := TryParseRange(firstValue);
      if !ok {
        return;
      }
      if !IsExpected(Value) {
        return false, args;
      }
      var firstArg := Consume();
      if !IsExpectedOperator(ColonWord) {
        return false, args;
      }
      var colon := Consume();
      if !IsExpected(Value) {
        return false, args;
      }
      var secondArg := Consume();
      var little := Endian(firstArg.word);
      if little.None? {
        return false, args;
      }
      return true, Arguments(range, little.value, secondArg);
    }

    /** Reads a modification and pushes it onto the action. */
    method TryParseSendOption(counter: bool, action: ActionRecord) returns (ok: bool)
      requires Valid() && action.Value().Balanced()
      modifies this, action
      ensures Valid() && action.Value().Balanced()
      ensures match ParseModification(tokens, old(pos), counter)
              case None => !ok
              case Some((m, e)) => ok && pos == e && action.Value() == Pushed(old(action.Value()), m)
    {
      var args: Arguments;
      ok, args := ParseArguments();
      if !ok {
        return;
      }
      if counter {
        var step := ReadNumber(args.last.text);
        if step.None? {
          return false;
        }
        action.PushModifier(CounterMod(CounterModification(args.range, step.value, args.little)));
      } else {
        if !IsFormat(args.last.word) {
          return false;
        }
        action.PushModifier(TimestampMod(TimestampModification(args.range, args.little, args.last.text)));
      }
    }

    /** One COUNTER or TIMESTAMP, its keyword included. */
    method ParseOption(action: ActionRecord) returns (ok: bool)
      requires Valid() && IsOption(tokens, pos) && action.Value().Balanced()
      modifies this, action
      ensures Valid() && action.Value().Balanced()
      ensures OptionRead(tokens, old(pos), old(action.Value()), ok, action.Value(), pos)
    {
      var keyword := Consume();
      ok := TryParseSendOption(keyword.word == CounterWord, action);
    }

    /** The modifications of a SEND, up to an OFFSET or the next action. */
    method ParseOptions(action: ActionRecord) returns (ok: bool)
      requires Valid() && action.Value() == WithModifications(action.Value(), [])
      modifies this, action
      ensures Valid()
      ensures match ParseModifications(tokens, old(pos))
              case None => !ok
              case Some((mods, e)) => ok && pos == e && action.Value() == WithModifications(old(action.Value()), mods)
    {
      ghost var mods: seq<Modification>, start, empty := [], pos, action.Value();
      FollowsNothing(ParseModifications(tokens, pos));
      while Peek().word != OffsetWord && IsExpected(Keyword)
        invariant start <= pos <= |tokens| && action.Value().Balanced()
        invariant ReadSoFar(tokens, start, mods, pos, empty, action.Value())
        decreases |tokens| - pos
      {
        if Peek().word != CounterWord && Peek().word != TimestampWord {
          break;
        }
        ghost var at, before := pos, action.Value();
        ok := ParseOption(action);
        mods := OneMoreRead(tokens, start, mods, at, empty, before, ok, action.Value(), pos);
        if !ok {
          return;
        }
      }
      AllRead(tokens, start, mods, pos, empty, action.Value());
      return true;
    }

    method ParseCopies() returns (ok: bool, head: (string, uint32))
      requires Valid()
      modifies this
      ensures Valid() && Agrees(ParseSendHead(tokens, old(pos)), ok, head, pos)
    {
      head := ("", 0);
      if !IsExpected(Identity) {
        return false, head;
      }
      var packetId := Consume();
      if !IsExpected(Keyword) {
        return false, head;
      } else if Peek().word != CopiesWord {
        return false, head;
      }
      var copies := Consume();
      if !IsExpected(Value) {
        return false, head;
      }
      var copiesValue := Consume();
      var n := ReadNumber(copiesValue.text);
      if n.None? {
        return false, head;
      }
      return true, (packetId.text, n.value);
    }

    /** The packet, the copies and the modifications of a SEND whose range has been read. */
    method ParseSend(action: ActionRecord, range: Range) returns (ok: bool)
      requires Valid() && action.Value() == MakeAction(Send, 0, range, "", [], 0)
      modifies this, action
      ensures Valid()
      ensures match ParseSendTail(tokens, old(pos), range)
              case None => !ok
              case Some((a, e)) => ok && pos == e && action.Value() == a
    {
      var head: (string, uint32);
      ok, head := ParseCopies();
      if !ok {
        return;
      }
      action.packetIdentifier := head.0;
      action.count := head.1;
      ok := ParseOptions(action);
    }

    /** What follows the keyword and the first value of an action, up to its offset. */
    method ParseBody(action: ActionRecord, kind: ActionType, firstVal: Sym) returns (ok: bool)
      requires Valid() && action.Value() == MakeAction(Create, 0, Range(0, 0), "", [], 0)
      modifies this, action
      ensures Valid()
      ensures match ParseActionBody(tokens, old(pos), kind, firstVal)
              case None => !ok
              case Some((a, e)) => ok && pos == e && action.Value() == a
    {
      action.kind := kind;
      if kind == Create {
        var n := ReadNumber(firstVal.text);
        if n.None? {
          return false;
        }
        action.count := n.value;
        action.range := Range(0, n.value);
        return true;
      }
      var range: Range;
      ok, range := TryParseRange(firstVal);
      if !ok {
        return;
      }
      action.range := range;
      if kind == Send {
        ok := ParseSend(action, range);
      }
    }

    /** Everything of an action but its offset. */
    method ParseHead(action: ActionRecord) returns (ok: bool)
      requires Valid() && action.Value() == MakeAction(Create, 0, Range(0, 0), "", [], 0)
      modifies this, action
      ensures Valid()
      ensures match ParseActionHead(tokens, old(pos))
              case None => !ok
              case Some((a, e)) => ok && pos == e && action.Value() == a
    {
      if !IsExpected(Keyword) {
        return false;
      }
      var keyword := Consume();
      if !IsExpected(Value) {
        return false;
      }
      var firstVal := Consume();
      var kind := KindOf(keyword.word);
      if kind.None? {
        return false;
      }
      ok := ParseBody(action, kind.value, firstVal);
    }

    method TryParseOffset() returns (ok: bool, offset: uint32)
      requires Valid()
      modifies this
      ensures Valid() && Agrees(ParseOffset(tokens, old(pos)), ok, offset, pos)
    {
      if Peek().word == OffsetWord {
        var keyword := Consume();
        if !IsExpected(Value) {
          return false, 0;
        }
        var timeout := Consume();
        var time := ReadTime(timeout.text);
        if time.None? {
          return false, 0;
        }
        return true, time.value;
      }
      return true, DEFAULT_OFFSET_MS;
    }

    method ParseOneAction() returns (ok: bool, a: Action)
      requires Valid()
      modifies this
      ensures Valid() && Agrees(ParseAction(tokens, old(pos)), ok, a, pos)
    {
      var action := new ActionRecord();
      a := action.Value();
      ok := ParseHead(action);
      if !ok {
        return;
      }
      var offset: uint32;
      ok, offset := TryParseOffset();
      if !ok {
        return;
      }
      action.offsetMs := offset;
      a := action.Value();
    }

    /** The actions up to the closing brace, and that brace. */
    method ParseActionLines() returns (ok: bool, actions: seq<Action>)
      requires Valid()
      modifies this
      ensures Valid() && Agrees(ParseActions(tokens, old(pos)), ok, actions, pos)
    {
      ghost var start := pos;
      actions := [];
      FollowsNothing(ParseActions(tokens, start));
      while !IsExpected(BraceClosed)
        invariant Valid() && Follows(actions, ParseActions(tokens, pos), ParseActions(tokens, start))
        decreases |tokens| - pos
      {
        ghost var at := pos;
        var a: Action;
        ok, a := ParseOneAction();
        if !ok {
          return;
        }
        FollowsOne(actions, a, ParseActions(tokens, pos), ParseActions(tokens, at), ParseActions(tokens, start));
        actions := actions + [a];
      }
      FollowsEnd(actions, pos + 1, ParseActions(tokens, start));
      var brace := Consume();
      ok := true;
    }

    /** The block behind its keyword. */
    method ParseOrchestratorBlock(o: OrchestratorBlock) returns (ok: bool, block: OrchestratorBlock)
      requires Valid()
      modifies this
      ensures Valid() && Agrees(ParseOrchestrator(tokens, old(pos), o), ok, block, pos)
    {
      block := o;
      if !IsExpected(Identity) {
        return false, block;
      }
      var name := Consume();
      if !IsExpected(BraceOpen) {
        return false, block;
      }
      var brace := Consume();
      var actions: seq<Action>;
      ok, actions := ParseActionLines();
      return ok, OrchestratorBlock(name.text, o.actions + actions);
    }

    // --- Settings ---

    method ParseNamedPacket() returns (ok: bool, packet: (string, string))
      requires Valid()
      modifies this
      ensures Valid() && Agrees(ParsePacket(tokens, old(pos)), ok, packet, pos)
    {
      packet := ("", "");
      if !IsExpected(Identity) {
        return false, packet;
      }
      var packetIdentity := Consume();
      if !IsExpectedOperator(ColonWord) {
        return false, packet;
      }
      var colon := Consume();
      if !IsExpected(Value) {
        return false, packet;
      }
      var packetValue := Consume();
      return true, (packetIdentity.text, packetValue.text);
    }

    /** Named packets up to the closing brace, and that brace. */
    method ParsePacketList(m: map<string, string>) returns (ok: bool, m': map<string, string>)
      requires Valid()
      modifies this
      ensures Valid() && Agrees(ParsePackets(tokens, old(pos), m), ok, m', pos)
    {
      m' := m;
      while !IsExpected(BraceClosed)
        invariant Valid() && ParsePackets(tokens, pos, m') == ParsePackets(tokens, old(pos), m)
        decreases |tokens| - pos
      {
        var packet: (string, string);
        ok, packet := ParseNamedPacket();
        if !ok {
          return;
        }
        m' := m'[packet.0 := packet.1];
        if !IsExpectedOperator(CommaWord) {
          if IsExpected(BraceClosed) {
            break;
          }
          return false, m';
        }
        var comma := Consume();
      }
      var brace := Consume();
      return true, m';
    }

    /** Endpoints up to the closing brace, and that brace. */
    method ParseEndpointList(es: seq<string>) returns (ok: bool, es': seq<string>)
      requires Valid()
      modifies this
      ensures Valid() && Agrees(ParseEndpoints(tokens, old(pos), es), ok, es', pos)
    {
      es' := es;
      while !IsExpected(BraceClosed)
        invariant Valid() && ParseEndpoints(tokens, pos, es') == ParseEndpoints(tokens, old(pos), es)
        decreases |tokens| - pos
      {
        if !IsExpected(Value) {
          return false, es';
        }
        var endpoint := Consume();
        es' := es' + [endpoint.text];
        if !IsExpectedOperator(CommaWord) {
          if IsExpected(BraceClosed) {
            break;
          }
          return false, es';
        }
        var comma := Consume();
      }
      var brace := Consume();
      return true, es';
    }

    /** A list of packets or endpoints behind its keyword. */
    method ParseNestedSetting(s: SettingsBlock, keyword: Sym) returns (ok: bool, s': SettingsBlock)
      requires Valid() && pos < |tokens| && tokens[pos].kind == BraceOpen
      modifies this
      ensures Valid() && Agrees(ParseNested(tokens, old(pos) + 1, s, keyword.word), ok, s', pos)
    {
      s' := s;
      var brace := Consume();
      if keyword.word == PacketsWord {
        var m: map<string, string>;
        ok, m := ParsePacketList(s.packets);
        s' := s.(packets := m);
      } else if keyword.word == EndpointsWord {
        var es: seq<string>;
        ok, es := ParseEndpointList(s.endpoints);
        s' := s.(endpoints := es);
      } else {
        ok := false;
      }
    }

    method ParsePlainSetting(s: SettingsBlock, keyword: Sym) returns (ok: bool, s': SettingsBlock)
      requires Valid()
      modifies this
      ensures Valid() && Agrees(ParsePlain(tokens, old(pos), s, keyword.word), ok, s', pos)
    {
      if !IsExpectedOperator(EqualsWord) {
        return false, s;
      }
      var equals := Consume();
      if !IsExpected(Value) {
        return false, s;
      }
      var value := Consume();
      var changed := Assign(s, keyword.word, value);
      if changed.None? {
        return false, s;
      }
      return true, changed.value;
    }

    method ParseOneSetting(s: SettingsBlock) returns (ok: bool, s': SettingsBlock)
      requires Valid()
      modifies this
      ensures Valid() && Agrees(ParseSetting(tokens, old(pos), s), ok, s', pos)
    {
      if !IsExpected(Keyword) {
        return false, s;
      }
      var keyword := Consume();
      if IsExpected(BraceOpen) {
        ok, s' := ParseNestedSetting(s, keyword);
      } else {
        ok, s' := ParsePlainSetting(s, keyword);
      }
    }

    /** The block behind its keyword. */
    method ParseSettingsBlock(s: SettingsBlock) returns (ok: bool, s': SettingsBlock)
      requires Valid()
      modifies this
      ensures Valid() && Agrees(ParseSettings(tokens, old(pos), s), ok, s', pos)
    {
      s' := s;
      if !IsExpected(Identity) {
        return false, s';
      }
      var name := Consume();
      s' := s.(identifier := name.text);
      if !IsExpected(BraceOpen) {
        return false, s';
      }
      var brace := Consume();
      ghost var start, first := pos, s';
      while !IsExpected(BraceClosed)
        invariant Valid() && ParseSettingsBody(tokens, pos, s') == ParseSettingsBody(tokens, start, first)
        decreases |tokens| - pos
      {
        ok, s' := ParseOneSetting(s');
        if !ok {
          return;
        }
      }
      brace := Consume();
      return true, s';
    }

    // --- Scripts ---

    method ParseOneBlock(script: Script) returns (ok: bool, script': Script)
      requires Valid() && pos < |tokens|
      modifies this
      ensures Valid() && Agrees(ParseBlock(tokens, old(pos), script), ok, script', pos)
    {
      script' := script;
      var t := Peek();
      if t.word == SettingsWord {
        var keyword := Consume();
        var s: SettingsBlock;
        ok, s := ParseSettingsBlock(script.settings);
        script' := script.(settings := s);
      } else if t.word == OrchestratorWord {
        var keyword := Consume();
        var o: OrchestratorBlock;
        ok, o := ParseOrchestratorBlock(script.orchestrator);
        script' := script.(orchestrator := o);
      } else {
        ok := false;
      }
    }

    /** Top level: blocks of settings and of actions until the tokens are used up. */
    method ParseScript(script: Script) returns (ok: bool, script': Script)
      requires Valid()
      modifies this
      ensures Valid() && ok == Parse(tokens, old(pos), script).Some?
      ensures ok ==> Parse(tokens, old(pos), script) == Some(script')
    {
      script' := script;
      while !EndOfTokens()
        invariant Valid() && Parse(tokens, pos, script') == Parse(tokens, old(pos), script)
        decreases |tokens| - pos
      {
        ok, script' := ParseOneBlock(script');
        if !ok {
          return;
        }
      }
      return true, script';
    }
  }

  lemma FollowsEnd<T>(front: seq<T>, e: nat, all: Parsed<seq<T>>)
    ensures Follows(front, Some(([], e)), all) ==> all == Some((front, e))
  {
    assert front + [] == front;
  }

  predicate IsOption(ts: seq<Sym>, p: nat) {
    Is(ts, p, Keyword) && (ts[p].word == CounterWord || ts[p].word == TimestampWord)
  }

  /** The option at `at` has been pushed onto `before`, or could not be read. */
  ghost predicate OptionRead(ts: seq<Sym>, at: nat, before: Action, ok: bool, after: Action, e: nat)
    requires at < |ts|
  {
    match ParseModification(ts, at + 1, ts[at].word == CounterWord)
    case None => !ok
    case Some((m, e')) => ok && e == e' && after == Pushed(before, m)
  }

  /** From `start` on, `mods` have been read up to `p` and pushed onto `empty`. */
  ghost predicate ReadSoFar(ts: seq<Sym>, start: nat, mods: seq<Modification>, p: nat, empty: Action, a: Action)
    requires start <= |ts| && p <= |ts|
  {
    a == WithModifications(empty, mods) && Follows(mods, ParseModifications(ts, p), ParseModifications(ts, start))
  }

  lemma OneMoreRead(ts: seq<Sym>, start: nat, mods: seq<Modification>, at: nat, empty: Action,
                    before: Action, ok: bool, after: Action,
                    e: nat) returns (mods': seq<Modification>)
    requires start <= |ts| && IsOption(ts, at) && ReadSoFar(ts, start, mods, at, empty, before)
    requires OptionRead(ts, at, before, ok, after, e)
    ensures !ok ==> ParseModifications(ts, start).None?
    ensures ok ==> at < e <= |ts| && ReadSoFar(ts, start, mods', e, empty, after)
  {
    var r := ParseModification(ts, at + 1, ts[at].word == CounterWord);
    mods' := mods;
    if r.Some? {
      var m := r.value.0;
      mods' := mods + [m];
      FollowsOne(mods, m, ParseModifications(ts, e), ParseModifications(ts, at), ParseModifications(ts, start));
      WithOneMore(empty, mods, m);
    }
  }

  lemma AllRead(ts: seq<Sym>, start: nat, mods: seq<Modification>, p: nat, empty: Action, a: Action)
    requires start <= |ts| && p <= |ts| && ReadSoFar(ts, start, mods, p, empty, a) && !IsOption(ts, p)
    ensures ParseModifications(ts, start) == Some((mods, p)) && a == WithModifications(empty, mods)
  {
    FollowsEnd(mods, p, ParseModifications(ts, start));
  }

  ghost function WithModifications(a: Action, mods: seq<Modification>): Action {
    a.(timestampMods := Timestamps(mods), counterMods := Counters(mods), modOrder := Kinds(mods))
  }

  lemma WithOneMore(a: Action, mods: seq<Modification>, m: Modification)
    ensures WithModifications(a, mods + [m]) == Pushed(WithModifications(a, mods), m)
  {
    assert (mods + [m])[..|mods|] == mods;
    assert Timestamps(mods) + [] == Timestamps(mods) && Counters(mods) + [] == Counters(mods);
  }

  /** What `all` reads is `front` followed by what `rest` reads. */
  ghost predicate Follows<T>(front: seq<T>, rest: Parsed<seq<T>>, all: Parsed<seq<T>>) {
    if rest.None? then all.None? else all == Some((front + rest.value.0, rest.value.1))
  }

  lemma FollowsNothing<T>(all: Parsed<seq<T>>)
    ensures Follows([], all, all)
  {
    if all.Some? {
      assert [] + all.value.0 == all.value.0;
    }
  }

  lemma FollowsOne<T>(front: seq<T>, x: T, rest: Parsed<seq<T>>, more: Parsed<seq<T>>, all: Parsed<seq<T>>)
    requires Follows(front, more, all) && Follows([x], rest, more)
    ensures Follows(front + [x], rest, all)
  {
    if rest.Some? {
      assert front + ([x] + rest.value.0) == front + [x] + rest.value.0;
    }
  }
}
