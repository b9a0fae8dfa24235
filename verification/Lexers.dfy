/** The lexer: text to tokens. */
module Lexers {
  import opened Scripts

  datatype TokenKind = Keyword | Identity | Operator | Value | BraceOpen | BraceClosed

  datatype Lexeme = Lexeme(kind: TokenKind, text: string)

  datatype Token = Token(lexeme: Lexeme, line: nat, col: nat)

  const KEYWORDS: set<string> := {
    "SETTINGS", "SESSION", "PORT", "HEADERSIZE", "BODYMAX", "READ", "REPEAT", "SAMPLERATE", "ENDPOINTS", "SHARDS",
    "PACKETS", "HANDLER", "ORCHESTRATOR", "CREATE", "CONNECT", "SEND", "FLOOD", "DRAIN", "DISCONNECT", "OFFSET",
    "COPIES", "TIMESTAMP", "COUNTER"}

  // --- Characters ---

  predicate IsAlpha(c: char) { 'a' <= c <= 'z' || 'A' <= c <= 'Z' }
  predicate IsDigit(c: char) { '0' <= c <= '9' }
  predicate IsWordChar(c: char) { IsAlpha(c) || IsDigit(c) || c == '_' }
  predicate IsNumberChar(c: char) { IsAlpha(c) || IsDigit(c) || c == '.' }
  predicate IsBlank(c: char) { c == ' ' || c == '\t' || c == '\r' || c == '\n' }
  predicate IsOperator(c: char) { c == '=' || c == ',' || c == ':' }

  // --- What the lexer recognises ---

  /** The end of the line that position `p` is on. */
  function LineEnd(s: string, p: nat): (e: nat)
    requires p <= |s|
    ensures p <= e <= |s|
    decreases |s| - p
  {
    if p == |s| || s[p] == '\n' then p else LineEnd(s, p + 1)
  }

  predicate IsComment(s: string, p: nat) {
    p + 1 < |s| && s[p] == '/' && s[p + 1] == '/'
  }

  /** The first position from `p` on that is neither blank nor in a comment. */
  function Significant(s: string, p: nat): (e: nat)
    requires p <= |s|
    ensures p <= e <= |s|
    decreases |s| - p
  {
    if p == |s| then p
    else if IsBlank(s[p]) then Significant(s, p + 1)
    else if IsComment(s, p) then Significant(s, LineEnd(s, p + 2))
    else p
  }

  predicate Continues(c: char, word: bool) {
    if word then IsWordChar(c) else IsNumberChar(c)
  }

  /** The end of the longest word, or number, at `p`. */
  function WordEnd(s: string, p: nat, word: bool): (e: nat)
    requires p <= |s|
    ensures p <= e <= |s|
    decreases |s| - p
  {
    if p == |s| || !Continues(s[p], word) then p else WordEnd(s, p + 1, word)
  }

  /** How many characters the next character of a quoted text takes: an escape takes two. */
  function QuotedStep(s: string, p: nat): (k: nat)
    requires p < |s|
    ensures 1 <= k && p + k <= |s|
  {
    if s[p] == '\\' && p + 1 < |s| && (s[p + 1] == '"' || s[p + 1] == '$') then 2 else 1
  }

  /** The position behind the quote that closes a quoted text at `p`, if one does. */
  function QuotedEnd(s: string, p: nat): (r: Option<nat>)
    requires p <= |s|
    ensures r.Some? ==> p < r.value <= |s|
    decreases |s| - p
  {
    if p == |s| then None
    else if s[p] == '"' then Some(p + 1)
    else QuotedEnd(s, p + QuotedStep(s, p))
  }

  /** A quoted text with its escapes resolved. */
  function QuotedText(s: string, p: nat): string
    requires p <= |s|
    decreases |s| - p
  {
    if p == |s| || s[p] == '"' then [] else [s[p + QuotedStep(s, p) - 1]] + QuotedText(s, p + QuotedStep(s, p))
  }

  /** The token at `p`, and where it ends; None for a character that starts no token or a quote that is
      not closed. */
  function NextLexeme(s: string, p: nat, kw: set<string>): (r: Option<(Lexeme, nat)>)
    requires p < |s|
    ensures r.Some? ==> p < r.value.1 <= |s|
  {
    if s[p] == '{' then Some((Lexeme(BraceOpen, "{"), p + 1))
    else if s[p] == '}' then Some((Lexeme(BraceClosed, "}"), p + 1))
    else if IsOperator(s[p]) then Some((Lexeme(Operator, [s[p]]), p + 1))
    else if s[p] == '"' then
      match QuotedEnd(s, p + 1)
      case None => None
      case Some(e) => Some((Lexeme(Value, QuotedText(s, p + 1)), e))
    else if IsAlpha(s[p]) then
      var e := WordEnd(s, p, true);
      Some((WordLexeme(s[p..e], kw), e))
    else if IsDigit(s[p]) then
      var e := WordEnd(s, p, false);
      Some((Lexeme(Value, s[p..e]), e))
    else None
  }

  function WordLexeme(text: string, kw: set<string>): Lexeme {
    Lexeme(if text in kw then Keyword else Identity, text)
  }

  function LineAt(s: string, p: nat): nat
    requires p <= |s|
  {
    if p == 0 then 1 else LineAt(s, p - 1) + if s[p - 1] == '\n' then 1 else 0
  }

  function ColumnAt(s: string, p: nat): nat
    requires p <= |s|
  {
    if p == 0 || s[p - 1] == '\n' then 1 else ColumnAt(s, p - 1) + 1
  }

  /** The tokens from `p` on for the keywords `kw`, each with the line and the column it starts at. */
  function Lex(s: string, p: nat, kw: set<string>): Option<seq<Token>>
    requires p <= |s|
    decreases |s| - p
  {
    var n := Significant(s, p);
    if n == |s| then Some([])
    else
      match NextLexeme(s, n, kw)
      case None => None
      case Some((t, e)) =>
        match Lex(s, e, kw)
        case None => None
        case Some(rest) => Some([Token(t, LineAt(s, n), ColumnAt(s, n))] + rest)
  }

  // --- The lexer ---

  class Lexer {
    const source: string
    const keywords: set<string>
    var pos: nat
    var line: nat
    var col: nat

    ghost predicate Valid()
      reads this
    {
      pos <= |source| && line == LineAt(source, pos) && col == ColumnAt(source, pos)
    }

    /** The keywords of the language are `KEYWORDS`. */
    constructor (source: string, keywords: set<string>)
      ensures this.source == source && this.keywords == keywords && Valid() && pos == 0
    {
      this.source, this.keywords := source, keywords;
      pos, line, col := 0, 1, 1;
    }

    predicate Eof()
      reads this
    {
      pos >= |source|
    }

    function Peek(): char
      reads this
    {
      if pos >= |source| then '\0' else source[pos]
    }

    function PeekNext(): char
      reads this
    {
      if pos + 1 >= |source| then '\0' else source[pos + 1]
    }

    method JumpNextLine()
      modifies this`line, this`col
      ensures line == old(line) + 1 && col == 1
    {
      line := line + 1;
      col := 1;
    }

    method Advance() returns (c: char)
      requires Valid()
      modifies this
      ensures Valid()
      ensures if old(pos) < |source| then pos == old(pos) + 1 && c == source[old(pos)] else pos == old(pos) && c == '\0'
    {
      if pos >= |source| {
        return '\0';
      }
      c := source[pos];
      pos := pos + 1;
      if c == '\n' {
        JumpNextLine();
      } else {
        col := col + 1;
      }
    }

    /** Advances past the slashes and the rest of the line. */
    method SkipComment()
      requires Valid() && IsComment(source, pos)
      modifies this
      ensures Valid() && pos == LineEnd(source, old(pos) + 2)
    {
      var c := Advance();
      c := Advance();
      while !Eof() && Peek() != '\n'
        invariant Valid() && LineEnd(source, pos) == LineEnd(source, old(pos) + 2)
        decreases |source| - pos
      {
        c := Advance();
      }
    }

    method SkipIgnorable()
      requires Valid()
      modifies this
      ensures Valid() && pos == Significant(source, old(pos))
    {
      while !Eof()
        invariant Valid() && Significant(source, pos) == Significant(source, old(pos))
        decreases |source| - pos
      {
        if IsBlank(Peek()) {
          var c := Advance();
          continue;
        }
        if Peek() == '/' && PeekNext() == '/' {
          SkipComment();
          continue;
        }
        break;
      }
    }

    /** Collects the longest word or number at the cursor. */
    method Collect(word: bool) returns (text: string)
      requires Valid()
      modifies this
      ensures Valid() && pos == WordEnd(source, old(pos), word) && text == source[old(pos)..pos]
    {
      text := "";
      while !Eof()
        invariant Valid() && old(pos) <= pos && text == source[old(pos)..pos]
        invariant WordEnd(source, pos, word) == WordEnd(source, old(pos), word)
        decreases |source| - pos
      {
        if !Continues(Peek(), word) {
          break;
        }
        var c := Advance();
        text := text + [c];
      }
    }

    /** The next character of a quoted text; an escaped quote or dollar stands for itself. */
    method QuotedChar() returns (c: char)
      requires Valid() && pos < |source|
      modifies this
      ensures Valid() && pos == old(pos) + QuotedStep(source, old(pos)) && c == source[pos - 1]
    {
      c := Advance();
      if c == '\\' && Peek() == '"' {
        c := Advance();
      } else if c == '\\' && Peek() == '$' {
        c := Advance();
      }
    }

    /** Collects a quoted text behind its opening quote. */
    method CollectQuoted() returns (ok: bool, text: string)
      requires Valid()
      modifies this
      ensures Valid() && ok == QuotedEnd(source, old(pos)).Some?
      ensures ok ==> QuotedEnd(source, old(pos)) == Some(pos) && text == QuotedText(source, old(pos))
    {
      text := "";
      while !Eof() && Peek() != '"'
        invariant Valid() && QuotedEnd(source, pos) == QuotedEnd(source, old(pos))
        invariant text + QuotedText(source, pos) == QuotedText(source, old(pos))
        decreases |source| - pos
      {
        ghost var at, text0 := pos, text;
        var c := QuotedChar();
        text := text + [c];
        assert text0 + ([c] + QuotedText(source, pos)) == text + QuotedText(source, pos);
      }
      if Eof() {
        var c := Advance();
        return false, text;
      }
      assert text + [] == text;
      var c := Advance();
      return true, text;
    }

    /** The token at the cursor. */
    method ReadLexeme() returns (r: Option<Lexeme>)
      requires Valid() && pos < |source|
      modifies this
      ensures Valid()
      ensures match NextLexeme(source, old(pos), keywords)
              case None => r == None
              case Some((t, e)) => r == Some(t) && pos == e
    {
      var c := Peek();
      if c == '{' {
        var skipped := Advance();
        return Some(Lexeme(BraceOpen, "{"));
      }
      if c == '}' {
        var skipped := Advance();
        return Some(Lexeme(BraceClosed, "}"));
      }
      if IsOperator(c) {
        var op := Advance();
        return Some(Lexeme(Operator, [op]));
      }
      if c == '"' {
        var skipped := Advance();
        var ok, value := CollectQuoted();
        return if ok then Some(Lexeme(Value, value)) else None;
      }
      if IsAlpha(c) {
        var ident := Collect(true);
        return Some(WordLexeme(ident, keywords));
      }
      if IsDigit(c) {
        var value := Collect(false);
        return Some(Lexeme(Value, value));
      }
      var bad := Advance();
      return None;
    }

    method Tokenize() returns (ok: bool, tokens: seq<Token>)
      requires Valid()
      modifies this
      ensures ok <==> Lex(source, old(pos), keywords).Some?
      ensures ok ==> tokens == Lex(source, old(pos), keywords).value
    {
      tokens := [];
      PrependedNothing(Lex(source, pos, keywords));
      while !Eof()
        invariant Valid() && Prepended(tokens, Lex(source, pos, keywords), Lex(source, old(pos), keywords))
        decreases |source| - pos
      {
        ghost var start, tokens0 := pos, tokens;
        SkipIgnorable();
        if Eof() {
          break;
        }
        var tokenLine, tokenCol := line, col;
        var t := ReadLexeme();
        if t.None? {
          return false, [];
        }
        tokens := tokens + [Token(t.value, tokenLine, tokenCol)];
        PrependedStep(tokens0, tokens[|tokens0|], Lex(source, pos, keywords), Lex(source, start, keywords),
                      Lex(source, old(pos), keywords));
      }
      assert tokens + [] == tokens;
      return true, tokens;
    }
  }

  /** `all` is `rest` behind `front`, or fails with it. */
  ghost predicate Prepended(front: seq<Token>, rest: Option<seq<Token>>, all: Option<seq<Token>>) {
    if rest.None? then all.None? else all == Some(front + rest.value)
  }

  lemma PrependedNothing(all: Option<seq<Token>>)
    ensures Prepended([], all, all)
  {
    if all.Some? {
      assert [] + all.value == all.value;
    }
  }

  lemma PrependedStep(front: seq<Token>, t: Token, rest: Option<seq<Token>>, more: Option<seq<Token>>,
                      all: Option<seq<Token>>)
    requires Prepended(front, more, all) && Prepended([t], rest, more)
    ensures Prepended(front + [t], rest, all)
  {
    if rest.Some? {
      assert front + ([t] + rest.value) == front + [t] + rest.value;
    }
  }
}
