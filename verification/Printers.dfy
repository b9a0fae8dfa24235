/** Printing tokens, and the proof that the lexer reads back what is printed. */
module Printers {
  import opened Scripts
  import opened Lexers

  // --- Which tokens can be written ---

  predicate IsWord(text: string) {
    text != [] && IsAlpha(text[0]) && forall i :: 0 <= i < |text| ==> IsWordChar(text[i])
  }

  predicate IsNumber(text: string) {
    text != [] && IsDigit(text[0]) && forall i :: 0 <= i < |text| ==> IsNumberChar(text[i])
  }

  predicate EndsInBackslash(text: string) {
    text != [] && text[|text| - 1] == '\\'
  }

  predicate WellFormed(l: Lexeme, kw: set<string>) {
    match l.kind
    case Keyword => IsWord(l.text) && l.text in kw
    case Identity => IsWord(l.text) && l.text !in kw
    case Operator => |l.text| == 1 && IsOperator(l.text[0])
    case Value => !EndsInBackslash(l.text)
    case BraceOpen => l.text == "{"
    case BraceClosed => l.text == "}"
  }

  ghost predicate AllWellFormed(ls: seq<Lexeme>, kw: set<string>) {
    ls == [] || (WellFormed(ls[0], kw) && AllWellFormed(ls[1..], kw))
  }

  // --- Printing ---

  /** Quotes and dollars get a backslash. */
  function Escape(text: string): string {
    if text == [] then []
    else (if text[0] == '"' || text[0] == '$' then ['\\', text[0]] else [text[0]]) + Escape(text[1..])
  }

  function Printed(l: Lexeme): string {
    if l.kind == Value && !IsNumber(l.text) then ['"'] + Escape(l.text) + ['"'] else l.text
  }

  /** Every token is followed by a blank. */
  function Print(ls: seq<Lexeme>): string {
    if ls == [] then [] else Printed(ls[0]) + [' '] + Print(ls[1..])
  }

  function Lexemes(tokens: seq<Token>): (r: seq<Lexeme>)
    ensures |r| == |tokens|
  {
    seq(|tokens|, i requires 0 <= i < |tokens| => tokens[i].lexeme)
  }

  // --- Reading back ---

  /** `x` stands in `s` at `p`. */
  ghost predicate Stands<T>(s: seq<T>, p: nat, x: seq<T>)
    decreases |x|
  {
    if x == [] then p <= |s| else p < |s| && s[p] == x[0] && Stands(s, p + 1, x[1..])
  }

  lemma {:induction false} StandsAppend<T>(s: seq<T>, p: nat, x: seq<T>, y: seq<T>)
    requires Stands(s, p, x + y)
    ensures Stands(s, p, x) && p + |x| <= |s| && Stands(s, p + |x|, y)
    decreases |x|
  {
    if x == [] {
      assert x + y == y;
      StandsInside(s, p, y);
    } else {
      assert (x + y)[1..] == x[1..] + y;
      StandsAppend(s, p + 1, x[1..], y);
    }
  }

  lemma {:induction false} StandsInside<T>(s: seq<T>, p: nat, x: seq<T>)
    requires Stands(s, p, x)
    ensures p + |x| <= |s| && s[p..p + |x|] == x
    decreases |x|
  {
    if x != [] {
      StandsInside(s, p + 1, x[1..]);
      assert s[p..p + |x|] == [s[p]] + s[p + 1..p + |x|];
    }
  }

  lemma StandsWhole<T>(s: seq<T>)
    ensures Stands(s, 0, s)
  {
    StandsSuffix(s, 0);
    assert s[0..] == s;
  }

  lemma {:induction false} StandsSuffix<T>(s: seq<T>, p: nat)
    requires p <= |s|
    ensures Stands(s, p, s[p..])
    decreases |s| - p
  {
    if p < |s| {
      StandsSuffix(s, p + 1);
      assert s[p..][1..] == s[p + 1..];
    }
  }

  lemma {:induction false} WordReadBack(s: string, p: nat, x: string, word: bool)
    requires Stands(s, p, x) && p + |x| < |s| && s[p + |x|] == ' '
    requires forall i :: 0 <= i < |x| ==> Continues(x[i], word)
    ensures WordEnd(s, p, word) == p + |x|
    decreases |x|
  {
    if x != [] {
      WordReadBack(s, p + 1, x[1..], word);
    }
  }

  lemma EscapeStep(text: string)
    requires text != []
    ensures var c, rest := text[0], Escape(text[1..]);
            Escape(text) == (if c == '"' || c == '$' then ['\\', c] else [c]) + rest
    ensures |text| > 1 ==> Escape(text[1..]) != [] && Escape(text[1..])[0] != '"' && Escape(text[1..])[0] != '$'
  {
  }

  /** Behind one character of a quoted text that stands at `p`. */
  lemma QuotedCharReadBack(s: string, p: nat, text: string)
    requires text != [] && !EndsInBackslash(text) && Stands(s, p, Escape(text))
    requires p + |Escape(text)| < |s| && s[p + |Escape(text)|] == '"'
    ensures p < |s| && s[p] != '"' && s[p + QuotedStep(s, p) - 1] == text[0]
    ensures Stands(s, p + QuotedStep(s, p), Escape(text[1..]))
    ensures QuotedStep(s, p) + |Escape(text[1..])| == |Escape(text)|
  {
    EscapeStep(text);
    var x, rest := Escape(text), Escape(text[1..]);
    if text[0] == '"' || text[0] == '$' {
      assert x[1..][0] == text[0] && x[1..][1..] == rest;
      assert s[p] == '\\' && s[p + 1] == text[0];
    } else {
      assert x[1..] == rest;
      if |text| > 1 {
        assert s[p + 1] == rest[0];
      } else {
        assert text[0] == text[|text| - 1] != '\\';
      }
    }
  }

  /** A text that does not end in a backslash reads back from between its quotes. */
  lemma {:induction false} QuotedReadBack(s: string, p: nat, text: string)
    requires Stands(s, p, Escape(text)) && !EndsInBackslash(text)
    requires p + |Escape(text)| < |s| && s[p + |Escape(text)|] == '"'
    ensures QuotedEnd(s, p) == Some(p + |Escape(text)| + 1) && QuotedText(s, p) == text
    decreases |text|
  {
    if text != [] {
      QuotedCharReadBack(s, p, text);
      QuotedReadBack(s, p + QuotedStep(s, p), text[1..]);
    }
  }

  lemma ValueReadBack(s: string, p: nat, text: string, kw: set<string>)
    requires !EndsInBackslash(text) && !IsNumber(text)
    requires Stands(s, p, ['"'] + Escape(text) + ['"'])
    ensures p < |s| && s[p] == '"' && NextLexeme(s, p, kw) == Some((Lexeme(Value, text), p + 2 + |Escape(text)|))
  {
    var inner := Escape(text);
    assert (['"'] + inner + ['"'])[1..] == inner + ['"'];
    StandsAppend(s, p + 1, inner, ['"']);
    QuotedReadBack(s, p + 1, text);
  }

  lemma WordLexemeReadBack(s: string, p: nat, x: string, word: bool)
    requires Stands(s, p, x) && p + |x| < |s| && s[p + |x|] == ' '
    requires x != [] && forall i :: 0 <= i < |x| ==> Continues(x[i], word)
    ensures s[p] == x[0] && WordEnd(s, p, word) == p + |x| && s[p..WordEnd(s, p, word)] == x
  {
    WordReadBack(s, p, x, word);
    StandsInside(s, p, x);
  }

  lemma PlainReadBack(s: string, p: nat, l: Lexeme, kw: set<string>)
    requires WellFormed(l, kw) && (l.kind == Keyword || l.kind == Identity || (l.kind == Value && IsNumber(l.text)))
    requires Stands(s, p, l.text) && p + |l.text| < |s| && s[p + |l.text|] == ' '
    ensures p < |s| && Significant(s, p) == p && NextLexeme(s, p, kw) == Some((l, p + |l.text|))
  {
    WordLexemeReadBack(s, p, l.text, l.kind != Value);
  }

  lemma SymbolReadBack(s: string, p: nat, l: Lexeme, kw: set<string>)
    requires WellFormed(l, kw) && (l.kind == Operator || l.kind == BraceOpen || l.kind == BraceClosed)
    requires Stands(s, p, l.text)
    ensures |l.text| == 1 && p < |s| && Significant(s, p) == p && NextLexeme(s, p, kw) == Some((l, p + 1))
  {
    assert l.text == [s[p]];
  }

  lemma QuotedLexemeReadBack(s: string, p: nat, l: Lexeme, kw: set<string>)
    requires WellFormed(l, kw) && l.kind == Value && !IsNumber(l.text)
    requires Stands(s, p, ['"'] + Escape(l.text) + ['"'])
    ensures p < |s| && Significant(s, p) == p && NextLexeme(s, p, kw) == Some((l, p + |['"'] + Escape(l.text) + ['"']|))
  {
    ValueReadBack(s, p, l.text, kw);
  }

  lemma LexemeReadBack(s: string, p: nat, l: Lexeme, kw: set<string>)
    requires WellFormed(l, kw) && Stands(s, p, Printed(l)) && p + |Printed(l)| < |s| && s[p + |Printed(l)|] == ' '
    ensures p < |s| && Significant(s, p) == p
    ensures NextLexeme(s, p, kw) == Some((l, p + |Printed(l)|))
  {
    if l.kind == Operator || l.kind == BraceOpen || l.kind == BraceClosed {
      SymbolReadBack(s, p, l, kw);
    } else if l.kind == Value && !IsNumber(l.text) {
      QuotedLexemeReadBack(s, p, l, kw);
    } else {
      PlainReadBack(s, p, l, kw);
    }
  }

  lemma LexStep(s: string, p: nat, kw: set<string>, l: Lexeme, e: nat)
    requires p < |s| && Significant(s, p) == p && NextLexeme(s, p, kw) == Some((l, e)) && Lex(s, e, kw).Some?
    ensures Lex(s, p, kw) == Some([Token(l, LineAt(s, p), ColumnAt(s, p))] + Lex(s, e, kw).value)
  {
  }

  lemma LexBlank(s: string, p: nat, kw: set<string>)
    requires p < |s| && s[p] == ' '
    ensures Lex(s, p, kw) == Lex(s, p + 1, kw)
  {
  }

  lemma LexemesCons(t: Token, rest: seq<Token>)
    ensures Lexemes([t] + rest) == [t.lexeme] + Lexemes(rest)
  {
  }

  lemma PrintUnfold(ls: seq<Lexeme>)
    requires ls != []
    ensures Print(ls) == Printed(ls[0]) + ([' '] + Print(ls[1..]))
  {
    assert Printed(ls[0]) + [' '] + Print(ls[1..]) == Printed(ls[0]) + ([' '] + Print(ls[1..]));
  }

  lemma BlankStands(s: string, p: nat, x: string)
    requires Stands(s, p, [' '] + x)
    ensures p < |s| && s[p] == ' ' && Stands(s, p + 1, x)
  {
    assert ([' '] + x)[1..] == x;
  }

  lemma PrintStands(s: string, p: nat, ls: seq<Lexeme>)
    requires ls != [] && Stands(s, p, Print(ls))
    ensures var q := p + |Printed(ls[0])|;
            Stands(s, p, Printed(ls[0])) && q < |s| && s[q] == ' ' && Stands(s, q + 1, Print(ls[1..]))
  {
    PrintUnfold(ls);
    StandsAppend(s, p, Printed(ls[0]), [' '] + Print(ls[1..]));
    BlankStands(s, p + |Printed(ls[0])|, Print(ls[1..]));
  }

  lemma PrintRest(s: string, p: nat, ls: seq<Lexeme>)
    requires ls != [] && Stands(s, p, Print(ls))
    ensures Stands(s, p + |Printed(ls[0])| + 1, Print(ls[1..]))
    ensures |Print(ls)| == |Printed(ls[0])| + 1 + |Print(ls[1..])|
  {
    PrintStands(s, p, ls);
  }

  lemma ReadBackPieces(s: string, p: nat, ls: seq<Lexeme>, kw: set<string>, q: nat, more: seq<Token>)
    requires ls != [] && AllWellFormed(ls, kw) && Stands(s, p, Printed(ls[0])) && q == p + |Printed(ls[0])|
    requires q < |s| && s[q] == ' ' && Lex(s, q + 1, kw) == Some(more)
    ensures p < |s| && Lex(s, p, kw) == Some([Token(ls[0], LineAt(s, p), ColumnAt(s, p))] + more)
  {
    LexemeReadBack(s, p, ls[0], kw);
    LexBlank(s, q, kw);
    LexStep(s, p, kw, ls[0], q);
  }

  /** The first token and its blank, in front of what can be lexed. */
  lemma ReadBackOne(s: string, p: nat, ls: seq<Lexeme>, kw: set<string>, q: nat, more: seq<Token>)
    requires ls != [] && AllWellFormed(ls, kw) && Stands(s, p, Print(ls)) && p < |s|
    requires q == p + |Printed(ls[0])| + 1 <= |s| && Lex(s, q, kw) == Some(more)
    ensures Lex(s, p, kw) == Some([Token(ls[0], LineAt(s, p), ColumnAt(s, p))] + more)
  {
    PrintStands(s, p, ls);
    ReadBackPieces(s, p, ls, kw, q - 1, more);
  }

  lemma NothingToRead(s: string, kw: set<string>)
    ensures Lex(s, |s|, kw) == Some([]) && Lexemes([]) == []
  {
  }

  lemma TokenThen(t: Token, more: seq<Token>, ls: seq<Lexeme>)
    requires ls != [] && t.lexeme == ls[0] && Lexemes(more) == ls[1..]
    ensures Lexemes([t] + more) == ls
  {
    LexemesCons(t, more);
    assert ls == [ls[0]] + ls[1..];
  }

  lemma {:induction false} ReadBackFrom(s: string, p: nat, ls: seq<Lexeme>, kw: set<string>)
      returns (tokens: seq<Token>)
    requires Stands(s, p, Print(ls)) && p + |Print(ls)| == |s| && AllWellFormed(ls, kw)
    ensures Lex(s, p, kw) == Some(tokens) && Lexemes(tokens) == ls
    decreases |ls|
  {
    if ls == [] {
      NothingToRead(s, kw);
      tokens := [];
    } else {
      PrintRest(s, p, ls);
      var q, t := p + |Printed(ls[0])| + 1, Token(ls[0], LineAt(s, p), ColumnAt(s, p));
      var more := ReadBackFrom(s, q, ls[1..], kw);
      ReadBackOne(s, p, ls, kw, q, more);
      TokenThen(t, more, ls);
      tokens := [t] + more;
    }
  }

  /** Lexing inverts printing, for every list of well-formed tokens. */
  lemma LexPrinted(ls: seq<Lexeme>, kw: set<string>)
    requires AllWellFormed(ls, kw)
    ensures Lex(Print(ls), 0, kw).Some? && Lexemes(Lex(Print(ls), 0, kw).value) == ls
  {
    StandsWhole(Print(ls));
    var tokens := ReadBackFrom(Print(ls), 0, ls, kw);
  }

  // --- Which values can be written at all ---

  lemma {:induction false} QuotedTextEnds(s: string, p: nat)
    requires p <= |s| && QuotedEnd(s, p).Some?
    ensures !EndsInBackslash(QuotedText(s, p))
    decreases |s| - p
  {
    if p < |s| && s[p] != '"' {
      var k := QuotedStep(s, p);
      QuotedTextEnds(s, p + k);
    }
  }

  lemma {:induction false} WordCharacters(s: string, p: nat, word: bool)
    requires p <= |s|
    ensures forall i :: p <= i < WordEnd(s, p, word) ==> Continues(s[i], word)
    decreases |s| - p
  {
    if p < |s| && Continues(s[p], word) {
      WordCharacters(s, p + 1, word);
    }
  }

  lemma ReadWellFormed(s: string, p: nat, kw: set<string>)
    requires p < |s| && NextLexeme(s, p, kw).Some?
    ensures WellFormed(NextLexeme(s, p, kw).value.0, kw)
  {
    var l, e := NextLexeme(s, p, kw).value.0, NextLexeme(s, p, kw).value.1;
    if s[p] == '"' {
      QuotedTextEnds(s, p + 1);
    } else if IsAlpha(s[p]) {
      WordCharacters(s, p, true);
    } else if IsDigit(s[p]) {
      WordCharacters(s, p, false);
      assert l.text[|l.text| - 1] == s[e - 1];
    }
  }

  /** The lexer only ever produces well-formed tokens. */
  lemma {:induction false} LexWellFormed(s: string, p: nat, kw: set<string>)
    requires p <= |s| && Lex(s, p, kw).Some?
    ensures AllWellFormed(Lexemes(Lex(s, p, kw).value), kw)
    decreases |s| - p
  {
    var n := Significant(s, p);
    if n < |s| {
      ReadWellFormed(s, n, kw);
      var e := NextLexeme(s, n, kw).value.1;
      LexWellFormed(s, e, kw);
      LexemesCons(Token(NextLexeme(s, n, kw).value.0, LineAt(s, n), ColumnAt(s, n)), Lex(s, e, kw).value);
      assert Lexemes(Lex(s, p, kw).value)[1..] == Lexemes(Lex(s, e, kw).value);
    }
  }

  ghost predicate Writes(s: string, l: Lexeme, kw: set<string>) {
    Lex(s, 0, kw).Some? && Lexemes(Lex(s, 0, kw).value) == [l]
  }

  /** A value can be written in some script exactly if it does not end in a backslash. */
  lemma ExpressibleValues(text: string, kw: set<string>)
    ensures (exists s :: Writes(s, Lexeme(Value, text), kw)) <==> !EndsInBackslash(text)
  {
    var l := Lexeme(Value, text);
    if !EndsInBackslash(text) {
      assert AllWellFormed([l], kw);
      LexPrinted([l], kw);
      assert Writes(Print([l]), l, kw);
    }
    forall s | Writes(s, l, kw)
      ensures !EndsInBackslash(text)
    {
      LexWellFormed(s, 0, kw);
      assert WellFormed([l][0], kw);
    }
  }
}
