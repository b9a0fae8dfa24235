/** Decimal numbers and times as the parser reads them, and as they are printed. */
module Numbers {
  import opened Bytes
  import opened Scripts
  import opened Lexers

  // --- Reading ---

  predicate IsSpace(c: char) {
    c == ' ' || '\t' <= c <= '\r'
  }

  function SpacesEnd(s: string, p: nat): (e: nat)
    requires p <= |s|
    ensures p <= e <= |s|
    decreases |s| - p
  {
    if p < |s| && IsSpace(s[p]) then SpacesEnd(s, p + 1) else p
  }

  function DigitsEnd(s: string, p: nat): (e: nat)
    requires p <= |s|
    ensures p <= e <= |s|
    ensures forall i :: p <= i < e ==> IsDigit(s[i])
    decreases |s| - p
  {
    if p < |s| && IsDigit(s[p]) then DigitsEnd(s, p + 1) else p
  }

  function DigitOf(c: char): nat
    requires IsDigit(c)
  {
    c as int - '0' as int
  }

  function ValueOf(s: string, p: nat, e: nat): nat
    requires p <= e <= |s| && forall i :: p <= i < e ==> IsDigit(s[i])
  {
    if p == e then 0 else 10 * ValueOf(s, p, e - 1) + DigitOf(s[e - 1])
  }

  /** A signed 32-bit number at the front of `s`: blanks, an optional sign, digits; what follows is ignored. */
  function ReadInt(s: string): Option<int> {
    var p := SpacesEnd(s, 0);
    var negative := p < |s| && s[p] == '-';
    var q := if p < |s| && (s[p] == '-' || s[p] == '+') then p + 1 else p;
    var e := DigitsEnd(s, q);
    if e == q then None
    else
      var v := (if negative then -1 else 1) * ValueOf(s, q, e);
      if -0x8000_0000 <= v < 0x8000_0000 then Some(v) else None
  }

  /** A number of a script: not negative. */
  function ReadNumber(s: string): Option<uint32> {
    match ReadInt(s)
    case None => None
    case Some(v) => if v < 0 then None else Some(v)
  }

  /** A time in milliseconds. A time in seconds is a product cut to 32 bits. */
  function ReadTime(s: string): Option<uint32> {
    var n := |s|;
    if n >= 2 && s[n - 2] == 'm' && s[n - 1] == 's' then ReadNumber(s[..n - 1])
    else if n >= 1 && s[n - 1] == 's' then
      match ReadNumber(s[..n - 1])
      case None => None
      case Some(v) => Some(CutSeconds(v))
    else None
  }

  /** So many seconds in milliseconds, cut to 32 bits. */
  function CutSeconds(v: nat): uint32 {
    (v * 1000) % 0x1_0000_0000
  }

  // --- Printing ---

  function DigitChar(d: nat): (c: char)
    requires d < 10
    ensures IsDigit(c) && DigitOf(c) == d
  {
    ('0' as int + d) as char
  }

  function Decimal(n: nat): (s: string)
    ensures s != [] && forall i :: 0 <= i < |s| ==> IsDigit(s[i])
  {
    if n < 10 then [DigitChar(n)] else Decimal(n / 10) + [DigitChar(n % 10)]
  }

  // --- Reading back ---

  lemma {:induction false} SameValue(s: string, t: string, e: nat)
    requires e <= |s| && e <= |t| && s[..e] == t[..e]
    requires forall i :: 0 <= i < e ==> IsDigit(s[i]) && IsDigit(t[i])
    ensures ValueOf(s, 0, e) == ValueOf(t, 0, e)
  {
    if e > 0 {
      assert s[e - 1] == s[..e][e - 1] == t[e - 1];
      assert s[..e - 1] == s[..e][..e - 1] == t[..e - 1];
      SameValue(s, t, e - 1);
    }
  }

  lemma {:induction false} DecimalValue(n: nat)
    ensures ValueOf(Decimal(n), 0, |Decimal(n)|) == n
  {
    if n >= 10 {
      var s, t := Decimal(n), Decimal(n / 10);
      DecimalValue(n / 10);
      assert s[..|t|] == t[..|t|];
      SameValue(s, t, |t|);
    }
  }

  lemma {:induction false} DigitsEndAt(s: string, p: nat, e: nat)
    requires p <= e <= |s| && (forall i :: p <= i < e ==> IsDigit(s[i])) && (e < |s| ==> !IsDigit(s[e]))
    ensures DigitsEnd(s, p) == e
    decreases e - p
  {
    if p < e {
      DigitsEndAt(s, p + 1, e);
    }
  }

  /** A printed number reads back, whatever follows it that is not a digit. */
  lemma NumberReadBack(n: nat, more: string)
    requires n < 0x8000_0000 && (more != [] ==> !IsDigit(more[0]))
    ensures ReadNumber(Decimal(n) + more) == Some(n)
  {
    var s, t := Decimal(n) + more, Decimal(n);
    assert s[0] == t[0];
    DigitsEndAt(s, 0, |t|);
    assert s[..|t|] == t[..|t|];
    SameValue(s, t, |t|);
    DecimalValue(n);
  }

  lemma PlainNumberReadBack(n: nat)
    requires n < 0x8000_0000
    ensures ReadNumber(Decimal(n)) == Some(n)
  {
    NumberReadBack(n, []);
    assert Decimal(n) + [] == Decimal(n);
  }

  function Milliseconds(n: nat): string {
    Decimal(n) + ['m', 's']
  }

  function InSeconds(n: nat): string {
    Decimal(n) + ['s']
  }

  lemma TimeReadBack(n: nat)
    requires n < 0x8000_0000
    ensures ReadTime(Milliseconds(n)) == Some(n)
    ensures ReadTime(InSeconds(n)) == Some(CutSeconds(n))
  {
    var ms, s := Milliseconds(n), InSeconds(n);
    assert ms[..|ms| - 1] == Decimal(n) + ['m'];
    NumberReadBack(n, ['m']);
    assert s[..|s| - 1] == Decimal(n);
    PlainNumberReadBack(n);
    assert IsDigit(Decimal(n)[|Decimal(n)| - 1]);
  }
}
