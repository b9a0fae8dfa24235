/** Fixed-width unsigned numbers as byte strings, and the routine that writes them.

    `Encode` and `Decode` are positional notation, defined digit by digit. The
    routine of the payload manager is a different computation: two block copies
    behind a byte swap, and a shift loop for the other widths. */
module Bytes {

  type byte = x: int | 0 <= x < 256
  type uint16 = x: int | 0 <= x < 0x1_0000
  type uint32 = x: int | 0 <= x < 0x1_0000_0000
  type uint64 = x: int | 0 <= x < 0x1_0000_0000_0000_0000

  const TWO_32: int := 0x1_0000_0000
  const TWO_64: int := 0x1_0000_0000_0000_0000

  function Pow256(n: nat): (p: nat)
    ensures p >= 1
  {
    if n == 0 then 1 else 256 * Pow256(n - 1)
  }

  /** The `n` low base-256 digits of `v`, least significant first. */
  function Digits(v: nat, n: nat): (r: seq<byte>)
    ensures |r| == n
  {
    if n == 0 then [] else [v % 256] + Digits(v / 256, n - 1)
  }

  function Reverse(s: seq<byte>): (r: seq<byte>)
    ensures |r| == |s|
    ensures forall i :: 0 <= i < |s| ==> r[i] == s[|s| - 1 - i]
  {
    seq(|s|, i requires 0 <= i < |s| => s[|s| - 1 - i])
  }

  function Encode(v: nat, length: nat, little: bool): (r: seq<byte>)
    ensures |r| == length
  {
    if little then Digits(v, length) else Reverse(Digits(v, length))
  }

  function Undigits(bs: seq<byte>): nat {
    if bs == [] then 0 else bs[0] + 256 * Undigits(bs[1..])
  }

  function Decode(bs: seq<byte>, little: bool): nat {
    Undigits(if little then bs else Reverse(bs))
  }

  /** The number whose `n` digits are those of `v` in the opposite order. */
  function SwapBytes(v: nat, n: nat): nat {
    if n == 0 then 0 else (v % 256) * Pow256(n - 1) + SwapBytes(v / 256, n - 1)
  }

  /** Byte `k` of `v`: shift right by `8 * k` and mask. */
  function ShiftAndMask(v: nat, k: nat): byte {
    (v / Pow256(k)) % 256
  }

  // --- Arithmetic ---

  lemma {:induction false} NextMultiple(d: nat, q: nat, q': nat)
    requires q < q'
    ensures d * q + d <= d * q'
  {
    if q + 1 < q' {
      NextMultiple(d, q, q' - 1);
      assert d * q' == d * (q' - 1) + d;
    }
  }

  lemma QuotientsAgree(d: nat, q: nat, r: nat, q': nat, r': nat)
    requires r < d && r' < d && d * q + r == d * q' + r'
    ensures q == q' && r == r'
  {
    if q < q' {
      NextMultiple(d, q, q');
    } else if q' < q {
      NextMultiple(d, q', q);
    }
  }

  lemma DivisionIsUnique(v: nat, d: nat, q: nat, r: nat)
    requires v == d * q + r && r < d
    ensures v / d == q && v % d == r
  {
    QuotientsAgree(d, q, r, v / d, v % d);
  }

  /** Dividing by a product: quotient and remainder taken in two stages. */
  lemma DivMul(v: nat, p: nat)
    requires p > 0
    ensures v / (256 * p) == v / 256 / p
    ensures v % (256 * p) == 256 * (v / 256 % p) + v % 256
  {
    var w := v / 256;
    var q, r := w / p, w % p;
    assert w == p * q + r;
    assert v == (256 * p) * q + (256 * r + v % 256) by {
      assert 256 * (p * q) == (256 * p) * q;
    }
    DivisionIsUnique(v, 256 * p, q, 256 * r + v % 256);
  }

  lemma {:induction false} DigitAt(v: nat, n: nat, k: nat)
    requires k < n
    ensures Digits(v, n)[k] == ShiftAndMask(v, k)
  {
    if k > 0 {
      DigitAt(v / 256, n - 1, k - 1);
      DivMul(v, Pow256(k - 1));
    }
  }

  /** Digits beyond the `n`-th do not show. */
  lemma {:induction false} DigitsOfRemainder(v: nat, n: nat)
    ensures Digits(v % Pow256(n), n) == Digits(v, n)
  {
    if n > 0 {
      DivMul(v, Pow256(n - 1));
      var w := v % Pow256(n);
      assert w / 256 == v / 256 % Pow256(n - 1) && w % 256 == v % 256;
      DigitsOfRemainder(v / 256, n - 1);
    }
  }

  // --- Round trips ---

  lemma {:induction false} UndigitsDigits(v: nat, n: nat)
    ensures Undigits(Digits(v, n)) == v % Pow256(n)
  {
    if n > 0 {
      UndigitsDigits(v / 256, n - 1);
      assert Digits(v, n)[1..] == Digits(v / 256, n - 1);
      DivMul(v, Pow256(n - 1));
    }
  }

  /** Reading a field back recovers the value modulo 256^length, in either byte order. */
  lemma DecodeEncode(v: nat, length: nat, little: bool)
    ensures Decode(Encode(v, length, little), little) == v % Pow256(length)
  {
    UndigitsDigits(v, length);
    assert Reverse(Reverse(Digits(v, length))) == Digits(v, length);
  }

  /** Two values below 256^length have the same field only if they are equal. */
  lemma EncodeInjective(v: nat, w: nat, length: nat, little: bool)
    requires v < Pow256(length) && w < Pow256(length)
    requires Encode(v, length, little) == Encode(w, length, little)
    ensures v == w
  {
    DecodeEncode(v, length, little);
    DecodeEncode(w, length, little);
    DivisionIsUnique(v, Pow256(length), 0, v);
    DivisionIsUnique(w, Pow256(length), 0, w);
  }

  lemma {:induction false} UndigitsAppend(bs: seq<byte>, b: byte)
    ensures Undigits(bs + [b]) == Undigits(bs) + b * Pow256(|bs|)
  {
    if bs == [] {
      assert [b][1..] == [];
    } else {
      UndigitsAppend(bs[1..], b);
      assert (bs + [b])[1..] == bs[1..] + [b];
      assert 256 * (b * Pow256(|bs| - 1)) == b * Pow256(|bs|);
    }
  }

  lemma {:induction false} SwapBytesIsReversed(v: nat, n: nat)
    ensures SwapBytes(v, n) == Undigits(Reverse(Digits(v, n)))
  {
    if n > 0 {
      SwapBytesIsReversed(v / 256, n - 1);
      var ds := Digits(v / 256, n - 1);
      assert Reverse(Digits(v, n)) == Reverse(ds) + [v % 256];
      UndigitsAppend(Reverse(ds), v % 256);
    }
  }

  lemma {:induction false} DigitsUndigits(bs: seq<byte>)
    ensures Digits(Undigits(bs), |bs|) == bs
  {
    if bs != [] {
      DigitsUndigits(bs[1..]);
      var v := Undigits(bs);
      assert v % 256 == bs[0] && v / 256 == Undigits(bs[1..]);
      assert Digits(v, |bs|) == [bs[0]] + bs[1..];
    }
  }

  /** The byte swap followed by a little-endian copy is the big-endian field. */
  lemma SwapThenCopy(v: nat, n: nat)
    ensures Digits(SwapBytes(v, n), n) == Encode(v, n, false)
  {
    SwapBytesIsReversed(v, n);
    DigitsUndigits(Reverse(Digits(v, n)));
  }

  // --- The writer ---

  /** A block copy of a number's object representation, on a little-endian host. */
  method CopyRepresentation(buf: array<byte>, start: nat, v: nat, n: nat)
    requires start + n <= buf.Length
    modifies buf
    ensures buf[..] == old(buf[..start]) + Digits(v, n) + old(buf[start + n..])
  {
    var ds := Digits(v, n);
    forall i | 0 <= i < n {
      buf[start + i] := ds[i];
    }
  }

  /** Writes the bytes one by one, each shifted down and masked. */
  method WriteByShifts(buf: array<byte>, start: nat, raw: uint64, length: nat, little: bool)
    requires start + length <= buf.Length
    modifies buf
    ensures buf[..] == old(buf[..start]) + Encode(raw, length, little) + old(buf[start + length..])
  {
    ghost var field := Encode(raw, length, little);
    for i := 0 to length
      invariant buf[..start] == old(buf[..start])
      invariant forall j :: 0 <= j < i ==> buf[start + j] == field[j]
      invariant buf[start + length..] == old(buf[start + length..])
    {
      var shift := if little then i else length - 1 - i;
      DigitAt(raw, length, shift);
      buf[start + i] := ShiftAndMask(raw, shift);
    }
    assert buf[..] == buf[..start] + buf[start..start + length] + buf[start + length..];
  }

  method WriteNumeric(buf: array<byte>, start: nat, raw: uint64, length: nat, little: bool)
    requires length <= 8 && start + length <= buf.Length
    modifies buf
    ensures buf[..] == old(buf[..start]) + Encode(raw, length, little) + old(buf[start + length..])
  {
    if length == 8 {
      var v: nat := raw;
      if !little {
        v := SwapBytes(v, 8);
        SwapThenCopy(raw, 8);
      }
      CopyRepresentation(buf, start, v, 8);
      return;
    } else if length == 4 {
      assert Pow256(4) == TWO_32;
      var v: nat := raw % TWO_32;
      DigitsOfRemainder(raw, 4);
      if !little {
        SwapThenCopy(v, 4);
        v := SwapBytes(v, 4);
      }
      CopyRepresentation(buf, start, v, 4);
      return;
    }
    WriteByShifts(buf, start, raw, length, little);
  }
}
