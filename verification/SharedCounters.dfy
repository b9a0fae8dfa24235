/** Counters fetched by sessions of any number of shards. A fill fetches each counter of its payload
    once, and every fetch is one indivisible action, so whatever the threads do amounts to one
    sequence of fetches. */
module SharedCounters {
  import opened Bytes
  import opened Planner
  import opened Renderer

  datatype Fetch = Fetch(payload: nat, counter: nat)

  /** How often `f` occurs in `schedule`. */
  ghost function Count(schedule: seq<Fetch>, f: Fetch): nat {
    if schedule == [] then 0
    else Count(schedule[..|schedule| - 1], f) + if schedule[|schedule| - 1] == f then 1 else 0
  }

  /** Zero plus `j` times `step`, in 64-bit arithmetic. */
  ghost function Stepped(j: nat, step: uint16): uint64 {
    if j == 0 then 0 else Add64(Stepped(j - 1, step), step)
  }

  lemma {:induction false} SteppedIsMultiple(j: nat, step: uint16)
    ensures Stepped(j, step) == (j * step) % 0x1_0000_0000_0000_0000
  {
    if j > 0 {
      SteppedIsMultiple(j - 1, step);
      var before := (j - 1) * step;
      assert j * step == before + step;
      var q, r := before / 0x1_0000_0000_0000_0000, before % 0x1_0000_0000_0000_0000;
      if r + step < TWO_64 {
        DivisionIsUnique(j * step, 0x1_0000_0000_0000_0000, q, r + step);
      } else {
        DivisionIsUnique(j * step, 0x1_0000_0000_0000_0000, q + 1, r + step - 0x1_0000_0000_0000_0000);
      }
    }
  }

  ghost predicate InRange(m: PayloadManager, f: Fetch)
    requires m.Valid()
    reads m
  {
    f.payload < |m.counters| && f.counter < |m.counters[f.payload]|
  }

  /** Every counter has been stepped once for each of its fetches in `schedule`. */
  ghost predicate Tallies(m: PayloadManager, schedule: seq<Fetch>)
    requires m.Valid()
    reads m
  {
    forall f: Fetch :: InRange(m, f) ==>
      m.counters[f.payload][f.counter] == Stepped(Count(schedule, f), m.steps[f.payload][f.counter])
  }

  /** Fetch `k` reads as many steps as there were earlier fetches of the same counter. */
  ghost predicate ReadsMultiple(m: PayloadManager, schedule: seq<Fetch>, k: nat, value: uint64)
    requires m.Valid() && k < |schedule|
    reads m
  {
    var f := schedule[k];
    InRange(m, f) && value == (Count(schedule[..k], f) * m.steps[f.payload][f.counter]) % 0x1_0000_0000_0000_0000
  }

  /** The `j`-th fetch of a counter, counting from 0, reads `j` times its step modulo 2^64, whatever
      the other fetches in between. */
  method RunSchedule(m: PayloadManager, schedule: seq<Fetch>) returns (values: seq<uint64>)
    requires m.Valid() && Tallies(m, [])
    requires forall f :: f in schedule ==> InRange(m, f)
    modifies m
    ensures m.Valid() && |values| == |schedule|
    ensures forall k :: 0 <= k < |schedule| ==> ReadsMultiple(m, schedule, k, values[k])
  {
    values := [];
    for n := 0 to |schedule|
      invariant m.Valid() && Tallies(m, schedule[..n]) && |values| == n
      invariant forall f :: f in schedule ==> InRange(m, f)
      invariant forall k :: 0 <= k < n ==> ReadsMultiple(m, schedule, k, values[k])
    {
      var f := schedule[n];
      ghost var counters0 := m.counters;
      var value := m.FetchAdd(f.payload, f.counter);
      SteppedIsMultiple(Count(schedule[..n], f), m.steps[f.payload][f.counter]);
      values := values + [value];
      TalliesStep(m, schedule, n, counters0);
    }
    assert schedule[..|schedule|] == schedule;
  }

  lemma TalliesStep(m: PayloadManager, schedule: seq<Fetch>, n: nat, before: seq<seq<uint64>>)
    requires m.Valid() && n < |schedule| && InRange(m, schedule[n])
    requires |before| == |m.counters| && forall p :: 0 <= p < |before| ==> |before[p]| == |m.steps[p]|
    requires forall f: Fetch :: InRange(m, f) ==>
               before[f.payload][f.counter] == Stepped(Count(schedule[..n], f), m.steps[f.payload][f.counter])
    requires var f := schedule[n];
             m.counters == before[f.payload := Bump(before[f.payload], f.counter, m.steps[f.payload][f.counter])]
    ensures Tallies(m, schedule[..n + 1])
  {
    assert schedule[..n + 1][..n] == schedule[..n];
  }

  // --- Fields ---

  lemma {:induction false} Pow256Splits(a: nat, b: nat)
    ensures Pow256(a + b) == Pow256(a) * Pow256(b)
  {
    if a > 0 {
      Pow256Splits(a - 1, b);
      assert 256 * (Pow256(a - 1) * Pow256(b)) == Pow256(a) * Pow256(b);
    }
  }

  lemma RemainderOfSum(v: nat, p: nat, a: nat, b: nat, r: nat)
    requires v == p * a + p * b + r && r < p
    ensures v % p == r
  {
    assert p * (a + b) == p * a + p * b;
    DivisionIsUnique(v, p, a + b, r);
  }

  lemma Regrouped(p: nat, q: nat, d: nat)
    ensures (p * q) * d == p * (q * d)
  {
  }

  /** A remainder of a remainder, when one divisor divides the other. */
  lemma RemainderTwice(v: nat, p: nat, q: nat, w: nat)
    requires p > 0 && w == p * q > 0
    ensures v % w % p == v % p
  {
    var r, d := v % w, v / w;
    assert v == w * d + r;
    Regrouped(p, q, d);
    var e := r / p;
    assert r == p * e + r % p;
    RemainderOfSum(v, p, q * d, e, r % p);
  }

  /** Numbers with the same remainder differ by a multiple of the divisor. */
  lemma SameRemainder(a: nat, c: nat, p: nat)
    requires p > 0
    ensures (a + c) % p == a % p <==> c % p == 0
  {
    var q, r, e, t := a / p, a % p, c / p, c % p;
    assert a == p * q + r && c == p * e + t;
    if r + t < p {
      RemainderOfSum(a + c, p, q, e, r + t);
    } else {
      assert p * (e + 1) == p * e + p;
      RemainderOfSum(a + c, p, q, e + 1, r + t - p);
    }
  }

  lemma SameField(v: nat, w: nat, length: nat, little: bool)
    ensures Encode(v, length, little) == Encode(w, length, little) <==> v % Pow256(length) == w % Pow256(length)
  {
    DecodeEncode(v, length, little);
    DecodeEncode(w, length, little);
    DigitsOfRemainder(v, length);
    DigitsOfRemainder(w, length);
  }

  /** The field a fetch leaves in a payload. */
  ghost function FieldOf(j: nat, step: uint16, length: nat, little: bool): seq<byte> {
    Encode((j * step) % 0x1_0000_0000_0000_0000, length, little)
  }

  lemma FieldRemainder(v: nat, length: nat)
    requires length <= 8
    ensures v % 0x1_0000_0000_0000_0000 % Pow256(length) == v % Pow256(length)
  {
    Pow256Splits(length, 8 - length);
    assert Pow256(8) == 0x1_0000_0000_0000_0000;
    RemainderTwice(v, Pow256(length), Pow256(8 - length), 0x1_0000_0000_0000_0000);
  }

  /** Fields of two numbers, cut to 64 bits, agree exactly if the numbers differ by a multiple of 256^length. */
  lemma CutFieldsAgree(v: nat, w: nat, d: nat, length: nat, little: bool)
    requires w == v + d && length <= 8
    ensures Encode(v % 0x1_0000_0000_0000_0000, length, little) == Encode(w % 0x1_0000_0000_0000_0000, length, little)
            <==> d % Pow256(length) == 0
  {
    FieldRemainder(v, length);
    FieldRemainder(w, length);
    SameRemainder(v, d, Pow256(length));
    SameField(v % 0x1_0000_0000_0000_0000, w % 0x1_0000_0000_0000_0000, length, little);
  }

  lemma ProductSplits(j: nat, k: nat, step: nat)
    requires j <= k
    ensures k * step == j * step + (k - j) * step
  {
  }

  /** Two fetches of a counter leave the same field exactly when the steps between them add up to a
      multiple of 256^length. */
  lemma FieldsRepeat(j: nat, k: nat, step: uint16, length: nat, little: bool)
    requires j <= k && length <= 8
    ensures FieldOf(j, step, length, little) == FieldOf(k, step, length, little)
            <==> ((k - j) * step) % Pow256(length) == 0
  {
    ProductSplits(j, k, step);
    CutFieldsAgree(j * step, k * step, (k - j) * step, length, little);
  }

  /** As long as the steps add up to less than 256^length, no field occurs twice. */
  lemma FieldsDistinct(j: nat, k: nat, step: uint16, length: nat, little: bool)
    requires j < k && length <= 8 && step >= 1 && k * step < Pow256(length)
    ensures FieldOf(j, step, length, little) != FieldOf(k, step, length, little)
  {
    FieldsRepeat(j, k, step, length, little);
    var c := (k - j) * step;
    PartOfProduct(j, k, step);
    DivisionIsUnique(c, Pow256(length), 0, c);
  }

  lemma PartOfProduct(j: nat, k: nat, step: nat)
    requires j < k && step >= 1
    ensures 0 < (k - j) * step <= k * step
  {
    ProductSplits(j, k, step);
    ProductSplits(1, k - j, step);
  }

  /** The counter step of a script loses its upper bits on the way to the plan: the counter then stands
      still exactly when the script's step is a multiple of 65536, or of 256 in a one-byte field. */
  lemma StandsStill(step: uint32, length: nat, little: bool)
    requires 1 <= length <= 8
    ensures (forall j: nat :: FieldOf(j, Narrow16(step), length, little) == FieldOf(0, Narrow16(step), length, little))
            <==> step % (if length == 1 then 0x100 else 0x1_0000) == 0
  {
    var s := Narrow16(step);
    FieldsRepeat(0, 1, s, length, little);
    RemainderTwice(step, 0x100, 0x100, 0x1_0000);
    assert Pow256(1) == 0x100 && Pow256(2) == 0x1_0000;
    if length >= 2 {
      Pow256Splits(2, length - 2);
      NextMultiple(0x1_0000, 0, Pow256(length - 2));
      DivisionIsUnique(s, Pow256(length), 0, s);
    }
    if s % Pow256(length) == 0 {
      forall j: nat
        ensures FieldOf(j, s, length, little) == FieldOf(0, s, length, little)
      {
        FieldsRepeat(0, j, s, length, little);
        MultipleOfMultiple(j, s, Pow256(length));
      }
    }
  }

  lemma MultipleOfMultiple(j: nat, s: nat, p: nat)
    requires p > 0 && s % p == 0
    ensures (j * s) % p == 0
  {
    assert j * s == p * (j * (s / p));
    DivisionIsUnique(j * s, p, j * (s / p), 0);
  }
}
