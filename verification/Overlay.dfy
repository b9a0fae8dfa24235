/** What a SEND action means for the bytes on the wire, and the proof that compiling and then
    rendering it means the same: the packet, with every modification's field laid over its range. */
module Overlay {
  import opened Bytes
  import opened Scripts
  import opened Planner
  import opened Renderer

  ghost function CounterCount(mods: seq<Modification>): nat {
    if mods == [] then 0 else (if mods[0].CounterMod? then 1 else 0) + CounterCount(mods[1..])
  }

  ghost function TimestampCount(mods: seq<Modification>): nat {
    if mods == [] then 0 else (if mods[0].TimestampMod? then 1 else 0) + TimestampCount(mods[1..])
  }

  /** The formats exist and no field is wider than a 64-bit number. */
  ghost predicate Encodable(mods: seq<Modification>) {
    mods == [] || (OperationOf(mods[0]).Some? && mods[0].Bytes().second <= 8 && Encodable(mods[1..]))
  }

  /** The bytes a modification asks for, given its counter's value and the time. */
  ghost function FieldBytes(m: Modification, value: uint64, now: uint64): (r: seq<byte>)
    requires OperationOf(m).Some?
    ensures |r| == m.Bytes().second
  {
    match m
    case CounterMod(c) => Encode(value, c.counterBytes.second, c.littleEndian)
    case TimestampMod(t) =>
      Encode(InUnit(now, LookupFormat(t.formatName).value), t.timestampBytes.second, t.littleEndian)
  }

  ghost function Put(packet: seq<byte>, start: nat, field: seq<byte>): (r: seq<byte>)
    requires start + |field| <= |packet|
    ensures |r| == |packet|
  {
    packet[..start] + field + packet[start + |field|..]
  }

  /** Where a modification's range ends. */
  ghost function End(m: Modification): nat {
    m.Bytes().start + m.Bytes().second
  }

  /** The packet with every field laid over its range, one after the other. Counters are read in
      order from `cs`, clock readings from `ts`. */
  ghost function Laid(packet: seq<byte>, mods: seq<Modification>, at: nat, cs: seq<uint64>, ts: seq<uint64>)
      : (r: seq<byte>)
    requires Encodable(mods) && WellPlaced(mods, at, |packet|)
    ensures |r| == |packet|
    decreases |mods|
  {
    if mods == [] then packet
    else
      var m := mods[0];
      WellPlacedFits(mods[1..], End(m), |packet|);
      Laid(Put(packet, m.Bytes().start, FieldBytes(m, First(cs), First(ts))), mods[1..], End(m),
           RestIf(m.CounterMod?, cs), RestIf(m.TimestampMod?, ts))
  }

  /** One step of `Laid`: the packet after the first field, and the arguments of the rest. */
  lemma LaidUnfold(packet: seq<byte>, mods: seq<Modification>, at: nat, cs: seq<uint64>, ts: seq<uint64>)
      returns (field: seq<byte>, packet': seq<byte>, cs': seq<uint64>, ts': seq<uint64>)
    requires Encodable(mods) && WellPlaced(mods, at, |packet|) && mods != []
    ensures at <= mods[0].Bytes().start <= End(mods[0]) <= |packet| && |packet'| == |packet|
    ensures OperationOf(mods[0]).Some? && field == FieldBytes(mods[0], First(cs), First(ts))
    ensures packet' == Put(packet, mods[0].Bytes().start, field)
    ensures cs' == RestIf(mods[0].CounterMod?, cs) && ts' == RestIf(mods[0].TimestampMod?, ts)
    ensures Encodable(mods[1..]) && WellPlaced(mods[1..], End(mods[0]), |packet'|)
    ensures Laid(packet, mods, at, cs, ts) == Laid(packet', mods[1..], End(mods[0]), cs', ts')
  {
    WellPlacedFits(mods[1..], End(mods[0]), |packet|);
    field := FieldBytes(mods[0], First(cs), First(ts));
    packet' := Put(packet, mods[0].Bytes().start, field);
    cs', ts' := RestIf(mods[0].CounterMod?, cs), RestIf(mods[0].TimestampMod?, ts);
  }

  // --- What the overlay is, byte by byte ---

  /** Nothing before the first range changes. */
  lemma {:induction false} LaidPrefix(packet: seq<byte>, mods: seq<Modification>, at: nat, cs: seq<uint64>,
                                      ts: seq<uint64>, j: nat)
    requires Encodable(mods) && WellPlaced(mods, at, |packet|) && j < at
    ensures j < |packet| && Laid(packet, mods, at, cs, ts)[j] == packet[j]
    decreases |mods|
  {
    if mods == [] {
    } else {
      var field, packet', cs', ts' := LaidUnfold(packet, mods, at, cs, ts);
      LaidPrefix(packet', mods[1..], End(mods[0]), cs', ts', j);
    }
  }

  ghost predicate Covered(mods: seq<Modification>, j: nat) {
    mods != [] && (mods[0].Bytes().start <= j < End(mods[0]) || Covered(mods[1..], j))
  }

  lemma PutElsewhere(packet: seq<byte>, start: nat, field: seq<byte>, j: nat)
    requires start + |field| <= |packet| && j < |packet| && !(start <= j < start + |field|)
    ensures Put(packet, start, field)[j] == packet[j]
  {
  }

  /** A byte in no range is the packet's own. */
  lemma {:induction false} UncoveredByte(packet: seq<byte>, mods: seq<Modification>, at: nat, cs: seq<uint64>,
                                         ts: seq<uint64>, j: nat)
    requires Encodable(mods) && WellPlaced(mods, at, |packet|) && j < |packet| && !Covered(mods, j)
    ensures Laid(packet, mods, at, cs, ts)[j] == packet[j]
    decreases |mods|
  {
    if mods != [] {
      var field, packet', cs', ts' := LaidUnfold(packet, mods, at, cs, ts);
      UncoveredByte(packet', mods[1..], End(mods[0]), cs', ts', j);
      PutElsewhere(packet, mods[0].Bytes().start, field, j);
    }
  }

  /** What modification `k` reads: the `n`-th COUNTER of the list counter `n`, the `n`-th TIMESTAMP
      clock reading `n`. */
  ghost function ReadingFor(mods: seq<Modification>, k: nat, cs: seq<uint64>, ts: seq<uint64>): uint64
    requires k < |mods| && CounterCount(mods) <= |cs| && TimestampCount(mods) <= |ts|
    decreases k
  {
    if k > 0 then ReadingFor(mods[1..], k - 1, RestIf(mods[0].CounterMod?, cs), RestIf(mods[0].TimestampMod?, ts))
    else if mods[0].CounterMod? then cs[0]
    else ts[0]
  }

  /** That reading is the one whose index counts the modifications of the same kind before `k`. */
  lemma {:induction false} ReadingIndex(mods: seq<Modification>, k: nat, cs: seq<uint64>, ts: seq<uint64>)
    requires k < |mods| && CounterCount(mods) <= |cs| && TimestampCount(mods) <= |ts|
    ensures if mods[k].CounterMod?
            then CounterCount(mods[..k]) < |cs| && ReadingFor(mods, k, cs, ts) == cs[CounterCount(mods[..k])]
            else TimestampCount(mods[..k]) < |ts| && ReadingFor(mods, k, cs, ts) == ts[TimestampCount(mods[..k])]
    decreases k
  {
    if k == 0 {
      assert mods[..0] == [];
    } else {
      ReadingIndex(mods[1..], k - 1, RestIf(mods[0].CounterMod?, cs), RestIf(mods[0].TimestampMod?, ts));
      assert mods[..k][0] == mods[0] && mods[..k][1..] == mods[1..][..k - 1];
    }
  }

  ghost predicate SameBelow(p: seq<byte>, q: seq<byte>, end: nat) {
    end <= |p| == |q| && forall j :: 0 <= j < end ==> p[j] == q[j]
  }

  lemma LaidSameBelow(packet: seq<byte>, mods: seq<Modification>, at: nat, cs: seq<uint64>, ts: seq<uint64>)
    requires Encodable(mods) && WellPlaced(mods, at, |packet|)
    ensures SameBelow(Laid(packet, mods, at, cs, ts), packet, at)
  {
    WellPlacedFits(mods, at, |packet|);
    forall j | 0 <= j < at
      ensures Laid(packet, mods, at, cs, ts)[j] == packet[j]
    {
      LaidPrefix(packet, mods, at, cs, ts, j);
    }
  }

  lemma PutHolds(packet: seq<byte>, start: nat, field: seq<byte>)
    requires start + |field| <= |packet|
    ensures Put(packet, start, field)[start..start + |field|] == field
  {
  }

  lemma SameSlice(p: seq<byte>, q: seq<byte>, start: nat, end: nat)
    requires SameBelow(p, q, end) && start <= end
    ensures p[start..end] == q[start..end]
  {
  }

  /** The fields that follow leave the first one alone. */
  lemma FieldStays(packet: seq<byte>, start: nat, field: seq<byte>, packet': seq<byte>,
                   rest: seq<Modification>, cs: seq<uint64>, ts: seq<uint64>)
    requires start + |field| <= |packet| && packet' == Put(packet, start, field)
    requires Encodable(rest) && WellPlaced(rest, start + |field|, |packet'|)
    ensures Laid(packet', rest, start + |field|, cs, ts)[start..start + |field|] == field
  {
    LaidSameBelow(packet', rest, start + |field|, cs, ts);
    SameSlice(Laid(packet', rest, start + |field|, cs, ts), packet', start, start + |field|);
    PutHolds(packet, start, field);
  }

  /** The first range holds the first field. */
  lemma FirstField(packet: seq<byte>, mods: seq<Modification>, at: nat, cs: seq<uint64>, ts: seq<uint64>)
    requires Encodable(mods) && WellPlaced(mods, at, |packet|) && mods != []
    ensures OperationOf(mods[0]).Some? && End(mods[0]) <= |packet|
    ensures Laid(packet, mods, at, cs, ts)[mods[0].Bytes().start..End(mods[0])]
            == FieldBytes(mods[0], First(cs), First(ts))
  {
    var field, packet', cs', ts' := LaidUnfold(packet, mods, at, cs, ts);
    FieldStays(packet, mods[0].Bytes().start, field, packet', mods[1..], cs', ts');
  }

  /** What the first modification reads. */
  lemma FirstReading(mods: seq<Modification>, cs: seq<uint64>, ts: seq<uint64>)
    requires mods != [] && CounterCount(mods) <= |cs| && TimestampCount(mods) <= |ts|
    ensures ReadingFor(mods, 0, cs, ts) == if mods[0].CounterMod? then First(cs) else First(ts)
  {
  }

  /** A modification looks at its counter or at the clock, not at both. */
  lemma FieldReading(m: Modification, value: uint64, now: uint64, reading: uint64)
    requires OperationOf(m).Some? && reading == if m.CounterMod? then value else now
    ensures FieldBytes(m, value, now) == FieldBytes(m, reading, reading)
  {
  }

  lemma FirstFieldRead(packet: seq<byte>, mods: seq<Modification>, at: nat, cs: seq<uint64>, ts: seq<uint64>)
    requires Encodable(mods) && WellPlaced(mods, at, |packet|) && mods != []
    requires CounterCount(mods) <= |cs| && TimestampCount(mods) <= |ts|
    ensures OperationOf(mods[0]).Some? && End(mods[0]) <= |packet|
    ensures Laid(packet, mods, at, cs, ts)[mods[0].Bytes().start..End(mods[0])]
            == FieldBytes(mods[0], ReadingFor(mods, 0, cs, ts), ReadingFor(mods, 0, cs, ts))
  {
    FirstField(packet, mods, at, cs, ts);
    FirstReading(mods, cs, ts);
    FieldReading(mods[0], First(cs), First(ts), ReadingFor(mods, 0, cs, ts));
  }

  /** The range of modification `k` holds that modification's field. */
  lemma {:induction false} CoveredRange(packet: seq<byte>, mods: seq<Modification>, at: nat, cs: seq<uint64>,
                                        ts: seq<uint64>, k: nat)
    requires Encodable(mods) && WellPlaced(mods, at, |packet|) && k < |mods|
    requires CounterCount(mods) <= |cs| && TimestampCount(mods) <= |ts|
    ensures OperationOf(mods[k]).Some? && End(mods[k]) <= |packet|
    ensures Laid(packet, mods, at, cs, ts)[mods[k].Bytes().start..End(mods[k])]
            == FieldBytes(mods[k], ReadingFor(mods, k, cs, ts), ReadingFor(mods, k, cs, ts))
    decreases |mods|
  {
    if k == 0 {
      FirstFieldRead(packet, mods, at, cs, ts);
    } else {
      var field, packet', cs', ts' := LaidUnfold(packet, mods, at, cs, ts);
      CoveredRange(packet', mods[1..], End(mods[0]), cs', ts', k - 1);
      assert mods[1..][k - 1] == mods[k];
      assert ReadingFor(mods, k, cs, ts) == ReadingFor(mods[1..], k - 1, cs', ts');
    }
  }

  // --- Compile, then render ---

  ghost predicate SameFrom(p: seq<byte>, q: seq<byte>, at: nat) {
    |p| == |q| && forall j :: at <= j < |p| ==> p[j] == q[j]
  }

  /** Rendering from `at` on only looks at the packet from `at` on. */
  lemma {:induction false} RenderTail(ops: seq<PacketOperation>, p: seq<byte>, q: seq<byte>, at: nat, cs: seq<uint64>,
                                      ts: seq<uint64>)
    requires SameFrom(p, q, at) && Renderable(ops, at, |p|, |cs|, |ts|)
    ensures Render(ops, p, at, cs, ts) == Render(ops, q, at, cs, ts)
  {
    if ops != [] {
      var op, rest, at' := ops[0], ops[1..], at + ops[0].length;
      var cs', ts' := RestIf(op.Counter?, cs), RestIf(op.Timestamp?, ts);
      RenderUnfold(ops, p, at, cs, ts);
      RenderUnfold(ops, q, at, cs, ts);
      SameField(op, p, q, at, First(cs), First(ts));
      RenderTail(rest, p, q, at', cs', ts');
    }
  }

  lemma SameField(op: PacketOperation, p: seq<byte>, q: seq<byte>, at: nat, value: uint64, now: uint64)
    requires SameFrom(p, q, at) && (op.Identity? ==> at + op.length <= |p|)
    ensures Field(op, p, at, value, now) == Field(op, q, at, value, now)
  {
    if op.Identity? {
      assert p[at..at + op.length] == q[at..at + op.length];
    }
  }

  lemma {:induction false} CountsAgree(mods: seq<Modification>, at: nat, size: nat)
    requires at < 2 * TWO_32 && size < TWO_32 && OperationsFrom(mods, at, size).Some?
    ensures var ops := OperationsFrom(mods, at, size).value;
            CountCounters(ops) == CounterCount(mods) && CountTimestamps(ops) == TimestampCount(mods)
  {
    if mods == [] {
      var ops := OperationsFrom(mods, at, size).value;
      assert at < size ==> ops[1..] == [];
    } else {
      var lead, op, rest := Unfold(mods, at, size);
      CountsAgree(mods[1..], End(mods[0]), size);
      assert ([op] + rest)[1..] == rest;
      CountsPastLead(lead, [op] + rest);
    }
  }

  lemma CountsPastLead(lead: seq<PacketOperation>, ops: seq<PacketOperation>)
    requires |lead| <= 1 && (lead != [] ==> lead[0].Identity?)
    ensures CountCounters(lead + ops) == CountCounters(ops) && CountTimestamps(lead + ops) == CountTimestamps(ops)
  {
    if lead == [] {
      assert lead + ops == ops;
    } else {
      assert (lead + ops)[1..] == ops;
    }
  }

  lemma {:induction false} EncodableCompiles(mods: seq<Modification>, at: uint64, size: uint64)
    requires Encodable(mods)
    ensures OperationsFrom(mods, at, size).Some? && FieldsFit(OperationsFrom(mods, at, size).value)
  {
    if mods != [] {
      var gap := Sub64(mods[0].Bytes().start, at);
      EncodableCompiles(mods[1..], Add64(Add64(at, gap), mods[0].Bytes().second), size);
    }
  }

  lemma {:induction false} RenderModification(m: Modification, rest: seq<PacketOperation>, packet: seq<byte>,
                                              cs: seq<uint64>, ts: seq<uint64>)
    requires OperationOf(m).Some?
    requires Renderable([OperationOf(m).value] + rest, m.Bytes().start, |packet|, |cs|, |ts|)
    ensures var cs', ts' := RestIf(m.CounterMod?, cs), RestIf(m.TimestampMod?, ts);
            && Renderable(rest, End(m), |packet|, |cs'|, |ts'|)
            && Render([OperationOf(m).value] + rest, packet, m.Bytes().start, cs, ts)
               == FieldBytes(m, First(cs), First(ts)) + Render(rest, packet, End(m), cs', ts')
  {
    var tail := [OperationOf(m).value] + rest;
    assert tail[1..] == rest;
    RenderUnfold(tail, packet, m.Bytes().start, cs, ts);
  }

  lemma {:induction false} RenderLead(lead: seq<PacketOperation>, tail: seq<PacketOperation>,
                                      packet: seq<byte>, at: nat, start: nat, cs: seq<uint64>, ts: seq<uint64>)
    requires at <= start <= |packet| < TWO_32 && IsLead(lead, at, start)
    requires Renderable(lead + tail, at, |packet|, |cs|, |ts|)
    ensures Renderable(tail, start, |packet|, |cs|, |ts|)
    ensures Render(lead + tail, packet, at, cs, ts) == packet[at..start] + Render(tail, packet, start, cs, ts)
  {
    if at == start {
      assert lead + tail == tail;
    } else {
      assert (lead + tail)[1..] == tail;
      RenderUnfold(lead + tail, packet, at, cs, ts);
    }
  }

  lemma JoinAt(p: seq<byte>, at: nat, start: nat, field: seq<byte>, laid: seq<byte>, end: nat)
    requires at <= start && start + |field| == end <= |p| == |laid|
    requires forall j :: 0 <= j < end ==> laid[j] == Put(p, start, field)[j]
    ensures p[at..start] + (field + laid[end..]) == laid[at..]
  {
  }

  lemma CompilesRenderable(mods: seq<Modification>, at: nat, size: nat, counters: nat, readings: nat)
    requires size < TWO_32 && Encodable(mods) && WellPlaced(mods, at, size)
    requires CounterCount(mods) <= counters && TimestampCount(mods) <= readings
    ensures at <= size && OperationsFrom(mods, at, size).Some?
    ensures Renderable(OperationsFrom(mods, at, size).value, at, size, counters, readings)
  {
    WellPlacedFits(mods, at, size);
    EncodableCompiles(mods, at, size);
    OperationsFromExact(mods, at, size);
    CountsAgree(mods, at, size);
  }

  /** The overlay from `at` on: the packet up to the first field, the field, and the overlay of the rest. */
  lemma LaidFrom(mods: seq<Modification>, at: nat, packet: seq<byte>, cs: seq<uint64>, ts: seq<uint64>)
      returns (field: seq<byte>, packet': seq<byte>, cs': seq<uint64>, ts': seq<uint64>)
    requires Encodable(mods) && WellPlaced(mods, at, |packet|) && mods != []
    ensures at <= mods[0].Bytes().start <= End(mods[0]) <= |packet| == |packet'|
    ensures OperationOf(mods[0]).Some? && field == FieldBytes(mods[0], First(cs), First(ts))
    ensures cs' == RestIf(mods[0].CounterMod?, cs) && ts' == RestIf(mods[0].TimestampMod?, ts)
    ensures SameFrom(packet, packet', End(mods[0]))
    ensures Encodable(mods[1..]) && WellPlaced(mods[1..], End(mods[0]), |packet'|)
    ensures Laid(packet, mods, at, cs, ts)[at..]
            == packet[at..mods[0].Bytes().start]
               + (field + Laid(packet', mods[1..], End(mods[0]), cs', ts')[End(mods[0])..])
  {
    field, packet', cs', ts' := LaidUnfold(packet, mods, at, cs, ts);
    var laid := Laid(packet', mods[1..], End(mods[0]), cs', ts');
    LaidSameBelow(packet', mods[1..], End(mods[0]), cs', ts');
    JoinAt(packet, at, mods[0].Bytes().start, field, laid, End(mods[0]));
  }

  lemma RenderOnto(lead: seq<PacketOperation>, op: PacketOperation, m: Modification, rest: seq<PacketOperation>,
                   packet: seq<byte>, packet': seq<byte>, at: nat, cs: seq<uint64>, ts: seq<uint64>,
                   field: seq<byte>, cs': seq<uint64>, ts': seq<uint64>)
    requires at <= m.Bytes().start <= |packet| < TWO_32 && IsLead(lead, at, m.Bytes().start)
    requires OperationOf(m) == Some(op) && SameFrom(packet, packet', End(m))
    requires Renderable(lead + ([op] + rest), at, |packet|, |cs|, |ts|)
    requires field == FieldBytes(m, First(cs), First(ts))
    requires cs' == RestIf(m.CounterMod?, cs) && ts' == RestIf(m.TimestampMod?, ts)
    ensures Renderable(rest, End(m), |packet'|, |cs'|, |ts'|)
    ensures Render(lead + ([op] + rest), packet, at, cs, ts)
            == packet[at..m.Bytes().start] + (field + Render(rest, packet', End(m), cs', ts'))
  {
    RenderLead(lead, [op] + rest, packet, at, m.Bytes().start, cs, ts);
    RenderModification(m, rest, packet, cs, ts);
    RenderTail(rest, packet, packet', End(m), cs', ts');
  }

  lemma OperationsSplit(mods: seq<Modification>, at: nat, size: nat, ops: seq<PacketOperation>)
      returns (lead: seq<PacketOperation>, op: PacketOperation, rest: seq<PacketOperation>)
    requires mods != [] && at <= size < TWO_32 && OperationsFrom(mods, at, size) == Some(ops)
    ensures OperationOf(mods[0]) == Some(op) && IsLead(lead, at, mods[0].Bytes().start) && ops == lead + ([op] + rest)
    ensures OperationsFrom(mods[1..], End(mods[0]), size) == Some(rest)
  {
    lead, op, rest := Unfold(mods, at, size);
  }

  /** Rendering the operations of `mods` renders those of the first modification, then those of the rest. */
  lemma FirstRenders(mods: seq<Modification>, at: nat, packet: seq<byte>, cs: seq<uint64>, ts: seq<uint64>,
                     ops: seq<PacketOperation>,
                     field: seq<byte>, packet': seq<byte>, cs': seq<uint64>, ts': seq<uint64>)
      returns (rest: seq<PacketOperation>)
    requires mods != [] && at <= mods[0].Bytes().start <= |packet| == |packet'| < TWO_32
    requires OperationsFrom(mods, at, |packet|) == Some(ops) && Renderable(ops, at, |packet|, |cs|, |ts|)
    requires OperationOf(mods[0]).Some? && field == FieldBytes(mods[0], First(cs), First(ts))
    requires cs' == RestIf(mods[0].CounterMod?, cs) && ts' == RestIf(mods[0].TimestampMod?, ts)
    requires SameFrom(packet, packet', End(mods[0]))
    ensures OperationsFrom(mods[1..], End(mods[0]), |packet'|) == Some(rest)
    ensures Renderable(rest, End(mods[0]), |packet'|, |cs'|, |ts'|)
    ensures Render(ops, packet, at, cs, ts)
            == packet[at..mods[0].Bytes().start] + (field + Render(rest, packet', End(mods[0]), cs', ts'))
  {
    var lead, op;
    lead, op, rest := OperationsSplit(mods, at, |packet|, ops);
    RenderOnto(lead, op, mods[0], rest, packet, packet', at, cs, ts, field, cs', ts');
  }

  /** Compiling a modification list and rendering the result gives the packet with every field laid
      over its range, for every well-placed list and every packet. */
  lemma {:induction false} CompileThenRender(mods: seq<Modification>, at: nat, packet: seq<byte>, cs: seq<uint64>,
                                             ts: seq<uint64>,
                                             ops: seq<PacketOperation>)
    requires |packet| < TWO_32 && Encodable(mods) && WellPlaced(mods, at, |packet|) && at <= |packet|
    requires CounterCount(mods) <= |cs| && TimestampCount(mods) <= |ts|
    requires OperationsFrom(mods, at, |packet|) == Some(ops)
    ensures Renderable(ops, at, |packet|, |cs|, |ts|)
    ensures Render(ops, packet, at, cs, ts) == Laid(packet, mods, at, cs, ts)[at..]
    decreases |mods|
  {
    CompilesRenderable(mods, at, |packet|, |cs|, |ts|);
    if mods == [] {
      RenderLast(at, packet, cs, ts);
    } else {
      var field, packet', cs', ts' := LaidFrom(mods, at, packet, cs, ts);
      var rest := FirstRenders(mods, at, packet, cs, ts, ops, field, packet', cs', ts');
      CountsTaken(mods, cs, ts);
      CompileThenRender(mods[1..], End(mods[0]), packet', cs', ts', rest);
    }
  }

  /** Taking what the first modification reads leaves enough for the others. */
  lemma CountsTaken(mods: seq<Modification>, cs: seq<uint64>, ts: seq<uint64>)
    requires mods != [] && CounterCount(mods) <= |cs| && TimestampCount(mods) <= |ts|
    ensures CounterCount(mods[1..]) <= |RestIf(mods[0].CounterMod?, cs)|
    ensures TimestampCount(mods[1..]) <= |RestIf(mods[0].TimestampMod?, ts)|
  {
  }

  lemma {:induction false} RenderLast(at: nat, packet: seq<byte>, cs: seq<uint64>, ts: seq<uint64>)
    requires at <= |packet| < TWO_32
    requires Renderable(OperationsFrom([], at, |packet|).value, at, |packet|, |cs|, |ts|)
    ensures Render(OperationsFrom([], at, |packet|).value, packet, at, cs, ts) == packet[at..]
  {
    var ops := OperationsFrom([], at, |packet|).value;
    if at < |packet| {
      assert ops[0] == Identity(|packet| - at) && ops[1..] == [];
      RenderUnfold(ops, packet, at, cs, ts);
    }
  }

  // --- A SEND action, from script to wire ---

  /** The modifications of a SEND that names a packet of `size` bytes are ones the compiler handles. */
  ghost predicate WellFormedSend(a: Action, packets: Packets)
    requires a.Balanced()
  {
    && a.kind == Send && a.packetIdentifier in packets
    && 0 < packets[a.packetIdentifier].Length < TWO_32
    && Encodable(a.Modifications()) && WellPlaced(a.Modifications(), 0, packets[a.packetIdentifier].Length)
  }

  /** What the plan makes of such an action is a payload the manager can fill, and what it renders to
      is the packet with the action's fields laid over it. */
  lemma PlannedPayload(a: Action, packets: Packets, packet: seq<byte>, cs: seq<uint64>, ts: seq<uint64>)
    requires a.Balanced() && WellFormedSend(a, packets)
    requires |packet| == packets[a.packetIdentifier].Length
    requires |cs| == |CounterSteps(a.Modifications())| && TimestampCount(a.Modifications()) <= |ts|
    ensures Compiles(a, packets) && FieldsFit(PayloadOf(a, packets).ops)
    ensures CountCounters(PayloadOf(a, packets).ops) == |cs|
    ensures Renderable(PayloadOf(a, packets).ops, 0, |packet|, |cs|, |ts|)
    ensures Render(PayloadOf(a, packets).ops, packet, 0, cs, ts) == Laid(packet, a.Modifications(), 0, cs, ts)
  {
    var mods := a.Modifications();
    EncodableCompiles(mods, 0, |packet|);
    StepsMatchPayload(a, packets);
    if mods == [] {
      var ops := PayloadOf(a, packets).ops;
      assert ops[0] == Identity(|packet|) && ops[1..] == [];
      RenderUnfold(ops, packet, 0, cs, ts);
    } else {
      StepsMatchOperations(mods, 0, |packet|);
      CountsAgree(mods, 0, |packet|);
      CompileThenRender(mods, 0, packet, cs, ts, PayloadOf(a, packets).ops);
    }
  }
}
