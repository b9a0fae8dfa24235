/** Renders payload descriptors into scatter-gather lists, with counters shared by all callers. */
module Renderer {
  import opened Bytes
  import opened Planner

  // --- What a descriptor means ---

  /** A clock reading in nanoseconds, cut to the unit of the format. */
  function InUnit(now: uint64, format: TimestampFormat): uint64 {
    match format
    case Seconds => now / 1_000_000_000
    case Milliseconds => now / 1_000_000
    case Microseconds => now / 1_000
    case Nanoseconds => now
  }

  ghost function CountTimestamps(ops: seq<PacketOperation>): nat {
    if ops == [] then 0 else (if ops[0].Timestamp? then 1 else 0) + CountTimestamps(ops[1..])
  }

  /** Scratch bytes the operations need. */
  ghost function ScratchBytes(ops: seq<PacketOperation>): nat {
    if ops == [] then 0 else (if ops[0].Identity? then 0 else ops[0].length) + ScratchBytes(ops[1..])
  }

  ghost predicate Renderable(ops: seq<PacketOperation>, at: nat, size: nat, counters: nat, readings: nat) {
    && SlicesInside(ops, at, size)
    && CountCounters(ops) <= counters
    && CountTimestamps(ops) <= readings
  }

  /** The bytes of one operation, for a counter that reads `value` and a clock that reads `now`. */
  ghost function Field(op: PacketOperation, packet: seq<byte>, at: nat, value: uint64, now: uint64): seq<byte>
    requires op.Identity? ==> at + op.length <= |packet|
  {
    match op
    case Identity(n) => packet[at..at + n]
    case Counter(n, little) => Encode(value, n, little)
    case Timestamp(n, little, format) => Encode(InUnit(now, format), n, little)
  }

  /** The bytes on the wire when counter `i` reads `cs[i]` and the `j`-th clock reading is `ts[j]`. */
  ghost function Render(ops: seq<PacketOperation>, packet: seq<byte>, at: nat,
                        cs: seq<uint64>, ts: seq<uint64>): seq<byte>
    requires Renderable(ops, at, |packet|, |cs|, |ts|)
  {
    if ops == [] then []
    else
      Field(ops[0], packet, at, First(cs), First(ts))
      + Render(ops[1..], packet, at + ops[0].length, RestIf(ops[0].Counter?, cs), RestIf(ops[0].Timestamp?, ts))
  }

  ghost function First(s: seq<uint64>): uint64 {
    if s == [] then 0 else s[0]
  }

  ghost function RestIf(taken: bool, s: seq<uint64>): seq<uint64> {
    if taken && s != [] then s[1..] else s
  }

  function Bump(cs: seq<uint64>, i: nat, step: uint16): (r: seq<uint64>)
    requires i < |cs|
  {
    cs[..i] + [Add64(cs[i], step)] + cs[i + 1..]
  }

  /** The counters after the first `k` have been fetched once each. */
  ghost function Advance(cs: seq<uint64>, steps: seq<uint16>, k: nat): (r: seq<uint64>)
    requires |cs| == |steps| && k <= |cs|
    ensures |r| == |cs|
  {
    seq(|cs|, i requires 0 <= i < |cs| => if i < k then Add64(cs[i], steps[i]) else cs[i])
  }

  // --- Growable byte storage ---

  /** A vector of bytes. Growing past the capacity moves the contents to a new allocation. */
  class ByteVector {
    var data: array<byte>
    var size: nat

    ghost predicate Valid()
      reads this
    {
      size <= data.Length
    }

    constructor ()
      ensures Valid() && size == 0 && fresh(data)
    {
      data, size := new byte[0], 0;
    }

    method Clear()
      modifies this`size
      ensures size == 0
    {
      size := 0;
    }

    method Reserve(capacity: nat)
      requires Valid()
      modifies this`data
      ensures Valid() && capacity <= data.Length
      ensures data[..size] == old(data[..size])
      ensures if capacity <= old(data.Length) then data == old(data) else fresh(data)
    {
      if data.Length < capacity {
        var moved := new byte[capacity];
        for i := 0 to size
          invariant size <= data.Length && data == old(data) && size == old(size)
          invariant moved[..i] == data[..i]
        {
          moved[i] := data[i];
        }
        data := moved;
      }
    }

    /** Grows to `n` bytes; the storage stays where it is exactly when the capacity suffices. */
    method Grow(n: nat)
      requires Valid() && size <= n
      modifies this, data
      ensures Valid() && size == n
      ensures data[..old(size)] == old(data[..size])
      ensures n <= old(data.Length) ==> data == old(data)
      ensures n > old(data.Length) ==> fresh(data)
    {
      Reserve(n);
      ghost var kept := data[..size];
      for i := size to n
        invariant size == old(size) <= i <= n <= data.Length
        invariant n <= old(data.Length) ==> data == old(data)
        invariant n > old(data.Length) ==> fresh(data)
        invariant data[..size] == kept
      {
        data[i] := 0;
      }
      size := n;
    }

    /** Grows by `n` bytes and writes a field there, without moving the storage. */
    method AppendField(value: uint64, n: nat, little: bool)
      requires Valid() && n <= 8 && size + n <= data.Length
      modifies this, data
      ensures Valid() && data == old(data) && size == old(size) + n
      ensures data[..size] == old(data[..size]) + Encode(value, n, little)
    {
      var writeIndex := size;
      Grow(writeIndex + n);
      WriteNumeric(data, writeIndex, value, n, little);
      assert data[..writeIndex] == old(data[..size]);
    }
  }

  // --- Scatter-gather lists ---

  /** A pointer and a length. */
  datatype Slice = Slice(base: array<byte>, off: nat, len: nat)

  /** Every slice lies inside the packet or inside the first `used` bytes of the scratch storage,
      and the scratch slices, in order, tile exactly those bytes. */
  ghost predicate WellFormed(slices: seq<Slice>, packet: array<byte>, scratch: array<byte>, used: nat) {
    if slices == [] then used == 0
    else
      var n, s := |slices| - 1, slices[|slices| - 1];
      if s.base == packet then s.off + s.len <= packet.Length && WellFormed(slices[..n], packet, scratch, used)
      else s.base == scratch && s.off + s.len == used && WellFormed(slices[..n], packet, scratch, s.off)
  }

  /** The bytes a gathering write of `slices` sends, when the packet holds `p` and the scratch
      bytes in use are `t`. */
  ghost function Gather(slices: seq<Slice>, packet: array<byte>, scratch: array<byte>,
                        p: seq<byte>, t: seq<byte>): seq<byte>
    requires |p| == packet.Length && WellFormed(slices, packet, scratch, |t|)
  {
    if slices == [] then []
    else
      var n, s := |slices| - 1, slices[|slices| - 1];
      if s.base == packet then Gather(slices[..n], packet, scratch, p, t) + p[s.off..s.off + s.len]
      else Gather(slices[..n], packet, scratch, p, t[..s.off]) + t[s.off..]
  }

  lemma PushPacketSlice(slices: seq<Slice>, packet: array<byte>, scratch: array<byte>,
                        p: seq<byte>, t: seq<byte>, off: nat, len: nat)
    requires |p| == packet.Length && WellFormed(slices, packet, scratch, |t|) && off + len <= packet.Length
    ensures var after := slices + [Slice(packet, off, len)];
            && WellFormed(after, packet, scratch, |t|)
            && Gather(after, packet, scratch, p, t) == Gather(slices, packet, scratch, p, t) + p[off..off + len]
  {
    assert (slices + [Slice(packet, off, len)])[..|slices|] == slices;
  }

  /** Writing behind the bytes in use leaves what the earlier slices send as it was. */
  lemma PushScratchSlice(slices: seq<Slice>, packet: array<byte>, scratch: array<byte>,
                         p: seq<byte>, t: seq<byte>, field: seq<byte>)
    requires packet != scratch && |p| == packet.Length && WellFormed(slices, packet, scratch, |t|)
    ensures var after := slices + [Slice(scratch, |t|, |field|)];
            && WellFormed(after, packet, scratch, |t + field|)
            && Gather(after, packet, scratch, p, t + field) == Gather(slices, packet, scratch, p, t) + field
  {
    assert (slices + [Slice(scratch, |t|, |field|)])[..|slices|] == slices;
    assert (t + field)[..|t|] == t && (t + field)[|t|..] == field;
  }

  class PreparedPayload {
    const temps: ByteVector
    var slices: seq<Slice>

    constructor ()
      ensures slices == [] && temps.Valid() && fresh(temps) && fresh(temps.data)
    {
      temps := new ByteVector();
      slices := [];
    }

    /** While a payload of `packet` is being filled, and after: all slices point into the packet or
        into the storage `temps` holds now. */
    ghost predicate Filling(packet: array<byte>)
      reads this, temps
    {
      temps.Valid() && temps.data != packet && WellFormed(slices, packet, temps.data, temps.size)
    }

    ghost function Image(packet: array<byte>): seq<byte>
      reads this, temps, temps.data, packet
      requires Filling(packet)
    {
      Gather(slices, packet, temps.data, packet[..], temps.data[..temps.size])
    }

    /** Empties the payload, keeping the allocation, and reserves the scratch bytes up front. */
    method Prepare(total: nat, ghost packet: array<byte>)
      requires temps.Valid() && temps.data != packet
      modifies this`slices, temps
      ensures Filling(packet) && temps.size == 0 && total <= temps.data.Length
      ensures Image(packet) == []
      ensures if total <= old(temps.data.Length) then temps.data == old(temps.data) else fresh(temps.data)
    {
      temps.Clear();
      slices := [];
      temps.Reserve(total);
    }

    method AppendStatic(packet: array<byte>, at: nat, n: nat)
      requires Filling(packet) && at + n <= packet.Length
      modifies this`slices
      ensures Filling(packet)
      ensures Image(packet) == old(Image(packet)) + packet[at..at + n]
    {
      PushPacketSlice(slices, packet, temps.data, packet[..], temps.data[..temps.size], at, n);
      slices := slices + [Slice(packet, at, n)];
    }

    /** Grows the scratch storage in place, writes the field there and appends its slice. */
    method AppendNumeric(packet: array<byte>, value: uint64, n: nat, little: bool)
      requires Filling(packet) && n <= 8
      requires temps.size + n <= temps.data.Length
      modifies this`slices, temps, temps.data
      ensures temps.data == old(temps.data) && temps.size == old(temps.size) + n
      ensures Filling(packet)
      ensures Image(packet) == old(Image(packet)) + Encode(value, n, little)
    {
      var writeIndex := temps.size;
      PushScratchSlice(slices, packet, temps.data, packet[..], temps.data[..temps.size], Encode(value, n, little));
      temps.AppendField(value, n, little);
      slices := slices + [Slice(temps.data, writeIndex, n)];
    }
  }

  // --- The payload manager ---

  ghost predicate FieldsFit(ops: seq<PacketOperation>) {
    forall op :: op in ops ==> op.Identity? || op.length <= 8
  }

  /** Sums the lengths of the dynamic operations. */
  method TotalScratch(ops: seq<PacketOperation>) returns (total: nat)
    ensures total == ScratchBytes(ops)
  {
    total := 0;
    assert ops[0..] == ops;
    for i := 0 to |ops|
      invariant total + ScratchBytes(ops[i..]) == ScratchBytes(ops)
    {
      assert ops[i..][1..] == ops[i + 1..];
      if !ops[i].Identity? {
        total := total + ops[i].length;
      }
    }
  }

  class PayloadManager {
    const payloads: seq<PayloadDescriptor>
    const steps: seq<seq<uint16>>
    var counters: seq<seq<uint64>>

    ghost predicate Valid()
      reads this
    {
      && |payloads| == |steps| == |counters|
      && forall p :: 0 <= p < |steps| ==> |counters[p]| == |steps[p]|
    }

    /** Payloads without a step list get an empty one; every counter starts at zero. */
    constructor (payloads: seq<PayloadDescriptor>, steps: seq<seq<uint16>>)
      ensures Valid() && this.payloads == payloads
      ensures forall p :: 0 <= p < |payloads| ==>
                this.steps[p] == (if p < |steps| then steps[p] else []) && counters[p] == ZeroCounters(|this.steps[p]|)
    {
      var padded := steps;
      if |payloads| > |steps| {
        padded := steps + Repeat(|payloads| - |steps|, []);
      }
      padded := padded[..|payloads|];
      var counters: seq<seq<uint64>> := [];
      for p := 0 to |payloads|
        invariant |counters| == p
        invariant forall q :: 0 <= q < p ==> counters[q] == ZeroCounters(|padded[q]|)
      {
        counters := counters + [ZeroCounters(|padded[p]|)];
      }
      this.payloads, this.steps, this.counters := payloads, padded, counters;
    }

    /** Reads a counter and adds its step in one indivisible action. */
    method FetchAdd(p: nat, i: nat) returns (value: uint64)
      requires Valid() && p < |counters| && i < |counters[p]|
      modifies this
      ensures Valid()
      ensures value == old(counters[p][i])
      ensures counters == old(counters)[p := Bump(old(counters[p]), i, steps[p][i])]
    {
      value := counters[p][i];
      counters := counters[p := Bump(counters[p], i, steps[p][i])];
    }

    /** What the plan guarantees of a descriptor, and the caller of its arguments. */
    ghost predicate CanFill(index: nat, payload: PreparedPayload, clock: seq<uint64>)
      requires Valid() && index < |payloads|
      reads this, payload, payload.temps
    {
      var d := payloads[index];
      && Renderable(d.ops, 0, d.packetData.Length, |counters[index]|, |clock|)
      && FieldsFit(d.ops)
      && payload.temps.Valid() && payload.temps.data != d.packetData
    }

    /** Emits the bytes of `op`, fetching its counter or using the clock reading `now`. */
    method EmitField(index: nat, payload: PreparedPayload, op: PacketOperation, at: nat, counterIdx: nat, now: uint64)
      requires Valid() && index < |payloads| && payload.Filling(payloads[index].packetData)
      requires op.Identity? ==> at + op.length <= payloads[index].packetData.Length
      requires op.Counter? ==> counterIdx < |counters[index]|
      requires !op.Identity? ==> op.length <= 8 && payload.temps.size + op.length <= payload.temps.data.Length
      modifies this, payload`slices, payload.temps, payload.temps.data
      ensures Valid() && payload.Filling(payloads[index].packetData)
      ensures payload.temps.data == old(payload.temps.data)
      ensures payload.temps.size == old(payload.temps.size) + (if op.Identity? then 0 else op.length)
      ensures op.Counter? ==>
                counters == old(counters)[index := Bump(old(counters[index]), counterIdx, steps[index][counterIdx])]
      ensures !op.Counter? ==> counters == old(counters)
      ensures var packet := payloads[index].packetData;
              && packet[..] == old(packet[..])
              && payload.Image(packet)
                 == old(payload.Image(packet))
                    + Field(op, packet[..], at, if op.Counter? then old(counters[index][counterIdx]) else 0, now)
    {
      var view := payloads[index].packetData;
      match op {
        case Identity(n) =>
          payload.AppendStatic(view, at, n);
        case Counter(n, little) =>
          var value := FetchAdd(index, counterIdx);
          payload.AppendNumeric(view, value, n, little);
        case Timestamp(n, little, format) =>
          payload.AppendNumeric(view, InUnit(now, format), n, little);
      }
    }

    /** The loop of `FillPayload` after its first `i` operations. */
    ghost predicate Progress(index: nat, payload: PreparedPayload, bytes: seq<byte>, cs: seq<uint64>,
                             clock: seq<uint64>,
                             i: nat, p: Position, sent: seq<byte>)
      requires Valid() && index < |payloads|
      reads this, payload, payload.temps, payload.temps.data, payloads[index].packetData
    {
      var ops, view := payloads[index].ops, payloads[index].packetData;
      && payload.Filling(view) && view[..] == bytes && payload.Image(view) == sent
      && ScratchBytes(ops) <= payload.temps.data.Length
      && EmittedUpTo(ops, bytes, cs, steps[index], clock, i, p, sent, payload.temps.size, counters[index])
    }

    /** One round of the rendering loop. */
    method EmitOperation(index: nat, payload: PreparedPayload, clock: seq<uint64>, i: nat, p: Position,
                         ghost bytes: seq<byte>, ghost cs: seq<uint64>, ghost sent: seq<byte>)
        returns (p': Position, ghost sent': seq<byte>)
      requires Valid() && index < |payloads| && FieldsFit(payloads[index].ops) && i < |payloads[index].ops|
      requires Progress(index, payload, bytes, cs, clock, i, p, sent)
      modifies this, payload`slices, payload.temps, payload.temps.data
      ensures Valid() && payload.temps.data == old(payload.temps.data)
      ensures Progress(index, payload, bytes, cs, clock, i + 1, p', sent')
      ensures OthersKept(old(counters), counters, index)
    {
      var op := payloads[index].ops[i];
      assert op in payloads[index].ops;
      sent' := EmitsNext(payloads[index].ops, bytes, cs, steps[index], clock, i, p, sent, payload.temps.size,
                         counters[index]);
      EmitField(index, payload, op, p.offset, p.counters, if op.Timestamp? then clock[p.readings] else 0);
      p' := NextPosition(p, op);
    }

    /** The rendering loop: iterates over the operations of a prepared payload. */
    method EmitAll(index: nat, payload: PreparedPayload, clock: seq<uint64>)
      requires Valid() && index < |payloads| && FieldsFit(payloads[index].ops)
      requires Renderable(payloads[index].ops, 0, payloads[index].packetData.Length, |counters[index]|, |clock|)
      requires payload.Filling(payloads[index].packetData) && payload.Image(payloads[index].packetData) == []
      requires payload.temps.size == 0 && ScratchBytes(payloads[index].ops) <= payload.temps.data.Length
      modifies this, payload`slices, payload.temps, payload.temps.data
      ensures Valid() && payload.temps.data == old(payload.temps.data)
      ensures var d, cs := payloads[index], old(counters[index]);
              && CountCounters(d.ops) <= |cs| == |steps[index]|
              && counters == old(counters)[index := Advance(cs, steps[index], CountCounters(d.ops))]
              && payload.Filling(d.packetData) && payload.temps.size == ScratchBytes(d.ops)
              && payload.Image(d.packetData) == Render(d.ops, old(d.packetData[..]), 0, cs, clock)
    {
      ghost var bytes, cs := payloads[index].packetData[..], counters[index];
      var p := Position(0, 0, 0);
      ghost var sent: seq<byte> := [];
      NothingEmitted(payloads[index].ops, bytes, cs, steps[index], clock);
      for i := 0 to |payloads[index].ops|
        invariant Valid() && payload.temps.data == old(payload.temps.data)
        invariant Progress(index, payload, bytes, cs, clock, i, p, sent)
        invariant OthersKept(old(counters), counters, index)
      {
        p, sent := EmitOperation(index, payload, clock, i, p, bytes, cs, sent);
      }
      OnlyOneChanged(old(counters), counters, index);
      AllEmitted(payloads[index].ops, bytes, cs, steps[index], clock, p, sent, payload.temps.size, counters[index]);
    }

    method FillPayload(index: nat, payload: PreparedPayload, clock: seq<uint64>) returns (ok: bool)
      requires Valid() && (index < |payloads| ==> CanFill(index, payload, clock))
      modifies this, payload`slices, payload.temps, payload.temps.data
      ensures Valid() && ok == (index < |payloads|)
      ensures !ok ==> counters == old(counters) && payload.slices == old(payload.slices)
      ensures ok ==>
                var d, cs := payloads[index], old(counters[index]);
                && CountCounters(d.ops) <= |cs| == |steps[index]|
                && counters == old(counters)[index := Advance(cs, steps[index], CountCounters(d.ops))]
                && payload.Filling(d.packetData) && payload.temps.size == ScratchBytes(d.ops)
                && payload.Image(d.packetData) == Render(d.ops, old(d.packetData[..]), 0, cs, clock)
    {
      if index >= |payloads| {
        return false;
      }
      var total := TotalScratch(payloads[index].ops);
      payload.Prepare(total, payloads[index].packetData);
      EmitAll(index, payload, clock);
      return true;
    }
  }

  /** The counters of the other payloads are what they were. */
  ghost predicate OthersKept(before: seq<seq<uint64>>, after: seq<seq<uint64>>, index: nat) {
    |after| == |before| && forall q :: 0 <= q < |before| && q != index ==> after[q] == before[q]
  }

  lemma OnlyOneChanged(before: seq<seq<uint64>>, after: seq<seq<uint64>>, index: nat)
    requires OthersKept(before, after, index) && index < |before|
    ensures after == before[index := after[index]]
  {
  }

  /** Where the rendering loop is: packet offset, counters fetched, clock readings taken. */
  datatype Position = Position(offset: nat, counters: nat, readings: nat)

  function NextPosition(p: Position, op: PacketOperation): Position {
    Position(p.offset + op.length,
             if op.Counter? then p.counters + 1 else p.counters,
             if op.Timestamp? then p.readings + 1 else p.readings)
  }

  lemma FieldArguments(op: PacketOperation, bytes: seq<byte>, at: nat,
                       cs: seq<uint64>, c: nat, ts: seq<uint64>, t: nat)
    requires c <= |cs| && t <= |ts| && (op.Counter? ==> c < |cs|) && (op.Timestamp? ==> t < |ts|)
    requires op.Identity? ==> at + op.length <= |bytes|
    ensures Field(op, bytes, at, First(cs[c..]), First(ts[t..]))
            == Field(op, bytes, at, if op.Counter? then cs[c] else 0, if op.Timestamp? then ts[t] else 0)
    ensures RestIf(op.Counter?, cs[c..]) == cs[if op.Counter? then c + 1 else c..]
    ensures RestIf(op.Timestamp?, ts[t..]) == ts[if op.Timestamp? then t + 1 else t..]
  {
  }

  /** `image` is what the operations before `rest` render to. */
  ghost predicate Rendered(image: seq<byte>, ops: seq<PacketOperation>, packet: seq<byte>, cs: seq<uint64>,
                           ts: seq<uint64>,
                           rest: seq<PacketOperation>, at: nat, cs': seq<uint64>, ts': seq<uint64>)
    requires Renderable(ops, 0, |packet|, |cs|, |ts|)
  {
    && Renderable(rest, at, |packet|, |cs'|, |ts'|)
    && image + Render(rest, packet, at, cs', ts') == Render(ops, packet, 0, cs, ts)
  }

  lemma RenderUnfold(ops: seq<PacketOperation>, packet: seq<byte>, at: nat, cs: seq<uint64>, ts: seq<uint64>)
    requires ops != [] && Renderable(ops, at, |packet|, |cs|, |ts|)
    ensures ops[0].Identity? ==> at + ops[0].length <= |packet|
    ensures (ops[0].Counter? ==> cs != []) && (ops[0].Timestamp? ==> ts != [])
    ensures var cs', ts' := RestIf(ops[0].Counter?, cs), RestIf(ops[0].Timestamp?, ts);
            && Renderable(ops[1..], at + ops[0].length, |packet|, |cs'|, |ts'|)
            && Render(ops, packet, at, cs, ts)
               == Field(ops[0], packet, at, First(cs), First(ts))
               + Render(ops[1..], packet, at + ops[0].length, cs', ts')
  {
  }

  /** The first `i` operations have taken `used` scratch bytes and their counters. */
  ghost predicate TakenUpTo(ops: seq<PacketOperation>, i: nat, p: Position, used: nat) {
    && i <= |ops|
    && used + ScratchBytes(ops[i..]) == ScratchBytes(ops)
    && p.counters + CountCounters(ops[i..]) == CountCounters(ops)
  }

  /** What has been sent is followed by what the operations from `i` on render to. */
  ghost predicate SentUpTo(ops: seq<PacketOperation>, bytes: seq<byte>, cs: seq<uint64>, clock: seq<uint64>,
                           i: nat, p: Position, sent: seq<byte>)
  {
    && Renderable(ops, 0, |bytes|, |cs|, |clock|) && i <= |ops| && p.counters <= |cs| && p.readings <= |clock|
    && Rendered(sent, ops, bytes, cs, clock, ops[i..], p.offset, cs[p.counters..], clock[p.readings..])
  }

  /** The first `i` operations are emitted; the counters, `cs` at first, are `now`. */
  ghost predicate EmittedUpTo(ops: seq<PacketOperation>, bytes: seq<byte>, cs: seq<uint64>, steps: seq<uint16>,
                              clock: seq<uint64>,
                              i: nat, p: Position, sent: seq<byte>, used: nat, now: seq<uint64>)
  {
    && TakenUpTo(ops, i, p, used) && SentUpTo(ops, bytes, cs, clock, i, p, sent)
    && |cs| == |steps| && now == Advance(cs, steps, p.counters)
  }

  lemma NothingEmitted(ops: seq<PacketOperation>, bytes: seq<byte>, cs: seq<uint64>, steps: seq<uint16>,
                       clock: seq<uint64>)
    requires Renderable(ops, 0, |bytes|, |cs|, |clock|) && |cs| == |steps|
    ensures EmittedUpTo(ops, bytes, cs, steps, clock, 0, Position(0, 0, 0), [], 0, cs)
  {
    assert ops[0..] == ops && cs[0..] == cs && clock[0..] == clock;
    assert Advance(cs, steps, 0) == cs;
    assert [] + Render(ops, bytes, 0, cs, clock) == Render(ops, bytes, 0, cs, clock);
  }

  lemma AllEmitted(ops: seq<PacketOperation>, bytes: seq<byte>, cs: seq<uint64>, steps: seq<uint16>, clock: seq<uint64>,
                   p: Position, sent: seq<byte>, used: nat, now: seq<uint64>)
    requires EmittedUpTo(ops, bytes, cs, steps, clock, |ops|, p, sent, used, now)
    ensures Renderable(ops, 0, |bytes|, |cs|, |clock|)
    ensures CountCounters(ops) <= |cs| == |steps| && now == Advance(cs, steps, CountCounters(ops))
    ensures used == ScratchBytes(ops) && sent == Render(ops, bytes, 0, cs, clock)
  {
    assert ops[|ops|..] == [] && sent + [] == sent;
  }

  lemma TakesNext(ops: seq<PacketOperation>, i: nat, p: Position, used: nat)
    requires i < |ops| && TakenUpTo(ops, i, p, used)
    ensures var used' := used + if ops[i].Identity? then 0 else ops[i].length;
            used' <= ScratchBytes(ops) && TakenUpTo(ops, i + 1, NextPosition(p, ops[i]), used')
  {
    assert ops[i..][1..] == ops[i + 1..] && ops[i..][0] == ops[i];
  }

  lemma SendsNext(ops: seq<PacketOperation>, bytes: seq<byte>, cs: seq<uint64>, clock: seq<uint64>,
                  i: nat, p: Position, sent: seq<byte>) returns (sent': seq<byte>)
    requires i < |ops| && SentUpTo(ops, bytes, cs, clock, i, p, sent)
    ensures (ops[i].Identity? ==> p.offset + ops[i].length <= |bytes|)
    ensures (ops[i].Counter? ==> p.counters < |cs|) && (ops[i].Timestamp? ==> p.readings < |clock|)
    ensures sent' == sent + Field(ops[i], bytes, p.offset, if ops[i].Counter? then cs[p.counters] else 0,
                                  if ops[i].Timestamp? then clock[p.readings] else 0)
    ensures SentUpTo(ops, bytes, cs, clock, i + 1, NextPosition(p, ops[i]), sent')
  {
    var op, p' := ops[i], NextPosition(p, ops[i]);
    RestOf(ops, i);
    FirstReads(ops[i..], p.offset, |bytes|, |cs[p.counters..]|, |clock[p.readings..]|);
    FieldArguments(op, bytes, p.offset, cs, p.counters, clock, p.readings);
    sent' := RenderStep(sent, Render(ops, bytes, 0, cs, clock), ops[i..], bytes, p.offset, cs[p.counters..],
                        clock[p.readings..],
                        ops[i + 1..], p'.offset, cs[p'.counters..], clock[p'.readings..]);
  }

  lemma RestOf(ops: seq<PacketOperation>, i: nat)
    requires i < |ops|
    ensures ops[i..] != [] && ops[i..][0] == ops[i] && ops[i..][1..] == ops[i + 1..]
  {
  }

  lemma FirstReads(rest: seq<PacketOperation>, at: nat, size: nat, counters: nat, readings: nat)
    requires rest != [] && Renderable(rest, at, size, counters, readings)
    ensures (rest[0].Identity? ==> at + rest[0].length <= size) && (rest[0].Counter? ==> counters > 0)
            && (rest[0].Timestamp? ==> readings > 0)
  {
  }

  /** What the next operation sends, and that the loop goes on from there. */
  lemma EmitsNext(ops: seq<PacketOperation>, bytes: seq<byte>, cs: seq<uint64>, steps: seq<uint16>, clock: seq<uint64>,
                  i: nat, p: Position, sent: seq<byte>, used: nat, now: seq<uint64>) returns (sent': seq<byte>)
    requires i < |ops| && EmittedUpTo(ops, bytes, cs, steps, clock, i, p, sent, used, now)
    ensures (ops[i].Identity? ==> p.offset + ops[i].length <= |bytes|) && |now| == |steps|
    ensures (ops[i].Counter? ==> p.counters < |now|) && (ops[i].Timestamp? ==> p.readings < |clock|)
    ensures used + (if ops[i].Identity? then 0 else ops[i].length) <= ScratchBytes(ops)
    ensures sent' == sent + Field(ops[i], bytes, p.offset, if ops[i].Counter? then now[p.counters] else 0,
                                  if ops[i].Timestamp? then clock[p.readings] else 0)
    ensures EmittedUpTo(ops, bytes, cs, steps, clock, i + 1, NextPosition(p, ops[i]), sent',
                        used + (if ops[i].Identity? then 0 else ops[i].length),
                        if ops[i].Counter? then Bump(now, p.counters, steps[p.counters]) else now)
  {
    TakesNext(ops, i, p, used);
    sent' := SendsNext(ops, bytes, cs, clock, i, p, sent);
    if ops[i].Counter? {
      AdvanceOne(cs, steps, p.counters);
    }
  }

  /** Moves what the first of `rest` renders to from what is to come to what has been sent. */
  lemma RenderStep(sent: seq<byte>, whole: seq<byte>, rest: seq<PacketOperation>, packet: seq<byte>, at: nat,
                   cs: seq<uint64>, ts: seq<uint64>,
                   rest': seq<PacketOperation>, at': nat, cs': seq<uint64>, ts': seq<uint64>) returns (sent': seq<byte>)
    requires rest != [] && Renderable(rest, at, |packet|, |cs|, |ts|)
             && sent + Render(rest, packet, at, cs, ts) == whole
    requires rest' == rest[1..] && at' == at + rest[0].length && (rest[0].Identity? ==> at' <= |packet|)
    requires cs' == RestIf(rest[0].Counter?, cs) && ts' == RestIf(rest[0].Timestamp?, ts)
    ensures sent' == sent + Field(rest[0], packet, at, First(cs), First(ts))
    ensures Renderable(rest', at', |packet|, |cs'|, |ts'|) && sent' + Render(rest', packet, at', cs', ts') == whole
  {
    RenderUnfold(rest, packet, at, cs, ts);
    sent' := sent + Field(rest[0], packet, at, First(cs), First(ts));
    Regroup(sent, Field(rest[0], packet, at, First(cs), First(ts)), Render(rest', packet, at', cs', ts'));
  }

  lemma Regroup(a: seq<byte>, b: seq<byte>, c: seq<byte>)
    ensures a + (b + c) == (a + b) + c
  {
  }

  lemma AdvanceOne(cs: seq<uint64>, steps: seq<uint16>, k: nat)
    requires |cs| == |steps| && k < |cs|
    ensures Advance(cs, steps, k)[k] == cs[k]
    ensures Advance(cs, steps, k + 1) == Bump(Advance(cs, steps, k), k, steps[k])
  {
  }

  function ZeroCounters(n: nat): (r: seq<uint64>)
    ensures |r| == n && forall i :: 0 <= i < n ==> r[i] == 0
  {
    seq(n, i => 0)
  }
}
