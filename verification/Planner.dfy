/** Compiles the actions of a script into payload descriptors, counter steps and
    action descriptors. */
module Planner {
  import opened Bytes
  import opened Scripts

  datatype TimestampFormat = Seconds | Milliseconds | Microseconds | Nanoseconds

  datatype PacketOperation =
    | Identity(length: uint32)
    | Counter(length: uint32, littleEndian: bool)
    | Timestamp(length: uint32, littleEndian: bool, format: TimestampFormat)

  /** A view of a packet's bytes and the operations that turn it into a payload. */
  datatype PayloadDescriptor = PayloadDescriptor(packetData: array<byte>, ops: seq<PacketOperation>)

  /** `count` is 0 for the kinds whose constructor leaves it unset. */
  datatype ActionDescriptor = ActionDescriptor(
    kind: ActionType, sessionsStart: uint32, sessionsEnd: uint32, count: uint32, offset: uint32)

  datatype Plan = Plan(
    actions: seq<ActionDescriptor>,
    payloads: seq<PayloadDescriptor>,
    counterSteps: seq<seq<uint16>>)

  function Wrap32(x: int): uint32 { x % 0x1_0000_0000 }

  /** 64-bit addition and subtraction, which wrap around. */
  function Add64(x: uint64, y: uint64): uint64 { if x + y < TWO_64 then x + y else x + y - TWO_64 }
  function Sub64(x: uint64, y: uint64): uint64 { if y <= x then x - y else TWO_64 - (y - x) }

  function Narrow16(x: int): uint16 { x % 0x1_0000 }

  function LookupFormat(name: string): Option<TimestampFormat> {
    if name == "seconds" then Some(Seconds)
    else if name == "milliseconds" then Some(Milliseconds)
    else if name == "microseconds" then Some(Microseconds)
    else if name == "nanoseconds" then Some(Nanoseconds)
    else None
  }

  // --- Operations of one payload ---

  function OperationOf(m: Modification): Option<PacketOperation> {
    match m
    case CounterMod(c) => Some(Counter(c.counterBytes.second, c.littleEndian))
    case TimestampMod(t) =>
      match LookupFormat(t.formatName)
      case None => None
      case Some(f) => Some(Timestamp(t.timestampBytes.second, t.littleEndian, f))
  }

  function IdentityUpTo(gap: uint64): seq<PacketOperation> {
    if gap > 0 then [Identity(Wrap32(gap))] else []
  }

  function Prepend(ops: seq<PacketOperation>, rest: Option<seq<PacketOperation>>): Option<seq<PacketOperation>> {
    if rest.None? then None else Some(ops + rest.value)
  }

  /** The operations for `mods` when `at` packet bytes are already accounted for.
      The gap before a modification is a 64-bit subtraction and its length is cut to 32 bits. */
  function OperationsFrom(mods: seq<Modification>, at: uint64, size: uint64): Option<seq<PacketOperation>> {
    if mods == [] then
      Some(if at < size then [Identity(Wrap32(size - at))] else [])
    else
      var r := mods[0].Bytes();
      var gap := Sub64(r.start, at);
      match OperationOf(mods[0])
      case None => None
      case Some(op) =>
        Prepend(IdentityUpTo(gap) + [op], OperationsFrom(mods[1..], Add64(Add64(at, gap), r.second), size))
  }

  function PayloadOperations(mods: seq<Modification>, size: uint64): Option<seq<PacketOperation>> {
    if mods == [] then Some([Identity(Wrap32(size))]) else OperationsFrom(mods, 0, size)
  }

  function CounterSteps(mods: seq<Modification>): seq<uint16> {
    if mods == [] then []
    else (if mods[0].CounterMod? then [Narrow16(mods[0].counter.counterStep)] else []) + CounterSteps(mods[1..])
  }

  /** The modifications lie in the packet, ascending and without overlap, after `from`. */
  ghost predicate WellPlaced(mods: seq<Modification>, from: nat, size: nat) {
    if mods == [] then from <= size
    else
      var r := mods[0].Bytes();
      from <= r.start && WellPlaced(mods[1..], r.start + r.second, size)
  }

  lemma {:induction false} WellPlacedFits(mods: seq<Modification>, from: nat, size: nat)
    requires WellPlaced(mods, from, size)
    ensures from <= size
  {
    if mods != [] {
      WellPlacedFits(mods[1..], mods[0].Bytes().start + mods[0].Bytes().second, size);
    }
  }

  /** Every static slice, taken where the operations before it end, stays in the packet. */
  ghost predicate SlicesInside(ops: seq<PacketOperation>, from: nat, size: nat) {
    ops == [] ||
    (&& (ops[0].Identity? ==> from + ops[0].length <= size)
     && SlicesInside(ops[1..], from + ops[0].length, size))
  }

  ghost function TotalLength(ops: seq<PacketOperation>): nat {
    if ops == [] then 0 else ops[0].length + TotalLength(ops[1..])
  }

  lemma {:induction false} SlicesInsideAppend(a: seq<PacketOperation>, b: seq<PacketOperation>, from: nat, size: nat)
    ensures SlicesInside(a + b, from, size)
            <==> SlicesInside(a, from, size) && SlicesInside(b, from + TotalLength(a), size)
    ensures TotalLength(a + b) == TotalLength(a) + TotalLength(b)
  {
    if a == [] {
      assert a + b == b;
    } else {
      SlicesInsideAppend(a[1..], b, from + a[0].length, size);
      assert (a + b)[1..] == a[1..] + b;
    }
  }

  /** The 64-bit gap arithmetic: `at` ends up where the modification ends, but a modification
      that starts before `at` is reached by a gap of almost 2^64 bytes. */
  lemma GapArithmetic(at: nat, r: Range)
    requires at < 2 * TWO_32
    ensures Add64(Add64(at, Sub64(r.start, at)), r.second) == r.start + r.second
    ensures at <= r.start ==> Sub64(r.start, at) == r.start - at
    ensures r.start < at ==> Sub64(r.start, at) == TWO_64 - (at - r.start)
  {
    assert Add64(at, Sub64(r.start, at)) == r.start;
  }

  /** The static operation that leads up to a modification starting at `start`. */
  ghost predicate IsLead(lead: seq<PacketOperation>, at: nat, start: nat) {
    && |lead| <= 1 && (lead != [] ==> lead[0].Identity?)
    && (at == start ==> lead == [])
    && (at < start < at + TWO_32 ==> lead == [Identity(start - at)])
    && (start < at < start + TWO_32 ==> lead == [Identity(TWO_32 - (at - start))])
  }

  lemma LeadOfGap(at: nat, r: Range)
    requires at < 2 * TWO_32
    ensures IsLead(IdentityUpTo(Sub64(r.start, at)), at, r.start)
  {
    GapArithmetic(at, r);
    var gap := Sub64(r.start, at);
    if r.start < at < r.start + TWO_32 {
      assert gap == (TWO_32 - 1) * TWO_32 + (TWO_32 - (at - r.start));
      assert Wrap32(gap) == TWO_32 - (at - r.start);
    }
  }

  lemma Unfold(mods: seq<Modification>, at: nat, size: nat)
      returns (lead: seq<PacketOperation>, op: PacketOperation, rest: seq<PacketOperation>)
    requires mods != [] && at < 2 * TWO_32 && size < TWO_64
    requires OperationsFrom(mods, at, size).Some?
    ensures var r := mods[0].Bytes();
            && OperationOf(mods[0]) == Some(op) && !op.Identity? && op.length == r.second
            && OperationsFrom(mods[1..], r.start + r.second, size) == Some(rest)
            && OperationsFrom(mods, at, size) == Some(lead + ([op] + rest))
            && IsLead(lead, at, r.start)
  {
    var r := mods[0].Bytes();
    LeadOfGap(at, r);
    lead := IdentityUpTo(Sub64(r.start, at));
    assert Add64(Add64(at, Sub64(r.start, at)), r.second) == r.start + r.second by {
      GapArithmetic(at, r);
    }
    op := OperationOf(mods[0]).value;
    rest := OperationsFrom(mods[1..], r.start + r.second, size).value;
    assert lead + [op] + rest == lead + ([op] + rest);
  }

  lemma LeadAndOperation(lead: seq<PacketOperation>, op: PacketOperation, rest: seq<PacketOperation>,
                         at: nat, start: nat, size: nat)
    requires size < TWO_32 && start < TWO_32 && IsLead(lead, at, start) && !op.Identity?
    ensures var ops := lead + ([op] + rest);
            && (at <= start ==>
                 && (SlicesInside(ops, at, size)
                     <==> (at < start ==> start <= size) && SlicesInside(rest, start + op.length, size))
                 && at + TotalLength(ops) == start + op.length + TotalLength(rest))
            && (start < at <= size ==> !SlicesInside(ops, at, size))
  {
    SlicesInsideAppend(lead, [op] + rest, at, size);
    assert ([op] + rest)[1..] == rest;
    assert at < start ==> lead[1..] == [];
  }

  lemma LastOperation(at: nat, size: nat)
    requires at < 2 * TWO_32 && size < TWO_32
    ensures var ops := OperationsFrom([], at, size).value;
            SlicesInside(ops, at, size) && TotalLength(ops) == if at < size then size - at else 0
  {
    var ops := OperationsFrom([], at, size).value;
    if at < size {
      assert ops[0] == Identity(size - at) && ops[1..] == [];
      assert TotalLength(ops) == size - at;
    }
  }

  ghost predicate RendersExactly(ops: seq<PacketOperation>, at: nat, size: nat) {
    SlicesInside(ops, at, size) && at + TotalLength(ops) == size
  }

  lemma ExactStep(mods: seq<Modification>, lead: seq<PacketOperation>, op: PacketOperation,
                  rest: seq<PacketOperation>, at: nat, size: nat)
    requires mods != [] && size < TWO_32 && !op.Identity? && op.length == mods[0].Bytes().second
    requires IsLead(lead, at, mods[0].Bytes().start)
    requires RendersExactly(rest, mods[0].Bytes().start + op.length, size)
             <==> WellPlaced(mods[1..], mods[0].Bytes().start + op.length, size)
    ensures RendersExactly(lead + ([op] + rest), at, size) <==> WellPlaced(mods, at, size)
  {
    var r := mods[0].Bytes();
    LeadAndOperation(lead, op, rest, at, r.start, size);
    if WellPlaced(mods[1..], r.start + r.second, size) {
      WellPlacedFits(mods[1..], r.start + r.second, size);
    }
  }

  /** The compiler's output can be rendered to exactly the packet's length, with every static
      slice inside the packet, if and only if the list was ascending, disjoint and in bounds. */
  lemma {:induction false} OperationsFromExact(mods: seq<Modification>, at: nat, size: nat)
    requires size < TWO_32 && at < 2 * TWO_32
    requires OperationsFrom(mods, at, size).Some?
    ensures RendersExactly(OperationsFrom(mods, at, size).value, at, size) <==> WellPlaced(mods, at, size)
  {
    if mods == [] {
      LastOperation(at, size);
    } else {
      var lead, op, rest := Unfold(mods, at, size);
      OperationsFromExact(mods[1..], mods[0].Bytes().start + mods[0].Bytes().second, size);
      ExactStep(mods, lead, op, rest, at, size);
    }
  }

  lemma PayloadOperationsExact(mods: seq<Modification>, size: nat)
    requires 0 < size < TWO_32
    requires PayloadOperations(mods, size).Some?
    ensures RendersExactly(PayloadOperations(mods, size).value, 0, size) <==> WellPlaced(mods, 0, size)
  {
    OperationsFromExact(mods, 0, size);
  }

  /** A list the parser and the range check both accept, given out of order: the counter's gap
      wraps around and its static slice would run past the packet. */
  lemma DescendingListMisrenders()
    ensures var mods := [TimestampMod(TimestampModification(Range(12, 4), true, "seconds")),
                         CounterMod(CounterModification(Range(0, 4), 1, true))];
            && PayloadOperations(mods, 32)
               == Some([Identity(12), Timestamp(4, true, Seconds), Identity(0xFFFF_FFF0), Counter(4, true),
                        Identity(28)])
            && !SlicesInside(PayloadOperations(mods, 32).value, 0, 32)
  {
    var t := TimestampMod(TimestampModification(Range(12, 4), true, "seconds"));
    var c := CounterMod(CounterModification(Range(0, 4), 1, true));
    var mods := [t, c];
    assert mods[1..] == [c] && [c][1..] == [];
    assert OperationsFrom([], 4, 32) == Some([Identity(28)]);
    var lead, op, rest := Unfold([c], 16, 32);
    assert lead == [Identity(0xFFFF_FFF0)];
    var ops := PayloadOperations(mods, 32).value;
    assert ops == [Identity(12), Timestamp(4, true, Seconds), Identity(0xFFFF_FFF0), Counter(4, true),
                   Identity(28)] by {
      var lead', op', rest' := Unfold(mods, 0, 32);
    }
    assert ops[1..][1..][0] == Identity(0xFFFF_FFF0);
  }

  /** The operation list and the counter list agree: one step per COUNTER operation. */
  ghost function CountCounters(ops: seq<PacketOperation>): nat {
    if ops == [] then 0 else (if ops[0].Counter? then 1 else 0) + CountCounters(ops[1..])
  }

  lemma {:induction false} CountCountersAppend(a: seq<PacketOperation>, b: seq<PacketOperation>)
    ensures CountCounters(a + b) == CountCounters(a) + CountCounters(b)
  {
    if a == [] {
      assert a + b == b;
    } else {
      CountCountersAppend(a[1..], b);
      assert (a + b)[1..] == a[1..] + b;
    }
  }

  lemma {:induction false} StepsMatchOperations(mods: seq<Modification>, at: uint64, size: uint64)
    requires OperationsFrom(mods, at, size).Some?
    ensures CountCounters(OperationsFrom(mods, at, size).value) == |CounterSteps(mods)|
  {
    if mods != [] {
      var r := mods[0].Bytes();
      var gap := Sub64(r.start, at);
      var next := Add64(Add64(at, gap), r.second);
      var op := OperationOf(mods[0]).value;
      var rest := OperationsFrom(mods[1..], next, size).value;
      StepsMatchOperations(mods[1..], next, size);
      CountCountersAppend(IdentityUpTo(gap) + [op], rest);
      CountCountersAppend(IdentityUpTo(gap), [op]);
    }
  }

  /** `done` and `steps` are what the modifications before `rest` compile to. */
  ghost predicate Compiled(mods: seq<Modification>, size: uint64, done: seq<PacketOperation>, steps: seq<uint16>,
                           rest: seq<Modification>, at: uint64)
  {
    && CounterSteps(mods) == steps + CounterSteps(rest)
    && OperationsFrom(mods, 0, size) == Prepend(done, OperationsFrom(rest, at, size))
  }

  lemma CompileFails(mods: seq<Modification>, size: uint64, done: seq<PacketOperation>, steps: seq<uint16>,
                     rest: seq<Modification>, at: uint64)
    requires Compiled(mods, size, done, steps, rest, at) && rest != [] && OperationOf(rest[0]).None?
    ensures OperationsFrom(mods, 0, size) == None
  {
  }

  lemma CompileStep(mods: seq<Modification>, size: uint64, done: seq<PacketOperation>, steps: seq<uint16>,
                    rest: seq<Modification>, at: uint64,
                    done': seq<PacketOperation>, steps': seq<uint16>, at': uint64)
    requires Compiled(mods, size, done, steps, rest, at) && rest != [] && OperationOf(rest[0]).Some?
    requires var gap := Sub64(rest[0].Bytes().start, at);
             && done' == done + (IdentityUpTo(gap) + [OperationOf(rest[0]).value])
             && at' == Add64(Add64(at, gap), rest[0].Bytes().second)
    requires steps' == steps + if rest[0].CounterMod? then [Narrow16(rest[0].counter.counterStep)] else []
    ensures Compiled(mods, size, done', steps', rest[1..], at')
  {
    PrependTwice(done, IdentityUpTo(Sub64(rest[0].Bytes().start, at)) + [OperationOf(rest[0]).value],
                 OperationsFrom(rest[1..], at', size));
    CounterStepsStep(steps, rest);
  }

  lemma PrependTwice(a: seq<PacketOperation>, b: seq<PacketOperation>, rest: Option<seq<PacketOperation>>)
    ensures Prepend(a, Prepend(b, rest)) == Prepend(a + b, rest)
  {
    if rest.Some? {
      assert a + (b + rest.value) == (a + b) + rest.value;
    }
  }

  lemma CounterStepsStep(steps: seq<uint16>, rest: seq<Modification>)
    requires rest != []
    ensures var first := if rest[0].CounterMod? then [Narrow16(rest[0].counter.counterStep)] else [];
            steps + CounterSteps(rest) == steps + first + CounterSteps(rest[1..])
  {
  }

  lemma MergeStep(order: seq<ModificationType>, cs: seq<CounterModification>, ts: seq<TimestampModification>)
    requires Matches(order, cs, ts) && order != []
    ensures var c := order[0] == CounterType;
            && (c ==> cs != []) && (!c ==> ts != [])
            && Matches(order[1..], if c then cs[1..] else cs, if c then ts else ts[1..])
            && Merge(order, cs, ts)[0] == (if c then CounterMod(cs[0]) else TimestampMod(ts[0]))
            && Merge(order, cs, ts)[1..] == Merge(order[1..], if c then cs[1..] else cs, if c then ts else ts[1..])
  {
  }

  /** Accounts for the packet bytes before the range `r`, then for the range itself. */
  method AppendOperation(done: seq<PacketOperation>, at: uint64, r: Range, op: PacketOperation)
      returns (done': seq<PacketOperation>, at': uint64)
    ensures var gap := Sub64(r.start, at);
            && done' == done + (IdentityUpTo(gap) + [op])
            && at' == Add64(Add64(at, gap), r.second)
  {
    done', at' := done, at;
    var prevBytes := Sub64(r.start, at);
    if prevBytes > 0 {
      done' := done + [Identity(Wrap32(prevBytes))];
      at' := Add64(at, prevBytes);
    }
    done' := done' + [op];
    at' := Add64(at', r.second);
  }

  /** Compiles the modifications of one SEND action against its packet. */
  method CompileSend(action: Action, size: uint64) returns (ops: Option<seq<PacketOperation>>, steps: seq<uint16>)
    requires action.Balanced()
    ensures ops == PayloadOperations(action.Modifications(), size)
    ensures ops.Some? ==> steps == CounterSteps(action.Modifications())
  {
    if action.modOrder == [] {
      return Some([Identity(Wrap32(size))]), [];
    }
    ghost var mods := action.Modifications();
    var done: seq<PacketOperation> := [];
    var tsIdx, cIdx := 0, 0;
    var dataIndex: uint64 := 0;
    steps := [];
    CompileStart(action, size);
    for i := 0 to |action.modOrder|
      invariant cIdx <= |action.counterMods| && tsIdx <= |action.timestampMods|
      invariant Matches(action.modOrder[i..], action.counterMods[cIdx..], action.timestampMods[tsIdx..])
      invariant Compiled(mods, size, done, steps,
                         Merge(action.modOrder[i..], action.counterMods[cIdx..], action.timestampMods[tsIdx..]),
                         dataIndex)
    {
      ghost var order, cs, ts := action.modOrder[i..], action.counterMods[cIdx..], action.timestampMods[tsIdx..];
      ghost var rest := Merge(order, cs, ts);
      ghost var done0, steps0, at0 := done, steps, dataIndex;
      MergeStep(order, cs, ts);
      assert order[1..] == action.modOrder[i + 1..];
      var bytes: Range;
      var op: PacketOperation;
      if action.modOrder[i] == CounterType {
        assert cs[1..] == action.counterMods[cIdx + 1..];
        var m := action.counterMods[cIdx];
        cIdx := cIdx + 1;
        bytes, op := m.counterBytes, Counter(m.counterBytes.second, m.littleEndian);
        steps := steps + [Narrow16(m.counterStep)];
      } else {
        assert ts[1..] == action.timestampMods[tsIdx + 1..];
        var m := action.timestampMods[tsIdx];
        tsIdx := tsIdx + 1;
        var format := LookupFormat(m.formatName);
        if format.None? {
          CompileFails(mods, size, done, steps, rest, dataIndex);
          return None, [];
        }
        bytes, op := m.timestampBytes, Timestamp(m.timestampBytes.second, m.littleEndian, format.value);
      }
      assert steps0 + [] == steps0;
      done, dataIndex := AppendOperation(done, dataIndex, bytes, op);
      CompileStep(mods, size, done0, steps0, rest, at0, done, steps, dataIndex);
    }
    assert action.modOrder[|action.modOrder|..] == [];
    assert done + [] == done && steps + [] == steps;
    if dataIndex < size {
      done := done + [Identity(Wrap32(size - dataIndex))];
    }
    return Some(done), steps;
  }

  lemma CompileStart(action: Action, size: uint64)
    requires action.Balanced() && action.modOrder != []
    ensures action.modOrder[0..] == action.modOrder && action.counterMods[0..] == action.counterMods
    ensures action.timestampMods[0..] == action.timestampMods
    ensures var mods := action.Modifications();
            && PayloadOperations(mods, size) == OperationsFrom(mods, 0, size)
            && Compiled(mods, size, [], [], mods, 0)
  {
    var mods := action.Modifications();
    if OperationsFrom(mods, 0, size).Some? {
      assert [] + OperationsFrom(mods, 0, size).value == OperationsFrom(mods, 0, size).value;
    }
    assert [] + CounterSteps(mods) == CounterSteps(mods);
  }

  // --- The whole plan ---

  type Packets = map<string, array<byte>>

  function Repeat<T>(n: nat, x: T): (r: seq<T>)
    ensures |r| == n && forall i :: 0 <= i < n ==> r[i] == x
  {
    seq(n, i => x)
  }

  function Describe(a: Action, offset: uint64): ActionDescriptor {
    var at := Wrap32(offset);
    match a.kind
    case Create => ActionDescriptor(Create, 0, a.range.second, a.range.second, at)
    case Send => ActionDescriptor(Send, a.range.start, a.range.second, a.count, at)
    case Drain => ActionDescriptor(Drain, a.range.start, a.range.second, a.count, at)
    case _ => ActionDescriptor(a.kind, a.range.start, a.range.second, 0, at)
  }

  /** A SEND action compiles: its packet is known and its timestamp formats exist. */
  ghost predicate Compiles(a: Action, packets: Packets)
    requires a.Balanced()
  {
    a.kind == Send ==>
      && a.packetIdentifier in packets && packets[a.packetIdentifier].Length < TWO_64
      && PayloadOperations(a.Modifications(), packets[a.packetIdentifier].Length).Some?
  }

  /** The payload every copy of a SEND action stands for. */
  ghost function PayloadOf(a: Action, packets: Packets): PayloadDescriptor
    requires a.Balanced() && Compiles(a, packets) && a.kind == Send
  {
    var data := packets[a.packetIdentifier];
    PayloadDescriptor(data, PayloadOperations(a.Modifications(), data.Length).value)
  }

  ghost function Copies(a: Action): nat {
    if a.kind == Send then a.count else 0
  }

  ghost function TotalCopies(actions: seq<Action>): nat {
    if actions == [] then 0 else TotalCopies(actions[..|actions| - 1]) + Copies(actions[|actions| - 1])
  }

  ghost function Elapsed(actions: seq<Action>): nat {
    if actions == [] then 0 else Elapsed(actions[..|actions| - 1]) + actions[|actions| - 1].offsetMs
  }

  /** The 64-bit running offset after `actions`. */
  ghost function RunningOffset(actions: seq<Action>): uint64 {
    if actions == [] then 0
    else Add64(RunningOffset(actions[..|actions| - 1]), actions[|actions| - 1].offsetMs)
  }

  ghost predicate AllCompile(actions: seq<Action>, packets: Packets) {
    forall a :: a in actions ==> a.Balanced() && Compiles(a, packets)
  }

  /** One descriptor per action, due at the running offset. */
  ghost predicate Described(descs: seq<ActionDescriptor>, actions: seq<Action>) {
    && |descs| == |actions|
    && forall i :: 0 <= i < |actions| ==> descs[i] == DescriptorAt(actions, i)
  }

  ghost function DescriptorAt(actions: seq<Action>, i: nat): ActionDescriptor
    requires i < |actions|
  {
    Describe(actions[i], RunningOffset(actions[..i + 1]))
  }

  /** Every copy of every SEND has its own payload and its own counter steps, in script order. */
  ghost predicate LaidOut(payloads: seq<PayloadDescriptor>, steps: seq<seq<uint16>>, actions: seq<Action>,
                          packets: Packets)
    requires AllCompile(actions, packets)
  {
    && |payloads| == |steps| == TotalCopies(actions)
    && forall i :: 0 <= i < |actions| ==> CopiesAt(payloads, steps, TotalCopies(actions[..i]), actions[i], packets)
  }

  /** The copies of `a` occupy the payload indices from `base` on. */
  ghost predicate CopiesAt(payloads: seq<PayloadDescriptor>, steps: seq<seq<uint16>>, base: nat, a: Action,
                           packets: Packets)
    requires a.Balanced() && Compiles(a, packets)
  {
    a.kind == Send ==>
      && base + a.count <= |payloads| && base + a.count <= |steps|
      && payloads[base..base + a.count] == Repeat(a.count, PayloadOf(a, packets))
      && steps[base..base + a.count] == Repeat(a.count, CounterSteps(a.Modifications()))
  }

  lemma {:induction false} TotalCopiesGrows(actions: seq<Action>, i: nat)
    requires i < |actions|
    ensures TotalCopies(actions[..i]) + Copies(actions[i]) <= TotalCopies(actions)
  {
    var n := |actions| - 1;
    if i < n {
      TotalCopiesGrows(actions[..n], i);
      assert actions[..n][..i] == actions[..i];
    }
  }

  lemma DescribedStep(descs: seq<ActionDescriptor>, actions: seq<Action>, a: Action)
    requires Described(descs, actions)
    ensures Described(descs + [Describe(a, RunningOffset(actions + [a]))], actions + [a])
  {
    var after := actions + [a];
    assert after[..|after|] == after;
    forall i | 0 <= i < |actions|
      ensures DescriptorAt(after, i) == DescriptorAt(actions, i)
    {
      assert after[..i + 1] == actions[..i + 1];
    }
  }

  lemma CopiesStay(payloads: seq<PayloadDescriptor>, steps: seq<seq<uint16>>, base: nat, a: Action, packets: Packets,
                   newPayloads: seq<PayloadDescriptor>, newSteps: seq<seq<uint16>>)
    requires a.Balanced() && Compiles(a, packets) && CopiesAt(payloads, steps, base, a, packets)
    ensures CopiesAt(payloads + newPayloads, steps + newSteps, base, a, packets)
  {
    if a.kind == Send {
      var n := a.count;
      assert (payloads + newPayloads)[base..base + n] == payloads[base..base + n];
      assert (steps + newSteps)[base..base + n] == steps[base..base + n];
    }
  }

  lemma LaidOutStep(payloads: seq<PayloadDescriptor>, steps: seq<seq<uint16>>,
                    actions: seq<Action>, a: Action, packets: Packets,
                    newPayloads: seq<PayloadDescriptor>, newSteps: seq<seq<uint16>>)
    requires AllCompile(actions, packets) && a.Balanced() && Compiles(a, packets)
    requires LaidOut(payloads, steps, actions, packets)
    requires a.kind == Send ==>
               && newPayloads == Repeat(a.count, PayloadOf(a, packets))
               && newSteps == Repeat(a.count, CounterSteps(a.Modifications()))
    requires a.kind != Send ==> newPayloads == [] && newSteps == []
    ensures AllCompile(actions + [a], packets)
    ensures LaidOut(payloads + newPayloads, steps + newSteps, actions + [a], packets)
  {
    var after := actions + [a];
    assert after[..|actions|] == actions;
    forall i | 0 <= i < |after|
      ensures CopiesAt(payloads + newPayloads, steps + newSteps, TotalCopies(after[..i]), after[i], packets)
    {
      assert after[..i] == actions[..i];
      if i < |actions| {
        CopiesStay(payloads, steps, TotalCopies(actions[..i]), actions[i], packets, newPayloads, newSteps);
      } else {
        assert actions[..i] == actions;
      }
    }
  }

  method AppendCopies(plan: Plan, payload: PayloadDescriptor, steps: seq<uint16>, count: nat) returns (r: Plan)
    ensures r == plan.(payloads := plan.payloads + Repeat(count, payload),
                       counterSteps := plan.counterSteps + Repeat(count, steps))
  {
    r := plan;
    assert plan.payloads + Repeat(0, payload) == plan.payloads;
    assert plan.counterSteps + Repeat(0, steps) == plan.counterSteps;
    for copy := 0 to count
      invariant r == plan.(payloads := plan.payloads + Repeat(copy, payload),
                           counterSteps := plan.counterSteps + Repeat(copy, steps))
    {
      r := r.(counterSteps := r.counterSteps + [steps], payloads := r.payloads + [payload]);
      assert plan.payloads + Repeat(copy, payload) + [payload] == plan.payloads + Repeat(copy + 1, payload);
      assert plan.counterSteps + Repeat(copy, steps) + [steps] == plan.counterSteps + Repeat(copy + 1, steps);
    }
  }

  /** Adds the payloads and counter steps of one action; None where its compilation fails. */
  method CompileAction(plan: Plan, ghost before: seq<Action>, a: Action, packets: Packets) returns (r: Option<Plan>)
    requires AllCompile(before, packets) && LaidOut(plan.payloads, plan.counterSteps, before, packets)
    requires a.Balanced()
    requires forall id :: id in packets ==> packets[id].Length < TWO_64
    ensures r.Some? <==> AllCompile(before + [a], packets)
    ensures r.Some? ==> r.value.actions == plan.actions
    ensures r.Some? ==> LaidOut(r.value.payloads, r.value.counterSteps, before + [a], packets)
  {
    assert a in before + [a];
    if a.kind != Send {
      LaidOutStep(plan.payloads, plan.counterSteps, before, a, packets, [], []);
      assert plan.payloads + [] == plan.payloads && plan.counterSteps + [] == plan.counterSteps;
      return Some(plan);
    }
    if a.packetIdentifier !in packets {
      return None;
    }
    var buf := packets[a.packetIdentifier];
    var ops, steps := CompileSend(a, buf.Length);
    if ops.None? {
      return None;
    }
    var payload := PayloadDescriptor(buf, ops.value);
    LaidOutStep(plan.payloads, plan.counterSteps, before, a, packets, Repeat(a.count, payload), Repeat(a.count, steps));
    var p := AppendCopies(plan, payload, steps, a.count);
    return Some(p);
  }

  /** What `actions` compile to: `elapsed` is where the next action's offset counts from. */
  ghost predicate IsPlanOf(plan: Plan, elapsed: uint64, actions: seq<Action>, packets: Packets) {
    && AllCompile(actions, packets)
    && elapsed == RunningOffset(actions)
    && Described(plan.actions, actions)
    && LaidOut(plan.payloads, plan.counterSteps, actions, packets)
  }

  method PlanAction(plan: Plan, currOffset: uint64, ghost before: seq<Action>, a: Action, packets: Packets)
      returns (r: Option<Plan>, offset: uint64)
    requires IsPlanOf(plan, currOffset, before, packets) && a.Balanced()
    requires forall id :: id in packets ==> packets[id].Length < TWO_64
    ensures r.Some? <==> AllCompile(before + [a], packets)
    ensures r.Some? ==> IsPlanOf(r.value, offset, before + [a], packets)
  {
    assert (before + [a])[..|before|] == before;
    offset := Add64(currOffset, a.offsetMs);
    DescribedStep(plan.actions, before, a);
    r := CompileAction(plan, before, a, packets);
    if r.Some? {
      r := Some(r.value.(actions := r.value.actions + [Describe(a, offset)]));
    }
  }

  method GeneratePlan(actions: seq<Action>, packets: Packets) returns (r: Option<Plan>)
    requires forall a :: a in actions ==> a.Balanced()
    requires forall id :: id in packets ==> packets[id].Length < TWO_64
    ensures r.Some? <==> AllCompile(actions, packets)
    ensures r.Some? ==> IsPlanOf(r.value, RunningOffset(actions), actions, packets)
  {
    var plan := Plan([], [], []);
    var currOffset: uint64 := 0;
    for i := 0 to |actions|
      invariant IsPlanOf(plan, currOffset, actions[..i], packets)
    {
      assert actions[..i + 1] == actions[..i] + [actions[i]];
      var next, offset := PlanAction(plan, currOffset, actions[..i], actions[i], packets);
      if next.None? {
        assert forall b :: b in actions[..i + 1] ==> b in actions;
        return None;
      }
      plan, currOffset := next.value, offset;
    }
    assert actions[..|actions|] == actions;
    return Some(plan);
  }

  lemma StepsMatchPayload(a: Action, packets: Packets)
    requires a.Balanced() && Compiles(a, packets) && a.kind == Send
    ensures CountCounters(PayloadOf(a, packets).ops) == |CounterSteps(a.Modifications())|
  {
    var size := packets[a.packetIdentifier].Length;
    if a.Modifications() == [] {
      assert PayloadOf(a, packets).ops[1..] == [];
    } else {
      StepsMatchOperations(a.Modifications(), 0, size);
    }
  }

  /** Descriptor `i` is due at the sum of the first `i + 1` script offsets, so the due times ascend. */
  lemma {:induction false} OffsetsArePrefixSums(descs: seq<ActionDescriptor>, actions: seq<Action>, i: nat)
    requires Described(descs, actions) && i < |actions| && Elapsed(actions) < TWO_32
    ensures descs[i].offset == Elapsed(actions[..i + 1])
    ensures i > 0 ==> descs[i - 1].offset <= descs[i].offset
  {
    RunningOffsetIsElapsed(actions, i + 1);
    if i > 0 {
      RunningOffsetIsElapsed(actions, i);
      assert descs[i - 1] == DescriptorAt(actions, i - 1);
      assert actions[..i + 1][..i] == actions[..i];
    }
  }

  lemma {:induction false} RunningOffsetIsElapsed(actions: seq<Action>, i: nat)
    requires i <= |actions| && Elapsed(actions) < TWO_32
    ensures RunningOffset(actions[..i]) == Elapsed(actions[..i]) < TWO_32
  {
    ElapsedGrows(actions, i);
    if i > 0 {
      RunningOffsetIsElapsed(actions, i - 1);
      assert actions[..i][..i - 1] == actions[..i - 1];
    }
  }

  lemma {:induction false} ElapsedGrows(actions: seq<Action>, i: nat)
    requires i <= |actions|
    ensures Elapsed(actions[..i]) <= Elapsed(actions)
  {
    var n := |actions|;
    if i == n {
      assert actions[..i] == actions;
    } else {
      ElapsedGrows(actions[..n - 1], i);
      assert actions[..n - 1][..i] == actions[..i];
    }
  }
}
