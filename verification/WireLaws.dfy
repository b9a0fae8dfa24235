/** From the script to the wire: what filling a payload of a generated plan sends, and what the payload writes of
    a session carry. */
module WireLaws {
  import opened Bytes
  import opened Scripts
  import opened Planner
  import opened Renderer
  import opened Overlay
  import opened SharedCounters
  import opened SessionMachine
  import opened SessionLaws

  // --- Whose payload it is ---

  /** Payload `i` is one of the copies of action `n`. */
  ghost predicate Owns(actions: seq<Action>, n: nat, i: nat) {
    n < |actions| && TotalCopies(actions[..n]) <= i < TotalCopies(actions[..n]) + Copies(actions[n])
  }

  /** Every payload index of a plan belongs to exactly one action, a SEND. */
  lemma {:induction false} OwnerOfPayload(actions: seq<Action>, i: nat) returns (n: nat)
    requires i < TotalCopies(actions)
    ensures Owns(actions, n, i) && actions[n].kind == Send
    ensures forall m :: Owns(actions, m, i) ==> m == n
  {
    var last := |actions| - 1;
    if i < TotalCopies(actions[..last]) {
      n := OwnerOfPayload(actions[..last], i);
      assert actions[..last][..n] == actions[..n];
    } else {
      n := last;
    }
    forall m | Owns(actions, m, i)
      ensures m == n
    {
      CopiesBefore(actions, m, n);
      CopiesBefore(actions, n, m);
    }
  }

  lemma CopiesBefore(actions: seq<Action>, m: nat, n: nat)
    requires m < |actions| && n < |actions|
    ensures m < n ==> TotalCopies(actions[..m]) + Copies(actions[m]) <= TotalCopies(actions[..n])
  {
    if m < n {
      TotalCopiesGrows(actions[..n], m);
      assert actions[..n][..m] == actions[..m];
    }
  }

  lemma PayloadOfOwner(payloads: seq<PayloadDescriptor>, steps: seq<seq<uint16>>, actions: seq<Action>,
                       packets: Packets,
                       n: nat, i: nat)
    requires AllCompile(actions, packets) && LaidOut(payloads, steps, actions, packets)
    requires Owns(actions, n, i) && actions[n].kind == Send
    ensures i < |payloads| == |steps| && actions[n] in actions
    ensures payloads[i] == PayloadOf(actions[n], packets) && steps[i] == CounterSteps(actions[n].Modifications())
  {
    var a, base := actions[n], TotalCopies(actions[..n]);
    assert CopiesAt(payloads, steps, base, a, packets);
    CopyAt(payloads, base, a.count, PayloadOf(a, packets), i);
    CopyAt(steps, base, a.count, CounterSteps(a.Modifications()), i);
  }

  lemma CopyAt<T>(s: seq<T>, base: nat, count: nat, x: T, i: nat)
    requires base <= i < base + count <= |s| && s[base..base + count] == Repeat(count, x)
    ensures s[i] == x
  {
    assert s[i] == s[base..base + count][i - base];
  }

  // --- The manager of a plan ---

  /** The manager has the payloads of the plan of `actions`. */
  ghost predicate Manages(m: PayloadManager, actions: seq<Action>, packets: Packets)
    reads m
  {
    m.Valid() && AllCompile(actions, packets) && LaidOut(m.payloads, m.steps, actions, packets)
  }

  /** The plan is generated and handed to the manager that all sessions share. */
  method Deploy(actions: seq<Action>, packets: Packets) returns (plan: Option<Plan>, m: PayloadManager?)
    requires forall a :: a in actions ==> a.Balanced()
    requires forall id :: id in packets ==> packets[id].Length < TWO_64
    ensures plan.Some? <==> AllCompile(actions, packets)
    ensures plan.None? ==> m == null
    ensures plan.Some? ==>
              && m != null && fresh(m) && Manages(m, actions, packets) && Filled(m, [])
              && Described(plan.value.actions, actions)
  {
    plan := GeneratePlan(actions, packets);
    if plan.None? {
      return plan, null;
    }
    m := new PayloadManager(plan.value.payloads, plan.value.counterSteps);
    assert m.steps == plan.value.counterSteps;
  }

  // --- Fills one after another ---

  /** How often payload `i` has been filled. */
  ghost function Fills(filled: seq<nat>, i: nat): nat {
    if filled == [] then 0 else Fills(filled[..|filled| - 1], i) + if filled[|filled| - 1] == i then 1 else 0
  }

  /** The counters of a payload that has been filled `j` times. */
  ghost function CountersAfter(steps: seq<uint16>, j: nat): (r: seq<uint64>)
    ensures |r| == |steps|
  {
    seq(|steps|, c requires 0 <= c < |steps| => Stepped(j, steps[c]))
  }

  /** Rendering the payload lays the fields of `a` over its packet, whatever the counters and the clock read. */
  ghost predicate SendsLaid(d: PayloadDescriptor, counters: nat, a: Action, packets: Packets)
    requires a.Balanced() && WellFormedSend(a, packets)
  {
    && d.packetData == packets[a.packetIdentifier] && FieldsFit(d.ops) && CountCounters(d.ops) == counters
    && forall bytes: seq<byte>, cs: seq<uint64>, clock: seq<uint64> ::
         |bytes| == d.packetData.Length && |cs| == counters && TimestampCount(a.Modifications()) <= |clock| ==>
           LaidBy(d, a, bytes, cs, clock)
  }

  ghost predicate LaidBy(d: PayloadDescriptor, a: Action, bytes: seq<byte>, cs: seq<uint64>, clock: seq<uint64>)
    requires a.Balanced()
  {
    && Renderable(d.ops, 0, |bytes|, |cs|, |clock|)
    && Encodable(a.Modifications()) && WellPlaced(a.Modifications(), 0, |bytes|)
    && Render(d.ops, bytes, 0, cs, clock) == Laid(bytes, a.Modifications(), 0, cs, clock)
  }

  lemma Renders(d: PayloadDescriptor, counters: nat, a: Action, packets: Packets,
                bytes: seq<byte>, cs: seq<uint64>, clock: seq<uint64>)
    requires a.Balanced() && WellFormedSend(a, packets) && SendsLaid(d, counters, a, packets)
    requires |bytes| == d.packetData.Length && |cs| == counters && TimestampCount(a.Modifications()) <= |clock|
    ensures FieldsFit(d.ops) && CountCounters(d.ops) == |cs| && Renderable(d.ops, 0, |bytes|, |cs|, |clock|)
    ensures Encodable(a.Modifications()) && WellPlaced(a.Modifications(), 0, |bytes|)
    ensures Render(d.ops, bytes, 0, cs, clock) == Laid(bytes, a.Modifications(), 0, cs, clock)
  {
    assert LaidBy(d, a, bytes, cs, clock);
  }

  lemma PlannedSendsLaid(a: Action, packets: Packets)
    requires a.Balanced() && WellFormedSend(a, packets)
    ensures Compiles(a, packets)
    ensures SendsLaid(PayloadOf(a, packets), |CounterSteps(a.Modifications())|, a, packets)
  {
    var size, steps := packets[a.packetIdentifier].Length, CounterSteps(a.Modifications());
    var bytes0, cs0, clock0 := seq(size, _ => 0), seq(|steps|, _ => 0), seq(TimestampCount(a.Modifications()), _ => 0);
    PlannedPayload(a, packets, bytes0, cs0, clock0);
    var d := PayloadOf(a, packets);
    forall bytes: seq<byte>, cs: seq<uint64>, clock: seq<uint64> |
        |bytes| == size && |cs| == |steps| && TimestampCount(a.Modifications()) <= |clock|
      ensures LaidBy(d, a, bytes, cs, clock)
    {
      PlannedPayload(a, packets, bytes, cs, clock);
    }
  }

  /** The payloads of `filled` have been filled, in that order. */
  ghost predicate Filled(m: PayloadManager, filled: seq<nat>)
    reads m
  {
    CountedFills(m.counters, m.steps, filled)
  }

  ghost predicate CountedFills(counters: seq<seq<uint64>>, steps: seq<seq<uint16>>, filled: seq<nat>) {
    && |counters| == |steps|
    && forall p :: 0 <= p < |counters| ==> counters[p] == CountersAfter(steps[p], Fills(filled, p))
  }

  lemma CountersStep(steps: seq<uint16>, j: nat)
    ensures Advance(CountersAfter(steps, j), steps, |steps|) == CountersAfter(steps, j + 1)
  {
  }

  lemma FilledSnoc(filled: seq<nat>, i: nat, p: nat)
    ensures Fills(filled + [i], p) == Fills(filled, p) + if i == p then 1 else 0
  {
    assert (filled + [i])[..|filled|] == filled;
  }

  /** Filling index `i` of a generated plan: it sends the packet of the SEND that owns `i`, with that SEND's fields
      laid over it, its counters at the multiple of their steps that the earlier fills of `i` leave. */
  method FillPlanned(m: PayloadManager, actions: seq<Action>, packets: Packets, ghost filled: seq<nat>,
                     ghost n: nat, i: nat, payload: PreparedPayload, clock: seq<uint64>) returns (ok: bool)
    requires Manages(m, actions, packets) && Filled(m, filled)
    requires Owns(actions, n, i) && actions[n].kind == Send && actions[n] in actions
             && WellFormedSend(actions[n], packets)
    requires TimestampCount(actions[n].Modifications()) <= |clock|
    requires payload.temps.Valid() && payload.temps.data != packets[actions[n].packetIdentifier]
    modifies m, payload`slices, payload.temps, payload.temps.data
    ensures ok && Manages(m, actions, packets) && Filled(m, filled + [i])
    ensures var packet, mods := packets[actions[n].packetIdentifier], actions[n].Modifications();
            && payload.Filling(packet)
            && payload.Image(packet)
               == Laid(old(packet[..]), mods, 0, CountersAfter(CounterSteps(mods), Fills(filled, i)), clock)
  {
    PayloadOfOwner(m.payloads, m.steps, actions, packets, n, i);
    PlannedSendsLaid(actions[n], packets);
    Renders(m.payloads[i], |m.steps[i]|, actions[n], packets, packets[actions[n].packetIdentifier][..], m.counters[i],
            clock);
    ok := FillCounted(m, filled, i, payload, clock);
  }

  /** One fill more: what it sends is rendered from the counters that the earlier fills leave. */
  method FillCounted(m: PayloadManager, ghost filled: seq<nat>, i: nat, payload: PreparedPayload, clock: seq<uint64>)
      returns (ok: bool)
    requires m.Valid() && Filled(m, filled) && i < |m.payloads|
    requires m.CanFill(i, payload, clock) && CountCounters(m.payloads[i].ops) == |m.steps[i]|
    modifies m, payload`slices, payload.temps, payload.temps.data
    ensures ok && m.Valid() && Filled(m, filled + [i])
    ensures var d := m.payloads[i];
            && payload.Filling(d.packetData)
            && payload.Image(d.packetData)
               == Render(d.ops, old(d.packetData[..]), 0, CountersAfter(m.steps[i], Fills(filled, i)), clock)
  {
    ghost var before := m.counters;
    ok := m.FillPayload(i, payload, clock);
    CountFill(before, m.steps, filled, i);
  }

  /** Filling payload `i` steps each of its counters once. */
  lemma CountFill(counters: seq<seq<uint64>>, steps: seq<seq<uint16>>, filled: seq<nat>, i: nat)
    requires CountedFills(counters, steps, filled) && i < |counters|
    ensures |counters[i]| == |steps[i]|
    ensures CountedFills(counters[i := Advance(counters[i], steps[i], |steps[i]|)], steps, filled + [i])
  {
    CountersStep(steps[i], Fills(filled, i));
    forall p | 0 <= p < |counters|
      ensures Fills(filled + [i], p) == Fills(filled, p) + if i == p then 1 else 0
    {
      FilledSnoc(filled, i, p);
    }
  }

  // --- Fills at the same time ---

  /** One of the fills of payload `i`: it fetches counter `c` at place `at[c]` of the schedule. */
  ghost predicate FillAt(schedule: seq<Fetch>, i: nat, counters: nat, at: seq<nat>) {
    |at| == counters && forall c :: 0 <= c < counters ==> at[c] < |schedule| && schedule[at[c]] == Fetch(i, c)
  }

  /** What it reads. */
  function Readings(values: seq<uint64>, at: seq<nat>): (r: seq<uint64>)
    requires forall c :: 0 <= c < |at| ==> at[c] < |values|
    ensures |r| == |at|
  {
    seq(|at|, c requires 0 <= c < |at| => values[at[c]])
  }

  /** How many fetches of the same counter come before. */
  ghost function Rank(schedule: seq<Fetch>, k: nat): nat
    requires k < |schedule|
  {
    Count(schedule[..k], schedule[k])
  }

  lemma {:induction false} CountGrows(schedule: seq<Fetch>, k: nat, f: Fetch)
    requires k <= |schedule|
    ensures Count(schedule[..k], f) <= Count(schedule, f)
    decreases |schedule|
  {
    if k == |schedule| {
      assert schedule[..k] == schedule;
    } else {
      CountGrows(schedule[..|schedule| - 1], k, f);
      assert schedule[..|schedule| - 1][..k] == schedule[..k];
    }
  }

  /** A later fetch of the same counter has a higher rank. */
  lemma RankGrows(schedule: seq<Fetch>, j: nat, k: nat)
    requires j < k <= |schedule|
    ensures Rank(schedule, j) < Count(schedule[..k], schedule[j])
  {
    assert schedule[..k][..j + 1] == schedule[..j + 1] && schedule[..j + 1][..j] == schedule[..j];
    CountGrows(schedule[..k], j + 1, schedule[j]);
  }

  /** Fills that fetch at different places read different multiples. */
  lemma RanksDiffer(schedule: seq<Fetch>, i: nat, counters: nat, at: seq<nat>, other: seq<nat>, c: nat)
    requires FillAt(schedule, i, counters, at) && FillAt(schedule, i, counters, other)
    requires c < counters && at[c] != other[c]
    ensures Rank(schedule, at[c]) != Rank(schedule, other[c])
    ensures Rank(schedule, at[c]) < Count(schedule, Fetch(i, c))
  {
    RankGrows(schedule, at[c], |schedule|);
    assert schedule[..|schedule|] == schedule;
    if at[c] < other[c] {
      RankGrows(schedule, at[c], other[c]);
    } else {
      RankGrows(schedule, other[c], at[c]);
    }
  }

  /** Fill `at` sends the packet with the fields of `a` laid over it, and its counters read multiples of their steps. */
  ghost predicate SendsMultiples(d: PayloadDescriptor, bytes: seq<byte>, a: Action, schedule: seq<Fetch>,
                                 values: seq<uint64>, at: seq<nat>, clock: seq<uint64>)
    requires a.Balanced()
  {
    && |values| == |schedule| && |at| == |CounterSteps(a.Modifications())|
    && (forall c :: 0 <= c < |at| ==>
          && at[c] < |values|
          && values[at[c]] == (Rank(schedule, at[c]) * CounterSteps(a.Modifications())[c]) % 0x1_0000_0000_0000_0000)
    && LaidBy(d, a, bytes, Readings(values, at), clock)
  }

  lemma FillReads(m: PayloadManager, actions: seq<Action>, packets: Packets, n: nat, i: nat, schedule: seq<Fetch>,
                  values: seq<uint64>, at: seq<nat>, clock: seq<uint64>)
    requires Manages(m, actions, packets) && Owns(actions, n, i)
    requires actions[n].kind == Send && actions[n] in actions && WellFormedSend(actions[n], packets)
    requires i < |m.steps| && TimestampCount(actions[n].Modifications()) <= |clock|
    requires |values| == |schedule| && forall k :: 0 <= k < |schedule| ==> ReadsMultiple(m, schedule, k, values[k])
    requires FillAt(schedule, i, |m.steps[i]|, at)
    ensures i < |m.payloads|
    ensures SendsMultiples(m.payloads[i], packets[actions[n].packetIdentifier][..], actions[n], schedule, values,
                           at, clock)
  {
    PayloadOfOwner(m.payloads, m.steps, actions, packets, n, i);
    PlannedSendsLaid(actions[n], packets);
    var bytes := packets[actions[n].packetIdentifier][..];
    Renders(m.payloads[i], |m.steps[i]|, actions[n], packets, bytes, Readings(values, at), clock);
    forall c | 0 <= c < |at|
      ensures values[at[c]]
              == (Rank(schedule, at[c]) * CounterSteps(actions[n].Modifications())[c]) % 0x1_0000_0000_0000_0000
    {
      assert ReadsMultiple(m, schedule, at[c], values[at[c]]);
    }
  }

  /** Two fills fetch no counter at the same place. */
  ghost predicate Apart(at: seq<nat>, other: seq<nat>) {
    |at| == |other| && forall c :: 0 <= c < |at| ==> at[c] != other[c]
  }

  /** They use different multiples of every counter's step. */
  ghost predicate MultiplesDiffer(schedule: seq<Fetch>, at: seq<nat>, other: seq<nat>) {
    && |at| == |other|
    && forall c :: 0 <= c < |at| ==>
         && at[c] < |schedule| && other[c] < |schedule|
         && Rank(schedule, at[c]) != Rank(schedule, other[c])
  }

  lemma ApartDiffers(schedule: seq<Fetch>, i: nat, counters: nat, at: seq<nat>, other: seq<nat>)
    requires FillAt(schedule, i, counters, at) && FillAt(schedule, i, counters, other) && Apart(at, other)
    ensures MultiplesDiffer(schedule, at, other)
  {
    forall c | 0 <= c < |at|
      ensures Rank(schedule, at[c]) != Rank(schedule, other[c])
    {
      RanksDiffer(schedule, i, counters, at, other, c);
    }
  }

  lemma NewTallies(m: PayloadManager)
    requires m.Valid() && Filled(m, [])
    ensures Tallies(m, [])
  {
    forall f: Fetch | InRange(m, f)
      ensures m.counters[f.payload][f.counter] == Stepped(Count([], f), m.steps[f.payload][f.counter])
    {
      assert m.counters[f.payload] == CountersAfter(m.steps[f.payload], Fills([], f.payload));
    }
  }

  /** Fills of one index of a new plan that overlap in any way, among any other fetches: `fills` are the places at
      which each of them fetches. Each sends the packet of the SEND that owns the index with its fields laid over it,
      its counters at multiples of their steps, and no multiple is used by two of them. */
  method FillTogether(m: PayloadManager, actions: seq<Action>, packets: Packets, ghost n: nat, i: nat,
                      schedule: seq<Fetch>, ghost fills: seq<seq<nat>>, clocks: seq<seq<uint64>>)
      returns (values: seq<uint64>)
    requires Manages(m, actions, packets) && Filled(m, []) && forall f :: f in schedule ==> InRange(m, f)
    requires Owns(actions, n, i) && actions[n].kind == Send && actions[n] in actions
             && WellFormedSend(actions[n], packets)
    requires i < |m.steps| && |clocks| == |fills|
    requires forall p :: 0 <= p < |fills| ==>
               FillAt(schedule, i, |m.steps[i]|, fills[p]) && TimestampCount(actions[n].Modifications()) <= |clocks[p]|
    requires forall p, q :: 0 <= p < q < |fills| ==> Apart(fills[p], fills[q])
    modifies m
    ensures m.Valid() && i < |m.payloads| && |values| == |schedule|
    ensures forall p :: 0 <= p < |fills| ==>
              SendsMultiples(m.payloads[i], packets[actions[n].packetIdentifier][..], actions[n], schedule, values,
                             fills[p], clocks[p])
    ensures forall p, q :: 0 <= p < q < |fills| ==> MultiplesDiffer(schedule, fills[p], fills[q])
  {
    NewTallies(m);
    values := RunSchedule(m, schedule);
    forall p | 0 <= p < |fills|
      ensures i < |m.payloads|
      ensures SendsMultiples(m.payloads[i], packets[actions[n].packetIdentifier][..], actions[n], schedule, values,
                             fills[p], clocks[p])
    {
      FillReads(m, actions, packets, n, i, schedule, values, fills[p], clocks[p]);
    }
    forall p, q | 0 <= p < q < |fills|
      ensures MultiplesDiffer(schedule, fills[p], fills[q])
    {
      ApartDiffers(schedule, i, |m.steps[i]|, fills[p], fills[q]);
    }
  }

  // --- The payload writes of a session ---

  /** The `k`-th payload write of a session that runs a plan carries the payload at index `k` modulo the number of
      copies the script asks for, and that is the packet of the SEND that owns this index with its fields laid
      over it, whatever its counters and the clock read. */
  lemma PayloadWriteCarries(cfg: Config, parser: HeaderParser, events: seq<Event>, k: nat,
                            m: PayloadManager, actions: seq<Action>, packets: Packets) returns (i: nat, n: nat)
    requires Possible(cfg, parser, Initial(cfg), events)
    requires k < |PayloadIndices(Run(cfg, parser, Initial(cfg), events).log.started)|
    requires Manages(m, actions, packets) && cfg.payloadCount == |m.payloads|
    ensures TotalCopies(actions) > 0 && i == k % TotalCopies(actions) < |m.payloads|
    ensures PayloadIndices(Run(cfg, parser, Initial(cfg), events).log.started)[k] == i
    ensures Owns(actions, n, i) && actions[n].kind == Send && actions[n].Balanced()
            && actions[n].packetIdentifier in packets
    ensures m.payloads[i].packetData == packets[actions[n].packetIdentifier]
    ensures WellFormedSend(actions[n], packets) ==> SendsLaid(m.payloads[i], |m.steps[i]|, actions[n], packets)
  {
    PayloadOrder(cfg, parser, events, k);
    i := k % cfg.payloadCount;
    n := OwnerOfPayload(actions, i);
    PayloadOfOwner(m.payloads, m.steps, actions, packets, n, i);
    if WellFormedSend(actions[n], packets) {
      PlannedSendsLaid(actions[n], packets);
    }
  }
}
