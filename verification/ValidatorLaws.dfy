/** What acceptance means for the runs and the payloads of a script, and what the range check misses. */
module ValidatorLaws {
  import opened Bytes
  import opened Scripts
  import opened Planner
  import opened Overlay
  import opened Validator

  // --- Sessions ---

  lemma AcceptedPrefix(settings: Settings, actions: seq<Action>, n: nat)
    requires Accepted(settings, actions) && n <= |actions|
    ensures Accepted(settings, actions[..n])
  {
    var before := actions[..n];
    forall i | 0 <= i < n
      ensures AcceptedAt(settings, before, i)
    {
      assert AcceptedAt(settings, actions, i);
      assert before[..i] == actions[..i];
      forall j: nat
        ensures AllowedFor(before, i, j)
      {
        assert AllowedFor(actions, i, j);
      }
    }
  }

  /** The pool an accepted script asks for is created once, and every range stays inside it. */
  lemma RangesInsidePool(settings: Settings, actions: seq<Action>, i: nat)
    requires settings.shards > 0 && Accepted(settings, actions) && i < |actions|
    ensures actions[i].kind == Create ==>
              && actions[i].count == PoolSize(actions) >= settings.shards
              && forall k :: 0 <= k < |actions| && k != i ==> actions[k].kind != Create
    ensures actions[i].kind != Create ==> actions[i].range.second <= PoolSize(actions)
  {
    PoolStays(settings, actions, i);
    forall k | 0 <= k < |actions| && k != i && actions[i].kind == Create
      ensures actions[k].kind != Create
    {
      if actions[k].kind == Create {
        PoolStays(settings, actions, k);
        var low, high := if i < k then i else k, if i < k then k else i;
        assert AcceptedAt(settings, actions, high) && AcceptedAt(settings, actions, low);
        PoolGrows(settings, actions, low, high);
      }
    }
  }

  /** Once there is a pool, its size stays. */
  lemma {:induction false} PoolGrows(settings: Settings, actions: seq<Action>, low: nat, high: nat)
    requires settings.shards > 0 && Accepted(settings, actions) && low < high <= |actions|
    ensures actions[low].kind == Create ==> PoolSize(actions[..high]) == actions[low].count > 0
    ensures PoolSize(actions[..low]) > 0 ==> PoolSize(actions[..high]) == PoolSize(actions[..low])
    decreases high - low
  {
    assert AcceptedAt(settings, actions, low) && AcceptedAt(settings, actions, high - 1);
    assert actions[..high][..high - 1] == actions[..high - 1];
    if low < high - 1 {
      PoolGrows(settings, actions, low, high - 1);
    }
  }

  lemma PoolStays(settings: Settings, actions: seq<Action>, i: nat)
    requires settings.shards > 0 && Accepted(settings, actions) && i < |actions|
    ensures actions[i].kind == Create ==> PoolSize(actions) == actions[i].count >= settings.shards
    ensures actions[i].kind != Create ==> actions[i].range.second <= PoolSize(actions)
  {
    assert AcceptedAt(settings, actions, i);
    PoolGrows(settings, actions, i, |actions|);
    assert actions[..|actions|] == actions;
  }

  /** An accepted script creates its sessions first, up to actions on empty ranges at session 0. */
  lemma CreatesFirst(settings: Settings, actions: seq<Action>, i: nat)
    requires settings.shards > 0 && Accepted(settings, actions) && i < |actions|
    requires forall k :: 0 <= k < i ==> actions[k].kind != Create
    ensures actions[i].kind == Create || (actions[i].kind != Connect && actions[i].range.second == 0)
  {
    assert AcceptedAt(settings, actions, i);
    NoPoolYet(actions, i);
  }

  /** What the orchestrator relies on, that a plan creates its sessions with its first action and only there,
      holds of the plan of an accepted script exactly if the script begins with CREATE. */
  lemma PlanCreatesFirst(settings: Settings, actions: seq<Action>, descs: seq<ActionDescriptor>)
    requires settings.shards > 0 && Accepted(settings, actions) && Described(descs, actions) && actions != []
    ensures (forall i :: 0 <= i < |descs| ==> (descs[i].kind == Create <==> i == 0)) <==> actions[0].kind == Create
    ensures actions[0].kind == Create ==>
              forall i :: 0 < i < |descs| ==> descs[i].sessionsEnd <= actions[0].count
  {
    forall i | 0 <= i < |descs|
      ensures descs[i].kind == actions[i].kind
      ensures actions[i].kind != Create ==> descs[i].sessionsEnd == actions[i].range.second
    {
      assert descs[i] == DescriptorAt(actions, i);
    }
    RangesInsidePool(settings, actions, 0);
    forall i | 0 < i < |descs|
      ensures actions[i].kind != Create ==> actions[i].range.second <= PoolSize(actions)
    {
      RangesInsidePool(settings, actions, i);
    }
  }

  /** Accepted scripts need not begin with CREATE: a FLOOD of no sessions may come before it. */
  lemma FloodBeforeCreate(settings: Settings, flood: Action, create: Action)
    requires flood.kind == Flood && flood.range == Range(0, 0)
    requires create.kind == Create && create.count >= settings.shards
    ensures Accepted(settings, [flood, create])
  {
    var actions := [flood, create];
    assert actions[..0] == [] && actions[..1] == [flood] && [flood][..0] == [];
    assert AcceptedAt(settings, actions, 0) && AcceptedAt(settings, actions, 1);
  }

  lemma {:induction false} NoPoolYet(actions: seq<Action>, i: nat)
    requires i <= |actions| && forall k :: 0 <= k < i ==> actions[k].kind != Create
    ensures PoolSize(actions[..i]) == 0
  {
    if i > 0 {
      NoPoolYet(actions, i - 1);
      assert actions[..i][..i - 1] == actions[..i - 1];
    }
  }

  /** In an accepted script every session is disconnected at most once, and connected once more than drained
      exactly while it is active: so it is started at most once unless it is drained. */
  lemma {:induction false} ConnectsAlternate(settings: Settings, actions: seq<Action>, j: nat)
    requires Accepted(settings, actions)
    ensures Occurrences(actions, Connect, j) == Occurrences(actions, Drain, j) + if IsActive(actions, j) then 1 else 0
    ensures Occurrences(actions, Disconnect, j) <= 1
  {
    if actions != [] {
      var n := |actions| - 1;
      assert AcceptedAt(settings, actions, n) && AllowedFor(actions, n, j);
      AcceptedPrefix(settings, actions, n);
      ConnectsAlternate(settings, actions[..n], j);
    }
  }

  // --- Payloads ---

  /** The files behind the identifiers have the sizes the check saw. */
  ghost predicate SameFiles(settings: Settings, packets: Packets) {
    forall id :: id in settings.packets && settings.packets[id].Some? ==>
      id in packets && packets[id].Length == settings.packets[id].value
  }

  /** Every modification of an accepted SEND passed its own checks. */
  ghost predicate EachOk(mods: seq<Modification>, size: nat) {
    mods == [] ||
    (&& (match mods[0]
         case CounterMod(c) => CounterOk(c, size)
         case TimestampMod(t) => TimestampOk(t, size))
     && EachOk(mods[1..], size))
  }

  lemma {:induction false} MergedOk(order: seq<ModificationType>, cs: seq<CounterModification>,
                                    ts: seq<TimestampModification>, size: nat)
    requires Matches(order, cs, ts)
    requires forall i :: 0 <= i < |cs| ==> CounterOk(cs[i], size)
    requires forall i :: 0 <= i < |ts| ==> TimestampOk(ts[i], size)
    ensures EachOk(Merge(order, cs, ts), size)
  {
    if order != [] {
      var mods := Merge(order, cs, ts);
      if order[0] == CounterType {
        MergedOk(order[1..], cs[1..], ts, size);
        assert mods[1..] == Merge(order[1..], cs[1..], ts);
      } else {
        MergedOk(order[1..], cs, ts[1..], size);
        assert mods[1..] == Merge(order[1..], cs, ts[1..]);
      }
    }
  }

  lemma {:induction false} EachOkEncodable(mods: seq<Modification>, size: nat)
    requires EachOk(mods, size)
    ensures Encodable(mods)
  {
    if mods != [] {
      EachOkEncodable(mods[1..], size);
    }
  }

  /** The modifications follow one another without overlap. */
  ghost predicate AscendFrom(mods: seq<Modification>, from: nat) {
    mods == [] ||
    (from <= mods[0].Bytes().start && AscendFrom(mods[1..], mods[0].Bytes().start + mods[0].Bytes().second))
  }

  ghost predicate NoWrap(mods: seq<Modification>) {
    mods == [] || (mods[0].Bytes().start + mods[0].Bytes().second < 0x1_0000_0000 && NoWrap(mods[1..]))
  }

  /** What the checks leave open about the placement of the modifications is only their order. */
  lemma {:induction false} PlacedIfAscending(mods: seq<Modification>, from: nat, size: nat)
    requires EachOk(mods, size) && NoWrap(mods) && from <= size
    ensures WellPlaced(mods, from, size) <==> AscendFrom(mods, from)
  {
    if mods != [] {
      PlacedIfAscending(mods[1..], mods[0].Bytes().start + mods[0].Bytes().second, size);
    }
  }

  /** An accepted SEND compiles. As long as no range runs past 2^32 it renders to its packet with its fields laid
      over it exactly if its modifications ascend without overlap. */
  lemma AcceptedSend(settings: Settings, packets: Packets, a: Action)
    requires a.kind == Send && SendOk(settings, a) && a.Balanced() && SameFiles(settings, packets)
    requires packets[a.packetIdentifier].Length < TWO_64
    ensures Compiles(a, packets)
    ensures NoWrap(a.Modifications()) ==>
              (WellFormedSend(a, packets) <==>
                AscendFrom(a.Modifications(), 0) && packets[a.packetIdentifier].Length < TWO_32)
  {
    var mods, size := a.Modifications(), packets[a.packetIdentifier].Length;
    MergedOk(a.modOrder, a.counterMods, a.timestampMods, size);
    EachOkEncodable(mods, size);
    EncodableCompiles(mods, 0, size);
    if NoWrap(mods) {
      PlacedIfAscending(mods, 0, size);
    }
  }

  /** So the plan of an accepted script never fails. */
  lemma AcceptedScriptCompiles(settings: Settings, packets: Packets, actions: seq<Action>)
    requires Accepted(settings, actions) && SameFiles(settings, packets)
    requires forall a :: a in actions ==> a.Balanced()
    requires forall id :: id in packets ==> packets[id].Length < TWO_64
    ensures AllCompile(actions, packets)
  {
    forall a | a in actions
      ensures Compiles(a, packets)
    {
      var i :| 0 <= i < |actions| && actions[i] == a;
      assert AcceptedAt(settings, actions, i);
      if a.kind == Send {
        AcceptedSend(settings, packets, a);
      }
    }
  }

  /** The check accepts the list of `Planner.DescendingListMisrenders`, whose payload cannot be rendered. */
  lemma DescendingListAccepted(a: Action)
    requires a.timestampMods == [TimestampModification(Range(12, 4), true, "seconds")]
    requires a.counterMods == [CounterModification(Range(0, 4), 1, true)]
    ensures ModificationsOk(a, 32)
  {
    var ranges := TimestampRanges(a.timestampMods) + CounterRanges(a.counterMods);
    assert ranges == [Range(12, 4), Range(0, 4)];
    assert !Clashes(map[], Range(12, 4));
    assert Inserted(ranges, 1) == Some(map[12 := 4]);
    assert !Clashes(map[12 := 4], Range(0, 4));
    assert Inserted(ranges, 2).Some?;
  }

  // --- The range check ---

  predicate Overlap(a: Range, b: Range) {
    a.start < b.start + b.second && b.start < a.start + a.second
  }

  /** As far as the check can see, `first` is in the way of `next`. */
  predicate Rejects(first: Range, next: Range) {
    next.start <= first.start <= next.second || first.start < next.start <= first.second
  }

  /** It is what the check says when `first` is the only range stored. */
  lemma RejectsOne(first: Range, next: Range)
    ensures Clashes(map[first.start := first.second], next) <==> Rejects(first, next)
  {
    var m := map[first.start := first.second];
    if next.start <= first.start <= next.second {
      assert first.start in m;
    }
    if first.start < next.start {
      assert IsBelow(m, first.start, next.start);
    }
  }

  /** The length the check looks at: that of the lower range, of the new one if they start together. */
  function LowerLength(first: Range, next: Range): nat {
    if first.start < next.start then first.second else next.second
  }

  function HigherStart(first: Range, next: Range): nat {
    if first.start < next.start then next.start else first.start
  }

  predicate TouchFromZero(a: Range, b: Range) {
    a.start == 0 && b.start == a.second
  }

  /** The check compares the higher start with the lower range's length instead of its end: it rejects the
      overlaps in which that start lies within the length, and the ranges that touch from byte 0. So it is right
      exactly if the lower range neither starts at 0 and ends where the other begins, nor starts at 2 or above
      and overlaps beyond its length. */
  lemma RangeCheckOfTwo(a: Range, b: Range)
    requires a.second > 0 && b.second > 0
    ensures Rejects(a, b) <==>
              if Overlap(a, b) then HigherStart(a, b) <= LowerLength(a, b)
              else TouchFromZero(a, b) || TouchFromZero(b, a)
    ensures var low := if a.start <= b.start then a else b;
            (Clashes(map[a.start := a.second], b) <==> Overlap(a, b)) <==>
              !(low.start == 0 && HigherStart(a, b) == low.second && a.start != b.start)
              && !(low.start >= 2 && LowerLength(a, b) < HigherStart(a, b) < low.start + LowerLength(a, b))
  {
    RejectsOne(a, b);
  }

  /** Entry `i` is stored when entry `n` is looked at: none between them has taken its start. */
  ghost predicate InForce(ranges: seq<Range>, i: nat, n: nat)
    requires n <= |ranges|
  {
    i < n && forall q :: i < q < n ==> ranges[q].start != ranges[i].start
  }

  ghost predicate FromList(ranges: seq<Range>, n: nat, k: uint32)
    requires n <= |ranges|
  {
    exists i: nat :: InForce(ranges, i, n) && ranges[i].start == k
  }

  /** After `n` entries the map has exactly the ones in force. */
  lemma {:induction false} InsertedEntries(ranges: seq<Range>, n: nat)
    requires n <= |ranges| && Inserted(ranges, n).Some?
    ensures var m := Inserted(ranges, n).value;
            && (forall i: nat :: InForce(ranges, i, n) ==>
                  ranges[i].start in m && m[ranges[i].start] == ranges[i].second)
            && (forall k :: k in m ==> FromList(ranges, n, k))
  {
    if n > 0 {
      InsertedEntries(ranges, n - 1);
      var m := Inserted(ranges, n).value;
      forall i: nat | InForce(ranges, i, n)
        ensures ranges[i].start in m && m[ranges[i].start] == ranges[i].second
      {
        assert i < n - 1 ==> InForce(ranges, i, n - 1);
      }
      forall k | k in m
        ensures FromList(ranges, n, k)
      {
        if k == ranges[n - 1].start {
          assert InForce(ranges, n - 1, n);
        } else {
          assert FromList(ranges, n - 1, k);
          var i: nat :| InForce(ranges, i, n - 1) && ranges[i].start == k;
          assert InForce(ranges, i, n);
        }
      }
    }
  }

  lemma EntryInForce(ranges: seq<Range>, n: nat, i: nat)
    requires n <= |ranges| && Inserted(ranges, n).Some? && InForce(ranges, i, n)
    ensures var m := Inserted(ranges, n).value; ranges[i].start in m && m[ranges[i].start] == ranges[i].second
  {
    InsertedEntries(ranges, n);
  }

  ghost predicate NoneInside(m: Ranges, start: nat, length: nat) {
    forall k :: k in m ==> !(start < k <= length)
  }

  lemma NewStaysOutside(m: Ranges, next: Range, start: uint32)
    requires !Clashes(m, next) && start in m && start != next.start && NoneInside(m, start, m[start])
    ensures NoneInside(m[next.start := next.second], start, m[start])
  {
    if start < next.start <= m[start] {
      assert IsBelow(m, start, next.start);
    }
  }

  lemma NoneInsideNew(m: Ranges, next: Range)
    requires !Clashes(m, next)
    ensures NoneInside(m[next.start := next.second], next.start, next.second)
  {
  }

  /** No start is stored within the length of an entry in force, so the nearest range below is the one to ask. */
  lemma {:induction false} NoneWithin(ranges: seq<Range>, n: nat, i: nat)
    requires n <= |ranges| && Inserted(ranges, n).Some? && InForce(ranges, i, n)
    ensures NoneInside(Inserted(ranges, n).value, ranges[i].start, ranges[i].second)
  {
    if i < n - 1 {
      assert InForce(ranges, i, n - 1);
      NoneWithin(ranges, n - 1, i);
      EntryInForce(ranges, n - 1, i);
      NewStaysOutside(Inserted(ranges, n - 1).value, ranges[n - 1], ranges[i].start);
    } else {
      NoneInsideNew(Inserted(ranges, i).value, ranges[i]);
    }
  }

  lemma ClashHits(m: Ranges, next: Range) returns (k: uint32)
    requires Clashes(m, next)
    ensures k in m && Rejects(Range(k, m[k]), next)
  {
    if exists k :: k in m && next.start <= k <= next.second {
      k :| k in m && next.start <= k <= next.second;
    } else {
      k :| k in m && IsBelow(m, k, next.start) && m[k] >= next.start;
    }
  }

  lemma HitClashes(m: Ranges, next: Range, k: uint32)
    requires k in m && Rejects(Range(k, m[k]), next) && NoneInside(m, k, m[k])
    ensures Clashes(m, next)
  {
    if k < next.start {
      assert IsBelow(m, k, next.start);
    }
  }

  lemma PairOfClash(ranges: seq<Range>, n: nat)
    requires n < |ranges| && Inserted(ranges, n).Some? && Clashes(Inserted(ranges, n).value, ranges[n])
    ensures exists i: nat :: InForce(ranges, i, n) && Rejects(ranges[i], ranges[n])
  {
    var k := ClashHits(Inserted(ranges, n).value, ranges[n]);
    InsertedEntries(ranges, n);
    assert FromList(ranges, n, k);
    var i: nat :| InForce(ranges, i, n) && ranges[i].start == k;
  }

  lemma ClashOfPair(ranges: seq<Range>, n: nat, i: nat)
    requires n < |ranges| && Inserted(ranges, n).Some? && InForce(ranges, i, n) && Rejects(ranges[i], ranges[n])
    ensures Clashes(Inserted(ranges, n).value, ranges[n])
  {
    EntryInForce(ranges, n, i);
    NoneWithin(ranges, n, i);
    HitClashes(Inserted(ranges, n).value, ranges[n], ranges[i].start);
  }

  lemma NextByPairs(ranges: seq<Range>, n: nat)
    requires n < |ranges| && Inserted(ranges, n).Some?
    ensures Inserted(ranges, n + 1).Some? <==> forall i: nat :: InForce(ranges, i, n) ==> !Rejects(ranges[i], ranges[n])
  {
    if Clashes(Inserted(ranges, n).value, ranges[n]) {
      PairOfClash(ranges, n);
    } else {
      forall i: nat | InForce(ranges, i, n)
        ensures !Rejects(ranges[i], ranges[n])
      {
        if Rejects(ranges[i], ranges[n]) {
          ClashOfPair(ranges, n, i);
        }
      }
    }
  }

  /** No entry of the first `n` is rejected by an earlier one that is still stored. */
  ghost predicate PairsPass(ranges: seq<Range>, n: nat)
    requires n <= |ranges|
  {
    forall i: nat, j: nat :: j < n && InForce(ranges, i, j) ==> !Rejects(ranges[i], ranges[j])
  }

  /** The test of a whole list comes down to its pairs: looking at the two neighbours of a start is as good as
      looking at all ranges stored. */
  lemma {:induction false} ChecksPairs(ranges: seq<Range>, n: nat)
    requires n <= |ranges|
    ensures Inserted(ranges, n).Some? <==> PairsPass(ranges, n)
  {
    if n > 0 {
      ChecksPairs(ranges, n - 1);
      if Inserted(ranges, n - 1).Some? {
        NextByPairs(ranges, n - 1);
      }
    }
  }

  ghost predicate NonEmpty(ranges: seq<Range>) {
    forall i :: 0 <= i < |ranges| ==> ranges[i].second > 0
  }

  ghost predicate Disjoint(ranges: seq<Range>) {
    forall i, j :: 0 <= i < j < |ranges| ==> !Overlap(ranges[i], ranges[j])
  }

  /** Some range starts at byte 0 and ends where another starts. */
  ghost predicate AnyTouchFromZero(ranges: seq<Range>) {
    exists a, b :: a in ranges && b in ranges && TouchFromZero(a, b)
  }

  /** What a list of ranges must be to pass: the overlaps in it reach past the lower range's length, and the other
      pairs do not touch from byte 0. An entry that gave up its start to a later one is not compared any more. */
  lemma ListCheck(ranges: seq<Range>)
    requires NonEmpty(ranges)
    ensures NoClash(ranges) <==>
              forall i: nat, j: nat :: j < |ranges| && InForce(ranges, i, j) ==>
                if Overlap(ranges[i], ranges[j])
                then LowerLength(ranges[i], ranges[j]) < HigherStart(ranges[i], ranges[j])
                else !TouchFromZero(ranges[i], ranges[j]) && !TouchFromZero(ranges[j], ranges[i])
  {
    ChecksPairs(ranges, |ranges|);
    forall i: nat, j: nat | j < |ranges| && InForce(ranges, i, j)
      ensures Rejects(ranges[i], ranges[j]) <==>
                if Overlap(ranges[i], ranges[j])
                then HigherStart(ranges[i], ranges[j]) <= LowerLength(ranges[i], ranges[j])
                else TouchFromZero(ranges[i], ranges[j]) || TouchFromZero(ranges[j], ranges[i])
    {
      RangeCheckOfTwo(ranges[i], ranges[j]);
    }
  }

  /** Ranges without overlap, in any order and number, pass exactly if none starts at byte 0 and ends where
      another starts. */
  lemma DisjointListCheck(ranges: seq<Range>)
    requires NonEmpty(ranges) && Disjoint(ranges)
    ensures NoClash(ranges) <==> !AnyTouchFromZero(ranges)
  {
    ListCheck(ranges);
    if a, b :| a in ranges && b in ranges && TouchFromZero(a, b) {
      var i :| 0 <= i < |ranges| && ranges[i] == a;
      var j :| 0 <= j < |ranges| && ranges[j] == b;
      TouchingPair(ranges, i, j);
    }
  }

  lemma TouchingPair(ranges: seq<Range>, i: nat, j: nat)
    requires NonEmpty(ranges) && Disjoint(ranges) && i < |ranges| && j < |ranges|
    requires TouchFromZero(ranges[i], ranges[j])
    ensures !NoClash(ranges)
  {
    ListCheck(ranges);
    var low, high := if i < j then i else j, if i < j then j else i;
    DistinctStarts(ranges, low, high);
  }

  lemma DistinctStarts(ranges: seq<Range>, i: nat, j: nat)
    requires NonEmpty(ranges) && Disjoint(ranges) && i < |ranges| && j < |ranges|
    ensures i < j ==> InForce(ranges, i, j) && !Overlap(ranges[i], ranges[j])
  {
    if i < j {
      forall q | i < q < j
        ensures ranges[q].start != ranges[i].start
      {
        assert !Overlap(ranges[i], ranges[q]);
      }
    }
  }

  // --- Which placed lists pass ---

  /** The list an action stands for has the members of its two lists. */
  lemma {:induction false} MergeMembers(order: seq<ModificationType>, cs: seq<CounterModification>,
                                        ts: seq<TimestampModification>)
    requires Matches(order, cs, ts)
    ensures forall t :: t in ts <==> TimestampMod(t) in Merge(order, cs, ts)
    ensures forall c :: c in cs <==> CounterMod(c) in Merge(order, cs, ts)
  {
    if order != [] {
      if order[0] == CounterType {
        MergeMembers(order[1..], cs[1..], ts);
        assert cs == [cs[0]] + cs[1..];
      } else {
        MergeMembers(order[1..], cs, ts[1..]);
        assert ts == [ts[0]] + ts[1..];
      }
    }
  }

  lemma {:induction false} MemberPlaced(mods: seq<Modification>, from: nat, size: nat, m: Modification)
    requires WellPlaced(mods, from, size) && Encodable(mods) && m in mods
    ensures from <= m.Bytes().start && End(m) <= size
    ensures OperationOf(m).Some? && m.Bytes().second <= 8
  {
    WellPlacedFits(mods[1..], End(mods[0]), size);
    if m != mods[0] {
      MemberPlaced(mods[1..], End(mods[0]), size, m);
    }
  }

  ghost function FieldRanges(cs: seq<CounterModification>, ts: seq<TimestampModification>): seq<Range> {
    TimestampRanges(ts) + CounterRanges(cs)
  }

  lemma FieldOfModification(order: seq<ModificationType>, cs: seq<CounterModification>, ts: seq<TimestampModification>,
                            r: Range)
    requires Matches(order, cs, ts)
    ensures r in FieldRanges(cs, ts) <==> exists m :: m in Merge(order, cs, ts) && m.Bytes() == r
  {
    var ranges, mods := FieldRanges(cs, ts), Merge(order, cs, ts);
    MergeMembers(order, cs, ts);
    if r in ranges {
      var i :| 0 <= i < |ranges| && ranges[i] == r;
      var m := if i < |ts| then TimestampMod(ts[i]) else CounterMod(cs[i - |ts|]);
      assert m in mods && m.Bytes() == r;
    }
    if m :| m in mods && m.Bytes() == r {
      match m
      case TimestampMod(t) =>
        var i :| 0 <= i < |ts| && ts[i] == t;
        assert ranges[i] == r;
      case CounterMod(c) =>
        var i :| 0 <= i < |cs| && cs[i] == c;
        assert ranges[|ts| + i] == r;
    }
  }

  lemma InsertBelow(before: seq<Range>, r: Range, after: seq<Range>)
    requires Disjoint(before + after) && forall q :: q in before + after ==> r.start + r.second <= q.start
    ensures Disjoint(before + [r] + after)
  {
    var others, ranges, n := before + after, before + [r] + after, |before|;
    forall i, j | 0 <= i < j < |ranges|
      ensures !Overlap(ranges[i], ranges[j])
    {
      var i', j' := if i < n then i else i - 1, if j < n then j else j - 1;
      if i != n {
        assert ranges[i] == others[i'] && others[i'] in others;
      }
      if j != n {
        assert ranges[j] == others[j'] && others[j'] in others;
      }
    }
  }

  lemma FieldsPlaced(order: seq<ModificationType>, cs: seq<CounterModification>, ts: seq<TimestampModification>,
                     from: nat, size: nat, r: Range)
    requires Matches(order, cs, ts) && Encodable(Merge(order, cs, ts)) && WellPlaced(Merge(order, cs, ts), from, size)
    requires r in FieldRanges(cs, ts)
    ensures from <= r.start
  {
    var mods := Merge(order, cs, ts);
    FieldOfModification(order, cs, ts, r);
    var m :| m in mods && m.Bytes() == r;
    MemberPlaced(mods, from, size, m);
  }

  lemma WithoutFirstCounter(cs: seq<CounterModification>, ts: seq<TimestampModification>)
    requires cs != []
    ensures FieldRanges(cs, ts) == TimestampRanges(ts) + [cs[0].counterBytes] + CounterRanges(cs[1..])
  {
    assert CounterRanges(cs) == [cs[0].counterBytes] + CounterRanges(cs[1..]);
  }

  lemma WithoutFirstTimestamp(cs: seq<CounterModification>, ts: seq<TimestampModification>)
    requires ts != []
    ensures FieldRanges(cs, ts) == [] + [ts[0].timestampBytes] + FieldRanges(cs, ts[1..])
    ensures FieldRanges(cs, ts[1..]) == [] + FieldRanges(cs, ts[1..])
  {
    assert TimestampRanges(ts) == [ts[0].timestampBytes] + TimestampRanges(ts[1..]);
  }

  /** The ranges without that of the first modification, and where it goes. */
  lemma FirstField(order: seq<ModificationType>, cs: seq<CounterModification>, ts: seq<TimestampModification>)
      returns (cs': seq<CounterModification>, ts': seq<TimestampModification>, before: seq<Range>, after: seq<Range>)
    requires Matches(order, cs, ts) && order != []
    ensures Matches(order[1..], cs', ts')
    ensures Merge(order, cs, ts) != [] && Merge(order, cs, ts)[1..] == Merge(order[1..], cs', ts')
    ensures FieldRanges(cs', ts') == before + after
    ensures FieldRanges(cs, ts) == before + [Merge(order, cs, ts)[0].Bytes()] + after
  {
    MergeStep(order, cs, ts);
    if order[0] == CounterType {
      WithoutFirstCounter(cs, ts);
      return cs[1..], ts, TimestampRanges(ts), CounterRanges(cs[1..]);
    }
    WithoutFirstTimestamp(cs, ts);
    return cs, ts[1..], [], FieldRanges(cs, ts[1..]);
  }

  /** A list that ascends without overlap keeps its ranges disjoint when its two kinds are taken apart. */
  lemma {:induction false} PlacedDisjoint(order: seq<ModificationType>, cs: seq<CounterModification>,
                                          ts: seq<TimestampModification>,
                                          from: nat, size: nat)
    requires Matches(order, cs, ts) && Encodable(Merge(order, cs, ts)) && WellPlaced(Merge(order, cs, ts), from, size)
    ensures Disjoint(FieldRanges(cs, ts))
    decreases |order|
  {
    if order != [] {
      var cs', ts', before, after := FirstField(order, cs, ts);
      var first := Merge(order, cs, ts)[0];
      PlacedDisjoint(order[1..], cs', ts', End(first), size);
      forall q: Range | q in before + after
        ensures End(first) <= q.start
      {
        FieldsPlaced(order[1..], cs', ts', End(first), size, q);
      }
      InsertBelow(before, first.Bytes(), after);
    }
  }

  ghost predicate NoneEmpty(mods: seq<Modification>) {
    forall m :: m in mods ==> m.Bytes().second > 0
  }

  /** A counter is given the step 0. */
  ghost predicate AnyStepZero(mods: seq<Modification>) {
    exists m :: m in mods && m.CounterMod? && m.counter.counterStep == 0
  }

  /** A field ends where its packet does. */
  ghost predicate ReachesEnd(mods: seq<Modification>, size: nat) {
    exists m :: m in mods && End(m) == size
  }

  /** A field starts at byte 0 and ends where another starts. */
  ghost predicate FieldsTouchFromZero(mods: seq<Modification>) {
    exists m, q :: m in mods && q in mods && TouchFromZero(m.Bytes(), q.Bytes())
  }

  lemma EachFits(a: Action, size: nat)
    requires a.Balanced() && Encodable(a.Modifications()) && WellPlaced(a.Modifications(), 0, size)
    ensures ((forall t :: t in a.timestampMods ==> TimestampOk(t, size))
             && (forall c :: c in a.counterMods ==> CounterOk(c, size)))
            <==> !AnyStepZero(a.Modifications()) && (size < TWO_32 ==> !ReachesEnd(a.Modifications(), size))
  {
    var mods := a.Modifications();
    MergeMembers(a.modOrder, a.counterMods, a.timestampMods);
    forall m | m in mods
      ensures (match m case TimestampMod(t) => TimestampOk(t, size) case CounterMod(c) => CounterOk(c, size))
              <==> (m.CounterMod? ==> m.counter.counterStep != 0) && (size < TWO_32 ==> End(m) != size)
    {
      MemberPlaced(mods, 0, size, m);
    }
  }

  /** What the checks refuse of the SENDs that could be rendered: a well-placed list passes exactly if no counter has
      the step 0, no field ends where the packet does and no field is in the way of a later one; and if no field is
      empty, that means that none starts at byte 0 and ends where another starts. */
  lemma PlacedSendPasses(a: Action, size: nat)
    requires a.Balanced() && Encodable(a.Modifications()) && WellPlaced(a.Modifications(), 0, size)
    ensures var ranges := FieldRanges(a.counterMods, a.timestampMods);
            && (ModificationsOk(a, size)
                <==> && !AnyStepZero(a.Modifications())
                     && (size < TWO_32 ==> !ReachesEnd(a.Modifications(), size))
                     && PairsPass(ranges, |ranges|))
            && (NoneEmpty(a.Modifications()) ==>
                  (PairsPass(ranges, |ranges|) <==> !FieldsTouchFromZero(a.Modifications())))
  {
    var ranges := FieldRanges(a.counterMods, a.timestampMods);
    EachFits(a, size);
    ChecksPairs(ranges, |ranges|);
    if NoneEmpty(a.Modifications()) {
      forall r | r in ranges
        ensures r.second > 0
      {
        FieldOfModification(a.modOrder, a.counterMods, a.timestampMods, r);
      }
      PlacedDisjoint(a.modOrder, a.counterMods, a.timestampMods, 0, size);
      DisjointListCheck(ranges);
      TouchesAgree(a);
    }
  }

  lemma TouchesAgree(a: Action)
    requires a.Balanced()
    ensures AnyTouchFromZero(FieldRanges(a.counterMods, a.timestampMods)) <==> FieldsTouchFromZero(a.Modifications())
  {
    var mods, ranges := a.Modifications(), FieldRanges(a.counterMods, a.timestampMods);
    if r, q :| r in ranges && q in ranges && TouchFromZero(r, q) {
      FieldOfModification(a.modOrder, a.counterMods, a.timestampMods, r);
      FieldOfModification(a.modOrder, a.counterMods, a.timestampMods, q);
    }
    if m, q :| m in mods && q in mods && TouchFromZero(m.Bytes(), q.Bytes()) {
      FieldOfModification(a.modOrder, a.counterMods, a.timestampMods, m.Bytes());
      FieldOfModification(a.modOrder, a.counterMods, a.timestampMods, q.Bytes());
    }
  }

  /** A list that could be rendered and does not pass: its one field ends with the packet. */
  lemma FieldAtTheEndRejected(a: Action)
    requires a.timestampMods == [] && a.counterMods == [CounterModification(Range(28, 4), 1, true)]
             && a.modOrder == [CounterType]
    ensures a.Balanced() && Encodable(a.Modifications()) && WellPlaced(a.Modifications(), 0, 32)
    ensures !ModificationsOk(a, 32)
  {
    var m := CounterMod(a.counterMods[0]);
    assert a.modOrder[1..] == [] && a.counterMods[1..] == [];
    assert Merge([], [], []) == [];
    assert a.Modifications() == [m] && [m][1..] == [];
    assert !CounterOk(a.counterMods[0], 32);
  }

  /** Fields of at most 8 bytes that start past byte 8 are never found to clash, wherever they lie. */
  lemma {:induction false} FarRangesNeverClash(ranges: seq<Range>, n: nat)
    requires n <= |ranges| && forall i :: 0 <= i < |ranges| ==> ranges[i].start > 8 >= ranges[i].second
    ensures Inserted(ranges, n).Some?
    ensures forall k :: k in Inserted(ranges, n).value ==> k > 8 >= Inserted(ranges, n).value[k]
  {
    if n > 0 {
      FarRangesNeverClash(ranges, n - 1);
    }
  }

  /** Two SENDs with modifications that the check lets through although one overwrites the other, and that it
      rejects although they only touch. */
  lemma OverlapAcceptedTouchRejected()
    ensures NoClash([Range(10, 4), Range(8, 8)]) && Overlap(Range(10, 4), Range(8, 8))
    ensures !NoClash([Range(0, 8), Range(8, 8)]) && !Overlap(Range(0, 8), Range(8, 8))
  {
    var far, near := [Range(10, 4), Range(8, 8)], [Range(0, 8), Range(8, 8)];
    assert !Clashes(map[], Range(10, 4)) && !Clashes(map[], Range(0, 8));
    assert Inserted(far, 1) == Some(map[10 := 4]);
    assert Inserted(near, 1) == Some(map[0 := 8]);
    assert !Clashes(map[10 := 4], Range(8, 8));
    assert Clashes(map[0 := 8], Range(8, 8)) by {
      assert IsBelow(map[0 := 8], 0, 8);
    }
    assert Inserted(far, 2).Some? && Inserted(near, 2).None?;
  }
}
