/** The checks on the actions of a script, and what a script that passes them is good for. */
module Validator {
  import opened Bytes
  import opened Scripts
  import opened Planner

  /** `packets` gives the size of each identifier's file, None where the file cannot be found. */
  datatype Settings = Settings(shards: uint32, packets: map<string, Option<nat>>)

  // --- What is accepted: sessions ---

  predicate Covers(a: Action, j: nat) {
    a.range.start <= j < a.range.second
  }

  /** The last CONNECT or DRAIN of session `j` was a CONNECT. */
  ghost predicate IsActive(actions: seq<Action>, j: nat) {
    actions != [] &&
    var a := actions[|actions| - 1];
    if Covers(a, j) && (a.kind == Connect || a.kind == Drain) then a.kind == Connect
    else IsActive(actions[..|actions| - 1], j)
  }

  ghost function Occurrences(actions: seq<Action>, kind: ActionType, j: nat): nat {
    if actions == [] then 0
    else
      var a := actions[|actions| - 1];
      Occurrences(actions[..|actions| - 1], kind, j) + if Covers(a, j) && a.kind == kind then 1 else 0
  }

  /** Action `i` is allowed for session `j` after the actions before it. */
  ghost predicate AllowedFor(actions: seq<Action>, i: nat, j: nat)
    requires i < |actions|
  {
    Covers(actions[i], j) ==>
      match actions[i].kind
      case Create => true
      case Connect => !IsActive(actions[..i], j)
      case Send => IsActive(actions[..i], j)
      case Flood => IsActive(actions[..i], j)
      case Drain => IsActive(actions[..i], j)
      case Disconnect => Occurrences(actions[..i], Disconnect, j) == 0
  }

  /** The size of the pool once `actions` are through. */
  ghost function PoolSize(actions: seq<Action>): nat {
    if actions == [] then 0
    else
      var a := actions[|actions| - 1];
      if a.kind == Create then a.count else PoolSize(actions[..|actions| - 1])
  }

  // --- What is accepted: modifications ---

  type Ranges = map<uint32, uint32>

  /** What the range check compares: the lowest start not below `r`'s with `r`'s length, and the length of the
      nearest range below with `r`'s start. */
  ghost predicate Clashes(m: Ranges, r: Range) {
    || (exists k :: k in m && r.start <= k <= r.second)
    || (exists k :: k in m && IsBelow(m, k, r.start) && m[k] >= r.start)
  }

  /** `k` is the nearest start below `start`. */
  ghost predicate IsBelow(m: Ranges, k: uint32, start: uint32) {
    k in m && k < start && forall q :: q in m && q < start ==> q <= k
  }

  /** The first `n` ranges, inserted one by one; None once one clashes. */
  ghost function Inserted(ranges: seq<Range>, n: nat): Option<Ranges>
    requires n <= |ranges|
  {
    if n == 0 then Some(map[])
    else
      match Inserted(ranges, n - 1)
      case None => None
      case Some(m) =>
        if Clashes(m, ranges[n - 1]) then None else Some(m[ranges[n - 1].start := ranges[n - 1].second])
  }

  ghost predicate NoClash(ranges: seq<Range>) {
    Inserted(ranges, |ranges|).Some?
  }

  predicate TimestampOk(t: TimestampModification, size: nat) {
    LookupFormat(t.formatName).Some? && t.timestampBytes.second <= 8
    && Wrap32(t.timestampBytes.start + t.timestampBytes.second) < size
  }

  predicate CounterOk(c: CounterModification, size: nat) {
    c.counterStep != 0 && c.counterBytes.second <= 8
    && Wrap32(c.counterBytes.start + c.counterBytes.second) < size
  }

  ghost function TimestampRanges(ts: seq<TimestampModification>): (r: seq<Range>)
    ensures |r| == |ts|
  {
    seq(|ts|, i requires 0 <= i < |ts| => ts[i].timestampBytes)
  }

  ghost function CounterRanges(cs: seq<CounterModification>): (r: seq<Range>)
    ensures |r| == |cs|
  {
    seq(|cs|, i requires 0 <= i < |cs| => cs[i].counterBytes)
  }

  ghost predicate ModificationsOk(a: Action, size: nat) {
    && (forall i :: 0 <= i < |a.timestampMods| ==> TimestampOk(a.timestampMods[i], size))
    && (forall i :: 0 <= i < |a.counterMods| ==> CounterOk(a.counterMods[i], size))
    && NoClash(TimestampRanges(a.timestampMods) + CounterRanges(a.counterMods))
  }

  // --- What is accepted ---

  ghost predicate SendOk(settings: Settings, a: Action) {
    && a.count != 0
    && a.packetIdentifier in settings.packets
    && |a.modOrder| == |a.timestampMods| + |a.counterMods|
    && settings.packets[a.packetIdentifier].Some? && settings.packets[a.packetIdentifier].value != 0
    && ModificationsOk(a, settings.packets[a.packetIdentifier].value)
  }

  ghost predicate ActionOk(settings: Settings, pool: nat, a: Action) {
    match a.kind
    case Create => pool == 0 && a.count >= settings.shards
    case Connect => pool != 0 && a.range.second <= pool
    case Send => a.range.second <= pool && SendOk(settings, a)
    case _ => a.range.second <= pool
  }

  ghost predicate AcceptedAt(settings: Settings, actions: seq<Action>, i: nat)
    requires i < |actions|
  {
    ActionOk(settings, PoolSize(actions[..i]), actions[i]) && forall j: nat :: AllowedFor(actions, i, j)
  }

  ghost predicate Accepted(settings: Settings, actions: seq<Action>) {
    forall i :: 0 <= i < |actions| ==> AcceptedAt(settings, actions, i)
  }

  // --- The loops ---

  /** The ordered map of the ranges checked so far: its entries, by ascending start. */
  ghost predicate Ascending(held: seq<Range>) {
    forall i, j :: 0 <= i < j < |held| ==> held[i].start < held[j].start
  }

  /** `held` has the entries of `m`. */
  ghost predicate Holds(held: seq<Range>, m: Ranges) {
    && Ascending(held)
    && (forall i :: 0 <= i < |held| ==> held[i].start in m && m[held[i].start] == held[i].second)
    && (forall k :: k in m ==> HasStart(held, k))
  }

  ghost predicate HasStart(held: seq<Range>, k: uint32) {
    exists i :: 0 <= i < |held| && held[i].start == k
  }

  /** The position, from `i` on, of the first entry that does not start below `start`. */
  function LowerBoundFrom(held: seq<Range>, start: uint32, i: nat): (it: nat)
    requires i <= |held|
    ensures i <= it <= |held|
    ensures it < |held| ==> start <= held[it].start
    ensures forall j :: i <= j < it ==> held[j].start < start
    decreases |held| - i
  {
    if i == |held| || start <= held[i].start then i else LowerBoundFrom(held, start, i + 1)
  }

  function LowerBound(held: seq<Range>, start: uint32): (it: nat)
    ensures it <= |held|
    ensures it < |held| ==> start <= held[it].start
    ensures forall j :: 0 <= j < it ==> held[j].start < start
  {
    LowerBoundFrom(held, start, 0)
  }

  /** The entry at the lower bound is the one with the lowest start not below, so it decides whether any start
      lies up to the length. */
  lemma ClashAbove(held: seq<Range>, m: Ranges, r: Range)
    requires Holds(held, m)
    ensures var it := LowerBound(held, r.start);
            (it < |held| && held[it].start <= r.second) <==> exists k :: k in m && r.start <= k <= r.second
  {
    var it := LowerBound(held, r.start);
    if k :| k in m && r.start <= k <= r.second {
      assert HasStart(held, k);
    }
  }

  /** The entry before it is the nearest one below. */
  lemma NearestBelow(held: seq<Range>, m: Ranges, start: uint32, k: uint32)
    requires Holds(held, m)
    ensures var it := LowerBound(held, start);
            IsBelow(m, k, start) <==> it > 0 && held[it - 1].start == k
  {
    var it := LowerBound(held, start);
    forall q | q in m && q < start
      ensures it > 0 && q <= held[it - 1].start
    {
      assert HasStart(held, q);
    }
  }

  lemma ClashBelow(held: seq<Range>, m: Ranges, r: Range)
    requires Holds(held, m)
    ensures var it := LowerBound(held, r.start);
            (it > 0 && held[it - 1].second >= r.start)
            <==> exists k :: k in m && IsBelow(m, k, r.start) && m[k] >= r.start
  {
    var it := LowerBound(held, r.start);
    if it > 0 {
      NearestBelow(held, m, r.start, held[it - 1].start);
    }
    if k :| k in m && IsBelow(m, k, r.start) && m[k] >= r.start {
      NearestBelow(held, m, r.start, k);
    }
  }

  /** `held` with `r`, in place of an entry that starts where it does. */
  function Stored(held: seq<Range>, r: Range): seq<Range> {
    var it := LowerBound(held, r.start);
    if it < |held| && held[it].start == r.start then held[it := r] else held[..it] + [r] + held[it..]
  }

  lemma StoredEntries(held: seq<Range>, r: Range, i: nat)
    requires i < |Stored(held, r)|
    ensures var it, grown := LowerBound(held, r.start), |Stored(held, r)| - |held|;
            && (grown == 0 || grown == 1) && (it < |held| && held[it].start == r.start ==> grown == 0)
            && (grown == 0 ==> it < |held| && held[it].start == r.start)
            && Stored(held, r)[i] == if i < it then held[i] else if i == it then r else held[i - grown]
  {
  }

  lemma StoredAscends(held: seq<Range>, r: Range)
    requires Ascending(held)
    ensures Ascending(Stored(held, r))
  {
    var it, held' := LowerBound(held, r.start), Stored(held, r);
    forall i, j | 0 <= i < j < |held'|
      ensures held'[i].start < held'[j].start
    {
      StoredEntries(held, r, i);
      StoredEntries(held, r, j);
    }
  }

  lemma StoredHolds(held: seq<Range>, m: Ranges, r: Range)
    requires Holds(held, m)
    ensures Holds(Stored(held, r), m[r.start := r.second])
  {
    var it, held', m' := LowerBound(held, r.start), Stored(held, r), m[r.start := r.second];
    StoredAscends(held, r);
    forall i | 0 <= i < |held'|
      ensures held'[i].start in m' && m'[held'[i].start] == held'[i].second
    {
      StoredEntries(held, r, i);
    }
    forall k | k in m'
      ensures HasStart(held', k)
    {
      StoredHasStart(held, r, k);
    }
  }

  lemma StoredHasStart(held: seq<Range>, r: Range, k: uint32)
    requires k == r.start || HasStart(held, k)
    ensures HasStart(Stored(held, r), k)
  {
    var it, held' := LowerBound(held, r.start), Stored(held, r);
    if k == r.start {
      assert held'[it].start == k;
    } else {
      var i :| 0 <= i < |held| && held[i].start == k;
      var i' := if i < it then i else i + (|held'| - |held|);
      StoredEntries(held, r, i');
      assert held'[i'].start == k;
    }
  }

  method InsertModRange(held: seq<Range>, r: Range, ghost m: Ranges) returns (ok: bool, held': seq<Range>)
    requires Holds(held, m)
    ensures ok <==> !Clashes(m, r)
    ensures ok ==> Holds(held', m[r.start := r.second])
  {
    ClashAbove(held, m, r);
    ClashBelow(held, m, r);
    var it := LowerBound(held, r.start);
    if it < |held| && held[it].start <= r.second {
      return false, held;
    }
    if it != 0 {
      var prev := held[it - 1];
      if prev.second >= r.start {
        return false, held;
      }
    }
    StoredHolds(held, m, r);
    return true, Stored(held, r);
  }

  lemma {:induction false} ClashStays(ranges: seq<Range>, n: nat, k: nat)
    requires n <= k <= |ranges| && Inserted(ranges, n).None?
    ensures Inserted(ranges, k).None?
  {
    if n < k {
      ClashStays(ranges, n, k - 1);
    }
  }

  /** `held` has the first `n` ranges of a list, none of which clashed. */
  ghost predicate HoldsFirst(held: seq<Range>, ranges: seq<Range>, n: nat) {
    n <= |ranges| && Inserted(ranges, n).Some? && Holds(held, Inserted(ranges, n).value)
  }

  /** Inserts entry `n` of the list `ranges`. */
  method InsertNth(held: seq<Range>, r: Range, ghost ranges: seq<Range>, ghost n: nat)
      returns (ok: bool, held': seq<Range>)
    requires n < |ranges| && ranges[n] == r && HoldsFirst(held, ranges, n)
    ensures if ok then HoldsFirst(held', ranges, n + 1) else !NoClash(ranges)
  {
    ok, held' := InsertModRange(held, r, Inserted(ranges, n).value);
    if !ok {
      ClashStays(ranges, n + 1, |ranges|);
    }
  }

  method TimestampFits(t: TimestampModification, size: nat) returns (ok: bool)
    ensures ok <==> TimestampOk(t, size)
  {
    if LookupFormat(t.formatName).None? {
      return false;
    }
    if t.timestampBytes.second > 8 {
      return false;
    }
    if Wrap32(t.timestampBytes.start + t.timestampBytes.second) >= size {
      return false;
    }
    return true;
  }

  method CounterFits(c: CounterModification, size: nat) returns (ok: bool)
    ensures ok <==> CounterOk(c, size)
  {
    if c.counterStep == 0 {
      return false;
    }
    if c.counterBytes.second > 8 {
      return false;
    }
    if Wrap32(c.counterBytes.start + c.counterBytes.second) >= size {
      return false;
    }
    return true;
  }

  /** The checks on one list: each entry in turn is inserted and looked at. */
  method CheckTimestamps(ts: seq<TimestampModification>, ghost ranges: seq<Range>, size: nat)
      returns (ok: bool, held: seq<Range>)
    requires |ts| <= |ranges| && forall i :: 0 <= i < |ts| ==> ranges[i] == ts[i].timestampBytes
    ensures ok ==> (forall i :: 0 <= i < |ts| ==> TimestampOk(ts[i], size)) && HoldsFirst(held, ranges, |ts|)
    ensures !ok ==> (exists i :: 0 <= i < |ts| && !TimestampOk(ts[i], size)) || !NoClash(ranges)
  {
    held := [];
    for i := 0 to |ts|
      invariant forall k :: 0 <= k < i ==> TimestampOk(ts[k], size)
      invariant HoldsFirst(held, ranges, i)
    {
      ok, held := InsertNth(held, ts[i].timestampBytes, ranges, i);
      if !ok {
        return;
      }
      ok := TimestampFits(ts[i], size);
      if !ok {
        return;
      }
    }
    ok := true;
  }

  method CheckCounters(held: seq<Range>, cs: seq<CounterModification>, ghost ranges: seq<Range>, ghost first: nat,
                       size: nat)
      returns (ok: bool)
    requires |ranges| == first + |cs| && HoldsFirst(held, ranges, first)
    requires forall i :: 0 <= i < |cs| ==> ranges[first + i] == cs[i].counterBytes
    ensures ok ==> (forall i :: 0 <= i < |cs| ==> CounterOk(cs[i], size)) && NoClash(ranges)
    ensures !ok ==> (exists i :: 0 <= i < |cs| && !CounterOk(cs[i], size)) || !NoClash(ranges)
  {
    var held' := held;
    for i := 0 to |cs|
      invariant forall k :: 0 <= k < i ==> CounterOk(cs[k], size)
      invariant HoldsFirst(held', ranges, first + i)
    {
      ok, held' := InsertNth(held', cs[i].counterBytes, ranges, first + i);
      if !ok {
        return;
      }
      ok := CounterFits(cs[i], size);
      if !ok {
        return;
      }
    }
    ok := true;
  }

  /** The checks of a SEND that do not look at the sessions. */
  method CheckSend(settings: Settings, a: Action) returns (ok: bool)
    ensures ok <==> SendOk(settings, a)
  {
    if a.count == 0 {
      return false;
    }
    if a.packetIdentifier !in settings.packets {
      return false;
    }
    if |a.modOrder| != |a.timestampMods| + |a.counterMods| {
      return false;
    }
    var packet := settings.packets[a.packetIdentifier];
    if packet.None? {
      return false;
    }
    if packet.value == 0 {
      return false;
    }
    var held: seq<Range>;
    ghost var ranges := TimestampRanges(a.timestampMods) + CounterRanges(a.counterMods);
    ok, held := CheckTimestamps(a.timestampMods, ranges, packet.value);
    if !ok {
      return;
    }
    ok := CheckCounters(held, a.counterMods, ranges, |a.timestampMods|, packet.value);
  }

  /** Fails at the first session in [start, end) that is not active. */
  method AllActive(flags: array<bool>, start: nat, end: nat) returns (ok: bool)
    requires end <= flags.Length
    ensures ok <==> forall j :: start <= j < end ==> flags[j]
  {
    var j := start;
    while j < end
      invariant start <= j && (j == start || j <= end)
      invariant forall k :: start <= k < j ==> flags[k]
    {
      if !flags[j] {
        return false;
      }
      j := j + 1;
    }
    return true;
  }

  /** Marks `flags` in [start, end) with `to`; fails at the first that is not `from`. */
  method MarkRange(flags: array<bool>, start: nat, end: nat, from: bool, to: bool) returns (ok: bool)
    requires end <= flags.Length
    modifies flags
    ensures ok <==> forall j :: start <= j < end ==> old(flags[j]) == from
    ensures ok ==> forall j :: 0 <= j < flags.Length ==> flags[j] == if start <= j < end then to else old(flags[j])
  {
    var j := start;
    while j < end
      invariant start <= j && (j == start || j <= end)
      invariant forall k :: start <= k < j ==> old(flags[k]) == from
      invariant forall k :: 0 <= k < flags.Length ==> flags[k] == if start <= k < j then to else old(flags[k])
    {
      if flags[j] != from {
        return false;
      }
      flags[j] := to;
      j := j + 1;
    }
    return true;
  }

  /** The flags say for every session of the pool whether it is active and whether it was disconnected. */
  ghost predicate Tracks(active: array<bool>, disconnected: array<bool>, actions: seq<Action>)
    reads active, disconnected
  {
    && active.Length == disconnected.Length == PoolSize(actions)
    && (forall j :: 0 <= j < active.Length ==> active[j] == IsActive(actions, j))
    && (forall j :: 0 <= j < disconnected.Length ==> disconnected[j] == (Occurrences(actions, Disconnect, j) != 0))
  }

  lemma TracksStep(actions: seq<Action>, n: nat, j: nat)
    requires n < |actions|
    ensures PoolSize(actions[..n + 1]) == if actions[n].kind == Create then actions[n].count else PoolSize(actions[..n])
    ensures IsActive(actions[..n + 1], j) ==
            if Covers(actions[n], j) && (actions[n].kind == Connect || actions[n].kind == Drain)
            then actions[n].kind == Connect
            else IsActive(actions[..n], j)
    ensures Occurrences(actions[..n + 1], Disconnect, j)
            == Occurrences(actions[..n], Disconnect, j)
               + if Covers(actions[n], j) && actions[n].kind == Disconnect then 1 else 0
  {
    assert actions[..n + 1][..n] == actions[..n];
  }

  /** No session is touched before there is a pool. */
  ghost predicate Untouched(actions: seq<Action>) {
    PoolSize(actions) == 0 ==> forall j: nat :: !IsActive(actions, j) && Occurrences(actions, Disconnect, j) == 0
  }

  /** What an action needs of the sessions of its range. */
  ghost predicate RangeAllows(before: seq<Action>, a: Action) {
    match a.kind
    case Create => true
    case Connect => forall j :: a.range.start <= j < a.range.second ==> !IsActive(before, j)
    case Disconnect => forall j :: a.range.start <= j < a.range.second ==> Occurrences(before, Disconnect, j) == 0
    case _ => forall j :: a.range.start <= j < a.range.second ==> IsActive(before, j)
  }

  lemma AcceptedMeans(settings: Settings, actions: seq<Action>, n: nat)
    requires n < |actions|
    ensures AcceptedAt(settings, actions, n)
            <==> ActionOk(settings, PoolSize(actions[..n]), actions[n]) && RangeAllows(actions[..n], actions[n])
  {
    var a, before := actions[n], actions[..n];
    if AcceptedAt(settings, actions, n) {
      forall j | a.range.start <= j < a.range.second
        ensures a.kind == Connect ==> !IsActive(before, j)
        ensures a.kind == Send || a.kind == Flood || a.kind == Drain ==> IsActive(before, j)
        ensures a.kind == Disconnect ==> Occurrences(before, Disconnect, j) == 0
      {
        assert AllowedFor(actions, n, j) && Covers(a, j);
      }
    }
    if RangeAllows(before, a) {
      forall j: nat
        ensures AllowedFor(actions, n, j)
      {
      }
    }
  }

  /** One action: its checks, and its marks on the sessions of its range. */
  method VerifyAction(settings: Settings, ghost actions: seq<Action>, ghost n: nat, a: Action,
                      poolSize: nat, active: array<bool>, disconnected: array<bool>)
      returns (ok: bool)
    requires n < |actions| && a == actions[n] && a.kind != Create
    requires poolSize == PoolSize(actions[..n]) && active != disconnected
    requires Tracks(active, disconnected, actions[..n])
    modifies active, disconnected
    ensures ok <==> AcceptedAt(settings, actions, n)
    ensures ok ==> Tracks(active, disconnected, actions[..n + 1])
  {
    AcceptedMeans(settings, actions, n);
    TracksStep(actions, n, 0);
    forall j | 0 <= j < poolSize
      ensures IsActive(actions[..n + 1], j) ==
              if Covers(a, j) && (a.kind == Connect || a.kind == Drain) then a.kind == Connect
              else IsActive(actions[..n], j)
      ensures Occurrences(actions[..n + 1], Disconnect, j)
              == Occurrences(actions[..n], Disconnect, j) + if Covers(a, j) && a.kind == Disconnect then 1 else 0
    {
      TracksStep(actions, n, j);
    }
    if a.kind == Connect && poolSize == 0 {
      return false;
    }
    if a.range.second > poolSize {
      return false;
    }
    match a.kind {
      case Connect =>
        ok := MarkRange(active, a.range.start, a.range.second, false, true);
        assert ok <==> RangeAllows(actions[..n], a);
      case Send =>
        ok := CheckSend(settings, a);
        if ok {
          ok := AllActive(active, a.range.start, a.range.second);
          assert ok <==> RangeAllows(actions[..n], a);
        }
      case Flood =>
        ok := AllActive(active, a.range.start, a.range.second);
        assert ok <==> RangeAllows(actions[..n], a);
      case Drain =>
        ok := MarkRange(active, a.range.start, a.range.second, true, false);
        assert ok <==> RangeAllows(actions[..n], a);
      case Disconnect =>
        ok := MarkRange(disconnected, a.range.start, a.range.second, false, true);
        assert ok <==> RangeAllows(actions[..n], a);
    }
  }

  lemma CreateTracks(settings: Settings, actions: seq<Action>, n: nat, active: array<bool>, disconnected: array<bool>)
    requires n < |actions| && actions[n].kind == Create && settings.shards > 0
    requires Untouched(actions[..n])
    ensures AcceptedAt(settings, actions, n) <==> PoolSize(actions[..n]) == 0 && actions[n].count >= settings.shards
    ensures AcceptedAt(settings, actions, n)
            && active.Length == disconnected.Length == actions[n].count
            && (forall j :: 0 <= j < active.Length ==> !active[j])
            && (forall j :: 0 <= j < disconnected.Length ==> !disconnected[j])
            ==> Tracks(active, disconnected, actions[..n + 1])
  {
    AcceptedMeans(settings, actions, n);
    TracksStep(actions, n, 0);
    if PoolSize(actions[..n]) == 0 {
      var after := actions[..n + 1];
      forall j | 0 <= j < actions[n].count
        ensures !IsActive(after, j)
        ensures Occurrences(after, Disconnect, j) == 0
      {
        TracksStep(actions, n, j);
        assert !IsActive(actions[..n], j);
      }
    }
  }

  lemma UntouchedStep(settings: Settings, actions: seq<Action>, n: nat)
    requires n < |actions| && AcceptedAt(settings, actions, n) && Untouched(actions[..n])
    requires settings.shards > 0
    ensures Untouched(actions[..n + 1])
  {
    TracksStep(actions, n, 0);
    if PoolSize(actions[..n + 1]) == 0 {
      var after := actions[..n + 1];
      forall j: nat
        ensures !IsActive(after, j)
        ensures Occurrences(after, Disconnect, j) == 0
      {
        TracksStep(actions, n, j);
        assert !IsActive(actions[..n], j);
      }
    }
  }

  /** The whole list: accepted exactly when every action is. */
  method VerifyActions(settings: Settings, actions: seq<Action>) returns (ok: bool)
    requires settings.shards > 0
    ensures ok <==> Accepted(settings, actions)
  {
    var poolSize := 0;
    var active, disconnected := new bool[0], new bool[0];
    for i := 0 to |actions|
      invariant forall k :: 0 <= k < i ==> AcceptedAt(settings, actions, k)
      invariant poolSize == PoolSize(actions[..i]) && active != disconnected && fresh(active) && fresh(disconnected)
      invariant Tracks(active, disconnected, actions[..i]) && Untouched(actions[..i])
    {
      if actions[i].kind == Create {
        if poolSize != 0 || actions[i].count < settings.shards {
          CreateTracks(settings, actions, i, active, disconnected);
          return false;
        }
        poolSize := actions[i].count;
        active := new bool[poolSize](_ => false);
        disconnected := new bool[poolSize](_ => false);
        CreateTracks(settings, actions, i, active, disconnected);
        TracksStep(actions, i, 0);
      } else {
        ok := VerifyAction(settings, actions, i, actions[i], poolSize, active, disconnected);
        if !ok {
          return;
        }
        TracksStep(actions, i, 0);
      }
      UntouchedStep(settings, actions, i);
    }
    ok := true;
  }
}
