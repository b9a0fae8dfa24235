/** Splitting the sessions of a script over shards, and actions on global ranges into actions on the
    sessions of one shard. */
module Sharding {
  import opened Bytes
  import opened Scripts
  import opened Planner
  import opened SessionPools
  import opened Shards

  /** Global session indices [start, end). */
  datatype Span = Span(start: uint32, end: uint32)

  function Min(a: int, b: int): int { if a < b then a else b }
  function Max(a: int, b: int): int { if a < b then b else a }

  // --- The partition ---

  /** Where shard `i` of `k` begins: after `i` equal parts and one of the leftover sessions for each
      earlier shard, while they last. */
  ghost function Bound(n: nat, k: nat, i: nat): nat
    requires k > 0
  {
    i * (n / k) + Min(i, n % k)
  }

  lemma BoundStep(n: nat, k: nat, i: nat)
    requires k > 0
    ensures Bound(n, k, i + 1) == Bound(n, k, i) + n / k + if i < n % k then 1 else 0
  {
    var q := n / k;
    assert (i + 1) * q == i * q + q;
  }

  lemma BoundEnds(n: nat, k: nat)
    requires k > 0
    ensures Bound(n, k, 0) == 0 && Bound(n, k, k) == n
  {
  }

  lemma {:induction false} BoundAscends(n: nat, k: nat, i: nat, j: nat)
    requires k > 0 && i <= j
    ensures Bound(n, k, i) <= Bound(n, k, j)
  {
    if i < j {
      BoundAscends(n, k, i, j - 1);
      BoundStep(n, k, j - 1);
    }
  }

  ghost predicate IsPartition(spans: seq<Span>, n: nat, k: nat) {
    && k > 0 && |spans| == k
    && forall i :: 0 <= i < k ==> spans[i].start == Bound(n, k, i) && spans[i].end == Bound(n, k, i + 1)
  }

  method Partition(n: uint32, k: uint32) returns (spans: seq<Span>)
    requires k > 0
    ensures IsPartition(spans, n, k)
  {
    spans := [];
    var splitBase, splitRem := n / k, n % k;
    var start: uint32 := 0;
    BoundEnds(n, k);
    for i := 0 to k
      invariant |spans| == i && start == Bound(n, k, i)
      invariant forall j :: 0 <= j < i ==> spans[j].start == Bound(n, k, j) && spans[j].end == Bound(n, k, j + 1)
    {
      BoundStep(n, k, i);
      BoundAscends(n, k, i + 1, k);
      var distributed := if i < splitRem then 1 else 0;
      var count := splitBase + distributed;
      var end := start + count;
      spans := spans + [Span(start, end)];
      start := end;
    }
  }

  /** The spans begin at 0, end at `n` and meet without gap or overlap. */
  lemma PartitionCovers(spans: seq<Span>, n: nat, k: nat, i: nat)
    requires IsPartition(spans, n, k) && i < k
    ensures spans[0].start == 0 && spans[k - 1].end == n
    ensures i + 1 < k ==> spans[i].end == spans[i + 1].start
    ensures spans[i].start <= spans[i].end <= n
  {
    BoundEnds(n, k);
    BoundAscends(n, k, i, i + 1);
    BoundAscends(n, k, i + 1, k);
  }

  /** The first `n % k` spans hold one session more than the others. */
  lemma PartitionIsFair(spans: seq<Span>, n: nat, k: nat, i: nat)
    requires IsPartition(spans, n, k) && i < k
    ensures spans[i].end - spans[i].start == n / k + if i < n % k then 1 else 0
  {
    BoundStep(n, k, i);
  }

  /** Every session has exactly one shard. */
  lemma OneOwner(spans: seq<Span>, n: nat, k: nat, g: nat)
    requires IsPartition(spans, n, k) && g < n
    ensures exists i :: 0 <= i < k && spans[i].start <= g < spans[i].end
    ensures forall i, j :: 0 <= i < k && 0 <= j < k && spans[i].start <= g < spans[i].end
                           && spans[j].start <= g < spans[j].end
              ==> i == j
  {
    BoundEnds(n, k);
    var i := OwnerBelow(spans, n, k, g, k);
    forall a, b | 0 <= a < b < k && spans[a].start <= g < spans[a].end
      ensures g < spans[b].start
    {
      BoundAscends(n, k, a + 1, b);
    }
  }

  lemma {:induction false} OwnerBelow(spans: seq<Span>, n: nat, k: nat, g: nat, j: nat) returns (i: nat)
    requires IsPartition(spans, n, k) && j <= k && g < Bound(n, k, j)
    ensures i < k && spans[i].start <= g < spans[i].end
  {
    BoundEnds(n, k);
    assert j > 0;
    if Bound(n, k, j - 1) <= g {
      return j - 1;
    }
    i := OwnerBelow(spans, n, k, g, j - 1);
  }

  // --- Actions on spans ---

  /** One span per shard. */
  predicate SpansFit(spans: seq<Span>, k: nat) {
    |spans| == k && forall i :: 0 <= i < k ==> spans[i].start <= spans[i].end
  }

  /** The part of `a` that concerns the sessions of `span`, in that shard's own indices. */
  function Overlap(a: ActionDescriptor, span: Span): Option<ActionDescriptor>
    requires span.start <= span.end
  {
    var lower, upper := Max(a.sessionsStart, span.start), Min(a.sessionsEnd, span.end);
    if lower >= upper then None
    else Some(a.(sessionsStart := lower - span.start, sessionsEnd := lower - span.start + (upper - lower)))
  }

  /** What the shard does with its part of `a`. */
  function Distributed(s: ShardState, a: ActionDescriptor, span: Span): ShardState
    requires span.start <= span.end
  {
    match Overlap(a, span)
    case None => s
    case Some(local) => SubmitWork(s, local)
  }

  /** The calls an action makes on session `g`. */
  ghost function Received(a: ActionDescriptor, g: nat): seq<Call> {
    if CallOf(a).Some? && a.sessionsStart <= g < a.sessionsEnd then [CallOf(a).value] else []
  }

  /** The calls session `g` of a single flat array of sessions receives. */
  ghost function Flat(actions: seq<ActionDescriptor>, g: nat): seq<Call> {
    if actions == [] then []
    else Flat(actions[..|actions| - 1], g) + Received(actions[|actions| - 1], g)
  }

  /** Local index `l` of a shard is in the shard's part exactly when the global index is in the action,
      and the part stays inside the shard. */
  lemma OverlapExact(a: ActionDescriptor, span: Span, l: nat)
    requires span.start <= span.end
    ensures var part := Overlap(a, span);
            && (part.Some? ==>
                  && part.value.kind == a.kind
                  && part.value.sessionsStart < part.value.sessionsEnd <= span.end - span.start
                  && (l < span.end - span.start ==> Received(part.value, l) == Received(a, span.start + l)))
            && (part.None? && l < span.end - span.start ==> Received(a, span.start + l) == [])
  {
  }

  // --- Shards that end ---

  /** How many shards still run, and how often the handler that lets the orchestrator's own thread end has been
      posted. */
  datatype ExitCount = ExitCount(active: nat, releases: nat)

  /** A shard's thread has ended and counts itself out of a 64-bit number; the last one posts the handler. */
  function CountExit(c: ExitCount): ExitCount {
    var remaining := if c.active > 0 then c.active - 1 else 0xFFFF_FFFF_FFFF_FFFF;
    ExitCount(remaining, if remaining == 0 then c.releases + 1 else c.releases)
  }

  /** The orchestrator has been released once the last shard has ended, and only once. */
  predicate ReleasedByLast(c: ExitCount) {
    c.releases == if c.active == 0 then 1 else 0
  }

  ghost function CountExits(c: ExitCount, n: nat): ExitCount {
    if n == 0 then c else CountExit(CountExits(c, n - 1))
  }

  /** When the shards end one by one, exactly the last of them releases the orchestrator. */
  lemma {:induction false} LastExitReleases(shards: nat, n: nat)
    requires 0 < shards && n <= shards
    ensures CountExits(ExitCount(shards, 0), n) == ExitCount(shards - n, if n == shards then 1 else 0)
  {
    if n > 0 {
      LastExitReleases(shards, n - 1);
    }
  }
}
