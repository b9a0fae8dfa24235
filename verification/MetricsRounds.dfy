/** Collecting metrics: rounds of snapshots from all shards, their sums, and the change between rounds. */
module MetricsRounds {
  import opened Bytes
  import opened Planner

  const NUM_BUCKETS := 16
  const FIGURES := 6 + 3 * NUM_BUCKETS

  datatype Figures<T> = Figures(
    bytesSent: T, bytesRead: T, connectionAttempts: T, failedConnections: T, finishedConnections: T,
    connectedSessions: T,
    connectionLatency: seq<T>, sendLatency: seq<T>, readLatency: seq<T>)
  {
    predicate Shaped() {
      |connectionLatency| == |sendLatency| == |readLatency| == NUM_BUCKETS
    }

    /** The figures by number. */
    function At(j: nat): T
      requires Shaped() && j < FIGURES
    {
      if j == 0 then bytesSent
      else if j == 1 then bytesRead
      else if j == 2 then connectionAttempts
      else if j == 3 then failedConnections
      else if j == 4 then finishedConnections
      else if j == 5 then connectedSessions
      else if j < 6 + NUM_BUCKETS then connectionLatency[j - 6]
      else if j < 6 + 2 * NUM_BUCKETS then sendLatency[j - 6 - NUM_BUCKETS]
      else readLatency[j - 6 - 2 * NUM_BUCKETS]
    }
  }

  type Snapshot = f: Figures<uint64> | f.Shaped() witness EMPTY
  type Delta = f: Figures<int> | f.Shaped() witness NO_CHANGE

  const EMPTY_BUCKETS := [0, 0, 0, 0, 0, 0, 0, 0, 0, 0, 0, 0, 0, 0, 0, 0]
  const EMPTY: Figures<uint64> := Figures(0, 0, 0, 0, 0, 0, EMPTY_BUCKETS, EMPTY_BUCKETS, EMPTY_BUCKETS)
  const NO_CHANGE: Figures<int> := Figures(0, 0, 0, 0, 0, 0, EMPTY_BUCKETS, EMPTY_BUCKETS, EMPTY_BUCKETS)

  /** A 64-bit number read as a signed one. */
  function Signed(v: uint64): int {
    if v < 0x8000_0000_0000_0000 then v else v - TWO_64
  }

  // --- One sum and one difference ---

  function AddBuckets(a: seq<uint64>, b: seq<uint64>, n: nat): (r: seq<uint64>)
    requires n <= |a| && n <= |b|
    ensures |r| == n
  {
    seq(n, i requires 0 <= i < n => Add64(a[i], b[i]))
  }

  function SubtractBuckets(a: seq<uint64>, b: seq<uint64>, n: nat): (r: seq<int>)
    requires n <= |a| && n <= |b|
    ensures |r| == n
  {
    seq(n, i requires 0 <= i < n => Signed(a[i]) - Signed(b[i]))
  }

  function Plus(a: Snapshot, b: Snapshot): Snapshot {
    Figures(Add64(a.bytesSent, b.bytesSent), Add64(a.bytesRead, b.bytesRead),
            Add64(a.connectionAttempts, b.connectionAttempts), Add64(a.failedConnections, b.failedConnections),
            Add64(a.finishedConnections, b.finishedConnections), Add64(a.connectedSessions, b.connectedSessions),
            AddBuckets(a.connectionLatency, b.connectionLatency, NUM_BUCKETS),
            AddBuckets(a.sendLatency, b.sendLatency, NUM_BUCKETS),
            AddBuckets(a.readLatency, b.readLatency, NUM_BUCKETS))
  }

  function Minus(a: Snapshot, b: Snapshot): Delta {
    Figures(Signed(a.bytesSent) - Signed(b.bytesSent), Signed(a.bytesRead) - Signed(b.bytesRead),
            Signed(a.connectionAttempts) - Signed(b.connectionAttempts),
            Signed(a.failedConnections) - Signed(b.failedConnections),
            Signed(a.finishedConnections) - Signed(b.finishedConnections),
            Signed(a.connectedSessions) - Signed(b.connectedSessions),
            SubtractBuckets(a.connectionLatency, b.connectionLatency, NUM_BUCKETS),
            SubtractBuckets(a.sendLatency, b.sendLatency, NUM_BUCKETS),
            SubtractBuckets(a.readLatency, b.readLatency, NUM_BUCKETS))
  }

  /** Sums and differences are taken figure by figure. */
  lemma FigureByFigure(a: Snapshot, b: Snapshot, j: nat)
    requires j < FIGURES
    ensures Plus(a, b).At(j) == Add64(a.At(j), b.At(j))
    ensures Minus(a, b).At(j) == Signed(a.At(j)) - Signed(b.At(j))
  {
  }

  method Accumulate(a: Snapshot, b: Snapshot) returns (r: Snapshot)
    ensures r == Plus(a, b)
  {
    var connection: seq<uint64>, send: seq<uint64>, read: seq<uint64> := [], [], [];
    for i := 0 to NUM_BUCKETS
      invariant connection == AddBuckets(a.connectionLatency, b.connectionLatency, i)
      invariant send == AddBuckets(a.sendLatency, b.sendLatency, i)
      invariant read == AddBuckets(a.readLatency, b.readLatency, i)
    {
      connection := connection + [Add64(a.connectionLatency[i], b.connectionLatency[i])];
      send := send + [Add64(a.sendLatency[i], b.sendLatency[i])];
      read := read + [Add64(a.readLatency[i], b.readLatency[i])];
    }
    r := Figures(Add64(a.bytesSent, b.bytesSent), Add64(a.bytesRead, b.bytesRead),
                 Add64(a.connectionAttempts, b.connectionAttempts), Add64(a.failedConnections, b.failedConnections),
                 Add64(a.finishedConnections, b.finishedConnections), Add64(a.connectedSessions, b.connectedSessions),
                 connection, send, read);
  }

  method ComputeDifference(current: Snapshot, previous: Snapshot) returns (r: Delta)
    ensures r == Minus(current, previous)
  {
    var connection: seq<int>, send: seq<int>, read: seq<int> := [], [], [];
    for i := 0 to NUM_BUCKETS
      invariant connection == SubtractBuckets(current.connectionLatency, previous.connectionLatency, i)
      invariant send == SubtractBuckets(current.sendLatency, previous.sendLatency, i)
      invariant read == SubtractBuckets(current.readLatency, previous.readLatency, i)
    {
      connection := connection + [Signed(current.connectionLatency[i]) - Signed(previous.connectionLatency[i])];
      send := send + [Signed(current.sendLatency[i]) - Signed(previous.sendLatency[i])];
      read := read + [Signed(current.readLatency[i]) - Signed(previous.readLatency[i])];
    }
    r := Figures(Signed(current.bytesSent) - Signed(previous.bytesSent),
                 Signed(current.bytesRead) - Signed(previous.bytesRead),
                 Signed(current.connectionAttempts) - Signed(previous.connectionAttempts),
                 Signed(current.failedConnections) - Signed(previous.failedConnections),
                 Signed(current.finishedConnections) - Signed(previous.finishedConnections),
                 Signed(current.connectedSessions) - Signed(previous.connectedSessions),
                 connection, send, read);
  }

  // --- Sums over the shards ---

  datatype Aggregate = Aggregate(current: Snapshot, change: Delta)

  /** The latest snapshots of the first `n` shards, and the ones before them, added up; a shard without
      the snapshot in question adds nothing. */
  ghost function Latest(histories: seq<seq<Snapshot>>, n: nat): Snapshot
    requires n <= |histories|
  {
    if n == 0 then EMPTY
    else
      var h := histories[n - 1];
      if |h| >= 1 then Plus(Latest(histories, n - 1), h[|h| - 1]) else Latest(histories, n - 1)
  }

  ghost function Previous(histories: seq<seq<Snapshot>>, n: nat): Snapshot
    requires n <= |histories|
  {
    if n == 0 then EMPTY
    else
      var h := histories[n - 1];
      if |h| >= 2 then Plus(Previous(histories, n - 1), h[|h| - 2]) else Previous(histories, n - 1)
  }

  method AggregateDelta(histories: seq<seq<Snapshot>>) returns (agg: Aggregate)
    ensures agg.current == Latest(histories, |histories|)
    ensures agg.change == Minus(agg.current, Previous(histories, |histories|))
  {
    var current: Snapshot, prev: Snapshot := EMPTY, EMPTY;
    for k := 0 to |histories|
      invariant current == Latest(histories, k) && prev == Previous(histories, k)
    {
      var n := |histories[k]|;
      if n == 0 {
        continue;
      }
      current := Accumulate(current, histories[k][n - 1]);
      if n >= 2 {
        prev := Accumulate(prev, histories[k][n - 2]);
      }
    }
    var change := ComputeDifference(current, prev);
    agg := Aggregate(current, change);
  }

  // --- Rounds ---

  /** `queued[k]` pulls are posted to shard `k`, `timers` timers are set, `completions` handlers of finished
      rounds are posted; `pending` is the shared count of pulls that have not called back. */
  datatype Rounds = Rounds(
    histories: seq<seq<Snapshot>>, queued: seq<nat>, pending: nat, timers: nat, completions: nat,
    reports: seq<Aggregate>)

  datatype MetricsMove = TimerFires | TimerCancelled | ShardRecords(k: nat, snapshot: Snapshot) | RoundCompletes

  function Started(k: nat): Rounds {
    Rounds(seq(k, _ => []), seq(k, _ => 0), 0, 1, 0, [])
  }

  function PullAll(queued: seq<nat>): (r: seq<nat>)
    ensures |r| == |queued|
  {
    seq(|queued|, k requires 0 <= k < |queued| => queued[k] + 1)
  }

  predicate CanMove(m: Rounds, e: MetricsMove) {
    && |m.queued| == |m.histories|
    && match e
       case TimerFires => m.timers > 0
       case TimerCancelled => m.timers > 0
       case ShardRecords(k, _) => k < |m.queued| && m.queued[k] > 0
       case RoundCompletes => m.completions > 0
  }

  ghost function Moved(m: Rounds, e: MetricsMove): Rounds
    requires CanMove(m, e)
  {
    match e
    case TimerFires => m.(timers := m.timers - 1, pending := |m.histories|, queued := PullAll(m.queued))
    case TimerCancelled => m.(timers := m.timers - 1)
    case ShardRecords(k, snapshot) =>
      var remaining := if m.pending > 0 then m.pending - 1 else 0xFFFF_FFFF_FFFF_FFFF;
      m.(histories := m.histories[k := m.histories[k] + [snapshot]], queued := m.queued[k := m.queued[k] - 1],
         pending := remaining, completions := if remaining == 0 then m.completions + 1 else m.completions)
    case RoundCompletes =>
      var current := Latest(m.histories, |m.histories|);
      var change := Minus(current, Previous(m.histories, |m.histories|));
      m.(completions := m.completions - 1, timers := m.timers + 1, reports := m.reports + [Aggregate(current, change)])
  }

  class MetricsCollector {
    var histories: seq<seq<Snapshot>>
    var queued: seq<nat>
    var pending: nat
    var timers: nat
    var completions: nat
    var reports: seq<Aggregate>

    ghost function View(): Rounds
      reads this
    {
      Rounds(histories, queued, pending, timers, completions, reports)
    }

    constructor (shardCount: nat)
      ensures View() == Started(shardCount)
    {
      histories, queued := seq(shardCount, _ => []), seq(shardCount, _ => 0);
      pending, timers, completions, reports := 0, 0, 0, [];
      new;
      ScheduleSnapshot();
    }

    method ScheduleSnapshot()
      modifies this`timers
      ensures timers == old(timers) + 1
    {
      timers := timers + 1;
    }

    /** The timer fires: every shard is asked for a snapshot. */
    method RequestMetrics()
      requires CanMove(View(), TimerFires)
      modifies this
      ensures View() == Moved(old(View()), TimerFires)
    {
      timers := timers - 1;
      pending := |histories|;
      for k := 0 to |histories|
        invariant View() == old(View()).(timers := old(timers) - 1, pending := |histories|, queued := queued)
        invariant |queued| == |old(queued)|
        invariant forall i :: 0 <= i < |queued| ==> queued[i] == old(queued)[i] + if i < k then 1 else 0
      {
        queued := queued[k := queued[k] + 1];
      }
      assert queued == PullAll(old(queued));
    }

    /** Shard `k` runs a pull: it records its snapshot and counts itself out. */
    method Record(k: nat, snapshot: Snapshot)
      requires CanMove(View(), ShardRecords(k, snapshot))
      modifies this
      ensures View() == Moved(old(View()), ShardRecords(k, snapshot))
    {
      queued := queued[k := queued[k] - 1];
      histories := histories[k := histories[k] + [snapshot]];
      pending := if pending > 0 then pending - 1 else 0xFFFF_FFFF_FFFF_FFFF;
      if pending == 0 {
        completions := completions + 1;
      }
    }

    method CompleteRound()
      requires CanMove(View(), RoundCompletes)
      modifies this
      ensures View() == Moved(old(View()), RoundCompletes)
    {
      completions := completions - 1;
      var data := AggregateDelta(histories);
      reports := reports + [data];
      ScheduleSnapshot();
    }
  }

  // --- Laws ---

  ghost function Sum(ns: seq<nat>): nat {
    if ns == [] then 0 else Sum(ns[..|ns| - 1]) + ns[|ns| - 1]
  }

  lemma {:induction false} SumUpdate(ns: seq<nat>, k: nat, v: nat)
    requires k < |ns|
    ensures Sum(ns[k := v]) == Sum(ns) - ns[k] + v
    ensures Sum(ns) >= ns[k]
  {
    var n := |ns| - 1;
    if k < n {
      SumUpdate(ns[..n], k, v);
      assert ns[k := v][..n] == ns[..n][k := v];
    } else {
      assert ns[k := v][..n] == ns[..n];
    }
  }

  lemma {:induction false} SumOfOnes(ns: seq<nat>)
    requires forall k :: 0 <= k < |ns| ==> ns[k] == 0
    ensures Sum(ns) == 0 && Sum(PullAll(ns)) == |ns|
  {
    var n := |ns| - 1;
    if ns != [] {
      SumOfOnes(ns[..n]);
      assert PullAll(ns)[..n] == PullAll(ns[..n]);
    }
  }

  /** Snapshot `r` of every shard, added up. */
  ghost function Round(histories: seq<seq<Snapshot>>, r: nat, n: nat): Snapshot
    requires n <= |histories| && forall k :: 0 <= k < n ==> r < |histories[k]|
  {
    if n == 0 then EMPTY else Plus(Round(histories, r, n - 1), histories[n - 1][r])
  }

  ghost predicate AllReach(histories: seq<seq<Snapshot>>, rounds: nat) {
    forall k :: 0 <= k < |histories| ==> rounds <= |histories[k]|
  }

  /** What round `r` reports: the sum over its snapshots, and the change since the round before. */
  ghost function Report(histories: seq<seq<Snapshot>>, r: nat): Aggregate
    requires AllReach(histories, r + 1)
  {
    var current := Round(histories, r, |histories|);
    Aggregate(current, Minus(current, if r == 0 then EMPTY else Round(histories, r - 1, |histories|)))
  }

  /** The round under way: asked for and not reported. */
  ghost function Underway(m: Rounds): nat {
    if m.pending > 0 || m.completions > 0 then 1 else 0
  }

  ghost predicate Lengths(m: Rounds)
    requires |m.queued| == |m.histories|
  {
    forall k :: 0 <= k < |m.histories| ==>
      m.queued[k] <= 1 && |m.histories[k]| + m.queued[k] == |m.reports| + Underway(m)
  }

  ghost predicate RoundLaws(m: Rounds) {
    && 0 < |m.histories| == |m.queued|
    && m.timers + m.completions + (if m.pending > 0 then 1 else 0) <= 1
    && m.pending == Sum(m.queued)
    && Lengths(m) && AllReach(m.histories, |m.reports|)
    && forall r :: 0 <= r < |m.reports| ==> m.reports[r] == Report(m.histories, r)
  }

  lemma StartedLaws(k: nat)
    requires k > 0
    ensures RoundLaws(Started(k))
  {
    SumOfOnes(Started(k).queued);
  }

  lemma NothingQueued(m: Rounds, k: nat)
    requires RoundLaws(m) && m.pending == 0 && k < |m.queued|
    ensures m.queued[k] == 0 && |m.histories[k]| == |m.reports| + Underway(m)
  {
    SumUpdate(m.queued, k, 0);
  }

  lemma FireKeeps(m: Rounds)
    requires RoundLaws(m) && m.timers > 0
    ensures RoundLaws(Moved(m, TimerFires))
  {
    forall k | 0 <= k < |m.queued|
      ensures m.queued[k] == 0
    {
      NothingQueued(m, k);
    }
    SumOfOnes(m.queued);
  }

  /** A later snapshot leaves the earlier rounds as they were. */
  lemma {:induction false} RoundStays(histories: seq<seq<Snapshot>>, r: nat, n: nat, k: nat, snapshot: Snapshot)
    requires n <= |histories| && k < |histories| && forall i :: 0 <= i < n ==> r < |histories[i]|
    ensures Round(histories[k := histories[k] + [snapshot]], r, n) == Round(histories, r, n)
  {
    if n > 0 {
      RoundStays(histories, r, n - 1, k, snapshot);
    }
  }

  lemma RecordKeeps(m: Rounds, k: nat, snapshot: Snapshot)
    requires RoundLaws(m) && k < |m.queued| && m.queued[k] > 0
    ensures RoundLaws(Moved(m, ShardRecords(k, snapshot))) && m.pending > 0
  {
    SumUpdate(m.queued, k, m.queued[k] - 1);
    var h := m.histories[k := m.histories[k] + [snapshot]];
    assert AllReach(h, |m.reports|);
    forall r | 0 <= r < |m.reports|
      ensures m.reports[r] == Report(h, r)
    {
      RoundStays(m.histories, r, |h|, k, snapshot);
      if r > 0 {
        RoundStays(m.histories, r - 1, |h|, k, snapshot);
      }
    }
  }

  /** When all histories have the same length, the latest snapshots are those of one round. */
  lemma {:induction false} LatestIsRound(histories: seq<seq<Snapshot>>, length: nat, n: nat)
    requires n <= |histories| && length > 0 && forall k :: 0 <= k < |histories| ==> |histories[k]| == length
    ensures Latest(histories, n) == Round(histories, length - 1, n)
    ensures Previous(histories, n) == if length == 1 then EMPTY else Round(histories, length - 2, n)
  {
    if n > 0 {
      LatestIsRound(histories, length, n - 1);
    }
  }

  lemma AllRecorded(m: Rounds)
    requires RoundLaws(m) && m.completions > 0
    ensures m.pending == 0 && forall k :: 0 <= k < |m.histories| ==> m.queued[k] == 0
    ensures forall k :: 0 <= k < |m.histories| ==> |m.histories[k]| == |m.reports| + 1
  {
    forall k | 0 <= k < |m.histories|
      ensures m.queued[k] == 0 && |m.histories[k]| == |m.reports| + 1
    {
      NothingQueued(m, k);
    }
  }

  lemma NextReport(m: Rounds)
    requires CanMove(m, RoundCompletes)
    requires forall k :: 0 <= k < |m.histories| ==> |m.histories[k]| == |m.reports| + 1
    ensures AllReach(m.histories, |m.reports| + 1)
    ensures Moved(m, RoundCompletes) ==
            m.(completions := m.completions - 1, timers := m.timers + 1,
               reports := m.reports + [Report(m.histories, |m.reports|)])
  {
    LatestIsRound(m.histories, |m.reports| + 1, |m.histories|);
  }

  lemma CompleteKeeps(m: Rounds)
    requires RoundLaws(m) && m.completions > 0
    ensures RoundLaws(Moved(m, RoundCompletes))
    ensures forall k :: 0 <= k < |m.histories| ==> |m.histories[k]| == |m.reports| + 1
  {
    AllRecorded(m);
    NextReport(m);
    var reports := m.reports + [Report(m.histories, |m.reports|)];
    forall r | 0 <= r < |reports|
      ensures r < |m.reports| + 1 && reports[r] == Report(m.histories, r)
    {
    }
  }

  lemma MoveKeeps(m: Rounds, e: MetricsMove)
    requires RoundLaws(m) && CanMove(m, e)
    ensures RoundLaws(Moved(m, e))
  {
    match e
    case TimerFires => FireKeeps(m);
    case TimerCancelled =>
    case ShardRecords(k, snapshot) => RecordKeeps(m, k, snapshot);
    case RoundCompletes => CompleteKeeps(m);
  }

  ghost predicate PossibleRounds(m: Rounds, moves: seq<MetricsMove>)
    decreases |moves|
  {
    moves == [] || (CanMove(m, moves[0]) && PossibleRounds(Moved(m, moves[0]), moves[1..]))
  }

  ghost function RoundsAfter(m: Rounds, moves: seq<MetricsMove>): Rounds
    requires PossibleRounds(m, moves)
    decreases |moves|
  {
    if moves == [] then m else RoundsAfter(Moved(m, moves[0]), moves[1..])
  }

  lemma {:induction false} MovesKeep(m: Rounds, moves: seq<MetricsMove>)
    requires RoundLaws(m) && PossibleRounds(m, moves)
    ensures RoundLaws(RoundsAfter(m, moves))
    decreases |moves|
  {
    if moves != [] {
      MoveKeeps(m, moves[0]);
      MovesKeep(Moved(m, moves[0]), moves[1..]);
    }
  }

  // --- The main results ---

  /** In every reachable state at most one round is timed, under way or waiting to be reported, and whenever a
      report is due every shard has recorded exactly one snapshot for each round up to it. */
  lemma OneRoundAtATime(shards: nat, moves: seq<MetricsMove>)
    requires shards > 0 && PossibleRounds(Started(shards), moves)
    ensures var m := RoundsAfter(Started(shards), moves);
            && m.timers + m.completions + (if m.pending > 0 then 1 else 0) <= 1
            && (m.completions > 0 ==> forall k :: 0 <= k < |m.histories| ==> |m.histories[k]| == |m.reports| + 1)
            && (forall k :: 0 <= k < |m.queued| ==> m.queued[k] <= 1)
  {
    StartedLaws(shards);
    MovesKeep(Started(shards), moves);
    var m := RoundsAfter(Started(shards), moves);
    if m.completions > 0 {
      CompleteKeeps(m);
    }
  }

  /** The changes reported for figure `j`, added up. */
  ghost function TotalChange(reports: seq<Aggregate>, j: nat, n: nat): int
    requires n <= |reports| && j < FIGURES
  {
    if n == 0 then 0 else TotalChange(reports, j, n - 1) + reports[n - 1].change.At(j)
  }

  /** For every figure, the changes reported so far add up to the latest total, as long as that is below 2^63. */
  lemma ChangesTelescope(shards: nat, moves: seq<MetricsMove>, j: nat)
    requires shards > 0 && PossibleRounds(Started(shards), moves) && j < FIGURES
    requires RoundsAfter(Started(shards), moves).reports != []
    ensures var reports := RoundsAfter(Started(shards), moves).reports;
            var latest := reports[|reports| - 1].current.At(j);
            && TotalChange(reports, j, |reports|) == Signed(latest)
            && (latest < 0x8000_0000_0000_0000 ==> TotalChange(reports, j, |reports|) == latest)
  {
    StartedLaws(shards);
    MovesKeep(Started(shards), moves);
    var m := RoundsAfter(Started(shards), moves);
    TelescopesTo(m, j, |m.reports|);
  }

  lemma {:induction false} TelescopesTo(m: Rounds, j: nat, n: nat)
    requires RoundLaws(m) && j < FIGURES && 0 < n <= |m.reports|
    ensures TotalChange(m.reports, j, n) == Signed(m.reports[n - 1].current.At(j))
  {
    var previous := if n == 1 then EMPTY else m.reports[n - 2].current;
    assert m.reports[n - 1] == Report(m.histories, n - 1);
    if n > 1 {
      TelescopesTo(m, j, n - 1);
      assert m.reports[n - 2] == Report(m.histories, n - 2);
    }
    FigureByFigure(m.reports[n - 1].current, previous, j);
  }
}
