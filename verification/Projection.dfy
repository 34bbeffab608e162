/** The batch projector: completed items are projected once a second, first in first out, at most `capacity` a time. */
module Projection {
  import opened Sorting

  predicate Ascending(c: seq<nat>) {
    forall i, j :: 0 <= i < j < |c| ==> c[i] <= c[j]
  }

  /** The second in which item i is projected when nothing but the capacity holds it back. */
  function Slot(c: seq<nat>, capacity: nat, i: nat): nat
    requires capacity > 0 && i < |c|
    decreases i
  {
    var own := c[i] / 1000;
    if i < capacity then own
    else
      var after := Slot(c, capacity, i - capacity) + 1;
      if own < after then after else own
  }

  lemma {:induction false} SlotsAscend(c: seq<nat>, capacity: nat, i: nat, j: nat)
    requires capacity > 0 && Ascending(c) && i <= j < |c|
    ensures Slot(c, capacity, i) <= Slot(c, capacity, j)
    decreases i
  {
    if i < j {
      assert c[i] <= c[j];
    }
    if capacity <= i {
      SlotsAscend(c, capacity, i - capacity, j - capacity);
    }
  }

  /** An assignment of items to seconds: none before its completion, in order, at most `capacity` items a second. */
  ghost predicate Feasible(c: seq<nat>, capacity: nat, seconds: seq<nat>) {
    && |seconds| == |c|
    && (forall i :: 0 <= i < |c| ==> c[i] < (seconds[i] + 1) * 1000)
    && Ascending(seconds)
    && (forall i :: 0 <= i && i + capacity < |c| ==> seconds[i] < seconds[i + capacity])
  }

  /** The slots are feasible, and no feasible assignment projects any item earlier. */
  lemma SlotsAreFeasible(c: seq<nat>, capacity: nat)
    requires capacity > 0 && Ascending(c)
    ensures Feasible(c, capacity, seq(|c|, i requires 0 <= i < |c| => Slot(c, capacity, i)))
  {
    var slots := seq(|c|, i requires 0 <= i < |c| => Slot(c, capacity, i));
    forall i, j | 0 <= i < j < |c| ensures slots[i] <= slots[j] {
      SlotsAscend(c, capacity, i, j);
    }
  }

  lemma {:induction false} SlotsAreLeast(c: seq<nat>, capacity: nat, seconds: seq<nat>, i: nat)
    requires capacity > 0 && Feasible(c, capacity, seconds) && i < |c|
    ensures Slot(c, capacity, i) <= seconds[i]
    decreases i
  {
    if capacity <= i {
      SlotsAreLeast(c, capacity, seconds, i - capacity);
      assert seconds[i - capacity] < seconds[i - capacity + capacity];
    }
  }

  predicate Earlier(a: nat, b: nat) {
    a < b
  }

  /** The completion times in the order in which they are projected. */
  function Completed(times: seq<nat>): seq<nat> {
    Sorted(times, Earlier)
  }

  lemma CompletedOf(times: seq<nat>)
    ensures Ascending(Completed(times)) && multiset(Completed(times)) == multiset(times) && |Completed(times)| == |times|
  {
    SortedOf(times, Earlier);
  }

  // ---------------------------------------------------------------- the loop

  /** Everything completed before the end of second k is queued, and everything due before k is projected. */
  ghost predicate Progress(c: seq<nat>, capacity: nat, k: nat, done: nat)
    requires capacity > 0
  {
    && done <= |c|
    && (forall i: nat :: i < done ==> Slot(c, capacity, i) < k)
    && (forall i: nat :: done <= i < |c| ==> Slot(c, capacity, i) >= k)
  }

  /** The items completed before `projectedAt`, which the loop has queued. */
  ghost predicate Ingested(c: seq<nat>, next: nat, projectedAt: nat) {
    && next <= |c|
    && (forall i: nat :: i < next ==> c[i] < projectedAt)
    && (forall i: nat :: next <= i < |c| ==> c[i] >= projectedAt)
  }

  /** Projecting m queued items in second k, as many as the capacity and the queue allow, is what the slots say. */
  lemma SecondAdvances(c: seq<nat>, capacity: nat, k: nat, done: nat, next: nat, m: nat)
    requires capacity > 0 && Progress(c, capacity, k, done) && done <= next && Ingested(c, next, (k + 1) * 1000)
    requires m == if capacity <= next - done then capacity else next - done
    ensures Progress(c, capacity, k + 1, done + m)
    ensures forall i: nat :: done <= i < done + m ==> Slot(c, capacity, i) == k
  {
    forall i: nat | done <= i < done + m ensures Slot(c, capacity, i) == k {
      assert c[i] / 1000 <= k;
    }
    forall i: nat | done + m <= i < |c| ensures Slot(c, capacity, i) >= k + 1 {
      if next <= i {
        assert c[i] / 1000 >= k + 1;
      } else {
        assert Slot(c, capacity, i - capacity) >= k;
      }
    }
  }

  ghost predicate Recorded(c: seq<nat>, capacity: nat, latencies: seq<int>)
    requires capacity > 0
  {
    |latencies| <= |c| && forall i: nat :: i < |latencies| ==> latencies[i] == (Slot(c, capacity, i) + 1) * 1000 - c[i]
  }

  lemma RecordedNext(c: seq<nat>, capacity: nat, latencies: seq<int>, second: nat)
    requires capacity > 0 && Recorded(c, capacity, latencies) && |latencies| < |c| && Slot(c, capacity, |latencies|) == second
    ensures Recorded(c, capacity, latencies + [(second + 1) * 1000 - c[|latencies|]])
  {
  }

  lemma PositiveLatencies(c: seq<nat>, capacity: nat, latencies: seq<int>)
    requires capacity > 0 && Recorded(c, capacity, latencies)
    ensures forall i: nat :: i < |latencies| ==> latencies[i] > 0
  {
  }

  /** A second in which nothing is projected brings the next completion nearer. */
  lemma SecondNearer(c: seq<nat>, done: nat, second: nat)
    requires done < |c| && c[done] >= (second + 1) * 1000
    ensures SecondsAhead(c, done, second + 1) < SecondsAhead(c, done, second)
  {
  }

  ghost function SecondsAhead(c: seq<nat>, done: nat, second: nat): nat {
    if done < |c| && second <= c[done] / 1000 then c[done] / 1000 - second + 1 else 0
  }

  /** Queues what was completed before `projectedAt`. */
  method Ingest(c: seq<nat>, from: nat, projectedAt: nat) returns (arrived: seq<nat>, next: nat)
    requires Ascending(c) && from <= |c|
    requires forall i: nat :: i < from ==> c[i] < projectedAt
    ensures from <= next <= |c| && arrived == c[from..next] && Ingested(c, next, projectedAt)
  {
    arrived, next := [], from;
    while next < |c| && c[next] < projectedAt
      invariant from <= next <= |c| && arrived == c[from..next]
      invariant forall i: nat :: i < next ==> c[i] < projectedAt
    {
      arrived := arrived + [c[next]];
      next := next + 1;
    }
  }

  /** Takes the first `batch` items off the queue. */
  method ProjectBatch(ghost c: seq<nat>, ghost capacity: nat, ghost second: nat, ghost next: nat,
                      before: seq<int>, queue: seq<nat>, batch: nat, projectedAt: nat)
    returns (latencies: seq<int>, waiting: seq<nat>)
    requires capacity > 0 && Recorded(c, capacity, before) && |before| + batch <= next <= |c|
    requires queue == c[|before|..next] && projectedAt == (second + 1) * 1000
    requires forall i: nat :: |before| <= i < |before| + batch ==> Slot(c, capacity, i) == second
    ensures |latencies| == |before| + batch && waiting == c[|latencies|..next] && Recorded(c, capacity, latencies)
  {
    latencies, waiting := before, queue;
    for j := 0 to batch
      invariant |latencies| == |before| + j && waiting == c[|before| + j..next]
      invariant Recorded(c, capacity, latencies)
    {
      RecordedNext(c, capacity, latencies, second);
      latencies := latencies + [projectedAt - waiting[0]];
      waiting := waiting[1..];
    }
  }

  /** One positive latency per completion, in completion order, each item leaving in its slot. */
  method ProjectionLatencies(times: seq<nat>, capacity: nat) returns (latencies: seq<int>)
    requires capacity > 0
    ensures |latencies| == |times|
    ensures Recorded(Completed(times), capacity, latencies) && forall i: nat :: i < |latencies| ==> latencies[i] > 0
  {
    CompletedOf(times);
    var c := Completed(times);
    var waiting: seq<nat> := [];
    latencies := [];
    var next, second := 0, 0;
    while next < |c| || waiting != []
      invariant |latencies| <= next <= |c| && waiting == c[|latencies|..next]
      invariant forall i: nat :: i < next ==> c[i] < second * 1000
      invariant Progress(c, capacity, second, |latencies|)
      invariant Recorded(c, capacity, latencies)
      decreases |c| - |latencies|, SecondsAhead(c, |latencies|, second)
    {
      var projectedAt := (second + 1) * 1000;
      var arrived;
      arrived, next := Ingest(c, next, projectedAt);
      waiting := waiting + arrived;
      ghost var done := |latencies|;
      var batch := if capacity < |waiting| then capacity else |waiting|;
      SecondAdvances(c, capacity, second, done, next, batch);
      latencies, waiting := ProjectBatch(c, capacity, second, next, latencies, waiting, batch, projectedAt);
      if batch == 0 {
        SecondNearer(c, done, second);
      }
      second := second + 1;
    }
    PositiveLatencies(c, capacity, latencies);
  }
}
