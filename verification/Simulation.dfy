/**
 * The virtual-time capacity simulation: jobs arrive, wait in the worker admission queue, run
 * on at most `limit` servers, and ambient jobs that can no longer finish within their budget
 * expire at admission.
 *
 * Jobs are named by their index.  The admission queue and the heap of running jobs are kept
 * as sequences in removal order.
 */
module Simulation {
  import opened Basics

  const BUDGET_MS := 8_000

  datatype Lane = FAST | CONTINUATION | TEMPORAL | AMBIENT
  {
    function Priority(): nat {
      match this
      case FAST => 0
      case CONTINUATION => 1
      case TEMPORAL => 2
      case AMBIENT => 3
    }
  }

  datatype Kind = FastKind | AmbientKind | OtherKind

  datatype Job = Job(lane: Lane, arrivedAt: nat, duration: nat, cost: nat, kind: Kind)

  type Jobs = seq<Job>

  /** One server: when it finishes, in which order it was started, and its job. */
  datatype Running = Running(finish: nat, order: nat, job: nat)

  // ---------------------------------------------------------------- the two queues

  predicate Ahead(jobs: Jobs, i: nat, j: nat) {
    && i < |jobs| && j < |jobs|
    && (jobs[i].lane.Priority() < jobs[j].lane.Priority() || (jobs[i].lane == jobs[j].lane && i < j))
  }

  ghost predicate Indexes(jobs: Jobs, waiting: seq<nat>) {
    forall i :: i in waiting ==> i < |jobs|
  }

  ghost predicate InLaneOrder(jobs: Jobs, waiting: seq<nat>) {
    forall a, b :: 0 <= a < b < |waiting| ==> Ahead(jobs, waiting[a], waiting[b])
  }

  function Enqueued(jobs: Jobs, waiting: seq<nat>, i: nat): seq<nat> {
    if waiting == [] then [i]
    else if Ahead(jobs, i, waiting[0]) then [i] + waiting
    else [waiting[0]] + Enqueued(jobs, waiting[1..], i)
  }

  lemma {:induction false} EnqueuedOf(jobs: Jobs, waiting: seq<nat>, i: nat)
    requires Indexes(jobs, waiting) && i < |jobs| && InLaneOrder(jobs, waiting) && i !in waiting
    ensures |Enqueued(jobs, waiting, i)| == |waiting| + 1
    ensures forall j :: j in Enqueued(jobs, waiting, i) <==> j in waiting || j == i
    ensures InLaneOrder(jobs, Enqueued(jobs, waiting, i))
  {
    if waiting != [] && !Ahead(jobs, i, waiting[0]) {
      var rest := waiting[1..];
      assert waiting == [waiting[0]] + rest;
      assert forall a :: 0 <= a < |rest| ==> rest[a] == waiting[a + 1];
      assert waiting[0] in waiting;
      EnqueuedOf(jobs, rest, i);
      var all := Enqueued(jobs, waiting, i);
      forall b | 0 < b < |all| ensures Ahead(jobs, all[0], all[b]) {
        assert all[b] in Enqueued(jobs, rest, i);
        if all[b] != i {
          var k :| 0 <= k < |rest| && rest[k] == all[b];
          assert Ahead(jobs, waiting[0], waiting[k + 1]);
        }
      }
    }
  }

  predicate FinishOrdered(running: seq<Running>) {
    forall a, b :: 0 <= a < b < |running| ==> running[a].finish <= running[b].finish
  }

  /** A heap push: entries leave by finish time, then in the order they were started. */
  function Pushed(running: seq<Running>, r: Running): seq<Running> {
    if running == [] then [r]
    else if r.finish < running[0].finish then [r] + running
    else [running[0]] + Pushed(running[1..], r)
  }

  lemma {:induction false} PushedOf(running: seq<Running>, r: Running)
    requires FinishOrdered(running)
    ensures |Pushed(running, r)| == |running| + 1 && FinishOrdered(Pushed(running, r))
    ensures forall x :: x in Pushed(running, r) <==> x in running || x == r
  {
    if running != [] && r.finish >= running[0].finish {
      assert running == [running[0]] + running[1..];
      PushedOf(running[1..], r);
      var all := Pushed(running, r);
      forall b | 0 < b < |all| ensures all[0].finish <= all[b].finish {
        assert all[b] in Pushed(running[1..], r);
        if all[b] != r {
          var k :| 0 <= k < |running[1..]| && running[1..][k] == all[b];
          assert running[k + 1] == all[b];
        }
      }
    }
  }

  // ---------------------------------------------------------------- schedules

  type Times = map<nat, nat>

  ghost predicate Known(jobs: Jobs, starts: Times) {
    forall i :: i in starts ==> i < |jobs|
  }

  function Finish(jobs: Jobs, starts: Times, i: nat): nat
    requires i in starts && i < |jobs|
  {
    starts[i] + jobs[i].duration
  }

  /** The jobs being served at virtual time t. */
  ghost function Busy(jobs: Jobs, starts: Times, t: nat): set<nat>
    requires Known(jobs, starts)
  {
    set i | i in starts && starts[i] <= t < Finish(jobs, starts, i)
  }

  /** Job i has arrived by t and is neither started nor expired by then. */
  ghost predicate Waits(jobs: Jobs, starts: Times, lapses: Times, i: nat, t: nat)
    requires i < |jobs|
  {
    && jobs[i].arrivedAt <= t
    && (i in starts ==> t < starts[i])
    && (i in lapses ==> t < lapses[i])
  }

  ghost predicate DecidedBy(starts: Times, lapses: Times, i: nat, t: nat) {
    (i in starts && starts[i] <= t) || (i in lapses && lapses[i] <= t)
  }

  predicate ByArrival(jobs: Jobs) {
    forall i, j :: 0 <= i < j < |jobs| ==> jobs[i].arrivedAt <= jobs[j].arrivedAt
  }

  /** No job is decided before it arrives, and ambient jobs start exactly when they can still make their budget. */
  ghost predicate Timely(jobs: Jobs, starts: Times, lapses: Times) {
    && Known(jobs, starts) && Known(jobs, lapses) && starts.Keys !! lapses.Keys
    && (forall i :: i in starts ==>
          && jobs[i].arrivedAt <= starts[i]
          && (jobs[i].kind.AmbientKind? ==> Finish(jobs, starts, i) <= jobs[i].arrivedAt + BUDGET_MS))
    && (forall i :: i in lapses ==>
          && jobs[i].arrivedAt <= lapses[i]
          && jobs[i].kind.AmbientKind? && lapses[i] + jobs[i].duration > jobs[i].arrivedAt + BUDGET_MS)
  }

  /** Servers are never oversubscribed, and never idle while someone waits. */
  ghost predicate Loaded(jobs: Jobs, starts: Times, lapses: Times, limit: nat, t: nat)
    requires Known(jobs, starts)
  {
    && |Busy(jobs, starts, t)| <= limit
    && (ByArrival(jobs) ==>
          forall i :: 0 <= i < |jobs| && Waits(jobs, starts, lapses, i, t) ==> |Busy(jobs, starts, t)| == limit)
  }

  /** Whoever is ahead in the queue and has arrived is decided no later. */
  ghost predicate Fair(jobs: Jobs, starts: Times, lapses: Times, j: nat, d: nat)
    requires j < |jobs|
  {
    forall i :: 0 <= i < |jobs| && Ahead(jobs, i, j) && jobs[i].arrivedAt <= d ==> DecidedBy(starts, lapses, i, d)
  }

  ghost predicate AllFair(jobs: Jobs, starts: Times, lapses: Times)
    requires Known(jobs, starts) && Known(jobs, lapses)
  {
    && (forall j :: j in starts ==> Fair(jobs, starts, lapses, j, starts[j]))
    && (forall j :: j in lapses ==> Fair(jobs, starts, lapses, j, lapses[j]))
  }

  ghost predicate IsSchedule(jobs: Jobs, limit: nat, starts: Times, lapses: Times) {
    && Timely(jobs, starts, lapses)
    && (forall i :: 0 <= i < |jobs| ==> i in starts || i in lapses)
    && (forall t: nat :: Loaded(jobs, starts, lapses, limit, t))
    && (ByArrival(jobs) ==> AllFair(jobs, starts, lapses))
  }

  // ---------------------------------------------------------------- simulation states

  datatype Sim = Sim(
    next: nat,
    current: nat,
    waiting: seq<nat>,
    running: seq<Running>,
    starts: Times,
    lapses: Times,
    done: seq<nat>,
    started: nat)

  function Serving(running: seq<Running>): set<nat> {
    set r | r in running :: r.job
  }

  /** Every job that has arrived is in exactly one place. */
  ghost predicate Placed(jobs: Jobs, s: Sim) {
    && s.next <= |jobs|
    && (forall i: nat :: i < s.next <==> i in s.waiting || i in s.starts || i in s.lapses)
    && (forall i :: i in s.waiting ==> i !in s.starts && i !in s.lapses)
    && Indexes(jobs, s.waiting) && InLaneOrder(jobs, s.waiting)
    && Timely(jobs, s.starts, s.lapses)
    && (forall i :: i in s.starts ==> s.starts[i] <= s.current)
    && (forall i :: i in s.lapses ==> s.lapses[i] <= s.current)
    && (forall i :: i in s.waiting ==> jobs[i].arrivedAt <= s.current)
  }

  ghost predicate OnServers(jobs: Jobs, starts: Times, running: seq<Running>)
    requires Known(jobs, starts)
  {
    && FinishOrdered(running)
    && (forall a, b :: 0 <= a < b < |running| ==> running[a].job != running[b].job)
    && (forall r :: r in running ==> r.job in starts && r.finish == Finish(jobs, starts, r.job))
  }

  /** A started job is either on a server or finished. */
  ghost predicate Served(jobs: Jobs, s: Sim)
    requires Known(jobs, s.starts)
  {
    && NoRepeats(s.done)
    && (forall i :: i in s.done ==> i !in Serving(s.running) && i in s.starts && Finish(jobs, s.starts, i) <= s.current)
    && (forall i :: i in s.starts ==> i in s.done || i in Serving(s.running))
  }

  /** Servers before the present moment. */
  ghost predicate LoadedSoFar(jobs: Jobs, s: Sim, limit: nat)
    requires Known(jobs, s.starts)
  {
    forall t: nat :: t < s.current ==> Loaded(jobs, s.starts, s.lapses, limit, t)
  }

  ghost predicate NotOverdue(jobs: Jobs, s: Sim) {
    s.next < |jobs| ==> s.current <= jobs[s.next].arrivedAt
  }

  ghost predicate Inv(jobs: Jobs, s: Sim, limit: nat) {
    && (ByArrival(jobs) ==> NotOverdue(jobs, s))
    && Placed(jobs, s) && OnServers(jobs, s.starts, s.running) && Served(jobs, s) && LoadedSoFar(jobs, s, limit)
    && (ByArrival(jobs) ==> AllFair(jobs, s.starts, s.lapses))
    && |s.running| <= limit
  }

  // ---------------------------------------------------------------- steps

  function Arrived(jobs: Jobs, s: Sim): Sim
    requires s.next < |jobs|
  {
    s.(next := s.next + 1, waiting := Enqueued(jobs, s.waiting, s.next))
  }

  function Retired(s: Sim): Sim
    requires s.running != []
  {
    s.(running := s.running[1..], done := s.done + [s.running[0].job])
  }

  predicate TooLate(jobs: Jobs, s: Sim)
    requires s.waiting != [] && s.waiting[0] < |jobs|
  {
    var job := jobs[s.waiting[0]];
    job.kind.AmbientKind? && s.current + job.duration > job.arrivedAt + BUDGET_MS
  }

  function Lapsed(s: Sim): Sim
    requires s.waiting != []
  {
    s.(waiting := s.waiting[1..], lapses := s.lapses[s.waiting[0] := s.current])
  }

  function Admitted(jobs: Jobs, s: Sim): Sim
    requires s.waiting != [] && s.waiting[0] < |jobs|
  {
    var i := s.waiting[0];
    s.(waiting := s.waiting[1..], starts := s.starts[i := s.current],
       running := Pushed(s.running, Running(s.current + jobs[i].duration, s.started, i)),
       started := s.started + 1)
  }

  lemma ArrivedKeepsInv(jobs: Jobs, s: Sim, limit: nat)
    requires Inv(jobs, s, limit) && s.next < |jobs| && jobs[s.next].arrivedAt <= s.current
    ensures Inv(jobs, Arrived(jobs, s), limit)
  {
    EnqueuedOf(jobs, s.waiting, s.next);
    var s' := Arrived(jobs, s);
    assert Placed(jobs, s');
    assert LoadedSoFar(jobs, s', limit);
  }

  lemma FirstServer(running: seq<Running>)
    requires running != [] && forall a, b :: 0 <= a < b < |running| ==> running[a].job != running[b].job
    ensures running[0].job in Serving(running) && Serving(running[1..]) == Serving(running) - {running[0].job}
  {
    var r, rest := running[0], running[1..];
    assert running == [r] + rest;
    assert r in running;
    forall x | x in rest ensures x in running && x.job != r.job {
      var k :| 0 <= k < |rest| && rest[k] == x;
      assert running[0].job != running[k + 1].job;
    }
    forall i | i in Serving(running) && i != r.job ensures i in Serving(rest) {
      var x :| x in running && x.job == i;
      assert x in rest;
    }
  }

  lemma RetiredKeepsServers(jobs: Jobs, starts: Times, running: seq<Running>)
    requires Known(jobs, starts) && OnServers(jobs, starts, running) && running != []
    ensures OnServers(jobs, starts, running[1..])
  {
    var rest := running[1..];
    assert running == [running[0]] + rest;
    forall a, b | 0 <= a < b < |rest| ensures rest[a].job != rest[b].job && rest[a].finish <= rest[b].finish {
      assert running[a + 1].job != running[b + 1].job && running[a + 1].finish <= running[b + 1].finish;
    }
  }

  lemma RetiredIsServed(jobs: Jobs, s: Sim)
    requires Known(jobs, s.starts) && OnServers(jobs, s.starts, s.running) && Served(jobs, s)
    requires s.running != [] && s.running[0].finish <= s.current
    ensures Served(jobs, Retired(s))
  {
    FirstServer(s.running);
    assert s.running[0] in s.running;
    assert s.running[0].job !in s.done;
  }

  lemma RetiredKeepsInv(jobs: Jobs, s: Sim, limit: nat)
    requires Inv(jobs, s, limit) && s.running != [] && s.running[0].finish <= s.current
    ensures Inv(jobs, Retired(s), limit)
  {
    RetiredIsServed(jobs, s);
    RetiredKeepsServers(jobs, s.starts, s.running);
  }

  /** A decision at the present moment does not change the past. */
  lemma PastIsSettled(jobs: Jobs, s: Sim, s': Sim, i: nat, limit: nat)
    requires Known(jobs, s.starts) && Known(jobs, s'.starts) && i !in s.starts && i !in s.lapses
    requires s'.current == s.current
    requires (s'.starts == s.starts[i := s.current] && s'.lapses == s.lapses)
             || (s'.starts == s.starts && s'.lapses == s.lapses[i := s.current])
    requires LoadedSoFar(jobs, s, limit)
    ensures LoadedSoFar(jobs, s', limit)
  {
    forall t: nat | t < s.current ensures Loaded(jobs, s'.starts, s'.lapses, limit, t) {
      assert Loaded(jobs, s.starts, s.lapses, limit, t);
      assert Busy(jobs, s'.starts, t) == Busy(jobs, s.starts, t);
      forall j | 0 <= j < |jobs| && Waits(jobs, s'.starts, s'.lapses, j, t) ensures Waits(jobs, s.starts, s.lapses, j, t) {
      }
    }
  }

  /** Taking the head of the queue is fair: whoever is ahead of it has been decided. */
  lemma HeadIsFair(jobs: Jobs, s: Sim, limit: nat, starts: Times, lapses: Times)
    requires Inv(jobs, s, limit) && s.waiting != [] && ByArrival(jobs)
    requires s.waiting[0] < |jobs| && (s.next < |jobs| ==> s.current < jobs[s.next].arrivedAt)
    requires s.starts.Keys <= starts.Keys && s.lapses.Keys <= lapses.Keys
    requires forall i :: i in s.starts ==> starts[i] == s.starts[i]
    requires forall i :: i in s.lapses ==> lapses[i] == s.lapses[i]
    ensures Fair(jobs, starts, lapses, s.waiting[0], s.current)
  {
    var j := s.waiting[0];
    forall k | 0 <= k < |s.waiting| ensures !Ahead(jobs, s.waiting[k], j) {
      assert k > 0 ==> Ahead(jobs, s.waiting[0], s.waiting[k]);
    }
    forall i | 0 <= i < |jobs| && Ahead(jobs, i, j) && jobs[i].arrivedAt <= s.current
      ensures DecidedBy(starts, lapses, i, s.current)
    {
      assert i < s.next && i !in s.waiting;
    }
  }

  lemma FairStays(jobs: Jobs, s: Sim, s': Sim, i: nat)
    requires Known(jobs, s.starts) && Known(jobs, s.lapses) && Known(jobs, s'.starts) && Known(jobs, s'.lapses)
    requires i < |jobs| && i !in s.starts && i !in s.lapses && Fair(jobs, s'.starts, s'.lapses, i, s.current)
    requires (s'.starts == s.starts[i := s.current] && s'.lapses == s.lapses)
             || (s'.starts == s.starts && s'.lapses == s.lapses[i := s.current])
    requires AllFair(jobs, s.starts, s.lapses)
    ensures AllFair(jobs, s'.starts, s'.lapses)
  {
    forall j: nat, d: nat | j < |jobs| && Fair(jobs, s.starts, s.lapses, j, d) ensures Fair(jobs, s'.starts, s'.lapses, j, d) {
      forall k | 0 <= k < |jobs| && Ahead(jobs, k, j) && jobs[k].arrivedAt <= d ensures DecidedBy(s'.starts, s'.lapses, k, d) {
        assert DecidedBy(s.starts, s.lapses, k, d);
      }
    }
  }

  /** What both decisions have in common. */
  lemma HeadLeaves(jobs: Jobs, waiting: seq<nat>)
    requires Indexes(jobs, waiting) && InLaneOrder(jobs, waiting) && waiting != []
    ensures var i := waiting[0]; var rest := waiting[1..];
            && i in waiting && i < |jobs| && i !in rest
            && (forall j :: j in waiting <==> j in rest || j == i)
            && Indexes(jobs, rest) && InLaneOrder(jobs, rest)
  {
    var i, rest := waiting[0], waiting[1..];
    assert waiting == [i] + rest;
    assert forall a :: 0 <= a < |rest| ==> rest[a] == waiting[a + 1];
    forall a | 0 <= a < |rest| ensures rest[a] != i {
      assert Ahead(jobs, waiting[0], waiting[a + 1]);
    }
  }

  lemma LapsedIsPlaced(jobs: Jobs, s: Sim)
    requires Placed(jobs, s) && s.waiting != [] && s.waiting[0] < |jobs| && TooLate(jobs, s)
    ensures Placed(jobs, Lapsed(s))
  {
    HeadLeaves(jobs, s.waiting);
  }

  lemma AdmittedIsPlaced(jobs: Jobs, s: Sim)
    requires Placed(jobs, s) && s.waiting != [] && s.waiting[0] < |jobs| && !TooLate(jobs, s)
    ensures Placed(jobs, Admitted(jobs, s))
  {
    HeadLeaves(jobs, s.waiting);
  }

  lemma LapsedKeepsInv(jobs: Jobs, s: Sim, limit: nat)
    requires Inv(jobs, s, limit) && s.waiting != [] && s.waiting[0] < |jobs| && TooLate(jobs, s)
    requires s.next < |jobs| ==> s.current < jobs[s.next].arrivedAt
    ensures Inv(jobs, Lapsed(s), limit)
  {
    var i, s' := s.waiting[0], Lapsed(s);
    LapsedIsPlaced(jobs, s);
    assert i in s.waiting;
    PastIsSettled(jobs, s, s', i, limit);
    if ByArrival(jobs) {
      HeadIsFair(jobs, s, limit, s'.starts, s'.lapses);
      FairStays(jobs, s, s', i);
    }
  }

  lemma NewServer(running: seq<Running>, r: Running)
    requires FinishOrdered(running)
    ensures Serving(Pushed(running, r)) == Serving(running) + {r.job}
  {
    PushedOf(running, r);
    assert r in Pushed(running, r);
    forall i | i in Serving(running) ensures i in Serving(Pushed(running, r)) {
      var x :| x in running && x.job == i;
      assert x in Pushed(running, r);
    }
  }

  lemma AdmittedKeepsServers(jobs: Jobs, s: Sim)
    requires Known(jobs, s.starts) && OnServers(jobs, s.starts, s.running)
    requires s.waiting != [] && s.waiting[0] < |jobs| && s.waiting[0] !in s.starts
    ensures OnServers(jobs, Admitted(jobs, s).starts, Admitted(jobs, s).running)
  {
    var i := s.waiting[0];
    var r := Running(s.current + jobs[i].duration, s.started, i);
    PushedOf(s.running, r);
    PushedKeepsDistinct(s.running, r);
  }

  lemma AdmittedIsServed(jobs: Jobs, s: Sim)
    requires Known(jobs, s.starts) && FinishOrdered(s.running) && Served(jobs, s)
    requires s.waiting != [] && s.waiting[0] < |jobs| && s.waiting[0] !in s.starts
    ensures Served(jobs, Admitted(jobs, s))
  {
    var i := s.waiting[0];
    var s' := Admitted(jobs, s);
    NewServer(s.running, Running(s.current + jobs[i].duration, s.started, i));
    AdmittedKeepsDone(jobs, s, s', i);
  }

  lemma AdmittedKeepsDone(jobs: Jobs, s: Sim, s': Sim, i: nat)
    requires Known(jobs, s.starts) && Known(jobs, s'.starts) && Served(jobs, s) && i !in s.starts
    requires s'.starts == s.starts[i := s.current] && s'.done == s.done && s'.current == s.current
    requires Serving(s'.running) == Serving(s.running) + {i}
    ensures Served(jobs, s')
  {
    forall k | k in s.done ensures k !in Serving(s'.running) && k in s'.starts && Finish(jobs, s'.starts, k) <= s'.current {
      assert k in s.starts && k != i;
    }
  }

  lemma {:induction false} PushedKeepsDistinct(running: seq<Running>, r: Running)
    requires FinishOrdered(running)
    requires forall a, b :: 0 <= a < b < |running| ==> running[a].job != running[b].job
    requires forall x :: x in running ==> x.job != r.job
    ensures forall a, b :: 0 <= a < b < |Pushed(running, r)| ==> Pushed(running, r)[a].job != Pushed(running, r)[b].job
  {
    if running != [] && r.finish >= running[0].finish {
      var rest, all := running[1..], Pushed(running, r);
      assert running == [running[0]] + rest;
      PushedKeepsDistinct(rest, r);
      PushedOf(rest, r);
      forall b | 0 < b < |all| ensures all[0].job != all[b].job {
        assert all[b] in Pushed(rest, r);
        if all[b] != r {
          var k :| 0 <= k < |rest| && rest[k] == all[b];
          assert running[0].job != running[k + 1].job;
        }
      }
    }
  }

  lemma AdmittedKeepsInv(jobs: Jobs, s: Sim, limit: nat)
    requires Inv(jobs, s, limit) && s.waiting != [] && s.waiting[0] < |jobs| && !TooLate(jobs, s)
    requires |s.running| < limit
    requires s.next < |jobs| ==> s.current < jobs[s.next].arrivedAt
    ensures Inv(jobs, Admitted(jobs, s), limit)
    ensures |Admitted(jobs, s).running| == |s.running| + 1
  {
    var i, s' := s.waiting[0], Admitted(jobs, s);
    AdmittedIsPlaced(jobs, s);
    assert i in s.waiting;
    PastIsSettled(jobs, s, s', i, limit);
    AdmittedIsServed(jobs, s);
    AdmittedKeepsServers(jobs, s);
    if ByArrival(jobs) {
      HeadIsFair(jobs, s, limit, s'.starts, s'.lapses);
      FairStays(jobs, s, s', i);
    }
    PushedOf(s.running, Running(s.current + jobs[i].duration, s.started, i));
  }

  lemma {:induction false} ServersCounted(running: seq<Running>)
    requires forall a, b :: 0 <= a < b < |running| ==> running[a].job != running[b].job
    ensures |Serving(running)| == |running|
  {
    if running != [] {
      var rest := running[1..];
      assert forall a :: 0 <= a < |rest| ==> rest[a] == running[a + 1];
      ServersCounted(rest);
      FirstServer(running);
    }
  }

  /** Between two events the jobs on the servers are exactly the busy ones. */
  lemma BusyIsServing(jobs: Jobs, s: Sim, t: nat)
    requires Known(jobs, s.starts) && OnServers(jobs, s.starts, s.running) && Served(jobs, s)
    requires forall i :: i in s.starts ==> s.starts[i] <= s.current
    requires s.current <= t && forall r :: r in s.running ==> t < r.finish
    ensures Busy(jobs, s.starts, t) == Serving(s.running)
  {
    forall i | i in Serving(s.running) ensures i in Busy(jobs, s.starts, t) {
      var r :| r in s.running && r.job == i;
    }
  }

  /** Time passes to the next event only when the servers are full or nobody waits. */
  lemma TimePasses(jobs: Jobs, s: Sim, limit: nat, to: nat)
    requires Inv(jobs, s, limit) && s.current <= to
    requires forall r :: r in s.running ==> to <= r.finish
    requires s.next < |jobs| ==> to <= jobs[s.next].arrivedAt
    requires |s.running| == limit || s.waiting == []
    ensures Inv(jobs, s.(current := to), limit)
  {
    ServersCounted(s.running);
    forall t: nat | s.current <= t < to ensures Loaded(jobs, s.starts, s.lapses, limit, t) {
      BusyIsServing(jobs, s, t);
      forall i | 0 <= i < |jobs| && Waits(jobs, s.starts, s.lapses, i, t) && ByArrival(jobs)
        ensures |Busy(jobs, s.starts, t)| == limit
      {
        assert i < s.next && i in s.waiting;
      }
    }
  }

  // ---------------------------------------------------------------- reported figures

  function LatencyOf(jobs: Jobs, starts: Times, i: nat): int {
    if i in starts && i < |jobs| then starts[i] + jobs[i].duration - jobs[i].arrivedAt else 0
  }

  function IsKind(jobs: Jobs, i: nat, kind: Kind): bool {
    i < |jobs| && jobs[i].kind == kind
  }

  /** Latencies of the finished jobs of one kind, in completion order. */
  function Latencies(jobs: Jobs, starts: Times, done: seq<nat>, kind: Kind): seq<int> {
    if done == [] then []
    else
      var last := done[|done| - 1];
      Latencies(jobs, starts, done[..|done| - 1], kind) + if IsKind(jobs, last, kind) then [LatencyOf(jobs, starts, last)] else []
  }

  function Completions(jobs: Jobs, starts: Times, done: seq<nat>): seq<int> {
    if done == [] then []
    else
      var last := done[|done| - 1];
      Completions(jobs, starts, done[..|done| - 1])
      + if IsKind(jobs, last, FastKind) || IsKind(jobs, last, AmbientKind) then [LatencyOf(jobs, starts, last) + jobs[last].arrivedAt]
        else []
  }

  /** Cost units of the started jobs below index n. */
  function Cost(jobs: Jobs, starts: set<nat>, n: nat): nat
    requires n <= |jobs|
  {
    if n == 0 then 0 else Cost(jobs, starts, n - 1) + if n - 1 in starts then jobs[n - 1].cost else 0
  }

  lemma {:induction false} FiguresStay(jobs: Jobs, starts: Times, i: nat, at: nat, done: seq<nat>, kind: Kind)
    requires i !in done
    ensures Latencies(jobs, starts[i := at], done, kind) == Latencies(jobs, starts, done, kind)
    ensures Completions(jobs, starts[i := at], done) == Completions(jobs, starts, done)
  {
    if done != [] {
      FiguresStay(jobs, starts, i, at, done[..|done| - 1], kind);
    }
  }

  lemma {:induction false} CostOfOneMore(jobs: Jobs, starts: set<nat>, i: nat, n: nat)
    requires n <= |jobs| && i !in starts
    ensures Cost(jobs, starts + {i}, n) == Cost(jobs, starts, n) + if i < n then jobs[i].cost else 0
  {
    if n > 0 {
      CostOfOneMore(jobs, starts, i, n - 1);
    }
  }

  // ---------------------------------------------------------------- the loop

  datatype Report = Report(
    fastLatency: seq<int>,
    ambientLatency: seq<int>,
    completions: seq<int>,
    peak: nat,
    directAhead: nat,
    ambientExpired: nat,
    cost: nat)
  {
    function Counters(): (nat, nat, nat, nat) {
      (peak, directAhead, ambientExpired, cost)
    }
  }

  ghost predicate IsReport(jobs: Jobs, starts: Times, lapses: Times, done: seq<nat>, r: Report) {
    && r.fastLatency == Latencies(jobs, starts, done, FastKind)
    && r.ambientLatency == Latencies(jobs, starts, done, AmbientKind)
    && r.completions == Completions(jobs, starts, done)
    && r.ambientExpired == |lapses|
    && r.cost == Cost(jobs, starts.Keys, |jobs|)
  }

  ghost predicate Completed(jobs: Jobs, s: Sim, r: Report) {
    && r.fastLatency == Latencies(jobs, s.starts, s.done, FastKind)
    && r.ambientLatency == Latencies(jobs, s.starts, s.done, AmbientKind)
    && r.completions == Completions(jobs, s.starts, s.done)
  }

  ghost predicate Spent(jobs: Jobs, s: Sim, r: Report) {
    r.ambientExpired == |s.lapses| && r.cost == Cost(jobs, s.starts.Keys, |jobs|)
  }

  /** The loop head: unless everything is over, some event is due now. */
  ghost predicate Ready(jobs: Jobs, s: Sim) {
    || (s.running == [] && s.waiting == [])
    || (s.running != [] && s.running[0].finish <= s.current)
    || (s.next < |jobs| && jobs[s.next].arrivedAt <= s.current)
  }

  function Owed(jobs: Jobs, s: Sim): int {
    3 * (|jobs| - s.next) + 2 * |s.waiting| + |s.running|
  }

  predicate Arriving(jobs: Jobs, s: Sim) {
    s.next < |jobs| && jobs[s.next].arrivedAt <= s.current
  }

  predicate Finished(s: Sim) {
    s.running != [] && s.running[0].finish <= s.current
  }

  predicate Admitting(jobs: Jobs, s: Sim, limit: nat) {
    |s.running| < limit && s.waiting != [] && s.waiting[0] < |jobs|
  }

  /** The three inner loops, each carried through to its end. */
  function AllArrived(jobs: Jobs, s: Sim): Sim
    decreases |jobs| - s.next
  {
    if Arriving(jobs, s) then AllArrived(jobs, Arrived(jobs, s)) else s
  }

  function AllRetired(s: Sim): Sim
    decreases |s.running|
  {
    if Finished(s) then AllRetired(Retired(s)) else s
  }

  function Decided(jobs: Jobs, s: Sim): Sim
    requires s.waiting != [] && s.waiting[0] < |jobs|
  {
    if TooLate(jobs, s) then Lapsed(s) else Admitted(jobs, s)
  }

  function AllAdmitted(jobs: Jobs, s: Sim, limit: nat): Sim
    decreases |s.waiting|
  {
    if Admitting(jobs, s, limit) then AllAdmitted(jobs, Decided(jobs, s), limit) else s
  }

  lemma {:induction false} AllArrivedKeepsInv(jobs: Jobs, s: Sim, limit: nat)
    requires Inv(jobs, s, limit)
    ensures var e := AllArrived(jobs, s);
            && Inv(jobs, e, limit) && !Arriving(jobs, e)
            && e == s.(next := e.next, waiting := e.waiting)
            && Owed(jobs, e) <= Owed(jobs, s) && (Arriving(jobs, s) ==> Owed(jobs, e) < Owed(jobs, s))
    decreases |jobs| - s.next
  {
    if Arriving(jobs, s) {
      ArrivedKeepsInv(jobs, s, limit);
      EnqueuedOf(jobs, s.waiting, s.next);
      AllArrivedKeepsInv(jobs, Arrived(jobs, s), limit);
    }
  }

  lemma {:induction false} AllRetiredKeepsInv(jobs: Jobs, s: Sim, limit: nat)
    requires Inv(jobs, s, limit)
    ensures var e := AllRetired(s);
            && Inv(jobs, e, limit) && !Finished(e)
            && e == s.(running := e.running, done := e.done)
            && Owed(jobs, e) <= Owed(jobs, s) && (Finished(s) ==> Owed(jobs, e) < Owed(jobs, s))
    decreases |s.running|
  {
    if Finished(s) {
      RetiredKeepsInv(jobs, s, limit);
      AllRetiredKeepsInv(jobs, Retired(s), limit);
    }
  }

  ghost predicate NoneOverdue(s: Sim) {
    forall x :: x in s.running ==> s.current <= x.finish
  }

  lemma DecidedKeepsInv(jobs: Jobs, s: Sim, limit: nat)
    requires Inv(jobs, s, limit) && Admitting(jobs, s, limit) && !Arriving(jobs, s) && NoneOverdue(s)
    ensures Inv(jobs, Decided(jobs, s), limit) && NoneOverdue(Decided(jobs, s))
    ensures Owed(jobs, Decided(jobs, s)) < Owed(jobs, s)
  {
    if TooLate(jobs, s) {
      LapsedKeepsInv(jobs, s, limit);
    } else {
      AdmittedKeepsInv(jobs, s, limit);
      PushedOf(s.running, Running(s.current + jobs[s.waiting[0]].duration, s.started, s.waiting[0]));
    }
  }

  lemma {:induction false} AllAdmittedKeepsInv(jobs: Jobs, s: Sim, limit: nat)
    requires Inv(jobs, s, limit) && !Arriving(jobs, s) && NoneOverdue(s)
    ensures var e := AllAdmitted(jobs, s, limit);
            && Inv(jobs, e, limit) && NoneOverdue(e)
            && e.next == s.next && e.current == s.current
            && (|e.running| == limit || e.waiting == [])
            && Owed(jobs, e) <= Owed(jobs, s)
    decreases |s.waiting|
  {
    assert s.waiting != [] ==> s.waiting[0] in s.waiting;
    if Admitting(jobs, s, limit) {
      DecidedKeepsInv(jobs, s, limit);
      AllAdmittedKeepsInv(jobs, Decided(jobs, s), limit);
    }
  }

  /** The clock at the top of a round: an empty system jumps to the next arrival. */
  function Woken(jobs: Jobs, s: Sim): Sim {
    if s.running == [] && s.waiting == [] && s.next < |jobs| then s.(current := jobs[s.next].arrivedAt) else s
  }

  /** The clock at the end of a round: the next finish or arrival, whichever is first. */
  function Advanced(jobs: Jobs, s: Sim): Sim {
    if s.running != [] && (s.next >= |jobs| || s.running[0].finish <= jobs[s.next].arrivedAt) then
      s.(current := s.running[0].finish)
    else if s.next < |jobs| then s.(current := jobs[s.next].arrivedAt)
    else s
  }

  function Round(jobs: Jobs, s: Sim, limit: nat): Sim {
    Advanced(jobs, AllAdmitted(jobs, Cleared(jobs, s), limit))
  }

  ghost predicate AtHead(jobs: Jobs, s: Sim, limit: nat) {
    Inv(jobs, s, limit) && NotOverdue(jobs, s) && Ready(jobs, s) && NoneOverdue(s)
  }

  lemma WokenKeepsInv(jobs: Jobs, s: Sim, limit: nat)
    requires AtHead(jobs, s, limit) && (s.next < |jobs| || s.running != [] || s.waiting != [])
    ensures Inv(jobs, Woken(jobs, s), limit) && NoneOverdue(Woken(jobs, s))
    ensures Arriving(jobs, Woken(jobs, s)) || Finished(Woken(jobs, s))
    ensures s.current <= Woken(jobs, s).current && Owed(jobs, Woken(jobs, s)) == Owed(jobs, s)
  {
    if s.running == [] && s.waiting == [] && s.next < |jobs| {
      TimePasses(jobs, s, limit, jobs[s.next].arrivedAt);
    }
  }

  lemma AdvancedKeepsInv(jobs: Jobs, s: Sim, limit: nat)
    requires Inv(jobs, s, limit) && !Arriving(jobs, s) && NoneOverdue(s) && (|s.running| == limit || s.waiting == []) && limit >= 1
    ensures AtHead(jobs, Advanced(jobs, s), limit) && s.current <= Advanced(jobs, s).current
  {
    assert s.running != [] ==> s.running[0] in s.running;
    TimePasses(jobs, s, limit, Advanced(jobs, s).current);
  }

  /** The first half of a round, up to the admissions. */
  function Cleared(jobs: Jobs, s: Sim): Sim {
    AllRetired(AllArrived(jobs, Woken(jobs, s)))
  }

  lemma ClearedKeepsInv(jobs: Jobs, s: Sim, limit: nat)
    requires AtHead(jobs, s, limit) && (s.next < |jobs| || s.running != [] || s.waiting != [])
    ensures var e := Cleared(jobs, s);
            && Inv(jobs, e, limit) && NoneOverdue(e) && !Arriving(jobs, e)
            && s.current <= e.current && Owed(jobs, e) < Owed(jobs, s)
            && e.starts == s.starts && e.lapses == s.lapses
  {
    var w := Woken(jobs, s);
    WokenKeepsInv(jobs, s, limit);
    AllArrivedKeepsInv(jobs, w, limit);
    AllRetiredKeepsInv(jobs, AllArrived(jobs, w), limit);
    FirstFinishesFirst(Cleared(jobs, s));
  }

  /** A round keeps the invariant, never turns the clock back, and brings the end closer. */
  lemma RoundKeepsInv(jobs: Jobs, s: Sim, limit: nat)
    requires AtHead(jobs, s, limit) && limit >= 1 && (s.next < |jobs| || s.running != [] || s.waiting != [])
    ensures AtHead(jobs, Round(jobs, s, limit), limit)
    ensures s.current <= Round(jobs, s, limit).current
    ensures 0 <= Owed(jobs, Round(jobs, s, limit)) < Owed(jobs, s)
  {
    ClearedKeepsInv(jobs, s, limit);
    AllAdmittedKeepsInv(jobs, Cleared(jobs, s), limit);
    AdvancedKeepsInv(jobs, AllAdmitted(jobs, Cleared(jobs, s), limit), limit);
    OwedUnlessAdvanced(jobs, AllAdmitted(jobs, Cleared(jobs, s), limit));
  }

  lemma OwedUnlessAdvanced(jobs: Jobs, s: Sim)
    ensures Owed(jobs, Advanced(jobs, s)) == Owed(jobs, s)
    ensures s.next <= |jobs| ==> Owed(jobs, s) >= 0
  {
  }

  lemma FirstFinishesFirst(s: Sim)
    requires FinishOrdered(s.running) && !Finished(s)
    ensures NoneOverdue(s)
  {
  }

  lemma {:induction false} EnqueuedHas(jobs: Jobs, waiting: seq<nat>, i: nat)
    ensures forall j :: j in Enqueued(jobs, waiting, i) <==> j in waiting || j == i
  {
    var all := Enqueued(jobs, waiting, i);
    if waiting != [] && !Ahead(jobs, i, waiting[0]) {
      EnqueuedHas(jobs, waiting[1..], i);
      assert waiting == [waiting[0]] + waiting[1..];
      assert all == [waiting[0]] + Enqueued(jobs, waiting[1..], i);
      forall j ensures j in all <==> j in waiting || j == i {
        assert j in waiting <==> j == waiting[0] || j in waiting[1..];
      }
    } else {
      assert all == [i] + waiting;
    }
  }

  /** Exactly the jobs that have arrived, in order, join the queue. */
  method EnqueueArrivals(jobs: Jobs, s0: Sim) returns (s: Sim)
    ensures s == AllArrived(jobs, s0)
    ensures s == s0.(next := s.next, waiting := s.waiting) && s0.next <= s.next && !Arriving(jobs, s)
    ensures s.next == s0.next || s.next <= |jobs|
    ensures forall i :: s0.next <= i < s.next && i < |jobs| ==> jobs[i].arrivedAt <= s.current
    ensures forall i :: i in s.waiting <==> i in s0.waiting || s0.next <= i < s.next
  {
    s := s0;
    while s.next < |jobs| && jobs[s.next].arrivedAt <= s.current
      invariant AllArrived(jobs, s) == AllArrived(jobs, s0)
      invariant s == s0.(next := s.next, waiting := s.waiting) && s0.next <= s.next
      invariant s.next == s0.next || s.next <= |jobs|
      invariant forall i :: s0.next <= i < s.next && i < |jobs| ==> jobs[i].arrivedAt <= s.current
      invariant forall i :: i in s.waiting <==> i in s0.waiting || s0.next <= i < s.next
      decreases |jobs| - s.next
    {
      EnqueuedHas(jobs, s.waiting, s.next);
      s := s.(waiting := Enqueued(jobs, s.waiting, s.next), next := s.next + 1);
    }
  }

  /** The first n jobs on the servers are finished, and they alone leave. */
  ghost predicate Leave(s0: Sim, s: Sim, n: nat) {
    && n <= |s0.running| && s == s0.(running := s.running, done := s.done) && s.running == s0.running[n..]
    && s.done == s0.done + seq(n, k requires 0 <= k < n <= |s0.running| => s0.running[k].job)
    && (forall k :: 0 <= k < n ==> s0.running[k].finish <= s0.current)
  }

  lemma LeaveNext(s0: Sim, s: Sim, n: nat)
    requires Leave(s0, s, n) && s.running != [] && s.running[0].finish <= s.current
    ensures Leave(s0, Retired(s), n + 1)
  {
    assert s.running[0] == s0.running[n];
  }

  method RetireFinished(jobs: Jobs, s0: Sim, r0: Report) returns (s: Sim, r: Report)
    requires Known(jobs, s0.starts) && OnServers(jobs, s0.starts, s0.running) && Completed(jobs, s0, r0)
    ensures s == AllRetired(s0) && Completed(jobs, s, r)
    ensures r.Counters() == r0.Counters()
    ensures |s.running| <= |s0.running| && Leave(s0, s, |s0.running| - |s.running|)
    ensures forall x :: x in s.running ==> s.current < x.finish
  {
    s, r := s0, r0;
    while s.running != [] && s.running[0].finish <= s.current
      invariant s.starts == s0.starts && OnServers(jobs, s.starts, s.running) && AllRetired(s) == AllRetired(s0)
      invariant Completed(jobs, s, r) && r.Counters() == r0.Counters()
      decreases |s.running|
    {
      RetiredKeepsServers(jobs, s.starts, s.running);
      s, r := RetireNext(jobs, s, r);
    }
    RetiringStarts(jobs, s0);
    AllRetiredLeave(jobs, s0, s0);
    RetiringEnds(jobs, s0, s);
  }

  lemma {:induction false} AllRetiredLeave(jobs: Jobs, s0: Sim, s: Sim)
    requires Retiring(jobs, s0, s)
    ensures Retiring(jobs, s0, AllRetired(s)) && !Finished(AllRetired(s))
    decreases |s.running|
  {
    if Finished(s) {
      RetiringNext(jobs, s0, s);
      AllRetiredLeave(jobs, s0, Retired(s));
    }
  }

  /** Some finished jobs have left their servers. */
  ghost predicate Retiring(jobs: Jobs, s0: Sim, s: Sim) {
    && s.starts == s0.starts && Known(jobs, s.starts) && OnServers(jobs, s.starts, s.running)
    && |s.running| <= |s0.running| && Leave(s0, s, |s0.running| - |s.running|) && AllRetired(s) == AllRetired(s0)
  }

  lemma RetiringStarts(jobs: Jobs, s0: Sim)
    requires Known(jobs, s0.starts) && OnServers(jobs, s0.starts, s0.running)
    ensures Retiring(jobs, s0, s0)
  {
  }

  lemma RetiringEnds(jobs: Jobs, s0: Sim, s: Sim)
    requires Retiring(jobs, s0, s) && !Finished(s)
    ensures s == AllRetired(s0) && forall x :: x in s.running ==> s.current < x.finish
  {
    RemainingRunOn(s);
  }

  lemma RetiringNext(jobs: Jobs, s0: Sim, s: Sim)
    requires Retiring(jobs, s0, s) && Finished(s)
    ensures Retiring(jobs, s0, Retired(s))
  {
    RetiredKeepsServers(jobs, s.starts, s.running);
    LeaveNext(s0, s, |s0.running| - |s.running|);
  }

  lemma RemainingRunOn(s: Sim)
    requires FinishOrdered(s.running) && !Finished(s)
    ensures forall x :: x in s.running ==> s.current < x.finish
  {
    forall x | x in s.running ensures s.current < x.finish {
      var k :| 0 <= k < |s.running| && s.running[k] == x;
      assert s.running[0].finish <= s.running[k].finish;
    }
  }

  /** Takes the first job to finish off its server and reports it. */
  method RetireNext(jobs: Jobs, s0: Sim, r0: Report) returns (s: Sim, r: Report)
    requires Known(jobs, s0.starts) && OnServers(jobs, s0.starts, s0.running) && Completed(jobs, s0, r0) && s0.running != []
    ensures s == Retired(s0) && Completed(jobs, s, r) && r.Counters() == r0.Counters()
  {
    var top := s0.running[0];
    assert top in s0.running;
    var latency := top.finish - jobs[top.job].arrivedAt;
    assert (s0.done + [top.job])[..|s0.done|] == s0.done;
    r := r0;
    match jobs[top.job].kind {
      case FastKind =>
        r := r.(fastLatency := r.fastLatency + [latency], completions := r.completions + [top.finish]);
      case AmbientKind =>
        r := r.(ambientLatency := r.ambientLatency + [latency], completions := r.completions + [top.finish]);
      case OtherKind =>
    }
    s := s0.(running := s0.running[1..], done := s0.done + [top.job]);
  }

  predicate HasLane(jobs: Jobs, waiting: seq<nat>, lane: Lane) {
    exists k :: 0 <= k < |waiting| && waiting[k] < |jobs| && jobs[waiting[k]].lane == lane
  }

  lemma AdmittedFigures(jobs: Jobs, s: Sim, r: Report)
    requires Completed(jobs, s, r) && Spent(jobs, s, r) && s.waiting != [] && s.waiting[0] < |jobs|
    requires s.waiting[0] !in s.done && s.waiting[0] !in s.starts
    ensures Completed(jobs, Admitted(jobs, s), r)
    ensures Spent(jobs, Admitted(jobs, s), r.(cost := r.cost + jobs[s.waiting[0]].cost))
  {
    var i, s' := s.waiting[0], Admitted(jobs, s);
    FiguresStay(jobs, s.starts, i, s.current, s.done, FastKind);
    FiguresStay(jobs, s.starts, i, s.current, s.done, AmbientKind);
    CostOfOneMore(jobs, s.starts.Keys, i, |jobs|);
    assert s'.starts.Keys == s.starts.Keys + {i};
  }

  /** Waiting jobs are still undecided, so a decision is never taken twice. */
  ghost predicate Undecided(s: Sim) {
    && (forall a, b :: 0 <= a < b < |s.waiting| ==> s.waiting[a] != s.waiting[b])
    && (forall i :: i in s.waiting ==> i !in s.starts && i !in s.lapses && i !in s.done)
  }

  lemma WaitingIsUndecided(jobs: Jobs, s: Sim)
    requires Placed(jobs, s) && Served(jobs, s)
    ensures Undecided(s)
  {
  }

  // ---------------------------------------------------------------- the order of completion

  ghost predicate InFinishOrder(jobs: Jobs, starts: Times, done: seq<nat>)
    requires Known(jobs, starts)
  {
    && (forall i :: i in done ==> i in starts)
    && forall a, b :: 0 <= a < b < |done| ==> LeavesBefore(jobs, starts, done[a], done[b])
  }

  /** Jobs leave by finish time; of those that finish together the one that was started earlier leaves first. */
  predicate LeavesBefore(jobs: Jobs, starts: Times, i: nat, j: nat) {
    && i in starts && j in starts && i < |jobs| && j < |jobs|
    && var a, b := starts[i] + jobs[i].duration, starts[j] + jobs[j].duration;
       a < b || (a == b && starts[i] <= starts[j])
  }

  /** Jobs are reported as they leave, and those on the servers leave later, in the order in which they are kept. */
  ghost predicate FinishedFirst(jobs: Jobs, s: Sim) {
    && Known(jobs, s.starts) && InFinishOrder(jobs, s.starts, s.done) && InLeavingOrder(s.starts, s.running)
    && forall i, r :: i in s.done && r in s.running ==> LeavesBefore(jobs, s.starts, i, r.job)
  }

  predicate Sooner(starts: Times, x: Running, y: Running) {
    x.finish < y.finish || (x.finish == y.finish && x.job in starts && y.job in starts && starts[x.job] <= starts[y.job])
  }

  ghost predicate InLeavingOrder(starts: Times, running: seq<Running>) {
    forall a, b :: 0 <= a < b < |running| ==> Sooner(starts, running[a], running[b])
  }

  /** The one to leave first, in front of those that leave later. */
  lemma LeavingCons(starts: Times, x: Running, rest: seq<Running>)
    ensures InLeavingOrder(starts, [x] + rest) <==> InLeavingOrder(starts, rest) && forall y :: y in rest ==> Sooner(starts, x, y)
  {
    var all := [x] + rest;
    if InLeavingOrder(starts, all) {
      forall a, b | 0 <= a < b < |rest| ensures Sooner(starts, rest[a], rest[b]) {
        assert Sooner(starts, all[a + 1], all[b + 1]);
      }
      forall y | y in rest ensures Sooner(starts, x, y) {
        var k :| 0 <= k < |rest| && rest[k] == y;
        assert Sooner(starts, all[0], all[k + 1]);
      }
    }
  }

  lemma {:induction false} PushedLeaves(starts: Times, running: seq<Running>, r: Running)
    requires InLeavingOrder(starts, running) && FinishOrdered(running)
    requires r.job in starts && forall x :: x in running ==> x.job in starts && starts[x.job] <= starts[r.job]
    ensures InLeavingOrder(starts, Pushed(running, r))
  {
    if running == [] {
      LeavingCons(starts, r, []);
      assert [r] + [] == [r];
    } else if r.finish < running[0].finish {
      forall y | y in running ensures Sooner(starts, r, y) {
        var k :| 0 <= k < |running| && running[k] == y;
        assert k > 0 ==> running[0].finish <= running[k].finish;
      }
      LeavingCons(starts, r, running);
    } else {
      var first, rest := running[0], running[1..];
      assert running == [first] + rest;
      LeavingCons(starts, first, rest);
      PushedOf(rest, r);
      PushedLeaves(starts, rest, r);
      LeavingCons(starts, first, Pushed(rest, r));
    }
  }

  lemma RetiredKeepsOrder(jobs: Jobs, s: Sim)
    requires FinishedFirst(jobs, s) && OnServers(jobs, s.starts, s.running) && s.running != []
    ensures FinishedFirst(jobs, Retired(s))
  {
    var top, rest := s.running[0], s.running[1..];
    assert s.running == [top] + rest && top in s.running && forall r :: r in rest ==> r in s.running;
    LeavingCons(s.starts, top, rest);
    RetiredLeaves(jobs, s.starts, s.done, top.job, rest);
  }

  lemma RetiredLeaves(jobs: Jobs, starts: Times, done: seq<nat>, i: nat, rest: seq<Running>)
    requires Known(jobs, starts) && InFinishOrder(jobs, starts, done) && i in starts
    requires forall k :: k in done ==> LeavesBefore(jobs, starts, k, i)
    ensures InFinishOrder(jobs, starts, done + [i])
  {
    forall a, b | 0 <= a < b < |done + [i]| ensures LeavesBefore(jobs, starts, (done + [i])[a], (done + [i])[b]) {
      assert done[a] in done;
    }
  }

  lemma {:induction false} AllRetiredKeepsOrder(jobs: Jobs, s: Sim)
    requires FinishedFirst(jobs, s) && OnServers(jobs, s.starts, s.running)
    ensures FinishedFirst(jobs, AllRetired(s))
    decreases |s.running|
  {
    if Finished(s) {
      RetiredKeepsServers(jobs, s.starts, s.running);
      RetiredKeepsOrder(jobs, s);
      AllRetiredKeepsOrder(jobs, Retired(s));
    }
  }

  lemma DecidedKeepsOrder(jobs: Jobs, s: Sim)
    requires FinishedFirst(jobs, s) && OnServers(jobs, s.starts, s.running) && s.waiting != []
    requires s.waiting[0] < |jobs| && s.waiting[0] !in s.starts
    requires forall i :: i in s.starts ==> s.starts[i] <= s.current
    requires forall i :: i in s.done ==> i in s.starts && Finish(jobs, s.starts, i) <= s.current
    ensures FinishedFirst(jobs, Decided(jobs, s))
  {
    var i := s.waiting[0];
    if !TooLate(jobs, s) {
      var r := Running(s.current + jobs[i].duration, s.started, i);
      assert Admitted(jobs, s).running == Pushed(s.running, r);
      PushedOf(s.running, r);
      LaterSooner(s.starts, s.running, i, s.current);
      PushedLeaves(s.starts[i := s.current], s.running, r);
      LaterFinish(jobs, s.starts, s.done, i, s.current);
      forall k, x | k in s.done && x in Pushed(s.running, r) ensures LeavesBefore(jobs, s.starts[i := s.current], k, x.job) {
        LaterLeaves(jobs, s, k, x, i);
      }
    }
  }

  lemma LaterLeaves(jobs: Jobs, s: Sim, k: nat, x: Running, i: nat)
    requires Known(jobs, s.starts) && k in s.done && k in s.starts && i !in s.starts && i < |jobs|
    requires s.starts[k] <= s.current && Finish(jobs, s.starts, k) <= s.current
    requires x.job == i || LeavesBefore(jobs, s.starts, k, x.job)
    ensures LeavesBefore(jobs, s.starts[i := s.current], k, x.job)
  {
  }

  /** A new start does not disturb the order of the others. */
  lemma LaterFinish(jobs: Jobs, starts: Times, done: seq<nat>, i: nat, at: nat)
    requires Known(jobs, starts) && InFinishOrder(jobs, starts, done) && i !in starts && i < |jobs|
    ensures InFinishOrder(jobs, starts[i := at], done)
  {
    forall a, b | 0 <= a < b < |done| ensures LeavesBefore(jobs, starts[i := at], done[a], done[b]) {
      assert LeavesBefore(jobs, starts, done[a], done[b]);
    }
  }

  lemma LaterSooner(starts: Times, running: seq<Running>, i: nat, at: nat)
    requires InLeavingOrder(starts, running) && i !in starts
    ensures InLeavingOrder(starts[i := at], running)
  {
    forall a, b | 0 <= a < b < |running| ensures Sooner(starts[i := at], running[a], running[b]) {
      assert Sooner(starts, running[a], running[b]);
    }
  }

  lemma {:induction false} AllAdmittedKeepsOrder(jobs: Jobs, s: Sim, limit: nat)
    requires Inv(jobs, s, limit) && !Arriving(jobs, s) && NoneOverdue(s) && FinishedFirst(jobs, s)
    ensures FinishedFirst(jobs, AllAdmitted(jobs, s, limit))
    decreases |s.waiting|
  {
    if Admitting(jobs, s, limit) {
      assert s.waiting[0] in s.waiting;
      DecidedKeepsInv(jobs, s, limit);
      DecidedKeepsOrder(jobs, s);
      AllAdmittedKeepsOrder(jobs, Decided(jobs, s), limit);
    }
  }

  lemma ClearedKeepsOrder(jobs: Jobs, s: Sim, limit: nat)
    requires AtHead(jobs, s, limit) && (s.next < |jobs| || s.running != [] || s.waiting != [])
    requires FinishedFirst(jobs, s)
    ensures FinishedFirst(jobs, Cleared(jobs, s))
  {
    var a := AllArrived(jobs, Woken(jobs, s));
    WokenKeepsInv(jobs, s, limit);
    AllArrivedKeepsInv(jobs, Woken(jobs, s), limit);
    assert a.done == s.done && a.running == s.running && a.starts == s.starts;
    AllRetiredKeepsOrder(jobs, a);
  }

  lemma RoundKeepsOrder(jobs: Jobs, s: Sim, limit: nat)
    requires AtHead(jobs, s, limit) && (s.next < |jobs| || s.running != [] || s.waiting != []) && limit >= 1
    requires FinishedFirst(jobs, s)
    ensures FinishedFirst(jobs, Round(jobs, s, limit))
  {
    ClearedKeepsOrder(jobs, s, limit);
    ClearedKeepsInv(jobs, s, limit);
    AllAdmittedKeepsOrder(jobs, Cleared(jobs, s), limit);
    AdvancingKeepsOrder(jobs, AllAdmitted(jobs, Cleared(jobs, s), limit));
  }

  lemma AdvancingKeepsOrder(jobs: Jobs, s: Sim)
    requires FinishedFirst(jobs, s)
    ensures FinishedFirst(jobs, Advanced(jobs, s))
  {
  }

  lemma {:induction false} CompletionsBounded(jobs: Jobs, starts: Times, done: seq<nat>, bound: nat)
    requires Known(jobs, starts) && forall i :: i in done ==> i in starts && Finish(jobs, starts, i) <= bound
    ensures forall c :: c in Completions(jobs, starts, done) ==> c <= bound
  {
    if done != [] {
      var front := done[..|done| - 1];
      assert done == front + [done[|done| - 1]];
      CompletionsBounded(jobs, starts, front, bound);
    }
  }

  lemma CompletionsSnoc(jobs: Jobs, starts: Times, done: seq<nat>)
    requires done != [] && Known(jobs, starts) && done[|done| - 1] in starts
    ensures var last := done[|done| - 1]; var earlier := Completions(jobs, starts, done[..|done| - 1]);
            Completions(jobs, starts, done) == earlier || Completions(jobs, starts, done) == earlier + [Finish(jobs, starts, last)]
  {
  }

  predicate Ascends(times: seq<int>) {
    forall a, b :: 0 <= a < b < |times| ==> times[a] <= times[b]
  }

  lemma AscendsSnoc(times: seq<int>, last: int)
    requires Ascends(times) && forall c :: c in times ==> c <= last
    ensures Ascends(times + [last])
  {
    forall a, b | 0 <= a < b < |times + [last]| ensures (times + [last])[a] <= (times + [last])[b] {
      assert times[a] in times;
    }
  }

  /** So the completion times of a report ascend. */
  lemma {:induction false} CompletionsAscend(jobs: Jobs, starts: Times, done: seq<nat>)
    requires Known(jobs, starts) && InFinishOrder(jobs, starts, done)
    ensures Ascends(Completions(jobs, starts, done))
  {
    if done != [] {
      var front, last := done[..|done| - 1], done[|done| - 1];
      assert done == front + [last] && last in done;
      CompletionsAscend(jobs, starts, front);
      forall i | i in front ensures i in starts && Finish(jobs, starts, i) <= Finish(jobs, starts, last) {
        var k :| 0 <= k < |front| && front[k] == i;
        assert done[k] == i;
      }
      CompletionsBounded(jobs, starts, front, Finish(jobs, starts, last));
      CompletionsSnoc(jobs, starts, done);
      AscendsSnoc(Completions(jobs, starts, front), Finish(jobs, starts, last));
    }
  }

  // ---------------------------------------------------------------- the peak

  predicate Brisk(jobs: Jobs) {
    forall job :: job in jobs ==> job.duration >= 1
  }

  /** The peak is the largest number of busy servers before the present moment. */
  ghost predicate Peaked(jobs: Jobs, s: Sim, peak: nat)
    requires Known(jobs, s.starts)
  {
    && |s.running| <= peak
    && (forall t: nat :: t < s.current ==> |Busy(jobs, s.starts, t)| <= peak)
    && (Brisk(jobs) ==> peak == 0 || exists t: nat :: t < s.current && |Busy(jobs, s.starts, t)| == peak)
  }

  /** Admissions do not change who was busy before, and brisk jobs do not end at once. */
  lemma {:induction false} AdmissionsKeepPast(jobs: Jobs, s: Sim, limit: nat)
    requires Inv(jobs, s, limit) && !Arriving(jobs, s) && NoneOverdue(s)
    requires Brisk(jobs) ==> forall x :: x in s.running ==> s.current < x.finish
    ensures var e := AllAdmitted(jobs, s, limit);
            && Known(jobs, e.starts) && e.current == s.current
            && (forall t: nat :: t < s.current ==> Busy(jobs, e.starts, t) == Busy(jobs, s.starts, t))
            && (Brisk(jobs) ==> forall x :: x in e.running ==> s.current < x.finish)
    decreases |s.waiting|
  {
    AllAdmittedKeepsInv(jobs, s, limit);
    assert s.waiting != [] ==> s.waiting[0] in s.waiting;
    if Admitting(jobs, s, limit) {
      DecidedKeepsInv(jobs, s, limit);
      DecidedKeepsPast(jobs, s);
      AdmissionsKeepPast(jobs, Decided(jobs, s), limit);
    }
  }

  lemma DecidedKeepsPast(jobs: Jobs, s: Sim)
    requires Known(jobs, s.starts) && s.waiting != [] && s.waiting[0] < |jobs| && s.waiting[0] !in s.starts && FinishOrdered(s.running)
    requires Brisk(jobs) ==> forall x :: x in s.running ==> s.current < x.finish
    ensures var d := Decided(jobs, s);
            && Known(jobs, d.starts) && d.current == s.current
            && (forall t: nat :: t < s.current ==> Busy(jobs, d.starts, t) == Busy(jobs, s.starts, t))
            && (Brisk(jobs) ==> forall x :: x in d.running ==> s.current < x.finish)
  {
    var i := s.waiting[0];
    assert jobs[i] in jobs;
    PushedOf(s.running, Running(s.current + jobs[i].duration, s.started, i));
  }

  /** While nobody starts or finishes, the number of busy servers is that of the running jobs. */
  lemma BusyUntil(jobs: Jobs, s: Sim, limit: nat, to: nat)
    requires Inv(jobs, s, limit) && forall x :: x in s.running ==> to <= x.finish
    ensures forall t: nat :: s.current <= t < to ==> |Busy(jobs, s.starts, t)| == |s.running|
  {
    ServersCounted(s.running);
    forall t: nat | s.current <= t < to ensures |Busy(jobs, s.starts, t)| == |s.running| {
      BusyIsServing(jobs, s, t);
    }
  }

  lemma ClearedKeepsPeak(jobs: Jobs, s: Sim, limit: nat, peak: nat)
    requires AtHead(jobs, s, limit) && (s.next < |jobs| || s.running != [] || s.waiting != [])
    requires Peaked(jobs, s, peak)
    ensures Known(jobs, Cleared(jobs, s).starts) && Peaked(jobs, Cleared(jobs, s), peak)
  {
    var w := Woken(jobs, s);
    WokenKeepsInv(jobs, s, limit);
    BusyUntil(jobs, s, limit, w.current);
    AllArrivedKeepsInv(jobs, w, limit);
    AllRetiredKeepsInv(jobs, AllArrived(jobs, w), limit);
    RetiredAreFewer(AllArrived(jobs, w));
  }

  lemma ClearedRunsOn(jobs: Jobs, s: Sim, limit: nat)
    requires AtHead(jobs, s, limit) && (s.next < |jobs| || s.running != [] || s.waiting != [])
    ensures forall x :: x in Cleared(jobs, s).running ==> Cleared(jobs, s).current < x.finish
  {
    WokenKeepsInv(jobs, s, limit);
    AllArrivedKeepsInv(jobs, Woken(jobs, s), limit);
    AllRetiredKeepsInv(jobs, AllArrived(jobs, Woken(jobs, s)), limit);
    RemainingRunOn(Cleared(jobs, s));
  }

  lemma {:induction false} RetiredAreFewer(s: Sim)
    ensures |AllRetired(s).running| <= |s.running|
    decreases |s.running|
  {
    if Finished(s) {
      RetiredAreFewer(Retired(s));
    }
  }

  lemma AdvancedKeepsPeak(jobs: Jobs, s: Sim, limit: nat, peak: nat)
    requires Inv(jobs, s, limit) && !Arriving(jobs, s) && NoneOverdue(s) && |s.running| <= peak
    requires Brisk(jobs) ==> forall x :: x in s.running ==> s.current < x.finish
    requires forall t: nat :: t < s.current ==> |Busy(jobs, s.starts, t)| <= peak
    requires Brisk(jobs) ==> peak == 0 || peak == |s.running| || exists t: nat :: t < s.current && |Busy(jobs, s.starts, t)| == peak
    ensures Peaked(jobs, Advanced(jobs, s), peak)
  {
    var to := Advanced(jobs, s).current;
    assert s.running != [] ==> s.running[0] in s.running;
    assert forall x :: x in s.running ==> to <= x.finish;
    BusyUntil(jobs, s, limit, to);
    if Brisk(jobs) && peak > 0 && peak == |s.running| {
      assert s.current < to;
      assert |Busy(jobs, s.starts, s.current)| == peak;
    }
  }

  lemma RoundKeepsPeak(jobs: Jobs, s: Sim, limit: nat, peak: nat)
    requires AtHead(jobs, s, limit) && (s.next < |jobs| || s.running != [] || s.waiting != []) && limit >= 1
    requires Peaked(jobs, s, peak)
    ensures Known(jobs, Round(jobs, s, limit).starts)
    ensures Peaked(jobs, Round(jobs, s, limit), Max(peak, |AllAdmitted(jobs, Cleared(jobs, s), limit).running|))
  {
    ClearedKeepsInv(jobs, s, limit);
    ClearedKeepsPeak(jobs, s, limit, peak);
    ClearedRunsOn(jobs, s, limit);
    AdmissionsKeepPeak(jobs, Cleared(jobs, s), limit, peak);
  }

  lemma AdmissionsKeepPeak(jobs: Jobs, c: Sim, limit: nat, peak: nat)
    requires Inv(jobs, c, limit) && !Arriving(jobs, c) && NoneOverdue(c) && limit >= 1
    requires Peaked(jobs, c, peak) && forall x :: x in c.running ==> c.current < x.finish
    ensures Known(jobs, Advanced(jobs, AllAdmitted(jobs, c, limit)).starts)
    ensures Peaked(jobs, Advanced(jobs, AllAdmitted(jobs, c, limit)), Max(peak, |AllAdmitted(jobs, c, limit).running|))
  {
    AdmissionsKeepPast(jobs, c, limit);
    AllAdmittedKeepsInv(jobs, c, limit);
    AdvancedKeepsPeak(jobs, AllAdmitted(jobs, c, limit), limit, Max(peak, |AllAdmitted(jobs, c, limit).running|));
  }

  // ---------------------------------------------------------------- fast jobs that go first

  /** Job i was started while ambient job j, behind it in the queue, had arrived and was not decided. */
  ghost predicate Passes(jobs: Jobs, starts: Times, lapses: Times, i: nat, j: nat)
    requires i in starts && i < |jobs|
  {
    && j < |jobs| && jobs[j].lane.AMBIENT? && Ahead(jobs, i, j) && jobs[j].arrivedAt <= starts[i]
    && (j in starts ==> starts[i] <= starts[j]) && (j in lapses ==> starts[i] <= lapses[j])
  }

  ghost predicate PassesOne(jobs: Jobs, starts: Times, lapses: Times, i: nat)
    requires i in starts && i < |jobs|
  {
    exists j :: Passes(jobs, starts, lapses, i, j)
  }

  ghost predicate GoesFirst(jobs: Jobs, starts: Times, lapses: Times, i: nat)
    requires i in starts && i < |jobs|
  {
    jobs[i].kind.FastKind? && PassesOne(jobs, starts, lapses, i)
  }

  ghost function GoneFirst(jobs: Jobs, starts: Times, lapses: Times): set<nat>
    requires Known(jobs, starts)
  {
    set i | i in starts && GoesFirst(jobs, starts, lapses, i)
  }

  /** The counter tells how many fast jobs were started ahead of a waiting ambient one. */
  ghost predicate Counted(jobs: Jobs, s: Sim, directAhead: nat)
    requires Known(jobs, s.starts)
  {
    ByArrival(jobs) ==> directAhead == |GoneFirst(jobs, s.starts, s.lapses)|
  }

  /** A decision at the present moment changes nothing about jobs started by now. */
  lemma GoesFirstStays(jobs: Jobs, s: Sim, n: nat, i: nat)
    requires i in s.starts && i < |jobs| && s.starts[i] <= s.current && n !in s.starts && n !in s.lapses
    ensures GoesFirst(jobs, s.starts[n := s.current], s.lapses, i) == GoesFirst(jobs, s.starts, s.lapses, i)
    ensures GoesFirst(jobs, s.starts, s.lapses[n := s.current], i) == GoesFirst(jobs, s.starts, s.lapses, i)
  {
    var starts, lapses := s.starts[n := s.current], s.lapses[n := s.current];
    if j :| Passes(jobs, s.starts, s.lapses, i, j) {
      assert Passes(jobs, starts, s.lapses, i, j) && Passes(jobs, s.starts, lapses, i, j);
    }
    if j :| Passes(jobs, starts, s.lapses, i, j) {
      assert Passes(jobs, s.starts, s.lapses, i, j);
    }
    if j :| Passes(jobs, s.starts, lapses, i, j) {
      assert Passes(jobs, s.starts, s.lapses, i, j);
    }
  }

  lemma GoneFirstNext(jobs: Jobs, s: Sim, n: nat)
    requires Known(jobs, s.starts) && n < |jobs| && n !in s.starts && n !in s.lapses
    requires forall i :: i in s.starts ==> s.starts[i] <= s.current
    ensures GoneFirst(jobs, s.starts, s.lapses[n := s.current]) == GoneFirst(jobs, s.starts, s.lapses)
    ensures Known(jobs, s.starts[n := s.current])
    ensures GoneFirst(jobs, s.starts[n := s.current], s.lapses)
            == GoneFirst(jobs, s.starts, s.lapses) + if GoesFirst(jobs, s.starts[n := s.current], s.lapses, n) then {n} else {}
  {
    forall i | i in s.starts
      ensures GoesFirst(jobs, s.starts[n := s.current], s.lapses, i) == GoesFirst(jobs, s.starts, s.lapses, i)
      ensures GoesFirst(jobs, s.starts, s.lapses[n := s.current], i) == GoesFirst(jobs, s.starts, s.lapses, i)
    {
      GoesFirstStays(jobs, s, n, i);
    }
  }

  lemma WaitingIsPassed(jobs: Jobs, s: Sim)
    requires Placed(jobs, s) && s.waiting != [] && HasLane(jobs, s.waiting[1..], AMBIENT)
    ensures s.waiting[0] < |jobs| && PassesOne(jobs, s.starts[s.waiting[0] := s.current], s.lapses, s.waiting[0])
  {
    var i, rest := s.waiting[0], s.waiting[1..];
    var k :| 0 <= k < |rest| && rest[k] < |jobs| && jobs[rest[k]].lane == AMBIENT;
    assert Ahead(jobs, s.waiting[0], s.waiting[k + 1]);
    assert s.waiting[0] in s.waiting && s.waiting[k + 1] in s.waiting;
    assert Passes(jobs, s.starts[i := s.current], s.lapses, i, s.waiting[k + 1]);
  }

  /** The head of the queue passes exactly the ambient jobs that wait behind it. */
  lemma HeadPasses(jobs: Jobs, s: Sim)
    requires Placed(jobs, s) && s.waiting != [] && NotOverdueNow(jobs, s) && ByArrival(jobs) && AllFair(jobs, s.starts, s.lapses)
    ensures var i := s.waiting[0];
            i < |jobs| && (HasLane(jobs, s.waiting[1..], AMBIENT) <==> PassesOne(jobs, s.starts[i := s.current], s.lapses, i))
  {
    var i := s.waiting[0];
    assert i in s.waiting;
    if HasLane(jobs, s.waiting[1..], AMBIENT) {
      WaitingIsPassed(jobs, s);
    }
    var starts := s.starts[i := s.current];
    if j: nat :| Passes(jobs, starts, s.lapses, i, j) {
      PassedWaits(jobs, s, i, j);
      var k :| 0 <= k < |s.waiting| && s.waiting[k] == j;
      assert s.waiting[1..][k - 1] == j;
    }
  }

  /** Everything that has arrived by now is in the queue or decided. */
  predicate NotOverdueNow(jobs: Jobs, s: Sim) {
    s.next < |jobs| ==> s.current < jobs[s.next].arrivedAt
  }

  lemma PassedWaits(jobs: Jobs, s: Sim, i: nat, j: nat)
    requires Placed(jobs, s) && NotOverdueNow(jobs, s) && ByArrival(jobs) && AllFair(jobs, s.starts, s.lapses)
    requires i in s.waiting && j < |jobs| && j != i && Ahead(jobs, i, j) && jobs[j].arrivedAt <= s.current
    requires (j in s.starts ==> s.current <= s.starts[j]) && (j in s.lapses ==> s.current <= s.lapses[j])
    ensures j in s.waiting
  {
    assert j < s.next;
    assert j in s.starts ==> Fair(jobs, s.starts, s.lapses, j, s.starts[j]);
    assert j in s.lapses ==> Fair(jobs, s.starts, s.lapses, j, s.lapses[j]);
    assert !DecidedBy(s.starts, s.lapses, i, s.current);
  }

  /** The counter after the next decision. */
  function CountAfter(jobs: Jobs, s: Sim, directAhead: nat): nat
    requires s.waiting != [] && s.waiting[0] < |jobs|
  {
    var first := !TooLate(jobs, s) && jobs[s.waiting[0]].kind.FastKind? && HasLane(jobs, s.waiting[1..], AMBIENT);
    if first then directAhead + 1 else directAhead
  }

  lemma DecidedCounts(jobs: Jobs, s: Sim, directAhead: nat)
    requires Placed(jobs, s) && s.waiting != [] && NotOverdueNow(jobs, s) && (ByArrival(jobs) ==> AllFair(jobs, s.starts, s.lapses))
    requires Counted(jobs, s, directAhead)
    ensures s.waiting[0] < |jobs| && Known(jobs, Decided(jobs, s).starts)
    ensures Counted(jobs, Decided(jobs, s), CountAfter(jobs, s, directAhead))
  {
    var i := s.waiting[0];
    assert i in s.waiting;
    GoneFirstNext(jobs, s, i);
    if ByArrival(jobs) {
      HeadPasses(jobs, s);
    }
  }

  ghost predicate Figures(jobs: Jobs, s: Sim, r: Report) {
    Known(jobs, s.starts) && Completed(jobs, s, r) && Spent(jobs, s, r) && Counted(jobs, s, r.directAhead)
  }

  /** One decision of the admission loop. */
  method AdmitNext(jobs: Jobs, s0: Sim, r0: Report) returns (s: Sim, r: Report)
    requires s0.waiting != [] && s0.waiting[0] < |jobs| && Undecided(s0)
    requires Completed(jobs, s0, r0) && Spent(jobs, s0, r0)
    ensures s == Decided(jobs, s0)
    ensures Completed(jobs, s, r) && Spent(jobs, s, r)
    ensures r.directAhead == CountAfter(jobs, s0, r0.directAhead)
    ensures r.peak == if TooLate(jobs, s0) then r0.peak else Max(r0.peak, |s.running|)
  {
    var i := s0.waiting[0];
    assert i in s0.waiting;
    var job := jobs[i];
    if job.kind.AmbientKind? && s0.current + job.duration > job.arrivedAt + BUDGET_MS {
      s := s0.(waiting := s0.waiting[1..], lapses := s0.lapses[i := s0.current]);
      r := r0.(ambientExpired := r0.ambientExpired + 1);
    } else {
      AdmittedFigures(jobs, s0, r0);
      r := r0;
      if job.kind.FastKind? && HasLane(jobs, s0.waiting[1..], AMBIENT) {
        r := r.(directAhead := r.directAhead + 1);
      }
      s := s0.(waiting := s0.waiting[1..], starts := s0.starts[i := s0.current],
               running := Pushed(s0.running, Running(s0.current + job.duration, s0.started, i)), started := s0.started + 1);
      r := r.(cost := r.cost + job.cost, peak := if r.peak < |s.running| then |s.running| else r.peak);
    }
  }

  method AdmitWaiting(jobs: Jobs, s0: Sim, limit: nat, r0: Report) returns (s: Sim, r: Report)
    requires Inv(jobs, s0, limit) && !Arriving(jobs, s0) && NoneOverdue(s0)
    requires Figures(jobs, s0, r0) && |s0.running| <= r0.peak <= limit
    ensures s == AllAdmitted(jobs, s0, limit) && (|s.running| == limit || s.waiting == [])
    ensures Figures(jobs, s, r) && r.peak == Max(r0.peak, |s.running|) <= limit
  {
    s, r := s0, r0;
    AllAdmittedKeepsInv(jobs, s0, limit);
    while |s.running| < limit && s.waiting != []
      invariant AllAdmitted(jobs, s, limit) == AllAdmitted(jobs, s0, limit)
      invariant Inv(jobs, s, limit) && !Arriving(jobs, s) && NoneOverdue(s)
      invariant Figures(jobs, s, r) && r.peak == Max(r0.peak, |s.running|) <= limit
      decreases |s.waiting|
    {
      WaitingIsUndecided(jobs, s);
      assert s.waiting[0] in s.waiting;
      DecidedKeepsInv(jobs, s, limit);
      DecidedGrows(jobs, s);
      DecidedCounts(jobs, s, r.directAhead);
      s, r := AdmitNext(jobs, s, r);
    }
  }

  lemma DecidedGrows(jobs: Jobs, s: Sim)
    requires s.waiting != [] && s.waiting[0] < |jobs| && FinishOrdered(s.running)
    ensures |Decided(jobs, s).running| == |s.running| + if TooLate(jobs, s) then 0 else 1
  {
    PushedOf(s.running, Running(s.current + jobs[s.waiting[0]].duration, s.started, s.waiting[0]));
  }

  /** What the inner loops of a round rely on. */
  lemma RoundIsServed(jobs: Jobs, s: Sim, limit: nat, peak: nat)
    requires AtHead(jobs, s, limit) && (s.next < |jobs| || s.running != [] || s.waiting != []) && Peaked(jobs, s, peak)
    ensures var a := AllArrived(jobs, Woken(jobs, s));
            && Known(jobs, a.starts) && OnServers(jobs, a.starts, a.running)
            && a.starts == s.starts && a.lapses == s.lapses && a.done == s.done
    ensures var e := Cleared(jobs, s);
            && Inv(jobs, e, limit) && !Arriving(jobs, e) && NoneOverdue(e)
            && e.starts == s.starts && e.lapses == s.lapses && |e.running| <= peak
  {
    var w := Woken(jobs, s);
    WokenKeepsInv(jobs, s, limit);
    AllArrivedKeepsInv(jobs, w, limit);
    ClearedKeepsInv(jobs, s, limit);
    ClearedKeepsPeak(jobs, s, limit, peak);
  }

  /** Wakes an empty system, lets arrivals in and finished jobs out. */
  method ClearRound(jobs: Jobs, s0: Sim, ghost limit: nat, r0: Report) returns (s: Sim, r: Report)
    requires AtHead(jobs, s0, limit) && (s0.next < |jobs| || s0.running != [] || s0.waiting != [])
    requires Figures(jobs, s0, r0) && Peaked(jobs, s0, r0.peak)
    ensures s == Cleared(jobs, s0)
    ensures Figures(jobs, s, r) && r.peak == r0.peak
  {
    s := s0;
    RoundIsServed(jobs, s0, limit, r0.peak);
    if s.running == [] && s.waiting == [] && s.next < |jobs| {
      s := s.(current := jobs[s.next].arrivedAt);
    }
    s := EnqueueArrivals(jobs, s);
    s, r := RetireFinished(jobs, s, r0);
  }

  method RunRound(jobs: Jobs, s0: Sim, limit: nat, r0: Report) returns (s: Sim, r: Report)
    requires AtHead(jobs, s0, limit) && (s0.next < |jobs| || s0.running != [] || s0.waiting != [])
    requires Figures(jobs, s0, r0) && Peaked(jobs, s0, r0.peak) && r0.peak <= limit && limit >= 1
    ensures s == Round(jobs, s0, limit) && Figures(jobs, s, r) && Peaked(jobs, s, r.peak) && r.peak <= limit
  {
    RoundIsServed(jobs, s0, limit, r0.peak);
    RoundKeepsPeak(jobs, s0, limit, r0.peak);
    s, r := ClearRound(jobs, s0, limit, r0);
    s, r := AdmitWaiting(jobs, s, limit, r);
    s := AdvanceClock(jobs, s);
  }

  method AdvanceClock(jobs: Jobs, s0: Sim) returns (s: Sim)
    ensures s == Advanced(jobs, s0)
  {
    s := s0;
    if s.running != [] && (s.next >= |jobs| || s.running[0].finish <= jobs[s.next].arrivedAt) {
      s := s.(current := s.running[0].finish);
    } else if s.next < |jobs| {
      s := s.(current := jobs[s.next].arrivedAt);
    }
  }

  method Simulate(jobs: Jobs, limit: nat) returns (r: Report, ghost starts: Times, ghost lapses: Times, ghost done: seq<nat>)
    requires limit >= 1
    ensures IsSchedule(jobs, limit, starts, lapses)
    ensures NoRepeats(done) && (forall i :: i in done <==> i in starts)
    ensures IsReport(jobs, starts, lapses, done, r) && IsPeak(jobs, starts, r.peak) && r.peak <= limit
    ensures ByArrival(jobs) ==> r.directAhead == |GoneFirst(jobs, starts, lapses)|
    ensures InFinishOrder(jobs, starts, done) && Ascends(r.completions) && ReportsAll(jobs, starts, done, r)
  {
    var s := Sim(0, 0, [], [], map[], map[], [], 0);
    r := Report([], [], [], 0, 0, 0, 0);
    NoCost(jobs, |jobs|);
    while s.next < |jobs| || s.running != [] || s.waiting != []
      invariant AtHead(jobs, s, limit) && FinishedFirst(jobs, s)
      invariant Figures(jobs, s, r) && Peaked(jobs, s, r.peak) && r.peak <= limit
      decreases Owed(jobs, s)
    {
      RoundKeepsInv(jobs, s, limit);
      RoundKeepsOrder(jobs, s, limit);
      s, r := RunRound(jobs, s, limit, r);
    }
    starts, lapses, done := s.starts, s.lapses, s.done;
    OverIsSchedule(jobs, s, limit);
    OverIsPeak(jobs, s, limit, r.peak);
    CompletionsAscend(jobs, starts, done);
    AllReported(jobs, starts, lapses, done, r);
  }

  /** No moment is busier than the peak, and if jobs take time some moment is as busy. */
  ghost predicate IsPeak(jobs: Jobs, starts: Times, peak: nat)
    requires Known(jobs, starts)
  {
    && (forall t: nat :: |Busy(jobs, starts, t)| <= peak)
    && (Brisk(jobs) ==> peak == 0 || exists t: nat :: |Busy(jobs, starts, t)| == peak)
  }

  lemma OverIsPeak(jobs: Jobs, s: Sim, limit: nat, peak: nat)
    requires Inv(jobs, s, limit) && s.running == [] && Peaked(jobs, s, peak)
    ensures IsPeak(jobs, s.starts, peak)
  {
    forall t: nat ensures |Busy(jobs, s.starts, t)| <= peak {
      if s.current <= t {
        BusyIsServing(jobs, s, t);
        assert Serving(s.running) == {};
      }
    }
  }

  lemma {:induction false} NoCost(jobs: Jobs, n: nat)
    requires n <= |jobs|
    ensures Cost(jobs, {}, n) == 0
  {
    if n > 0 {
      NoCost(jobs, n - 1);
    }
  }

  lemma OverIsSchedule(jobs: Jobs, s: Sim, limit: nat)
    requires Inv(jobs, s, limit) && s.next == |jobs| && s.running == [] && s.waiting == []
    ensures IsSchedule(jobs, limit, s.starts, s.lapses)
    ensures forall i :: i in s.done <==> i in s.starts
  {
    forall t: nat ensures Loaded(jobs, s.starts, s.lapses, limit, t) {
      if t >= s.current {
        BusyIsServing(jobs, s, t);
        forall i | 0 <= i < |jobs| ensures !Waits(jobs, s.starts, s.lapses, i, t) {
          assert i in s.starts || i in s.lapses;
        }
      }
    }
  }

  // ---------------------------------------------------------------- what the figures mean

  lemma {:induction false} LatenciesBounded(jobs: Jobs, starts: Times, lapses: Times, done: seq<nat>)
    requires Timely(jobs, starts, lapses) && forall i :: i in done ==> i in starts
    ensures forall l :: l in Latencies(jobs, starts, done, AmbientKind) ==> 0 <= l <= BUDGET_MS
    ensures forall l :: l in Latencies(jobs, starts, done, FastKind) ==> 0 <= l
  {
    if done != [] {
      assert done == done[..|done| - 1] + [done[|done| - 1]];
      LatenciesBounded(jobs, starts, lapses, done[..|done| - 1]);
    }
  }

  function CountKind(jobs: Jobs, done: seq<nat>, kind: Kind): nat {
    if done == [] then 0 else CountKind(jobs, done[..|done| - 1], kind) + if IsKind(jobs, done[|done| - 1], kind) then 1 else 0
  }

  /**
   * The report, job by job: the p-th job to leave waited from its arrival to its finish, and its
   * latency and its finish stand where the number of earlier jobs of its kind puts them.
   */
  ghost predicate Reports(jobs: Jobs, starts: Times, done: seq<nat>, r: Report, p: nat)
    requires p < |done|
  {
    var i, fast, ambient := done[p], CountKind(jobs, done[..p], FastKind), CountKind(jobs, done[..p], AmbientKind);
    && i < |jobs| && i in starts
    && var finish := starts[i] + jobs[i].duration;
       && (jobs[i].kind.FastKind? ==> fast < |r.fastLatency| && r.fastLatency[fast] == finish - jobs[i].arrivedAt)
       && (jobs[i].kind.AmbientKind? ==> ambient < |r.ambientLatency| && r.ambientLatency[ambient] == finish - jobs[i].arrivedAt)
       && (!jobs[i].kind.OtherKind? ==> fast + ambient < |r.completions| && r.completions[fast + ambient] == finish)
  }

  ghost predicate ReportsAll(jobs: Jobs, starts: Times, done: seq<nat>, r: Report) {
    && |r.fastLatency| == CountKind(jobs, done, FastKind) && |r.ambientLatency| == CountKind(jobs, done, AmbientKind)
    && |r.completions| == |r.fastLatency| + |r.ambientLatency|
    && forall p: nat :: p < |done| ==> Reports(jobs, starts, done, r, p)
  }

  lemma {:induction false} LatenciesReport(jobs: Jobs, starts: Times, done: seq<nat>, p: nat)
    requires Known(jobs, starts) && (forall i :: i in done ==> i in starts) && p < |done|
    ensures Reports(jobs, starts, done, Report(Latencies(jobs, starts, done, FastKind), Latencies(jobs, starts, done, AmbientKind),
                                               Completions(jobs, starts, done), 0, 0, 0, 0), p)
  {
    var front, last := done[..|done| - 1], done[|done| - 1];
    assert done == front + [last] && last in done && forall i :: i in front ==> i in done;
    if p < |front| {
      LatenciesReport(jobs, starts, front, p);
      assert front[..p] == done[..p] && done[p] == front[p];
    } else {
      assert done[..p] == front;
      LastReported(jobs, starts, front, last);
    }
  }

  lemma LastReported(jobs: Jobs, starts: Times, front: seq<nat>, last: nat)
    requires Known(jobs, starts) && (forall i :: i in front ==> i in starts) && last in starts
    ensures var done := front + [last];
            done[..|front|] == front
            && Reports(jobs, starts, done, Report(Latencies(jobs, starts, done, FastKind), Latencies(jobs, starts, done, AmbientKind),
                                                  Completions(jobs, starts, done), 0, 0, 0, 0), |front|)
  {
    var done := front + [last];
    assert done[..|front|] == front && done[|done| - 1] == last;
    FiguresCounted(jobs, starts, front);
  }

  lemma AllReported(jobs: Jobs, starts: Times, lapses: Times, done: seq<nat>, r: Report)
    requires Known(jobs, starts) && (forall i :: i in done ==> i in starts) && IsReport(jobs, starts, lapses, done, r)
    ensures ReportsAll(jobs, starts, done, r)
  {
    FiguresCounted(jobs, starts, done);
    forall p: nat | p < |done| ensures Reports(jobs, starts, done, r, p) {
      LatenciesReport(jobs, starts, done, p);
    }
  }

  lemma {:induction false} FiguresCounted(jobs: Jobs, starts: Times, done: seq<nat>)
    requires forall i :: i in done ==> i < |jobs|
    ensures |Latencies(jobs, starts, done, FastKind)| == CountKind(jobs, done, FastKind)
    ensures |Latencies(jobs, starts, done, AmbientKind)| == CountKind(jobs, done, AmbientKind)
    ensures |Completions(jobs, starts, done)| == CountKind(jobs, done, FastKind) + CountKind(jobs, done, AmbientKind)
    ensures CountKind(jobs, done, FastKind) + CountKind(jobs, done, AmbientKind) + CountKind(jobs, done, OtherKind) == |done|
  {
    if done != [] {
      var front, last := done[..|done| - 1], done[|done| - 1];
      assert done == front + [last];
      assert last in done && forall i :: i in front ==> i in done;
      FiguresCounted(jobs, starts, front);
    }
  }

  lemma {:induction false} DistinctCounted(values: seq<nat>, elements: set<nat>)
    requires NoRepeats(values) && forall i :: i in values <==> i in elements
    ensures |values| == |elements|
  {
    if values == [] {
      assert elements == {};
    } else {
      var front, last := values[..|values| - 1], values[|values| - 1];
      assert values == front + [last];
      assert forall a :: 0 <= a < |front| ==> front[a] == values[a] != values[|values| - 1];
      DistinctCounted(front, elements - {last});
    }
  }

  function UpTo(n: nat): set<nat> {
    if n == 0 then {} else UpTo(n - 1) + {n - 1}
  }

  lemma {:induction false} UpToCounted(n: nat)
    ensures |UpTo(n)| == n
    ensures forall i: nat :: i in UpTo(n) <==> i < n
  {
    if n > 0 {
      UpToCounted(n - 1);
    }
  }

  lemma PartitionCounted(n: nat, a: set<nat>, b: set<nat>)
    requires a !! b && forall i: nat :: i < n <==> i in a || i in b
    ensures |a| + |b| == n
  {
    UpToCounted(n);
    assert a + b == UpTo(n);
  }

  /** Every job is reported once: fast, ambient, of another kind, or expired; and no ambient latency exceeds the budget. */
  lemma JobsAreConserved(jobs: Jobs, limit: nat, starts: Times, lapses: Times, done: seq<nat>)
    requires IsSchedule(jobs, limit, starts, lapses) && NoRepeats(done) && forall i :: i in done <==> i in starts
    ensures |Latencies(jobs, starts, done, FastKind)| + |Latencies(jobs, starts, done, AmbientKind)|
            + CountKind(jobs, done, OtherKind) + |lapses| == |jobs|
    ensures forall l :: l in Latencies(jobs, starts, done, AmbientKind) ==> 0 <= l <= 8000
  {
    FiguresCounted(jobs, starts, done);
    LatenciesBounded(jobs, starts, lapses, done);
    DistinctCounted(done, starts.Keys);
    PartitionCounted(|jobs|, starts.Keys, lapses.Keys);
    assert |lapses| == |lapses.Keys|;
  }

  /** FAST goes before CONTINUATION, that before TEMPORAL and that before AMBIENT; within a lane whoever came first. */
  predicate GoesBefore(jobs: Jobs, i: nat, j: nat) {
    && i < |jobs| && j < |jobs|
    && match jobs[i].lane
       case FAST => !jobs[j].lane.FAST? || i < j
       case CONTINUATION => jobs[j].lane.TEMPORAL? || jobs[j].lane.AMBIENT? || (jobs[j].lane.CONTINUATION? && i < j)
       case TEMPORAL => jobs[j].lane.AMBIENT? || (jobs[j].lane.TEMPORAL? && i < j)
       case AMBIENT => jobs[j].lane.AMBIENT? && i < j
  }

  /** No job starts while one that goes before it has arrived and still waits. */
  lemma LanesAreKept(jobs: Jobs, limit: nat, starts: Times, lapses: Times, i: nat, j: nat)
    requires IsSchedule(jobs, limit, starts, lapses) && ByArrival(jobs)
    requires GoesBefore(jobs, i, j) && j in starts && jobs[i].arrivedAt <= starts[j]
    ensures (i in starts && starts[i] <= starts[j]) || (i in lapses && lapses[i] <= starts[j])
  {
    assert Fair(jobs, starts, lapses, j, starts[j]);
    assert Ahead(jobs, i, j);
  }

  /** A fast job that has arrived never watches an ambient one start. */
  lemma FastIsNeverOvertaken(jobs: Jobs, limit: nat, starts: Times, lapses: Times, fast: nat, ambient: nat)
    requires IsSchedule(jobs, limit, starts, lapses) && ByArrival(jobs)
    requires fast in starts && ambient in starts && jobs[fast].lane.FAST? && jobs[ambient].lane.AMBIENT?
    requires jobs[fast].arrivedAt <= starts[ambient]
    ensures starts[fast] <= starts[ambient]
  {
    assert Fair(jobs, starts, lapses, ambient, starts[ambient]);
    assert Ahead(jobs, fast, ambient);
  }
}
