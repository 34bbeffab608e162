/** The streaming load: every group receives `rate` messages a second and actors work through the backlogs in rotation. */
module Streaming {
  import opened Basics

  function Sum(backlog: seq<nat>): nat {
    if backlog == [] then 0 else Sum(backlog[..|backlog| - 1]) + backlog[|backlog| - 1]
  }

  lemma {:induction false} SumChanges(backlog: seq<nat>, g: nat, x: nat)
    requires g < |backlog|
    ensures Sum(backlog[g := x]) == Sum(backlog) - backlog[g] + x
  {
    var last := |backlog| - 1;
    if g < last {
      assert backlog[g := x][..last] == backlog[..last][g := x];
      SumChanges(backlog[..last], g, x);
    } else {
      assert backlog[g := x][..last] == backlog[..last];
    }
  }

  /** How many events among the first n are dropped. */
  function Dropped(n: nat, dropEvery: nat): nat {
    if dropEvery == 0 then 0 else n / dropEvery
  }

  lemma DroppedNext(n: nat, d: nat)
    requires d > 0
    ensures (n + 1) / d == n / d + if (n + 1) % d == 0 then 1 else 0
    ensures (n + 1) % d == if n % d + 1 == d then 0 else n % d + 1
  {
    var q, r := n / d, n % d;
    assert n == q * d + r;
    if r + 1 == d {
      assert n + 1 == (q + 1) * d;
      Division(n + 1, d, q + 1, 0);
    } else {
      Division(n + 1, d, q, r + 1);
    }
  }

  /** The distance from `start` to g in the rotation. */
  function Offset(groups: nat, start: nat, g: nat): nat
    requires g < groups && start < groups
  {
    if start <= g then g - start else g + groups - start
  }

  /** How often g has its turn in n slots: once a lap, and once more if the last, partial lap reaches it. */
  function Turns(groups: nat, start: nat, n: nat, g: nat): nat
    requires g < groups && start < groups
  {
    n / groups + if Offset(groups, start, g) < n % groups then 1 else 0
  }

  lemma SlotGroup(groups: nat, start: nat, n: nat)
    requires start < groups
    ensures (start + n) % groups == var r := start + n % groups; if r < groups then r else r - groups
  {
    var q, r := n / groups, n % groups;
    assert n == q * groups + r;
    if start + r < groups {
      Division(start + n, groups, q, start + r);
    } else {
      assert start + n == (q + 1) * groups + (start + r - groups);
      Division(start + n, groups, q + 1, start + r - groups);
    }
  }

  lemma TurnsNext(groups: nat, start: nat, n: nat, g: nat)
    requires g < groups && start < groups
    ensures Turns(groups, start, n + 1, g) == Turns(groups, start, n, g) + if (start + n) % groups == g then 1 else 0
  {
    SlotGroup(groups, start, n);
    DroppedNext(n, groups);
  }

  function Relieved(waiting: nat, turns: nat): nat {
    if waiting < turns then 0 else waiting - turns
  }

  /** One second of service: every backlog shrinks by exactly its turns, down to nothing. */
  method Serve(before: seq<nat>, start: nat, capacity: nat) returns (backlog: seq<nat>, served: nat)
    requires start < |before|
    ensures |backlog| == |before|
    ensures forall g :: 0 <= g < |before| ==> backlog[g] == Relieved(before[g], Turns(|before|, start, capacity, g))
    ensures Sum(backlog) + served == Sum(before) && served <= capacity
  {
    backlog, served := before, 0;
    for slot := 0 to capacity
      invariant |backlog| == |before| && served <= slot
      invariant forall g :: 0 <= g < |before| ==> backlog[g] == Relieved(before[g], Turns(|before|, start, slot, g))
      invariant Sum(backlog) + served == Sum(before)
    {
      forall g | 0 <= g < |before|
        ensures Turns(|before|, start, slot + 1, g)
                == Turns(|before|, start, slot, g) + if (start + slot) % |before| == g then 1 else 0
      {
        TurnsNext(|before|, start, slot, g);
      }
      var group := (start + slot) % |before|;
      if backlog[group] > 0 {
        SumChanges(backlog, group, backlog[group] - 1);
        backlog := backlog[group := backlog[group] - 1];
        served := served + 1;
      }
    }
  }

  /** How many of the n messages after the first `from` are not dropped: every `dropEvery`-th is. */
  function Accepted(from: nat, n: nat, dropEvery: nat): nat {
    if n == 0 then 0 else Accepted(from, n - 1, dropEvery) + if dropEvery > 0 && (from + n) % dropEvery == 0 then 0 else 1
  }

  datatype Streamed = Streamed(ingested: nat, committed: nat, dropped: nat, peak: nat, backlog: seq<nat>, served: nat)

  ghost predicate Ledger(s: Streamed, dropEvery: nat) {
    && s.ingested == s.committed + s.dropped
    && s.dropped == Dropped(s.ingested, dropEvery)
    && s.committed == Sum(s.backlog) + s.served
  }

  /** One message for group g, or a drop. */
  method Message(s: Streamed, g: nat, dropEvery: nat) returns (s': Streamed)
    requires Ledger(s, dropEvery) && g < |s.backlog|
    ensures Ledger(s', dropEvery) && s'.ingested == s.ingested + 1 && s'.served == s.served
    ensures s'.backlog == s.backlog || s'.backlog == s.backlog[g := s.backlog[g] + 1]
    ensures s'.backlog == s.backlog <==> dropEvery > 0 && s'.ingested % dropEvery == 0
    ensures s'.peak == if s'.backlog != s.backlog && s.peak < s'.backlog[g] then s'.backlog[g] else s.peak
  {
    var n := s.ingested + 1;
    if dropEvery > 0 {
      DroppedNext(s.ingested, dropEvery);
    }
    if dropEvery > 0 && n % dropEvery == 0 {
      s' := s.(ingested := n, dropped := s.dropped + 1);
    } else {
      SumChanges(s.backlog, g, s.backlog[g] + 1);
      var backlog := s.backlog[g := s.backlog[g] + 1];
      s' := s.(ingested := n, committed := s.committed + 1, backlog := backlog,
               peak := if s.peak < backlog[g] then backlog[g] else s.peak);
    }
    assert s'.backlog != s.backlog ==> s'.backlog[g] != s.backlog[g];
  }

  ghost predicate PeakBounds(s: Streamed) {
    forall g :: 0 <= g < |s.backlog| ==> s.backlog[g] <= s.peak
  }

  /** The arrivals of one group in one second. */
  method ArriveAt(s: Streamed, g: nat, rate: nat, dropEvery: nat) returns (s': Streamed)
    requires Ledger(s, dropEvery) && g < |s.backlog| && PeakBounds(s)
    ensures Ledger(s', dropEvery) && PeakBounds(s') && s'.ingested == s.ingested + rate && s'.served == s.served
    ensures |s'.backlog| == |s.backlog| && forall h :: 0 <= h < |s.backlog| && h != g ==> s'.backlog[h] == s.backlog[h]
    ensures s.backlog[g] <= s'.backlog[g] <= s.backlog[g] + rate
    ensures s'.backlog[g] == s.backlog[g] + Accepted(s.ingested, rate, dropEvery)
    ensures dropEvery == 0 ==> s'.backlog[g] == s.backlog[g] + rate
    ensures s'.peak == Max(s.peak, s'.backlog[g])
  {
    s' := s;
    for i := 0 to rate
      invariant Ledger(s', dropEvery) && PeakBounds(s') && s'.ingested == s.ingested + i && s'.served == s.served
      invariant |s'.backlog| == |s.backlog| && forall h :: 0 <= h < |s.backlog| && h != g ==> s'.backlog[h] == s.backlog[h]
      invariant s.backlog[g] <= s'.backlog[g] <= s.backlog[g] + i
      invariant s'.backlog[g] == s.backlog[g] + Accepted(s.ingested, i, dropEvery)
      invariant dropEvery == 0 ==> s'.backlog[g] == s.backlog[g] + i
      invariant s'.peak == Max(s.peak, s'.backlog[g])
    {
      s' := Message(s', g, dropEvery);
    }
  }

  /** The messages that the actor of g takes in a second whose first message follows the first `from`. */
  function Taken(from: nat, g: nat, rate: nat, dropEvery: nat): nat {
    Accepted(from + g * rate, rate, dropEvery)
  }

  /** The first n groups have had their messages of the second. */
  ghost predicate ArrivedUpTo(s: Streamed, s': Streamed, n: nat, rate: nat, dropEvery: nat) {
    && |s'.backlog| == |s.backlog| && n <= |s.backlog| && s'.ingested == s.ingested + n * rate && s'.served == s.served
    && (forall g :: n <= g < |s.backlog| ==> s'.backlog[g] == s.backlog[g])
    && (forall g :: 0 <= g < n ==> s'.backlog[g] == s.backlog[g] + Taken(s.ingested, g, rate, dropEvery))
    && s.peak <= s'.peak && (s'.peak == s.peak || exists g :: 0 <= g < n && s'.backlog[g] == s'.peak)
  }

  lemma ArrivedNext(s: Streamed, was: Streamed, s': Streamed, g: nat, rate: nat, dropEvery: nat)
    requires ArrivedUpTo(s, was, g, rate, dropEvery) && g < |s.backlog|
    requires s'.ingested == was.ingested + rate && s'.served == was.served && |s'.backlog| == |was.backlog|
    requires forall h :: 0 <= h < |s.backlog| && h != g ==> s'.backlog[h] == was.backlog[h]
    requires s'.backlog[g] == was.backlog[g] + Accepted(was.ingested, rate, dropEvery) && s'.peak == Max(was.peak, s'.backlog[g])
    ensures ArrivedUpTo(s, s', g + 1, rate, dropEvery)
  {
    assert (g + 1) * rate == g * rate + rate;
    assert Taken(s.ingested, g, rate, dropEvery) == Accepted(was.ingested, rate, dropEvery);
    if s'.peak == was.peak && was.peak != s.peak {
      var h :| 0 <= h < g && was.backlog[h] == was.peak;
      assert s'.backlog[h] == s'.peak;
    }
  }

  lemma {:induction false} AcceptedBounds(from: nat, n: nat, dropEvery: nat)
    ensures Accepted(from, n, dropEvery) <= n && (dropEvery == 0 ==> Accepted(from, n, dropEvery) == n)
  {
    if n > 0 {
      AcceptedBounds(from, n - 1, dropEvery);
    }
  }

  lemma TakenBounds(s: Streamed, rate: nat, dropEvery: nat)
    ensures forall g: nat :: Taken(s.ingested, g, rate, dropEvery) <= rate
    ensures dropEvery == 0 ==> forall g: nat :: Taken(s.ingested, g, rate, dropEvery) == rate
  {
    forall g: nat ensures Taken(s.ingested, g, rate, dropEvery) <= rate && (dropEvery == 0 ==> Taken(s.ingested, g, rate, dropEvery) == rate) {
      AcceptedBounds(s.ingested + g * rate, rate, dropEvery);
    }
  }

  /** One second of arrivals at every group. */
  method Arrive(s: Streamed, rate: nat, dropEvery: nat) returns (s': Streamed)
    requires Ledger(s, dropEvery) && PeakBounds(s)
    ensures Ledger(s', dropEvery) && PeakBounds(s') && ArrivedUpTo(s, s', |s.backlog|, rate, dropEvery)
    ensures forall g :: 0 <= g < |s.backlog| ==> s.backlog[g] <= s'.backlog[g] <= s.backlog[g] + rate
    ensures dropEvery == 0 ==> forall g :: 0 <= g < |s.backlog| ==> s'.backlog[g] == s.backlog[g] + rate
  {
    s' := s;
    for group := 0 to |s.backlog|
      invariant Ledger(s', dropEvery) && PeakBounds(s') && ArrivedUpTo(s, s', group, rate, dropEvery)
    {
      ghost var was := s';
      s' := ArriveAt(s', group, rate, dropEvery);
      ArrivedNext(s, was, s', group, rate, dropEvery);
    }
    TakenBounds(s, rate, dropEvery);
  }

  /** Enough capacity for every group to serve its whole second. */
  predicate KeepsUp(groups: nat, rate: nat, capacity: nat) {
    groups > 0 && rate <= capacity / groups
  }

  lemma TurnsCover(groups: nat, start: nat, capacity: nat, rate: nat, g: nat)
    requires g < groups && start < groups && KeepsUp(groups, rate, capacity)
    ensures Turns(groups, start, capacity, g) >= rate
  {
  }

  method Second(before: Streamed, start: nat, rate: nat, dropEvery: nat, capacity: nat) returns (s: Streamed)
    requires Ledger(before, dropEvery) && PeakBounds(before) && start < |before.backlog|
    ensures Ledger(s, dropEvery) && PeakBounds(s) && |s.backlog| == |before.backlog|
    ensures s.ingested == before.ingested + |s.backlog| * rate && s.served <= before.served + capacity
    ensures forall g :: 0 <= g < |s.backlog| ==>
              s.backlog[g] == Relieved(before.backlog[g] + Taken(before.ingested, g, rate, dropEvery), Turns(|s.backlog|, start, capacity, g))
    ensures before.peak <= s.peak
    ensures forall g :: 0 <= g < |s.backlog| ==> before.backlog[g] + Taken(before.ingested, g, rate, dropEvery) <= s.peak
    ensures s.peak == before.peak
            || exists g :: 0 <= g < |s.backlog| && before.backlog[g] + Taken(before.ingested, g, rate, dropEvery) == s.peak
    ensures dropEvery == 0 ==> s.peak >= rate
    ensures KeepsUp(|s.backlog|, rate, capacity) && (forall g :: 0 <= g < |s.backlog| ==> before.backlog[g] == 0) ==>
      s.peak <= Max(before.peak, rate) && forall g :: 0 <= g < |s.backlog| ==> s.backlog[g] == 0
  {
    s := Arrive(before, rate, dropEvery);
    var groups := |s.backlog|;
    assert s.backlog[0] <= s.peak;
    if KeepsUp(groups, rate, capacity) {
      forall g | 0 <= g < groups ensures Turns(groups, start, capacity, g) >= rate {
        TurnsCover(groups, start, capacity, rate, g);
      }
    }
    var backlog, served := Serve(s.backlog, start, capacity);
    s := s.(backlog := backlog, served := s.served + served);
  }

  /** The messages sent before a second. */
  function SentBefore(groups: nat, rate: nat, second: nat): nat {
    second * (groups * rate)
  }

  /** What is waiting for the actor of g at the end of the arrivals of a second. */
  function Load(groups: nat, rate: nat, dropEvery: nat, capacity: nat, second: nat, g: nat): nat
    requires g < groups
    decreases second, 1
  {
    Waiting(groups, rate, dropEvery, capacity, second, g) + Taken(SentBefore(groups, rate, second), g, rate, dropEvery)
  }

  /** What is waiting for the actor of g after so many seconds: each second starts the rotation one group further. */
  function Waiting(groups: nat, rate: nat, dropEvery: nat, capacity: nat, seconds: nat, g: nat): nat
    requires g < groups
    decreases seconds, 0
  {
    if seconds == 0 then 0
    else
      Relieved(Load(groups, rate, dropEvery, capacity, seconds - 1, g), Turns(groups, (seconds - 1) % groups, capacity, g))
  }

  /** After so many seconds the backlogs are as specified, and the peak is the largest load so far. */
  ghost predicate StreamedFor(s: Streamed, groups: nat, rate: nat, dropEvery: nat, capacity: nat, seconds: nat) {
    && s.ingested == SentBefore(groups, rate, seconds) && |s.backlog| == groups
    && (forall g: nat :: g < groups ==> s.backlog[g] == Waiting(groups, rate, dropEvery, capacity, seconds, g))
    && IsPeak(groups, rate, dropEvery, capacity, seconds, s.peak)
  }

  lemma StreamedNext(was: Streamed, s: Streamed, groups: nat, rate: nat, dropEvery: nat, capacity: nat, second: nat)
    requires StreamedFor(was, groups, rate, dropEvery, capacity, second) && groups > 0
    requires |s.backlog| == groups && s.ingested == was.ingested + groups * rate && was.peak <= s.peak
    requires forall g: nat :: g < groups ==>
               s.backlog[g] == Relieved(was.backlog[g] + Taken(was.ingested, g, rate, dropEvery), Turns(groups, second % groups, capacity, g))
    requires forall g: nat :: g < groups ==> was.backlog[g] + Taken(was.ingested, g, rate, dropEvery) <= s.peak
    requires s.peak == was.peak || exists g: nat :: g < groups && was.backlog[g] + Taken(was.ingested, g, rate, dropEvery) == s.peak
    ensures StreamedFor(s, groups, rate, dropEvery, capacity, second + 1)
  {
    SentNext(groups, rate, second);
    BacklogsNext(was, s, groups, rate, dropEvery, capacity, second);
    if s.peak != was.peak {
      var g: nat :| g < groups && was.backlog[g] + Taken(was.ingested, g, rate, dropEvery) == s.peak;
      assert FullLoad(groups, rate, dropEvery, capacity, second, g, s.peak);
    }
    forall g: nat | g < groups ensures InLoad(groups, rate, dropEvery, capacity, second, g, s.peak) {
      assert was.backlog[g] + Taken(was.ingested, g, rate, dropEvery) == Load(groups, rate, dropEvery, capacity, second, g);
    }
    PeakNext(groups, rate, dropEvery, capacity, second, was.peak, s.peak);
  }

  lemma BacklogsNext(was: Streamed, s: Streamed, groups: nat, rate: nat, dropEvery: nat, capacity: nat, second: nat)
    requires groups > 0 && |was.backlog| == |s.backlog| == groups && was.ingested == SentBefore(groups, rate, second)
    requires forall g: nat :: g < groups ==> was.backlog[g] == Waiting(groups, rate, dropEvery, capacity, second, g)
    requires forall g: nat :: g < groups ==>
               s.backlog[g] == Relieved(was.backlog[g] + Taken(was.ingested, g, rate, dropEvery), Turns(groups, second % groups, capacity, g))
    ensures forall g: nat :: g < groups ==>
              was.backlog[g] + Taken(was.ingested, g, rate, dropEvery) == Load(groups, rate, dropEvery, capacity, second, g)
    ensures forall g: nat :: g < groups ==> s.backlog[g] == Waiting(groups, rate, dropEvery, capacity, second + 1, g)
  {
    forall g: nat | g < groups
      ensures was.backlog[g] + Taken(was.ingested, g, rate, dropEvery) == Load(groups, rate, dropEvery, capacity, second, g)
      ensures s.backlog[g] == Waiting(groups, rate, dropEvery, capacity, second + 1, g)
    {
      LoadOf(groups, rate, dropEvery, capacity, second, g, was.ingested);
      WaitingNext(groups, rate, dropEvery, capacity, second, g);
    }
  }

  lemma SentNext(groups: nat, rate: nat, second: nat)
    ensures SentBefore(groups, rate, second + 1) == SentBefore(groups, rate, second) + groups * rate
  {
  }

  lemma LoadOf(groups: nat, rate: nat, dropEvery: nat, capacity: nat, second: nat, g: nat, sent: nat)
    requires g < groups && sent == SentBefore(groups, rate, second)
    ensures Load(groups, rate, dropEvery, capacity, second, g)
            == Waiting(groups, rate, dropEvery, capacity, second, g) + Taken(sent, g, rate, dropEvery)
  {
  }

  lemma WaitingNext(groups: nat, rate: nat, dropEvery: nat, capacity: nat, second: nat, g: nat)
    requires g < groups
    ensures Waiting(groups, rate, dropEvery, capacity, second + 1, g)
            == Relieved(Load(groups, rate, dropEvery, capacity, second, g), Turns(groups, second % groups, capacity, g))
  {
  }

  /** The turns of g in the first t seconds of a full rotation. */
  function TurnsUpTo(groups: nat, capacity: nat, g: nat, t: nat): nat
    requires g < groups && t <= groups
  {
    if t == 0 then 0 else TurnsUpTo(groups, capacity, g, t - 1) + Turns(groups, (t - 1) % groups, capacity, g)
  }

  /** How many of the first t starting groups reach g within m slots. */
  function Reaching(groups: nat, m: nat, g: nat, t: nat): int {
    var low := if m <= g + 1 then g + 1 - m else 0;
    var high := if m <= groups && g + groups + 1 - m > g + 1 then g + groups + 1 - m else g + 1;
    (if t <= low then 0 else if t <= g + 1 then t - low else g + 1 - low) + (if t <= high then 0 else t - high)
  }

  lemma {:induction false} TurnsAddUp(groups: nat, capacity: nat, g: nat, t: nat, q: nat, m: nat)
    requires g < groups && t <= groups && q == capacity / groups && m == capacity % groups
    ensures TurnsUpTo(groups, capacity, g, t) == t * q + Reaching(groups, m, g, t)
  {
    if t > 0 {
      TurnsAddUp(groups, capacity, g, t - 1, q, m);
      TurnsUpToNext(groups, capacity, g, t, q, m);
      OneMore(t, q);
      ReachingNext(groups, m, g, t);
    }
  }

  lemma TurnsUpToNext(groups: nat, capacity: nat, g: nat, t: nat, q: nat, m: nat)
    requires g < groups && 0 < t <= groups && q == capacity / groups && m == capacity % groups
    ensures TurnsUpTo(groups, capacity, g, t) == TurnsUpTo(groups, capacity, g, t - 1) + q + if Offset(groups, t - 1, g) < m then 1 else 0
  {
    Division(t - 1, groups, 0, t - 1);
  }

  lemma OneMore(t: nat, q: nat)
    requires t > 0
    ensures t * q == (t - 1) * q + q
  {
  }

  lemma ReachingNext(groups: nat, m: nat, g: nat, t: nat)
    requires g < groups && 0 < t <= groups && m < groups
    ensures Reaching(groups, m, g, t) == Reaching(groups, m, g, t - 1) + if Offset(groups, t - 1, g) < m then 1 else 0
  {
  }

  /** The rotation is fair: over as many seconds as there are groups, every group has exactly `capacity` turns. */
  lemma RotationIsFair(groups: nat, capacity: nat, g: nat)
    requires g < groups
    ensures TurnsUpTo(groups, capacity, g, groups) == capacity
  {
    var q, m := Laps(groups, capacity);
    TurnsOfLap(groups, capacity, g, q, m);
  }

  lemma Laps(groups: nat, capacity: nat) returns (q: nat, m: nat)
    requires groups > 0
    ensures q == capacity / groups && m == capacity % groups && groups * q + m == capacity
  {
    q, m := capacity / groups, capacity % groups;
  }

  lemma TurnsOfLap(groups: nat, capacity: nat, g: nat, q: nat, m: nat)
    requires g < groups && q == capacity / groups && m == capacity % groups
    ensures TurnsUpTo(groups, capacity, g, groups) == groups * q + m
  {
    TurnsAddUp(groups, capacity, g, groups, q, m);
    ReachingAll(groups, m, g);
  }

  lemma ReachingAll(groups: nat, m: nat, g: nat)
    requires g < groups && m < groups
    ensures Reaching(groups, m, g, groups) == m
  {
  }

  /**
   * Every message is committed or dropped, every committed one is served or still waiting,
   * and the service never exceeds the capacity.  If the capacity covers the rate, nothing
   * waits at the end of a second and the peak never exceeds the rate.
   */
  method StreamWorkload(groups: nat, rate: nat, seconds: nat, dropEvery: nat, capacity: nat) returns (s: Streamed)
    requires groups > 0
    ensures s.ingested == seconds * (groups * rate)
    ensures Ledger(s, dropEvery) && PeakBounds(s) && |s.backlog| == groups
    ensures s.served <= seconds * capacity
    ensures KeepsUp(groups, rate, capacity) ==> s.peak <= rate && forall g :: 0 <= g < groups ==> s.backlog[g] == 0
    ensures seconds > 0 && dropEvery == 0 ==> s.peak >= rate
    ensures StreamedFor(s, groups, rate, dropEvery, capacity, seconds)
  {
    var none := seq(groups, _ => 0);
    SumOfNone(groups);
    s := Streamed(0, 0, 0, 0, none, 0);
    for second := 0 to seconds
      invariant s.ingested == second * (groups * rate)
      invariant Ledger(s, dropEvery) && PeakBounds(s) && |s.backlog| == groups
      invariant s.served <= second * capacity
      invariant KeepsUp(groups, rate, capacity) ==> s.peak <= rate && forall g :: 0 <= g < groups ==> s.backlog[g] == 0
      invariant second > 0 && dropEvery == 0 ==> s.peak >= rate
      invariant StreamedFor(s, groups, rate, dropEvery, capacity, second)
    {
      ghost var was := s;
      s := Second(s, second % groups, rate, dropEvery, capacity);
      assert (second + 1) * (groups * rate) == second * (groups * rate) + groups * rate;
      assert (second + 1) * capacity == second * capacity + capacity;
      StreamedNext(was, s, groups, rate, dropEvery, capacity, second);
    }
  }

  /** The peak is the largest load of any group in any second. */
  ghost predicate IsPeak(groups: nat, rate: nat, dropEvery: nat, capacity: nat, seconds: nat, peak: nat) {
    && (forall t: nat, g: nat :: t < seconds && g < groups ==> InLoad(groups, rate, dropEvery, capacity, t, g, peak))
    && (peak == 0 || exists t: nat, g: nat :: t < seconds && g < groups && FullLoad(groups, rate, dropEvery, capacity, t, g, peak))
  }

  ghost predicate InLoad(groups: nat, rate: nat, dropEvery: nat, capacity: nat, second: nat, g: nat, peak: nat)
    requires g < groups
  {
    Load(groups, rate, dropEvery, capacity, second, g) <= peak
  }

  ghost predicate FullLoad(groups: nat, rate: nat, dropEvery: nat, capacity: nat, second: nat, g: nat, peak: nat)
    requires g < groups
  {
    Load(groups, rate, dropEvery, capacity, second, g) == peak
  }

  lemma PeakNext(groups: nat, rate: nat, dropEvery: nat, capacity: nat, second: nat, was: nat, peak: nat)
    requires IsPeak(groups, rate, dropEvery, capacity, second, was) && was <= peak
    requires forall g: nat :: g < groups ==> InLoad(groups, rate, dropEvery, capacity, second, g, peak)
    requires peak == was || exists g: nat :: g < groups && FullLoad(groups, rate, dropEvery, capacity, second, g, peak)
    ensures IsPeak(groups, rate, dropEvery, capacity, second + 1, peak)
  {
    forall t: nat, g: nat | t < second + 1 && g < groups ensures InLoad(groups, rate, dropEvery, capacity, t, g, peak) {
      assert t < second ==> InLoad(groups, rate, dropEvery, capacity, t, g, was);
    }
    if peak == was {
      if peak != 0 {
        var t: nat, g: nat :| t < second && g < groups && FullLoad(groups, rate, dropEvery, capacity, t, g, was);
        assert FullLoad(groups, rate, dropEvery, capacity, t, g, peak);
      }
    } else {
      var g: nat :| g < groups && FullLoad(groups, rate, dropEvery, capacity, second, g, peak);
    }
  }

  lemma {:induction false} SumOfNone(n: nat)
    ensures Sum(seq(n, _ => 0)) == 0
  {
    if n > 0 {
      SumOfNone(n - 1);
      assert seq(n, _ => 0)[..n - 1] == seq(n - 1, _ => 0);
    }
  }
}
