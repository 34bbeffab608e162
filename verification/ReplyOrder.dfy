/**
 * First reserved, first served: when the critical sections of a reply lane run in the order
 * of its reservations, and exactly which aborts spoil that.
 */
module ReplyOrder {
  import opened Basics
  import opened ReplyLanes

  /** A reservation in this phase may still enter its critical section. */
  predicate CanEnter(p: Phase) {
    p.Preparing? || p.AwaitingLock? || (p.AwaitingPredecessor? && p.work)
  }

  ghost predicate InEntryOrder(s: State) {
    forall i, j :: 0 <= i < j < |s.entered| ==> InOrder(s.history, s.entered[i], s.entered[j])
  }

  /** Behind a reservation that can still enter, every newer one is waiting. */
  ghost predicate Behind(s: State) {
    forall u, n: Ticket :: u in s.live && CanEnter(s.live[u].phase) && u < n < |s.history| && s.history[n] == s.live[u].group ==>
      n in s.live && !s.live[n].phase.Passed()
  }

  ghost predicate EnteredInv(s: State) {
    && (forall e :: e in s.entered ==> e < |s.history| && (e in s.live ==> s.live[e].phase.Critical? || s.live[e].phase.Leaving?))
    && (forall t :: t in s.live && s.live[t].phase.Critical? ==> t in s.entered)
  }

  /** An abort at a moment when no older reservation of the group can still enter. */
  predicate Spares(s: State, a: Action)
    requires Enabled(s, a)
  {
    a.Abort? ==>
      forall u :: u in s.live && u < a.t && s.live[u].group == s.live[a.t].group ==> !CanEnter(s.live[u].phase)
  }

  lemma PassedIsLast(s: State, a: Action, u: Ticket)
    requires TicketsInv(s) && ChainInv(s) && Behind(s) && Enabled(s, a) && a.PassPredecessor?
    requires u in s.live && u < a.t && s.live[u].group == s.live[a.t].group
    ensures !CanEnter(s.live[u].phase)
  {
    var p := s.live[a.t].predecessor.value;
    assert u <= p && s.history[p] == s.live[u].group && p !in s.live;
  }

  lemma MoveKeepsBehind(s: State, a: Action)
    requires TicketsInv(s) && ChainInv(s) && Behind(s) && Enabled(s, a) && Spares(s, a) && !a.Reserve? && !a.Finish?
    ensures Behind(Apply(s, a))
  {
    var s' := Apply(s, a);
    assert s'.live == s.live[a.t := s'.live[a.t]] && s'.history == s.history;
    forall u, n: Ticket | u in s'.live && CanEnter(s'.live[u].phase) && u < n < |s.history| && s.history[n] == s'.live[u].group
      ensures n in s'.live && !s'.live[n].phase.Passed()
    {
      assert u in s.live && CanEnter(s.live[u].phase) && s.live[u].group == s'.live[u].group;
      if n == a.t && a.PassPredecessor? {
        PassedIsLast(s, a, u);
      }
    }
  }

  lemma ReserveKeepsBehind(s: State, a: Action)
    requires TicketsInv(s) && Behind(s) && a.Reserve?
    ensures Behind(Apply(s, a))
  {
    var n := |s.history|;
    assert Apply(s, a).live == s.live[n := Apply(s, a).live[n]];
  }

  lemma FinishKeepsBehind(s: State, a: Action)
    requires TicketsInv(s) && Behind(s) && Enabled(s, a) && a.Finish?
    ensures Behind(Apply(s, a))
  {
    assert Apply(s, a).live == s.live - {a.t};
  }

  lemma StepKeepsBehind(s: State, a: Action)
    requires TicketsInv(s) && ChainInv(s) && Behind(s) && Enabled(s, a) && Spares(s, a)
    ensures Behind(Apply(s, a))
  {
    if a.Reserve? {
      ReserveKeepsBehind(s, a);
    } else if a.Finish? {
      FinishKeepsBehind(s, a);
    } else {
      MoveKeepsBehind(s, a);
    }
  }

  lemma StepKeepsEntered(s: State, a: Action)
    requires TicketsInv(s) && EnteredInv(s) && Enabled(s, a)
    ensures EnteredInv(Apply(s, a)) && s.entered <= Apply(s, a).entered
  {
  }

  lemma StepKeepsEntryOrder(s: State, a: Action)
    requires TicketsInv(s) && Behind(s) && EnteredInv(s) && InEntryOrder(s) && Enabled(s, a)
    ensures InEntryOrder(Apply(s, a))
  {
    var s' := Apply(s, a);
    if a.Acquire? {
      forall e | e in s.entered ensures InOrder(s.history, e, a.t) {
      }
    } else {
      assert forall t, u :: InOrder(s.history, t, u) ==> InOrder(s'.history, t, u);
    }
  }

  ghost predicate FifoInv(s: State) {
    Inv(s) && Behind(s) && EnteredInv(s) && InEntryOrder(s)
  }

  /** No abort of the run leaves behind an older reservation that can still enter. */
  predicate Considerate(s: State, acts: seq<Action>)
    decreases |acts|
  {
    acts == [] || (Enabled(s, acts[0]) ==> Spares(s, acts[0]) && Considerate(Apply(s, acts[0]), acts[1..]))
  }

  lemma {:induction false} RunKeepsFifo(s: State, acts: seq<Action>)
    requires FifoInv(s) && Considerate(s, acts) && Run(s, acts).Some?
    ensures FifoInv(Run(s, acts).value)
    decreases |acts|
  {
    if acts != [] {
      StepKeepsInv(s, acts[0]);
      StepKeepsBehind(s, acts[0]);
      StepKeepsEntered(s, acts[0]);
      StepKeepsEntryOrder(s, acts[0]);
      RunKeepsFifo(Apply(s, acts[0]), acts[1..]);
    }
  }

  /** In considerate runs the critical sections of a group run in reservation order. */
  lemma FirstReservedFirstServed(acts: seq<Action>)
    requires Considerate(Init, acts) && Run(Init, acts).Some?
    ensures InEntryOrder(Run(Init, acts).value)
  {
    RunKeepsFifo(Init, acts);
  }

  /** Abort-free runs are considerate. */
  lemma {:induction false} AbortFreeIsConsiderate(s: State, acts: seq<Action>)
    requires AbortFree(acts)
    ensures Considerate(s, acts)
    decreases |acts|
  {
    if acts != [] && Enabled(s, acts[0]) {
      assert acts[0] in acts;
      AbortFreeIsConsiderate(Apply(s, acts[0]), acts[1..]);
    }
  }

  // ---------------------------------------------------------------- what any other abort leads to

  /** Ticket t is gone, and every newer live reservation of its group waits for t or a newer one. */
  ghost predicate Gap(s: State, g: Group, t: Ticket) {
    && t < |s.history| && s.history[t] == g && t !in s.live
    && forall v :: v in s.live && v > t && s.live[v].group == g ==> s.live[v].predecessor.Some? && s.live[v].predecessor.value >= t
  }

  /** The oldest live reservation of the group behind t, and no newer than v. */
  lemma {:induction false} FirstBehind(s: State, g: Group, t: Ticket, v: Ticket) returns (w: Ticket)
    requires v in s.live && v > t && s.live[v].group == g
    ensures w in s.live && t < w <= v && s.live[w].group == g
    ensures forall x :: x in s.live && t < x < w ==> s.live[x].group != g
    decreases v
  {
    w := v;
    if x :| x in s.live && t < x < v && s.live[x].group == g {
      w := FirstBehind(s, g, t, x);
    }
  }

  /** It can step, or the holder of the lock can leave. */
  lemma BehindSteps(s: State, g: Group, t: Ticket, w: Ticket) returns (a: Action)
    requires Inv(s) && Gap(s, g, t) && w in s.live && t < w && s.live[w].group == g && !s.live[w].phase.Critical?
    requires forall x :: x in s.live && t < x < w ==> s.live[x].group != g
    ensures Enabled(s, a) && !a.Reserve? && !a.Abort?
    ensures (a.Prepare? ==> a.work) && (a.t == w || s.live[a.t].phase.Critical?)
  {
    match s.live[w].phase
    case Preparing => a := Prepare(w, true);
    case AwaitingPredecessor(_) => a := PassPredecessor(w);
    case AwaitingLock =>
      if s.live[w].lock in s.held {
        var u :| Holds(s, u, s.live[w].lock);
        a := Release(u);
      } else {
        a := Acquire(w);
      }
    case Leaving => a := Finish(w);
  }

  /** Some reservation newer than u has entered; u has not, but still can. */
  ghost predicate Overtaken(s: State, u: Ticket) {
    && u in s.live && CanEnter(s.live[u].phase) && u !in s.entered
    && exists v :: v in s.entered && v > u && v < |s.history| && s.history[v] == s.live[u].group
  }

  /** What the run that overtakes u keeps in every state. */
  ghost predicate Waiting(s: State, t: Ticket, u: Ticket) {
    && Inv(s) && EnteredInv(s) && u in s.live && CanEnter(s.live[u].phase) && u < t && Gap(s, s.live[u].group, t)
  }

  lemma StepKeepsGap(s: State, g: Group, t: Ticket, a: Action)
    requires TicketsInv(s) && Gap(s, g, t) && Enabled(s, a) && !a.Reserve?
    ensures Gap(Apply(s, a), g, t)
  {
  }

  lemma StepKeepsWaiting(s: State, t: Ticket, u: Ticket, a: Action)
    requires Waiting(s, t, u) && Enabled(s, a) && !a.Reserve? && !a.Abort? && a.t != u
    ensures Waiting(Apply(s, a), t, u) && Apply(s, a).live[u] == s.live[u]
  {
    StepKeepsGap(s, s.live[u].group, t, a);
    StepKeepsInv(s, a);
    StepKeepsEntered(s, a);
    OthersStay(s, a, u);
  }

  lemma OthersStay(s: State, a: Action, u: Ticket)
    requires u in s.live && Enabled(s, a) && !a.Reserve? && a.t != u
    ensures u in Apply(s, a).live && Apply(s, a).live[u] == s.live[u]
  {
  }

  /** Behind the gap, v waits its turn. */
  ghost predicate Queued(s: State, t: Ticket, u: Ticket, v: Ticket) {
    Waiting(s, t, u) && v in s.live && v > t && s.live[v].group == s.live[u].group && CanEnter(s.live[v].phase)
  }

  /** A step that is neither a reservation nor an abort lets whoever can enter enter, or still be able to. */
  lemma StaysOrEnters(s: State, a: Action, v: Ticket)
    requires Enabled(s, a) && !a.Reserve? && !a.Abort? && (a.Prepare? ==> a.work)
    requires v in s.live && CanEnter(s.live[v].phase)
    ensures var n := Apply(s, a);
            v in n.live && n.live[v].group == s.live[v].group && (CanEnter(n.live[v].phase) || (v == a.t && v in n.entered))
    ensures v != a.t ==> Apply(s, a).live[v] == s.live[v]
  {
  }

  lemma QueueMoves(s: State, t: Ticket, u: Ticket, v: Ticket, w: Ticket) returns (a: Action, next: State)
    requires Queued(s, t, u, v) && w in s.live && t < w <= v && s.live[w].group == s.live[u].group && !s.live[w].phase.Critical?
    requires forall x :: x in s.live && t < x < w ==> s.live[x].group != s.live[u].group
    ensures Enabled(s, a) && !a.Abort? && next == Apply(s, a) && Owed(next) < Owed(s)
    ensures Waiting(next, t, u) && (v in next.entered || Queued(next, t, u, v))
    ensures next.live[u] == s.live[u]
  {
    a := BehindSteps(s, s.live[u].group, t, w);
    next := Apply(s, a);
    StepKeepsWaiting(s, t, u, a);
    StaysOrEnters(s, a, v);
    StepOwesLess(s, a);
  }

  lemma QueuedInHistory(s: State, t: Ticket, u: Ticket, v: Ticket)
    requires Queued(s, t, u, v)
    ensures v < |s.history| && s.history[v] == s.live[u].group
  {
  }

  lemma RunCons(s: State, a: Action, rest: seq<Action>)
    requires Enabled(s, a) && !a.Abort? && AbortFree(rest)
    ensures Run(s, [a] + rest) == Run(Apply(s, a), rest) && AbortFree([a] + rest)
  {
    assert ([a] + rest)[1..] == rest;
  }

  /** With a newer reservation v behind the gap, someone overtakes u. */
  lemma {:induction false} Overtake(s: State, t: Ticket, u: Ticket, v: Ticket) returns (acts: seq<Action>, e: State)
    requires Queued(s, t, u, v)
    ensures AbortFree(acts) && Run(s, acts) == Some(e)
    ensures Inv(e) && EnteredInv(e) && Overtaken(e, u)
    decreases Owed(s)
  {
    var w := FirstBehind(s, s.live[u].group, t, v);
    if s.live[w].phase.Critical? {
      acts, e := [], s;
      CriticalEntered(s, t, u, w);
    } else {
      var a, next := QueueMoves(s, t, u, v, w);
      var rest := [];
      if v in next.entered {
        e := next;
        EnteredInHistory(s, next, t, u, v, a);
      } else {
        rest, e := Overtake(next, t, u, v);
      }
      RunCons(s, a, rest);
      acts := [a] + rest;
    }
  }

  lemma CriticalEntered(s: State, t: Ticket, u: Ticket, w: Ticket)
    requires Waiting(s, t, u) && w in s.live && w > t && s.live[w].group == s.live[u].group && s.live[w].phase.Critical?
    ensures Inv(s) && EnteredInv(s) && Overtaken(s, u)
  {
    assert w in s.entered;
  }

  lemma EnteredInHistory(s: State, next: State, t: Ticket, u: Ticket, v: Ticket, a: Action)
    requires Queued(s, t, u, v) && Enabled(s, a) && next == Apply(s, a) && Waiting(next, t, u) && next.live[u] == s.live[u] && v in next.entered
    ensures Inv(next) && EnteredInv(next) && Overtaken(next, u)
  {
    QueuedInHistory(s, t, u, v);
    assert next.history[v] == s.history[v];
  }

  /** The next reservation of the group is such a v. */
  lemma ReserveBehind(s: State, t: Ticket, u: Ticket)
    requires Waiting(s, t, u)
    ensures Queued(Apply(s, Reserve(s.live[u].group, [])), t, u, |s.history|)
  {
    var g := s.live[u].group;
    var a := Reserve(g, []);
    StepKeepsInv(s, a);
    StepKeepsEntered(s, a);
    TailIsNewest(s, g, u);
    NewestIsLast(s.history, g);
  }

  // ---------------------------------------------------------------- and then u enters after all

  lemma {:induction false} EnteredGrows(s: State, acts: seq<Action>)
    requires Run(s, acts).Some?
    ensures s.entered <= Run(s, acts).value.entered && s.history <= Run(s, acts).value.history
    decreases |acts|
  {
    if acts != [] {
      EnteredGrows(Apply(s, acts[0]), acts[1..]);
    }
  }

  /** Whoever can enter does so in a run that aborts nobody and empties the lanes. */
  lemma {:induction false} EntersBeforeLeaving(s: State, acts: seq<Action>, u: Ticket)
    requires u in s.live && CanEnter(s.live[u].phase) && AbortFree(acts) && Working(acts)
    requires Run(s, acts).Some? && u !in Run(s, acts).value.live
    ensures u in Run(s, acts).value.entered
    decreases |acts|
  {
    var a := acts[0];
    var next := Apply(s, a);
    assert a in acts;
    if a == Acquire(u) {
      EnteredGrows(next, acts[1..]);
      assert u in next.entered;
    } else {
      EntersBeforeLeaving(next, acts[1..], u);
    }
  }

  lemma OvertakenLate(s: State, u: Ticket) returns (acts: seq<Action>)
    requires Inv(s) && Overtaken(s, u)
    ensures AbortFree(acts) && Run(s, acts).Some? && !InEntryOrder(Run(s, acts).value)
  {
    acts := LanesDrain(s);
    var e := Run(s, acts).value;
    EnteredGrows(s, acts);
    EntersBeforeLeaving(s, acts, u);
    var v :| v in s.entered && v > u && v < |s.history| && s.history[v] == s.live[u].group;
    var i :| 0 <= i < |s.entered| && s.entered[i] == v;
    var j :| 0 <= j < |e.entered| && e.entered[j] == u;
    assert j >= |s.entered|;
    UInHistory(s, u);
    assert !InOrder(e.history, e.entered[i], e.entered[j]);
  }

  lemma UInHistory(s: State, u: Ticket)
    requires Inv(s) && u in s.live
    ensures u < |s.history| && s.history[u] == s.live[u].group
  {
  }

  lemma RunThen(s: State, first: seq<Action>, rest: seq<Action>)
    requires Run(s, first).Some? && Run(Run(s, first).value, rest).Some? && AbortFree(first) && AbortFree(rest)
    ensures Run(s, first + rest) == Run(Run(s, first).value, rest) && AbortFree(first + rest)
  {
    RunConcat(s, first, rest);
  }

  lemma AbortedLeaves(s: State, a: Action, u: Ticket)
    requires Inv(s) && EnteredInv(s) && Enabled(s, a) && a.Abort?
    requires u in s.live && u < a.t && s.live[u].group == s.live[a.t].group && CanEnter(s.live[u].phase)
    ensures Enabled(Apply(s, a), Finish(a.t)) && Waiting(Apply(Apply(s, a), Finish(a.t)), a.t, u)
    ensures Apply(Apply(s, a), Finish(a.t)).live[u] == s.live[u]
  {
    StepKeepsInv(s, a);
    StepKeepsEntered(s, a);
    var aborted := Apply(s, a);
    assert aborted.live[u] == s.live[u] && aborted.live[a.t].group == s.live[a.t].group;
    FinishOpensGap(aborted, a.t, u);
  }

  /** Whoever leaves in front of u opens a gap behind it. */
  lemma FinishOpensGap(s: State, t: Ticket, u: Ticket)
    requires Inv(s) && EnteredInv(s) && Enabled(s, Finish(t))
    requires u in s.live && u < t && s.live[u].group == s.live[t].group && CanEnter(s.live[u].phase)
    ensures Waiting(Apply(s, Finish(t)), t, u) && Apply(s, Finish(t)).live[u] == s.live[u]
  {
    StepKeepsInv(s, Finish(t));
    StepKeepsEntered(s, Finish(t));
    FinishLeavesGap(s, t);
  }

  lemma FinishLeavesGap(s: State, t: Ticket)
    requires TicketsInv(s) && ChainInv(s) && Enabled(s, Finish(t))
    ensures Gap(Apply(s, Finish(t)), s.live[t].group, t)
  {
  }

  /** An abort in front of an older reservation that can still enter: it is overtaken by some continuation. */
  lemma SpoiltOrder(s: State, a: Action, u: Ticket) returns (acts: seq<Action>)
    requires Inv(s) && EnteredInv(s) && Enabled(s, a) && a.Abort?
    requires u in s.live && u < a.t && s.live[u].group == s.live[a.t].group && CanEnter(s.live[u].phase)
    ensures AbortFree(acts) && Run(Apply(s, a), acts).Some? && !InEntryOrder(Run(Apply(s, a), acts).value)
  {
    var t := a.t;
    var gone := Apply(Apply(s, a), Finish(t));
    var r := Reserve(s.live[u].group, []);
    AbortedLeaves(s, a, u);
    ReserveBehind(gone, t, u);
    acts := OvertakenAfter(Apply(gone, r), t, u, |gone.history|);
    RunCons(gone, r, acts);
    RunCons(Apply(s, a), Finish(t), [r] + acts);
    acts := [Finish(t)] + ([r] + acts);
  }

  lemma OvertakenAfter(s: State, t: Ticket, u: Ticket, v: Ticket) returns (acts: seq<Action>)
    requires Queued(s, t, u, v)
    ensures AbortFree(acts) && Run(s, acts).Some? && !InEntryOrder(Run(s, acts).value)
  {
    var first, e := Overtake(s, t, u, v);
    var rest := OvertakenLate(e, u);
    RunThen(s, first, rest);
    acts := first + rest;
  }

  /**
   * After any considerate run: an abort is harmless for the order of service, whatever
   * considerate run follows, exactly when no older reservation of the group can still enter.
   */
  lemma AbortKeepsOrderIff(before: seq<Action>, a: Action)
    requires Considerate(Init, before) && Run(Init, before).Some? && a.Abort? && Enabled(Run(Init, before).value, a)
    ensures var s := Run(Init, before).value; var next := Apply(s, a);
            Spares(s, a) <==> forall acts :: Considerate(next, acts) && Run(next, acts).Some? ==> InEntryOrder(Run(next, acts).value)
  {
    var s := Run(Init, before).value;
    var next := Apply(s, a);
    RunKeepsFifo(Init, before);
    if Spares(s, a) {
      StepKeepsInv(s, a);
      StepKeepsBehind(s, a);
      StepKeepsEntered(s, a);
      StepKeepsEntryOrder(s, a);
      forall acts | Considerate(next, acts) && Run(next, acts).Some? ensures InEntryOrder(Run(next, acts).value) {
        RunKeepsFifo(next, acts);
      }
    } else {
      var u :| u in s.live && u < a.t && s.live[u].group == s.live[a.t].group && CanEnter(s.live[u].phase);
      var acts := SpoiltOrder(s, a, u);
      AbortFreeIsConsiderate(next, acts);
    }
  }
}
