/**
 * When a reply lane leaves a tail entry behind: exactly after an abort that comes before its
 * predecessor has completed.
 */
module ReplyTails {
  import opened Basics
  import opened ReplyLanes
  import opened ReplyOrder

  /** Every tail entry belongs to a lane in use. */
  predicate Tidy(s: State) {
    s.registry.tails.Keys == s.registry.users.Keys
  }

  /** The reservation that registered the tail of g is gone, and the tail is not. */
  predicate Stale(s: State, g: Group) {
    g in s.registry.tails && s.registry.tails[g] !in s.live
  }

  lemma StepKeepsStale(s: State, a: Action, g: Group)
    requires Stale(s, g) && Enabled(s, a) && !a.Reserve?
    ensures Stale(Apply(s, a), g)
  {
    if !a.Finish? {
      MoveShape(s, a);
    }
  }

  /** Only the reservation that registered a tail removes it, so without a new one the tail stays for good. */
  lemma {:induction false} RunKeepsStale(s: State, acts: seq<Action>, g: Group)
    requires Stale(s, g) && NoReserve(acts) && Run(s, acts).Some?
    ensures Stale(Run(s, acts).value, g)
    decreases |acts|
  {
    if acts != [] {
      assert acts[0] in acts && NoReserve(acts[1..]);
      StepKeepsStale(s, acts[0], g);
      RunKeepsStale(Apply(s, acts[0]), acts[1..], g);
    }
  }

  /** Nobody newer than t is left while u, which is older, still lives: then the tail is stale. */
  lemma NoneBehindIsStale(s: State, t: Ticket, u: Ticket)
    requires Inv(s) && u in s.live && u < t && Gap(s, s.live[u].group, t)
    requires forall v :: v in s.live && v > t ==> s.live[v].group != s.live[u].group
    ensures Stale(s, s.live[u].group)
  {
    var g := s.live[u].group;
    TailIsNewest(s, g, u);
    NewestIsLast(s.history, g);
    assert Newest(s.history, g) == Some(s.registry.tails[g]);
  }

  /** The oldest of those behind the gap goes on, or the holder of the lock lets go of it; u stays. */
  lemma NextBehind(s: State, t: Ticket, u: Ticket, v: Ticket) returns (a: Action)
    requires Inv(s) && u in s.live && u < t && Gap(s, s.live[u].group, t)
    requires v in s.live && v > t && s.live[v].group == s.live[u].group
    ensures Enabled(s, a) && !a.Reserve? && !a.Abort?
    ensures u in Apply(s, a).live && Apply(s, a).live[u].group == s.live[u].group
  {
    var w := FirstBehind(s, s.live[u].group, t, v);
    if s.live[w].phase.Critical? {
      a := Release(w);
    } else {
      a := BehindSteps(s, s.live[u].group, t, w);
    }
  }

  /** Everyone behind the gap can leave before u does. */
  lemma {:induction false} LeaveBefore(s: State, t: Ticket, u: Ticket) returns (acts: seq<Action>, e: State)
    requires Inv(s) && u in s.live && u < t && Gap(s, s.live[u].group, t)
    ensures AbortFree(acts) && Run(s, acts) == Some(e) && Inv(e) && Stale(e, s.live[u].group)
    decreases Owed(s)
  {
    if v :| v in s.live && v > t && s.live[v].group == s.live[u].group {
      var a := NextBehind(s, t, u, v);
      var next := Apply(s, a);
      StepKeepsInv(s, a);
      StepKeepsGap(s, s.live[u].group, t, a);
      StepOwesLess(s, a);
      var rest;
      rest, e := LeaveBefore(next, t, u);
      RunCons(s, a, rest);
      acts := [a] + rest;
    } else {
      acts, e := [], s;
      NoneBehindIsStale(s, t, u);
    }
  }

  /** A stale tail is all that is left of its lane once the lanes have drained. */
  lemma StaleStays(s: State, g: Group) returns (acts: seq<Action>)
    requires Inv(s) && Stale(s, g)
    ensures AbortFree(acts) && Run(s, acts).Some?
    ensures var e := Run(s, acts).value; e.live == map[] && e.registry.users == map[] && g in e.registry.tails
  {
    acts := LanesDrain(s);
    RunKeepsStale(s, acts, g);
  }

  lemma FinishKeepsOlder(s: State, t: Ticket, u: Ticket)
    requires Inv(s) && Enabled(s, Finish(t)) && u in s.live && u < t && s.live[u].group == s.live[t].group
    ensures var left := Apply(s, Finish(t)); Inv(left) && u in left.live && left.live[u] == s.live[u] && Gap(left, s.live[u].group, t)
  {
    StepKeepsInv(s, Finish(t));
    FinishLeavesGap(s, t);
  }

  /** An abort in front of an older reservation: some continuation without aborts empties all lanes but for the tail. */
  lemma SpoiltTail(s: State, a: Action, u: Ticket) returns (acts: seq<Action>)
    requires Inv(s) && Enabled(s, a) && a.Abort?
    requires u in s.live && u < a.t && s.live[u].group == s.live[a.t].group
    ensures AbortFree(acts) && Run(Apply(s, a), acts).Some?
    ensures var e := Run(Apply(s, a), acts).value;
            e.live == map[] && e.registry.users == map[] && s.live[u].group in e.registry.tails
  {
    var aborted := Apply(s, a);
    StepKeepsInv(s, a);
    assert aborted.live[u] == s.live[u] && aborted.live[a.t].group == s.live[a.t].group;
    FinishKeepsOlder(aborted, a.t, u);
    var left := Apply(aborted, Finish(a.t));
    var first, e := LeaveBefore(left, a.t, u);
    var rest := StaleStays(e, s.live[u].group);
    RunThen(left, first, rest);
    RunCons(aborted, Finish(a.t), first + rest);
    acts := [Finish(a.t)] + (first + rest);
  }

  lemma HarmfulHasOlder(s: State, a: Action) returns (u: Ticket)
    requires TicketsInv(s) && Enabled(s, a) && a.Abort? && !Harmless(s, a)
    ensures u in s.live && u < a.t && s.live[u].group == s.live[a.t].group
  {
    u := s.live[a.t].predecessor.value;
    assert s.history[u] == s.live[a.t].group;
  }

  /**
   * After any patient run: an abort leaves no tail behind, in whatever patient run follows,
   * exactly when its predecessor has completed.  Otherwise a continuation without any abort
   * ends with nobody live and a tail entry left.
   */
  lemma AbortKeepsTailsIff(before: seq<Action>, a: Action)
    requires Patient(Init, before) && Run(Init, before).Some? && a.Abort? && Enabled(Run(Init, before).value, a)
    ensures var s := Run(Init, before).value; var next := Apply(s, a);
            && (Harmless(s, a) <==> forall acts :: Patient(next, acts) && Run(next, acts).Some? ==> Tidy(Run(next, acts).value))
            && (Harmless(s, a) <==> forall acts :: AbortFree(acts) && Run(next, acts).Some? ==> Tidy(Run(next, acts).value))
  {
    var s := Run(Init, before).value;
    var next := Apply(s, a);
    RunStaysTidy(Init, before);
    if Harmless(s, a) {
      forall acts | Patient(next, acts) && Run(next, acts).Some? ensures Tidy(Run(next, acts).value) {
        HarmlessLeaksNoTail(s, a, acts);
      }
      forall acts | AbortFree(acts) && Run(next, acts).Some? ensures Tidy(Run(next, acts).value) {
        AbortFreeIsPatient(next, acts);
      }
    } else {
      var acts := HarmfulLeaksTail(s, a);
      AbortFreeIsPatient(next, acts);
    }
  }

  lemma HarmlessLeaksNoTail(s: State, a: Action, acts: seq<Action>)
    requires TidyInv(s) && Enabled(s, a) && a.Abort? && Harmless(s, a)
    requires Patient(Apply(s, a), acts) && Run(Apply(s, a), acts).Some?
    ensures Tidy(Run(Apply(s, a), acts).value)
  {
    AbortStaysTidy(s, a);
    RunStaysTidy(Apply(s, a), acts);
  }

  lemma HarmfulLeaksTail(s: State, a: Action) returns (acts: seq<Action>)
    requires Inv(s) && Enabled(s, a) && a.Abort? && !Harmless(s, a)
    ensures AbortFree(acts) && Run(Apply(s, a), acts).Some? && !Tidy(Run(Apply(s, a), acts).value)
  {
    var u := HarmfulHasOlder(s, a);
    acts := SpoiltTail(s, a, u);
  }

  lemma AbortStaysTidy(s: State, a: Action)
    requires TidyInv(s) && Enabled(s, a) && a.Abort? && Harmless(s, a)
    ensures TidyInv(Apply(s, a))
  {
    StepKeepsInv(s, a);
    StepKeepsOrder(s, a);
    StepLeaksNoTail(s, a);
  }
}
