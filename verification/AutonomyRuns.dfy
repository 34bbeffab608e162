/**
 * When overlapping workers emit an opportunity before its earliest time: exactly when
 * another call has moved it, last to a later time, between the due query and the read of the row.
 */
module AutonomyRuns {
  import opened Basics
  import opened Autonomy

  // ---------------------------------------------------------------- who moves the earliest time

  /** A worker puts the opportunity off to the end of a quiet time, and its update takes effect. */
  predicate Postpones(s: System, a: Action, id: Identity) {
    && a.Decide? && Enabled(s, a)
    && var o := s.workers[a.w].point.current;
       && o.id == id && Matches(s.table, o) && s.workers[a.w].now < id.expiresAt
       && a.context.QuietAfter(s.workers[a.w].now) && a.context.quietUntil.value < id.expiresAt
  }

  /** A follow-up is committed. */
  predicate FollowsUp(s: System, a: Action, id: Identity) {
    && a.CommitFollowUp? && Enabled(s, a)
    && s.workers[a.w].point.current.id == id && Matches(s.table, s.workers[a.w].point.current)
  }

  /** The new earliest time, if the step moves it. */
  function Moves(s: System, a: Action, id: Identity): Option<int> {
    if Postpones(s, a, id) then Some(a.context.quietUntil.value)
    else if FollowsUp(s, a, id) then Some(s.workers[a.w].point.earliestAt)
    else None
  }

  /** Nothing else moves the earliest time of a stored opportunity. */
  lemma StepMoves(s: System, a: Action, id: Identity)
    requires TableInv(s.table) && Enabled(s, a) && id in s.table
    ensures id in Apply(s, a).table
    ensures Apply(s, a).table[id].earliestAt == match Moves(s, a, id) case None => s.table[id].earliestAt case Some(at) => at
  {
  }

  // ---------------------------------------------------------------- a worker between query and read

  /** The worker has still to read the row, or to read it again. */
  predicate NotRead(k: Worker, id: Identity) {
    id in k.due || (k.point.Holding? && k.point.current.id == id) || k.point == Rereading(id)
  }

  /** A worker of the due loop: what it holds is no longer in its list. */
  ghost predicate LoopInv(k: Worker) {
    NoRepeats(k.due) && !k.point.FollowingUp? && (k.point.Holding? ==> k.point.current.id !in k.due)
    && (k.point.Rereading? ==> k.point.id !in k.due)
  }

  lemma StepKeepsLoop(s: System, a: Action, w: nat)
    requires TableInv(s.table) && Enabled(s, a) && w in s.workers && LoopInv(s.workers[w]) && a != Stop(w)
    ensures w in Apply(s, a).workers && LoopInv(Apply(s, a).workers[w])
    ensures Apply(s, a).workers[w].now == s.workers[w].now
    ensures forall id :: id in Apply(s, a).workers[w].due ==> id in s.workers[w].due
    ensures Mover(a) != Some(w) ==> Apply(s, a).workers[w] == s.workers[w]
  {
    var due := s.workers[w].due;
    if a == Load(w) {
      assert due == [due[0]] + due[1..];
      assert s.table[due[0]].state.id == due[0];
    }
  }

  /** Whoever has still to read a row had still to read it before, and does not move it. */
  lemma NotReadBefore(s: System, a: Action, w: nat, id: Identity)
    requires TableInv(s.table) && Enabled(s, a) && w in s.workers && LoopInv(s.workers[w]) && a != Stop(w)
    requires w in Apply(s, a).workers && NotRead(Apply(s, a).workers[w], id)
    ensures NotRead(s.workers[w], id)
    ensures Moves(s, a, id).Some? ==> Mover(a) != Some(w)
  {
    if a == Load(w) {
      assert s.table[s.workers[w].due[0]].state.id == s.workers[w].due[0];
    }
  }

  lemma {:induction false} RunKeepsLoop(s: System, acts: seq<Action>, w: nat)
    requires Inv(s) && Run(s, acts).Some? && w in s.workers && LoopInv(s.workers[w]) && Stop(w) !in acts
    ensures var t := Run(s, acts).value; Inv(t) && w in t.workers && LoopInv(t.workers[w]) && t.workers[w].now == s.workers[w].now
    decreases |acts|
  {
    if acts != [] {
      StepKeepsLoop(s, acts[0], w);
      StepKeepsInv(s, acts[0]);
      RunKeepsLoop(Apply(s, acts[0]), acts[1..], w);
    }
  }

  /** The time to which the last postponement or follow-up by someone else than w moves the row, if there is one. */
  function LastMove(s: System, acts: seq<Action>, w: nat, id: Identity): Option<int>
    decreases |acts|
  {
    if acts == [] || !Enabled(s, acts[0]) then None
    else
      var later := LastMove(Apply(s, acts[0]), acts[1..], w, id);
      if later.Some? then later
      else if Mover(acts[0]) != Some(w) then Moves(s, acts[0], id) else None
  }

  /** Until w reads the row, only others move it. */
  lemma {:induction false} RowFollowsOthers(s: System, acts: seq<Action>, w: nat, id: Identity)
    requires Inv(s) && Run(s, acts).Some? && id in s.table
    requires w in s.workers && LoopInv(s.workers[w]) && Stop(w) !in acts
    requires w in Run(s, acts).value.workers && NotRead(Run(s, acts).value.workers[w], id)
    ensures NotRead(s.workers[w], id) && id in Run(s, acts).value.table
    ensures Run(s, acts).value.table[id].earliestAt ==
            match LastMove(s, acts, w, id) case None => s.table[id].earliestAt case Some(at) => at
    decreases |acts|
  {
    if acts != [] {
      var next := Apply(s, acts[0]);
      StepKeepsLoop(s, acts[0], w);
      StepKeepsInv(s, acts[0]);
      StepMoves(s, acts[0], id);
      RowFollowsOthers(next, acts[1..], w, id);
      NotReadBefore(s, acts[0], w, id);
    }
  }

  // ---------------------------------------------------------------- a worker between read and delivery

  predicate IsRead(a: Action, w: nat) {
    a == Load(w) || a == Reread(w)
  }

  /** What the worker has in hand is the opportunity it has read last, with the earliest time it had then. */
  ghost predicate Carries(k: Worker, id: Identity, at: int) {
    match k.point
    case Holding(o) => o.id == id && o.earliestAt == at
    case Sending(o) => o.id == id && o.earliestAt == at
    case _ => true
  }

  lemma StepCarries(s: System, a: Action, w: nat, id: Identity, at: int)
    requires Enabled(s, a) && w in s.workers && Carries(s.workers[w], id, at)
    requires !IsRead(a, w) && w in Apply(s, a).workers
    ensures Carries(Apply(s, a).workers[w], id, at)
  {
  }

  lemma {:induction false} RunCarries(s: System, acts: seq<Action>, w: nat, id: Identity, at: int)
    requires Inv(s) && Run(s, acts).Some? && w in s.workers && LoopInv(s.workers[w]) && Stop(w) !in acts
    requires Carries(s.workers[w], id, at) && forall a :: a in acts ==> !IsRead(a, w)
    ensures var t := Run(s, acts).value; w in t.workers && Carries(t.workers[w], id, at)
    decreases |acts|
  {
    if acts != [] {
      assert acts[0] in acts;
      StepKeepsLoop(s, acts[0], w);
      StepKeepsInv(s, acts[0]);
      StepCarries(s, acts[0], w, id, at);
      RunCarries(Apply(s, acts[0]), acts[1..], w, id, at);
    }
  }

  lemma {:induction false} RunSplit(s: System, acts: seq<Action>, r: nat)
    requires Run(s, acts).Some? && r <= |acts|
    ensures Run(s, acts[..r]).Some? && Run(Run(s, acts[..r]).value, acts[r..]) == Run(s, acts)
    decreases |acts|
  {
    if r == 0 {
      assert acts[0..] == acts;
    } else {
      RunSplit(Apply(s, acts[0]), acts[1..], r - 1);
      assert acts[..r][0] == acts[0] && acts[..r][1..] == acts[1..][..r - 1] && acts[r..] == acts[1..][r - 1..];
    }
  }

  // ---------------------------------------------------------------- emissions are allowed

  /** A worker decides on the opportunity, and nothing speaks against the emission: all its gates are open. */
  predicate Allows(s: System, a: Action, id: Identity) {
    && a.Decide? && Enabled(s, a)
    && s.workers[a.w].point.current.id == id && MayEmit(s.workers[a.w].point.current, a.context, s.workers[a.w].now)
  }

  predicate SomeAllows(s: System, acts: seq<Action>, id: Identity)
    decreases |acts|
  {
    acts != [] && Enabled(s, acts[0]) && (Allows(s, acts[0], id) || SomeAllows(Apply(s, acts[0]), acts[1..], id))
  }

  /** The worker is about to send an event of the opportunity, or to read its row in order to. */
  predicate Sends(k: Worker, id: Identity) {
    (k.point.Sending? && k.point.claim.id == id) || k.point == Rereading(id)
  }

  lemma SendsBefore(s: System, a: Action, w: nat, id: Identity)
    requires Inv(s) && Enabled(s, a) && w in Apply(s, a).workers && Sends(Apply(s, a).workers[w], id)
    ensures Allows(s, a, id) || (w in s.workers && Sends(s.workers[w], id))
  {
    if a.Decide? && a.w == w {
      assert WorkerInv(s, s.workers[w]);
      SendsOnlyIfOpen(s, a);
    } else if a == Reread(w) {
      assert s.table[s.workers[w].point.id].state.id == s.workers[w].point.id;
    }
  }

  lemma DeliveredIsSent(s: System, a: Action, e: DueEvent)
    requires Inv(s) && Enabled(s, a) && e in Apply(s, a).sink && e !in s.sink
    ensures a.Deliver? && Sends(s.workers[a.w], e.id.opportunity)
  {
    assert a.Deliver?;
    assert WorkerInv(s, s.workers[a.w]);
  }

  lemma {:induction false} SentWasAllowed(s: System, acts: seq<Action>, e: DueEvent)
    requires Inv(s) && Run(s, acts).Some? && e in Run(s, acts).value.sink && e !in s.sink
    ensures SomeAllows(s, acts, e.id.opportunity) || exists w :: w in s.workers && Sends(s.workers[w], e.id.opportunity)
    decreases |acts|
  {
    var a, id := acts[0], e.id.opportunity;
    var next := Apply(s, a);
    StepKeepsInv(s, a);
    if e in next.sink {
      DeliveredIsSent(s, a, e);
    } else {
      SentWasAllowed(next, acts[1..], e);
      if w :| w in next.workers && Sends(next.workers[w], id) && !SomeAllows(next, acts[1..], id) {
        SendsBefore(s, a, w, id);
      }
    }
  }

  /** Every event that ever reaches the sink was preceded by a decision on its opportunity with all gates open. */
  lemma EmissionsWereAllowed(acts: seq<Action>, e: DueEvent)
    requires Run(Init, acts).Some? && e in Run(Init, acts).value.sink
    ensures SomeAllows(Init, acts, e.id.opportunity)
  {
    SentWasAllowed(Init, acts, e);
  }

  /** The row that a read takes up. */
  function ReadBy(s: System, a: Action, w: nat): Identity
    requires Enabled(s, a) && IsRead(a, w)
  {
    if a.Load? then s.workers[w].due[0] else s.workers[w].point.id
  }

  lemma ReadTakesRow(s: System, a: Action, w: nat)
    requires Inv(s) && Enabled(s, a) && IsRead(a, w)
    ensures var id := ReadBy(s, a, w);
            && id in s.table && NotRead(s.workers[w], id)
            && Carries(Apply(s, a).workers[w], id, s.table[id].earliestAt)
  {
  }

  /**
   * A worker queries the due ids, other calls go on, it reads a row for the last time and is
   * about to deliver its event.  The event is early exactly when, between the query and that
   * read, another call moved the row, and the last such move was to a time after the query's.
   */
  lemma EarlyIffPostponed(before: seq<Action>, w: nat, now: int, due: seq<Identity>, acts: seq<Action>, r: nat)
    requires Run(Init, before).Some? && Enabled(Run(Init, before).value, Query(w, now, due))
    requires var s := Apply(Run(Init, before).value, Query(w, now, due));
             Run(s, acts).Some? && Stop(w) !in acts && Enabled(Run(s, acts).value, Deliver(w))
    requires r < |acts| && IsRead(acts[r], w) && forall a :: a in acts[r + 1..] ==> !IsRead(a, w)
    ensures var s := Apply(Run(Init, before).value, Query(w, now, due)); var t := Run(s, acts).value;
            var claim := t.workers[w].point.claim; var event := DueEventOf(claim, t.workers[w].now);
            && event.occurredAt == now && claim.id in due
            && (InWindow(event) <==> match LastMove(s, acts[..r], w, claim.id) case None => true case Some(at) => at <= now)
  {
    var start := Run(Init, before).value;
    var s := Apply(start, Query(w, now, due));
    RunKeepsInv(Init, before);
    StepKeepsInv(start, Query(w, now, due));
    RunSplit(s, acts, r);
    var t := Run(s, acts[..r]).value;
    RunKeepsLoop(s, acts[..r], w);
    assert acts[r..][0] == acts[r] && acts[r..][1..] == acts[r + 1..];
    assert acts[r] in acts;
    ReadTakesRow(t, acts[r], w);
    var id := ReadBy(t, acts[r], w);
    QueriedOnly(s, acts[..r], w, id);
    RowFollowsOthers(s, acts[..r], w, id);
    StepKeepsInv(t, acts[r]);
    StepKeepsLoop(t, acts[r], w);
    RunKeepsLoop(Apply(t, acts[r]), acts[r + 1..], w);
    RunCarries(Apply(t, acts[r]), acts[r + 1..], w, id, t.table[id].earliestAt);
  }

  /** What a worker has still to read at some point it had to read from the start. */
  lemma {:induction false} QueriedOnly(s: System, acts: seq<Action>, w: nat, id: Identity)
    requires Inv(s) && Run(s, acts).Some? && w in s.workers && LoopInv(s.workers[w]) && Stop(w) !in acts
    requires w in Run(s, acts).value.workers && NotRead(Run(s, acts).value.workers[w], id)
    ensures NotRead(s.workers[w], id)
    decreases |acts|
  {
    if acts != [] {
      StepKeepsLoop(s, acts[0], w);
      StepKeepsInv(s, acts[0]);
      QueriedOnly(Apply(s, acts[0]), acts[1..], w, id);
      NotReadBefore(s, acts[0], w, id);
    }
  }
}
