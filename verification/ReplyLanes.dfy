/**
 * Per-group reply lanes of the AstrBot bridge.
 *
 * The registry is three dictionaries (lock, last completion, number of users per group).
 * Its updates are functions on a `Registry` value.  `ReplyLaneRegistry` performs them in
 * place, and the transition system `Apply` interleaves any number of coroutines over them.
 *
 * No body under the registry lock awaits, so that lock is never held across a suspension
 * and acquiring it never suspends: reserving is one step, and so is finishing (which sets
 * the completion and deregisters).
 */
module ReplyLanes {
  import opened Basics

  type Group = string

  const LANE_LIMIT := 128

  // ---------------------------------------------------------------- registry updates

  datatype Registry<L, F> = Registry(locks: map<Group, L>, tails: map<Group, F>, users: map<Group, nat>)
  {
    function Users(g: Group): nat {
      if g in users then users[g] else 0
    }

    function LockFor(g: Group, created: L): L {
      if g in locks then locks[g] else created
    }

    function Tail(g: Group): Option<F> {
      if g in tails then Some(tails[g]) else None
    }
  }

  function Enlisted<L, F>(r: Registry<L, F>, g: Group, created: L, completion: F): Registry<L, F> {
    Registry(r.locks[g := r.LockFor(g, created)], r.tails[g := completion], r.users[g := r.Users(g) + 1])
  }

  function PruneOne<L, F>(r: Registry<L, F>, g: Group, held: set<L>): Registry<L, F> {
    if g in r.locks && r.Users(g) == 0 && r.locks[g] !in held then
      Registry(r.locks - {g}, r.tails - {g}, r.users)
    else
      r
  }

  /** Walks the lanes in `order`, stopping as soon as at most `limit` locks remain. */
  function Pruned<L, F>(r: Registry<L, F>, order: seq<Group>, held: set<L>, limit: nat): Registry<L, F> {
    if order == [] then r
    else
      var before := Pruned(r, order[..|order| - 1], held, limit);
      if |before.locks| <= limit then before else PruneOne(before, order[|order| - 1], held)
  }

  function Discharged<L(==), F(==)>(r: Registry<L, F>, g: Group, completion: F, lockHeld: bool): Registry<L, F> {
    var left := if r.Users(g) == 0 then 0 else r.Users(g) - 1;
    if left > 0 then r.(users := r.users[g := left])
    else
      Registry(
        if lockHeld then r.locks else r.locks - {g},
        if r.Tail(g) == Some(completion) then r.tails - {g} else r.tails,
        r.users - {g})
  }

  /** A lane that still has users is never pruned, and pruning touches no other lane's users. */
  lemma {:induction false} PruneSparesUsedLanes<L, F>(r: Registry<L, F>, order: seq<Group>, held: set<L>, limit: nat)
    ensures var p := Pruned(r, order, held, limit);
            && p.users == r.users
            && (forall g :: g in p.locks ==> g in r.locks && p.locks[g] == r.locks[g])
            && (forall g :: g in p.tails ==> g in r.tails && p.tails[g] == r.tails[g])
            && (forall g :: g in r.locks && g !in p.locks ==>
                  r.Users(g) == 0 && r.locks[g] !in held && g !in p.tails)
            && (forall g :: g in r.tails && g !in p.tails ==> g in r.locks && g !in p.locks)
  {
    if order != [] {
      PruneSparesUsedLanes(r, order[..|order| - 1], held, limit);
    }
  }

  lemma EnlistedSize<L, F>(r: Registry<L, F>, g: Group, created: L, completion: F)
    ensures |Enlisted(r, g, created, completion).locks| <= |r.locks| + 1
  {
    assert Enlisted(r, g, created, completion).locks.Keys == r.locks.Keys + {g};
    assert |r.locks| == |r.locks.Keys|;
    assert |Enlisted(r, g, created, completion).locks| == |Enlisted(r, g, created, completion).locks.Keys|;
  }

  /** What a reservation prunes: nothing below 128 lanes, and never a user count. */
  lemma ReservedLanes<L, F>(r: Registry<L, F>, g: Group, created: L, completion: F, order: seq<Group>, held: set<L>)
    ensures var enlisted := Enlisted(r, g, created, completion);
            && Pruned(enlisted, order, held, LANE_LIMIT).users == enlisted.users
            && (|r.locks| < 128 ==> Pruned(enlisted, order, held, LANE_LIMIT) == enlisted)
  {
    PruneStopsAtLimit(Enlisted(r, g, created, completion), order, held, LANE_LIMIT);
    PruneSparesUsedLanes(Enlisted(r, g, created, completion), order, held, LANE_LIMIT);
    EnlistedSize(r, g, created, completion);
  }

  /** Pruning stops at the limit: it never leaves fewer lanes, and changes nothing that is within it. */
  lemma {:induction false} PruneStopsAtLimit<L, F>(r: Registry<L, F>, order: seq<Group>, held: set<L>, limit: nat)
    ensures var p := Pruned(r, order, held, limit);
            if |r.locks| <= limit then p == r else limit <= |p.locks| <= |r.locks|
  {
    if order != [] {
      var before := Pruned(r, order[..|order| - 1], held, limit);
      var g := order[|order| - 1];
      PruneStopsAtLimit(r, order[..|order| - 1], held, limit);
      if g in before.locks {
        assert (before.locks - {g}).Keys == before.locks.Keys - {g};
        assert |before.locks| == |before.locks.Keys| && |before.locks - {g}| == |(before.locks - {g}).Keys|;
      }
    }
  }

  /** When every lane is in use pruning changes nothing, however many lanes there are. */
  lemma {:induction false} PruneKeepsUsedRegistry<L, F>(r: Registry<L, F>, order: seq<Group>, held: set<L>, limit: nat)
    requires forall g :: g in r.locks ==> r.Users(g) > 0
    ensures Pruned(r, order, held, limit) == r
  {
    if order != [] {
      PruneKeepsUsedRegistry(r, order[..|order| - 1], held, limit);
    }
  }

  // ---------------------------------------------------------------- in-place registry

  class AsyncLock {
    var locked: bool
    constructor ()
      ensures !locked
    {
      locked := false;
    }
  }

  class Completion {
    var done: bool
    constructor ()
      ensures !done
    {
      done := false;
    }
  }

  class ReplyLaneRegistry {
    var locks: map<Group, AsyncLock>
    var tails: map<Group, Completion>
    var users: map<Group, nat>

    ghost function Contents(): Registry<AsyncLock, Completion>
      reads this
    {
      Registry(locks, tails, users)
    }

    /** The lane locks some coroutine is holding. */
    ghost function Held(): set<AsyncLock>
      reads this, locks.Values
    {
      set l | l in locks.Values && l.locked
    }

    constructor ()
      ensures Contents() == Registry(map[], map[], map[])
    {
      locks, tails, users := map[], map[], map[];
    }

    method ReserveReplyLane(group: Group)
      returns (lock: AsyncLock, predecessor: Option<Completion>, completion: Completion, ghost order: seq<Group>)
      modifies this
      ensures fresh(completion) && !completion.done
      ensures if group in old(locks) then lock == old(locks)[group] else fresh(lock) && !lock.locked
      ensures predecessor == old(Contents()).Tail(group)
      ensures Contents() == Pruned(Enlisted(old(Contents()), group, lock, completion), order, old(Held()), 128)
    {
      if group !in locks {
        var created := new AsyncLock();
        locks := locks[group := created];
      }
      lock := locks[group];
      predecessor := if group in tails then Some(tails[group]) else None;
      completion := new Completion();
      tails := tails[group := completion];
      users := users[group := (if group in users then users[group] else 0) + 1];
      assert Contents() == Enlisted(old(Contents()), group, lock, completion);
      assert Held() == old(Held()) by {
        forall l | l in old(locks.Values) ensures l in locks.Values {
          var g :| g in old(locks) && old(locks)[g] == l;
          assert locks[g] == l;
        }
      }
      order := PruneIdleReplyLanes(LANE_LIMIT);
    }

    method FinishReplyLane(group: Group, lock: AsyncLock, completion: Completion)
      modifies this, completion
      ensures completion.done
      ensures Contents() == Discharged(old(Contents()), group, completion, lock.locked)
      ensures group in locks <==> group in old(locks) && (old(Contents()).Users(group) > 1 || lock.locked)
      ensures group in tails <==> group in old(tails) && (old(Contents()).Users(group) > 1 || old(tails)[group] != completion)
      ensures old(Contents()).Users(group) > 1 ==> users == old(users)[group := old(users)[group] - 1]
      ensures old(Contents()).Users(group) <= 1 ==> users == old(users) - {group}
    {
      if !completion.done {
        completion.done := true;
      }
      var remaining := (if group in users then users[group] else 1) as int - 1;
      var left: nat := if remaining < 0 then 0 else remaining;
      if left > 0 {
        users := users[group := left];
        return;
      }
      users := users - {group};
      if group in tails && tails[group] == completion {
        tails := tails - {group};
      }
      if !lock.locked {
        locks := locks - {group};
      }
    }

    /** Dictionary order is left open: the lanes are visited in some order without repetition. */
    method PruneIdleReplyLanes(limit: nat) returns (ghost order: seq<Group>)
      modifies this
      ensures Contents() == Pruned(old(Contents()), order, old(Held()), limit)
      ensures |locks| > limit ==> forall g :: g in locks ==> old(Contents()).Users(g) > 0 || locks[g] in old(Held())
    {
      order := [];
      if |locks| <= limit {
        return;
      }
      var todo := locks.Keys;
      ghost var was, held := Contents(), Held();
      while todo != {} && |locks| > limit
        invariant todo <= was.locks.Keys
        invariant Contents() == Pruned(was, order, held, limit)
        invariant locks.Keys <= was.locks.Keys && forall g :: g in locks ==> locks[g] == was.locks[g]
        invariant users == was.users
        invariant forall g :: g in todo ==> g in locks
        invariant forall g :: g in locks && g !in todo ==> was.Users(g) > 0 || locks[g] in held
        decreases todo
      {
        var g :| g in todo;
        todo := todo - {g};
        assert (order + [g])[..|order|] == order;
        order := order + [g];
        if (if g in users then users[g] else 0) == 0 && !locks[g].locked {
          locks := locks - {g};
          tails := tails - {g};
        }
      }
    }
  }

  // ---------------------------------------------------------------- the protocol

  type Ticket = nat

  datatype Phase =
    | Preparing
    | AwaitingPredecessor(work: bool)  // work: something survived preparation
    | AwaitingLock
    | Critical
    | Leaving                          // in the `finally` block
  {
    predicate Passed() {
      AwaitingLock? || Critical? || Leaving?
    }
  }

  datatype Reservation = Reservation(group: Group, lock: Ticket, predecessor: Option<Ticket>, phase: Phase)

  /**
   * Completion futures and lock objects are named by the ticket of the reservation that
   * created them.  `history[t]` is the group of ticket t and `entered` logs the critical
   * sections; neither is read by a step.
   */
  datatype State = State(
    registry: Registry<Ticket, Ticket>,
    held: set<Ticket>,
    completed: set<Ticket>,
    live: map<Ticket, Reservation>,
    history: seq<Group>,
    entered: seq<Ticket>)

  datatype Action =
    | Reserve(group: Group, order: seq<Group>)
    | Prepare(t: Ticket, work: bool)
    | PassPredecessor(t: Ticket)
    | Acquire(t: Ticket)
    | Release(t: Ticket)   // normal exit, exception or cancellation inside the lock
    | Abort(t: Ticket)     // exception or cancellation before the lock is held
    | Finish(t: Ticket)

  const Init := State(Registry(map[], map[], map[]), {}, {}, map[], [], [])

  predicate Enabled(s: State, a: Action) {
    match a
    case Reserve(_, _) => true
    case Prepare(t, _) => t in s.live && s.live[t].phase.Preparing?
    case PassPredecessor(t) =>
      && t in s.live && s.live[t].phase.AwaitingPredecessor?
      && (s.live[t].predecessor.Some? ==> s.live[t].predecessor.value in s.completed)
    case Acquire(t) => t in s.live && s.live[t].phase.AwaitingLock? && s.live[t].lock !in s.held
    case Release(t) => t in s.live && s.live[t].phase.Critical?
    case Abort(t) => t in s.live && !s.live[t].phase.Critical? && !s.live[t].phase.Leaving?
    case Finish(t) => t in s.live && s.live[t].phase.Leaving?
  }

  function Moved(s: State, t: Ticket, p: Phase): State
    requires t in s.live
  {
    s.(live := s.live[t := s.live[t].(phase := p)])
  }

  function Apply(s: State, a: Action): State
    requires Enabled(s, a)
  {
    match a
    case Reserve(g, order) =>
      var t := |s.history|;
      State(
        Pruned(Enlisted(s.registry, g, t, t), order, s.held, LANE_LIMIT),
        s.held,
        s.completed,
        s.live[t := Reservation(g, s.registry.LockFor(g, t), s.registry.Tail(g), Preparing)],
        s.history + [g],
        s.entered)
    case Prepare(t, work) => Moved(s, t, AwaitingPredecessor(work))
    case PassPredecessor(t) => Moved(s, t, if s.live[t].phase.work then AwaitingLock else Leaving)
    case Acquire(t) => Moved(s, t, Critical).(held := s.held + {s.live[t].lock}, entered := s.entered + [t])
    case Release(t) => Moved(s, t, Leaving).(held := s.held - {s.live[t].lock})
    case Abort(t) => Moved(s, t, Leaving)
    case Finish(t) =>
      var r := s.live[t];
      s.(registry := Discharged(s.registry, r.group, t, r.lock in s.held),
         completed := s.completed + {t},
         live := s.live - {t})
  }

  function Run(s: State, acts: seq<Action>): Option<State>
    decreases |acts|
  {
    if acts == [] then Some(s)
    else if Enabled(s, acts[0]) then Run(Apply(s, acts[0]), acts[1..])
    else None
  }

  predicate AbortFree(acts: seq<Action>) {
    forall a :: a in acts ==> !a.Abort?
  }

  /** Every preparation leaves something to handle. */
  predicate Working(acts: seq<Action>) {
    forall a :: a in acts ==> a.Prepare? ==> a.work
  }

  predicate NoReserve(acts: seq<Action>) {
    forall a :: a in acts ==> !a.Reserve?
  }

  // ---------------------------------------------------------------- invariant of all runs

  function LiveIn(s: State, g: Group): set<Ticket> {
    set t | t in s.live && s.live[t].group == g
  }

  /** The newest reservation ever made for g. */
  function Newest(history: seq<Group>, g: Group): Option<Ticket> {
    if history == [] then None
    else if history[|history| - 1] == g then Some(|history| - 1)
    else Newest(history[..|history| - 1], g)
  }

  lemma {:induction false} NewestIsLast(history: seq<Group>, g: Group)
    ensures match Newest(history, g)
            case None => g !in history
            case Some(n) => n < |history| && history[n] == g && forall k :: n < k < |history| ==> history[k] != g
  {
    if history != [] && history[|history| - 1] != g {
      NewestIsLast(history[..|history| - 1], g);
      assert history == history[..|history| - 1] + [history[|history| - 1]];
    }
  }

  ghost predicate TicketsInv(s: State) {
    && (forall t :: t in s.live ==> t < |s.history| && s.history[t] == s.live[t].group)
    && (forall t: Ticket :: t in s.completed <==> t < |s.history| && t !in s.live)
    && (forall t :: t in s.live && s.live[t].predecessor.Some? ==>
          && s.live[t].predecessor.value < t
          && s.history[s.live[t].predecessor.value] == s.live[t].group)
  }

  ghost predicate LanesInv(r: Registry<Ticket, Ticket>) {
    && r.locks.Keys == r.users.Keys
    && (forall g :: g in r.users ==> r.users[g] > 0 && g in r.tails)
  }

  ghost predicate CountInv(s: State) {
    forall g :: s.registry.Users(g) == |LiveIn(s, g)|
  }

  ghost predicate TailInv(s: State) {
    forall g :: g in s.registry.tails ==> Newest(s.history, g) == Some(s.registry.tails[g])
  }

  ghost predicate LocksInv(s: State) {
    && (forall g :: g in s.registry.locks ==> s.registry.locks[g] < |s.history|)
    && (forall g, h :: g in s.registry.locks && h in s.registry.locks && g != h ==>
          s.registry.locks[g] != s.registry.locks[h])
    && (forall t :: t in s.live ==>
          s.live[t].group in s.registry.locks && s.live[t].lock == s.registry.locks[s.live[t].group])
  }

  predicate Holds(s: State, t: Ticket, l: Ticket) {
    t in s.live && s.live[t].phase.Critical? && s.live[t].lock == l
  }

  /** A lock is held exactly by one coroutine in its critical section. */
  ghost predicate HeldInv(s: State) {
    && (forall l :: l in s.held <==> exists t :: Holds(s, t, l))
    && (forall t, u, l :: Holds(s, t, l) && Holds(s, u, l) ==> t == u)
  }

  /** The predecessor of t is at least as new as every older live reservation of the group. */
  ghost predicate ChainInv(s: State) {
    forall t, u :: t in s.live && u in s.live && s.live[t].group == s.live[u].group && u < t ==>
      s.live[t].predecessor.Some? && u <= s.live[t].predecessor.value
  }

  ghost predicate Inv(s: State) {
    TicketsInv(s) && LanesInv(s.registry) && CountInv(s) && TailInv(s) && LocksInv(s) && HeldInv(s) && ChainInv(s)
  }

  lemma ReserveShape(s: State, a: Action)
    requires LanesInv(s.registry) && a.Reserve?
    ensures Apply(s, a).registry == Enlisted(s.registry, a.group, |s.history|, |s.history|)
    ensures LanesInv(Apply(s, a).registry)
  {
    PruneKeepsUsedRegistry(Enlisted(s.registry, a.group, |s.history|, |s.history|), a.order, s.held, LANE_LIMIT);
  }

  lemma ReserveCounts(s: State, a: Action, g: Group)
    requires LanesInv(s.registry) && |s.history| !in s.live && a.Reserve?
    requires s.registry.Users(g) == |LiveIn(s, g)|
    ensures Apply(s, a).registry.Users(g) == |LiveIn(Apply(s, a), g)|
  {
    ReserveShape(s, a);
    var live := LiveIn(s, g);
    var live' := LiveIn(Apply(s, a), g);
    if g == a.group {
      assert live' == live + {|s.history|};
    } else {
      assert live' == live;
    }
  }

  lemma ReserveKeepsCounts(s: State, a: Action)
    requires LanesInv(s.registry) && CountInv(s) && |s.history| !in s.live && a.Reserve?
    ensures CountInv(Apply(s, a))
  {
    forall g ensures Apply(s, a).registry.Users(g) == |LiveIn(Apply(s, a), g)| {
      ReserveCounts(s, a, g);
    }
  }

  lemma ReserveKeepsTails(s: State, a: Action)
    requires LanesInv(s.registry) && TailInv(s) && a.Reserve?
    ensures TailInv(Apply(s, a))
  {
    ReserveShape(s, a);
    assert Apply(s, a).history[..|s.history|] == s.history;
  }

  /** The tail a reservation finds is at least as new as every live reservation of the group. */
  lemma TailIsNewest(s: State, g: Group, u: Ticket)
    requires TicketsInv(s) && LanesInv(s.registry) && CountInv(s) && TailInv(s)
    requires u in s.live && s.live[u].group == g
    ensures g in s.registry.tails && u <= s.registry.tails[g]
  {
    assert u in LiveIn(s, g);
    assert s.registry.Users(g) == |LiveIn(s, g)|;
    NewestIsLast(s.history, g);
  }

  lemma ReserveKeepsChain(s: State, a: Action)
    requires TicketsInv(s) && LanesInv(s.registry) && CountInv(s) && TailInv(s) && ChainInv(s) && a.Reserve?
    ensures ChainInv(Apply(s, a))
  {
    var live' := Apply(s, a).live;
    forall t, u | t in live' && u in live' && live'[t].group == live'[u].group && u < t
      ensures live'[t].predecessor.Some? && u <= live'[t].predecessor.value
    {
      if t == |s.history| {
        TailIsNewest(s, a.group, u);
      } else {
        assert live'[t] == s.live[t] && live'[u] == s.live[u];
      }
    }
  }

  lemma ReserveKeepsTickets(s: State, a: Action)
    requires TicketsInv(s) && TailInv(s) && a.Reserve?
    ensures TicketsInv(Apply(s, a))
  {
    NewestIsLast(s.history, a.group);
  }

  lemma ReserveKeepsLocks(s: State, a: Action)
    requires LocksInv(s) && LanesInv(s.registry) && a.Reserve?
    ensures LocksInv(Apply(s, a))
  {
    ReserveShape(s, a);
  }

  lemma ReserveKeepsHeld(s: State, a: Action)
    requires HeldInv(s) && |s.history| !in s.live && a.Reserve?
    ensures HeldInv(Apply(s, a))
  {
    assert forall t, l :: Holds(Apply(s, a), t, l) <==> Holds(s, t, l);
  }

  lemma ReserveKeepsInv(s: State, a: Action)
    requires Inv(s) && a.Reserve?
    ensures Inv(Apply(s, a))
  {
    ReserveShape(s, a);
    ReserveKeepsTickets(s, a);
    ReserveKeepsCounts(s, a);
    ReserveKeepsTails(s, a);
    ReserveKeepsLocks(s, a);
    ReserveKeepsHeld(s, a);
    ReserveKeepsChain(s, a);
  }

  lemma SoleTicket(tickets: set<Ticket>, t: Ticket)
    requires t in tickets && |tickets| == 1
    ensures tickets == {t}
  {
    assert |tickets - {t}| == 0;
    assert tickets == {t} + (tickets - {t});
  }

  lemma FinishKeepsCounts(s: State, a: Action)
    requires LanesInv(s.registry) && CountInv(s) && Enabled(s, a) && a.Finish?
    ensures CountInv(Apply(s, a))
  {
    var s' := Apply(s, a);
    var h := s.live[a.t].group;
    forall g ensures s'.registry.Users(g) == |LiveIn(s', g)| {
      assert s.registry.Users(g) == |LiveIn(s, g)|;
      if g == h {
        assert a.t in LiveIn(s, g);
        assert LiveIn(s', g) == LiveIn(s, g) - {a.t};
      } else {
        assert LiveIn(s', g) == LiveIn(s, g);
      }
    }
  }

  /** The last coroutine of a lane finds the lane's lock free. */
  lemma LastFindsLockFree(s: State, a: Action)
    requires CountInv(s) && LocksInv(s) && HeldInv(s)
    requires Enabled(s, a) && a.Finish? && s.registry.Users(s.live[a.t].group) <= 1
    ensures LiveIn(s, s.live[a.t].group) == {a.t} && s.live[a.t].lock !in s.held
  {
    var g := s.live[a.t].group;
    assert a.t in LiveIn(s, g);
    assert s.registry.Users(g) == |LiveIn(s, g)|;
    SoleTicket(LiveIn(s, g), a.t);
    forall u ensures !Holds(s, u, s.live[a.t].lock) {
      assert u in s.live && s.live[u].group == g ==> u in LiveIn(s, g);
    }
  }

  lemma FinishKeepsLanes(s: State, a: Action)
    requires LanesInv(s.registry) && CountInv(s) && LocksInv(s) && HeldInv(s) && a.Finish? && Enabled(s, a)
    ensures LanesInv(Apply(s, a).registry)
  {
    if s.registry.Users(s.live[a.t].group) <= 1 {
      LastFindsLockFree(s, a);
    }
  }

  lemma FinishKeepsLocks(s: State, a: Action)
    requires CountInv(s) && LocksInv(s) && HeldInv(s) && a.Finish? && Enabled(s, a)
    ensures LocksInv(Apply(s, a))
  {
    var g := s.live[a.t].group;
    var live' := Apply(s, a).live;
    if s.registry.Users(g) <= 1 {
      LastFindsLockFree(s, a);
      forall u | u in live' ensures live'[u].group != g {
        assert s.live[u].group == g ==> u in LiveIn(s, g);
      }
      assert Apply(s, a).registry.locks == s.registry.locks - {g};
    } else {
      assert Apply(s, a).registry.locks == s.registry.locks;
    }
  }

  lemma FinishKeepsHeld(s: State, a: Action)
    requires HeldInv(s) && a.Finish? && Enabled(s, a)
    ensures HeldInv(Apply(s, a))
  {
    assert forall t, l :: Holds(Apply(s, a), t, l) <==> Holds(s, t, l);
  }

  lemma FinishKeepsInv(s: State, a: Action)
    requires Inv(s) && a.Finish? && Enabled(s, a)
    ensures Inv(Apply(s, a))
  {
    FinishKeepsCounts(s, a);
    FinishKeepsLanes(s, a);
    FinishKeepsLocks(s, a);
    FinishKeepsHeld(s, a);
    FinishKeepsRest(s, a);
  }

  lemma FinishKeepsRest(s: State, a: Action)
    requires TicketsInv(s) && TailInv(s) && ChainInv(s) && a.Finish? && Enabled(s, a)
    ensures TicketsInv(Apply(s, a)) && TailInv(Apply(s, a)) && ChainInv(Apply(s, a))
  {
  }

  /**
   * What the last coroutine of a lane leaves behind: never a lock or a user count, but the
   * tail entry stays exactly when a newer reservation of the group finished earlier.
   */
  lemma TailLeftBehind(s: State, a: Action)
    requires Inv(s) && a.Finish? && Enabled(s, a) && |LiveIn(s, s.live[a.t].group)| == 1
    ensures var g := s.live[a.t].group; var r := Apply(s, a).registry;
            && g !in r.locks && g !in r.users
            && (g in r.tails <==> Newest(s.history, g) != Some(a.t))
  {
    var g := s.live[a.t].group;
    assert s.registry.Users(g) == |LiveIn(s, g)|;
    LastFindsLockFree(s, a);
  }

  lemma MoveKeepsCounts(s: State, a: Action)
    requires CountInv(s) && !a.Reserve? && !a.Finish? && Enabled(s, a)
    ensures CountInv(Apply(s, a))
  {
    var s' := Apply(s, a);
    forall g ensures s'.registry.Users(g) == |LiveIn(s', g)| {
      assert LiveIn(s', g) == LiveIn(s, g);
      assert s.registry.Users(g) == |LiveIn(s, g)|;
    }
  }

  lemma MoveKeepsHeld(s: State, a: Action)
    requires HeldInv(s) && !a.Reserve? && !a.Finish? && Enabled(s, a)
    ensures HeldInv(Apply(s, a))
  {
    var s' := Apply(s, a);
    var lock := s.live[a.t].lock;
    if a.Acquire? {
      assert forall t, l :: Holds(s', t, l) <==> Holds(s, t, l) || (t == a.t && l == lock);
      assert Holds(s', a.t, lock);
    } else if a.Release? {
      assert forall t, l :: Holds(s', t, l) <==> Holds(s, t, l) && t != a.t;
      assert Holds(s, a.t, lock);
    } else {
      assert forall t, l :: Holds(s', t, l) <==> Holds(s, t, l);
    }
  }

  /** Every other step changes nothing but the phase of one reservation and the held locks. */
  ghost predicate OnlyPhases(s: State, s': State) {
    && s'.registry == s.registry && s'.history == s.history && s'.completed == s.completed
    && s'.live.Keys == s.live.Keys
    && (forall t :: t in s.live ==>
          && s'.live[t].group == s.live[t].group && s'.live[t].lock == s.live[t].lock
          && s'.live[t].predecessor == s.live[t].predecessor)
  }

  lemma MoveShape(s: State, a: Action)
    requires !a.Reserve? && !a.Finish? && Enabled(s, a)
    ensures OnlyPhases(s, Apply(s, a))
  {
  }

  lemma PhasesKeepTickets(s: State, s': State)
    requires TicketsInv(s) && OnlyPhases(s, s')
    ensures TicketsInv(s')
  {
  }

  lemma PhasesKeepChain(s: State, s': State)
    requires ChainInv(s) && OnlyPhases(s, s')
    ensures ChainInv(s')
  {
  }

  lemma PhasesKeepLocks(s: State, s': State)
    requires LocksInv(s) && OnlyPhases(s, s')
    ensures LocksInv(s')
  {
  }

  lemma StepKeepsInv(s: State, a: Action)
    requires Inv(s) && Enabled(s, a)
    ensures Inv(Apply(s, a))
  {
    if a.Reserve? {
      ReserveKeepsInv(s, a);
    } else if a.Finish? {
      FinishKeepsInv(s, a);
    } else {
      MoveKeepsCounts(s, a);
      MoveKeepsHeld(s, a);
      MoveShape(s, a);
      PhasesKeepTickets(s, Apply(s, a));
      PhasesKeepChain(s, Apply(s, a));
      PhasesKeepLocks(s, Apply(s, a));
    }
  }

  lemma {:induction false} RunKeepsInv(s: State, acts: seq<Action>)
    requires Inv(s) && Run(s, acts).Some?
    ensures Inv(Run(s, acts).value)
    decreases |acts|
  {
    if acts != [] {
      StepKeepsInv(s, acts[0]);
      RunKeepsInv(Apply(s, acts[0]), acts[1..]);
    }
  }

  /** At most one coroutine of g is critical, and all of them were given the one registered lock. */
  ghost predicate Exclusive(s: State, g: Group) {
    && (forall t :: t in LiveIn(s, g) ==> g in s.registry.locks && s.live[t].lock == s.registry.locks[g])
    && (forall t, u :: t in LiveIn(s, g) && u in LiveIn(s, g) && s.live[t].phase.Critical? && s.live[u].phase.Critical? ==> t == u)
  }

  lemma InvIsExclusive(s: State, g: Group)
    requires LocksInv(s) && HeldInv(s)
    ensures Exclusive(s, g)
  {
    forall t, u | t in LiveIn(s, g) && u in LiveIn(s, g) && s.live[t].phase.Critical? && s.live[u].phase.Critical?
      ensures t == u
    {
      assert Holds(s, t, s.registry.locks[g]) && Holds(s, u, s.registry.locks[g]);
    }
  }

  /**
   * In every reachable state, aborts included, critical sections of a group exclude each
   * other, the user counts are exact, and the next reservation prunes no lane.
   */
  lemma MutualExclusion(acts: seq<Action>, g: Group, next: Action)
    requires Run(Init, acts).Some? && next.Reserve?
    ensures var s := Run(Init, acts).value;
            && Exclusive(s, g)
            && s.registry.locks.Keys == s.registry.users.Keys
            && s.registry.Users(g) == |LiveIn(s, g)|
            && Apply(s, next).registry.locks.Keys == s.registry.locks.Keys + {next.group}
  {
    RunKeepsInv(Init, acts);
    var s := Run(Init, acts).value;
    InvIsExclusive(s, g);
    ReserveShape(s, next);
  }

  // ---------------------------------------------------------------- progress

  /** While a reservation is live, some coroutine can step without a new reservation or an abort. */
  lemma {:induction false} NoDeadlock(s: State, t: Ticket) returns (a: Action)
    requires Inv(s) && t in s.live
    ensures Enabled(s, a) && !a.Reserve? && !a.Abort? && (a.Prepare? ==> a.work)
    decreases t
  {
    match s.live[t].phase
    case Preparing => a := Prepare(t, true);
    case AwaitingPredecessor(_) =>
      if Enabled(s, PassPredecessor(t)) {
        a := PassPredecessor(t);
      } else {
        a := NoDeadlock(s, s.live[t].predecessor.value);
      }
    case AwaitingLock =>
      if s.live[t].lock in s.held {
        var u :| Holds(s, u, s.live[t].lock);
        a := Release(u);
      } else {
        a := Acquire(t);
      }
    case Critical => a := Release(t);
    case Leaving => a := Finish(t);
  }

  function Rank(p: Phase): nat {
    match p
    case Preparing => 5
    case AwaitingPredecessor(_) => 4
    case AwaitingLock => 3
    case Critical => 2
    case Leaving => 1
  }

  /** Steps still owed by the reservations with tickets below n. */
  function Work(live: map<Ticket, Reservation>, n: nat): nat {
    if n == 0 then 0 else Work(live, n - 1) + if n - 1 in live then Rank(live[n - 1].phase) else 0
  }

  lemma {:induction false} WorkDrops(live: map<Ticket, Reservation>, live': map<Ticket, Reservation>, t: Ticket, n: nat)
    requires forall u :: u != t ==> (u in live <==> u in live')
    requires forall u :: u != t && u in live ==> live[u] == live'[u]
    requires t in live && (t in live' ==> Rank(live'[t].phase) < Rank(live[t].phase))
    ensures if t < n then Work(live', n) < Work(live, n) else Work(live', n) == Work(live, n)
  {
    if n > 0 {
      WorkDrops(live, live', t, n - 1);
    }
  }

  lemma {:induction false} NoWorkNoneLive(live: map<Ticket, Reservation>, n: nat)
    requires Work(live, n) == 0
    ensures forall t :: t < n ==> t !in live
  {
    if n > 0 {
      NoWorkNoneLive(live, n - 1);
    }
  }

  function Owed(s: State): nat {
    Work(s.live, |s.history|)
  }

  lemma StepOwesLess(s: State, a: Action)
    requires TicketsInv(s) && Enabled(s, a) && !a.Reserve?
    ensures Owed(Apply(s, a)) < Owed(s)
  {
    var t, live, live' := a.t, s.live, Apply(s, a).live;
    if a.Finish? {
      assert live' == live - {t};
    } else {
      assert live' == live[t := live'[t]] && Rank(live'[t].phase) < Rank(live[t].phase);
    }
    WorkDrops(s.live, Apply(s, a).live, a.t, |s.history|);
  }

  /** Without new reservations every run is finite, aborts or not. */
  lemma {:induction false} RunsAreBounded(s: State, acts: seq<Action>)
    requires Inv(s) && NoReserve(acts) && Run(s, acts).Some?
    ensures |acts| + Owed(Run(s, acts).value) <= Owed(s)
    decreases |acts|
  {
    if acts != [] {
      StepKeepsInv(s, acts[0]);
      StepOwesLess(s, acts[0]);
      assert NoReserve(acts[1..]);
      RunsAreBounded(Apply(s, acts[0]), acts[1..]);
    }
  }

  /** From every reachable state the lanes can drain, and then no lock and no user count is left. */
  lemma {:induction false} LanesDrain(s: State) returns (acts: seq<Action>)
    requires Inv(s)
    ensures NoReserve(acts) && AbortFree(acts) && Working(acts) && Run(s, acts).Some?
    ensures var e := Run(s, acts).value;
            e.live == map[] && e.registry.locks == map[] && e.registry.users == map[] && e.held == {}
    decreases Owed(s)
  {
    if s.live == map[] {
      acts := [];
      assert forall g :: LiveIn(s, g) == {};
      assert forall g :: s.registry.Users(g) == |LiveIn(s, g)|;
      assert s.registry.users.Keys == {} by {
        forall g ensures g !in s.registry.users {
          assert s.registry.Users(g) == |LiveIn(s, g)|;
        }
      }
    } else {
      var t :| t in s.live;
      var a := NoDeadlock(s, t);
      StepKeepsInv(s, a);
      StepOwesLess(s, a);
      var rest := LanesDrain(Apply(s, a));
      acts := [a] + rest;
      assert acts[1..] == rest;
    }
  }

  // ---------------------------------------------------------------- tails that leak

  /** Whoever is past its predecessor is the oldest of the group, and reservations finish in order. */
  ghost predicate OrderInv(s: State) {
    && (forall t, u :: t in s.live && u in s.live && s.live[t].group == s.live[u].group && u < t ==>
          !s.live[t].phase.Passed())
    && (forall p: Ticket, u :: u in s.live && u < p < |s.history| && s.history[p] == s.live[u].group ==> p in s.live)
  }

  predicate InOrder(history: seq<Group>, t: Ticket, u: Ticket) {
    t < |history| && u < |history| && (history[t] == history[u] ==> t < u)
  }

  /** The step past the predecessor is safe: the predecessor and all older reservations are gone. */
  lemma PassIsInOrder(s: State, t: Ticket, u: Ticket)
    requires TicketsInv(s) && ChainInv(s) && OrderInv(s) && Enabled(s, PassPredecessor(t))
    requires u in s.live && s.live[u].group == s.live[t].group
    ensures t <= u
  {
  }

  lemma PassesOnlyThen(s: State, a: Action, t: Ticket)
    requires Enabled(s, a) && !a.Reserve? && !a.Finish? && !a.Abort? && t in s.live && !(a.PassPredecessor? && t == a.t)
    ensures t in Apply(s, a).live && (Apply(s, a).live[t].phase.Passed() <==> s.live[t].phase.Passed())
  {
  }

  lemma MoveKeepsOrder(s: State, a: Action)
    requires TicketsInv(s) && ChainInv(s) && OrderInv(s) && Enabled(s, a)
    requires !a.Reserve? && !a.Finish? && !a.Abort?
    ensures OrderInv(Apply(s, a))
  {
    MoveShape(s, a);
    var live' := Apply(s, a).live;
    forall t, u | t in live' && u in live' && live'[t].group == live'[u].group && u < t
      ensures !live'[t].phase.Passed()
    {
      assert s.live[t].group == s.live[u].group && !s.live[t].phase.Passed();
      if a.PassPredecessor? && t == a.t {
        PassIsInOrder(s, t, u);
      } else {
        PassesOnlyThen(s, a, t);
      }
    }
  }

  lemma FinishKeepsOrder(s: State, a: Action)
    requires OrderInv(s) && TicketsInv(s) && Enabled(s, a) && a.Finish?
    ensures OrderInv(Apply(s, a))
  {
    var s' := Apply(s, a);
    assert s'.live == s.live - {a.t} && s'.history == s.history;
  }

  lemma ReserveKeepsOrder(s: State, a: Action)
    requires OrderInv(s) && TicketsInv(s) && a.Reserve?
    ensures OrderInv(Apply(s, a))
  {
    var n := |s.history|;
    assert Apply(s, a).live == s.live[n := Apply(s, a).live[n]];
  }

  /** An abort that comes after the predecessor has completed. */
  predicate Harmless(s: State, a: Action)
    requires Enabled(s, a)
  {
    a.Abort? && s.live[a.t].predecessor.Some? ==> s.live[a.t].predecessor.value in s.completed
  }

  /** An abort keeps this order of leaving exactly when its predecessor has already completed. */
  lemma AbortKeepsLeavingIff(s: State, a: Action)
    requires TicketsInv(s) && ChainInv(s) && OrderInv(s) && Enabled(s, a) && a.Abort?
    ensures OrderInv(Apply(s, a)) <==> Harmless(s, a)
  {
    if Harmless(s, a) {
      HarmlessKeepsLeaving(s, a);
    } else {
      var t, s' := a.t, Apply(s, a);
      var p := s.live[t].predecessor.value;
      assert p in s'.live && s'.live[p].group == s'.live[t].group && p < t && s'.live[t].phase.Passed();
    }
  }

  lemma HarmlessKeepsLeaving(s: State, a: Action)
    requires TicketsInv(s) && ChainInv(s) && OrderInv(s) && Enabled(s, a) && a.Abort? && Harmless(s, a)
    ensures OrderInv(Apply(s, a))
  {
    var live' := Apply(s, a).live;
    forall u | u in s.live && s.live[u].group == s.live[a.t].group ensures a.t <= u {
    }
    forall t, u | t in live' && u in live' && live'[t].group == live'[u].group && u < t ensures !live'[t].phase.Passed() {
      assert t != a.t && !s.live[t].phase.Passed();
    }
  }

  lemma StepKeepsOrder(s: State, a: Action)
    requires TicketsInv(s) && ChainInv(s) && OrderInv(s) && Enabled(s, a) && Harmless(s, a)
    ensures OrderInv(Apply(s, a))
  {
    if a.Finish? {
      FinishKeepsOrder(s, a);
    } else if a.Reserve? {
      ReserveKeepsOrder(s, a);
    } else if a.Abort? {
      AbortKeepsLeavingIff(s, a);
    } else {
      MoveKeepsOrder(s, a);
    }
  }

  lemma FinishLeaksNoTail(s: State, a: Action)
    requires TicketsInv(s) && LanesInv(s.registry) && CountInv(s) && TailInv(s) && LocksInv(s) && HeldInv(s)
    requires OrderInv(s) && a.Finish? && Enabled(s, a) && s.registry.tails.Keys == s.registry.users.Keys
    ensures Apply(s, a).registry.tails.Keys == Apply(s, a).registry.users.Keys
  {
    var g := s.live[a.t].group;
    TailIsNewest(s, g, a.t);
    NewestIsLast(s.history, g);
    if s.registry.Users(g) <= 1 {
      LastFindsLockFree(s, a);
      var n := s.registry.tails[g];
      assert n in s.live ==> n in LiveIn(s, g);
      assert n == a.t;
    }
  }

  lemma StepLeaksNoTail(s: State, a: Action)
    requires Inv(s) && OrderInv(s) && Enabled(s, a)
    requires s.registry.tails.Keys == s.registry.users.Keys
    ensures Apply(s, a).registry.tails.Keys == Apply(s, a).registry.users.Keys
  {
    if a.Reserve? {
      ReserveShape(s, a);
    } else if a.Finish? {
      FinishLeaksNoTail(s, a);
    } else {
      MoveShape(s, a);
    }
  }

  ghost predicate TidyInv(s: State) {
    Inv(s) && OrderInv(s) && s.registry.tails.Keys == s.registry.users.Keys
  }

  /** Every abort of the run is harmless. */
  predicate Patient(s: State, acts: seq<Action>)
    decreases |acts|
  {
    acts == [] || (Enabled(s, acts[0]) ==> Harmless(s, acts[0]) && Patient(Apply(s, acts[0]), acts[1..]))
  }

  /** Abort-free runs are patient. */
  lemma {:induction false} AbortFreeIsPatient(s: State, acts: seq<Action>)
    requires AbortFree(acts)
    ensures Patient(s, acts)
    decreases |acts|
  {
    if acts != [] && Enabled(s, acts[0]) {
      assert acts[0] in acts;
      AbortFreeIsPatient(Apply(s, acts[0]), acts[1..]);
    }
  }

  lemma {:induction false} RunStaysTidy(s: State, acts: seq<Action>)
    requires TidyInv(s) && Patient(s, acts) && Run(s, acts).Some?
    ensures TidyInv(Run(s, acts).value)
    decreases |acts|
  {
    if acts != [] {
      StepKeepsInv(s, acts[0]);
      StepKeepsOrder(s, acts[0]);
      StepLeaksNoTail(s, acts[0]);
      RunStaysTidy(Apply(s, acts[0]), acts[1..]);
    }
  }

  /** When aborts come only after their predecessor has completed, no tail leaks. */
  lemma NoTailLeaks(acts: seq<Action>)
    requires Patient(Init, acts) && Run(Init, acts).Some?
    ensures Run(Init, acts).value.registry.tails.Keys == Run(Init, acts).value.registry.users.Keys
  {
    RunStaysTidy(Init, acts);
  }

  lemma {:induction false} RunConcat(s: State, before: seq<Action>, after: seq<Action>)
    requires Run(s, before).Some?
    ensures Run(s, before + after) == Run(Run(s, before).value, after)
    decreases |before|
  {
    if before == [] {
      assert before + after == after;
    } else {
      assert (before + after)[1..] == before[1..] + after;
      RunConcat(Apply(s, before[0]), before[1..], after);
    }
  }

  /** A reservation that is served from preparation to the end without interruption. */
  function Serving(t: Ticket): seq<Action> {
    [Prepare(t, true), PassPredecessor(t), Acquire(t), Release(t), Finish(t)]
  }

  lemma ServeAlone(s: State, t: Ticket)
    requires t in s.live && s.live[t].phase.Preparing? && s.live[t].lock !in s.held
    requires s.live[t].predecessor.Some? ==> s.live[t].predecessor.value in s.completed
    ensures Run(s, Serving(t)) ==
            Some(s.(registry := Discharged(s.registry, s.live[t].group, t, false), completed := s.completed + {t},
                    live := s.live - {t}, entered := s.entered + [t]))
  {
    var acts := Serving(t);
    var s1 := Apply(s, acts[0]);
    var s2 := Apply(s1, acts[1]);
    var s3 := Apply(s2, acts[2]);
    var s4 := Apply(s3, acts[3]);
    assert s4.held == s.held;
    var e := Apply(s4, acts[4]);
    assert e.live == s.live - {t};
    assert Run(s4, acts[4..]) == Some(e);
    assert Run(s3, acts[3..]) == Some(e) by { assert acts[3..][1..] == acts[4..]; }
    assert Run(s2, acts[2..]) == Some(e) by { assert acts[2..][1..] == acts[3..]; }
    assert Run(s1, acts[1..]) == Some(e) by { assert acts[1..][1..] == acts[2..]; }
  }

  /** Three reservations of one group, each waiting for the one before. */
  function Thrice(g: Group): State {
    State(Registry(map[g := 0], map[g := 2], map[g := 3]), {}, {},
          map[0 := Reservation(g, 0, None, Preparing), 1 := Reservation(g, 0, Some(0), Preparing),
              2 := Reservation(g, 0, Some(1), Preparing)], [g, g, g], [])
  }

  /** The same lane after the second one was aborted and left. */
  function SecondAborted(g: Group): State {
    State(Registry(map[g := 0], map[g := 2], map[g := 2]), {}, {1},
          map[0 := Reservation(g, 0, None, Preparing), 2 := Reservation(g, 0, Some(1), Preparing)], [g, g, g], [])
  }

  lemma ReserveThrice(g: Group)
    ensures Run(Init, [Reserve(g, []), Reserve(g, []), Reserve(g, [])]) == Some(Thrice(g))
  {
    var r := Reserve(g, []);
    var acts := [r, r, r];
    var s1 := Apply(Init, r);
    assert s1 == State(Registry(map[g := 0], map[g := 0], map[g := 1]), {}, {},
                       map[0 := Reservation(g, 0, None, Preparing)], [g], []);
    var s2 := Apply(s1, r);
    assert s2 == State(Registry(map[g := 0], map[g := 1], map[g := 2]), {}, {},
                       map[0 := Reservation(g, 0, None, Preparing), 1 := Reservation(g, 0, Some(0), Preparing)], [g, g], []);
    assert Apply(s2, r) == Thrice(g);
    assert acts[1..] == [r, r] && acts[1..][1..] == [r] && acts[1..][1..][1..] == [];
    assert Run(Init, acts) == Run(s1, [r, r]) == Run(s2, [r]) == Some(Apply(s2, r));
  }

  lemma AbortSecond(g: Group)
    ensures Run(Thrice(g), [Abort(1), Finish(1)]) == Some(SecondAborted(g))
  {
    var acts := [Abort(1), Finish(1)];
    var s := Apply(Thrice(g), acts[0]);
    assert Apply(s, acts[1]) == SecondAborted(g);
    assert Run(s, acts[1..]) == Some(SecondAborted(g));
  }

  /** The third one does not wait for the first, and is served before it. */
  function ThirdServed(g: Group): State {
    State(Registry(map[g := 0], map[g := 2], map[g := 1]), {}, {1, 2},
          map[0 := Reservation(g, 0, None, Preparing)], [g, g, g], [2])
  }

  function FirstServedLast(g: Group): State {
    State(Registry(map[], map[g := 2], map[]), {}, {0, 1, 2}, map[], [g, g, g], [2, 0])
  }

  lemma ServeThird(g: Group)
    ensures Run(SecondAborted(g), Serving(2)) == Some(ThirdServed(g))
  {
    ServeAlone(SecondAborted(g), 2);
    var e := Run(SecondAborted(g), Serving(2)).value;
    assert e.registry == ThirdServed(g).registry && e.live == ThirdServed(g).live;
    assert e.completed == ThirdServed(g).completed && e.entered == ThirdServed(g).entered;
  }

  lemma ServeFirst(g: Group)
    ensures Run(ThirdServed(g), Serving(0)) == Some(FirstServedLast(g))
  {
    ServeAlone(ThirdServed(g), 0);
    var e := Run(ThirdServed(g), Serving(0)).value;
    assert e.registry == FirstServedLast(g).registry && e.live == FirstServedLast(g).live;
    assert e.completed == FirstServedLast(g).completed && e.entered == FirstServedLast(g).entered;
  }

  /**
   * One abort is enough to lose both: the third reservation waits only for the aborted
   * second one, overtakes the first, and the first then leaves the tail of the third behind.
   */
  lemma AbortBreaksOrder(g: Group, acts: seq<Action>)
    requires acts == [Reserve(g, []), Reserve(g, []), Reserve(g, [])] + ([Abort(1), Finish(1)] + (Serving(2) + Serving(0)))
    ensures Run(Init, acts).Some?
    ensures Run(Init, acts).value.history == [g, g, g]
    ensures Run(Init, acts).value.entered == [2, 0]
    ensures Run(Init, acts).value.registry == Registry(map[], map[g := 2], map[])
  {
    ReserveThrice(g);
    AbortSecond(g);
    ServeThird(g);
    ServeFirst(g);
    RunInTurn(Init, [Reserve(g, []), Reserve(g, []), Reserve(g, [])], [Abort(1), Finish(1)], Serving(2), Serving(0));
  }

  lemma RunInTurn(s: State, a: seq<Action>, b: seq<Action>, c: seq<Action>, d: seq<Action>)
    requires Run(s, a).Some? && Run(Run(s, a).value, b).Some?
    requires Run(Run(Run(s, a).value, b).value, c).Some?
    ensures Run(s, a + (b + (c + d))) == Run(Run(Run(Run(s, a).value, b).value, c).value, d)
  {
    RunConcat(Run(Run(s, a).value, b).value, c, d);
    RunConcat(Run(s, a).value, b, c + d);
    RunConcat(s, a, b + (c + d));
  }
}
