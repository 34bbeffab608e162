/**
 * Start, close and drain of the social runtime manager, over the event fabric's registry
 * of group actors.
 *
 * Every `await` is a point where another coroutine may step, fail or be cancelled.  The
 * lifecycle lock is held across awaits while starting, tearing down and ingesting, and the
 * fabric lock while an actor starts.  Setting an event releases all of its waiters at once.
 */
module Lifecycle {
  import opened Basics

  type Key = string
  type Task = nat
  type Actor = nat

  // ---------------------------------------------------------------- manager fields

  datatype Core = Core(started: bool, closing: bool, active: int, idle: bool, closed: bool)
  {
    predicate Available() {
      started && !closing
    }
  }

  const Idle := Core(false, false, 0, true, true)

  function Entered(c: Core): Core {
    c.(active := c.active + 1, idle := false)
  }

  function Left(c: Core): Core {
    c.(active := c.active - 1, idle := c.idle || c.active == 1)
  }

  function Opened(c: Core): Core {
    c.(started := true, closed := true)
  }

  function ClosingBegun(c: Core): Core {
    c.(closing := true, closed := false)
  }

  function TornDown(c: Core): Core {
    c.(started := false, closing := false, closed := true)
  }

  // ---------------------------------------------------------------- coroutines

  datatype Pc =
    | StartWaits(groups: seq<Key>)      // wants the lifecycle lock
    | StartBlocked(groups: seq<Key>)    // waits for the closed event
    | StartOpens(groups: seq<Key>)      // holds the lifecycle lock, before fabric.open
    | StartSupervises(groups: seq<Key>) // holds the lifecycle lock, before supervisor.start
    | StartNotifies(todo: seq<Key>, creating: Option<Actor>)
    | Recovering                        // recovery after the lock is released
    | Storing                           // wants the lock to store the recovered requests
    | CloseWaits                        // wants the lifecycle lock
    | CloseFollows                      // waits for the closed event
    | CloseDrains                       // waits for the idle event
    | CloseLocks                        // wants the lifecycle lock for the teardown
    | CloseFabric                       // holds it, before the fabric lock
    | CloseActors(left: set<Actor>)     // holds it, closing the actors
    | CloseSupervisor                   // holds it, closing the supervisor
    | DrainWaits(groups: seq<Key>)      // wants the lifecycle lock
    | DrainRuns(todo: seq<Key>, creating: Option<Actor>)
    | DrainLeaves                       // wants the lifecycle lock to leave the bracket
    | IngestWaits(groups: seq<Key>)     // wants the lifecycle lock
    | IngestHolds(todo: seq<Key>, creating: Option<Actor>)
  {
    predicate Notifies() {
      StartNotifies? || DrainRuns? || IngestHolds?
    }

    predicate TearsDown() {
      CloseFabric? || CloseActors? || CloseSupervisor?
    }

    predicate StartsUp() {
      StartOpens? || StartSupervises? || StartNotifies?
    }

    predicate HoldsLock() {
      StartsUp() || TearsDown() || IngestHolds?
    }

    predicate WantsLock() {
      StartWaits? || Storing? || CloseWaits? || CloseLocks? || DrainWaits? || DrainLeaves? || IngestWaits?
    }

    /** Between `_begin_drain` and the end of `_end_drain`. */
    predicate Bracketed() {
      DrainRuns? || DrainLeaves?
    }

    /** The close call that set `_closing`. */
    predicate Closer() {
      CloseDrains? || CloseLocks? || TearsDown()
    }

    predicate OfStart() {
      StartWaits? || StartBlocked? || StartsUp() || Recovering? || Storing?
    }

    predicate OfClose() {
      CloseWaits? || CloseFollows? || Closer()
    }

    predicate AwaitsClosed() {
      StartBlocked? || CloseFollows?
    }
  }

  type Tasks = map<Task, Pc>

  /** `making` is the holder of the fabric lock: the coroutine that is starting an actor. */
  datatype Fabric = Fabric(closed: bool, actors: map<Key, Actor>, making: Option<Task>)

  /**
   * `alive` maps every started actor not yet closed to its key.  The last five fields
   * are history: `orphans` were left behind by a failed teardown, `abandoned` counts close calls
   * cancelled before their teardown, `leaked` drains cancelled while leaving, `launched`
   * successful starts and `torn` teardowns.
   */
  datatype State = State(
    core: Core,
    holder: Option<Task>,
    tasks: Tasks,
    count: nat,
    fabric: Fabric,
    alive: map<Actor, Key>,
    actorCount: nat,
    orphans: set<Actor>,
    abandoned: nat,
    leaked: nat,
    launched: nat,
    torn: nat)

  const Init := State(Idle, None, map[], 0, Fabric(false, map[], None), map[], 0, {}, 0, 0, 0, 0)

  datatype Action =
    | CallStart(groups: seq<Key>)
    | CallClose
    | CallDrain(groups: seq<Key>)  // drain and group_snapshot; groups: the actors it asks for
    | CallIngest(groups: seq<Key>) // ingest, execution feedback and deadline queries
    | Go(t: Task)
    | Fail(t: Task)                // exception or cancellation where t may be suspended; a failing
                                   // supervisor.close ends the teardown like a successful one (Go)

  predicate Enabled(s: State, a: Action) {
    match a
    case Go(t) =>
      && t in s.tasks
      && var pc := s.tasks[t];
         && !pc.AwaitsClosed() && !pc.CloseDrains?
         && (pc.WantsLock() ==> s.holder.None?)
         && (pc.StartOpens? || pc.CloseFabric? || (pc.Notifies() && pc.todo != [] && pc.creating.None?) ==>
               s.fabric.making.None?)
    case Fail(t) => t in s.tasks && !s.tasks[t].CloseSupervisor? && (s.tasks[t].CloseFabric? ==> s.fabric.making.Some?)
    case _ => true
  }

  function Called(s: State, pc: Pc): State {
    s.(tasks := s.tasks[s.count := pc], count := s.count + 1)
  }

  function Moved(s: State, t: Task, pc: Pc): State {
    s.(tasks := s.tasks[t := pc])
  }

  function Ended(s: State, t: Task): State {
    s.(tasks := s.tasks - {t})
  }

  /** The lifecycle lock is taken; the body of `async with` goes on across awaits. */
  function Locked(s: State, t: Task, pc: Pc): State {
    Moved(s, t, pc).(holder := Some(t))
  }

  /** Setting the idle event lets the waiting close calls go on. */
  function IdleAnnounced(tasks: Tasks): Tasks {
    map t | t in tasks :: if tasks[t].CloseDrains? then CloseLocks else tasks[t]
  }

  /** Setting the closed event ends the following close calls and sends blocked starts back. */
  function ClosedAnnounced(tasks: Tasks): Tasks {
    map t | t in tasks && !tasks[t].CloseFollows? ::
      if tasks[t].StartBlocked? then StartWaits(tasks[t].groups) else tasks[t]
  }

  /** An exception or a cancellation inside `notify` leaves the block that called it. */
  function Dropped(s: State, t: Task): State
    requires t in s.tasks && s.tasks[t].Notifies()
  {
    var fabric := if s.tasks[t].creating.Some? then s.fabric.(making := None) else s.fabric;
    if s.tasks[t].DrainRuns? then Moved(s, t, DrainLeaves).(fabric := fabric)
    else Ended(s, t).(fabric := fabric, holder := None)
  }

  function Failed(s: State, t: Task): State
    requires t in s.tasks
  {
    var pc := s.tasks[t];
    if pc.Notifies() then Dropped(s, t)
    else
      match pc
      case StartOpens(_) => Ended(s, t).(holder := None)
      case StartSupervises(_) => Ended(s, t).(holder := None)
      case Recovering => Moved(s, t, CloseWaits)
      case CloseDrains => Ended(s, t).(abandoned := s.abandoned + 1)
      case CloseLocks => Ended(s, t).(abandoned := s.abandoned + 1)
      case CloseFabric => Moved(s, t, CloseSupervisor)
      case CloseActors(left) => Moved(s, t, CloseSupervisor).(orphans := s.orphans + left)
      case DrainLeaves => Ended(s, t).(leaked := s.leaked + 1)
      case _ => Ended(s, t)
  }

  /** The `finally` of the teardown, after the supervisor was closed or failed to. */
  function Closed(s: State, t: Task): State {
    s.(core := TornDown(s.core), holder := None, tasks := ClosedAnnounced(s.tasks - {t}), torn := s.torn + 1)
  }

  function Notified(s: State, t: Task): State
    requires t in s.tasks && s.tasks[t].Notifies() && s.tasks[t].todo != []
  {
    var pc := s.tasks[t];
    var key := pc.todo[0];
    if pc.creating.Some? then
      Moved(s, t, pc.(todo := pc.todo[1..], creating := None))
        .(fabric := s.fabric.(actors := s.fabric.actors[key := pc.creating.value], making := None),
          alive := s.alive[pc.creating.value := key])
    else if s.fabric.closed then Dropped(s, t)
    else if key in s.fabric.actors then Moved(s, t, pc.(todo := pc.todo[1..]))
    else
      Moved(s, t, pc.(creating := Some(s.actorCount)))
        .(fabric := s.fabric.(making := Some(t)), actorCount := s.actorCount + 1)
  }

  function StartGone(s: State, t: Task): State
    requires t in s.tasks
  {
    match s.tasks[t]
    case StartWaits(groups) =>
      if s.core.closing then Moved(s, t, StartBlocked(groups))
      else if s.core.started then Ended(s, t)
      else Locked(s, t, StartOpens(groups))
    case StartOpens(groups) => Moved(s, t, StartSupervises(groups)).(fabric := s.fabric.(closed := false))
    case StartSupervises(groups) => Moved(s, t, StartNotifies(groups, None))
    case StartNotifies(_, _) =>
      Moved(s, t, Recovering).(core := Opened(s.core), holder := None, launched := s.launched + 1)
    case Recovering => Moved(s, t, Storing)
    case _ => Ended(s, t)
  }

  function CloseGone(s: State, t: Task): State
    requires t in s.tasks
  {
    match s.tasks[t]
    case CloseWaits =>
      if !s.core.started then Ended(s, t)
      else if s.core.closing then Moved(s, t, CloseFollows)
      else Moved(s, t, if s.core.idle then CloseLocks else CloseDrains).(core := ClosingBegun(s.core))
    case CloseLocks => Locked(s, t, CloseFabric)
    case CloseFabric =>
      Moved(s, t, CloseActors(s.fabric.actors.Values)).(fabric := s.fabric.(closed := true, actors := map[]))
    case CloseActors(left) => Moved(s, t, CloseSupervisor).(alive := s.alive - left)
    case _ => Closed(s, t)
  }

  function WorkGone(s: State, t: Task): State
    requires t in s.tasks
  {
    match s.tasks[t]
    case DrainWaits(groups) =>
      if s.core.Available() then Moved(s, t, DrainRuns(groups, None)).(core := Entered(s.core)) else Ended(s, t)
    case DrainRuns(_, _) => Moved(s, t, DrainLeaves)
    case DrainLeaves =>
      var core := Left(s.core);
      s.(core := core, tasks := if core.active == 0 then IdleAnnounced(s.tasks - {t}) else s.tasks - {t})
    case IngestWaits(groups) =>
      if s.core.Available() then Locked(s, t, IngestHolds(groups, None)) else Ended(s, t)
    case _ => Ended(s, t).(holder := None)
  }

  function Gone(s: State, t: Task): State
    requires t in s.tasks
  {
    var pc := s.tasks[t];
    if pc.Notifies() && pc.todo != [] then Notified(s, t)
    else if pc.OfStart() then StartGone(s, t)
    else if pc.OfClose() then CloseGone(s, t)
    else WorkGone(s, t)
  }

  function Apply(s: State, a: Action): State
    requires Enabled(s, a)
  {
    match a
    case CallStart(groups) => Called(s, StartWaits(groups))
    case CallClose => Called(s, CloseWaits)
    case CallDrain(groups) => Called(s, DrainWaits(groups))
    case CallIngest(groups) => Called(s, IngestWaits(groups))
    case Go(t) => Gone(s, t)
    case Fail(t) => Failed(s, t)
  }

  function Run(s: State, acts: seq<Action>): Option<State>
    decreases |acts|
  {
    if acts == [] then Some(s)
    else if Enabled(s, acts[0]) then Run(Apply(s, acts[0]), acts[1..])
    else None
  }

  // ---------------------------------------------------------------- invariant of all runs

  ghost function BracketedIn(tasks: Tasks): set<Task> {
    set t | t in tasks && tasks[t].Bracketed()
  }

  ghost function ClosersIn(tasks: Tasks): set<Task> {
    set t | t in tasks && tasks[t].Closer()
  }

  ghost predicate TasksInv(s: State) {
    && (forall t :: t in s.tasks ==> t < s.count)
    && (forall t :: (t in s.tasks && s.tasks[t].HoldsLock()) <==> s.holder == Some(t))
  }

  /** The idle event tells exactly whether a drain is counted, and the closed event whether nobody is closing. */
  ghost predicate EventsInv(s: State) {
    && (s.core.idle <==> s.core.active == 0)
    && (s.core.closed <==> !s.core.closing)
    && (s.core.closing || s.core.active > 0 ==> s.core.started)
    && (s.fabric.closed && s.core.started ==> s.core.closing && s.core.active == 0)
    && s.launched == s.torn + (if s.core.started then 1 else 0)
  }

  ghost predicate DrainsInv(s: State) {
    s.core.active == |BracketedIn(s.tasks)| + s.leaked
  }

  ghost predicate ClosersInv(s: State) {
    |ClosersIn(s.tasks)| + s.abandoned == if s.core.closing then 1 else 0
  }

  ghost predicate PlacesInv(s: State) {
    forall t :: t in s.tasks ==>
      var pc := s.tasks[t];
      && (pc.CloseDrains? ==> s.core.active > 0)
      && (pc.CloseLocks? || pc.TearsDown() ==> s.core.active == 0)
      && (pc.AwaitsClosed() ==> s.core.closing)
      && (pc.StartsUp() ==> !s.core.started)
      && (pc.IngestHolds? ==> s.core.Available())
      && (pc.StartSupervises? || pc.StartNotifies? ==> !s.fabric.closed)
      && (pc.CloseDrains? || pc.CloseLocks? || pc.CloseFabric? ==> !s.fabric.closed)
      && (pc.CloseActors? || pc.CloseSupervisor? ==> s.fabric.closed)
  }

  ghost predicate FabricInv(s: State) {
    && (s.fabric.closed ==> s.fabric.actors == map[])
    && (forall t :: (t in s.tasks && s.tasks[t].Notifies() && s.tasks[t].creating.Some?) <==> s.fabric.making == Some(t))
    && (forall t :: t in s.tasks && s.tasks[t].Notifies() && s.tasks[t].creating.Some? ==>
          && s.tasks[t].todo != [] && s.tasks[t].todo[0] !in s.fabric.actors
          && s.tasks[t].creating.value < s.actorCount
          && s.tasks[t].creating.value !in s.alive && s.tasks[t].creating.value !in s.orphans)
  }

  ghost predicate Closing(tasks: Tasks, a: Actor) {
    exists t :: t in tasks && tasks[t].CloseActors? && a in tasks[t].left
  }

  ghost predicate Registered(s: State, a: Actor) {
    a in s.alive && s.alive[a] in s.fabric.actors && s.fabric.actors[s.alive[a]] == a
  }

  ghost predicate ActorsInv(s: State) {
    && (forall a: Actor :: a in s.alive || a in s.orphans || Closing(s.tasks, a) ==> a < s.actorCount)
    && (forall k :: k in s.fabric.actors ==>
          s.fabric.actors[k] in s.alive && s.alive[s.fabric.actors[k]] == k && s.fabric.actors[k] !in s.orphans)
    && (forall a :: a in s.alive ==> a in s.orphans || Registered(s, a) || Closing(s.tasks, a))
    && (forall a: Actor :: Closing(s.tasks, a) ==> a !in s.orphans)
    && (forall a, b :: a in s.alive && b in s.alive && a !in s.orphans && b !in s.orphans && s.alive[a] == s.alive[b] ==>
          a == b)
  }

  ghost predicate CoreInv(s: State) {
    TasksInv(s) && EventsInv(s) && DrainsInv(s) && ClosersInv(s) && PlacesInv(s)
  }

  ghost predicate Inv(s: State) {
    CoreInv(s) && FabricInv(s) && ActorsInv(s)
  }

  function Bit(b: bool): nat {
    if b then 1 else 0
  }

  predicate InBracket(tasks: Tasks, t: Task) {
    t in tasks && tasks[t].Bracketed()
  }

  predicate IsCloser(tasks: Tasks, t: Task) {
    t in tasks && tasks[t].Closer()
  }

  lemma ToggleSize(all: set<Task>, then_: set<Task>, t: Task)
    requires all - {t} == then_ - {t}
    ensures |then_| == |all| + Bit(t in then_) - Bit(t in all)
  {
    assert all == (all - {t}) + if t in all then {t} else {};
    assert then_ == (all - {t}) + if t in then_ then {t} else {};
  }

  /** How a step of t changes the two counts. */
  lemma Tally(s: State, s': State, t: Task)
    requires forall u :: u != t ==> InBracket(s.tasks, u) == InBracket(s'.tasks, u) && IsCloser(s.tasks, u) == IsCloser(s'.tasks, u)
    requires s'.core.active - s'.leaked == s.core.active - s.leaked + Bit(InBracket(s'.tasks, t)) - Bit(InBracket(s.tasks, t))
    requires Bit(s'.core.closing) - s'.abandoned
             == Bit(s.core.closing) - s.abandoned + Bit(IsCloser(s'.tasks, t)) - Bit(IsCloser(s.tasks, t))
    requires DrainsInv(s) && ClosersInv(s)
    ensures DrainsInv(s') && ClosersInv(s')
  {
    assert forall u :: u in BracketedIn(s.tasks) - {t} <==> InBracket(s.tasks, u) && u != t;
    assert forall u :: u in ClosersIn(s.tasks) - {t} <==> IsCloser(s.tasks, u) && u != t;
    ToggleSize(BracketedIn(s.tasks), BracketedIn(s'.tasks), t);
    ToggleSize(ClosersIn(s.tasks), ClosersIn(s'.tasks), t);
  }

  /** Tasks the invariant of the fabric looks at. */
  predicate Handles(tasks: Tasks, t: Task) {
    t in tasks && ((tasks[t].Notifies() && tasks[t].creating.Some?) || tasks[t].CloseActors?)
  }

  /** A step that neither changes the fabric nor concerns a task that handles actors. */
  ghost predicate Quiet(s: State, s': State) {
    && s'.fabric == s.fabric && s'.alive == s.alive && s'.actorCount == s.actorCount && s'.orphans == s.orphans
    && (forall u :: Handles(s.tasks, u) || Handles(s'.tasks, u) ==> u in s.tasks && u in s'.tasks && s'.tasks[u] == s.tasks[u])
  }

  lemma QuietKeepsFabric(s: State, s': State)
    requires FabricInv(s) && Quiet(s, s')
    ensures FabricInv(s')
  {
    forall t ensures (t in s'.tasks && s'.tasks[t].Notifies() && s'.tasks[t].creating.Some?) <==> s'.fabric.making == Some(t) {
      assert Handles(s.tasks, t) == Handles(s'.tasks, t);
    }
    forall t | t in s'.tasks && s'.tasks[t].Notifies() && s'.tasks[t].creating.Some?
      ensures t in s.tasks && s.tasks[t] == s'.tasks[t]
    {
      assert Handles(s'.tasks, t);
    }
  }

  lemma QuietKeepsActors(s: State, s': State)
    requires ActorsInv(s) && Quiet(s, s')
    ensures ActorsInv(s')
  {
    forall a | a in s.alive && Closing(s.tasks, a) ensures Closing(s'.tasks, a) {
      var t :| t in s.tasks && s.tasks[t].CloseActors? && a in s.tasks[t].left;
      assert Handles(s.tasks, t);
    }
  }

  /** A counted task is counted, so the counter is positive; there is one closer at most. */
  lemma Counts(s: State)
    requires DrainsInv(s) && ClosersInv(s)
    ensures forall t :: t in s.tasks && s.tasks[t].Bracketed() ==> s.core.active > 0
    ensures forall t :: t in s.tasks && s.tasks[t].Closer() ==> s.core.closing && s.abandoned == 0
    ensures forall t, u :: t in s.tasks && u in s.tasks && s.tasks[t].Closer() && s.tasks[u].Closer() ==> t == u
  {
    forall t | t in s.tasks && s.tasks[t].Bracketed() ensures s.core.active > 0 {
      SubsetSize({t}, BracketedIn(s.tasks));
    }
    forall t | t in s.tasks && s.tasks[t].Closer() ensures s.core.closing && s.abandoned == 0 {
      SubsetSize({t}, ClosersIn(s.tasks));
    }
    forall t, u | t in s.tasks && u in s.tasks && s.tasks[t].Closer() && s.tasks[u].Closer() ensures t == u {
      SubsetSize({t, u}, ClosersIn(s.tasks));
      assert |{t, u}| <= 1;
    }
  }

  /** While a teardown is under way, or about to take the lock, no drain is inside its bracket. */
  lemma TeardownIsAlone(s: State, t: Task)
    requires t in s.tasks && (s.tasks[t].TearsDown() || s.tasks[t].CloseLocks?)
    requires Inv(s)
    ensures forall u :: u in s.tasks ==> !s.tasks[u].Bracketed()
    ensures s.tasks[t].TearsDown() ==> s.fabric.making.None?
    ensures s.core.started
  {
    Counts(s);
  }

  /** Nobody that may ask for an actor ever meets a closed fabric. */
  lemma NotifyMeetsOpenFabric(s: State, t: Task)
    requires t in s.tasks && s.tasks[t].Notifies() && Inv(s)
    ensures !s.fabric.closed
  {
    Counts(s);
  }

  // Each component of the invariant is kept by each family of steps.

  ghost predicate CanGo(s: State, t: Task) {
    Enabled(s, Go(t)) && !(s.tasks[t].Notifies() && s.tasks[t].todo != [])
  }

  ghost predicate CanNotify(s: State, t: Task) {
    Enabled(s, Go(t)) && s.tasks[t].Notifies() && s.tasks[t].todo != []
  }

  lemma CallKeepsCore(s: State, pc: Pc)
    requires CoreInv(s) && (pc.StartWaits? || pc.CloseWaits? || pc.DrainWaits? || pc.IngestWaits?)
    ensures CoreInv(Called(s, pc))
  {
    Tally(s, Called(s, pc), s.count);
  }

  lemma CallKeepsInv(s: State, pc: Pc)
    requires Inv(s) && (pc.StartWaits? || pc.CloseWaits? || pc.DrainWaits? || pc.IngestWaits?)
    ensures Inv(Called(s, pc))
  {
    CallKeepsCore(s, pc);
    CallIsQuiet(s, pc);
    QuietKeepsFabric(s, Called(s, pc));
    QuietKeepsActors(s, Called(s, pc));
  }

  lemma CallIsQuiet(s: State, pc: Pc)
    requires TasksInv(s) && !pc.Notifies() && !pc.CloseActors?
    ensures Quiet(s, Called(s, pc))
  {
  }

  /** A call goes on asking for its actors; nothing of the manager changes. */
  ghost predicate Progressed(s: State, s': State, t: Task) {
    && t in s.tasks && s.tasks[t].Notifies() && t in s'.tasks && s'.tasks[t].Notifies()
    && s'.tasks[t] == s.tasks[t].(todo := s'.tasks[t].todo, creating := s'.tasks[t].creating)
    && s'.tasks == s.tasks[t := s'.tasks[t]] && s'.fabric.closed == s.fabric.closed
    && s' == s.(tasks := s'.tasks, fabric := s'.fabric, alive := s'.alive, actorCount := s'.actorCount)
  }

  lemma NotifiedProgresses(s: State, t: Task)
    requires CanNotify(s, t) && !s.fabric.closed
    ensures Progressed(s, Notified(s, t), t)
  {
  }

  lemma ProgressKeepsTasks(s: State, s': State, t: Task)
    requires TasksInv(s) && EventsInv(s) && Progressed(s, s', t)
    ensures TasksInv(s') && EventsInv(s')
  {
    assert s.tasks[t].HoldsLock() <==> s'.tasks[t].HoldsLock();
  }

  lemma ProgressKeepsPlaces(s: State, s': State, t: Task)
    requires PlacesInv(s) && Progressed(s, s', t)
    ensures PlacesInv(s')
  {
  }

  lemma ProgressKeepsCore(s: State, s': State, t: Task)
    requires CoreInv(s) && Progressed(s, s', t)
    ensures CoreInv(s')
  {
    ProgressKeepsTasks(s, s', t);
    ProgressKeepsPlaces(s, s', t);
    Tally(s, s', t);
  }

  lemma NotifyKeepsCore(s: State, t: Task)
    requires Inv(s) && CanNotify(s, t)
    ensures CoreInv(Notified(s, t))
  {
    NotifyMeetsOpenFabric(s, t);
    NotifiedProgresses(s, t);
    ProgressKeepsCore(s, Notified(s, t), t);
  }

  lemma StartKeepsTasks(s: State, t: Task)
    requires CoreInv(s) && CanGo(s, t) && s.tasks[t].OfStart()
    ensures TasksInv(StartGone(s, t)) && EventsInv(StartGone(s, t))
  {
    Counts(s);
  }

  lemma CloseKeepsTasks(s: State, t: Task)
    requires CoreInv(s) && CanGo(s, t) && s.tasks[t].OfClose()
    ensures TasksInv(CloseGone(s, t)) && EventsInv(CloseGone(s, t))
  {
    Counts(s);
    if s.tasks[t].CloseSupervisor? {
      TeardownKeepsTasks(s, t);
    }
  }

  lemma TeardownKeepsTasks(s: State, t: Task)
    requires CoreInv(s) && t in s.tasks && s.tasks[t].CloseSupervisor? && s.core.closing
    ensures TasksInv(Closed(s, t)) && EventsInv(Closed(s, t))
  {
  }

  lemma WorkKeepsTasks(s: State, t: Task)
    requires CoreInv(s) && CanGo(s, t) && !s.tasks[t].OfStart() && !s.tasks[t].OfClose()
    ensures TasksInv(WorkGone(s, t)) && EventsInv(WorkGone(s, t))
  {
    Counts(s);
    if s.tasks[t].DrainLeaves? {
      LeaveKeepsTasks(s, t);
    }
  }

  lemma LeaveKeepsTasks(s: State, t: Task)
    requires TasksInv(s) && EventsInv(s) && CanGo(s, t) && s.tasks[t].DrainLeaves? && s.core.active > 0
    ensures TasksInv(WorkGone(s, t)) && EventsInv(WorkGone(s, t))
  {
  }

  /** What a failing call outside of `notify` changes: it ends, closes next or goes on with the teardown. */
  ghost predicate Broken(s: State, s': State, t: Task) {
    && t in s.tasks && var pc := s.tasks[t];
       && s'.core == s.core && s'.fabric == s.fabric && s'.count == s.count && s'.launched == s.launched && s'.torn == s.torn
       && s'.leaked == s.leaked + Bit(pc.DrainLeaves?)
       && s'.abandoned == s.abandoned + Bit(pc.CloseDrains? || pc.CloseLocks?)
       && s'.holder == (if pc.StartsUp() then None else s.holder)
       && (t in s'.tasks ==> if pc.Recovering? then s'.tasks[t].CloseWaits? else pc.CloseActors? && s'.tasks[t].CloseSupervisor?)
       && (pc.CloseActors? ==> t in s'.tasks)
       && forall u :: u != t ==> (u in s'.tasks <==> u in s.tasks) && (u in s.tasks ==> s'.tasks[u] == s.tasks[u])
  }

  lemma FailBreaks(s: State, t: Task)
    requires Enabled(s, Fail(t)) && !s.tasks[t].Notifies() && !s.tasks[t].CloseFabric?
    ensures Broken(s, Failed(s, t), t)
  {
  }

  lemma BrokenKeepsTasks(s: State, s': State, t: Task)
    requires TasksInv(s) && EventsInv(s) && Broken(s, s', t)
    requires !s.tasks[t].Notifies() && !s.tasks[t].CloseFabric? && !s.tasks[t].CloseSupervisor?
    ensures TasksInv(s') && EventsInv(s')
  {
  }

  lemma BrokenKeepsCounts(s: State, s': State, t: Task)
    requires DrainsInv(s) && ClosersInv(s) && Broken(s, s', t)
    requires !s.tasks[t].Notifies() && !s.tasks[t].CloseFabric? && !s.tasks[t].CloseSupervisor?
    ensures DrainsInv(s') && ClosersInv(s')
  {
    Tally(s, s', t);
  }

  lemma BrokenKeepsPlaces(s: State, s': State, t: Task)
    requires PlacesInv(s) && Broken(s, s', t)
    ensures PlacesInv(s')
  {
  }

  lemma FailKeepsCore(s: State, t: Task)
    requires CoreInv(s) && Enabled(s, Fail(t)) && !s.tasks[t].Notifies() && !s.tasks[t].CloseFabric?
    ensures CoreInv(Failed(s, t))
  {
    FailBreaks(s, t);
    BrokenKeepsTasks(s, Failed(s, t), t);
    BrokenKeepsCounts(s, Failed(s, t), t);
    BrokenKeepsPlaces(s, Failed(s, t), t);
  }

  lemma StartKeepsCounts(s: State, t: Task)
    requires CoreInv(s) && CanGo(s, t) && s.tasks[t].OfStart()
    ensures DrainsInv(StartGone(s, t)) && ClosersInv(StartGone(s, t))
  {
    Counts(s);
    Tally(s, StartGone(s, t), t);
  }

  lemma CloseKeepsCounts(s: State, t: Task)
    requires CoreInv(s) && CanGo(s, t) && s.tasks[t].OfClose()
    ensures DrainsInv(CloseGone(s, t)) && ClosersInv(CloseGone(s, t))
  {
    Counts(s);
    Tally(s, CloseGone(s, t), t);
  }

  lemma WorkKeepsCounts(s: State, t: Task)
    requires CoreInv(s) && CanGo(s, t) && !s.tasks[t].OfStart() && !s.tasks[t].OfClose()
    ensures DrainsInv(WorkGone(s, t)) && ClosersInv(WorkGone(s, t))
  {
    Counts(s);
    Tally(s, WorkGone(s, t), t);
  }

  lemma StartKeepsPlaces(s: State, t: Task)
    requires CoreInv(s) && CanGo(s, t) && s.tasks[t].OfStart()
    ensures PlacesInv(StartGone(s, t))
  {
    Counts(s);
  }

  lemma CloseKeepsPlaces(s: State, t: Task)
    requires CoreInv(s) && CanGo(s, t) && s.tasks[t].OfClose()
    ensures PlacesInv(CloseGone(s, t))
  {
    Counts(s);
  }

  lemma WorkKeepsPlaces(s: State, t: Task)
    requires CoreInv(s) && CanGo(s, t) && !s.tasks[t].OfStart() && !s.tasks[t].OfClose()
    ensures PlacesInv(WorkGone(s, t))
  {
    Counts(s);
    if s.tasks[t].DrainLeaves? {
      LeaveKeepsPlaces(s, t);
    }
  }

  lemma LeaveKeepsPlaces(s: State, t: Task)
    requires PlacesInv(s) && t in s.tasks && s.tasks[t].DrainLeaves? && s.core.active > 0
    ensures PlacesInv(WorkGone(s, t))
  {
  }

  lemma NotifyKeepsFabric(s: State, t: Task)
    requires Inv(s) && CanNotify(s, t)
    ensures FabricInv(Notified(s, t))
  {
    NotifyMeetsOpenFabric(s, t);
    Counts(s);
  }

  lemma RegisterKeepsActors(s: State, t: Task)
    requires TasksInv(s) && PlacesInv(s) && FabricInv(s) && ActorsInv(s) && CanNotify(s, t) && s.tasks[t].creating.Some?
    requires forall u :: u in s.tasks ==> !s.tasks[u].CloseActors?
    ensures ActorsInv(Notified(s, t))
  {
    var s' := Notified(s, t);
    var key, actor := s.tasks[t].todo[0], s.tasks[t].creating.value;
    assert s'.alive == s.alive[actor := key] && s'.fabric.actors == s.fabric.actors[key := actor];
    assert forall u :: u in s'.tasks ==> !s'.tasks[u].CloseActors?;
    forall a | a in s'.alive ensures a in s'.orphans || Registered(s', a) {
      if a != actor {
        assert a in s.orphans || Registered(s, a);
      }
    }
  }

  lemma AskKeepsActors(s: State, t: Task)
    requires ActorsInv(s) && CanNotify(s, t) && s.tasks[t].creating.None? && !s.fabric.closed
    ensures ActorsInv(Notified(s, t))
  {
    var s' := Notified(s, t);
    assert s'.fabric.actors == s.fabric.actors && s'.alive == s.alive;
    forall a | a in s.alive && Closing(s.tasks, a) ensures Closing(s'.tasks, a) {
      var u :| u in s.tasks && s.tasks[u].CloseActors? && a in s.tasks[u].left;
      assert u != t && s'.tasks[u] == s.tasks[u];
    }
  }

  lemma NotifyKeepsActors(s: State, t: Task)
    requires Inv(s) && CanNotify(s, t)
    ensures ActorsInv(Notified(s, t))
  {
    NotifyMeetsOpenFabric(s, t);
    if s.tasks[t].creating.Some? {
      RegisterKeepsActors(s, t);
    } else {
      AskKeepsActors(s, t);
    }
  }

  lemma StartIsQuiet(s: State, t: Task)
    requires FabricInv(s) && CanGo(s, t) && s.tasks[t].OfStart() && !s.tasks[t].StartOpens?
    ensures Quiet(s, StartGone(s, t))
  {
  }

  lemma CloseIsQuiet(s: State, t: Task)
    requires FabricInv(s) && CanGo(s, t) && s.tasks[t].OfClose() && !s.tasks[t].CloseFabric? && !s.tasks[t].CloseActors?
    ensures Quiet(s, CloseGone(s, t))
  {
    if s.tasks[t].CloseSupervisor? {
      TeardownIsQuiet(s, t);
    }
  }

  lemma TeardownIsQuiet(s: State, t: Task)
    requires t in s.tasks && s.tasks[t].CloseSupervisor?
    ensures Quiet(s, Closed(s, t))
  {
  }

  lemma WorkIsQuiet(s: State, t: Task)
    requires FabricInv(s) && CanGo(s, t) && !s.tasks[t].OfStart() && !s.tasks[t].OfClose()
    ensures Quiet(s, WorkGone(s, t))
  {
  }

  lemma FailIsQuiet(s: State, t: Task)
    requires FabricInv(s) && Enabled(s, Fail(t)) && !s.tasks[t].Notifies() && !s.tasks[t].CloseActors?
    ensures Quiet(s, Failed(s, t))
  {
  }

  lemma OpenKeepsFabric(s: State, t: Task)
    requires Inv(s) && t in s.tasks && s.tasks[t].StartOpens?
    ensures FabricInv(StartGone(s, t)) && ActorsInv(StartGone(s, t))
  {
  }

  lemma SealKeepsFabric(s: State, t: Task)
    requires Inv(s) && t in s.tasks && s.tasks[t].CloseFabric? && Enabled(s, Go(t))
    ensures FabricInv(CloseGone(s, t)) && ActorsInv(CloseGone(s, t))
  {
  }

  lemma BuryKeepsFabric(s: State, t: Task)
    requires Inv(s) && t in s.tasks && s.tasks[t].CloseActors?
    ensures FabricInv(CloseGone(s, t)) && ActorsInv(CloseGone(s, t))
  {
  }

  lemma OrphanKeepsFabric(s: State, t: Task)
    requires Inv(s) && t in s.tasks && s.tasks[t].CloseActors?
    ensures FabricInv(Failed(s, t)) && ActorsInv(Failed(s, t))
  {
    TeardownIsAlone(s, t);
    forall a | a in s.tasks[t].left ensures a < s.actorCount {
      assert Closing(s.tasks, a);
    }
  }

  lemma DropKeepsCore(s: State, t: Task)
    requires CoreInv(s) && t in s.tasks && s.tasks[t].Notifies()
    ensures CoreInv(Dropped(s, t))
  {
    Counts(s);
    Tally(s, Dropped(s, t), t);
  }

  lemma DropKeepsFabric(s: State, t: Task)
    requires FabricInv(s) && ActorsInv(s) && t in s.tasks && s.tasks[t].Notifies()
    ensures FabricInv(Dropped(s, t)) && ActorsInv(Dropped(s, t))
  {
  }

  lemma GoKeepsInv(s: State, t: Task)
    requires Inv(s) && Enabled(s, Go(t))
    ensures Inv(Gone(s, t))
  {
    var pc := s.tasks[t];
    if pc.Notifies() && pc.todo != [] {
      NotifyKeepsCore(s, t);
      NotifyKeepsFabric(s, t);
      NotifyKeepsActors(s, t);
    } else if pc.OfStart() {
      StartKeepsTasks(s, t);
      StartKeepsCounts(s, t);
      StartKeepsPlaces(s, t);
      if pc.StartOpens? {
        OpenKeepsFabric(s, t);
      } else {
        StartIsQuiet(s, t);
        QuietKeepsFabric(s, Gone(s, t));
        QuietKeepsActors(s, Gone(s, t));
      }
    } else if pc.OfClose() {
      CloseKeepsTasks(s, t);
      CloseKeepsCounts(s, t);
      CloseKeepsPlaces(s, t);
      if pc.CloseFabric? {
        SealKeepsFabric(s, t);
      } else if pc.CloseActors? {
        BuryKeepsFabric(s, t);
      } else {
        CloseIsQuiet(s, t);
        QuietKeepsFabric(s, Gone(s, t));
        QuietKeepsActors(s, Gone(s, t));
      }
    } else {
      WorkKeepsTasks(s, t);
      WorkKeepsCounts(s, t);
      WorkKeepsPlaces(s, t);
      WorkIsQuiet(s, t);
      QuietKeepsFabric(s, Gone(s, t));
      QuietKeepsActors(s, Gone(s, t));
    }
  }

  lemma FailKeepsInv(s: State, t: Task)
    requires Inv(s) && Enabled(s, Fail(t))
    ensures Inv(Failed(s, t))
  {
    var pc := s.tasks[t];
    if pc.Notifies() {
      DropKeepsCore(s, t);
      DropKeepsFabric(s, t);
    } else {
      TeardownNeverWaits(s, t);
      FailKeepsCore(s, t);
      if pc.CloseActors? {
        OrphanKeepsFabric(s, t);
      } else {
        FailIsQuiet(s, t);
        QuietKeepsFabric(s, Failed(s, t));
        QuietKeepsActors(s, Failed(s, t));
      }
    }
  }

  lemma StepKeepsInv(s: State, a: Action)
    requires Inv(s) && Enabled(s, a)
    ensures Inv(Apply(s, a))
  {
    match a
    case Go(t) => GoKeepsInv(s, t);
    case Fail(t) => FailKeepsInv(s, t);
    case CallStart(groups) => CallKeepsInv(s, StartWaits(groups));
    case CallClose => CallKeepsInv(s, CloseWaits);
    case CallDrain(groups) => CallKeepsInv(s, DrainWaits(groups));
    case CallIngest(groups) => CallKeepsInv(s, IngestWaits(groups));
  }

  lemma {:induction false} RunKeepsInv(s: State, acts: seq<Action>, s': State)
    requires Inv(s) && Run(s, acts) == Some(s')
    ensures Inv(s')
    decreases |acts|
  {
    if acts != [] {
      StepKeepsInv(s, acts[0]);
      RunKeepsInv(Apply(s, acts[0]), acts[1..], s');
    }
  }

  lemma InitInv()
    ensures Inv(Init)
  {
    assert BracketedIn(Init.tasks) == {} && ClosersIn(Init.tasks) == {};
  }

  // ---------------------------------------------------------------- safety of every run

  /** A teardown overlaps no counted drain or snapshot, no start, no ingest and no other teardown. */
  lemma TeardownExcludesWork(acts: seq<Action>, s: State, t: Task)
    requires Run(Init, acts) == Some(s) && t in s.tasks && s.tasks[t].TearsDown()
    ensures s.core.active == 0 && s.fabric.making.None?
    ensures forall u :: u in s.tasks && u != t ==> !s.tasks[u].Bracketed() && !s.tasks[u].HoldsLock()
  {
    InitInv();
    RunKeepsInv(Init, acts, s);
    TeardownIsAlone(s, t);
  }

  /** The idle event is set exactly when no drain is counted; only a drain cancelled while leaving stays counted. */
  lemma IdleTellsDrains(acts: seq<Action>, s: State)
    requires Run(Init, acts) == Some(s)
    ensures s.core.idle <==> s.core.active == 0
    ensures s.core.active == |BracketedIn(s.tasks)| + s.leaked
    ensures s.core.closed <==> !s.core.closing
  {
    InitInv();
    RunKeepsInv(Init, acts, s);
  }

  /** However many close calls are made, one at most is the closer, and starts and teardowns alternate. */
  lemma OneTeardownPerStart(acts: seq<Action>, s: State)
    requires Run(Init, acts) == Some(s)
    ensures s.torn <= s.launched <= s.torn + 1
    ensures s.core.started <==> s.launched == s.torn + 1
    ensures |ClosersIn(s.tasks)| + s.abandoned == if s.core.closing then 1 else 0
  {
    InitInv();
    RunKeepsInv(Init, acts, s);
  }

  /** At most one live actor per key apart from orphans; a closed fabric has no actor, and only actors being closed still live. */
  lemma RegistryIsExact(acts: seq<Action>, s: State)
    requires Run(Init, acts) == Some(s)
    ensures forall a, b :: a in s.alive && b in s.alive && a !in s.orphans && b !in s.orphans && s.alive[a] == s.alive[b] ==> a == b
    ensures forall k :: k in s.fabric.actors ==> s.fabric.actors[k] in s.alive && s.alive[s.fabric.actors[k]] == k
    ensures s.fabric.closed ==> s.fabric.actors == map[] && forall a :: a in s.alive ==> a in s.orphans || Closing(s.tasks, a)
    ensures forall t :: t in s.tasks && s.tasks[t].Notifies() ==> !s.fabric.closed
  {
    InitInv();
    RunKeepsInv(Init, acts, s);
    forall t | t in s.tasks && s.tasks[t].Notifies() ensures !s.fabric.closed {
      NotifyMeetsOpenFabric(s, t);
    }
  }

  /** No teardown has to wait for the fabric lock, so none fails before the registry is cleared. */
  lemma TeardownNeverWaits(s: State, t: Task)
    requires Inv(s) && t in s.tasks
    ensures s.tasks[t].CloseFabric? ==> s.fabric.making.None? && !Enabled(s, Fail(t)) && Enabled(s, Go(t))
  {
    if s.tasks[t].CloseFabric? {
      TeardownIsAlone(s, t);
    }
  }

  ghost predicate Stopped(s: State) {
    !s.core.started && forall t :: t in s.tasks ==> s.tasks[t].OfStart() ==> s.tasks[t].Recovering? || s.tasks[t].Storing?
  }

  lemma StoppedStep(s: State, a: Action)
    requires Inv(s) && Stopped(s) && Enabled(s, a) && !a.CallStart?
    ensures Stopped(Apply(s, a)) && Apply(s, a).fabric == s.fabric && Apply(s, a).torn == s.torn
  {
    Counts(s);
  }

  /** Between a teardown and the next start call the fabric is not touched and every work call is refused. */
  lemma {:induction false} StoppedUntilStarted(s: State, acts: seq<Action>, s': State)
    requires Inv(s) && Stopped(s) && Run(s, acts) == Some(s')
    requires forall a :: a in acts ==> !a.CallStart?
    ensures s'.fabric == s.fabric && s'.torn == s.torn
    ensures forall t :: t in s'.tasks ==> !s'.tasks[t].Notifies() && !s'.tasks[t].Bracketed() && !s'.tasks[t].Closer()
    decreases |acts|
  {
    if acts == [] {
      Counts(s);
    } else {
      StoppedStep(s, acts[0]);
      StepKeepsInv(s, acts[0]);
      StoppedUntilStarted(Apply(s, acts[0]), acts[1..], s');
    }
  }

  /** The step by which a start call opens the fabric. */
  predicate Opens(s: State, a: Action) {
    a.Go? && a.t in s.tasks && s.tasks[a.t].StartOpens?
  }

  predicate NobodyOpens(s: State, acts: seq<Action>)
    decreases |acts|
  {
    acts == [] || (!Opens(s, acts[0]) && (Enabled(s, acts[0]) ==> NobodyOpens(Apply(s, acts[0]), acts[1..])))
  }

  /** Torn down and not opened since. */
  ghost predicate Shut(s: State) {
    !s.core.started && s.fabric == Fabric(true, map[], None)
  }

  /** Then nobody asks for an actor, drains or closes, and no start has got past the opening. */
  lemma ShutIsIdle(s: State)
    requires CoreInv(s) && Shut(s)
    ensures forall t :: t in s.tasks ==> var pc := s.tasks[t]; !pc.Notifies() && !pc.Bracketed() && !pc.Closer() && !pc.StartSupervises?
  {
    Counts(s);
  }

  lemma ShutStep(s: State, a: Action)
    requires CoreInv(s) && Shut(s) && Enabled(s, a) && !Opens(s, a)
    ensures Shut(Apply(s, a)) && Apply(s, a).torn == s.torn && Apply(s, a).alive == s.alive
  {
    ShutIsIdle(s);
  }

  lemma {:induction false} ShutRun(s: State, acts: seq<Action>, s': State)
    requires Inv(s) && Shut(s) && Run(s, acts) == Some(s') && NobodyOpens(s, acts)
    ensures Inv(s') && Shut(s') && s'.torn == s.torn
    decreases |acts|
  {
    if acts != [] {
      ShutStep(s, acts[0]);
      StepKeepsInv(s, acts[0]);
      ShutRun(Apply(s, acts[0]), acts[1..], s');
    }
  }

  lemma TeardownShuts(s: State, t: Task)
    requires Inv(s) && t in s.tasks && s.tasks[t].CloseSupervisor?
    ensures Enabled(s, Go(t)) && Shut(Gone(s, t)) && Gone(s, t).torn == s.torn + 1
  {
    TeardownIsAlone(s, t);
  }

  /**
   * From the end of any teardown until a start call opens the fabric again, the fabric is closed
   * and its registry empty, every actor that still lives was left behind by a failed teardown, and
   * no call asks for an actor, drains or closes.
   */
  lemma ClosedUntilOpened(before: seq<Action>, s: State, t: Task, acts: seq<Action>, s': State)
    requires Run(Init, before) == Some(s) && t in s.tasks && s.tasks[t].CloseSupervisor?
    requires Enabled(s, Go(t)) && Run(Gone(s, t), acts) == Some(s') && NobodyOpens(Gone(s, t), acts)
    ensures s'.fabric == Fabric(true, map[], None) && !s'.core.started && s'.torn == s.torn + 1
    ensures forall a :: a in s'.alive ==> a in s'.orphans
    ensures forall u :: u in s'.tasks ==> !s'.tasks[u].Notifies() && !s'.tasks[u].Bracketed() && !s'.tasks[u].Closer()
  {
    InitInv();
    RunKeepsInv(Init, before, s);
    StepKeepsInv(s, Go(t));
    TeardownShuts(s, t);
    ShutRun(Gone(s, t), acts, s');
    ShutIsIdle(s');
    ShutActorsAreOrphans(s');
  }

  lemma ShutActorsAreOrphans(s: State)
    requires CoreInv(s) && ActorsInv(s) && Shut(s)
    ensures forall a :: a in s.alive ==> a in s.orphans
  {
    ShutIsIdle(s);
  }

  /** No start call waits and none is made: so nobody opens the fabric. */
  lemma {:induction false} NobodyStarts(s: State, acts: seq<Action>)
    requires forall t :: t in s.tasks ==> Startless(s.tasks[t])
    requires forall a :: a in acts ==> !a.CallStart?
    ensures NobodyOpens(s, acts)
    decreases |acts|
  {
    if acts != [] {
      assert !acts[0].CallStart?;
      if Enabled(s, acts[0]) {
        forall t | t in Apply(s, acts[0]).tasks ensures Startless(Apply(s, acts[0]).tasks[t]) {
          StepStartsNothing(s, acts[0], t);
        }
        NobodyStarts(Apply(s, acts[0]), acts[1..]);
      }
    }
  }

  /** Not a start call, or one that has done its start. */
  predicate Startless(pc: Pc) {
    pc.OfStart() ==> pc.Recovering? || pc.Storing?
  }

  lemma StepStartsNothing(s: State, a: Action, u: Task)
    requires Enabled(s, a) && !a.CallStart? && u in Apply(s, a).tasks
    requires (u in s.tasks ==> Startless(s.tasks[u])) && ((a.Go? || a.Fail?) ==> Startless(s.tasks[a.t]))
    ensures Startless(Apply(s, a).tasks[u])
  {
    if a.Go? {
      GoStartsNothing(s, a.t, u);
    }
  }

  lemma GoStartsNothing(s: State, t: Task, u: Task)
    requires Enabled(s, Go(t)) && u in Gone(s, t).tasks
    requires (u in s.tasks ==> Startless(s.tasks[u])) && Startless(s.tasks[t])
    ensures Startless(Gone(s, t).tasks[u])
  {
    if CanNotify(s, t) {
      NotifyStartsNothing(s, t, u);
    } else if s.tasks[t].OfStart() {
      assert Gone(s, t) == StartGone(s, t);
    } else if s.tasks[t].OfClose() {
      CloseStartsNothing(s, t, u);
    } else {
      WorkStartsNothing(s, t, u);
    }
  }

  lemma NotifyStartsNothing(s: State, t: Task, u: Task)
    requires CanNotify(s, t) && Startless(s.tasks[t]) && u in Notified(s, t).tasks && (u in s.tasks ==> Startless(s.tasks[u]))
    ensures Startless(Notified(s, t).tasks[u])
  {
  }

  lemma CloseStartsNothing(s: State, t: Task, u: Task)
    requires CanGo(s, t) && s.tasks[t].OfClose() && u in CloseGone(s, t).tasks && (u in s.tasks ==> Startless(s.tasks[u]))
    ensures Startless(CloseGone(s, t).tasks[u])
  {
  }

  lemma WorkStartsNothing(s: State, t: Task, u: Task)
    requires CanGo(s, t) && !s.tasks[t].OfStart() && !s.tasks[t].OfClose()
    requires u in WorkGone(s, t).tasks && (u in s.tasks ==> Startless(s.tasks[u]))
    ensures Startless(WorkGone(s, t).tasks[u])
  {
  }

  lemma TeardownStartsNothing(s: State, t: Task)
    requires Inv(s) && t in s.tasks && s.tasks[t].CloseSupervisor?
    requires forall u :: u in s.tasks ==> !s.tasks[u].StartWaits? && !s.tasks[u].StartBlocked?
    ensures forall u :: u in Gone(s, t).tasks ==> Startless(Gone(s, t).tasks[u])
  {
    assert s.holder == Some(t);
    forall u | u in s.tasks ensures Startless(s.tasks[u]) {
      assert s.tasks[u].StartsUp() ==> s.tasks[u].HoldsLock();
    }
  }

  /** In particular the fabric stays closed until the next start call, if none was waiting for the teardown. */
  lemma ClosedUntilStartCall(before: seq<Action>, s: State, t: Task, acts: seq<Action>, s': State)
    requires Run(Init, before) == Some(s) && t in s.tasks && s.tasks[t].CloseSupervisor?
    requires Enabled(s, Go(t)) && Run(Gone(s, t), acts) == Some(s')
    requires forall u :: u in s.tasks ==> !s.tasks[u].StartWaits? && !s.tasks[u].StartBlocked?
    requires forall a :: a in acts ==> !a.CallStart?
    ensures s'.fabric == Fabric(true, map[], None) && !s'.core.started && s'.torn == s.torn + 1
  {
    InitInv();
    RunKeepsInv(Init, before, s);
    TeardownStartsNothing(s, t);
    NobodyStarts(Gone(s, t), acts);
    ClosedUntilOpened(before, s, t, acts, s');
  }

  /** A call waiting for a teardown, its own or another's. */
  predicate AwaitsTeardown(tasks: Tasks, t: Task) {
    t in tasks && (tasks[t].CloseFollows? || tasks[t].Closer())
  }

  /** How a step of another call may change call u: only by announcing an event. */
  predicate Stays(s: State, next: State, u: Task, closes: bool) {
    && (u in next.tasks ==> u in s.tasks)
    && (u in s.tasks && !(u in next.tasks && next.tasks[u] == s.tasks[u]) ==>
          || (s.tasks[u].CloseDrains? && u in next.tasks && next.tasks[u].CloseLocks?)
          || (closes && next.torn == s.torn + 1 && s.tasks[u].CloseFollows?)
          || (closes && s.tasks[u].StartBlocked? && u in next.tasks && next.tasks[u] == StartWaits(s.tasks[u].groups)))
  }

  lemma OthersStayOnGo(s: State, t: Task, u: Task)
    requires Enabled(s, Go(t)) && u != t
    ensures Stays(s, Gone(s, t), u, s.tasks[t].CloseSupervisor?)
  {
    var pc := s.tasks[t];
    if pc.Notifies() && pc.todo != [] {
      assert Stays(s, Notified(s, t), u, false);
    } else if pc.OfStart() {
      assert Stays(s, StartGone(s, t), u, false);
    }
  }

  lemma OthersStay(s: State, a: Action, u: Task)
    requires (a.Go? || a.Fail?) && Enabled(s, a) && u != a.t
    ensures Stays(s, Apply(s, a), u, a.Go? && s.tasks[a.t].CloseSupervisor?)
  {
    if a.Go? {
      OthersStayOnGo(s, a.t, u);
    }
  }

  lemma AwaitingStep(s: State, a: Action, t: Task)
    requires TasksInv(s) && AwaitsTeardown(s.tasks, t) && Enabled(s, a) && a != Fail(t)
    ensures Apply(s, a).torn > s.torn || (Apply(s, a).torn == s.torn && AwaitsTeardown(Apply(s, a).tasks, t))
  {
    if a.Go? || a.Fail? {
      if a.t != t {
        OthersStay(s, a, t);
      }
    }
  }

  lemma {:induction false} TornGrows(s: State, acts: seq<Action>, s': State)
    requires Run(s, acts) == Some(s')
    ensures s.torn <= s'.torn
    decreases |acts|
  {
    if acts != [] {
      TornGrows(Apply(s, acts[0]), acts[1..], s');
    }
  }

  /** A close call that found the runtime started returns only after a teardown that ended after it was made. */
  lemma {:induction false} CloseReturnsAfterTeardown(s: State, acts: seq<Action>, s': State, t: Task)
    requires Inv(s) && AwaitsTeardown(s.tasks, t) && Run(s, acts) == Some(s')
    requires Fail(t) !in acts && t !in s'.tasks
    ensures s'.torn > s.torn
    decreases |acts|
  {
    if acts != [] {
      AwaitingStep(s, acts[0], t);
      var next := Apply(s, acts[0]);
      if next.torn > s.torn {
        TornGrows(next, acts[1..], s');
      } else {
        StepKeepsInv(s, acts[0]);
        CloseReturnsAfterTeardown(next, acts[1..], s', t);
      }
    }
  }

  /** A close call that has not looked yet, while the runtime is started. */
  predicate WillClose(s: State, t: Task) {
    t in s.tasks && s.tasks[t].CloseWaits? && s.core.started
  }

  lemma WillCloseStep(s: State, a: Action, t: Task)
    requires Inv(s) && WillClose(s, t) && Enabled(s, a) && a != Fail(t)
    ensures Apply(s, a).torn > s.torn || (Apply(s, a).torn == s.torn && (WillClose(Apply(s, a), t) || AwaitsTeardown(Apply(s, a).tasks, t)))
  {
    if a.Go? {
      GoSpares(s, a.t);
      if a.t != t {
        OthersStayOnGo(s, a.t, t);
        if !s.tasks[a.t].CloseSupervisor? {
          GoKeepsStarted(s, a.t);
        }
      }
    } else if a.Fail? {
      OthersStay(s, a, t);
      FailLoses(s, a.t);
    }
  }

  lemma GoKeepsStarted(s: State, t: Task)
    requires Enabled(s, Go(t)) && s.core.started && !s.tasks[t].CloseSupervisor?
    ensures Gone(s, t).core.started
  {
    if CanNotify(s, t) {
      assert Gone(s, t) == Notified(s, t);
    }
  }

  /** Whenever it is made, a close call that finds the runtime started returns only after a teardown. */
  lemma {:induction false} CloseCallTearsDown(s: State, acts: seq<Action>, s': State, t: Task)
    requires Inv(s) && WillClose(s, t) && Run(s, acts) == Some(s')
    requires Fail(t) !in acts && t !in s'.tasks
    ensures s'.torn > s.torn
    decreases |acts|
  {
    if acts != [] {
      var next := Apply(s, acts[0]);
      assert acts[0] in acts;
      WillCloseStep(s, acts[0], t);
      StepKeepsInv(s, acts[0]);
      if next.torn > s.torn {
        TornGrows(next, acts[1..], s');
      } else if WillClose(next, t) {
        CloseCallTearsDown(next, acts[1..], s', t);
      } else {
        CloseReturnsAfterTeardown(next, acts[1..], s', t);
      }
    }
  }

  /** A start call whose recovery fails closes the runtime that it has started, and returns only after the teardown. */
  lemma FailedStartTearsDown(s: State, acts: seq<Action>, s': State, t: Task)
    requires Inv(s) && t in s.tasks && s.tasks[t].Recovering? && s.core.started
    requires Run(s, [Fail(t)] + acts) == Some(s') && Fail(t) !in acts && t !in s'.tasks
    ensures s'.torn > s.torn
  {
    var next := Apply(s, Fail(t));
    assert ([Fail(t)] + acts)[1..] == acts;
    StepKeepsInv(s, Fail(t));
    CloseCallTearsDown(next, acts, s', t);
  }

  /** A start call on its way to the runtime being started. */
  predicate WillStart(tasks: Tasks, t: Task) {
    t in tasks && (tasks[t].StartWaits? || tasks[t].StartBlocked? || tasks[t].StartsUp())
  }

  lemma WillStartStep(s: State, a: Action, t: Task)
    requires Inv(s) && WillStart(s.tasks, t) && Enabled(s, a) && a != Fail(t)
    ensures WillStart(Apply(s, a).tasks, t) || Apply(s, a).core.Available()
  {
    if a == Go(t) {
      StarterGoesOn(s, t);
    } else if a.Go? {
      OthersStayOnGo(s, a.t, t);
    } else if a.Fail? {
      OthersStay(s, a, t);
    }
  }

  lemma StarterGoesOn(s: State, t: Task)
    requires Inv(s) && WillStart(s.tasks, t) && Enabled(s, Go(t))
    ensures WillStart(Gone(s, t).tasks, t) || Gone(s, t).core.Available()
  {
    Counts(s);
    if CanNotify(s, t) {
      NotifyMeetsOpenFabric(s, t);
      NotifiedProgresses(s, t);
    }
  }

  /** At some time of the run the runtime is started and not closing. */
  predicate SometimeAvailable(s: State, acts: seq<Action>)
    decreases |acts|
  {
    s.core.Available() || (acts != [] && Enabled(s, acts[0]) && SometimeAvailable(Apply(s, acts[0]), acts[1..]))
  }

  /** A start call returns without an error only after the runtime was started and not closing, by it or by another. */
  lemma {:induction false} StartReturnsStarted(s: State, acts: seq<Action>, s': State, t: Task)
    requires Inv(s) && WillStart(s.tasks, t) && Run(s, acts) == Some(s')
    requires Fail(t) !in acts && t !in s'.tasks
    ensures SometimeAvailable(s, acts)
    decreases |acts|
  {
    if acts != [] {
      assert acts[0] in acts;
      WillStartStep(s, acts[0], t);
      StepKeepsInv(s, acts[0]);
      if WillStart(Apply(s, acts[0]).tasks, t) {
        StartReturnsStarted(Apply(s, acts[0]), acts[1..], s', t);
      }
    }
  }

  /** An orphan is out of reach: no later step closes it. */
  lemma OrphanStep(s: State, a: Action, actor: Actor)
    requires Inv(s) && actor in s.alive && actor in s.orphans && Enabled(s, a)
    ensures actor in Apply(s, a).alive && actor in Apply(s, a).orphans
  {
    if a.Go? {
      assert s.tasks[a.t].CloseActors? && actor in s.tasks[a.t].left ==> Closing(s.tasks, actor);
      GoSparesOrphan(s, a.t, actor);
    }
  }

  lemma GoSparesOrphan(s: State, t: Task, actor: Actor)
    requires Enabled(s, Go(t)) && actor in s.alive && actor in s.orphans
    requires s.tasks[t].CloseActors? ==> actor !in s.tasks[t].left
    ensures actor in Gone(s, t).alive && actor in Gone(s, t).orphans
  {
    if CanNotify(s, t) {
      assert Gone(s, t) == Notified(s, t);
    }
  }

  lemma {:induction false} OrphansLiveOn(s: State, acts: seq<Action>, s': State, actor: Actor)
    requires Inv(s) && actor in s.alive && actor in s.orphans && Run(s, acts) == Some(s')
    ensures actor in s'.alive
    decreases |acts|
  {
    if acts != [] {
      OrphanStep(s, acts[0], actor);
      StepKeepsInv(s, acts[0]);
      OrphansLiveOn(Apply(s, acts[0]), acts[1..], s', actor);
    }
  }

  lemma FailedClosingLeaves(s: State, t: Task)
    requires t in s.tasks && s.tasks[t].CloseActors?
    ensures Failed(s, t).alive == s.alive && Failed(s, t).orphans == s.orphans + s.tasks[t].left
  {
  }

  /** When closing the actors fails, those that still live are left to live for good, whatever comes. */
  lemma FailedTeardownLeavesActors(s: State, t: Task, acts: seq<Action>, s': State, actor: Actor)
    requires Inv(s) && t in s.tasks && s.tasks[t].CloseActors? && actor in s.tasks[t].left && actor in s.alive
    requires Run(Apply(s, Fail(t)), acts) == Some(s')
    ensures actor in s'.alive
  {
    StepKeepsInv(s, Fail(t));
    FailedClosingLeaves(s, t);
    OrphansLiveOn(Apply(s, Fail(t)), acts, s', actor);
  }

  // ---------------------------------------------------------------- actors that are asked for

  /** The groups a call will ask for, once it has its turn. */
  function Wanted(pc: Pc): seq<Key> {
    match pc
    case StartWaits(groups) => groups
    case StartBlocked(groups) => groups
    case StartOpens(groups) => groups
    case StartSupervises(groups) => groups
    case DrainWaits(groups) => groups
    case IngestWaits(groups) => groups
    case StartNotifies(todo, _) => todo
    case DrainRuns(todo, _) => todo
    case IngestHolds(todo, _) => todo
    case _ => []
  }

  predicate Asks(pc: Pc) {
    pc.StartWaits? || pc.StartBlocked? || pc.StartOpens? || pc.StartSupervises? || pc.DrainWaits? || pc.IngestWaits? || pc.Notifies()
  }

  predicate IsAsking(tasks: Tasks, t: Task) {
    t in tasks && Asks(tasks[t])
  }

  /** Each group has its actor already, or the call will still ask for it. */
  ghost predicate Cares(s: State, t: Task, groups: set<Key>) {
    && IsAsking(s.tasks, t)
    && forall g :: g in groups ==> g in Wanted(s.tasks[t]) || (s.tasks[t].Notifies() && g in s.fabric.actors)
  }

  /** While a call asks for actors none is taken away. */
  lemma AskersKeepActors(s: State, a: Action, t: Task)
    requires Inv(s) && t in s.tasks && s.tasks[t].Notifies() && Enabled(s, a)
    ensures forall g :: g in s.fabric.actors ==> g in Apply(s, a).fabric.actors
  {
    if a.Go? {
      NoTeardownMeanwhile(s, a.t, t);
      GoKeepsActors(s, a.t);
    }
  }

  lemma NoTeardownMeanwhile(s: State, u: Task, t: Task)
    requires Inv(s) && t in s.tasks && s.tasks[t].Notifies() && u in s.tasks
    ensures !s.tasks[u].TearsDown()
  {
    assert s.tasks[u].TearsDown() ==> s.holder == Some(u);
    assert s.tasks[t].HoldsLock() ==> s.holder == Some(t);
    if s.tasks[u].TearsDown() {
      TeardownIsAlone(s, u);
    }
  }

  lemma GoKeepsActors(s: State, t: Task)
    requires Enabled(s, Go(t)) && !s.tasks[t].CloseFabric?
    ensures forall g :: g in s.fabric.actors ==> g in Gone(s, t).fabric.actors
  {
    if CanNotify(s, t) {
      assert Gone(s, t) == Notified(s, t);
    }
  }

  lemma NotifiedCares(s: State, t: Task, groups: set<Key>)
    requires Cares(s, t, groups) && CanNotify(s, t) && !s.fabric.closed
    requires s.tasks[t].creating.Some? ==> s.tasks[t].todo[0] !in s.fabric.actors
    ensures Cares(Notified(s, t), t, groups)
  {
    var todo, n := s.tasks[t].todo, Notified(s, t);
    NotifiedHeads(s, t);
    forall g | g in groups ensures g in Wanted(n.tasks[t]) || g in n.fabric.actors {
      assert g in s.fabric.actors || g == todo[0] || g in todo[1..];
    }
  }

  /** The head of the list is registered, or stays the head; nothing else is dropped. */
  lemma NotifiedHeads(s: State, t: Task)
    requires CanNotify(s, t) && !s.fabric.closed
    ensures var todo, n := s.tasks[t].todo, Notified(s, t);
            && t in n.tasks && n.tasks[t].Notifies()
            && (forall g :: g in s.fabric.actors ==> g in n.fabric.actors)
            && (n.tasks[t].todo == todo || (n.tasks[t].todo == todo[1..] && todo[0] in n.fabric.actors))
  {
  }

  lemma OwnStepCares(s: State, t: Task, groups: set<Key>)
    requires Inv(s) && Cares(s, t, groups) && Enabled(s, Go(t)) && IsAsking(Gone(s, t).tasks, t)
    ensures Cares(Gone(s, t), t, groups)
  {
    if CanNotify(s, t) {
      NotifyMeetsOpenFabric(s, t);
      NotifiedCares(s, t, groups);
    } else if s.tasks[t].OfStart() {
      StartCares(s, t, groups);
    } else {
      WorkCares(s, t, groups);
    }
  }

  lemma StartCares(s: State, t: Task, groups: set<Key>)
    requires Cares(s, t, groups) && CanGo(s, t) && s.tasks[t].OfStart() && IsAsking(StartGone(s, t).tasks, t)
    ensures Cares(StartGone(s, t), t, groups)
  {
  }

  lemma WorkCares(s: State, t: Task, groups: set<Key>)
    requires Cares(s, t, groups) && CanGo(s, t) && !s.tasks[t].OfStart() && !s.tasks[t].OfClose()
    requires IsAsking(WorkGone(s, t).tasks, t)
    ensures Cares(WorkGone(s, t), t, groups)
  {
  }

  lemma CaresStep(s: State, a: Action, t: Task, groups: set<Key>)
    requires Inv(s) && Cares(s, t, groups) && Enabled(s, a) && a != Fail(t) && IsAsking(Apply(s, a).tasks, t)
    ensures Cares(Apply(s, a), t, groups)
  {
    if a == Go(t) {
      OwnStepCares(s, t, groups);
    } else {
      if s.tasks[t].Notifies() {
        AskersKeepActors(s, a, t);
      }
      if a.Go? || a.Fail? {
        OthersStay(s, a, t);
      }
    }
  }

  lemma DoneStep(s: State, a: Action, t: Task)
    requires TasksInv(s) && Enabled(s, a) && t < s.count && !IsAsking(s.tasks, t)
    ensures t < Apply(s, a).count && !IsAsking(Apply(s, a).tasks, t)
  {
    if a.Go? {
      GoCounts(s, a.t);
      if a.t != t {
        OthersStayOnGo(s, a.t, t);
      } else {
        DoneGoes(s, t);
      }
    } else if a.Fail? {
      if a.t != t {
        OthersStay(s, a, t);
      }
    }
  }

  lemma DoneGoes(s: State, t: Task)
    requires Enabled(s, Go(t)) && !Asks(s.tasks[t])
    ensures !IsAsking(Gone(s, t).tasks, t)
  {
  }

  lemma GoCounts(s: State, t: Task)
    requires Enabled(s, Go(t))
    ensures Gone(s, t).count == s.count
  {
  }

  lemma {:induction false} DoneAsking(s: State, acts: seq<Action>, s': State, t: Task)
    requires Inv(s) && Run(s, acts) == Some(s') && t < s.count && !IsAsking(s.tasks, t)
    ensures !IsAsking(s'.tasks, t)
    decreases |acts|
  {
    if acts != [] {
      StepKeepsInv(s, acts[0]);
      DoneStep(s, acts[0], t);
      DoneAsking(Apply(s, acts[0]), acts[1..], s', t);
    }
  }

  lemma NewerCount(s: State, a: Action, t: Task)
    requires Enabled(s, a) && t < s.count
    ensures t < Apply(s, a).count
  {
    if a.Go? {
      GoCounts(s, a.t);
    }
  }

  /** When a call is done asking, every group it was made for has its actor. */
  lemma {:induction false} AskedForAll(s: State, acts: seq<Action>, s': State, t: Task, groups: set<Key>)
    requires Inv(s) && Cares(s, t, groups) && Run(s, acts) == Some(s') && Fail(t) !in acts
    requires t in s'.tasks && s'.tasks[t].Notifies() && s'.tasks[t].todo == []
    ensures forall g :: g in groups ==> g in s'.fabric.actors
    decreases |acts|
  {
    if acts != [] {
      var next := Apply(s, acts[0]);
      assert acts[0] in acts;
      StepKeepsInv(s, acts[0]);
      if IsAsking(next.tasks, t) {
        CaresStep(s, acts[0], t, groups);
        AskedForAll(next, acts[1..], s', t, groups);
      } else {
        NewerCount(s, acts[0], t);
        DoneAsking(next, acts[1..], s', t);
      }
    }
  }

  // ---------------------------------------------------------------- progress

  /** A close call was cancelled after it set `_closing`, or a drain while it left its bracket. */
  predicate Lost(s: State) {
    s.abandoned > 0 || s.leaked > 0
  }

  /** A step by which no call is lost; `closes` tells whether a teardown ends. */
  ghost predicate Spared(s: State, s': State, closes: bool) {
    && s'.abandoned == s.abandoned && s'.leaked == s.leaked && s'.torn == s.torn + Bit(closes)
    && (s.core.closing && !closes ==> s'.core.closing)
  }

  lemma NotifySpares(s: State, t: Task)
    requires CanNotify(s, t)
    ensures Spared(s, Notified(s, t), false)
  {
  }

  lemma StartSpares(s: State, t: Task)
    requires CanGo(s, t) && s.tasks[t].OfStart()
    ensures Spared(s, StartGone(s, t), false)
  {
  }

  lemma CloseSpares(s: State, t: Task)
    requires CanGo(s, t) && s.tasks[t].OfClose()
    ensures Spared(s, CloseGone(s, t), s.tasks[t].CloseSupervisor?)
  {
  }

  lemma WorkSpares(s: State, t: Task)
    requires CanGo(s, t) && !s.tasks[t].OfStart() && !s.tasks[t].OfClose()
    ensures Spared(s, WorkGone(s, t), false)
  {
  }

  lemma GoSpares(s: State, t: Task)
    requires Enabled(s, Go(t))
    ensures Spared(s, Gone(s, t), s.tasks[t].CloseSupervisor?)
  {
    if CanNotify(s, t) {
      NotifySpares(s, t);
    } else if s.tasks[t].OfStart() {
      StartSpares(s, t);
    } else if s.tasks[t].OfClose() {
      CloseSpares(s, t);
    } else {
      WorkSpares(s, t);
    }
  }

  lemma LostHasNoTeardown(s: State, t: Task)
    requires CoreInv(s) && Lost(s) && t in s.tasks
    ensures !s.tasks[t].TearsDown()
  {
    Counts(s);
  }

  lemma FailLoses(s: State, t: Task)
    requires Enabled(s, Fail(t))
    ensures Failed(s, t).torn == s.torn && Failed(s, t).core == s.core
    ensures Failed(s, t).abandoned >= s.abandoned && Failed(s, t).leaked >= s.leaked
  {
  }

  lemma LostStep(s: State, a: Action)
    requires Inv(s) && Lost(s) && Enabled(s, a)
    ensures Lost(Apply(s, a)) && Apply(s, a).torn == s.torn && (s.core.closing ==> Apply(s, a).core.closing)
  {
    if a.Go? {
      LostHasNoTeardown(s, a.t);
      GoSpares(s, a.t);
    } else if a.Fail? {
      FailLoses(s, a.t);
    }
  }

  /** From then on no teardown ever happens, and a runtime that is closing stays closing. */
  lemma {:induction false} LostNeverTearsDown(s: State, acts: seq<Action>, s': State)
    requires Inv(s) && Lost(s) && Run(s, acts) == Some(s')
    ensures s'.torn == s.torn && (s.core.closing ==> s'.core.closing)
    decreases |acts|
  {
    if acts != [] {
      LostStep(s, acts[0]);
      StepKeepsInv(s, acts[0]);
      LostNeverTearsDown(Apply(s, acts[0]), acts[1..], s');
    }
  }

  lemma SomeMember(all: set<Task>) returns (t: Task)
    requires |all| > 0
    ensures t in all
  {
    t :| t in all;
  }

  /** Otherwise some call can always go on. */
  lemma NoDeadlock(s: State) returns (t: Task)
    requires Inv(s) && !Lost(s) && s.tasks != map[]
    ensures Enabled(s, Go(t))
  {
    if s.fabric.making.Some? {
      t := s.fabric.making.value;
      assert s.fabric.making == Some(t);
    } else if s.holder.Some? {
      t := s.holder.value;
      assert s.holder == Some(t);
    } else {
      t :| t in s.tasks;
      if s.tasks[t].AwaitsClosed() {
        t := SomeMember(ClosersIn(s.tasks));
      }
      if s.tasks[t].CloseDrains? {
        t := SomeMember(BracketedIn(s.tasks));
      }
    }
  }

  function Rank(pc: Pc): nat {
    match pc
    case StartWaits(groups) => 2 * |groups| + 12
    case StartBlocked(groups) => 2 * |groups| + 11
    case StartOpens(groups) => 2 * |groups| + 10
    case StartSupervises(groups) => 2 * |groups| + 9
    case StartNotifies(todo, creating) => 2 * |todo| + 8 - Bit(creating.Some?)
    case Recovering => 6
    case Storing => 1
    case CloseWaits => 5
    case CloseFollows => 1
    case CloseDrains => 4
    case CloseLocks => 3
    case CloseFabric => 2
    case CloseActors(_) => 1
    case CloseSupervisor => 0
    case DrainWaits(groups) => 2 * |groups| + 4
    case DrainRuns(todo, creating) => 2 * |todo| + 3 - Bit(creating.Some?)
    case DrainLeaves => 1
    case IngestWaits(groups) => 2 * |groups| + 4
    case IngestHolds(todo, creating) => 2 * |todo| + 3 - Bit(creating.Some?)
  }

  /** May still tear down, which sends up to k blocked starts back. */
  predicate MayTearDown(pc: Pc) {
    (pc.OfStart() && !pc.Storing?) || pc.CloseWaits? || pc.Closer()
  }

  function Cost(tasks: Tasks, t: Task, k: nat): nat {
    if t in tasks then Rank(tasks[t]) + (if MayTearDown(tasks[t]) then k + 1 else 0) else 0
  }

  function Total(tasks: Tasks, n: nat, k: nat): nat {
    if n == 0 then 0 else Total(tasks, n - 1, k) + Cost(tasks, n - 1, k)
  }

  function Measure(s: State): nat {
    Total(s.tasks, s.count, s.count)
  }

  lemma {:induction false} TotalFalls(tasks: Tasks, tasks': Tasks, n: nat, k: nat, t: Task)
    requires forall u: Task :: u != t ==> Cost(tasks', u, k) <= Cost(tasks, u, k)
    requires Cost(tasks', t, k) <= Cost(tasks, t, k)
    ensures Total(tasks', n, k) <= Total(tasks, n, k) - if t < n then Cost(tasks, t, k) - Cost(tasks', t, k) else 0
  {
    if n > 0 {
      TotalFalls(tasks, tasks', n - 1, k, t);
    }
  }

  lemma {:induction false} TotalRises(tasks: Tasks, tasks': Tasks, n: nat, k: nat)
    requires forall u: Task :: Cost(tasks', u, k) <= Cost(tasks, u, k) + 1
    ensures Total(tasks', n, k) <= Total(tasks, n, k) + n
  {
    if n > 0 {
      TotalRises(tasks, tasks', n - 1, k);
    }
  }

  lemma ClosedDescends(s: State, t: Task)
    requires t in s.tasks && t < s.count && s.tasks[t].CloseSupervisor?
    ensures Measure(Closed(s, t)) < Measure(s)
  {
    var k := s.count;
    TotalFalls(s.tasks, s.tasks - {t}, k, k, t);
    TotalRises(s.tasks - {t}, ClosedAnnounced(s.tasks - {t}), k, k);
  }

  lemma DropCostFalls(s: State, t: Task, k: nat)
    requires t in s.tasks && s.tasks[t].Notifies() && s.tasks[t].todo != []
    ensures Cost(Dropped(s, t).tasks, t, k) < Cost(s.tasks, t, k)
  {
  }

  lemma ProgressCostFalls(s: State, t: Task, k: nat)
    requires CanNotify(s, t) && (s.tasks[t].creating.Some? || !s.fabric.closed)
    ensures Cost(Notified(s, t).tasks, t, k) < Cost(s.tasks, t, k)
  {
  }

  lemma NotifyCostFalls(s: State, t: Task, k: nat)
    requires CanNotify(s, t)
    ensures Cost(Notified(s, t).tasks, t, k) < Cost(s.tasks, t, k)
  {
    if s.tasks[t].creating.Some? || !s.fabric.closed {
      ProgressCostFalls(s, t, k);
    } else {
      DropCostFalls(s, t, k);
    }
  }

  lemma StartCostFalls(s: State, t: Task, k: nat)
    requires CanGo(s, t) && s.tasks[t].OfStart()
    ensures Cost(StartGone(s, t).tasks, t, k) < Cost(s.tasks, t, k)
  {
  }

  lemma CloseCostFalls(s: State, t: Task, k: nat)
    requires CanGo(s, t) && s.tasks[t].OfClose() && !s.tasks[t].CloseSupervisor?
    ensures Cost(CloseGone(s, t).tasks, t, k) < Cost(s.tasks, t, k)
  {
  }

  lemma FailCostFalls(s: State, t: Task, k: nat)
    requires Enabled(s, Fail(t))
    ensures Cost(Failed(s, t).tasks, t, k) < Cost(s.tasks, t, k)
  {
  }

  lemma OwnCostFalls(s: State, a: Action, k: nat)
    requires (a.Go? || a.Fail?) && Enabled(s, a) && !(a.Go? && s.tasks[a.t].CloseSupervisor?)
    ensures Cost(Apply(s, a).tasks, a.t, k) < Cost(s.tasks, a.t, k)
  {
    if a.Fail? {
      FailCostFalls(s, a.t, k);
    } else if CanNotify(s, a.t) {
      NotifyCostFalls(s, a.t, k);
    } else if s.tasks[a.t].OfStart() {
      StartCostFalls(s, a.t, k);
    } else if s.tasks[a.t].OfClose() {
      CloseCostFalls(s, a.t, k);
    }
  }

  lemma CostsFall(s: State, a: Action, k: nat, u: Task)
    requires (a.Go? || a.Fail?) && Enabled(s, a) && !(a.Go? && s.tasks[a.t].CloseSupervisor?)
    ensures Cost(Apply(s, a).tasks, u, k) <= Cost(s.tasks, u, k)
    ensures u == a.t ==> Cost(Apply(s, a).tasks, u, k) < Cost(s.tasks, u, k)
  {
    if u == a.t {
      OwnCostFalls(s, a, k);
    } else {
      OthersStay(s, a, u);
    }
  }

  lemma StepDescends(s: State, a: Action)
    requires (a.Go? || a.Fail?) && Enabled(s, a) && TasksInv(s)
    ensures Apply(s, a).count == s.count && Measure(Apply(s, a)) < Measure(s)
  {
    if a.Go? && s.tasks[a.t].CloseSupervisor? {
      ClosedDescends(s, a.t);
    } else {
      forall u: Task ensures Cost(Apply(s, a).tasks, u, s.count) <= Cost(s.tasks, u, s.count) {
        CostsFall(s, a, s.count, u);
      }
      CostsFall(s, a, s.count, a.t);
      TotalFalls(s.tasks, Apply(s, a).tasks, s.count, s.count, a.t);
    }
  }

  /** Without new calls every run is finite, failures included. */
  lemma {:induction false} RunsAreBounded(s: State, acts: seq<Action>, s': State)
    requires Inv(s) && Run(s, acts) == Some(s')
    requires forall a :: a in acts ==> a.Go? || a.Fail?
    ensures |acts| + Measure(s') <= Measure(s)
    decreases |acts|
  {
    if acts != [] {
      StepDescends(s, acts[0]);
      StepKeepsInv(s, acts[0]);
      RunsAreBounded(Apply(s, acts[0]), acts[1..], s');
    }
  }

  lemma GoLosesNothing(s: State, t: Task)
    requires Inv(s) && Enabled(s, Go(t))
    ensures Lost(Gone(s, t)) == Lost(s)
    ensures Gone(s, t).torn >= s.torn && (s.core.closing ==> Gone(s, t).core.closing || Gone(s, t).torn > s.torn)
  {
    GoSpares(s, t);
  }

  lemma GoAdvances(s: State, t: Task)
    requires Inv(s) && Enabled(s, Go(t)) && !Lost(s)
    ensures Inv(Gone(s, t)) && !Lost(Gone(s, t)) && Measure(Gone(s, t)) < Measure(s)
    ensures Gone(s, t).torn >= s.torn && (s.core.closing ==> Gone(s, t).core.closing || Gone(s, t).torn > s.torn)
  {
    StepKeepsInv(s, Go(t));
    StepDescends(s, Go(t));
    GoLosesNothing(s, t);
  }

  lemma RunCons(s: State, t: Task, rest: seq<Action>)
    requires Enabled(s, Go(t))
    ensures Run(s, [Go(t)] + rest) == Run(Gone(s, t), rest)
  {
    assert ([Go(t)] + rest)[1..] == rest;
  }

  lemma SomeCallGoesOn(s: State) returns (t: Task, next: State)
    requires Inv(s) && !Lost(s) && s.tasks != map[]
    ensures Inv(next) && !Lost(next) && Measure(next) < Measure(s)
    ensures next.torn >= s.torn && (s.core.closing ==> next.core.closing || next.torn > s.torn)
    ensures forall rest :: Run(s, [Go(t)] + rest) == Run(next, rest)
  {
    t := NoDeadlock(s);
    GoAdvances(s, t);
    next := Gone(s, t);
    forall rest ensures Run(s, [Go(t)] + rest) == Run(next, rest) {
      RunCons(s, t, rest);
    }
  }

  lemma NoTasksNoWork(s: State)
    requires Inv(s) && !Lost(s) && s.tasks == map[]
    ensures !s.core.closing && s.core.active == 0
  {
    assert ClosersIn(s.tasks) == {} && BracketedIn(s.tasks) == {};
  }

  lemma {:induction false} CallsFinish(s: State) returns (acts: seq<Action>, s': State)
    requires Inv(s) && !Lost(s)
    ensures Run(s, acts) == Some(s') && forall a :: a in acts ==> a.Go?
    ensures Inv(s') && !Lost(s') && s'.tasks == map[]
    ensures s'.torn >= s.torn && (s.core.closing ==> s'.core.closing || s'.torn > s.torn)
    decreases Measure(s)
  {
    acts, s' := [], s;
    if s.tasks != map[] {
      var t, next := SomeCallGoesOn(s);
      acts, s' := CallsFinish(next);
      acts := [Go(t)] + acts;
    }
  }

  /** The converse of `LostNeverTearsDown`: every call can return, and a runtime that is closing is torn down. */
  lemma CallsCanReturn(s: State) returns (acts: seq<Action>, s': State)
    requires Inv(s) && !Lost(s)
    ensures Run(s, acts) == Some(s') && forall a :: a in acts ==> a.Go?
    ensures s'.tasks == map[] && !s'.core.closing && s'.core.active == 0
    ensures s.core.closing ==> s'.torn > s.torn
  {
    acts, s' := CallsFinish(s);
    NoTasksNoWork(s');
  }

  lemma {:induction false} RunConcat(s: State, first: seq<Action>, mid: State, rest: seq<Action>)
    requires Run(s, first) == Some(mid)
    ensures Run(s, first + rest) == Run(mid, rest)
    decreases |first|
  {
    if first == [] {
      assert first + rest == rest;
    } else {
      assert (first + rest)[1..] == first[1..] + rest;
      RunConcat(Apply(s, first[0]), first[1..], mid, rest);
    }
  }

  function Served(core: Core, tasks: Tasks, count: nat, leaked: nat): State {
    State(core, None, tasks, count, Fabric(false, map[], None), map[], 0, {}, 0, leaked, 1, 0)
  }

  const Busy := Entered(Opened(Idle))

  lemma StartAlone()
    ensures Run(Init, [CallStart([]), Go(0), Go(0), Go(0), Go(0)]) == Some(Served(Opened(Idle), map[0 := Recovering], 1, 0))
  {
    var s1 := Called(Init, StartWaits([]));
    var s2 := Gone(s1, 0);
    var s3 := Gone(s2, 0);
    var s4 := Gone(s3, 0);
    assert s4.tasks == map[0 := StartNotifies([], None)];
    assert Gone(s4, 0) == Served(Opened(Idle), map[0 := Recovering], 1, 0);
    assert Run(s4, [Go(0)]) == Some(Gone(s4, 0));
    assert Run(s3, [Go(0), Go(0)]) == Run(s4, [Go(0)]);
    assert Run(s2, [Go(0), Go(0), Go(0)]) == Run(s3, [Go(0), Go(0)]);
    assert Run(s1, [Go(0), Go(0), Go(0), Go(0)]) == Run(s2, [Go(0), Go(0), Go(0)]);
  }

  lemma RecoverAlone()
    ensures Run(Served(Opened(Idle), map[0 := Recovering], 1, 0), [Go(0), Go(0)]) == Some(Served(Opened(Idle), map[], 1, 0))
  {
    var s1 := Served(Opened(Idle), map[0 := Storing], 1, 0);
    assert Gone(Served(Opened(Idle), map[0 := Recovering], 1, 0), 0) == s1;
    assert Gone(s1, 0) == Served(Opened(Idle), map[], 1, 0);
    assert Run(s1, [Go(0)]) == Some(Gone(s1, 0));
  }

  lemma DrainStarts()
    ensures Run(Served(Opened(Idle), map[], 1, 0), [CallDrain([]), Go(1)]) == Some(Served(Busy, map[1 := DrainRuns([], None)], 2, 0))
  {
    var s1 := Called(Served(Opened(Idle), map[], 1, 0), DrainWaits([]));
    assert Gone(s1, 1) == Served(Busy, map[1 := DrainRuns([], None)], 2, 0);
    assert Run(s1, [Go(1)]) == Some(Gone(s1, 1));
  }

  const Draining := Served(Busy, map[1 := DrainRuns([], None)], 2, 0)

  /** An ingest takes the lock, so that the drain has to wait when it wants to leave. */
  lemma IngestHoldsLock()
    ensures Run(Draining, [CallIngest([]), Go(2)])
            == Some(Held(DrainRuns([], None)))
  {
    var s1 := Called(Draining, IngestWaits([]));
    assert Gone(s1, 2) == Held(DrainRuns([], None));
    assert Run(s1, [Go(2)]) == Some(Gone(s1, 2));
  }

  function Held(drain: Pc): State {
    Served(Busy, map[1 := drain, 2 := IngestHolds([], None)], 3, 0).(holder := Some(2))
  }

  lemma DrainEnds()
    ensures Run(Held(DrainRuns([], None)), [Go(1)]) == Some(Held(DrainLeaves))
  {
    assert Gone(Held(DrainRuns([], None)), 1) == Held(DrainLeaves);
  }

  lemma RunTwo(s: State, a: Action, mid: State, b: Action, s': State)
    requires Enabled(s, a) && Apply(s, a) == mid && Enabled(mid, b) && Apply(mid, b) == s'
    ensures Run(s, [a, b]) == Some(s')
  {
    assert Run(mid, [b]) == Some(s');
    assert [a, b][1..] == [b];
  }

  lemma DrainFails()
    ensures Enabled(Held(DrainLeaves), Fail(1))
    ensures Failed(Held(DrainLeaves), 1) == Served(Busy, map[2 := IngestHolds([], None)], 3, 1).(holder := Some(2))
  {
  }

  lemma IngestEnds()
    ensures var s := Served(Busy, map[2 := IngestHolds([], None)], 3, 1).(holder := Some(2));
            Enabled(s, Go(2)) && Gone(s, 2) == Served(Busy, map[], 3, 1)
  {
  }

  lemma DrainIsCancelled()
    ensures Run(Held(DrainLeaves), [Fail(1), Go(2)]) == Some(Served(Busy, map[], 3, 1))
  {
    DrainFails();
    IngestEnds();
    RunTwo(Held(DrainLeaves), Fail(1), Served(Busy, map[2 := IngestHolds([], None)], 3, 1).(holder := Some(2)), Go(2),
           Served(Busy, map[], 3, 1));
  }

  lemma CloseWaitsForever()
    ensures Run(Served(Busy, map[], 3, 1), [CallClose, Go(3)]) == Some(Served(ClosingBegun(Busy), map[3 := CloseDrains], 4, 1))
  {
    var s1 := Called(Served(Busy, map[], 3, 1), CloseWaits);
    assert Gone(s1, 3) == Served(ClosingBegun(Busy), map[3 := CloseDrains], 4, 1);
    assert Run(s1, [Go(3)]) == Some(Gone(s1, 3));
  }

  lemma DrainToClose()
    ensures Run(Draining, [CallIngest([]), Go(2)] + ([Go(1)] + ([Fail(1), Go(2)] + [CallClose, Go(3)])))
            == Some(Served(ClosingBegun(Busy), map[3 := CloseDrains], 4, 1))
  {
    IngestHoldsLock();
    DrainEnds();
    DrainIsCancelled();
    CloseWaitsForever();
    var last := [Fail(1), Go(2)] + [CallClose, Go(3)];
    RunConcat(Held(DrainLeaves), [Fail(1), Go(2)], Served(Busy, map[], 3, 1), [CallClose, Go(3)]);
    RunConcat(Held(DrainRuns([], None)), [Go(1)], Held(DrainLeaves), last);
    RunConcat(Draining, [CallIngest([]), Go(2)], Held(DrainRuns([], None)), [Go(1)] + last);
  }

  /**
   * Such a loss can be reached: a drain that is cancelled while it waits for the lock to
   * leave stays counted, and by `LostNeverTearsDown` the close call made afterwards waits forever.
   */
  lemma CancelledDrainBlocksClose() returns (acts: seq<Action>, s: State)
    ensures Run(Init, acts) == Some(s) && Lost(s) && s.torn == 0
    ensures BracketedIn(s.tasks) == {} && s.core.active == 1
    ensures s.tasks == map[3 := CloseDrains] && forall t :: !Enabled(s, Go(t))
  {
    var first := ReachesDraining();
    DrainToClose();
    s := Served(ClosingBegun(Busy), map[3 := CloseDrains], 4, 1);
    var rest := [CallIngest([]), Go(2)] + ([Go(1)] + ([Fail(1), Go(2)] + [CallClose, Go(3)]));
    RunConcat(Init, first, Draining, rest);
    acts := first + rest;
  }

  function Abandoned(core: Core, tasks: Tasks, count: nat, abandoned: nat): State {
    Served(core, tasks, count, 0).(abandoned := abandoned)
  }

  lemma CloseBegins()
    ensures Run(Draining, [CallClose, Go(2)])
            == Some(Abandoned(ClosingBegun(Busy), map[1 := DrainRuns([], None), 2 := CloseDrains], 3, 0))
  {
    var s1 := Called(Draining, CloseWaits);
    assert Gone(s1, 2) == Abandoned(ClosingBegun(Busy), map[1 := DrainRuns([], None), 2 := CloseDrains], 3, 0);
    assert Run(s1, [Go(2)]) == Some(Gone(s1, 2));
  }

  lemma CloseFails()
    ensures var s := Abandoned(ClosingBegun(Busy), map[1 := DrainRuns([], None), 2 := CloseDrains], 3, 0);
            Enabled(s, Fail(2)) && Failed(s, 2) == Abandoned(ClosingBegun(Busy), map[1 := DrainRuns([], None)], 3, 1)
  {
  }

  lemma DrainWantsToLeave()
    ensures var s := Abandoned(ClosingBegun(Busy), map[1 := DrainRuns([], None)], 3, 1);
            Enabled(s, Go(1)) && Gone(s, 1) == Abandoned(ClosingBegun(Busy), map[1 := DrainLeaves], 3, 1)
  {
  }

  lemma CloseIsCancelled()
    ensures Run(Abandoned(ClosingBegun(Busy), map[1 := DrainRuns([], None), 2 := CloseDrains], 3, 0), [Fail(2), Go(1)])
            == Some(Abandoned(ClosingBegun(Busy), map[1 := DrainLeaves], 3, 1))
  {
    CloseFails();
    DrainWantsToLeave();
    RunTwo(Abandoned(ClosingBegun(Busy), map[1 := DrainRuns([], None), 2 := CloseDrains], 3, 0), Fail(2),
           Abandoned(ClosingBegun(Busy), map[1 := DrainRuns([], None)], 3, 1), Go(1),
           Abandoned(ClosingBegun(Busy), map[1 := DrainLeaves], 3, 1));
  }

  lemma LastDrainLeaves()
    ensures Run(Abandoned(ClosingBegun(Busy), map[1 := DrainLeaves], 3, 1), [Go(1), CallClose])
            == Some(Abandoned(ClosingBegun(Opened(Idle)), map[3 := CloseWaits], 4, 1))
  {
    var s1 := Abandoned(ClosingBegun(Opened(Idle)), map[], 3, 1);
    assert Left(ClosingBegun(Busy)) == ClosingBegun(Opened(Idle));
    assert Gone(Abandoned(ClosingBegun(Busy), map[1 := DrainLeaves], 3, 1), 1) == s1;
    assert Run(s1, [CallClose]) == Some(Called(s1, CloseWaits));
  }

  lemma NextCloseFollows()
    ensures Run(Abandoned(ClosingBegun(Opened(Idle)), map[3 := CloseWaits], 4, 1), [Go(3)])
            == Some(Abandoned(ClosingBegun(Opened(Idle)), map[3 := CloseFollows], 4, 1))
  {
    var s := Abandoned(ClosingBegun(Opened(Idle)), map[3 := CloseWaits], 4, 1);
    assert Gone(s, 3) == Abandoned(ClosingBegun(Opened(Idle)), map[3 := CloseFollows], 4, 1);
  }

  lemma CancelledCloseTail() returns (acts: seq<Action>)
    ensures Run(Draining, acts) == Some(Abandoned(ClosingBegun(Opened(Idle)), map[3 := CloseFollows], 4, 1))
  {
    CloseBegins();
    CloseIsCancelled();
    LastDrainLeaves();
    NextCloseFollows();
    var last := [Go(1), CallClose] + [Go(3)];
    RunConcat(Abandoned(ClosingBegun(Busy), map[1 := DrainLeaves], 3, 1), [Go(1), CallClose],
              Abandoned(ClosingBegun(Opened(Idle)), map[3 := CloseWaits], 4, 1), [Go(3)]);
    RunConcat(Abandoned(ClosingBegun(Busy), map[1 := DrainRuns([], None), 2 := CloseDrains], 3, 0), [Fail(2), Go(1)],
              Abandoned(ClosingBegun(Busy), map[1 := DrainLeaves], 3, 1), last);
    RunConcat(Draining, [CallClose, Go(2)],
              Abandoned(ClosingBegun(Busy), map[1 := DrainRuns([], None), 2 := CloseDrains], 3, 0), [Fail(2), Go(1)] + last);
    acts := [CallClose, Go(2)] + ([Fail(2), Go(1)] + last);
  }

  lemma ReachesDraining() returns (acts: seq<Action>)
    ensures Run(Init, acts) == Some(Draining)
  {
    StartAlone();
    RecoverAlone();
    DrainStarts();
    var started := Served(Opened(Idle), map[], 1, 0);
    RunConcat(Served(Opened(Idle), map[0 := Recovering], 1, 0), [Go(0), Go(0)], started, [CallDrain([]), Go(1)]);
    RunConcat(Init, [CallStart([]), Go(0), Go(0), Go(0), Go(0)], Served(Opened(Idle), map[0 := Recovering], 1, 0),
              [Go(0), Go(0)] + [CallDrain([]), Go(1)]);
    acts := [CallStart([]), Go(0), Go(0), Go(0), Go(0)] + ([Go(0), Go(0)] + [CallDrain([]), Go(1)]);
  }

  /**
   * So does a close call that is cancelled while it waits for the drains: the drains end, but
   * the runtime stays closing and the next close call waits for a teardown that never comes.
   */
  lemma CancelledCloseBlocksClose() returns (acts: seq<Action>, s: State)
    ensures Run(Init, acts) == Some(s) && Lost(s) && s.torn == 0 && s.leaked == 0
    ensures s.core.closing && s.core.idle && s.core.active == 0
    ensures s.tasks == map[3 := CloseFollows] && forall t :: !Enabled(s, Go(t))
  {
    var first := ReachesDraining();
    var rest := CancelledCloseTail();
    s := Abandoned(ClosingBegun(Opened(Idle)), map[3 := CloseFollows], 4, 1);
    RunConcat(Init, first, Draining, rest);
    acts := first + rest;
  }

  // ---------------------------------------------------------------- the objects

  class GroupSceneActor {
    const key: Key
    var running: bool

    constructor (key: Key)
      ensures this.key == key && running
    {
      this.key := key;
      running := true;
    }

    method Close()
      modifies this
      ensures !running
    {
      running := false;
    }
  }

  datatype Routing = Routed(actor: GroupSceneActor) | NoGroup | FabricClosed

  class SocialEventFabric {
    var actors: map<Key, GroupSceneActor>
    var closed: bool

    ghost predicate Valid()
      reads this
    {
      (forall k :: k in actors ==> actors[k].key == k) && (closed ==> actors == map[])
    }

    constructor ()
      ensures Valid() && !closed && actors == map[]
    {
      actors, closed := map[], false;
    }

    method Open()
      requires Valid()
      modifies this
      ensures Valid() && !closed && actors == old(actors)
    {
      closed := false;
    }

    /** An actor is made only when none is registered for the key. */
    method Notify(group: Key) returns (r: Routing)
      requires Valid()
      modifies this
      ensures Valid() && closed == old(closed)
      ensures r == NoGroup <==> group == ""
      ensures r == FabricClosed <==> group != "" && closed
      ensures r.Routed? ==> actors == old(actors)[group := r.actor]
      ensures r.Routed? ==> if group in old(actors) then r.actor == old(actors)[group] else fresh(r.actor) && r.actor.running
      ensures !r.Routed? ==> actors == old(actors)
    {
      if group == "" {
        return NoGroup;
      }
      if closed {
        return FabricClosed;
      }
      if group !in actors {
        var actor := new GroupSceneActor(group);
        actors := actors[group := actor];
      }
      r := Routed(actors[group]);
    }

    method Close()
      requires Valid()
      modifies this, actors.Values
      ensures Valid() && closed && actors == map[]
      ensures forall a :: a in old(actors.Values) ==> !a.running
    {
      closed := true;
      var todo := actors.Values;
      actors := map[];
      while todo != {}
        invariant todo <= old(actors.Values) && closed && actors == map[]
        invariant forall a :: a in old(actors.Values) && a !in todo ==> !a.running
        decreases todo
      {
        var a :| a in todo;
        a.Close();
        todo := todo - {a};
      }
    }
  }

  datatype CloseRole = NothingToClose | Follow | Lead

  datatype StartRole = WaitForClose | AlreadyStarted | Starts | StartFailed

  class SocialRuntimeManager {
    const fabric: SocialEventFabric
    const enabled: set<Key>
    var started: bool
    var closing: bool
    var activeDrains: int
    var drainsIdle: bool
    var closed: bool

    ghost function Fields(): Core
      reads this
    {
      Core(started, closing, activeDrains, drainsIdle, closed)
    }

    constructor (enabled: set<Key>)
      ensures Fields() == Idle && this.enabled == enabled && fresh(fabric) && fabric.Valid() && fabric.actors == map[]
    {
      this.enabled := enabled;
      fabric := new SocialEventFabric();
      started, closing, activeDrains, drainsIdle, closed := false, false, 0, true, true;
    }

    method BeginDrain() returns (accepted: bool)
      modifies this
      ensures accepted == old(Fields()).Available()
      ensures Fields() == if accepted then Entered(old(Fields())) else old(Fields())
    {
      accepted := started && !closing;
      if accepted {
        activeDrains := activeDrains + 1;
        drainsIdle := false;
      }
    }

    method EndDrain()
      modifies this
      ensures Fields() == Left(old(Fields()))
    {
      activeDrains := activeDrains - 1;
      if activeDrains == 0 {
        drainsIdle := true;
      }
    }

    method BeginClose() returns (role: CloseRole)
      modifies this
      ensures role == if !old(started) then NothingToClose else if old(closing) then Follow else Lead
      ensures Fields() == if role == Lead then ClosingBegun(old(Fields())) else old(Fields())
    {
      if !started {
        return NothingToClose;
      }
      if closing {
        return Follow;
      }
      closing := true;
      closed := false;
      return Lead;
    }

    method TearDown()
      requires fabric.Valid()
      modifies this, fabric, fabric.actors.Values
      ensures Fields() == TornDown(old(Fields()))
      ensures fabric.Valid() && fabric.closed && fabric.actors == map[]
      ensures forall a :: a in old(fabric.actors.Values) ==> !a.running
    {
      fabric.Close();
      started, closing := false, false;
      closed := true;
    }

    /** The locked part of start.  Groups of a failed or earlier start keep their actors. */
    method StartLocked(pending: seq<Key>) returns (role: StartRole)
      requires fabric.Valid()
      modifies this, fabric
      ensures fabric.Valid()
      ensures role == WaitForClose <==> old(closing)
      ensures role == AlreadyStarted <==> !old(closing) && old(started)
      ensures role == StartFailed <==> !old(closing) && !old(started) && "" in pending && "" in enabled
      ensures Fields() == if role == Starts then Opened(old(Fields())) else old(Fields())
      ensures role == Starts ==>
        && !fabric.closed
        && fabric.actors.Keys == old(fabric.actors.Keys) + set g | g in pending && g in enabled
      ensures forall g :: g in old(fabric.actors) ==> g in fabric.actors && fabric.actors[g] == old(fabric.actors)[g]
      ensures role == WaitForClose || role == AlreadyStarted ==>
        fabric.actors == old(fabric.actors) && fabric.closed == old(fabric.closed)
    {
      if closing {
        return WaitForClose;
      }
      if started {
        return AlreadyStarted;
      }
      fabric.Open();
      for i := 0 to |pending|
        invariant fabric.Valid() && !fabric.closed && Fields() == old(Fields())
        invariant forall g :: g in pending[..i] && g in enabled ==> g != ""
        invariant fabric.actors.Keys == old(fabric.actors.Keys) + set g | g in pending[..i] && g in enabled
        invariant forall g :: g in old(fabric.actors) ==> fabric.actors[g] == old(fabric.actors)[g]
      {
        assert pending[..i + 1] == pending[..i] + [pending[i]];
        if pending[i] in enabled {
          var r := fabric.Notify(pending[i]);
          if r == NoGroup {
            return StartFailed;
          }
        }
      }
      assert pending[..|pending|] == pending;
      started := true;
      closed := true;
      return Starts;
    }
  }
}
